/**
 * The client-side query cache as the pages use it: each query key holds the
 * data of its last fetch, and a successful mutation invalidates a fixed list
 * of key prefixes. An invalidated entry keeps its data but is stale, so the
 * query refetches it. Staleness by age is not modelled: "fresh" here means
 * "not invalidated since its last fetch".
 */
module QueryCache {
  import opened LeadTypes

  /** A query key such as `['leads']` or `['lead', id]`. */
  type QueryKey = seq<string>

  /** The list of all leads (list page and dashboard). */
  function LeadsKey(): QueryKey { ["leads"] }

  /** One lead (detail and edit pages). */
  function LeadKey(id: string): QueryKey { ["lead", id] }

  /** The notes of one lead (detail page). */
  function NotesKey(id: string): QueryKey { ["lead-notes", id] }

  datatype CachedData = LeadList(leads: seq<Lead>) | OneLead(lead: Lead) | NoteList(notes: seq<LeadNote>)

  /** The last fetched data per key, and the keys invalidated since their fetch. */
  datatype CacheState = CacheState(data: map<QueryKey, CachedData>, stale: set<QueryKey>)

  /** A key that holds data and has not been invalidated since its last fetch. */
  predicate Fresh(c: CacheState, k: QueryKey) {
    k in c.data && k !in c.stale
  }

  /** `invalidateQueries({ queryKey: prefix })`: every cached key that starts with `prefix` becomes stale. */
  function MarkStale(c: CacheState, prefix: QueryKey): (r: CacheState)
    ensures r.data == c.data
    ensures forall k :: Fresh(r, k) <==> Fresh(c, k) && !(prefix <= k)
  {
    CacheState(c.data, c.stale + set k | k in c.data && prefix <= k)
  }

  /** A fetch of `key` completed with `d`: the entry is replaced and fresh, no other entry changes. */
  function Stored(c: CacheState, key: QueryKey, d: CachedData): (r: CacheState)
    ensures Fresh(r, key) && r.data[key] == d
    ensures forall k :: k != key ==> (Fresh(r, k) <==> Fresh(c, k)) && (k in r.data <==> k in c.data)
    ensures r.data == c.data[key := d]
  {
    CacheState(c.data[key := d], c.stale - {key})
  }

  /** Some prefix of the list matches `k`. */
  predicate MatchesAny(prefixes: seq<QueryKey>, k: QueryKey)
    decreases |prefixes|
  {
    prefixes != [] && (prefixes[0] <= k || MatchesAny(prefixes[1..], k))
  }

  /** Invalidates the prefixes one after the other. */
  function InvalidateAll(c: CacheState, prefixes: seq<QueryKey>): (r: CacheState)
    ensures r.data == c.data
    ensures forall k :: Fresh(r, k) <==> Fresh(c, k) && !MatchesAny(prefixes, k)
    decreases |prefixes|
  {
    if prefixes == [] then c
    else InvalidateAll(MarkStale(c, prefixes[0]), prefixes[1..])
  }

  /** Invalidating a one-key list is one `MarkStale`. */
  lemma InvalidateOne(c: CacheState, a: QueryKey)
    ensures InvalidateAll(c, [a]) == MarkStale(c, a)
  {
    assert [a][1..] == [];
  }

  /** Invalidating a two-key list is two `MarkStale`s in order. */
  lemma InvalidateTwo(c: CacheState, a: QueryKey, b: QueryKey)
    ensures InvalidateAll(c, [a, b]) == MarkStale(MarkStale(c, a), b)
  {
    assert [a, b][1..] == [b];
    InvalidateOne(MarkStale(c, a), b);
  }

  /** The mutations whose success handlers invalidate queries. */
  datatype Mutation =
    | CreateLead             // add page
    | SaveEdit(id: string)   // edit page
    | ChangeStatus(id: string)
    | ChangeFollowUp(id: string)
    | AddNote(id: string)
    | DeleteLead(id: string) // detail page

  /**
   * The keys each success handler invalidates, in call order: the list key,
   * a lead key and a notes key, each exactly for the mutations whose
   * `onSuccess` names it. This is not every key whose data the mutation
   * changes: a follow-up change leaves the list key alone.
   */
  function Invalidations(m: Mutation): (r: seq<QueryKey>)
    ensures 1 <= |r| <= 2
    ensures LeadsKey() in r <==> InvalidatesList(m)
    ensures forall x :: LeadKey(x) in r <==> InvalidatesLead(m, x)
    ensures forall x :: NotesKey(x) in r <==> InvalidatesNotes(m, x)
    ensures forall k :: k in r ==> k == LeadsKey() || (exists x :: k == LeadKey(x) || k == NotesKey(x))
  {
    match m
    case CreateLead => [LeadsKey()]
    case SaveEdit(id) => [LeadsKey(), LeadKey(id)]
    case ChangeStatus(id) => [LeadKey(id), LeadsKey()]
    case ChangeFollowUp(id) => [LeadKey(id)]
    case AddNote(id) => [NotesKey(id)]
    case DeleteLead(id) => [LeadsKey()]
  }

  /** The cache after the success handler of `m` ran. */
  function AfterSuccess(c: CacheState, m: Mutation): (r: CacheState)
    ensures r.data == c.data
    ensures forall p, k :: p in Invalidations(m) && p <= k ==> !Fresh(r, k)
    ensures forall k :: Fresh(r, k) <==> Fresh(c, k) && !MatchesAny(Invalidations(m), k)
  {
    var r := InvalidateAll(c, Invalidations(m));
    forall p, k | p in Invalidations(m) && p <= k ensures MatchesAny(Invalidations(m), k) {
      MatchesMember(Invalidations(m), p, k);
    }
    r
  }

  /** A prefix in the list that matches `k` makes the list match it. */
  lemma {:induction false} MatchesMember(prefixes: seq<QueryKey>, p: QueryKey, k: QueryKey)
    requires p in prefixes && p <= k
    ensures MatchesAny(prefixes, k)
    decreases |prefixes|
  {
    if prefixes[0] != p {
      MatchesMember(prefixes[1..], p, k);
    }
  }

  /** The mutations whose `onSuccess` invalidates the lead list `['leads']`. */
  predicate InvalidatesList(m: Mutation) {
    m.CreateLead? || m.SaveEdit? || m.ChangeStatus? || m.DeleteLead?
  }

  /** The mutations whose `onSuccess` invalidates the detail `['lead', x]` of lead `x`. */
  predicate InvalidatesLead(m: Mutation, x: string) {
    (m.SaveEdit? || m.ChangeStatus? || m.ChangeFollowUp?) && m.id == x
  }

  /** The mutations whose `onSuccess` invalidates the notes `['lead-notes', x]` of lead `x`. */
  predicate InvalidatesNotes(m: Mutation, x: string) {
    m == AddNote(x)
  }

  lemma MatchesPair(a: QueryKey, b: QueryKey, k: QueryKey)
    ensures MatchesAny([a, b], k) <==> a <= k || b <= k
  {
    assert [a, b][1..] == [b];
    assert [b][1..] == [];
    assert MatchesAny([b], k) == (b <= k || MatchesAny([], k));
    assert MatchesAny([a, b], k) == (a <= k || MatchesAny([b], k));
  }

  /** The three kinds of key do not match one another's prefixes; a lead key matches only itself. */
  lemma KeyPrefixes(x: string, y: string)
    ensures !(LeadsKey() <= LeadKey(x)) && !(LeadsKey() <= NotesKey(x))
    ensures !(LeadKey(x) <= LeadsKey()) && !(NotesKey(x) <= LeadsKey())
    ensures LeadKey(x) <= LeadKey(y) <==> x == y
    ensures NotesKey(x) <= NotesKey(y) <==> x == y
    ensures !(LeadKey(x) <= NotesKey(y)) && !(NotesKey(x) <= LeadKey(y))
  {
    assert LeadsKey()[0] != LeadKey(x)[0];
    assert LeadsKey()[0] != NotesKey(x)[0];
    assert LeadKey(x)[0] != NotesKey(y)[0];
    if LeadKey(x) <= LeadKey(y) {
      assert LeadKey(x)[1] == LeadKey(y)[1];
    }
    if NotesKey(x) <= NotesKey(y) {
      assert NotesKey(x)[1] == NotesKey(y)[1];
    }
  }

  /**
   * On the keys the pages read, a success handler makes stale exactly the
   * entries its `onSuccess` names, and leaves every other entry as it was.
   */
  lemma SuccessEffects(c: CacheState, m: Mutation, x: string)
    ensures Fresh(AfterSuccess(c, m), LeadsKey()) <==> Fresh(c, LeadsKey()) && !InvalidatesList(m)
    ensures Fresh(AfterSuccess(c, m), LeadKey(x)) <==> Fresh(c, LeadKey(x)) && !InvalidatesLead(m, x)
    ensures Fresh(AfterSuccess(c, m), NotesKey(x)) <==> Fresh(c, NotesKey(x)) && !InvalidatesNotes(m, x)
  {
    match m
    case CreateLead => KeyPrefixes(x, x);
    case SaveEdit(id) =>
      KeyPrefixes(id, x);
      MatchesPair(LeadsKey(), LeadKey(id), LeadKey(x));
      MatchesPair(LeadsKey(), LeadKey(id), NotesKey(x));
      MatchesPair(LeadsKey(), LeadKey(id), LeadsKey());
    case ChangeStatus(id) =>
      KeyPrefixes(id, x);
      MatchesPair(LeadKey(id), LeadsKey(), LeadKey(x));
      MatchesPair(LeadKey(id), LeadsKey(), NotesKey(x));
      MatchesPair(LeadKey(id), LeadsKey(), LeadsKey());
    case ChangeFollowUp(id) => KeyPrefixes(id, x);
    case AddNote(id) => KeyPrefixes(id, x);
    case DeleteLead(id) => KeyPrefixes(id, x);
  }

  /**
   * A completed fetch is what later reads return: after it, and after any
   * invalidations that do not match the key, the entry is fresh and holds
   * the fetched data.
   */
  lemma ReadAfterStore(c: CacheState, k: QueryKey, d: CachedData, prefixes: seq<QueryKey>)
    requires !MatchesAny(prefixes, k)
    ensures var r := InvalidateAll(Stored(c, k, d), prefixes); Fresh(r, k) && r.data[k] == d
  {
  }

  /** The cache object shared by the pages. */
  class Cache {
    var data: map<QueryKey, CachedData>
    var stale: set<QueryKey>

    function State(): CacheState
      reads this
    {
      CacheState(data, stale)
    }

    constructor ()
      ensures State() == CacheState(map[], {})
    {
      data := map[];
      stale := {};
    }

    /**
     * The data `useQuery` returns for a cached key: the entry's data, fresh
     * or stale (a stale entry is shown while it refetches).
     */
    function Read(key: QueryKey): (r: CachedData)
      reads this
      requires key in State().data
      ensures r == State().data[key]
    {
      data[key]
    }

    /** Records the result of a completed fetch. */
    method Store(key: QueryKey, d: CachedData)
      modifies this
      ensures State() == Stored(old(State()), key, d)
    {
      data := data[key := d];
      stale := stale - {key};
    }

    /** `queryClient.invalidateQueries({ queryKey: prefix })` */
    method Invalidate(prefix: QueryKey)
      modifies this
      ensures State() == MarkStale(old(State()), prefix)
    {
      stale := stale + set k | k in data && prefix <= k;
    }
  }
}
