/**
 * The leads list page: a case-insensitive search on name or email,
 * combined with a status filter whose sentinel `"all"` lets every status
 * through. Filtering runs over the already-fetched list.
 */
module LeadsPage {
  import opened Wrappers
  import opened LeadTypes
  import opened JsString

  /** The status filter's initial value, which matches every status. */
  const AllStatusFilter: string := "all"

  /** The lowered search term occurs in the lowered name or the lowered email. */
  predicate MatchesSearch(l: Lead, search: string) {
    || Includes(ToLower(l.fullName), ToLower(search))
    || Includes(ToLower(l.email), ToLower(search))
  }

  /** The filter is the sentinel or spells the lead's status exactly. */
  predicate MatchesStatus(l: Lead, statusFilter: string) {
    statusFilter == AllStatusFilter || StatusName(l.status) == statusFilter
  }

  /** The per-lead predicate of the list filter. */
  predicate Kept(l: Lead, search: string, statusFilter: string) {
    MatchesSearch(l, search) && MatchesStatus(l, statusFilter)
  }

  /** `leads.filter(...)`: the leads that match both the search and the status filter. */
  function Filtered(leads: seq<Lead>, search: string, statusFilter: string): (r: seq<Lead>)
    ensures |r| <= |leads|
    ensures forall l :: l in r <==> l in leads && Kept(l, search, statusFilter)
  {
    if leads == [] then []
    else
      var init, last := leads[..|leads| - 1], leads[|leads| - 1];
      assert leads == init + [last];
      Filtered(init, search, statusFilter) + (if Kept(last, search, statusFilter) then [last] else [])
  }

  /**
   * The positions of the kept leads, in increasing order: a witness that the
   * filtered list is an order-preserving selection of the input.
   */
  function KeptPositions(leads: seq<Lead>, search: string, statusFilter: string): (idx: seq<nat>)
    ensures forall j :: 0 <= j < |idx| ==> idx[j] < |leads|
    ensures forall j, k :: 0 <= j < k < |idx| ==> idx[j] < idx[k]
    ensures forall i :: 0 <= i < |leads| ==> (i in idx <==> Kept(leads[i], search, statusFilter))
  {
    if leads == [] then []
    else
      var n := |leads| - 1;
      var prev := KeptPositions(leads[..n], search, statusFilter);
      assert forall i :: 0 <= i < n ==> leads[..n][i] == leads[i];
      prev + (if Kept(leads[n], search, statusFilter) then [n] else [])
  }

  /**
   * The filtered list is a subsequence of the input: its j-th lead is the
   * input lead at the j-th kept position.
   */
  lemma {:induction false} FilteredIsSubsequence(leads: seq<Lead>, search: string, statusFilter: string)
    ensures var r, idx := Filtered(leads, search, statusFilter), KeptPositions(leads, search, statusFilter);
      |idx| == |r| && forall j :: 0 <= j < |r| ==> r[j] == leads[idx[j]]
  {
    if leads != [] {
      var n := |leads| - 1;
      var init := leads[..n];
      FilteredIsSubsequence(init, search, statusFilter);
      var r0, idx0 := Filtered(init, search, statusFilter), KeptPositions(init, search, statusFilter);
      var keep := Kept(leads[n], search, statusFilter);
      assert Filtered(leads, search, statusFilter) == r0 + (if keep then [leads[n]] else []);
      assert KeptPositions(leads, search, statusFilter) == idx0 + (if keep then [n] else []);
      SelectionSnoc(leads, r0, idx0, keep);
    }
  }

  /** A selection of the first leads, extended by the last lead or not, is still a selection. */
  lemma SelectionSnoc(leads: seq<Lead>, r0: seq<Lead>, idx0: seq<nat>, keep: bool)
    requires leads != [] && |idx0| == |r0|
    requires forall j :: 0 <= j < |r0| ==> idx0[j] < |leads| - 1 && r0[j] == leads[..|leads| - 1][idx0[j]]
    ensures var n := |leads| - 1;
      var r, idx := r0 + (if keep then [leads[n]] else []), idx0 + (if keep then [n] else []);
      |idx| == |r| && forall j :: 0 <= j < |r| ==> r[j] == leads[idx[j]]
  {
  }

  /** A list whose every lead is kept passes through the filter unchanged. */
  lemma {:induction false} FilterKeepsAllKept(leads: seq<Lead>, search: string, statusFilter: string)
    requires forall l :: l in leads ==> Kept(l, search, statusFilter)
    ensures Filtered(leads, search, statusFilter) == leads
  {
    if leads != [] {
      var n := |leads| - 1;
      assert leads == leads[..n] + [leads[n]];
      FilterKeepsAllKept(leads[..n], search, statusFilter);
    }
  }

  /** Filtering an already filtered list with the same search and filter changes nothing. */
  lemma FilterIdempotent(leads: seq<Lead>, search: string, statusFilter: string)
    ensures var r := Filtered(leads, search, statusFilter);
      Filtered(r, search, statusFilter) == r
  {
    FilterKeepsAllKept(Filtered(leads, search, statusFilter), search, statusFilter);
  }

  /** With the page's initial state (empty search, filter `"all"`) every lead is listed. */
  lemma InitialStateListsAll(leads: seq<Lead>)
    ensures Filtered(leads, "", AllStatusFilter) == leads
  {
    forall l | l in leads ensures Kept(l, "", AllStatusFilter) {
      EmptyIncluded(ToLower(l.fullName));
    }
    FilterKeepsAllKept(leads, "", AllStatusFilter);
  }

  /** Filtering by a concrete status lists only leads with that status. */
  lemma ConcreteStatusFilter(leads: seq<Lead>, search: string, s: LeadStatus)
    ensures forall l :: l in Filtered(leads, search, StatusName(s)) ==> l.status == s
  {
  }

  /** A filter that is neither `"all"` nor a status name lists nothing. */
  lemma UnknownFilterListsNothing(leads: seq<Lead>, search: string, statusFilter: string)
    requires statusFilter != AllStatusFilter && ParseStatus(statusFilter).None?
    ensures Filtered(leads, search, statusFilter) == []
  {
    var r := Filtered(leads, search, statusFilter);
    forall l | l in leads ensures !MatchesStatus(l, statusFilter) {
      assert ParseStatus(statusFilter) != Some(l.status);
    }
  }

  /** Two search terms that lower-case to the same string give the same list. */
  lemma {:induction false} SearchIgnoresCase(leads: seq<Lead>, s: string, t: string, statusFilter: string)
    requires ToLower(s) == ToLower(t)
    ensures Filtered(leads, s, statusFilter) == Filtered(leads, t, statusFilter)
  {
    if leads != [] {
      SearchIgnoresCase(leads[..|leads| - 1], s, t, statusFilter);
    }
  }

  /** In particular, upper-casing the search term changes nothing. */
  lemma UpperCaseSearch(leads: seq<Lead>, s: string, statusFilter: string)
    ensures Filtered(leads, ToUpper(s), statusFilter) == Filtered(leads, s, statusFilter)
  {
    LowerOfUpper(s);
    SearchIgnoresCase(leads, ToUpper(s), s, statusFilter);
  }

  /** Searching with an already lowered term gives the same list as the term itself. */
  lemma LoweredSearch(leads: seq<Lead>, s: string, statusFilter: string)
    ensures Filtered(leads, ToLower(s), statusFilter) == Filtered(leads, s, statusFilter)
  {
    LowerIdempotent(s);
    SearchIgnoresCase(leads, ToLower(s), s, statusFilter);
  }

  /** A lead with the given name, email and status, and no optional fields. */
  function SampleLead(id: string, name: string, email: string, s: LeadStatus): Lead {
    Lead(id, name, email, None, Website, s, None, "", "", None)
  }

  /** The two leads of the search examples. */
  function Ann(): Lead { SampleLead("1", "Ann Lee", "a@x.com", New) }
  function Bob(): Lead { SampleLead("2", "Bob", "bob@y.com", New) }

  /**
   * Searching `ann` finds Ann by name only, and searching `Y.COM` finds Bob
   * by email only, whatever the case of the term.
   */
  lemma SearchExamples()
    ensures Filtered([Ann(), Bob()], "ann", AllStatusFilter) == [Ann()]
    ensures Filtered([Ann(), Bob()], "Y.COM", AllStatusFilter) == [Bob()]
  {
    AnnSearches();
    BobSearches();
    FilterPair(Ann(), Bob(), "ann", AllStatusFilter);
    FilterPair(Ann(), Bob(), "Y.COM", AllStatusFilter);
  }

  /** The filter over a two-lead list keeps each lead on its own merit, in order. */
  lemma FilterPair(a: Lead, b: Lead, search: string, statusFilter: string)
    ensures Filtered([a, b], search, statusFilter)
      == (if Kept(a, search, statusFilter) then [a] else []) + (if Kept(b, search, statusFilter) then [b] else [])
  {
    assert [a, b][..1] == [a] && [a][..0] == [];
  }

  lemma AnnSearches()
    ensures MatchesSearch(Ann(), "ann") && !MatchesSearch(Ann(), "Y.COM")
  {
    assert ToLower("Ann Lee") == "ann lee" && ToLower("ann") == "ann";
    assert ToLower("a@x.com") == "a@x.com" && ToLower("Y.COM") == "y.com";
    assert OccursAt("ann lee", "ann", 0);
    FirstCharAbsent("ann lee", "y.com");
    FirstCharAbsent("a@x.com", "y.com");
  }

  lemma BobSearches()
    ensures !MatchesSearch(Bob(), "ann") && MatchesSearch(Bob(), "Y.COM")
  {
    assert ToLower("Bob") == "bob" && ToLower("ann") == "ann";
    assert ToLower("bob@y.com") == "bob@y.com" && ToLower("Y.COM") == "y.com";
    assert OccursAt("bob@y.com", "y.com", 4);
    FirstCharAbsent("bob", "ann");
    FirstCharAbsent("bob@y.com", "ann");
  }

  /** A needle whose first character does not occur in the haystack is not included in it. */
  lemma FirstCharAbsent(hay: string, needle: string)
    requires |needle| > 0 && forall i :: 0 <= i < |hay| ==> hay[i] != needle[0]
    ensures !Includes(hay, needle)
  {
  }

  /** What the page shows: the header count, the table rows, and whether "No leads found" appears. */
  datatype LeadsView = LeadsView(totalCount: nat, rows: seq<Lead>, showsNoLeadsFound: bool)

  /**
   * The page after loading: the header counts the unfiltered list, the
   * table lists the filtered one, and the empty message shows when no row does.
   */
  function View(leads: seq<Lead>, search: string, statusFilter: string): (v: LeadsView)
    ensures v.totalCount == |leads| && |v.rows| <= v.totalCount
    ensures v.rows == Filtered(leads, search, statusFilter)
    ensures forall l :: l in v.rows <==> l in leads && Kept(l, search, statusFilter)
    ensures v.showsNoLeadsFound <==> forall l :: l in leads ==> !Kept(l, search, statusFilter)
  {
    var rows := Filtered(leads, search, statusFilter);
    assert rows != [] ==> rows[0] in rows;
    LeadsView(|leads|, rows, rows == [])
  }

  /** The header count does not depend on the search or the status filter. */
  lemma HeaderCountIgnoresFilters(leads: seq<Lead>, s1: string, f1: string, s2: string, f2: string)
    ensures View(leads, s1, f1).totalCount == View(leads, s2, f2).totalCount == |leads|
  {
  }
}
