/**
 * The dashboard's figures over the fetched leads: the total, one count per
 * status, the conversion rate as a whole percentage, and the five leads
 * listed under "Recent Leads".
 */
module Dashboard {
  import opened LeadTypes
  import opened JsString
  import opened StatusBadge
  import opened LeadsPage

  /** `leads.filter(l => l.status === s)` */
  function WithStatus(leads: seq<Lead>, s: LeadStatus): (r: seq<Lead>)
    ensures |r| <= |leads|
    ensures forall l :: l in r <==> l in leads && l.status == s
  {
    if leads == [] then []
    else
      var init, last := leads[..|leads| - 1], leads[|leads| - 1];
      assert leads == init + [last];
      WithStatus(init, s) + (if last.status == s then [last] else [])
  }

  /**
   * The per-status filter is the list page's filter with an empty search and
   * the status name as filter, so it keeps every lead of that status, in order.
   */
  lemma {:induction false} WithStatusIsFiltered(leads: seq<Lead>, s: LeadStatus)
    ensures WithStatus(leads, s) == Filtered(leads, "", StatusName(s))
  {
    if leads != [] {
      var last := leads[|leads| - 1];
      WithStatusIsFiltered(leads[..|leads| - 1], s);
      EmptyIncluded(ToLower(last.fullName));
      assert ToLower("") == "";
      assert Kept(last, "", StatusName(s)) <==> last.status == s;
    }
  }

  /** The positions of the leads with status `s`. */
  function StatusPositions(leads: seq<Lead>, s: LeadStatus): set<nat> {
    set i: nat | i < |leads| && leads[i].status == s
  }

  /** Appending a lead adds its position exactly when it holds status `s`. */
  lemma PositionsSnoc(leads: seq<Lead>, s: LeadStatus)
    requires leads != []
    ensures var n := |leads| - 1;
      StatusPositions(leads, s) == StatusPositions(leads[..n], s) + (if leads[n].status == s then {n} else {})
  {
    var n := |leads| - 1;
    forall i: nat | i < n ensures leads[..n][i] == leads[i] {
    }
  }

  /** The per-status filter keeps one lead per position holding that status. */
  lemma {:induction false} WithStatusLength(leads: seq<Lead>, s: LeadStatus)
    ensures |WithStatus(leads, s)| == |StatusPositions(leads, s)|
  {
    if leads != [] {
      var n := |leads| - 1;
      WithStatusLength(leads[..n], s);
      PositionsSnoc(leads, s);
      assert n !in StatusPositions(leads[..n], s);
    }
  }

  /** `leads.filter(l => l.status === s).length`: the number of positions holding status `s`. */
  function CountOf(leads: seq<Lead>, s: LeadStatus): (n: nat)
    ensures n == |StatusPositions(leads, s)|
  {
    WithStatusLength(leads, s);
    |WithStatus(leads, s)|
  }

  /** Every lead is counted under exactly one status. */
  lemma {:induction false} CountsPartitionTotal(leads: seq<Lead>)
    ensures CountOf(leads, New) + CountOf(leads, Contacted) + CountOf(leads, Converted) == |leads|
  {
    if leads != [] {
      CountsPartitionTotal(leads[..|leads| - 1]);
    }
  }

  /** A status no lead has counts zero; a status every lead has counts them all. */
  lemma {:induction false} CountExtremes(leads: seq<Lead>, s: LeadStatus)
    ensures (forall l :: l in leads ==> l.status != s) ==> CountOf(leads, s) == 0
    ensures (forall l :: l in leads ==> l.status == s) ==> CountOf(leads, s) == |leads|
  {
    if leads != [] {
      var init := leads[..|leads| - 1];
      assert forall l :: l in init ==> l in leads;
      CountExtremes(init, s);
    }
  }

  /**
   * `total > 0 ? Math.round((converted / total) * 100) : 0`, computed exactly:
   * the percentage rounded to the nearest whole number, halves rounded up.
   */
  function ConversionRate(converted: nat, total: nat): (r: nat)
    ensures total == 0 ==> r == 0
    ensures total > 0 ==> 2 * total * r <= 200 * converted + total < 2 * total * (r + 1)
    ensures converted <= total ==> r <= 100
    ensures converted == 0 ==> r == 0
    ensures 0 < total == converted ==> r == 100
  {
    if total > 0 then
      var r := (200 * converted + total) / (2 * total);
      RoundingBounds(converted, total, r);
      r
    else 0
  }

  /** What the exact quotient tells about the rounded rate. */
  lemma RoundingBounds(c: nat, t: nat, r: nat)
    requires t > 0 && r == (200 * c + t) / (2 * t)
    ensures 2 * t * r <= 200 * c + t < 2 * t * (r + 1)
    ensures c <= t ==> r <= 100
    ensures c == 0 ==> r == 0
    ensures c == t ==> r == 100
  {
    QuotientBounds(200 * c + t, 2 * t);
    Distribute(2 * t, r);
    if c <= t && r > 100 {
      MulMonotone(2 * t, 101, r);
    }
    if c == 0 && r > 0 {
      MulMonotone(2 * t, 1, r);
    }
    if c == t && r < 100 {
      MulMonotone(2 * t, r + 1, 100);
    }
  }

  lemma QuotientBounds(a: nat, d: nat)
    requires d > 0
    ensures d * (a / d) <= a < d * (a / d) + d
  {
  }

  lemma Distribute(d: nat, r: nat)
    ensures d * (r + 1) == d * r + d
  {
  }

  lemma MulMonotone(d: nat, a: nat, b: nat)
    requires a <= b
    ensures d * a <= d * b
  {
  }

  /** The five figures of the stat cards. */
  datatype Stats = Stats(total: nat, newCount: nat, contactedCount: nat, convertedCount: nat, conversionRate: nat)

  /** The stat cards' values for the fetched leads. */
  function ComputeStats(leads: seq<Lead>): (st: Stats)
    ensures st.total == |leads|
    ensures st.newCount == CountOf(leads, New) && st.contactedCount == CountOf(leads, Contacted)
    ensures st.convertedCount == CountOf(leads, Converted)
    ensures st.conversionRate == ConversionRate(st.convertedCount, st.total)
    ensures st.newCount + st.contactedCount + st.convertedCount == st.total
    ensures st.newCount <= st.total && st.contactedCount <= st.total && st.convertedCount <= st.total
    ensures st.conversionRate <= 100
    ensures st.total == 0 ==> st.conversionRate == 0
    ensures (forall l :: l in leads ==> l.status != Converted) ==> st.conversionRate == 0
    ensures st.total > 0 && (forall l :: l in leads ==> l.status == Converted) ==> st.conversionRate == 100
  {
    CountsPartitionTotal(leads);
    CountExtremes(leads, Converted);
    var converted := CountOf(leads, Converted);
    Stats(|leads|, CountOf(leads, New), CountOf(leads, Contacted), converted, ConversionRate(converted, |leads|))
  }

  /** `leads.slice(0, 5)`: the first five leads, or all of them when there are fewer. */
  function RecentLeads(leads: seq<Lead>): (r: seq<Lead>)
    ensures |r| == if |leads| < 5 then |leads| else 5
    ensures r <= leads
  {
    if |leads| < 5 then leads else leads[..5]
  }

  /**
   * `status.charAt(0).toUpperCase() + status.slice(1)`, the label of a recent
   * lead: the same label the status badge shows.
   */
  function InlineStatusLabel(s: LeadStatus): (r: string)
    ensures r == StatusConfig(s).displayLabel
  {
    var name, cfg := StatusName(s), StatusConfig(s);
    assert Capitalize(name) == [UpperChar(name[0])] + name[1..];
    assert cfg.displayLabel == [cfg.displayLabel[0]] + cfg.displayLabel[1..];
    Capitalize(name)
  }

  /** `status-badge-${lead.status}`, the class of a recent lead's label: the status badge's class. */
  function InlineStatusClass(s: LeadStatus): (r: string)
    ensures r == StatusConfig(s).className
  {
    "status-badge-" + StatusName(s)
  }
}
