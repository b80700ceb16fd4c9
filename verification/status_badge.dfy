/** The status badge: a fixed label and CSS class per lead status. */
module StatusBadge {
  import opened LeadTypes
  import opened JsString

  datatype BadgeConfig = BadgeConfig(displayLabel: string, className: string)

  /**
   * The `statusConfig` record, total over the three statuses. The label is
   * the status name with its first letter upper-cased, and the class is
   * `status-badge-` followed by the status name.
   */
  function StatusConfig(s: LeadStatus): (c: BadgeConfig)
    ensures c.className == "status-badge-" + StatusName(s)
    ensures |c.displayLabel| == |StatusName(s)| > 0
    ensures c.displayLabel[0] == UpperChar(StatusName(s)[0]) && c.displayLabel[1..] == StatusName(s)[1..]
  {
    match s
    case New =>
      assert "New"[1..] == "new"[1..];
      BadgeConfig("New", "status-badge-new")
    case Contacted =>
      assert "Contacted"[1..] == "contacted"[1..];
      BadgeConfig("Contacted", "status-badge-contacted")
    case Converted =>
      assert "Converted"[1..] == "converted"[1..];
      BadgeConfig("Converted", "status-badge-converted")
  }

  /** The classes on the rendered badge: the fixed layout classes, then the status class. */
  function BadgeClasses(s: LeadStatus): (r: string)
    ensures exists k :: 0 <= k <= |r| && r[k..] == "status-badge-" + StatusName(s)
  {
    var layout := "inline-flex items-center px-2.5 py-0.5 rounded-full text-xs font-medium ";
    var r := layout + StatusConfig(s).className;
    assert r[|layout|..] == StatusConfig(s).className;
    r
  }

  /** Distinct statuses show distinct labels and distinct classes. */
  lemma ConfigInjective(a: LeadStatus, b: LeadStatus)
    ensures StatusConfig(a).displayLabel == StatusConfig(b).displayLabel ==> a == b
    ensures StatusConfig(a).className == StatusConfig(b).className ==> a == b
  {
  }
}
