/**
 * The records stored by the backend: leads and the notes attached to them.
 * `LeadSource` and `LeadStatus` are closed string unions in the front end;
 * here they are datatypes, together with their wire spelling.
 */
module LeadTypes {
  import opened Wrappers

  /** Where a lead came from. */
  datatype LeadSource = Website | Instagram | Referral | LinkedIn | Other

  /** The pipeline stage of a lead; any stage may be set from any other. */
  datatype LeadStatus = New | Contacted | Converted

  /**
   * A lead row. `fullName` and `email` are always present; `phone`,
   * `followUpDate` and `createdBy` may be null (`None`).
   * Timestamps and the follow-up date are kept as the strings the backend sends.
   */
  datatype Lead = Lead(
    id: string,
    fullName: string,
    email: string,
    phone: Option<string>,
    source: LeadSource,
    status: LeadStatus,
    followUpDate: Option<string>,
    createdAt: string,
    updatedAt: string,
    createdBy: Option<string>)

  /** A note row; `leadId` names the lead that owns it. */
  datatype LeadNote = LeadNote(
    id: string,
    leadId: string,
    text: string,
    createdAt: string,
    createdBy: Option<string>)

  /** The wire spelling of a source. */
  function SourceName(s: LeadSource): string {
    match s
    case Website => "website"
    case Instagram => "instagram"
    case Referral => "referral"
    case LinkedIn => "linkedin"
    case Other => "other"
  }

  /** The wire spelling of a status. */
  function StatusName(s: LeadStatus): string {
    match s
    case New => "new"
    case Contacted => "contacted"
    case Converted => "converted"
  }

  /** Reads a source from its wire spelling; any other string is not a source. */
  function ParseSource(t: string): (r: Option<LeadSource>)
    ensures forall s :: r == Some(s) <==> SourceName(s) == t
  {
    if t == "website" then Some(Website)
    else if t == "instagram" then Some(Instagram)
    else if t == "referral" then Some(Referral)
    else if t == "linkedin" then Some(LinkedIn)
    else if t == "other" then Some(Other)
    else None
  }

  /** Reads a status from its wire spelling; any other string is not a status. */
  function ParseStatus(t: string): (r: Option<LeadStatus>)
    ensures forall s :: r == Some(s) <==> StatusName(s) == t
  {
    if t == "new" then Some(New)
    else if t == "contacted" then Some(Contacted)
    else if t == "converted" then Some(Converted)
    else None
  }

  /** Every status, once each, in the order the select lists them. */
  function AllStatuses(): (r: seq<LeadStatus>)
    ensures |r| == 3
    ensures forall s :: s in r
    ensures forall i, j :: 0 <= i < j < |r| ==> r[i] != r[j]
  {
    var r := [New, Contacted, Converted];
    assert forall s :: s in r by {
      forall s: LeadStatus ensures s in r {
        var k := match s case New => 0 case Contacted => 1 case Converted => 2;
        assert r[k] == s;
      }
    }
    r
  }

  /** Every source, once each, in the order the select lists them. */
  function AllSources(): (r: seq<LeadSource>)
    ensures |r| == 5
    ensures forall s :: s in r
    ensures forall i, j :: 0 <= i < j < |r| ==> r[i] != r[j]
  {
    var r := [Website, Instagram, Referral, LinkedIn, Other];
    assert forall s :: s in r by {
      forall s: LeadSource ensures s in r {
        var k := match s
          case Website => 0 case Instagram => 1 case Referral => 2 case LinkedIn => 3 case Other => 4;
        assert r[k] == s;
      }
    }
    r
  }

  /** Exactly three strings are statuses. */
  lemma StatusStrings(t: string)
    ensures ParseStatus(t).Some? <==> t == "new" || t == "contacted" || t == "converted"
  {
  }

  /** Exactly five strings are sources. */
  lemma SourceStrings(t: string)
    ensures ParseSource(t).Some? <==> t in ["website", "instagram", "referral", "linkedin", "other"]
  {
  }
}
