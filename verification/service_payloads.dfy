/**
 * The argument shapes of the data-service calls the pages make
 * (`createLead`, `updateLead`, `addLeadNote`). The calls themselves run
 * on the hosted backend and are not part of this model; only what the
 * pages send is.
 */
module ServicePayloads {
  import opened Wrappers
  import opened LeadTypes
  import opened JsString

  /** The `createLead` argument; an optional field that is `None` is omitted (`undefined`). */
  datatype NewLead = NewLead(
    fullName: string,
    email: string,
    phone: Option<string>,
    source: LeadSource,
    followUpDate: Option<string>)

  /** A key of a partial-update object: either left out, or present with a value. */
  datatype Field<+T> = Absent | Present(value: T)

  /**
   * The `updateLead` argument. Every key is optional; `phone` and
   * `followUpDate`, when present, may be `null` (`None`).
   */
  datatype LeadUpdate = LeadUpdate(
    fullName: Field<string>,
    email: Field<string>,
    phone: Field<Option<string>>,
    source: Field<LeadSource>,
    status: Field<LeadStatus>,
    followUpDate: Field<Option<string>>)

  /** One `updateLead(id, update)` call. */
  datatype UpdateCall = UpdateCall(id: string, update: LeadUpdate)

  /** The names of the keys an update may carry. */
  datatype UpdateKey = FullNameKey | EmailKey | PhoneKey | SourceKey | StatusKey | FollowUpDateKey

  /** The update with no key at all. */
  function EmptyUpdate(): LeadUpdate {
    LeadUpdate(Absent, Absent, Absent, Absent, Absent, Absent)
  }

  /** The keys present in an update object. */
  function PresentKeys(u: LeadUpdate): set<UpdateKey> {
    (if u.fullName.Present? then {FullNameKey} else {})
    + (if u.email.Present? then {EmailKey} else {})
    + (if u.phone.Present? then {PhoneKey} else {})
    + (if u.source.Present? then {SourceKey} else {})
    + (if u.status.Present? then {StatusKey} else {})
    + (if u.followUpDate.Present? then {FollowUpDateKey} else {})
  }

  /** The six keys a lead's editable part consists of. */
  function AllUpdateKeys(): set<UpdateKey> {
    {FullNameKey, EmailKey, PhoneKey, SourceKey, StatusKey, FollowUpDateKey}
  }

  /**
   * `s || undefined` and `s || null`: the empty string becomes absent, any
   * other string is kept. Reading the result back with `|| ''` gives `s`.
   */
  function NoneIfEmpty(s: string): (r: Option<string>)
    ensures r != Some("")
    ensures OrElse(r, "") == s
  {
    if s == "" then None else Some(s)
  }

  /** Going through the form and back keeps a nullable value exactly when it is not the empty string. */
  lemma NullableRoundTrip(v: Option<string>)
    ensures NoneIfEmpty(OrElse(v, "")) == v <==> v != Some("")
  {
  }

  /** The `addLeadNote(leadId, text)` insert: `{ lead_id, text }`. */
  datatype NewNote = NewNote(leadId: string, text: string)
}
