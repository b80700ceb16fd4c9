/**
 * The "Edit Lead" page: the form is filled from the fetched lead (a null
 * phone or follow-up date shows as the empty string) and saved with every
 * editable key (an empty phone or follow-up date is sent as null).
 */
module EditLead {
  import opened Wrappers
  import opened LeadTypes
  import opened JsString
  import opened ServicePayloads
  import opened QueryCache

  /** The form state. */
  datatype EditForm = EditForm(
    fullName: string,
    email: string,
    phone: string,
    source: LeadSource,
    status: LeadStatus,
    followUpDate: string)

  /** The form before the lead has loaded. */
  function InitialEditForm(): (f: EditForm)
    ensures f.fullName == f.email == f.phone == f.followUpDate == ""
    ensures f.source == Website && f.status == New
  {
    EditForm("", "", "", Website, New, "")
  }

  /**
   * The form filled from a loaded lead: name, email, source and status are
   * copied; a null phone or follow-up date shows as the empty string.
   */
  function FormFromLead(lead: Lead): (f: EditForm)
    ensures f.fullName == lead.fullName && f.email == lead.email
    ensures f.source == lead.source && f.status == lead.status
    ensures f.phone == "" <==> lead.phone == None || lead.phone == Some("")
    ensures lead.phone.Some? ==> f.phone == lead.phone.value
    ensures f.followUpDate == "" <==> lead.followUpDate == None || lead.followUpDate == Some("")
    ensures lead.followUpDate.Some? ==> f.followUpDate == lead.followUpDate.value
  {
    EditForm(lead.fullName, lead.email, OrElse(lead.phone, ""), lead.source, lead.status, OrElse(lead.followUpDate, ""))
  }

  /** One `onChange` / `onValueChange` of the form. */
  datatype EditInput =
    | NameEdit(text: string)
    | EmailEdit(text: string)
    | PhoneEdit(text: string)
    | SourceEdit(source: LeadSource)
    | StatusEdit(status: LeadStatus)
    | FollowUpEdit(text: string)

  /** `setForm(f => ({ ...f, field: value }))`: the named field takes the value, the others keep theirs. */
  function WithEdit(f: EditForm, e: EditInput): (g: EditForm)
    ensures g.fullName == if e.NameEdit? then e.text else f.fullName
    ensures g.email == if e.EmailEdit? then e.text else f.email
    ensures g.phone == if e.PhoneEdit? then e.text else f.phone
    ensures g.source == if e.SourceEdit? then e.source else f.source
    ensures g.status == if e.StatusEdit? then e.status else f.status
    ensures g.followUpDate == if e.FollowUpEdit? then e.text else f.followUpDate
  {
    match e
    case NameEdit(t) => f.(fullName := t)
    case EmailEdit(t) => f.(email := t)
    case PhoneEdit(t) => f.(phone := t)
    case SourceEdit(s) => f.(source := s)
    case StatusEdit(s) => f.(status := s)
    case FollowUpEdit(t) => f.(followUpDate := t)
  }

  /**
   * The `updateLead` argument: all six editable keys, the text fields as
   * typed, an empty phone or follow-up date as null.
   */
  function SavePayload(f: EditForm): (u: LeadUpdate)
    ensures PresentKeys(u) == AllUpdateKeys()
    ensures u.fullName == Present(f.fullName) && u.email == Present(f.email)
    ensures u.source == Present(f.source) && u.status == Present(f.status)
    ensures OrElse(u.phone.value, "") == f.phone && u.phone.value != Some("")
    ensures OrElse(u.followUpDate.value, "") == f.followUpDate && u.followUpDate.value != Some("")
  {
    LeadUpdate(
      Present(f.fullName), Present(f.email), Present(NoneIfEmpty(f.phone)),
      Present(f.source), Present(f.status), Present(NoneIfEmpty(f.followUpDate)))
  }

  /** Saving loses nothing: different forms send different payloads. */
  lemma SavePayloadInjective(f: EditForm, g: EditForm)
    ensures SavePayload(f) == SavePayload(g) ==> f == g
  {
  }

  /** A lead's six editable fields, as a full update would carry them. */
  function EditableFields(lead: Lead): (u: LeadUpdate)
    ensures PresentKeys(u) == AllUpdateKeys()
  {
    LeadUpdate(
      Present(lead.fullName), Present(lead.email), Present(lead.phone),
      Present(lead.source), Present(lead.status), Present(lead.followUpDate))
  }

  /**
   * Loading a lead and saving without an edit sends back exactly its editable
   * fields, unless its phone or follow-up date was the empty string (that
   * comes back as null).
   */
  lemma LoadThenSave(lead: Lead)
    ensures SavePayload(FormFromLead(lead)) == EditableFields(lead)
            <==> lead.phone != Some("") && lead.followUpDate != Some("")
  {
    NullableRoundTrip(lead.phone);
    NullableRoundTrip(lead.followUpDate);
  }

  /** The page's state: the form and the `updateLead` calls fired. */
  class EditLeadPage {
    const id: string
    var form: EditForm
    var sent: seq<UpdateCall>

    constructor (id: string)
      ensures this.id == id && form == InitialEditForm() && sent == []
    {
      this.id := id;
      form := InitialEditForm();
      sent := [];
    }

    /** The effect run when the fetched lead changes: a loaded lead overwrites the form. */
    method OnLeadChanged(lead: Option<Lead>)
      modifies this
      ensures form == if lead.Some? then FormFromLead(lead.value) else old(form)
      ensures sent == old(sent)
    {
      if lead.Some? {
        form := FormFromLead(lead.value);
      }
    }

    /** A keystroke or selection in one field. */
    method OnInput(e: EditInput)
      modifies this
      ensures form == WithEdit(old(form), e) && sent == old(sent)
    {
      form := WithEdit(form, e);
    }

    /** Submitting the form fires the update; this page has no guard of its own. */
    method OnSubmit()
      modifies this
      ensures form == old(form)
      ensures sent == old(sent) + [UpdateCall(id, SavePayload(form))]
    {
      sent := sent + [UpdateCall(id, SavePayload(form))];
    }

    /** The mutation's `onSuccess`: invalidate the list and this lead, then show the lead. */
    method OnSaved(cache: Cache) returns (to: string)
      modifies cache
      ensures cache.State() == AfterSuccess(old(cache.State()), SaveEdit(id))
      ensures to == "/leads/" + id
    {
      ghost var before := cache.State();
      cache.Invalidate(LeadsKey());
      cache.Invalidate(LeadKey(id));
      InvalidateTwo(before, LeadsKey(), LeadKey(id));
      to := "/leads/" + id;
    }
  }
}
