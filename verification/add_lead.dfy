/**
 * The "Add New Lead" page: a form edited field by field, a submit handler
 * that refuses a blank name or email, and the `createLead` payload it sends.
 */
module AddLead {
  import opened Wrappers
  import opened LeadTypes
  import opened JsString
  import opened ServicePayloads
  import opened QueryCache

  /** The form state; every text field is the raw input. */
  datatype AddForm = AddForm(fullName: string, email: string, phone: string, source: LeadSource, followUpDate: string)

  /** The form when the page opens: empty text fields, source `website`. */
  function InitialAddForm(): (f: AddForm)
    ensures f.fullName == f.email == f.phone == f.followUpDate == ""
    ensures f.source == Website
  {
    AddForm("", "", "", Website, "")
  }

  /** One `onChange` of the form: the field it names and its new value. */
  datatype AddInput =
    | NameInput(text: string)
    | EmailInput(text: string)
    | PhoneInput(text: string)
    | SourceInput(source: LeadSource)
    | FollowUpInput(text: string)

  /** `setForm(f => ({ ...f, field: value }))`: the named field takes the value, the others keep theirs. */
  function WithInput(f: AddForm, e: AddInput): (g: AddForm)
    ensures g.fullName == if e.NameInput? then e.text else f.fullName
    ensures g.email == if e.EmailInput? then e.text else f.email
    ensures g.phone == if e.PhoneInput? then e.text else f.phone
    ensures g.source == if e.SourceInput? then e.source else f.source
    ensures g.followUpDate == if e.FollowUpInput? then e.text else f.followUpDate
  {
    match e
    case NameInput(t) => f.(fullName := t)
    case EmailInput(t) => f.(email := t)
    case PhoneInput(t) => f.(phone := t)
    case SourceInput(s) => f.(source := s)
    case FollowUpInput(t) => f.(followUpDate := t)
  }

  /**
   * The `createLead` argument built from the form. Name and email go as typed
   * (untrimmed); an empty phone or follow-up date is left out; there is no
   * status key, so the backend's default applies. Nothing of the form is lost.
   */
  function CreatePayload(f: AddForm): (p: NewLead)
    ensures p.fullName == f.fullName && p.email == f.email && p.source == f.source
    ensures p.phone != Some("") && p.followUpDate != Some("")
    ensures FormOfPayload(p) == f
  {
    NewLead(f.fullName, f.email, NoneIfEmpty(f.phone), f.source, NoneIfEmpty(f.followUpDate))
  }

  /** Reads a payload back into a form, an omitted field as the empty string. */
  function FormOfPayload(p: NewLead): AddForm {
    AddForm(p.fullName, p.email, OrElse(p.phone, ""), p.source, OrElse(p.followUpDate, ""))
  }

  /** A payload with no empty optional string is what its own form sends. */
  lemma PayloadOfForm(p: NewLead)
    requires p.phone != Some("") && p.followUpDate != Some("")
    ensures CreatePayload(FormOfPayload(p)) == p
  {
    NullableRoundTrip(p.phone);
    NullableRoundTrip(p.followUpDate);
  }

  /** The toast shown when the guard refuses the form. */
  const RequiredMessage: string := "Name and email are required"

  /** What `handleSubmit` does: an error toast, or `createLead` with the payload. */
  datatype SubmitResult = Rejected(message: string) | Submitted(payload: NewLead)

  /**
   * The submit guard: the mutation fires exactly when both the name and the
   * email have a non-white-space character.
   */
  function Submit(f: AddForm): (r: SubmitResult)
    ensures r.Submitted? <==> !Blank(f.fullName) && !Blank(f.email)
    ensures r.Submitted? ==> r.payload == CreatePayload(f)
    ensures r.Rejected? ==> r.message == RequiredMessage
  {
    TrimEmptyIffBlank(f.fullName);
    TrimEmptyIffBlank(f.email);
    if Trim(f.fullName) == "" || Trim(f.email) == "" then Rejected(RequiredMessage)
    else Submitted(CreatePayload(f))
  }

  /** The page's state: the form, the `createLead` calls fired, and the error toasts shown. */
  class AddLeadPage {
    var form: AddForm
    var sent: seq<NewLead>
    var errors: seq<string>

    constructor ()
      ensures form == InitialAddForm() && sent == [] && errors == []
    {
      form := InitialAddForm();
      sent := [];
      errors := [];
    }

    /** A keystroke or selection in one field. */
    method OnInput(e: AddInput)
      modifies this
      ensures form == WithInput(old(form), e)
      ensures sent == old(sent) && errors == old(errors)
    {
      form := WithInput(form, e);
    }

    /**
     * `handleSubmit`: the early-return guard, then the mutation. A rejection
     * adds its toast and sends nothing; a submission sends its payload.
     */
    method HandleSubmit()
      modifies this
      ensures form == old(form)
      ensures Submit(old(form)).Rejected? ==>
        errors == old(errors) + [Submit(old(form)).message] && sent == old(sent)
      ensures Submit(old(form)).Submitted? ==>
        sent == old(sent) + [Submit(old(form)).payload] && errors == old(errors)
    {
      TrimEmptyIffBlank(form.fullName);
      TrimEmptyIffBlank(form.email);
      if Trim(form.fullName) == "" || Trim(form.email) == "" {
        errors := errors + [RequiredMessage];
        return;
      }
      sent := sent + [CreatePayload(form)];
    }

    /** The mutation's `onSuccess`: invalidate the lead list, then go to it. */
    method OnCreated(cache: Cache) returns (to: string)
      modifies cache
      ensures cache.State() == AfterSuccess(old(cache.State()), CreateLead)
      ensures to == "/leads"
    {
      ghost var before := cache.State();
      cache.Invalidate(LeadsKey());
      InvalidateOne(before, LeadsKey());
      to := "/leads";
    }
  }
}
