/**
 * The lead detail page: the status select, the follow-up date input, the
 * note box and the delete button, each firing one mutation whose success
 * handler invalidates its own set of queries.
 */
module LeadDetail {
  import opened Wrappers
  import opened LeadTypes
  import opened JsString
  import opened ServicePayloads
  import opened QueryCache

  /** `updateLead(id, { status })`: an update carrying the status key alone. */
  function StatusUpdate(s: LeadStatus): (u: LeadUpdate)
    ensures PresentKeys(u) == {StatusKey}
    ensures u.status == Present(s)
  {
    EmptyUpdate().(status := Present(s))
  }

  /**
   * `updateLead(id, { follow_up_date: date || null })`: an update carrying
   * the follow-up date alone, null when the input was cleared.
   */
  function FollowUpUpdate(date: string): (u: LeadUpdate)
    ensures PresentKeys(u) == {FollowUpDateKey}
    ensures u.followUpDate.value != Some("") && OrElse(u.followUpDate.value, "") == date
  {
    EmptyUpdate().(followUpDate := Present(NoneIfEmpty(date)))
  }

  /**
   * `disabled={!noteText.trim() || pending}`, negated: the button is enabled
   * exactly when no note is being saved and the text is not all white space.
   */
  function AddNoteEnabled(noteText: string, pending: bool): (r: bool)
    ensures r <==> !pending && !Blank(noteText)
  {
    TrimEmptyIffBlank(noteText);
    Trim(noteText) != "" && !pending
  }

  /**
   * `noteText.trim() && noteMutation.mutate()`: a click adds the note exactly
   * when the text has a non-white-space character, and sends it as typed.
   */
  function AddNoteClick(id: string, noteText: string): (r: Option<NewNote>)
    ensures r.Some? <==> !Blank(noteText)
    ensures r.Some? ==> r.value.leadId == id && r.value.text == noteText
  {
    TrimEmptyIffBlank(noteText);
    if Trim(noteText) != "" then Some(NewNote(id, noteText)) else None
  }

  /** With no mutation pending, the button is enabled exactly when a click would add the note. */
  lemma ButtonMatchesClick(id: string, noteText: string)
    ensures AddNoteEnabled(noteText, false) <==> AddNoteClick(id, noteText).Some?
    ensures forall pending :: AddNoteEnabled(noteText, pending) ==> !Blank(noteText)
  {
    TrimEmptyIffBlank(noteText);
  }

  /** The notes card: the count in its title, the notes listed, and whether "No notes yet" shows. */
  datatype NotesPanel = NotesPanel(count: nat, items: seq<LeadNote>, showsNoNotes: bool)

  /** The notes card for the fetched notes. */
  function NotesPanelOf(notes: seq<LeadNote>): (p: NotesPanel)
    ensures p.count == |p.items| && p.items == notes
    ensures p.showsNoNotes <==> p.count == 0
  {
    NotesPanel(|notes|, notes, |notes| == 0)
  }

  /** The page's state: the note box, and the service calls fired from it. */
  class LeadDetailPage {
    const id: string
    var noteText: string
    var updates: seq<UpdateCall>
    var notesSent: seq<NewNote>
    var deletes: seq<string>

    constructor (id: string)
      ensures this.id == id && noteText == ""
      ensures updates == [] && notesSent == [] && deletes == []
    {
      this.id := id;
      noteText := "";
      updates, notesSent, deletes := [], [], [];
    }

    /** Typing in the note box. */
    method OnNoteInput(text: string)
      modifies this
      ensures noteText == text
      ensures updates == old(updates) && notesSent == old(notesSent) && deletes == old(deletes)
    {
      noteText := text;
    }

    /** A click on "Add": fires the note mutation only for a non-blank text. */
    method OnAddClick()
      modifies this
      ensures noteText == old(noteText) && updates == old(updates) && deletes == old(deletes)
      ensures notesSent == match AddNoteClick(id, noteText)
        case Some(n) => old(notesSent) + [n]
        case None => old(notesSent)
    {
      TrimEmptyIffBlank(noteText);
      if Trim(noteText) != "" {
        notesSent := notesSent + [NewNote(id, noteText)];
      }
    }

    /** Choosing a status in the select. */
    method OnStatusSelect(s: LeadStatus)
      modifies this
      ensures updates == old(updates) + [UpdateCall(id, StatusUpdate(s))]
      ensures noteText == old(noteText) && notesSent == old(notesSent) && deletes == old(deletes)
    {
      updates := updates + [UpdateCall(id, StatusUpdate(s))];
    }

    /** Changing the follow-up date input. */
    method OnFollowUpInput(date: string)
      modifies this
      ensures updates == old(updates) + [UpdateCall(id, FollowUpUpdate(date))]
      ensures noteText == old(noteText) && notesSent == old(notesSent) && deletes == old(deletes)
    {
      updates := updates + [UpdateCall(id, FollowUpUpdate(date))];
    }

    /** Confirming the delete dialog. */
    method OnDeleteConfirm()
      modifies this
      ensures deletes == old(deletes) + [id]
      ensures noteText == old(noteText) && updates == old(updates) && notesSent == old(notesSent)
    {
      deletes := deletes + [id];
    }

    /** The status mutation's `onSuccess`: this lead, then the list. */
    method OnStatusUpdated(cache: Cache)
      modifies cache
      ensures cache.State() == AfterSuccess(old(cache.State()), ChangeStatus(id))
    {
      ghost var before := cache.State();
      cache.Invalidate(LeadKey(id));
      cache.Invalidate(LeadsKey());
      InvalidateTwo(before, LeadKey(id), LeadsKey());
    }

    /** The follow-up mutation's `onSuccess`: this lead only. */
    method OnFollowUpUpdated(cache: Cache)
      modifies cache
      ensures cache.State() == AfterSuccess(old(cache.State()), ChangeFollowUp(id))
    {
      ghost var before := cache.State();
      cache.Invalidate(LeadKey(id));
      InvalidateOne(before, LeadKey(id));
    }

    /** The note mutation's `onSuccess`: this lead's notes, and the note box is cleared. */
    method OnNoteAdded(cache: Cache)
      modifies this, cache
      ensures cache.State() == AfterSuccess(old(cache.State()), AddNote(id))
      ensures noteText == ""
      ensures updates == old(updates) && notesSent == old(notesSent) && deletes == old(deletes)
    {
      ghost var before := cache.State();
      cache.Invalidate(NotesKey(id));
      InvalidateOne(before, NotesKey(id));
      noteText := "";
    }

    /** The delete mutation's `onSuccess`: the list, then back to it. */
    method OnDeleted(cache: Cache) returns (to: string)
      modifies cache
      ensures cache.State() == AfterSuccess(old(cache.State()), DeleteLead(id))
      ensures to == "/leads"
    {
      ghost var before := cache.State();
      cache.Invalidate(LeadsKey());
      InvalidateOne(before, LeadsKey());
      to := "/leads";
    }
  }
}
