/**
 * The open/close state every record editor keeps: whether the form is shown and
 * which record, if any, is being edited.  `editingId` is read with JavaScript
 * truthiness (`if (editingId)`), so an empty id counts as "not editing".
 */
module Editor {
  import opened Wrappers
  import opened Text

  datatype Mode = Closed | Creating | Editing(id: string)

  /** The mode the form is in, as the header button and the form title read it. */
  function ModeOf(showForm: bool, editingId: Option<string>): (m: Mode)
    ensures m.Closed? <==> !showForm
    ensures m.Creating? <==> showForm && !IsSet(editingId)
    ensures m.Editing? ==> editingId == Some(m.id) && m.id != ""
  {
    if !showForm then Closed
    else if IsSet(editingId) then Editing(editingId.value)
    else Creating
  }

  /** The consistency the editor keeps: it edits a record only while its form is shown. */
  predicate Consistent(showForm: bool, editingId: Option<string>)
  {
    IsSet(editingId) ==> showForm
  }
}
