/**
 * The doctor list: search over name, CRM and specialty, the create/edit form and
 * its draft, and the submission that ends in the store's add or update.
 */
module DoctorList {
  import opened Wrappers
  import opened Text
  import opened Types
  import opened Collections
  import Editor
  import App

  // ---------------------------------------------------------------------------
  // Search
  // ---------------------------------------------------------------------------

  /** The search test: the lowered term occurs in the lowered name, CRM or specialty. */
  predicate Matches(d: Doctor, term: string)
  {
    var t := Lower(term);
    Contains(Lower(d.name), t) || Contains(Lower(d.crm), t) || Contains(Lower(d.specialty), t)
  }

  /** The match test read by positions, one window per searched field. */
  lemma MatchesIff(d: Doctor, term: string)
    ensures Matches(d, term) <==>
            || (exists i :: OccursAt(Lower(d.name), Lower(term), i))
            || (exists i :: OccursAt(Lower(d.crm), Lower(term), i))
            || (exists i :: OccursAt(Lower(d.specialty), Lower(term), i))
  {
    assert Matches(d, term) ==
           (Contains(Lower(d.name), Lower(term)) || Contains(Lower(d.crm), Lower(term))
            || Contains(Lower(d.specialty), Lower(term)));
    ContainsIff(Lower(d.name), Lower(term));
    ContainsIff(Lower(d.crm), Lower(term));
    ContainsIff(Lower(d.specialty), Lower(term));
  }

  /** Every searched field is compared in lower case, so the case of the term does not matter. */
  lemma MatchesIgnoresCase(d: Doctor, term: string)
    ensures Matches(d, Lower(term)) == Matches(d, term)
  {
    LowerIdempotent(term);
  }

  /** `filteredDoctors`: the doctors that match, in stored order. */
  function FilterDoctors(ds: seq<Doctor>, term: string): (r: seq<Doctor>)
    ensures IsSubsequence(r, ds)
    ensures forall i :: 0 <= i < |r| ==> r[i] in ds && Matches(r[i], term)
    ensures forall i :: 0 <= i < |ds| && Matches(ds[i], term) ==> ds[i] in r
  {
    FilterIsSubsequence(ds, d => Matches(d, term));
    Filter(ds, d => Matches(d, term))
  }

  /** An empty search shows every doctor. */
  lemma FilterEmptyTerm(ds: seq<Doctor>)
    ensures FilterDoctors(ds, "") == ds
  {
    assert Lower("") == "";
    FilterKeepsAll(ds, d => Matches(d, ""));
  }

  // ---------------------------------------------------------------------------
  // The draft (`Partial<Doctor>`)
  // ---------------------------------------------------------------------------

  datatype DoctorDraft = DoctorDraft(
    id: Option<string>,
    name: Option<string>,
    crm: Option<string>,
    specialty: Option<string>,
    email: Option<string>,
    phone: Option<string>)

  /** The draft a new or reset form holds: `{}`. */
  function EmptyDraft(): (r: DoctorDraft)
    ensures r.id.None? && forall g :: Get(r, g).None?
  {
    DoctorDraft(None, None, None, None, None, None)
  }

  /** `setFormData(doctor)`. */
  function DraftOf(d: Doctor): DoctorDraft
  {
    DoctorDraft(Some(d.id), Some(d.name), Some(d.crm), Some(d.specialty), Some(d.email), Some(d.phone))
  }

  /** `{...formData, id} as Doctor`; a string the draft does not hold reads as "". */
  function ToDoctor(f: DoctorDraft, id: string): Doctor
  {
    Doctor(id, OrEmpty(f.name), OrEmpty(f.crm), OrEmpty(f.specialty), OrEmpty(f.email), OrEmpty(f.phone))
  }

  /** Seeding the draft from a record and writing it back under the same id gives the record. */
  lemma DraftRoundTrip(d: Doctor)
    ensures ToDoctor(DraftOf(d), d.id) == d
  {
  }

  /** The fields the form edits: every field but the id. */
  datatype Field = Name | Crm | Specialty | Email | Phone

  function Get(f: DoctorDraft, g: Field): Option<string>
  {
    match g
    case Name => f.name
    case Crm => f.crm
    case Specialty => f.specialty
    case Email => f.email
    case Phone => f.phone
  }

  /** Two drafts with the same id that agree on every field are equal. */
  lemma DraftExtensionality(a: DoctorDraft, b: DoctorDraft)
    requires a.id == b.id && forall g :: Get(a, g) == Get(b, g)
    ensures a == b
  {
    assert Get(a, Name) == Get(b, Name) && Get(a, Crm) == Get(b, Crm);
    assert Get(a, Specialty) == Get(b, Specialty) && Get(a, Email) == Get(b, Email);
    assert Get(a, Phone) == Get(b, Phone);
  }

  /** One `onChange` handler of the form: every field has an input. */
  datatype Input = Input(field: Field, value: string)

  /** `setFormData({...formData, [field]: value})`: the input's field takes the typed value
      and every other field of the draft keeps its value. */
  function ApplyInput(f: DoctorDraft, i: Input): (r: DoctorDraft)
    ensures forall g :: Get(r, g) == if g == i.field then Some(i.value) else Get(f, g)
    ensures r.id == f.id
  {
    match i.field
    case Name => f.(name := Some(i.value))
    case Crm => f.(crm := Some(i.value))
    case Specialty => f.(specialty := Some(i.value))
    case Email => f.(email := Some(i.value))
    case Phone => f.(phone := Some(i.value))
  }

  /** Of two edits of the same field the last one wins. */
  lemma ApplyInputOverwrite(f: DoctorDraft, g: Field, v: string, w: string)
    ensures ApplyInput(ApplyInput(f, Input(g, v)), Input(g, w)) == ApplyInput(f, Input(g, w))
  {
    DraftExtensionality(ApplyInput(ApplyInput(f, Input(g, v)), Input(g, w)), ApplyInput(f, Input(g, w)));
  }

  /** Edits of different fields commute. */
  lemma ApplyInputCommute(f: DoctorDraft, i: Input, j: Input)
    requires i.field != j.field
    ensures ApplyInput(ApplyInput(f, i), j) == ApplyInput(ApplyInput(f, j), i)
  {
    DraftExtensionality(ApplyInput(ApplyInput(f, i), j), ApplyInput(ApplyInput(f, j), i));
  }

  // ---------------------------------------------------------------------------
  // Submission
  // ---------------------------------------------------------------------------

  /** `handleSubmit`: nothing unless name, CRM and specialty are all filled in; then an
      update under `editingId` while editing, otherwise an add under the fresh id. */
  function Submission(f: DoctorDraft, editingId: Option<string>, freshId: string): (c: Option<Command<Doctor>>)
    ensures c.None? <==> !(IsSet(f.name) && IsSet(f.crm) && IsSet(f.specialty))
    ensures c.Some? ==> (c.value.Update? <==> IsSet(editingId))
    ensures c.Some? ==> c.value.record.id == (if IsSet(editingId) then editingId.value else freshId)
    ensures c.Some? ==> c.value.record.name == f.name.value && c.value.record.crm == f.crm.value
                        && c.value.record.specialty == f.specialty.value
    ensures c.Some? ==> c.value.record == ToDoctor(f, c.value.record.id)
  {
    if IsSet(f.name) && IsSet(f.crm) && IsSet(f.specialty) then
      if IsSet(editingId) then Some(Update(ToDoctor(f, editingId.value)))
      else Some(Add(ToDoctor(f, freshId)))
    else None
  }

  /** Editing one field of a stored doctor and submitting changes that field of that record
      only: the collection keeps its length, its ids and every other record. */
  lemma EditOneRecord(ds: seq<Doctor>, k: nat, specialty: string)
    requires k < |ds| && UniqueKeys(ds, DoctorId)
    requires ds[k].id != "" && ds[k].name != "" && ds[k].crm != "" && specialty != ""
    ensures Submission(ApplyInput(DraftOf(ds[k]), Input(Specialty, specialty)), Some(ds[k].id), "")
            == Some(Update(ds[k].(specialty := specialty)))
    ensures |Apply(ds, DoctorId, Update(ds[k].(specialty := specialty)))| == |ds|
    ensures Keys(Apply(ds, DoctorId, Update(ds[k].(specialty := specialty))), DoctorId) == Keys(ds, DoctorId)
    ensures forall i :: 0 <= i < |ds| ==>
              Apply(ds, DoctorId, Update(ds[k].(specialty := specialty)))[i]
              == if i == k then ds[k].(specialty := specialty) else ds[i]
  {
    var e := ds[k].(specialty := specialty);
    ReplaceAt(ds, DoctorId, e);
    ReplaceKeys(ds, DoctorId, e);
  }

  // ---------------------------------------------------------------------------
  // The editor component
  // ---------------------------------------------------------------------------

  class DoctorEditor {
    var searchTerm: string
    var showForm: bool
    var editingId: Option<string>
    var draft: DoctorDraft

    ghost predicate Valid()
      reads this
    {
      Editor.Consistent(showForm, editingId)
    }

    function Mode(): Editor.Mode
      reads this
    {
      Editor.ModeOf(showForm, editingId)
    }

    constructor ()
      ensures Valid() && Mode() == Editor.Closed
      ensures searchTerm == "" && editingId == None && draft == EmptyDraft()
    {
      searchTerm, showForm, editingId, draft := "", false, None, EmptyDraft();
    }

    /** The rows the table shows. */
    function Shown(ds: seq<Doctor>): seq<Doctor>
      reads this
    {
      FilterDoctors(ds, searchTerm)
    }

    method Search(term: string)
      modifies this`searchTerm
      ensures searchTerm == term
    {
      searchTerm := term;
    }

    /** `resetForm`. */
    method ResetForm()
      modifies this`draft, this`editingId, this`showForm
      ensures Valid() && Mode() == Editor.Closed
      ensures draft == EmptyDraft() && editingId == None && !showForm
    {
      draft, editingId, showForm := EmptyDraft(), None, false;
    }

    /** `startEdit(d)`. */
    method StartEdit(d: Doctor)
      modifies this`draft, this`editingId, this`showForm
      ensures Valid()
      ensures draft == DraftOf(d) && editingId == Some(d.id) && showForm
      ensures Mode() == if d.id != "" then Editor.Editing(d.id) else Editor.Creating
    {
      draft, editingId, showForm := DraftOf(d), Some(d.id), true;
    }

    /** The header button: closes the form while creating; otherwise resets it and opens
        it for a new record. */
    method Toggle()
      requires Valid()
      modifies this`draft, this`editingId, this`showForm
      ensures Valid()
      ensures old(Mode()) == Editor.Creating ==>
                Mode() == Editor.Closed && draft == old(draft) && editingId == old(editingId)
      ensures old(Mode()) != Editor.Creating ==>
                Mode() == Editor.Creating && draft == EmptyDraft() && editingId == None
    {
      if showForm && !IsSet(editingId) {
        showForm := false;
      } else {
        ResetForm();
        showForm := true;
      }
    }

    /** One edit of a form input. */
    method Edit(i: Input)
      requires Valid()
      modifies this`draft
      ensures Valid()
      ensures draft == ApplyInput(old(draft), i)
    {
      draft := ApplyInput(draft, i);
    }

    /** `handleSubmit`, with `freshId` standing for the random id a new record receives. */
    method Submit(session: App.Session, freshId: string) returns (c: Option<Command<Doctor>>)
      requires Valid()
      modifies this`draft, this`editingId, this`showForm, session`doctors
      ensures Valid()
      ensures c == Submission(old(draft), old(editingId), freshId)
      ensures c.None? ==> draft == old(draft) && editingId == old(editingId) && showForm == old(showForm)
      ensures c.None? ==> session.doctors == old(session.doctors)
      ensures c.Some? ==> session.doctors == Apply(old(session.doctors), DoctorId, c.value)
      ensures c.Some? ==> draft == EmptyDraft() && editingId == None && Mode() == Editor.Closed
      ensures old(session.IdsUnique()) && (c.Some? && c.value.Add? ==> freshId !in Keys(old(session.doctors), DoctorId))
              ==> session.IdsUnique()
    {
      c := Submission(draft, editingId, freshId);
      if c.Some? {
        match c.value {
          case Add(d) => session.AddDoctor(d);
          case Update(d) => session.UpdateDoctor(d);
        }
        ResetForm();
      }
    }
  }
}
