/**
 * The patient list: search, the create/edit form and its draft, and the
 * submission that ends in the store's add or update.
 */
module PatientList {
  import opened Wrappers
  import opened Text
  import opened Types
  import opened Collections
  import Editor
  import App

  // ---------------------------------------------------------------------------
  // Search
  // ---------------------------------------------------------------------------

  /** The search test: the lowered term occurs in the lowered name, or the term itself
      (case-sensitively) occurs in the CPF. */
  predicate Matches(p: Patient, term: string)
  {
    Contains(Lower(p.name), Lower(term)) || Contains(p.cpf, term)
  }

  /** The match test read by positions: a window of the lowered name equals the lowered
      term, or a window of the CPF equals the term. */
  lemma MatchesIff(p: Patient, term: string)
    ensures Matches(p, term) <==>
            (exists i :: OccursAt(Lower(p.name), Lower(term), i)) || (exists i :: OccursAt(p.cpf, term, i))
  {
    assert Matches(p, term) == (Contains(Lower(p.name), Lower(term)) || Contains(p.cpf, term));
    ContainsIff(Lower(p.name), Lower(term));
    ContainsIff(p.cpf, term);
  }

  /** `filteredPatients`: the patients that match, in stored order. */
  function FilterPatients(ps: seq<Patient>, term: string): (r: seq<Patient>)
    ensures IsSubsequence(r, ps)
    ensures forall i :: 0 <= i < |r| ==> r[i] in ps && Matches(r[i], term)
    ensures forall i :: 0 <= i < |ps| && Matches(ps[i], term) ==> ps[i] in r
  {
    FilterIsSubsequence(ps, p => Matches(p, term));
    Filter(ps, p => Matches(p, term))
  }

  /** An empty search shows every patient. */
  lemma FilterEmptyTerm(ps: seq<Patient>)
    ensures FilterPatients(ps, "") == ps
  {
    assert Lower("") == "";
    FilterKeepsAll(ps, p => Matches(p, ""));
  }

  // ---------------------------------------------------------------------------
  // The draft (`Partial<Patient>`)
  // ---------------------------------------------------------------------------

  datatype PatientDraft = PatientDraft(
    id: Option<string>,
    name: Option<string>,
    cpf: Option<string>,
    email: Option<string>,
    phone: Option<string>,
    birthDate: Option<string>,
    status: Option<PaymentStatus>,
    amount: Option<int>)

  /** The draft a new or reset form holds: `{status: 'PENDENTE', amount: 0}`. */
  function EmptyDraft(): (r: PatientDraft)
    ensures r.id.None? && forall f :: Get(r, f).None?
    ensures r.status == Some(Pendente) && r.amount == Some(0)
  {
    PatientDraft(None, None, None, None, None, None, Some(Pendente), Some(0))
  }

  /** `setFormData(patient)`: every field of the record, id included. */
  function DraftOf(p: Patient): PatientDraft
  {
    PatientDraft(Some(p.id), Some(p.name), Some(p.cpf), Some(p.email), Some(p.phone),
                 Some(p.birthDate), Some(p.status), Some(p.amount))
  }

  /** `{...formData, id} as Patient`; a string the draft does not hold reads as "", and
      status and amount, which every reachable draft holds, fall back to the reset values. */
  function ToPatient(d: PatientDraft, id: string): Patient
  {
    Patient(id, OrEmpty(d.name), OrEmpty(d.cpf), OrEmpty(d.email), OrEmpty(d.phone),
            OrEmpty(d.birthDate), d.status.GetOr(Pendente), d.amount.GetOr(0))
  }

  /** Seeding the draft from a record and writing it back under the same id gives the record. */
  lemma DraftRoundTrip(p: Patient)
    ensures ToPatient(DraftOf(p), p.id) == p
  {
  }

  /** The text fields of the draft (every field but the id, status and amount). */
  datatype Field = Name | Cpf | Email | Phone | BirthDate

  function Get(d: PatientDraft, f: Field): Option<string>
  {
    match f
    case Name => d.name
    case Cpf => d.cpf
    case Email => d.email
    case Phone => d.phone
    case BirthDate => d.birthDate
  }

  /** One `onChange` handler of the form: the form has inputs for name, CPF, e-mail,
      status and amount. */
  datatype Input =
    | NameInput(name: string)
    | CpfInput(cpf: string)
    | EmailInput(email: string)
    | StatusInput(status: PaymentStatus)
    | AmountInput(amount: int)

  /** The text field a text input writes, if it is one. */
  function InputField(i: Input): Option<Field>
  {
    match i
    case NameInput(_) => Some(Name)
    case CpfInput(_) => Some(Cpf)
    case EmailInput(_) => Some(Email)
    case _ => None
  }

  /** The typed text of a text input. */
  function InputText(i: Input): string
  {
    match i
    case NameInput(v) => v
    case CpfInput(v) => v
    case EmailInput(v) => v
    case _ => ""
  }

  /** `setFormData({...formData, [field]: value})`: the input's field takes the typed value
      and every other field of the draft keeps its value. */
  function ApplyInput(d: PatientDraft, i: Input): (r: PatientDraft)
    ensures forall f :: Get(r, f) == if InputField(i) == Some(f) then Some(InputText(i)) else Get(d, f)
    ensures r.status == if i.StatusInput? then Some(i.status) else d.status
    ensures r.amount == if i.AmountInput? then Some(i.amount) else d.amount
    ensures r.id == d.id
  {
    match i
    case NameInput(v) => d.(name := Some(v))
    case CpfInput(v) => d.(cpf := Some(v))
    case EmailInput(v) => d.(email := Some(v))
    case StatusInput(v) => d.(status := Some(v))
    case AmountInput(v) => d.(amount := Some(v))
  }

  /** Only the status and amount inputs touch status and amount, and they set them, so a
      draft that holds both keeps holding both. */
  lemma ApplyInputKeepsDefaults(d: PatientDraft, i: Input)
    requires d.status.Some? && d.amount.Some?
    ensures ApplyInput(d, i).status.Some? && ApplyInput(d, i).amount.Some?
  {
  }

  // ---------------------------------------------------------------------------
  // Submission
  // ---------------------------------------------------------------------------

  /** `handleSubmit`: nothing unless name and CPF are both filled in; then an update under
      `editingId` while editing, otherwise an add under the freshly generated id. */
  function Submission(d: PatientDraft, editingId: Option<string>, freshId: string): (c: Option<Command<Patient>>)
    ensures c.None? <==> !(IsSet(d.name) && IsSet(d.cpf))
    ensures c.Some? ==> (c.value.Update? <==> IsSet(editingId))
    ensures c.Some? ==> c.value.record.id == (if IsSet(editingId) then editingId.value else freshId)
    ensures c.Some? ==> c.value.record.name == d.name.value && c.value.record.cpf == d.cpf.value
    ensures c.Some? ==> c.value.record == ToPatient(d, c.value.record.id)
  {
    if IsSet(d.name) && IsSet(d.cpf) then
      if IsSet(editingId) then Some(Update(ToPatient(d, editingId.value)))
      else Some(Add(ToPatient(d, freshId)))
    else None
  }

  /** Editing a stored patient and submitting without changes leaves the collection as it
      was (when its ids are unique). */
  lemma UnchangedEditIsNoOp(ps: seq<Patient>, k: nat, freshId: string)
    requires k < |ps| && UniqueKeys(ps, PatientId)
    requires ps[k].id != "" && ps[k].name != "" && ps[k].cpf != ""
    ensures Submission(DraftOf(ps[k]), Some(ps[k].id), freshId) == Some(Update(ps[k]))
    ensures Apply(ps, PatientId, Update(ps[k])) == ps
  {
    ReplaceSelf(ps, PatientId, k);
  }

  // ---------------------------------------------------------------------------
  // The editor component
  // ---------------------------------------------------------------------------

  class PatientEditor {
    var searchTerm: string
    var showForm: bool
    var editingId: Option<string>
    var draft: PatientDraft

    ghost predicate Valid()
      reads this
    {
      Editor.Consistent(showForm, editingId) && draft.status.Some? && draft.amount.Some?
    }

    function Mode(): Editor.Mode
      reads this
    {
      Editor.ModeOf(showForm, editingId)
    }

    constructor ()
      ensures Valid() && Mode() == Editor.Closed
      ensures searchTerm == "" && editingId == None && draft == EmptyDraft()
    {
      searchTerm, showForm, editingId, draft := "", false, None, EmptyDraft();
    }

    /** The rows the table shows. */
    function Shown(ps: seq<Patient>): seq<Patient>
      reads this
    {
      FilterPatients(ps, searchTerm)
    }

    method Search(term: string)
      modifies this`searchTerm
      ensures searchTerm == term
    {
      searchTerm := term;
    }

    /** `resetForm`. */
    method ResetForm()
      modifies this`draft, this`editingId, this`showForm
      ensures Valid() && Mode() == Editor.Closed
      ensures draft == EmptyDraft() && editingId == None && !showForm
    {
      draft, editingId, showForm := EmptyDraft(), None, false;
    }

    /** `startEdit(p)`. */
    method StartEdit(p: Patient)
      modifies this`draft, this`editingId, this`showForm
      ensures Valid()
      ensures draft == DraftOf(p) && editingId == Some(p.id) && showForm
      ensures Mode() == if p.id != "" then Editor.Editing(p.id) else Editor.Creating
    {
      draft, editingId, showForm := DraftOf(p), Some(p.id), true;
    }

    /** The header button: closes the form while creating; otherwise resets it and opens
        it for a new record. */
    method Toggle()
      requires Valid()
      modifies this`draft, this`editingId, this`showForm
      ensures Valid()
      ensures old(Mode()) == Editor.Creating ==>
                Mode() == Editor.Closed && draft == old(draft) && editingId == old(editingId)
      ensures old(Mode()) != Editor.Creating ==>
                Mode() == Editor.Creating && draft == EmptyDraft() && editingId == None
    {
      if showForm && !IsSet(editingId) {
        showForm := false;
      } else {
        ResetForm();
        showForm := true;
      }
    }

    /** One edit of a form input. */
    method Edit(i: Input)
      requires Valid()
      modifies this`draft
      ensures Valid()
      ensures draft == ApplyInput(old(draft), i)
    {
      draft := ApplyInput(draft, i);
    }

    /** `handleSubmit`, with `freshId` standing for the random id a new record receives. */
    method Submit(session: App.Session, freshId: string) returns (c: Option<Command<Patient>>)
      requires Valid()
      modifies this`draft, this`editingId, this`showForm, session`patients
      ensures Valid()
      ensures c == Submission(old(draft), old(editingId), freshId)
      ensures c.None? ==> draft == old(draft) && editingId == old(editingId) && showForm == old(showForm)
      ensures c.None? ==> session.patients == old(session.patients)
      ensures c.Some? ==> session.patients == Apply(old(session.patients), PatientId, c.value)
      ensures c.Some? ==> draft == EmptyDraft() && editingId == None && Mode() == Editor.Closed
      ensures old(session.IdsUnique()) && (c.Some? && c.value.Add? ==> freshId !in Keys(old(session.patients), PatientId))
              ==> session.IdsUnique()
    {
      c := Submission(draft, editingId, freshId);
      if c.Some? {
        match c.value {
          case Add(p) => session.AddPatient(p);
          case Update(p) => session.UpdatePatient(p);
        }
        ResetForm();
      }
    }
  }
}
