/**
 * The hospital list: search over name and CNPJ, the create/edit form and its draft,
 * and the submission that ends in the store's add or update.
 */
module HospitalList {
  import opened Wrappers
  import opened Text
  import opened Types
  import opened Collections
  import Editor
  import App

  // ---------------------------------------------------------------------------
  // Search
  // ---------------------------------------------------------------------------

  /** The search test: the lowered term occurs in the lowered name, or the term itself
      (case-sensitively) occurs in the CNPJ. */
  predicate Matches(h: Hospital, term: string)
  {
    Contains(Lower(h.name), Lower(term)) || Contains(h.cnpj, term)
  }

  /** The match test read by positions. */
  lemma MatchesIff(h: Hospital, term: string)
    ensures Matches(h, term) <==>
            (exists i :: OccursAt(Lower(h.name), Lower(term), i)) || (exists i :: OccursAt(h.cnpj, term, i))
  {
    assert Matches(h, term) == (Contains(Lower(h.name), Lower(term)) || Contains(h.cnpj, term));
    ContainsIff(Lower(h.name), Lower(term));
    ContainsIff(h.cnpj, term);
  }

  /** `filteredHospitals`: the hospitals that match, in stored order. */
  function FilterHospitals(hs: seq<Hospital>, term: string): (r: seq<Hospital>)
    ensures IsSubsequence(r, hs)
    ensures forall i :: 0 <= i < |r| ==> r[i] in hs && Matches(r[i], term)
    ensures forall i :: 0 <= i < |hs| && Matches(hs[i], term) ==> hs[i] in r
  {
    FilterIsSubsequence(hs, h => Matches(h, term));
    Filter(hs, h => Matches(h, term))
  }

  /** An empty search shows every hospital. */
  lemma FilterEmptyTerm(hs: seq<Hospital>)
    ensures FilterHospitals(hs, "") == hs
  {
    assert Lower("") == "";
    FilterKeepsAll(hs, h => Matches(h, ""));
  }

  // ---------------------------------------------------------------------------
  // The draft (`Partial<Hospital>`)
  // ---------------------------------------------------------------------------

  datatype HospitalDraft = HospitalDraft(
    id: Option<string>,
    name: Option<string>,
    cnpj: Option<string>,
    address: Option<string>,
    phone: Option<string>,
    logo: Option<string>)

  /** The draft a new or reset form holds: `{}`. */
  function EmptyDraft(): (r: HospitalDraft)
    ensures r.id.None? && forall g :: Get(r, g).None?
  {
    HospitalDraft(None, None, None, None, None, None)
  }

  /** `setFormData(hospital)`; a hospital without a logo leaves the draft's logo unset. */
  function DraftOf(h: Hospital): HospitalDraft
  {
    HospitalDraft(Some(h.id), Some(h.name), Some(h.cnpj), Some(h.address), Some(h.phone), h.logo)
  }

  /** `{...formData, id} as Hospital`: a missing required string reads as "", while the
      logo stays optional and is carried over as it is. */
  function ToHospital(f: HospitalDraft, id: string): Hospital
  {
    Hospital(id, OrEmpty(f.name), OrEmpty(f.cnpj), OrEmpty(f.address), OrEmpty(f.phone), f.logo)
  }

  /** Seeding the draft from a record and writing it back under the same id gives the record. */
  lemma DraftRoundTrip(h: Hospital)
    ensures ToHospital(DraftOf(h), h.id) == h
  {
  }

  /** The fields the form edits: every field but the id. */
  datatype Field = Name | Cnpj | Phone | Address | Logo

  function Get(f: HospitalDraft, g: Field): Option<string>
  {
    match g
    case Name => f.name
    case Cnpj => f.cnpj
    case Phone => f.phone
    case Address => f.address
    case Logo => f.logo
  }

  /** Two drafts with the same id that agree on every field are equal. */
  lemma DraftExtensionality(a: HospitalDraft, b: HospitalDraft)
    requires a.id == b.id && forall g :: Get(a, g) == Get(b, g)
    ensures a == b
  {
    assert Get(a, Name) == Get(b, Name) && Get(a, Cnpj) == Get(b, Cnpj);
    assert Get(a, Phone) == Get(b, Phone) && Get(a, Address) == Get(b, Address);
    assert Get(a, Logo) == Get(b, Logo);
  }

  /** One `onChange` handler of the form: every field has an input. */
  datatype Input = Input(field: Field, value: string)

  /** `setFormData({...formData, [field]: value})`: the input's field takes the typed value
      and every other field of the draft keeps its value. */
  function ApplyInput(f: HospitalDraft, i: Input): (r: HospitalDraft)
    ensures forall g :: Get(r, g) == if g == i.field then Some(i.value) else Get(f, g)
    ensures r.id == f.id
  {
    match i.field
    case Name => f.(name := Some(i.value))
    case Cnpj => f.(cnpj := Some(i.value))
    case Phone => f.(phone := Some(i.value))
    case Address => f.(address := Some(i.value))
    case Logo => f.(logo := Some(i.value))
  }

  /** Of two edits of the same field the last one wins. */
  lemma ApplyInputOverwrite(f: HospitalDraft, g: Field, v: string, w: string)
    ensures ApplyInput(ApplyInput(f, Input(g, v)), Input(g, w)) == ApplyInput(f, Input(g, w))
  {
    DraftExtensionality(ApplyInput(ApplyInput(f, Input(g, v)), Input(g, w)), ApplyInput(f, Input(g, w)));
  }

  /** Edits of different fields commute. */
  lemma ApplyInputCommute(f: HospitalDraft, i: Input, j: Input)
    requires i.field != j.field
    ensures ApplyInput(ApplyInput(f, i), j) == ApplyInput(ApplyInput(f, j), i)
  {
    DraftExtensionality(ApplyInput(ApplyInput(f, i), j), ApplyInput(ApplyInput(f, j), i));
  }

  // ---------------------------------------------------------------------------
  // Submission
  // ---------------------------------------------------------------------------

  /** `handleSubmit`: nothing unless name and CNPJ are both filled in; then an update under
      `editingId` while editing, otherwise an add under the fresh id. */
  function Submission(f: HospitalDraft, editingId: Option<string>, freshId: string): (c: Option<Command<Hospital>>)
    ensures c.None? <==> !(IsSet(f.name) && IsSet(f.cnpj))
    ensures c.Some? ==> (c.value.Update? <==> IsSet(editingId))
    ensures c.Some? ==> c.value.record.id == (if IsSet(editingId) then editingId.value else freshId)
    ensures c.Some? ==> c.value.record.name == f.name.value && c.value.record.cnpj == f.cnpj.value
    ensures c.Some? ==> c.value.record.logo == f.logo
    ensures c.Some? ==> c.value.record == ToHospital(f, c.value.record.id)
  {
    if IsSet(f.name) && IsSet(f.cnpj) then
      if IsSet(editingId) then Some(Update(ToHospital(f, editingId.value)))
      else Some(Add(ToHospital(f, freshId)))
    else None
  }

  /** A hospital registered by filling in only name and CNPJ is stored with an empty
      address and phone and no logo at all. */
  lemma NewHospitalLogo(name: string, cnpj: string, freshId: string)
    requires name != "" && cnpj != ""
    ensures var f := ApplyInput(ApplyInput(EmptyDraft(), Input(Name, name)), Input(Cnpj, cnpj));
            Submission(f, None, freshId) == Some(Add(Hospital(freshId, name, cnpj, "", "", None)))
  {
  }

  // ---------------------------------------------------------------------------
  // The editor component
  // ---------------------------------------------------------------------------

  class HospitalEditor {
    var searchTerm: string
    var showForm: bool
    var editingId: Option<string>
    var draft: HospitalDraft

    ghost predicate Valid()
      reads this
    {
      Editor.Consistent(showForm, editingId)
    }

    function Mode(): Editor.Mode
      reads this
    {
      Editor.ModeOf(showForm, editingId)
    }

    constructor ()
      ensures Valid() && Mode() == Editor.Closed
      ensures searchTerm == "" && editingId == None && draft == EmptyDraft()
    {
      searchTerm, showForm, editingId, draft := "", false, None, EmptyDraft();
    }

    /** The rows the table shows. */
    function Shown(hs: seq<Hospital>): seq<Hospital>
      reads this
    {
      FilterHospitals(hs, searchTerm)
    }

    method Search(term: string)
      modifies this`searchTerm
      ensures searchTerm == term
    {
      searchTerm := term;
    }

    /** `resetForm`. */
    method ResetForm()
      modifies this`draft, this`editingId, this`showForm
      ensures Valid() && Mode() == Editor.Closed
      ensures draft == EmptyDraft() && editingId == None && !showForm
    {
      draft, editingId, showForm := EmptyDraft(), None, false;
    }

    /** `startEdit(h)`. */
    method StartEdit(h: Hospital)
      modifies this`draft, this`editingId, this`showForm
      ensures Valid()
      ensures draft == DraftOf(h) && editingId == Some(h.id) && showForm
      ensures Mode() == if h.id != "" then Editor.Editing(h.id) else Editor.Creating
    {
      draft, editingId, showForm := DraftOf(h), Some(h.id), true;
    }

    /** The header button: closes the form while creating; otherwise resets it and opens
        it for a new record. */
    method Toggle()
      requires Valid()
      modifies this`draft, this`editingId, this`showForm
      ensures Valid()
      ensures old(Mode()) == Editor.Creating ==>
                Mode() == Editor.Closed && draft == old(draft) && editingId == old(editingId)
      ensures old(Mode()) != Editor.Creating ==>
                Mode() == Editor.Creating && draft == EmptyDraft() && editingId == None
    {
      if showForm && !IsSet(editingId) {
        showForm := false;
      } else {
        ResetForm();
        showForm := true;
      }
    }

    /** One edit of a form input. */
    method Edit(i: Input)
      requires Valid()
      modifies this`draft
      ensures Valid()
      ensures draft == ApplyInput(old(draft), i)
    {
      draft := ApplyInput(draft, i);
    }

    /** `handleSubmit`, with `freshId` standing for the random id a new record receives. */
    method Submit(session: App.Session, freshId: string) returns (c: Option<Command<Hospital>>)
      requires Valid()
      modifies this`draft, this`editingId, this`showForm, session`hospitals
      ensures Valid()
      ensures c == Submission(old(draft), old(editingId), freshId)
      ensures c.None? ==> draft == old(draft) && editingId == old(editingId) && showForm == old(showForm)
      ensures c.None? ==> session.hospitals == old(session.hospitals)
      ensures c.Some? ==> session.hospitals == Apply(old(session.hospitals), HospitalId, c.value)
      ensures c.Some? ==> draft == EmptyDraft() && editingId == None && Mode() == Editor.Closed
      ensures old(session.IdsUnique()) && (c.Some? && c.value.Add? ==> freshId !in Keys(old(session.hospitals), HospitalId))
              ==> session.IdsUnique()
    {
      c := Submission(draft, editingId, freshId);
      if c.Some? {
        match c.value {
          case Add(h) => session.AddHospital(h);
          case Update(h) => session.UpdateHospital(h);
        }
        ResetForm();
      }
    }
  }
}
