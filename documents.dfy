/**
 * What the certificate and prescription generators share: the letterhead resolved
 * field by field from the selected hospital and the clinic settings, the optional
 * chaining reads of the selected patient and doctor, the paper sizes, and the name
 * of an exported PDF file.
 */
module Documents {
  import opened Wrappers
  import opened Text
  import opened Types
  import opened Collections

  // ---------------------------------------------------------------------------
  // The letterhead (`docHeader`)
  // ---------------------------------------------------------------------------

  datatype Header = Header(name: string, cnpj: string, address: string, phone: string, logo: string)

  /** The five letterhead fields. */
  datatype HeaderField = HName | HCnpj | HAddress | HPhone | HLogo

  function HeaderGet(hd: Header, f: HeaderField): string
  {
    match f
    case HName => hd.name
    case HCnpj => hd.cnpj
    case HAddress => hd.address
    case HPhone => hd.phone
    case HLogo => hd.logo
  }

  /** A hospital's value for a letterhead field; a hospital without a logo offers "". */
  function HospitalGet(h: Hospital, f: HeaderField): string
  {
    match f
    case HName => h.name
    case HCnpj => h.cnpj
    case HAddress => h.address
    case HPhone => h.phone
    case HLogo => OrEmpty(h.logo)
  }

  function SettingsGet(s: ClinicSettings, f: HeaderField): string
  {
    match f
    case HName => s.name
    case HCnpj => s.cnpj
    case HAddress => s.address
    case HPhone => s.phone
    case HLogo => s.logo
  }

  /** The clinic's own letterhead: the settings' five fields as they are. */
  function SettingsHeader(s: ClinicSettings): (hd: Header)
    ensures forall f :: HeaderGet(hd, f) == SettingsGet(s, f)
  {
    Header(s.name, s.cnpj, s.address, s.phone, s.logo)
  }

  /** `selectedHospital?.field || settings.field` for each field.
      `logo` on a hospital may be missing, read through optional chaining. */
  function ResolveHeader(h: Option<Hospital>, s: ClinicSettings): (hd: Header)
    ensures forall f :: HeaderGet(hd, f) ==
              if h.Some? && HospitalGet(h.value, f) != "" then HospitalGet(h.value, f) else SettingsGet(s, f)
  {
    Header(
      OrOpt(if h.Some? then Some(h.value.name) else None, s.name),
      OrOpt(if h.Some? then Some(h.value.cnpj) else None, s.cnpj),
      OrOpt(if h.Some? then Some(h.value.address) else None, s.address),
      OrOpt(if h.Some? then Some(h.value.phone) else None, s.phone),
      OrOpt(if h.Some? then h.value.logo else None, s.logo))
  }

  /** Without a selected hospital the letterhead is the clinic's settings verbatim. */
  lemma NoHospitalHeader(s: ClinicSettings)
    ensures ResolveHeader(None, s) == SettingsHeader(s)
  {
    HeaderExtensionality(ResolveHeader(None, s), SettingsHeader(s));
  }

  lemma HeaderExtensionality(a: Header, b: Header)
    requires forall f :: HeaderGet(a, f) == HeaderGet(b, f)
    ensures a == b
  {
    assert HeaderGet(a, HName) == HeaderGet(b, HName) && HeaderGet(a, HCnpj) == HeaderGet(b, HCnpj);
    assert HeaderGet(a, HAddress) == HeaderGet(b, HAddress) && HeaderGet(a, HPhone) == HeaderGet(b, HPhone);
    assert HeaderGet(a, HLogo) == HeaderGet(b, HLogo);
  }

  /** Every letterhead field comes from the hospital or from the settings, and it is empty
      only when both are. */
  lemma HeaderFieldSource(h: Option<Hospital>, s: ClinicSettings, f: HeaderField)
    ensures var v := HeaderGet(ResolveHeader(h, s), f);
            (h.Some? && v == HospitalGet(h.value, f)) || v == SettingsGet(s, f)
    ensures HeaderGet(ResolveHeader(h, s), f) == "" <==>
            (h.None? || HospitalGet(h.value, f) == "") && SettingsGet(s, f) == ""
  {
  }

  /** A hospital that fills in all five fields makes the letterhead its own: the settings
      do not show through anywhere. */
  lemma FullHospitalHeader(h: Hospital, s: ClinicSettings, t: ClinicSettings)
    requires forall f :: HospitalGet(h, f) != ""
    ensures ResolveHeader(Some(h), s) == ResolveHeader(Some(h), t)
    ensures forall f :: HeaderGet(ResolveHeader(Some(h), s), f) == HospitalGet(h, f)
  {
    HeaderExtensionality(ResolveHeader(Some(h), s), ResolveHeader(Some(h), t));
  }

  /** The image in the letterhead is rendered only for a non-empty logo (`logo && <img>`). */
  predicate ShowsLogo(hd: Header)
  {
    hd.logo != ""
  }

  /** A hospital registered without a logo, selected in a clinic whose settings carry a
      logo, shows the clinic's logo next to its own name. */
  lemma HospitalWithoutLogo(h: Hospital, s: ClinicSettings)
    requires h.logo.None? && h.name != "" && s.logo != ""
    ensures ResolveHeader(Some(h), s).name == h.name
    ensures ResolveHeader(Some(h), s).logo == s.logo
    ensures ShowsLogo(ResolveHeader(Some(h), s))
  {
    assert HeaderGet(ResolveHeader(Some(h), s), HName) == h.name;
    assert HeaderGet(ResolveHeader(Some(h), s), HLogo) == s.logo;
  }

  // ---------------------------------------------------------------------------
  // Selections: `list.find(x => x.id === selectedId)` and optional chaining on it
  // ---------------------------------------------------------------------------

  /** Nothing is selected while the select shows its empty option, as long as no record
      carries the empty id. */
  lemma EmptySelection<T>(s: seq<T>, key: T -> string)
    requires "" !in Keys(s, key)
    ensures Find(s, key, "") == None
  {
  }

  /** A selection of the wrong id picks nothing; a selection of a stored id picks its first record. */
  lemma SelectionFirst<T>(s: seq<T>, key: T -> string, k: nat)
    requires k < |s|
    requires forall j :: 0 <= j < k ==> key(s[j]) != key(s[k])
    ensures Find(s, key, key(s[k])) == Some(s[k])
  {
    assert key(s[k]) in Keys(s, key);
    var r := Find(s, key, key(s[k]));
    var m :| 0 <= m < |s| && s[m] == r.value && key(s[m]) == key(s[k]) &&
             forall j :: 0 <= j < m ==> key(s[j]) != key(s[k]);
    if m < k {
    } else if m > k {
    }
  }

  /** Optional chaining `selected?.field`: absent when nothing is selected, the field of
      the selected record otherwise. */
  function Chain<T>(o: Option<T>, field: T -> string): (r: Option<string>)
    ensures r.Some? <==> o.Some?
    ensures o.Some? ==> r.value == field(o.value)
  {
    if o.Some? then Some(field(o.value)) else None
  }

  /** The placeholders the previews show for a missing or empty selection field. */
  const PatientNamePlaceholder: string := "________________"
  const CpfPlaceholder: string := "000.000.000-00"
  const DoctorNamePlaceholder: string := "Dr. Responsável"
  const CrmPlaceholder: string := "00000"
  const SpecialtyPlaceholder: string := "ESPECIALIDADE"

  /** The signature block under a document; `specialty` is None where a surface leaves it out. */
  datatype Signature = Signature(name: string, crm: string, specialty: Option<string>)

  // ---------------------------------------------------------------------------
  // Paper
  // ---------------------------------------------------------------------------

  datatype PaperSize = A4 | A5

  /** Width and height of a sheet, in tenths of a millimetre. */
  datatype Dimensions = Dimensions(width: nat, height: nat)

  /** The size of the page the PDF is rendered from: 210 x 297 mm or 148.5 x 210 mm. */
  function SheetSize(p: PaperSize): (d: Dimensions)
    ensures d.width < d.height
  {
    match p
    case A4 => Dimensions(2100, 2970)
    case A5 => Dimensions(1485, 2100)
  }

  /** An A5 sheet is an A4 sheet folded in half across its height. */
  lemma A5IsHalfA4()
    ensures SheetSize(A5).width * 2 == SheetSize(A4).height
    ensures SheetSize(A5).height == SheetSize(A4).width
  {
  }

  /** The bounds the preview card's classes set, in CSS pixels. */
  datatype CardBounds = CardBounds(maxWidth: nat, minHeight: nat)

  /** The live preview card: `max-w-[...]` and `min-h-[...]` for the paper size. */
  function PreviewFrame(p: PaperSize): (b: CardBounds)
    ensures b.maxWidth < b.minHeight
  {
    match p
    case A4 => CardBounds(500, 650)
    case A5 => CardBounds(350, 450)
  }

  /** The three places a document is rendered. */
  datatype Surface = Preview | Pdf | Print

  /** A rendered document: the frame the paper size chooses and the content. */
  /** What a page is laid out on: the preview card, or a sheet of paper. */
  datatype Layout = Card(bounds: CardBounds) | Sheet(size: Dimensions)

  datatype Page<C> = Page(frame: Layout, content: C)

  function Frame(surface: Surface, p: PaperSize): Layout
  {
    if surface == Preview then Card(PreviewFrame(p)) else Sheet(SheetSize(p))
  }

  // ---------------------------------------------------------------------------
  // File names
  // ---------------------------------------------------------------------------

  /** `prefix + name.replace(/\s+/g, '_') + '.pdf'`. */
  function ExportFileName(prefix: string, name: string): (r: string)
    ensures |r| >= |prefix| + 4
    ensures r[..|prefix|] == prefix
    ensures r[|r| - 4..] == ".pdf"
  {
    prefix + CollapseSpaces(name) + ".pdf"
  }

  /** A file name built from a prefix without whitespace has no whitespace at all. */
  lemma ExportFileNameNoSpace(prefix: string, name: string)
    requires NoSpace(prefix)
    ensures NoSpace(ExportFileName(prefix, name))
  {
    CollapseNoSpace(name);
    assert NoSpace(".pdf");
    NoSpaceConcat(prefix, CollapseSpaces(name));
    NoSpaceConcat(prefix + CollapseSpaces(name), ".pdf");
  }

  /** The file name keeps every visible character of prefix and name, in order. */
  lemma ExportFileNameVisible(prefix: string, name: string)
    ensures Visible(ExportFileName(prefix, name)) == Visible(prefix) + Visible(name) + ".pdf"
  {
    var c := CollapseSpaces(name);
    calc {
      Visible(ExportFileName(prefix, name));
      { assert ExportFileName(prefix, name) == prefix + (c + ".pdf"); }
      Visible(prefix + (c + ".pdf"));
      { VisibleConcat(prefix, c + ".pdf"); VisibleConcat(c, ".pdf"); }
      Visible(prefix) + (Visible(c) + Visible(".pdf"));
      { CollapseKeepsVisible(name); VisiblePdf(); }
      Visible(prefix) + Visible(name) + ".pdf";
    }
  }

  lemma VisiblePdf()
    ensures Visible(".pdf") == ".pdf"
  {
    assert !IsSpace('p') && !IsSpace('d') && !IsSpace('f') && !IsSpace('.');
    assert ".pdf"[0] == '.' && ".pdf"[1..] == "pdf";
    assert "pdf"[0] == 'p' && "pdf"[1..] == "df";
    assert "df"[0] == 'd' && "df"[1..] == "f";
    assert "f"[0] == 'f' && "f"[1..] == "";
    assert Visible("f") == "f";
    assert Visible("df") == "df";
    assert Visible("pdf") == "pdf";
    assert ".pdf" == ['.'] + "pdf";
  }

  // ---------------------------------------------------------------------------
  // `handleDownloadPDF` up to the point where the file is handed to the PDF library
  // ---------------------------------------------------------------------------

  /** How a press of the download button ends: refused without a patient; stopped with the
      busy flag raised when the hidden page is not mounted; or exported under a file name
      on the chosen paper. */
  datatype DownloadOutcome = NoPatient | Unmounted | Export(fileName: string, paper: PaperSize)

  function StartDownload(prefix: string, patient: Option<Patient>, mounted: bool, paper: PaperSize): (o: DownloadOutcome)
    ensures o.NoPatient? <==> patient.None?
    ensures o.Unmounted? <==> patient.Some? && !mounted
    ensures o.Export? ==> o.fileName == ExportFileName(prefix, patient.value.name) && o.paper == paper
  {
    if patient.None? then NoPatient
    else if !mounted then Unmounted
    else Export(ExportFileName(prefix, patient.value.name), paper)
  }

  /** The file name prefixes of the two documents. */
  const CertificatePrefix: string := "Atestado_"
  const PrescriptionPrefix: string := "Receituario_"

  /** Every exported file name is free of whitespace when the prefix is. */
  lemma ExportNameNoSpace(prefix: string, patient: Option<Patient>, mounted: bool, paper: PaperSize)
    requires NoSpace(prefix)
    ensures StartDownload(prefix, patient, mounted, paper).Export? ==>
              NoSpace(StartDownload(prefix, patient, mounted, paper).fileName)
  {
    if patient.Some? {
      ExportFileNameNoSpace(prefix, patient.value.name);
    }
  }

  /** Neither document prefix contains whitespace, so no certificate or prescription is
      ever exported under a name with whitespace. */
  lemma DocumentFileNamesNoSpace(name: string)
    ensures NoSpace(ExportFileName(CertificatePrefix, name))
    ensures NoSpace(ExportFileName(PrescriptionPrefix, name))
  {
    assert NoSpace(CertificatePrefix) by {
      assert forall i :: 0 <= i < |CertificatePrefix| ==> CertificatePrefix[i] in "Atestado_";
    }
    assert NoSpace(PrescriptionPrefix) by {
      assert forall i :: 0 <= i < |PrescriptionPrefix| ==> PrescriptionPrefix[i] in "Receituario_";
    }
    ExportFileNameNoSpace(CertificatePrefix, name);
    ExportFileNameNoSpace(PrescriptionPrefix, name);
  }
}
