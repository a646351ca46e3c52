/**
 * The certificate generator: the selections, the text the AI service drafts, the
 * three renderings of the certificate and the PDF download.
 */
module Certificate {
  import opened Wrappers
  import opened Text
  import opened Types
  import opened Collections
  import opened Documents

  const Title: string := "ATESTADO MÉDICO"

  /** The body of the certificate: the hint the preview shows before there is any text,
      or the attestation naming the patient followed by the text. */
  datatype Body = Hint | Attestation(patientName: string, patientCpf: string, text: string)

  datatype Certificate = Certificate(header: Header, title: string, body: Body, signature: Signature)

  /** What a surface shows. The preview stands in a placeholder for every missing or empty
      patient and doctor field and a hint for a missing text; the PDF and the printout
      always carry the attestation, with the fields as they are. */
  function Content(surface: Surface, hd: Header, p: Option<Patient>, d: Option<Doctor>, finalText: string): (c: Certificate)
    ensures c.header == hd && c.title == Title
    ensures surface == Preview ==> (c.body.Hint? <==> finalText == "")
    ensures c.body.Attestation? ==> c.body.text == finalText
    ensures surface == Preview && c.body.Attestation? ==>
              c.body.patientName == (if p.Some? && p.value.name != "" then p.value.name else PatientNamePlaceholder) &&
              c.body.patientCpf == (if p.Some? && p.value.cpf != "" then p.value.cpf else CpfPlaceholder)
    ensures surface == Preview ==>
              c.signature.name == (if d.Some? && d.value.name != "" then d.value.name else DoctorNamePlaceholder) &&
              c.signature.crm == (if d.Some? && d.value.crm != "" then d.value.crm else CrmPlaceholder) &&
              c.signature.specialty == Some(if d.Some? && d.value.specialty != "" then d.value.specialty else SpecialtyPlaceholder)
    ensures surface != Preview ==> c.body.Attestation?
    ensures surface != Preview && p.Some? ==> c.body.patientName == p.value.name && c.body.patientCpf == p.value.cpf
    ensures surface != Preview && p.None? ==> c.body.patientName == "" && c.body.patientCpf == ""
    ensures surface != Preview && d.Some? ==> c.signature == Signature(d.value.name, d.value.crm, Some(d.value.specialty))
    ensures surface != Preview && d.None? ==> c.signature == Signature("", "", Some(""))
  {
    var name, cpf := Chain(p, (x: Patient) => x.name), Chain(p, (x: Patient) => x.cpf);
    var doctor, crm := Chain(d, (x: Doctor) => x.name), Chain(d, (x: Doctor) => x.crm);
    var specialty := Chain(d, (x: Doctor) => x.specialty);
    match surface
    case Preview =>
      var body := if finalText == "" then Hint
                  else Attestation(OrOpt(name, PatientNamePlaceholder), OrOpt(cpf, CpfPlaceholder), finalText);
      Certificate(hd, Title, body,
                  Signature(OrOpt(doctor, DoctorNamePlaceholder), OrOpt(crm, CrmPlaceholder),
                            Some(OrOpt(specialty, SpecialtyPlaceholder))))
    case _ =>
      Certificate(hd, Title, Attestation(OrEmpty(name), OrEmpty(cpf), finalText),
                  Signature(OrEmpty(doctor), OrEmpty(crm), Some(OrEmpty(specialty))))
  }

  function Render(surface: Surface, paper: PaperSize, hd: Header, p: Option<Patient>, d: Option<Doctor>, finalText: string): Page<Certificate>
  {
    Page(Frame(surface, paper), Content(surface, hd, p, d, finalText))
  }

  /** The paper size changes the frame of the PDF page and of the preview card, never
      what is written on them. */
  lemma PaperChangesOnlyFrame(surface: Surface, hd: Header, p: Option<Patient>, d: Option<Doctor>, t: string)
    ensures Render(surface, A4, hd, p, d, t).content == Render(surface, A5, hd, p, d, t).content
    ensures surface != Print ==> Render(surface, A4, hd, p, d, t).frame != Render(surface, A5, hd, p, d, t).frame
  {
  }

  /** Once the text is drafted, the preview, the PDF and the printout agree on the text and,
      when a patient and doctor with all fields filled in are selected, on the whole
      certificate. */
  lemma SurfacesAgree(hd: Header, p: Patient, d: Doctor, t: string)
    requires t != "" && p.name != "" && p.cpf != "" && d.name != "" && d.crm != "" && d.specialty != ""
    ensures Content(Preview, hd, Some(p), Some(d), t) == Content(Pdf, hd, Some(p), Some(d), t)
    ensures Content(Pdf, hd, Some(p), Some(d), t) == Content(Print, hd, Some(p), Some(d), t)
  {
  }

  /** The arguments the AI service is called with. */
  datatype Request = Request(diagnosis: string, observations: string, days: string)

  class CertificateEditor {
    var patientId: string
    var doctorId: string
    var hospitalId: string
    var days: string
    var diagnosis: string
    var observations: string
    var finalText: string
    var isGenerating: bool
    var isDownloading: bool
    var paperSize: PaperSize

    constructor ()
      ensures patientId == "" && doctorId == "" && hospitalId == ""
      ensures days == "1" && diagnosis == "" && observations == "" && finalText == ""
      ensures !isGenerating && !isDownloading && paperSize == A4
    {
      patientId, doctorId, hospitalId := "", "", "";
      days, diagnosis, observations, finalText := "1", "", "", "";
      isGenerating, isDownloading, paperSize := false, false, A4;
    }

    /** `ps.find(x => x.id === patientId)`. */
    function SelectedPatient(ps: seq<Patient>): (r: Option<Patient>)
      reads this
      ensures r.None? <==> patientId !in Keys(ps, PatientId)
      ensures r.Some? ==> exists k :: 0 <= k < |ps| && ps[k] == r.value && ps[k].id == patientId &&
                                      forall j :: 0 <= j < k ==> ps[j].id != patientId
    {
      Find(ps, PatientId, patientId)
    }

    /** `ds.find(x => x.id === doctorId)`. */
    function SelectedDoctor(ds: seq<Doctor>): (r: Option<Doctor>)
      reads this
      ensures r.None? <==> doctorId !in Keys(ds, DoctorId)
      ensures r.Some? ==> exists k :: 0 <= k < |ds| && ds[k] == r.value && ds[k].id == doctorId &&
                                      forall j :: 0 <= j < k ==> ds[j].id != doctorId
    {
      Find(ds, DoctorId, doctorId)
    }

    /** `hs.find(x => x.id === hospitalId)`. */
    function SelectedHospital(hs: seq<Hospital>): (r: Option<Hospital>)
      reads this
      ensures r.None? <==> hospitalId !in Keys(hs, HospitalId)
      ensures r.Some? ==> exists k :: 0 <= k < |hs| && hs[k] == r.value && hs[k].id == hospitalId &&
                                      forall j :: 0 <= j < k ==> hs[j].id != hospitalId
    {
      Find(hs, HospitalId, hospitalId)
    }

    /** The letterhead: the selected hospital's fields over the clinic's settings. */
    function DocHeader(s: ClinicSettings, hs: seq<Hospital>): (hd: Header)
      reads this
      ensures hospitalId !in Keys(hs, HospitalId) ==> hd == SettingsHeader(s)
      ensures SelectedHospital(hs).Some? ==>
                forall f :: HeaderGet(hd, f) == if HospitalGet(SelectedHospital(hs).value, f) != ""
                                                then HospitalGet(SelectedHospital(hs).value, f)
                                                else SettingsGet(s, f)
      ensures forall f :: HeaderGet(hd, f) == SettingsGet(s, f) ||
                          exists h :: h in hs && h.id == hospitalId && HeaderGet(hd, f) == HospitalGet(h, f)
    {
      ResolveHeader(SelectedHospital(hs), s)
    }

    /** The page a surface shows for the current state and the session's records. */
    function View(surface: Surface, s: ClinicSettings, ps: seq<Patient>, ds: seq<Doctor>, hs: seq<Hospital>): (r: Page<Certificate>)
      reads this
      ensures r.frame == if surface == Preview then Card(PreviewFrame(paperSize)) else Sheet(SheetSize(paperSize))
      ensures r.content == Content(surface, DocHeader(s, hs), SelectedPatient(ps), SelectedDoctor(ds), finalText)
      ensures surface != Preview ==> r.content.body.Attestation? && r.content.body.text == finalText
      ensures patientId !in Keys(ps, PatientId) && surface != Preview ==>
                r.content.body.patientName == "" && r.content.body.patientCpf == ""
    {
      Render(surface, paperSize, DocHeader(s, hs), SelectedPatient(ps), SelectedDoctor(ds), finalText)
    }

    method SetPaperSize(p: PaperSize)
      modifies this`paperSize
      ensures paperSize == p
    {
      paperSize := p;
    }

    /** `handleGenerateAI` up to the call of the AI service: refused without a diagnosis,
        otherwise the busy flag goes up and the service receives diagnosis, observations
        and days. */
    method BeginGenerate() returns (req: Option<Request>)
      modifies this`isGenerating
      ensures req.None? <==> diagnosis == ""
      ensures req.None? ==> isGenerating == old(isGenerating)
      ensures req.Some? ==> isGenerating && req.value == Request(diagnosis, observations, days)
    {
      if diagnosis == "" {
        req := None;
      } else {
        isGenerating := true;
        req := Some(Request(diagnosis, observations, days));
      }
    }

    /** The rest of `handleGenerateAI`, once the service answers (`generated` may be
        empty or undefined): only a non-empty answer replaces the text. */
    method FinishGenerate(generated: Option<string>)
      modifies this`finalText, this`isGenerating
      ensures IsSet(generated) ==> finalText == generated.value
      ensures !IsSet(generated) ==> finalText == old(finalText)
      ensures old(finalText) != "" ==> finalText != ""
      ensures !isGenerating
    {
      if IsSet(generated) {
        finalText := generated.value;
      }
      isGenerating := false;
    }

    /** A whole `handleGenerateAI` with no edit while the service works. */
    method Generate(generated: Option<string>)
      modifies this`finalText, this`isGenerating
      ensures diagnosis == "" ==> finalText == old(finalText) && isGenerating == old(isGenerating)
      ensures diagnosis != "" ==> !isGenerating
      ensures diagnosis != "" && IsSet(generated) ==> finalText == generated.value
      ensures !IsSet(generated) ==> finalText == old(finalText)
    {
      var req := BeginGenerate();
      if req.Some? {
        FinishGenerate(generated);
      }
    }

    /** `handleDownloadPDF` up to the hand-over to the PDF library; `mounted` says whether
        the hidden page holding the PDF version is in the document. */
    method BeginDownload(ps: seq<Patient>, mounted: bool) returns (o: DownloadOutcome)
      modifies this`isDownloading
      ensures o == StartDownload(CertificatePrefix, SelectedPatient(ps), mounted, paperSize)
      ensures o.NoPatient? ==> isDownloading == old(isDownloading)
      ensures !o.NoPatient? ==> isDownloading
    {
      o := StartDownload(CertificatePrefix, SelectedPatient(ps), mounted, paperSize);
      if !o.NoPatient? {
        isDownloading := true;
      }
    }

    /** The `finally` of `handleDownloadPDF`, after the export succeeded or failed. */
    method FinishDownload()
      modifies this`isDownloading
      ensures !isDownloading
    {
      isDownloading := false;
    }
  }
}
