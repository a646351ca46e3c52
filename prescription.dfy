/**
 * The prescription generator: the selections, the refinement of the prescription by
 * the AI service, the three renderings and the PDF download.
 */
module Prescription {
  import opened Wrappers
  import opened Text
  import opened Types
  import opened Collections
  import opened Documents

  /** The preview is headed as a prescription pad, the PDF and the printout as a medical
      prescription. */
  const PreviewTitle: string := "RECEITUÁRIO"
  const DocumentTitle: string := "Prescrição Médica"
  const BodyPlaceholder: string := "Prescreva as orientações médicas..."

  datatype Prescription = Prescription(header: Header, title: string, patientName: string, text: string, signature: Signature)

  /** What a surface shows. The preview stands in placeholders for the patient's name, the
      doctor's name and CRM and an empty prescription, and leaves the specialty out; the PDF
      and the printout show everything as it is. */
  function Content(surface: Surface, hd: Header, p: Option<Patient>, d: Option<Doctor>, prescription: string): (c: Prescription)
    ensures c.header == hd
    ensures c.title == if surface == Preview then PreviewTitle else DocumentTitle
    ensures surface == Preview ==>
              c.patientName == (if p.Some? && p.value.name != "" then p.value.name else PatientNamePlaceholder) &&
              c.text == (if prescription != "" then prescription else BodyPlaceholder) &&
              c.signature == Signature(if d.Some? && d.value.name != "" then d.value.name else DoctorNamePlaceholder,
                                       if d.Some? && d.value.crm != "" then d.value.crm else CrmPlaceholder,
                                       None)
    ensures surface != Preview ==> c.text == prescription
    ensures surface != Preview ==> c.patientName == (if p.Some? then p.value.name else "")
    ensures surface != Preview && d.Some? ==> c.signature == Signature(d.value.name, d.value.crm, Some(d.value.specialty))
    ensures surface != Preview && d.None? ==> c.signature == Signature("", "", Some(""))
  {
    var name := Chain(p, (x: Patient) => x.name);
    var doctor, crm := Chain(d, (x: Doctor) => x.name), Chain(d, (x: Doctor) => x.crm);
    var specialty := Chain(d, (x: Doctor) => x.specialty);
    match surface
    case Preview =>
      Prescription(hd, PreviewTitle, OrOpt(name, PatientNamePlaceholder), Or(prescription, BodyPlaceholder),
                   Signature(OrOpt(doctor, DoctorNamePlaceholder), OrOpt(crm, CrmPlaceholder), None))
    case _ =>
      Prescription(hd, DocumentTitle, OrEmpty(name), prescription,
                   Signature(OrEmpty(doctor), OrEmpty(crm), Some(OrEmpty(specialty))))
  }

  function Render(surface: Surface, paper: PaperSize, hd: Header, p: Option<Patient>, d: Option<Doctor>, prescription: string): Page<Prescription>
  {
    Page(Frame(surface, paper), Content(surface, hd, p, d, prescription))
  }

  /** The PDF and the printout carry the prescription verbatim on either paper size. */
  lemma TextVerbatim(surface: Surface, paper: PaperSize, hd: Header, p: Option<Patient>, d: Option<Doctor>, t: string)
    requires surface != Preview
    ensures Render(surface, paper, hd, p, d, t).content.text == t
    ensures Render(surface, A4, hd, p, d, t).content == Render(surface, A5, hd, p, d, t).content
  {
  }

  /** The preview shows the prescription as the PDF will carry it exactly when the
      prescription is not empty. */
  lemma PreviewShowsText(hd: Header, p: Option<Patient>, d: Option<Doctor>, t: string)
    ensures Content(Preview, hd, p, d, t).text == Content(Pdf, hd, p, d, t).text <==> t != ""
  {
  }

  class PrescriptionEditor {
    var patientId: string
    var doctorId: string
    var hospitalId: string
    var prescription: string
    var isRefining: bool
    var isDownloading: bool
    var paperSize: PaperSize

    constructor ()
      ensures patientId == "" && doctorId == "" && hospitalId == "" && prescription == ""
      ensures !isRefining && !isDownloading && paperSize == A4
    {
      patientId, doctorId, hospitalId, prescription := "", "", "", "";
      isRefining, isDownloading, paperSize := false, false, A4;
    }

    /** `ps.find(x => x.id === patientId)`. */
    function SelectedPatient(ps: seq<Patient>): (r: Option<Patient>)
      reads this
      ensures r.None? <==> patientId !in Keys(ps, PatientId)
      ensures r.Some? ==> exists k :: 0 <= k < |ps| && ps[k] == r.value && ps[k].id == patientId &&
                                      forall j :: 0 <= j < k ==> ps[j].id != patientId
    {
      Find(ps, PatientId, patientId)
    }

    /** `ds.find(x => x.id === doctorId)`. */
    function SelectedDoctor(ds: seq<Doctor>): (r: Option<Doctor>)
      reads this
      ensures r.None? <==> doctorId !in Keys(ds, DoctorId)
      ensures r.Some? ==> exists k :: 0 <= k < |ds| && ds[k] == r.value && ds[k].id == doctorId &&
                                      forall j :: 0 <= j < k ==> ds[j].id != doctorId
    {
      Find(ds, DoctorId, doctorId)
    }

    /** `hs.find(x => x.id === hospitalId)`. */
    function SelectedHospital(hs: seq<Hospital>): (r: Option<Hospital>)
      reads this
      ensures r.None? <==> hospitalId !in Keys(hs, HospitalId)
      ensures r.Some? ==> exists k :: 0 <= k < |hs| && hs[k] == r.value && hs[k].id == hospitalId &&
                                      forall j :: 0 <= j < k ==> hs[j].id != hospitalId
    {
      Find(hs, HospitalId, hospitalId)
    }

    /** The letterhead: the selected hospital's fields over the clinic's settings. */
    function DocHeader(s: ClinicSettings, hs: seq<Hospital>): (hd: Header)
      reads this
      ensures hospitalId !in Keys(hs, HospitalId) ==> hd == SettingsHeader(s)
      ensures SelectedHospital(hs).Some? ==>
                forall f :: HeaderGet(hd, f) == if HospitalGet(SelectedHospital(hs).value, f) != ""
                                                then HospitalGet(SelectedHospital(hs).value, f)
                                                else SettingsGet(s, f)
      ensures forall f :: HeaderGet(hd, f) == SettingsGet(s, f) ||
                          exists h :: h in hs && h.id == hospitalId && HeaderGet(hd, f) == HospitalGet(h, f)
    {
      ResolveHeader(SelectedHospital(hs), s)
    }

    /** The page a surface shows for the current state and the session's records. */
    function View(surface: Surface, s: ClinicSettings, ps: seq<Patient>, ds: seq<Doctor>, hs: seq<Hospital>): (r: Page<Prescription>)
      reads this
      ensures r.frame == if surface == Preview then Card(PreviewFrame(paperSize)) else Sheet(SheetSize(paperSize))
      ensures r.content == Content(surface, DocHeader(s, hs), SelectedPatient(ps), SelectedDoctor(ds), prescription)
      ensures surface != Preview ==> r.content.text == prescription
      ensures patientId !in Keys(ps, PatientId) && surface != Preview ==> r.content.patientName == ""
    {
      Render(surface, paperSize, DocHeader(s, hs), SelectedPatient(ps), SelectedDoctor(ds), prescription)
    }

    method SetPaperSize(p: PaperSize)
      modifies this`paperSize
      ensures paperSize == p
    {
      paperSize := p;
    }

    /** `handleRefine` up to the call of the AI service: nothing happens for an empty
        prescription; otherwise the busy flag goes up and the service receives the text. */
    method BeginRefine() returns (req: Option<string>)
      modifies this`isRefining
      ensures req.None? <==> prescription == ""
      ensures req.None? ==> isRefining == old(isRefining)
      ensures req.Some? ==> isRefining && req.value == prescription
    {
      if prescription == "" {
        req := None;
      } else {
        isRefining := true;
        req := Some(prescription);
      }
    }

    /** The rest of `handleRefine`: the prescription becomes the refined text, or the text
        the service was given (`original`) when the answer is empty or undefined. */
    method FinishRefine(original: string, refined: Option<string>)
      modifies this`prescription, this`isRefining
      ensures IsSet(refined) ==> prescription == refined.value
      ensures !IsSet(refined) ==> prescription == original
      ensures original != "" ==> prescription != ""
      ensures !isRefining
    {
      prescription := OrOpt(refined, original);
      isRefining := false;
    }

    /** `handleDownloadPDF` up to the hand-over to the PDF library. */
    method BeginDownload(ps: seq<Patient>, mounted: bool) returns (o: DownloadOutcome)
      modifies this`isDownloading
      ensures o == StartDownload(PrescriptionPrefix, SelectedPatient(ps), mounted, paperSize)
      ensures o.NoPatient? ==> isDownloading == old(isDownloading)
      ensures !o.NoPatient? ==> isDownloading
    {
      o := StartDownload(PrescriptionPrefix, SelectedPatient(ps), mounted, paperSize);
      if !o.NoPatient? {
        isDownloading := true;
      }
    }

    /** The `finally` of `handleDownloadPDF`. */
    method FinishDownload()
      modifies this`isDownloading
      ensures !isDownloading
    {
      isDownloading := false;
    }

    /** A whole `handleRefine` with no edit while the service works: an empty prescription
        is left alone, and a written one never ends up empty. */
    method Refine(refined: Option<string>)
      modifies this`prescription, this`isRefining
      ensures old(prescription) == "" ==> prescription == "" && isRefining == old(isRefining)
      ensures old(prescription) != "" ==> prescription != "" && !isRefining
      ensures old(prescription) != "" && IsSet(refined) ==> prescription == refined.value
      ensures !IsSet(refined) ==> prescription == old(prescription)
    {
      var req := BeginRefine();
      if req.Some? {
        FinishRefine(req.value, refined);
      }
    }
  }
}
