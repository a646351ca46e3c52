# Medicina Digital — a verified model of the clinic application's logic

Medicina Digital is a single-page clinic application. It keeps three record collections in memory: patients, doctors and hospitals. It also keeps the clinic's own settings. It issues two kinds of documents: a medical certificate ("atestado") and a prescription ("receituário"). A dashboard summarises the patients' payments.

This project models that logic in Dafny and proves properties of it:

- **The session store** (`App.Session`). This is a class over three `seq` fields and a settings record.
  - Add prepends a record.
  - Update maps over the collection and replaces the records whose id matches.
  - Delete filters out the records with the id.
  - The generic sequence operations behind these live in `Collections`. Their properties are proved there: order, subsequence, nothing else changes, nothing happens for an unknown id, the sequence of ids is kept, and uniqueness of ids is kept.
- **The three record editors** (`PatientList`, `DoctorList`, `HospitalList`). Each editor has four parts:
  - the search filter;
  - the draft (`Partial<...>`), written as a datatype of `Option` fields;
  - the pure submission rule: the required-field guard, then update while editing or add under a fresh id;
  - an editor class whose fields are `showForm`, `editingId`, the draft and the search term. Its methods cover reset, start-edit, the header toggle and submit. Submit writes into the session.
  - All three keep `editingId truthy ==> showForm` (`Editor.Consistent`). The invariant is stated for a truthy `editingId`, not for a non-null one: the header toggle closes the form without clearing an `editingId` of `""`, and a random id can be `""`, so `editingId != null ==> showForm` does not hold in the application.
- **Document composition** (`Documents`, `Certificate`, `Prescription`). This covers:
  - the letterhead, resolved field by field with JavaScript `||`;
  - lookups by id;
  - the placeholders of the previews;
  - the three renderings (preview, PDF, print), with paper size A4 or A5;
  - the rules for taking over an AI answer;
  - the export guard and the file name.
  - The two generator classes split each asynchronous handler at its `await` into a Begin and a Finish method, so the busy flags are visible in between.
- **The dashboard** (`Dashboard`): amounts received and pending, the patient count and the five most recent patients.
- **The settings form** (`Settings`): `{...settings, [name]: value}` as a single-field record update.

`Text` holds the JavaScript string operations the application relies on:

- truthiness;
- `a || b` and `a?.f || b`;
- `toLowerCase`;
- `includes`;
- `replace(/\s+/g, '_')`.

Undefined fields of a draft read as `""`, which is how both `||` and rendering treat them.

## Model

| member | source | states |
|---|---|---|
| Text.IsSet | components/CertificateGenerator.tsx:32-36 | definition of JavaScript truthiness for an optional string: present and non-empty; `Text.OrOpt` states its use |
| Text.Or | components/PrescriptionGenerator.tsx:40 | `a \|\| b` on strings is `a` when `a` is non-empty and `b` otherwise; it is empty iff both are |
| Text.OrOpt | components/CertificateGenerator.tsx:32-36 | `a?.f \|\| b`: a present non-empty value wins, otherwise `b` |
| Text.IsSpace | components/CertificateGenerator.tsx:64 | definition of the ECMAScript `\s` class (white space and line terminators); `Text.CollapseNoSpace` states that none of them survives |
| Text.LowerChar | components/PatientList.tsx:23 | the lowered character is never a capital, and a non-capital is unchanged |
| Text.Lower | components/PatientList.tsx:23 | `toLowerCase` keeps the length; `Text.LowerAt` states that it lowers position by position |
| Text.LowerAt | components/PatientList.tsx:23 | `toLowerCase` keeps the length and lowers position by position |
| Text.LowerFixed | components/DoctorList.tsx:20-22 | a string without capitals is its own lower case |
| Text.LowerIdempotent | components/DoctorList.tsx:20-22 | lowering twice is lowering once |
| Text.Contains | components/PatientList.tsx:23-24 | definition of `includes` as a left-to-right scan of start positions; `Text.ContainsIff` states its meaning |
| Text.ContainsIff | components/PatientList.tsx:23-24 | `hay.includes(needle)` holds iff some window of `hay` equals `needle` |
| Text.ContainsEmpty | components/PatientList.tsx:22-25 | every string includes the empty string |
| Text.CollapseSpaces | components/CertificateGenerator.tsx:64 | `replace(/\s+/g, '_')` never lengthens the string, and it is empty iff the input is |
| Text.CollapseNoSpace | components/CertificateGenerator.tsx:64 | no whitespace survives `replace(/\s+/g, '_')` |
| Text.CollapseIdentity | components/CertificateGenerator.tsx:64 | a string without whitespace is left unchanged |
| Text.CollapseIdempotent | components/CertificateGenerator.tsx:64 | replacing twice is replacing once |
| Text.CollapseKeepsVisible | components/CertificateGenerator.tsx:64 | the replacement keeps every character that is neither whitespace nor `_`, in order |
| Text.CollapseRun | components/PrescriptionGenerator.tsx:56 | a whitespace run of any length becomes exactly one `_` |
| Text.CollapseSplit | components/PrescriptionGenerator.tsx:56 | after a cut behind a non-space character, replacing the two halves separately gives the same result |
| Collections.Filter | App.tsx:57 | every kept record is in the input and satisfies the test; every input record that satisfies it is kept |
| Collections.FilterIsSubsequence | App.tsx:57 | filtering keeps the records in their original order, as a subsequence |
| Collections.FilterKeepsAll | components/PatientList.tsx:22-25 | when every record passes, the filter returns the whole collection |
| Collections.FilterIdempotent | App.tsx:57 | filtering twice is filtering once |
| Collections.FilterMultiplicity | components/Dashboard.tsx:38-44 | a record occurs in the result as often as in the input if it passes, otherwise never |
| Collections.FilterPermutation | components/Dashboard.tsx:38-44 | filtering two permutations of a list gives permutations of each other |
| Collections.FilterKeepsUnique | App.tsx:57 | filtering keeps ids unique |
| Collections.Remove | App.tsx:57 | `filter(x => x.id !== id)`: the kept records are exactly the input records with another id, as a subsequence |
| Collections.RemoveAbsent | App.tsx:57 | deleting an id that no record has changes nothing |
| Collections.RemoveGone | App.tsx:57 | after a delete no record has the id |
| Collections.RemoveIdempotent | App.tsx:57 | deleting twice is deleting once |
| Collections.RemoveKeepsUnique | App.tsx:57 | deleting keeps ids unique |
| Collections.Replace | App.tsx:35-37 | `map(x => x.id === e.id ? e : x)` keeps the length; `Collections.ReplaceAt` states it position by position |
| Collections.ReplaceAt | App.tsx:35-37 | update keeps the length; at each position the record is replaced exactly when its id is the new record's id |
| Collections.ReplaceAbsent | App.tsx:35-37 | updating with an id no record has changes nothing |
| Collections.ReplaceKeys | App.tsx:35-45 | update keeps the sequence of ids, hence their uniqueness |
| Collections.ReplacePresent | App.tsx:35-37 | updating with a present id puts the new record into the collection |
| Collections.ReplaceSelf | App.tsx:35-37 | writing back a stored record under unique ids changes nothing |
| Collections.ReplaceIdempotent | App.tsx:35-37 | updating twice with the same record is updating once |
| Collections.PrependFresh | App.tsx:55 | prepending a record with a fresh id keeps ids unique |
| Collections.PrependDuplicate | App.tsx:55 | add performs no duplicate check: prepending a used id breaks uniqueness |
| Collections.FirstIndex | components/CertificateGenerator.tsx:27-29 | the first position holding the id, or the length when there is none |
| Collections.Find | components/CertificateGenerator.tsx:27-29 | `find` by id is none exactly when no record has the id, and otherwise the first record with the id |
| Collections.Apply | App.tsx:35-57 | the store write a record editor hands over: `Add` puts the record in front of the unchanged collection, `Update` keeps the length and replaces exactly the records whose id is the new record's |
| App.InitialSettings | App.tsx:24-31 | the initial settings have all six fields empty |
| App.Session.constructor | App.tsx:18-31 | a session starts with three empty collections and empty settings |
| App.Session.AddPatient | App.tsx:55 | patients become `[p] + old`; only the patients change; ids stay unique when `p.id` is fresh |
| App.Session.UpdatePatient | App.tsx:35-37 | patients become the replacement by id; the ids, and hence their uniqueness, are kept |
| App.Session.DeletePatient | App.tsx:57 | patients become the filtered sequence; the id is gone afterwards; uniqueness is kept |
| App.Session.AddDoctor | App.tsx:64 | doctors become `[d] + old`; ids stay unique when `d.id` is fresh |
| App.Session.UpdateDoctor | App.tsx:43-45 | doctors become the replacement by id, with the same ids |
| App.Session.DeleteDoctor | App.tsx:66 | doctors become the filtered sequence, without the id |
| App.Session.AddHospital | App.tsx:73 | hospitals become `[h] + old`; ids stay unique when `h.id` is fresh |
| App.Session.UpdateHospital | App.tsx:39-41 | hospitals become the replacement by id, with the same ids |
| App.Session.DeleteHospital | App.tsx:75 | hospitals become the filtered sequence, without the id |
| App.Session.SetSettings | App.tsx:97 | the settings become the record the form hands over |
| Editor.ModeOf | components/PatientList.tsx:69-78 | the form is closed iff not shown, creating iff shown with a falsy `editingId`, and editing the non-empty `editingId` otherwise |
| PatientList.Matches | components/PatientList.tsx:22-25 | definition of the search test; `PatientList.MatchesIff` states its meaning |
| PatientList.MatchesIff | components/PatientList.tsx:23-24 | a patient matches iff the lowered term occurs in the lowered name, or the term occurs in the CPF as it is |
| PatientList.FilterPatients | components/PatientList.tsx:22-25 | the shown patients are an order-preserving subsequence, and a patient is shown iff it matches |
| PatientList.FilterEmptyTerm | components/PatientList.tsx:22-25 | an empty search shows every patient |
| PatientList.EmptyDraft | components/PatientList.tsx:16-19 | the initial and reset draft holds no id and no text field, status `PENDENTE` and amount 0 |
| PatientList.DraftOf | components/PatientList.tsx:51-52 | `setFormData(patient)`; `PatientList.DraftRoundTrip` states that it loses nothing |
| PatientList.ToPatient | components/PatientList.tsx:29-39 | `{...formData, id} as Patient`; `PatientList.DraftRoundTrip` states that it inverts `DraftOf` |
| PatientList.DraftRoundTrip | components/PatientList.tsx:30-34 | seeding the draft from a patient and writing it back under the same id returns the patient |
| PatientList.ApplyInput | components/PatientList.tsx:93-131 | the input's own field takes the typed value (text, status or amount), and every other field of the draft, the id included, keeps its value |
| PatientList.ApplyInputKeepsDefaults | components/PatientList.tsx:16-19 | a draft that holds a status and an amount keeps holding both after any input |
| PatientList.Submission | components/PatientList.tsx:29-40 | nothing unless name and CPF are both non-empty; then update iff `editingId` is truthy, under `editingId`, otherwise add under the fresh id, with the draft's fields |
| PatientList.UnchangedEditIsNoOp | components/PatientList.tsx:29-54 | editing a stored patient and submitting without changes leaves a collection with unique ids unchanged |
| PatientList.PatientEditor.constructor | components/PatientList.tsx:14-20 | a new editor is closed with search `""` and draft `{status: PENDENTE, amount: 0}` |
| PatientList.PatientEditor.Search | components/PatientList.tsx:164 | the search term becomes the typed text |
| PatientList.PatientEditor.ResetForm | components/PatientList.tsx:45-49 | the draft is `{status: PENDENTE, amount: 0}`, `editingId` is null and the form is closed |
| PatientList.PatientEditor.StartEdit | components/PatientList.tsx:51-54 | the draft is the patient, `editingId` is its id and the form is open; consistency holds |
| PatientList.PatientEditor.Toggle | components/PatientList.tsx:66 | while creating, the toggle closes the form and keeps the draft; otherwise it resets and opens in creation mode; consistency is preserved |
| PatientList.PatientEditor.Edit | components/PatientList.tsx:93-131 | the draft becomes the draft after the input and nothing else changes; consistency is preserved |
| PatientList.PatientEditor.Submit | components/PatientList.tsx:27-43 | the store write is the submission rule's command; a refused submit changes nothing; a successful one resets the form; uniqueness is preserved under a fresh id |
| DoctorList.Matches | components/DoctorList.tsx:19-23 | definition of the search test; `DoctorList.MatchesIff` states its meaning |
| DoctorList.MatchesIff | components/DoctorList.tsx:19-23 | a doctor matches iff the lowered term occurs in the lowered name, CRM or specialty |
| DoctorList.MatchesIgnoresCase | components/DoctorList.tsx:19-23 | the search does not depend on the case of the term |
| DoctorList.FilterDoctors | components/DoctorList.tsx:19-23 | the shown doctors are an order-preserving subsequence, and a doctor is shown iff it matches |
| DoctorList.FilterEmptyTerm | components/DoctorList.tsx:19-23 | an empty search shows every doctor |
| DoctorList.EmptyDraft | components/DoctorList.tsx:16 | the initial and reset draft `{}` holds no field |
| DoctorList.DraftOf | components/DoctorList.tsx:49-50 | `setFormData(doctor)`; `DoctorList.DraftRoundTrip` states that it loses nothing |
| DoctorList.ToDoctor | components/DoctorList.tsx:29-37 | `{...formData, id} as Doctor`; `DoctorList.DraftRoundTrip` states that it inverts `DraftOf` |
| DoctorList.DraftRoundTrip | components/DoctorList.tsx:29-32 | seeding the draft from a doctor and writing it back returns the doctor |
| DoctorList.DraftExtensionality | components/DoctorList.tsx:16 | two drafts with the same id that agree on the five input fields are equal |
| DoctorList.ApplyInput | components/DoctorList.tsx:86-122 | the input's field takes the typed value, and every other field of the draft, the id included, keeps its value |
| DoctorList.ApplyInputOverwrite | components/DoctorList.tsx:86-122 | the last input to a field wins |
| DoctorList.ApplyInputCommute | components/DoctorList.tsx:86-122 | inputs to different fields commute |
| DoctorList.Submission | components/DoctorList.tsx:27-38 | nothing unless name, CRM and specialty are all non-empty; then update under `editingId` iff it is truthy, otherwise add under the fresh id |
| DoctorList.EditOneRecord | components/DoctorList.tsx:27-52 | editing one field of a stored doctor changes exactly that record, keeping length and ids |
| DoctorList.DoctorEditor.constructor | components/DoctorList.tsx:14-17 | a new editor is closed with an empty draft |
| DoctorList.DoctorEditor.Search | components/DoctorList.tsx:155 | the search term becomes the typed text |
| DoctorList.DoctorEditor.ResetForm | components/DoctorList.tsx:43-47 | the draft is `{}`, `editingId` is null and the form is closed |
| DoctorList.DoctorEditor.StartEdit | components/DoctorList.tsx:49-52 | the draft and `editingId` come from the doctor and the form is open |
| DoctorList.DoctorEditor.Toggle | components/DoctorList.tsx:64 | closes while creating; otherwise resets and opens in creation mode; consistency is preserved |
| DoctorList.DoctorEditor.Edit | components/DoctorList.tsx:86-122 | the draft becomes the draft after the input and nothing else changes; consistency is preserved |
| DoctorList.DoctorEditor.Submit | components/DoctorList.tsx:25-41 | the store write is the submission rule's command; a refused submit changes nothing; a successful one resets the form |
| HospitalList.Matches | components/HospitalList.tsx:19-22 | definition of the search test; `HospitalList.MatchesIff` states its meaning |
| HospitalList.MatchesIff | components/HospitalList.tsx:19-22 | a hospital matches iff the lowered term occurs in the lowered name, or the term occurs in the CNPJ as it is |
| HospitalList.FilterHospitals | components/HospitalList.tsx:19-22 | the shown hospitals are an order-preserving subsequence, and a hospital is shown iff it matches |
| HospitalList.FilterEmptyTerm | components/HospitalList.tsx:19-22 | an empty search shows every hospital |
| HospitalList.EmptyDraft | components/HospitalList.tsx:16 | the initial and reset draft `{}` holds no field |
| HospitalList.DraftOf | components/HospitalList.tsx:48-49 | `setFormData(hospital)`; `HospitalList.DraftRoundTrip` states that it loses nothing |
| HospitalList.ToHospital | components/HospitalList.tsx:28-36 | `{...formData, id} as Hospital`; `HospitalList.DraftRoundTrip` states that it inverts `DraftOf` |
| HospitalList.DraftRoundTrip | components/HospitalList.tsx:28-31 | seeding the draft from a hospital and writing it back returns the hospital, its optional logo included |
| HospitalList.DraftExtensionality | components/HospitalList.tsx:16 | two drafts with the same id that agree on the five input fields are equal |
| HospitalList.ApplyInput | components/HospitalList.tsx:90-127 | the input's field takes the typed value, and every other field of the draft, the id included, keeps its value; the logo changes only through the logo input |
| HospitalList.ApplyInputOverwrite | components/HospitalList.tsx:90-127 | the last input to a field wins |
| HospitalList.ApplyInputCommute | components/HospitalList.tsx:90-127 | inputs to different fields commute |
| HospitalList.Submission | components/HospitalList.tsx:26-37 | nothing unless name and CNPJ are both non-empty; then update under `editingId` iff it is truthy, otherwise add under the fresh id; the logo is carried over as it is |
| HospitalList.NewHospitalLogo | components/HospitalList.tsx:26-37 | a hospital registered with only name and CNPJ has empty address and phone and no logo |
| HospitalList.HospitalEditor.constructor | components/HospitalList.tsx:14-17 | a new editor is closed with an empty draft |
| HospitalList.HospitalEditor.Search | components/HospitalList.tsx:160 | the search term becomes the typed text |
| HospitalList.HospitalEditor.ResetForm | components/HospitalList.tsx:42-46 | the draft is `{}`, `editingId` is null and the form is closed |
| HospitalList.HospitalEditor.StartEdit | components/HospitalList.tsx:48-51 | the draft and `editingId` come from the hospital and the form is open |
| HospitalList.HospitalEditor.Toggle | components/HospitalList.tsx:63 | closes while creating; otherwise resets and opens in creation mode; consistency is preserved |
| HospitalList.HospitalEditor.Edit | components/HospitalList.tsx:90-127 | the draft becomes the draft after the input and nothing else changes; consistency is preserved |
| HospitalList.HospitalEditor.Submit | components/HospitalList.tsx:24-40 | the store write is the submission rule's command; a refused submit changes nothing; a successful one resets the form |
| Documents.SettingsHeader | components/CertificateGenerator.tsx:31-37 | the clinic letterhead carries the five settings fields as they are |
| Documents.ResolveHeader | components/CertificateGenerator.tsx:31-37 | each letterhead field is the hospital's value when a hospital is selected and that value is non-empty, and the settings' value otherwise |
| Documents.NoHospitalHeader | components/PrescriptionGenerator.tsx:28-34 | without a hospital the letterhead is the settings verbatim |
| Documents.HeaderFieldSource | components/PrescriptionGenerator.tsx:28-34 | each field comes from the hospital or from the settings, and it is empty iff both are |
| Documents.FullHospitalHeader | components/CertificateGenerator.tsx:31-37 | a hospital with all five fields filled in makes the letterhead its own, whatever the settings |
| Documents.HospitalWithoutLogo | components/CertificateGenerator.tsx:36 | a hospital without a logo shows the clinic's logo under its own name |
| Documents.EmptySelection | components/CertificateGenerator.tsx:143 | the empty option selects nothing when no record has the empty id |
| Documents.SelectionFirst | components/PrescriptionGenerator.tsx:24-26 | selecting a stored id picks its first record |
| Documents.Chain | components/CertificateGenerator.tsx:291-306 | `selected?.field` is absent exactly when nothing is selected, and otherwise the selected record's field |
| Documents.SheetSize | components/CertificateGenerator.tsx:275 | the page the PDF is taken from is portrait for both paper sizes |
| Documents.A5IsHalfA4 | components/PrescriptionGenerator.tsx:230 | the A5 page is half the A4 page: its width is half the A4 height and its height is the A4 width |
| Documents.PreviewFrame | components/CertificateGenerator.tsx:230 | the preview card's bounds (maximum width, minimum height) are portrait for both paper sizes |
| Documents.ExportFileName | components/CertificateGenerator.tsx:64 | the file name starts with the prefix and ends with `.pdf` |
| Documents.ExportFileNameNoSpace | components/PrescriptionGenerator.tsx:56 | with a prefix without whitespace, the file name has no whitespace |
| Documents.ExportFileNameVisible | components/PrescriptionGenerator.tsx:56 | the file name keeps the visible characters of prefix and name, in order |
| Documents.StartDownload | components/CertificateGenerator.tsx:52-68 | download is refused iff no patient is selected; it stops iff the PDF page is not mounted; otherwise it exports under the derived file name on the chosen paper |
| Documents.ExportNameNoSpace | components/PrescriptionGenerator.tsx:44-60 | every exported file name is free of whitespace |
| Documents.DocumentFileNamesNoSpace | components/CertificateGenerator.tsx:64 | both generators' prefixes are free of whitespace, so both kinds of file name are |
| Certificate.Content | components/CertificateGenerator.tsx:230-356 | title `ATESTADO MÉDICO` everywhere. The preview shows the hint iff the text is empty, and a placeholder for each missing or empty patient and doctor field. PDF and print always carry the attestation with the fields as they are |
| Certificate.Render | components/CertificateGenerator.tsx:230-356 | a rendering is the surface's frame for the paper size around the content; its properties are `Certificate.PaperChangesOnlyFrame` and `Certificate.SurfacesAgree` |
| Certificate.PaperChangesOnlyFrame | components/CertificateGenerator.tsx:230-275 | the paper size changes the frame and never the content; this holds by construction, since the content takes no paper size |
| Certificate.SurfacesAgree | components/CertificateGenerator.tsx:247-306 | with a text and fully filled-in selections, preview, PDF and print show the same certificate |
| Certificate.CertificateEditor.constructor | components/CertificateGenerator.tsx:15-24 | a new generator has nothing selected, one day, no text, A4 and no busy flag |
| Certificate.CertificateEditor.SelectedPatient | components/CertificateGenerator.tsx:27 | `find` by the chosen id: no patient is selected iff no patient has the id, and otherwise the selected patient is the first stored patient with the id |
| Certificate.CertificateEditor.SelectedDoctor | components/CertificateGenerator.tsx:28 | `find` by the chosen id: no doctor is selected iff no doctor has the id, and otherwise the selected doctor is the first stored doctor with the id |
| Certificate.CertificateEditor.SelectedHospital | components/CertificateGenerator.tsx:29 | `find` by the chosen id: no hospital is selected iff no hospital has the id, and otherwise the selected hospital is the first stored hospital with the id |
| Certificate.CertificateEditor.DocHeader | components/CertificateGenerator.tsx:31-37 | with no hospital selected the letterhead is the settings; with one selected, each field is the hospital's when it is non-empty and the settings' otherwise |
| Certificate.CertificateEditor.View | components/CertificateGenerator.tsx:230-356 | the frame is the preview card's bounds or the sheet for the chosen paper, and the content is the certificate `Certificate.Content` states for the current letterhead, selected patient and doctor, and text; PDF and print carry the attestation with the current text, and blank patient fields when no patient is selected |
| Certificate.CertificateEditor.SetPaperSize | components/CertificateGenerator.tsx:95-102 | the paper size becomes the chosen one |
| Certificate.CertificateEditor.BeginGenerate | components/CertificateGenerator.tsx:39-45 | refused iff the diagnosis is empty; otherwise the busy flag rises and the service gets diagnosis, observations and days |
| Certificate.CertificateEditor.FinishGenerate | components/CertificateGenerator.tsx:45-49 | only a non-empty answer replaces the text, so a written text never becomes empty; the busy flag drops |
| Certificate.CertificateEditor.Generate | components/CertificateGenerator.tsx:39-50 | the whole handler with no edit in between: no diagnosis leaves everything alone, an empty answer keeps the text |
| Certificate.CertificateEditor.BeginDownload | components/CertificateGenerator.tsx:52-60 | the outcome is the download rule on the selected patient; the busy flag rises unless refused |
| Certificate.CertificateEditor.FinishDownload | components/CertificateGenerator.tsx:76-78 | the busy flag drops |
| Prescription.Content | components/PrescriptionGenerator.tsx:187-292 | the preview is titled `RECEITUÁRIO` and shows placeholders for patient, body, doctor and CRM. PDF and print are titled `Prescrição Médica` and carry the text verbatim |
| Prescription.Render | components/PrescriptionGenerator.tsx:187-292 | a rendering is the surface's frame for the paper size around the content; its properties are `Prescription.TextVerbatim` and `Prescription.PreviewShowsText` |
| Prescription.TextVerbatim | components/PrescriptionGenerator.tsx:247-283 | PDF and print carry the prescription verbatim on either paper |
| Prescription.PreviewShowsText | components/PrescriptionGenerator.tsx:209 | the preview shows the text the PDF carries iff the prescription is non-empty |
| Prescription.PrescriptionEditor.constructor | components/PrescriptionGenerator.tsx:15-21 | a new generator has nothing selected, no text, A4 and no busy flag |
| Prescription.PrescriptionEditor.SelectedPatient | components/PrescriptionGenerator.tsx:24 | `find` by the chosen id: no patient is selected iff no patient has the id, and otherwise the selected patient is the first stored patient with the id |
| Prescription.PrescriptionEditor.SelectedDoctor | components/PrescriptionGenerator.tsx:25 | `find` by the chosen id: no doctor is selected iff no doctor has the id, and otherwise the selected doctor is the first stored doctor with the id |
| Prescription.PrescriptionEditor.SelectedHospital | components/PrescriptionGenerator.tsx:26 | `find` by the chosen id: no hospital is selected iff no hospital has the id, and otherwise the selected hospital is the first stored hospital with the id |
| Prescription.PrescriptionEditor.DocHeader | components/PrescriptionGenerator.tsx:28-34 | with no hospital selected the letterhead is the settings; with one selected, each field is the hospital's when it is non-empty and the settings' otherwise |
| Prescription.PrescriptionEditor.View | components/PrescriptionGenerator.tsx:187-292 | the frame is the preview card's bounds or the sheet for the chosen paper, and the content is the prescription `Prescription.Content` states for the current letterhead, selected patient and doctor, and text; PDF and print carry the current prescription verbatim, and a blank patient name when no patient is selected |
| Prescription.PrescriptionEditor.SetPaperSize | components/PrescriptionGenerator.tsx:85-92 | the paper size becomes the chosen one |
| Prescription.PrescriptionEditor.BeginRefine | components/PrescriptionGenerator.tsx:36-39 | a no-op iff the prescription is empty; otherwise the busy flag rises and the service gets the text |
| Prescription.PrescriptionEditor.FinishRefine | components/PrescriptionGenerator.tsx:39-41 | the prescription becomes the refined text if it is non-empty, and the original otherwise; the busy flag drops |
| Prescription.PrescriptionEditor.Refine | components/PrescriptionGenerator.tsx:36-42 | the whole handler with no edit in between: an empty prescription is left alone and a written one never becomes empty |
| Prescription.PrescriptionEditor.BeginDownload | components/PrescriptionGenerator.tsx:44-52 | the outcome is the download rule on the selected patient; the busy flag rises unless refused |
| Prescription.PrescriptionEditor.FinishDownload | components/PrescriptionGenerator.tsx:68-70 | the busy flag drops |
| Dashboard.Total | components/Dashboard.tsx:38-44 | definition of `reduce((acc, curr) => acc + curr.amount, 0)`; `Dashboard.TotalNonNegative` and `Dashboard.TotalPermutation` state its properties |
| Dashboard.TotalNonNegative | components/Dashboard.tsx:38-44 | with no negative amount the sum is not negative |
| Dashboard.TotalReceived | components/Dashboard.tsx:37-39 | definition: the sum over the `PAGO` patients; `Dashboard.ReceivedPlusPending` and `Dashboard.ReceivedBounded` state its meaning |
| Dashboard.TotalPending | components/Dashboard.tsx:41-43 | definition: the sum over the `PENDENTE` patients; `Dashboard.ReceivedPlusPending` and `Dashboard.ReceivedBounded` state its meaning |
| Dashboard.ReceivedPlusPending | components/Dashboard.tsx:38-44 | received plus pending is the amount of all patients |
| Dashboard.ReceivedBounded | components/Dashboard.tsx:37-43 | with no negative amount, received and pending each lie between zero and the total |
| Dashboard.TotalPermutation | components/Dashboard.tsx:38-44 | the sum of amounts does not depend on the order of the patients |
| Dashboard.FiguresPermutation | components/Dashboard.tsx:38-44 | reordering the patients changes neither figure |
| Dashboard.PayingMovesAmount | components/Dashboard.tsx:38-44 | a patient who pays moves its amount from pending to received |
| Dashboard.Recent | components/Dashboard.tsx:134 | the recent list is the first min(5, n) patients in stored order |
| Dashboard.RecentAfterAdd | components/Dashboard.tsx:134 | a newly added patient heads the recent list and the others shift down by one |
| Dashboard.StatsOf | components/Dashboard.tsx:38-65 | the count is the number of patients, the received figure is the `PAGO` sum, the pending figure the `PENDENTE` sum, and the two add up to the total |
| Dashboard.EmptyStats | components/Dashboard.tsx:38-65 | with no patients every figure is zero |
| Settings.ParseField | components/Settings.tsx:42-93 | an input name designates at most the field named by it |
| Settings.ParseFieldName | components/Settings.tsx:42-93 | every field's input name designates that field, so no two fields share a name |
| Settings.Get | types.ts:31-38 | definition: reads one of the six settings fields; `Settings.Extensionality` states that the six reads determine the record |
| Settings.Extensionality | types.ts:31-38 | two settings records that agree on all six fields are equal |
| Settings.WithField | components/Settings.tsx:14 | the chosen field becomes the value, and every other field keeps its value |
| Settings.HandleChange | components/Settings.tsx:12-15 | the field whose input name is `name` becomes the value, and every other field is unchanged |
| Settings.WithFieldIdempotent | components/Settings.tsx:14 | the same change twice is the change once |
| Settings.WithFieldOverwrite | components/Settings.tsx:14 | the last write to a field wins |
| Settings.WithFieldCommute | components/Settings.tsx:14 | changes to different fields commute |

## Left out

- JSX layout, CSS classes (except the preview card's size bounds, see below), icons, `window.scrollTo` and `alert`: presentation only. A refused generate or download is modelled as "nothing changes".
- PDF rendering by `html2pdf`, `window.print` and the outcome of the export: foreign I/O. The model stops at the guard, the file name and the paper, and `FinishDownload` stands for the `finally` clause.
- `services/geminiService.ts`: a network call. Its answers are the `Option<string>` parameters of `FinishGenerate` and `FinishRefine`, and they may be empty or undefined.
- Edits during the `await` of the AI calls are not modelled as interleavings. The Begin/Finish split exposes the state in between, and `FinishRefine` takes the text captured before the call.
- `Math.random` ids and the REF number: the fresh id is a parameter of `Submission`/`Submit`. Its freshness is a hypothesis of the uniqueness clauses. The REF number is not modelled.
- `toLocaleDateString` and `toLocaleString`: locale behaviour. The date lines and the currency values are not modelled.
- The static chart data, the trend constants and `recharts` in the dashboard: constants and library behaviour.
- `components/Sidebar.tsx`, the `renderView` switch and the sidebar toggle in `App.tsx`: navigation with no logic.
- Fixed sentence text of the renderings is not modelled. This includes the attestation sentence, which differs slightly between PDF and print, "Autenticado pelo Sistema Medicina Digital" and the footers. The model keeps titles, fields, placeholders and body text.
- Documents.PreviewFrame: holds the preview card's `max-w-[...]` and `min-h-[...]` bounds in CSS pixels, not a rendered size; the card's actual size depends on the layout, which is not modelled. The print frame is taken as the inline sheet size; the `paper-a4`/`paper-a5` stylesheet is not modelled.
- Text.LowerChar: lowers only ASCII and the Latin-1 capitals U+00C0–U+00DE. Full Unicode case mapping, including special cases and characters outside Latin-1, is not modelled.
- `amount` is an integer. JavaScript floating-point numbers and `Number()` of malformed input (NaN) are not modelled.
- The `onChange` setters of the generators' selections, day count, diagnosis, observations and text are plain field assignments on the classes' public fields. They get no methods of their own.
- Settings.HandleChange: an input name that is not one of the six fields would add a foreign property to the record. The model leaves the settings unchanged in that case. Every input of the form carries one of the six names.
- Delete buttons call the store's delete directly (`components/PatientList.tsx:212`, `components/DoctorList.tsx:204`, `components/HospitalList.tsx:204`). They are covered by `App.Session.DeletePatient`, `DeleteDoctor` and `DeleteHospital`, with no editor method.
