/**
 * The session state held by the application root: the patients, doctors and
 * hospitals arrays and the clinic settings, with the add, update and delete
 * callbacks it hands to the record editors.
 */
module App {
  import opened Wrappers
  import opened Types
  import opened Collections

  /** The settings a session starts with: every field empty. */
  function InitialSettings(): (s: ClinicSettings)
    ensures s.name == "" && s.cnpj == "" && s.address == ""
    ensures s.phone == "" && s.email == "" && s.logo == ""
  {
    ClinicSettings("", "", "", "", "", "")
  }

  class Session {
    var patients: seq<Patient>
    var doctors: seq<Doctor>
    var hospitals: seq<Hospital>
    var settings: ClinicSettings

    /** Every collection keeps its ids unique (the store itself never checks this). */
    ghost predicate IdsUnique()
      reads this
    {
      UniqueKeys(patients, PatientId) && UniqueKeys(doctors, DoctorId) && UniqueKeys(hospitals, HospitalId)
    }

    /** A fresh session: three empty collections and empty settings. */
    constructor ()
      ensures patients == [] && doctors == [] && hospitals == []
      ensures settings == InitialSettings()
      ensures IdsUnique()
    {
      patients, doctors, hospitals := [], [], [];
      settings := InitialSettings();
    }

    // Each operation below may write only its own collection (its `modifies` frame),
    // so the other two collections and the settings are unchanged.

    /** `onAdd` for patients: `[p, ...patients]`. */
    method AddPatient(p: Patient)
      modifies this`patients
      ensures patients == [p] + old(patients)
      ensures old(IdsUnique()) && p.id !in Keys(old(patients), PatientId) ==> IdsUnique()
    {
      if IdsUnique() && p.id !in Keys(patients, PatientId) {
        PrependFresh(patients, PatientId, p);
      }
      patients := [p] + patients;
    }

    /** `updatePatient`: replace the patients whose id is `p.id`. */
    method UpdatePatient(p: Patient)
      modifies this`patients
      ensures patients == Replace(old(patients), PatientId, p)
      ensures Keys(patients, PatientId) == Keys(old(patients), PatientId)
      ensures old(IdsUnique()) ==> IdsUnique()
    {
      ReplaceKeys(patients, PatientId, p);
      patients := Replace(patients, PatientId, p);
    }

    /** `onDelete` for patients: keep the patients whose id is not `id`. */
    method DeletePatient(id: string)
      modifies this`patients
      ensures patients == Remove(old(patients), PatientId, id)
      ensures id !in Keys(patients, PatientId)
      ensures old(IdsUnique()) ==> IdsUnique()
    {
      if IdsUnique() {
        RemoveKeepsUnique(patients, PatientId, id);
      }
      RemoveGone(patients, PatientId, id);
      patients := Remove(patients, PatientId, id);
    }

    /** `onAdd` for doctors: `[d, ...doctors]`. */
    method AddDoctor(d: Doctor)
      modifies this`doctors
      ensures doctors == [d] + old(doctors)
      ensures old(IdsUnique()) && d.id !in Keys(old(doctors), DoctorId) ==> IdsUnique()
    {
      if IdsUnique() && d.id !in Keys(doctors, DoctorId) {
        PrependFresh(doctors, DoctorId, d);
      }
      doctors := [d] + doctors;
    }

    /** `updateDoctor`: replace the doctors whose id is `d.id`. */
    method UpdateDoctor(d: Doctor)
      modifies this`doctors
      ensures doctors == Replace(old(doctors), DoctorId, d)
      ensures Keys(doctors, DoctorId) == Keys(old(doctors), DoctorId)
      ensures old(IdsUnique()) ==> IdsUnique()
    {
      ReplaceKeys(doctors, DoctorId, d);
      doctors := Replace(doctors, DoctorId, d);
    }

    /** `onDelete` for doctors. */
    method DeleteDoctor(id: string)
      modifies this`doctors
      ensures doctors == Remove(old(doctors), DoctorId, id)
      ensures id !in Keys(doctors, DoctorId)
      ensures old(IdsUnique()) ==> IdsUnique()
    {
      if IdsUnique() {
        RemoveKeepsUnique(doctors, DoctorId, id);
      }
      RemoveGone(doctors, DoctorId, id);
      doctors := Remove(doctors, DoctorId, id);
    }

    /** `onAdd` for hospitals: `[h, ...hospitals]`. */
    method AddHospital(h: Hospital)
      modifies this`hospitals
      ensures hospitals == [h] + old(hospitals)
      ensures old(IdsUnique()) && h.id !in Keys(old(hospitals), HospitalId) ==> IdsUnique()
    {
      if IdsUnique() && h.id !in Keys(hospitals, HospitalId) {
        PrependFresh(hospitals, HospitalId, h);
      }
      hospitals := [h] + hospitals;
    }

    /** `updateHospital`: replace the hospitals whose id is `h.id`. */
    method UpdateHospital(h: Hospital)
      modifies this`hospitals
      ensures hospitals == Replace(old(hospitals), HospitalId, h)
      ensures Keys(hospitals, HospitalId) == Keys(old(hospitals), HospitalId)
      ensures old(IdsUnique()) ==> IdsUnique()
    {
      ReplaceKeys(hospitals, HospitalId, h);
      hospitals := Replace(hospitals, HospitalId, h);
    }

    /** `onDelete` for hospitals. */
    method DeleteHospital(id: string)
      modifies this`hospitals
      ensures hospitals == Remove(old(hospitals), HospitalId, id)
      ensures id !in Keys(hospitals, HospitalId)
      ensures old(IdsUnique()) ==> IdsUnique()
    {
      if IdsUnique() {
        RemoveKeepsUnique(hospitals, HospitalId, id);
      }
      RemoveGone(hospitals, HospitalId, id);
      hospitals := Remove(hospitals, HospitalId, id);
    }

    /** `setClinicSettings`: the settings form hands over a whole new record. */
    method SetSettings(s: ClinicSettings)
      modifies this`settings
      ensures settings == s
    {
      settings := s;
    }
  }
}
