/** The records of the clinic application, field for field as the TypeScript interfaces declare them. */
module Types {
  import opened Wrappers

  /** Payment status of a patient: paid or pending. */
  datatype PaymentStatus = Pago | Pendente

  datatype Patient = Patient(
    id: string,
    name: string,
    cpf: string,
    email: string,
    phone: string,
    birthDate: string,
    status: PaymentStatus,
    amount: int)

  datatype Doctor = Doctor(
    id: string,
    name: string,
    crm: string,
    specialty: string,
    email: string,
    phone: string)

  /** A hospital or clinic unit; its logo is optional. */
  datatype Hospital = Hospital(
    id: string,
    name: string,
    cnpj: string,
    address: string,
    phone: string,
    logo: Option<string>)

  /** The clinic-wide defaults used on every document. */
  datatype ClinicSettings = ClinicSettings(
    name: string,
    cnpj: string,
    address: string,
    phone: string,
    logo: string,
    email: string)

  /** The `id` projections the collection operations compare on. */
  function PatientId(p: Patient): string { p.id }
  function DoctorId(d: Doctor): string { d.id }
  function HospitalId(h: Hospital): string { h.id }
}
