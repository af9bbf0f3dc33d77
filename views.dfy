/**
 * The flat view model the portal's screens work on: the shape returned by
 * the data service and shown on the dashboard, and the projection of it
 * onto the user's selection that is serialised into the QR code.
 */
module Views {
  import opened Wrappers

  datatype Allergy = Allergy(id: string, substance: string, severity: string, status: string)

  datatype Contact = Contact(id: string, name: string, relationship: string, phone: string)

  datatype Patient = Patient(
    id: string,
    name: string,
    birthDate: string,
    gender: string,
    address: string,
    phone: string,
    email: string)

  /** `{ patient, allergies, emergencyContacts }` as the dashboard receives it. */
  datatype HealthData = HealthData(patient: Patient, allergies: seq<Allergy>, emergencyContacts: seq<Contact>)

  /** The selected part of the health data; `None` is a key that is not set on the object. */
  datatype SelectedData = SelectedData(
    patient: Option<Patient>,
    allergies: Option<seq<Allergy>>,
    emergencyContacts: Option<seq<Contact>>)

  /** `{}` */
  const NoSelection := SelectedData(None, None, None)

  /** `Object.keys(data).length` */
  function KeyCount(d: SelectedData): (n: nat)
    ensures n <= 3
    ensures n == 0 <==> d == NoSelection
  {
    (if d.patient.Some? then 1 else 0)
    + (if d.allergies.Some? then 1 else 0)
    + (if d.emergencyContacts.Some? then 1 else 0)
  }
}
