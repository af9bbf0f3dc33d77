/**
 * The data service the dashboard calls: `FHIRService.getPatientData(ssn)`
 * answers from the module constant `MOCK_DATA`. It makes a shallow copy
 * (`{ ...MOCK_DATA }`), so the copy's `patient` is the very object held by
 * `MOCK_DATA`; for an ssn containing "123" it overwrites three fields of
 * that shared object and gives the copy its own allergy and contact lists.
 */
module FhirService {
  import opened JsText
  import opened Views

  const BaselinePatient := Patient(
    "patient-001", "John Smith", "1985-03-15", "male",
    "123 Main St, Anytown, NY 12345", "(555) 123-4567", "john.smith@email.com")

  const BaselineAllergies := [
    Allergy("allergy-001", "Penicillin", "High", "Active"),
    Allergy("allergy-002", "Peanuts", "High", "Active"),
    Allergy("allergy-003", "Shellfish", "Medium", "Active")]

  const BaselineContacts := [
    Contact("contact-001", "Jane Smith", "Spouse", "(555) 987-6543"),
    Contact("contact-002", "Robert Smith", "Father", "(555) 456-7890")]

  /** The baseline patient after the three writes of the "123" branch. */
  const OverriddenPatient := BaselinePatient.(name := "Alice Johnson", birthDate := "1990-07-22", gender := "female")

  const OverrideAllergies := [Allergy("allergy-004", "Latex", "High", "Active")]

  const OverrideContacts := [Contact("contact-003", "Mike Johnson", "Brother", "(555) 234-5678")]

  /** A patient object whose properties can be written in place. */
  class PatientObject {
    var id: string
    var name: string
    var birthDate: string
    var gender: string
    var address: string
    var phone: string
    var email: string

    constructor (p: Patient)
      ensures Value() == p
    {
      id, name, birthDate, gender := p.id, p.name, p.birthDate, p.gender;
      address, phone, email := p.address, p.phone, p.email;
    }

    function Value(): Patient
      reads this
    {
      Patient(id, name, birthDate, gender, address, phone, email)
    }
  }

  /** An object `{ patient, allergies, emergencyContacts }`; `patient` is a reference. */
  class MockData {
    var patient: PatientObject
    var allergies: seq<Allergy>
    var emergencyContacts: seq<Contact>

    constructor (patient: PatientObject, allergies: seq<Allergy>, emergencyContacts: seq<Contact>)
      ensures this.patient == patient && this.allergies == allergies
      ensures this.emergencyContacts == emergencyContacts
    {
      this.patient := patient;
      this.allergies := allergies;
      this.emergencyContacts := emergencyContacts;
    }

    function Value(): HealthData
      reads this, patient
    {
      HealthData(patient.Value(), allergies, emergencyContacts)
    }
  }

  class FhirService {
    /** `MOCK_DATA`, shared by every call. */
    const mock: MockData

    /**
     * What stays true of `MOCK_DATA` however often it is used: its lists
     * are the baseline ones, and its patient is the baseline one, possibly
     * with name, birth date and gender overwritten.
     */
    ghost predicate Valid()
      reads this, mock, mock.patient
    {
      && mock.allergies == BaselineAllergies
      && mock.emergencyContacts == BaselineContacts
      && (mock.patient.Value() == BaselinePatient || mock.patient.Value() == OverriddenPatient)
    }

    /** Module load: `MOCK_DATA` as written in the source. */
    constructor ()
      ensures Valid() && fresh(mock) && fresh(mock.patient)
      ensures mock.Value() == HealthData(BaselinePatient, BaselineAllergies, BaselineContacts)
    {
      var p := new PatientObject(BaselinePatient);
      mock := new MockData(p, BaselineAllergies, BaselineContacts);
    }

    /** `getPatientData(ssn)` */
    method GetPatientData(ssn: string) returns (r: MockData)
      requires Valid()
      modifies mock.patient
      ensures Valid()
      ensures fresh(r) && r.patient == mock.patient
      ensures Includes(ssn, "123") ==>
        r.Value() == HealthData(OverriddenPatient, OverrideAllergies, OverrideContacts)
      ensures !Includes(ssn, "123") ==>
        r.Value() == HealthData(old(mock.patient.Value()), BaselineAllergies, BaselineContacts)
    {
      r := new MockData(mock.patient, mock.allergies, mock.emergencyContacts);
      if Includes(ssn, "123") {
        r.patient.name := "Alice Johnson";
        r.patient.birthDate := "1990-07-22";
        r.patient.gender := "female";
        r.allergies := OverrideAllergies;
        r.emergencyContacts := OverrideContacts;
      }
    }
  }

  /** On a freshly loaded module an ssn without "123" yields the baseline profile. */
  method FreshModuleBaseline(ssn: string) returns (data: HealthData)
    requires !Includes(ssn, "123")
    ensures data == HealthData(BaselinePatient, BaselineAllergies, BaselineContacts)
  {
    var service := new FhirService();
    var r := service.GetPatientData(ssn);
    data := r.Value();
  }

  /**
   * After a "123" call, a later call without "123" still reports the
   * overwritten name, birth date and gender, while its lists are the
   * baseline ones again.
   */
  method OverrideOutlivesCall(first: string, second: string) returns (later: HealthData)
    requires Includes(first, "123") && !Includes(second, "123")
    ensures later == HealthData(OverriddenPatient, BaselineAllergies, BaselineContacts)
    ensures later.patient.name == "Alice Johnson" && later.patient.id == "patient-001"
  {
    var service := new FhirService();
    var r1 := service.GetPatientData(first);
    var r2 := service.GetPatientData(second);
    later := r2.Value();
  }

  /**
   * A result handed out earlier changes afterwards: its patient object is
   * the shared one, so a later "123" call rewrites it.
   */
  method EarlierResultRewritten(plain: string, special: string) returns (before: Patient, after: Patient)
    requires !Includes(plain, "123") && Includes(special, "123")
    ensures before == BaselinePatient
    ensures after == OverriddenPatient
  {
    var service := new FhirService();
    var r1 := service.GetPatientData(plain);
    before := r1.patient.Value();
    var r2 := service.GetPatientData(special);
    after := r1.patient.Value();
  }
}
