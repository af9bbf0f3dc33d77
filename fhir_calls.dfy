/**
 * The record aggregator: `getPatientData(patientId)` fetches a Patient, its
 * general practitioner, its AllergyIntolerance and RelatedPerson bundles
 * and, when needed, an ABO blood group Observation (LOINC 883-9), and
 * flattens them into one view. The network is a store from request path
 * (resource name plus query, without the base URL) to the decoded JSON
 * resource; a path the store does not hold is a failed request.
 */
module FhirCalls {
  import opened Wrappers
  import opened JsText
  import opened Fhir
  import opened Views

  datatype Practitioner = Practitioner(id: Option<string>, name: string, phone: string, address: string)

  /** The `patient` object of the result; `id` is passed through and may be `undefined`. */
  datatype PatientSummary = PatientSummary(
    id: Option<string>,
    name: string,
    birthDate: string,
    gender: string,
    bloodGroup: string,
    pcp: Option<Practitioner>,
    address: string,
    phone: string,
    email: string)

  datatype AggregateView = AggregateView(patient: PatientSummary, allergies: seq<Allergy>, emergencyContacts: seq<Contact>)

  /**
   * Why the returned promise rejects: a request that did not come back ok
   * (named by the resource argument, as in "Failed to fetch <resource>")
   * or a property read on `undefined`. A request that never reaches the
   * server is reported as `FetchFailed` too.
   */
  datatype Failure = FetchFailed(resource: string) | TypeError

  datatype Outcome<T> = Ok(value: T) | Err(error: Failure)

  /** The outcome of one call together with the requests it issued, in order. */
  datatype Run = Run(result: Outcome<AggregateView>, requested: seq<string>)

  type Store = map<string, Resource>

  const Unknown := "Unknown"
  const NotAvailable := "N/A"
  /** LOINC 883-9, ABO group [Type] in Blood, under the LOINC system URI. */
  const BloodGroupCode := "http://loinc.org|883-9"

  function PatientPath(patientId: string): string { "Patient/" + patientId }
  function AllergyPath(patientId: string): string { "AllergyIntolerance" + "?patient=" + patientId }
  function ContactPath(patientId: string): string { "RelatedPerson" + "?patient=" + patientId }
  function ObservationPath(patientId: string): string
  {
    "Observation" + "?patient=" + patientId + "&code=" + BloodGroupCode
  }

  /** The four fixed request paths of one call never coincide. */
  lemma FixedPathsDistinct(patientId: string)
    ensures PatientPath(patientId) != AllergyPath(patientId)
    ensures PatientPath(patientId) != ContactPath(patientId)
    ensures PatientPath(patientId) != ObservationPath(patientId)
    ensures AllergyPath(patientId) != ContactPath(patientId)
    ensures AllergyPath(patientId) != ObservationPath(patientId)
    ensures ContactPath(patientId) != ObservationPath(patientId)
  {
    assert PatientPath(patientId)[0] == 'P';
    assert AllergyPath(patientId)[0] == 'A';
    assert ContactPath(patientId)[0] == 'R';
    assert ObservationPath(patientId)[0] == 'O';
  }

  // ---------------------------------------------------------------------
  // Field extractors
  // ---------------------------------------------------------------------

  /**
   * The display name (fhircalls.js:24-26): the given names of the first
   * name joined by spaces, a space, then the family name, or "Unknown" when
   * there is no name. Missing parts print as "undefined" and nothing is
   * trimmed.
   */
  function NameText(names: Option<seq<HumanName>>): (r: string)
    ensures r != ""
  {
    if names.Some? && |names.value| > 0 then
      InterpJoin(names.value[0].given, " ") + " " + Interp(names.value[0].family)
    else
      Unknown
  }

  /**
   * The display address (fhircalls.js:28-30): the lines of the first
   * address joined by commas, then city, state and the postal code (empty
   * when absent), or the sentinel when there is no address.
   */
  function AddressText(addresses: Option<seq<Address>>, sentinel: string): (r: string)
    requires sentinel != ""
    ensures r != ""
  {
    if addresses.Some? && |addresses.value| > 0 then
      var a := addresses.value[0];
      InterpJoin(a.line, ", ") + ", " + Interp(a.city) + ", " + Interp(a.state) + " " + Or(a.postalCode, "")
    else
      sentinel
  }

  /** The telecom search's test: the entry's system is the wanted one. */
  function SystemIs(system: string): ContactPoint -> bool
  {
    (t: ContactPoint) => t.system == Some(system)
  }

  /** The value of the first telecom entry of the given system, or "N/A" when there is none or it is empty. */
  function TelecomValue(telecom: Option<seq<ContactPoint>>, system: string): (r: string)
    ensures r != ""
  {
    match telecom
    case None => NotAvailable
    case Some(ts) =>
      match FirstIndex(ts, SystemIs(system))
      case None => NotAvailable
      case Some(k) => Or(ts[k].value, NotAvailable)
  }

  /** The text of a concept, if the concept and its text are present. */
  function ConceptText(cc: Option<CodeableConcept>): Option<string>
  {
    if cc.Some? then cc.value.text else None
  }

  /** The first coding of a concept, if any. */
  function FirstCoding(cc: Option<CodeableConcept>): Option<Coding>
  {
    if cc.Some? && cc.value.coding.Some? && |cc.value.coding.value| > 0 then Some(cc.value.coding.value[0]) else None
  }

  /** The display of a concept's first coding, if any. */
  function FirstDisplay(cc: Option<CodeableConcept>): Option<string>
  {
    if FirstCoding(cc).Some? then FirstCoding(cc).value.display else None
  }

  /** The code of a concept's first coding, if any. */
  function FirstCode(cc: Option<CodeableConcept>): Option<string>
  {
    if FirstCoding(cc).Some? then FirstCoding(cc).value.code else None
  }

  /** The first element of an optional list, if any. */
  function Head<T>(xs: Option<seq<T>>): Option<T>
  {
    if xs.Some? && |xs.value| > 0 then Some(xs.value[0]) else None
  }

  /** `prefix-{i+1}`: the id given to the entry at 0-based position `i` that has none. */
  function PositionalId(prefix: string, i: nat): string
  {
    prefix + "-" + DecimalString(i + 1)
  }

  /** Two positions never receive the same positional id. */
  lemma PositionalIdInjective(prefix: string, i: nat, j: nat)
    requires PositionalId(prefix, i) == PositionalId(prefix, j)
    ensures i == j
  {
    var n := |prefix| + 1;
    assert PositionalId(prefix, i)[n..] == DecimalString(i + 1);
    assert PositionalId(prefix, j)[n..] == DecimalString(j + 1);
    DecimalStringInjective(i + 1, j + 1);
  }

  /** The substance: the code's text, else its first coding's display, else "Unknown". */
  function SubstanceOf(a: Resource): string
  {
    Or(ConceptText(a.code), Or(FirstDisplay(a.code), Unknown))
  }

  /** The severity of the first reaction, else "Unknown". */
  function SeverityOf(a: Resource): string
  {
    Or(if Head(a.reaction).Some? then Head(a.reaction).value.severity else None, Unknown)
  }

  /** The code of the clinical status's first coding, else "Unknown". */
  function StatusOf(a: Resource): string
  {
    Or(FirstCode(a.clinicalStatus), Unknown)
  }

  /** The allergy built from the AllergyIntolerance at position `i` of the bundle. */
  function AllergyOf(a: Resource, i: nat): Allergy
  {
    Allergy(Or(a.id, PositionalId("allergy", i)), SubstanceOf(a), SeverityOf(a), StatusOf(a))
  }

  /** The display of the first coding of the first relationship, else "Unknown". */
  function RelationshipOf(c: Resource): string
  {
    Or(FirstDisplay(Head(c.relationship)), Unknown)
  }

  /** The contact built from the RelatedPerson at position `i` of the bundle. */
  function ContactOf(c: Resource, i: nat): Contact
  {
    Contact(Or(c.id, PositionalId("contact", i)), NameText(c.name), RelationshipOf(c), TelecomValue(c.telecom, "phone"))
  }

  /** `bundle.entry`, with an absent list read as no entries. */
  function Entries(bundle: Resource): seq<BundleEntry>
  {
    if bundle.entry.Some? then bundle.entry.value else []
  }

  /** `entry.resource` can be read for every entry (otherwise `a.id` throws). */
  predicate AllHaveResource(es: seq<BundleEntry>)
  {
    forall k :: 0 <= k < |es| ==> es[k].resource.Some?
  }

  /** One allergy per bundle entry, in entry order; no entries give none (fhircalls.js:40-48). */
  function AllergiesOf(bundle: Resource): (r: Outcome<seq<Allergy>>)
    ensures r.Ok? <==> AllHaveResource(Entries(bundle))
    ensures r.Err? ==> r.error == TypeError
    ensures bundle.entry.None? ==> r == Ok([])
    ensures r.Ok? ==> |r.value| == |Entries(bundle)|
    ensures r.Ok? ==> forall k :: 0 <= k < |r.value| ==>
      r.value[k] == AllergyOf(Entries(bundle)[k].resource.value, k)
  {
    var es := Entries(bundle);
    if AllHaveResource(es) then
      Ok(seq(|es|, k requires 0 <= k < |es| && es[k].resource.Some? => AllergyOf(es[k].resource.value, k)))
    else
      Err(TypeError)
  }

  /** One contact per bundle entry, in entry order; no entries give none (fhircalls.js:52-61). */
  function ContactsOf(bundle: Resource): (r: Outcome<seq<Contact>>)
    ensures r.Ok? <==> AllHaveResource(Entries(bundle))
    ensures r.Err? ==> r.error == TypeError
    ensures bundle.entry.None? ==> r == Ok([])
    ensures r.Ok? ==> |r.value| == |Entries(bundle)|
    ensures r.Ok? ==> forall k :: 0 <= k < |r.value| ==>
      r.value[k] == ContactOf(Entries(bundle)[k].resource.value, k)
  {
    var es := Entries(bundle);
    if AllHaveResource(es) then
      Ok(seq(|es|, k requires 0 <= k < |es| && es[k].resource.Some? => ContactOf(es[k].resource.value, k)))
    else
      Err(TypeError)
  }

  // ---------------------------------------------------------------------
  // Blood group
  // ---------------------------------------------------------------------

  /** An extension url names the blood group: lower-cased, it contains "bloodgroup" or "blood-group". */
  predicate IsBloodGroupUrl(url: string)
  {
    Includes(ToLower(url), "bloodgroup") || Includes(ToLower(url), "blood-group")
  }

  /**
   * The url test ignores case: a url matches exactly when its lower-cased
   * form does.
   */
  lemma BloodGroupUrlIgnoresCase(url: string)
    ensures IsBloodGroupUrl(ToLower(url)) <==> IsBloodGroupUrl(url)
  {
    ToLowerIdempotent(url);
  }

  /** A url naming the blood group in any mix of cases matches. */
  lemma MixedCaseBloodGroupUrl(url: string, name: string)
    requires ToLower(name) == "bloodgroup" || ToLower(name) == "blood-group"
    requires Includes(url, name)
    ensures IsBloodGroupUrl(url)
  {
    IncludesToLower(url, name);
  }

  /**
   * Where the scan of the Patient's extensions stops: at an extension without a
   * `url` (its callback throws) or at the first blood-group extension.
   */
  predicate StopsExtensionScan(e: Extension)
  {
    e.url.None? || IsBloodGroupUrl(e.url.value)
  }

  /** Phase A: the value of the first blood-group extension of the Patient. */
  function ExtensionBloodGroup(patient: Resource): Outcome<string>
  {
    match patient.extension
    case None => Ok(Unknown)
    case Some(es) =>
      match FirstIndex(es, StopsExtensionScan)
      case None => Ok(Unknown)
      case Some(k) =>
        if es[k].url.None? then Err(TypeError)
        else Ok(Or(es[k].valueString, Or(es[k].valueCode, Unknown)))
  }

  /** The resource of the first entry of the observation bundle, if any. */
  function FirstObservation(bundle: Resource): Option<Resource>
  {
    if bundle.entry.Some? && |bundle.entry.value| > 0 then bundle.entry.value[0].resource else None
  }

  /**
   * Phase B: the first observation's string value, else the text of its
   * coded value, else the blood group stays `current`.
   */
  function ObservationBloodGroup(bundle: Resource, current: string): string
  {
    match FirstObservation(bundle)
    case None => current
    case Some(obs) =>
      if obs.valueString.Some? && obs.valueString.value != "" then obs.valueString.value
      else if ConceptText(obs.valueCodeableConcept).Some? && ConceptText(obs.valueCodeableConcept).value != "" then
        ConceptText(obs.valueCodeableConcept).value
      else current
  }

  // ---------------------------------------------------------------------
  // Practitioner and patient
  // ---------------------------------------------------------------------

  /** The request path `generalPractitioner[0].reference`, when there is a first entry. */
  function PractitionerPath(patient: Resource): Option<string>
  {
    if Head(patient.generalPractitioner).Some? then Some(Interp(Head(patient.generalPractitioner).value.reference)) else None
  }

  function PractitionerOf(p: Resource): Practitioner
  {
    Practitioner(p.id, NameText(p.name), TelecomValue(p.telecom, "phone"), AddressText(p.address, NotAvailable))
  }

  function PatientOf(p: Resource, bloodGroup: string, pcp: Option<Practitioner>): PatientSummary
  {
    PatientSummary(
      p.id,
      NameText(p.name),
      Or(p.birthDate, Unknown),
      Or(p.gender, Unknown),
      bloodGroup,
      pcp,
      AddressText(p.address, Unknown),
      TelecomValue(p.telecom, "phone"),
      TelecomValue(p.telecom, "email"))
  }

  // ---------------------------------------------------------------------
  // Orchestration
  // ---------------------------------------------------------------------

  /**
   * What one call of `getPatientData` evaluates to, step by step: the
   * patient, allergy and contact requests and the two property reads that
   * can throw end the call with an error; the practitioner and observation
   * requests only degrade one field.
   */
  function Aggregate(store: Store, patientId: string): Run
  {
    var patientPath := PatientPath(patientId);
    if patientPath !in store then Run(Err(FetchFailed(patientPath)), [patientPath])
    else
      var patient := store[patientPath];
      var pcpRequests := if PractitionerPath(patient).Some? then [PractitionerPath(patient).value] else [];
      var pcp := if PractitionerPath(patient).Some? && PractitionerPath(patient).value in store
                 then Some(PractitionerOf(store[PractitionerPath(patient).value])) else None;
      var upToAllergies := [patientPath] + pcpRequests + [AllergyPath(patientId)];
      if AllergyPath(patientId) !in store then Run(Err(FetchFailed("AllergyIntolerance")), upToAllergies)
      else match AllergiesOf(store[AllergyPath(patientId)])
      case Err(e) => Run(Err(e), upToAllergies)
      case Ok(allergies) =>
        var upToContacts := upToAllergies + [ContactPath(patientId)];
        if ContactPath(patientId) !in store then Run(Err(FetchFailed("RelatedPerson")), upToContacts)
        else match ContactsOf(store[ContactPath(patientId)])
        case Err(e) => Run(Err(e), upToContacts)
        case Ok(contacts) =>
          match ExtensionBloodGroup(patient)
          case Err(e) => Run(Err(e), upToContacts)
          case Ok(fromExtension) =>
            var queried := fromExtension == Unknown;
            var bloodGroup := if queried && ObservationPath(patientId) in store
                              then ObservationBloodGroup(store[ObservationPath(patientId)], fromExtension)
                              else fromExtension;
            Run(Ok(AggregateView(PatientOf(patient, bloodGroup, pcp), allergies, contacts)),
                upToContacts + (if queried then [ObservationPath(patientId)] else []))
  }

  /**
   * `getPatientData(patientId)`, with the awaited requests as sequential
   * store lookups; `requested` lists the paths in the order they are
   * issued.
   */
  method GetPatientData(store: Store, patientId: string) returns (result: Outcome<AggregateView>, requested: seq<string>)
    ensures Run(result, requested) == Aggregate(store, patientId)
  {
    // 1. Patient
    var patientPath := PatientPath(patientId);
    requested := [patientPath];
    if patientPath !in store {
      return Err(FetchFailed(patientPath)), requested;
    }
    var patient := store[patientPath];

    // 2. Practitioner: a failed request leaves pcp null
    var pcp: Option<Practitioner> := None;
    if Head(patient.generalPractitioner).Some? {
      var pcpRef := Interp(Head(patient.generalPractitioner).value.reference);
      requested := requested + [pcpRef];
      if pcpRef in store {
        pcp := Some(PractitionerOf(store[pcpRef]));
      } else {
        pcp := None;
      }
    }

    // 3. Allergies
    requested := requested + [AllergyPath(patientId)];
    if AllergyPath(patientId) !in store {
      return Err(FetchFailed("AllergyIntolerance")), requested;
    }
    var allergies := AllergiesOf(store[AllergyPath(patientId)]);
    if allergies.Err? {
      return Err(allergies.error), requested;
    }

    // 4. Emergency contacts
    requested := requested + [ContactPath(patientId)];
    if ContactPath(patientId) !in store {
      return Err(FetchFailed("RelatedPerson")), requested;
    }
    var contacts := ContactsOf(store[ContactPath(patientId)]);
    if contacts.Err? {
      return Err(contacts.error), requested;
    }

    // 5. Blood group, option A then option B
    var bloodGroup := Unknown;
    var fromExtension := ExtensionBloodGroup(patient);
    if fromExtension.Err? {
      return Err(fromExtension.error), requested;
    }
    bloodGroup := fromExtension.value;
    if bloodGroup == Unknown {
      requested := requested + [ObservationPath(patientId)];
      if ObservationPath(patientId) in store {
        bloodGroup := ObservationBloodGroup(store[ObservationPath(patientId)], bloodGroup);
      }
    }

    // 6. Result
    result := Ok(AggregateView(PatientOf(patient, bloodGroup, pcp), allergies.value, contacts.value));
  }

  // ---------------------------------------------------------------------
  // Properties of the extractors
  // ---------------------------------------------------------------------

  /**
   * Each allergy field falls back independently, an empty string counting
   * as absent, and no field of the result is ever empty.
   */
  lemma AllergyFallbacks(a: Resource, i: nat)
    ensures AllergyOf(a, i).id ==
      if a.id.Some? && a.id.value != "" then a.id.value else PositionalId("allergy", i)
    ensures AllergyOf(a, i).substance ==
      if ConceptText(a.code).Some? && ConceptText(a.code).value != "" then ConceptText(a.code).value
      else if FirstDisplay(a.code).Some? && FirstDisplay(a.code).value != "" then FirstDisplay(a.code).value
      else "Unknown"
    ensures AllergyOf(a, i).severity ==
      if a.reaction.Some? && |a.reaction.value| > 0 && a.reaction.value[0].severity.Some?
         && a.reaction.value[0].severity.value != ""
      then a.reaction.value[0].severity.value else "Unknown"
    ensures AllergyOf(a, i).status ==
      if FirstCode(a.clinicalStatus).Some? && FirstCode(a.clinicalStatus).value != "" then FirstCode(a.clinicalStatus).value
      else "Unknown"
    ensures AllergyOf(a, i).id != "" && AllergyOf(a, i).substance != ""
    ensures AllergyOf(a, i).severity != "" && AllergyOf(a, i).status != ""
  {
  }

  /** Within one bundle, entries without an id of their own get pairwise different ids. */
  lemma SynthesizedAllergyIdsDistinct(bundle: Resource, i: nat, j: nat)
    requires AllergiesOf(bundle).Ok?
    requires i < j < |Entries(bundle)|
    requires Or(Entries(bundle)[i].resource.value.id, "") == ""
    requires Or(Entries(bundle)[j].resource.value.id, "") == ""
    ensures AllergiesOf(bundle).value[i].id != AllergiesOf(bundle).value[j].id
  {
    var allergies := AllergiesOf(bundle).value;
    assert allergies[i].id == PositionalId("allergy", i);
    assert allergies[j].id == PositionalId("allergy", j);
    if allergies[i].id == allergies[j].id {
      PositionalIdInjective("allergy", i, j);
    }
  }

  /** Within one bundle, entries without an id of their own get pairwise different ids. */
  lemma SynthesizedContactIdsDistinct(bundle: Resource, i: nat, j: nat)
    requires ContactsOf(bundle).Ok?
    requires i < j < |Entries(bundle)|
    requires Or(Entries(bundle)[i].resource.value.id, "") == ""
    requires Or(Entries(bundle)[j].resource.value.id, "") == ""
    ensures ContactsOf(bundle).value[i].id != ContactsOf(bundle).value[j].id
  {
    var contacts := ContactsOf(bundle).value;
    assert contacts[i].id == PositionalId("contact", i);
    assert contacts[j].id == PositionalId("contact", j);
    if contacts[i].id == contacts[j].id {
      PositionalIdInjective("contact", i, j);
    }
  }

  /**
   * The first name entry alone decides the name: its given parts joined by
   * single spaces, one space, the family name; a missing part prints as
   * "undefined" and later entries are never read.
   */
  lemma NameFromFirstEntry(n: HumanName, rest: seq<HumanName>, given: seq<string>, family: string)
    ensures NameText(Some([n] + rest)) == NameText(Some([n]))
    ensures n.given == Some(given) && n.family == Some(family) ==>
      NameText(Some([n] + rest)) == Join(given, " ") + " " + family
    ensures n.given.None? && n.family.None? ==> NameText(Some([n] + rest)) == "undefined undefined"
    ensures NameText(None) == "Unknown" && NameText(Some([])) == "Unknown"
  {
  }

  /**
   * The first address alone decides the text: the lines joined by ", ",
   * then ", city, state ", then the postal code or nothing.
   */
  lemma AddressFromFirstEntry(a: Address, rest: seq<Address>, sentinel: string,
                              lines: seq<string>, city: string, state: string)
    requires sentinel != ""
    ensures AddressText(Some([a] + rest), sentinel) == AddressText(Some([a]), sentinel)
    ensures a.line == Some(lines) && a.city == Some(city) && a.state == Some(state) ==>
      AddressText(Some([a] + rest), sentinel)
        == Join(lines, ", ") + ", " + city + ", " + state + " " + Or(a.postalCode, "")
    ensures AddressText(None, sentinel) == sentinel && AddressText(Some([]), sentinel) == sentinel
  {
  }

  /** Without an address the patient reads "Unknown" and the practitioner "N/A". */
  lemma AddressSentinels(r: Resource, bloodGroup: string, pcp: Option<Practitioner>)
    requires r.address.None?
    ensures PatientOf(r, bloodGroup, pcp).address == "Unknown"
    ensures PractitionerOf(r).address == "N/A"
  {
  }

  /**
   * Only the first contact point with the wanted system is read: its value
   * when non-empty, "N/A" otherwise, whatever follows it.
   */
  lemma TelecomFirstMatchWins(ts: seq<ContactPoint>, system: string, k: nat, more: seq<ContactPoint>)
    requires k < |ts| && ts[k].system == Some(system)
    requires forall j :: 0 <= j < k ==> ts[j].system != Some(system)
    ensures TelecomValue(Some(ts), system) == Or(ts[k].value, "N/A")
    ensures TelecomValue(Some(ts + more), system) == TelecomValue(Some(ts), system)
  {
    FirstIndexIs(ts, SystemIs(system), k);
    assert forall j :: 0 <= j < k ==> (ts + more)[j] == ts[j];
    FirstIndexIs(ts + more, SystemIs(system), k);
  }

  /** Phase A: the first extension whose lower-cased url names a blood group supplies the value. */
  lemma ExtensionFirstMatchWins(patient: Resource, k: nat)
    requires patient.extension.Some? && k < |patient.extension.value|
    requires var e := patient.extension.value[k]; e.url.Some? && IsBloodGroupUrl(e.url.value)
    requires forall j :: 0 <= j < k ==>
      patient.extension.value[j].url.Some? && !IsBloodGroupUrl(patient.extension.value[j].url.value)
    ensures var e := patient.extension.value[k];
      ExtensionBloodGroup(patient) == Ok(Or(e.valueString, Or(e.valueCode, "Unknown")))
  {
    FirstIndexIs(patient.extension.value, StopsExtensionScan, k);
  }

  /** An extension without a url that is reached by the scan makes the callback throw. */
  lemma ExtensionWithoutUrlThrows(patient: Resource, k: nat)
    requires patient.extension.Some? && k < |patient.extension.value|
    requires patient.extension.value[k].url.None?
    requires forall j :: 0 <= j < k ==>
      patient.extension.value[j].url.Some? && !IsBloodGroupUrl(patient.extension.value[j].url.value)
    ensures ExtensionBloodGroup(patient) == Err(TypeError)
  {
    FirstIndexIs(patient.extension.value, StopsExtensionScan, k);
  }

  // ---------------------------------------------------------------------
  // Properties of one call
  // ---------------------------------------------------------------------

  /** A failed Patient request fails the call and nothing else is requested. */
  lemma PatientFailureIsFatal(store: Store, patientId: string)
    requires PatientPath(patientId) !in store
    ensures Aggregate(store, patientId) == Run(Err(FetchFailed("Patient/" + patientId)), ["Patient/" + patientId])
  {
  }

  /**
   * The call fails exactly when the Patient, allergy or contact request
   * fails, a bundle entry has no resource, or the extension scan meets an
   * extension without url; practitioner and observation requests never
   * fail it.
   */
  lemma AggregateFailsIff(store: Store, patientId: string)
    ensures Aggregate(store, patientId).result.Err? <==>
      || PatientPath(patientId) !in store
      || AllergyPath(patientId) !in store
      || !AllHaveResource(Entries(store[AllergyPath(patientId)]))
      || ContactPath(patientId) !in store
      || !AllHaveResource(Entries(store[ContactPath(patientId)]))
      || ExtensionBloodGroup(store[PatientPath(patientId)]).Err?
  {
  }

  /**
   * A successful call returns one allergy and one contact per bundle entry,
   * in entry order; `pcp` is null exactly when there is no first
   * `generalPractitioner` or its request fails.
   */
  lemma AggregateShape(store: Store, patientId: string)
    requires Aggregate(store, patientId).result.Ok?
    ensures var v := Aggregate(store, patientId).result.value;
      && Ok(v.allergies) == AllergiesOf(store[AllergyPath(patientId)])
      && Ok(v.emergencyContacts) == ContactsOf(store[ContactPath(patientId)])
      && |v.allergies| == |Entries(store[AllergyPath(patientId)])|
      && |v.emergencyContacts| == |Entries(store[ContactPath(patientId)])|
    ensures var patient := store[PatientPath(patientId)];
      var pcp := Aggregate(store, patientId).result.value.patient.pcp;
      && (pcp.None? <==> PractitionerPath(patient).None? || PractitionerPath(patient).value !in store)
      && (pcp.Some? ==> pcp.value == PractitionerOf(store[PractitionerPath(patient).value]))
  {
  }

  /**
   * The requests of a successful call, in order: Patient, the practitioner
   * when referenced, allergies, contacts, and the observation query only
   * when phase A left "Unknown".
   */
  lemma RequestOrder(store: Store, patientId: string)
    requires Aggregate(store, patientId).result.Ok?
    ensures var patient := store[PatientPath(patientId)];
      Aggregate(store, patientId).requested ==
        [PatientPath(patientId)]
        + (if PractitionerPath(patient).Some? then [PractitionerPath(patient).value] else [])
        + [AllergyPath(patientId), ContactPath(patientId)]
        + (if ExtensionBloodGroup(patient) == Ok("Unknown") then [ObservationPath(patientId)] else [])
  {
  }

  /**
   * Blood group: phase A's value when it is not "Unknown"; otherwise the
   * observation's value, and "Unknown" when the observation request fails.
   */
  lemma BloodGroupPhases(store: Store, patientId: string)
    requires Aggregate(store, patientId).result.Ok?
    ensures var fromExtension := ExtensionBloodGroup(store[PatientPath(patientId)]).value;
      var bloodGroup := Aggregate(store, patientId).result.value.patient.bloodGroup;
      && (fromExtension != "Unknown" ==> bloodGroup == fromExtension)
      && (fromExtension == "Unknown" && ObservationPath(patientId) !in store ==> bloodGroup == "Unknown")
      && (fromExtension == "Unknown" && ObservationPath(patientId) in store ==>
            bloodGroup == ObservationBloodGroup(store[ObservationPath(patientId)], "Unknown"))
  {
  }

  /**
   * A blood group found in an extension is not overridden: whatever the
   * store holds for the observation query, the call is the same.
   */
  lemma ExtensionTakesPrecedence(store: Store, patientId: string, obs: Resource)
    requires PatientPath(patientId) in store
    requires ExtensionBloodGroup(store[PatientPath(patientId)]).Ok?
    requires ExtensionBloodGroup(store[PatientPath(patientId)]).value != "Unknown"
    requires PractitionerPath(store[PatientPath(patientId)]) != Some(ObservationPath(patientId))
    ensures Aggregate(store[ObservationPath(patientId) := obs], patientId) == Aggregate(store, patientId)
    ensures Aggregate(store - {ObservationPath(patientId)}, patientId) == Aggregate(store, patientId)
    ensures ObservationPath(patientId) !in Aggregate(store, patientId).requested
  {
    FixedPathsDistinct(patientId);
    var o := ObservationPath(patientId);
    SameOffObservation(store, store[o := obs], patientId);
    SameOffObservation(store, store - {o}, patientId);
  }

  /** Two stores that agree on every path but the observation query give the same call. */
  lemma SameOffObservation(store: Store, other: Store, patientId: string)
    requires PatientPath(patientId) in store
    requires ExtensionBloodGroup(store[PatientPath(patientId)]).Ok?
    requires ExtensionBloodGroup(store[PatientPath(patientId)]).value != "Unknown"
    requires PractitionerPath(store[PatientPath(patientId)]) != Some(ObservationPath(patientId))
    requires forall path :: path != ObservationPath(patientId) ==>
      (path in other <==> path in store) && (path in store ==> other[path] == store[path])
    ensures Aggregate(other, patientId) == Aggregate(store, patientId)
  {
    FixedPathsDistinct(patientId);
    assert PatientPath(patientId) in other && other[PatientPath(patientId)] == store[PatientPath(patientId)];
  }

  /**
   * A failed practitioner request only nulls `pcp`: the requests, the
   * outcome and every other field are as if the request had succeeded.
   */
  lemma PractitionerFailureIsolated(store: Store, patientId: string)
    requires PatientPath(patientId) in store
    requires PractitionerPath(store[PatientPath(patientId)]).Some?
    requires PractitionerPath(store[PatientPath(patientId)]).value !in
      {PatientPath(patientId), AllergyPath(patientId), ContactPath(patientId), ObservationPath(patientId)}
    ensures var before := Aggregate(store, patientId);
      var after := Aggregate(store - {PractitionerPath(store[PatientPath(patientId)]).value}, patientId);
      && after.requested == before.requested
      && after.result.Ok? == before.result.Ok?
      && (before.result.Err? ==> after.result == before.result)
      && (before.result.Ok? ==>
            after.result.value == before.result.value.(patient := before.result.value.patient.(pcp := None)))
  {
    var ref := PractitionerPath(store[PatientPath(patientId)]).value;
    var s := store - {ref};
    assert PatientPath(patientId) in s && s[PatientPath(patientId)] == store[PatientPath(patientId)];
    assert forall path :: path != ref ==> (path in s <==> path in store);
    assert forall path :: path != ref && path in store ==> s[path] == store[path];
  }

  /** Every string of a successful result is filled in: absence always becomes a sentinel. */
  predicate FieldsFilled(v: AggregateView)
  {
    && v.patient.name != "" && v.patient.birthDate != "" && v.patient.gender != ""
    && v.patient.bloodGroup != "" && v.patient.address != "" && v.patient.phone != "" && v.patient.email != ""
    && (v.patient.pcp.Some? ==>
          v.patient.pcp.value.name != "" && v.patient.pcp.value.phone != "" && v.patient.pcp.value.address != "")
    && (forall k :: 0 <= k < |v.allergies| ==>
          v.allergies[k].id != "" && v.allergies[k].substance != ""
          && v.allergies[k].severity != "" && v.allergies[k].status != "")
    && (forall k :: 0 <= k < |v.emergencyContacts| ==>
          v.emergencyContacts[k].id != "" && v.emergencyContacts[k].name != ""
          && v.emergencyContacts[k].relationship != "" && v.emergencyContacts[k].phone != "")
  }

  /** No string field of a successful result is ever empty. */
  lemma AggregateFieldsFilled(store: Store, patientId: string)
    requires Aggregate(store, patientId).result.Ok?
    ensures FieldsFilled(Aggregate(store, patientId).result.value)
  {
  }
}
