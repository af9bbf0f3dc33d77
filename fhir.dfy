/**
 * HL7 FHIR R4 resources as the record aggregator reads them: a tree of
 * optional nodes. Only the elements the extractors look at are present;
 * every one of them may be missing, as in the decoded JSON.
 */
module Fhir {
  import opened Wrappers

  datatype Coding = Coding(code: Option<string>, display: Option<string>)

  datatype CodeableConcept = CodeableConcept(text: Option<string>, coding: Option<seq<Coding>>)

  datatype HumanName = HumanName(given: Option<seq<string>>, family: Option<string>)

  /** `ContactPoint`; `system` is "phone", "email", ... */
  datatype ContactPoint = ContactPoint(system: Option<string>, value: Option<string>)

  datatype Address = Address(
    line: Option<seq<string>>,
    city: Option<string>,
    state: Option<string>,
    postalCode: Option<string>)

  datatype Extension = Extension(url: Option<string>, valueString: Option<string>, valueCode: Option<string>)

  datatype Reference = Reference(reference: Option<string>)

  datatype Reaction = Reaction(severity: Option<string>)

  /**
   * Any resource the store returns (Patient, Practitioner, AllergyIntolerance,
   * RelatedPerson, Observation or a searchset Bundle); the server does not
   * promise which elements are filled in, so none of them is required.
   */
  datatype Resource = Resource(
    id: Option<string>,
    name: Option<seq<HumanName>>,
    telecom: Option<seq<ContactPoint>>,
    address: Option<seq<Address>>,
    birthDate: Option<string>,
    gender: Option<string>,
    extension: Option<seq<Extension>>,
    generalPractitioner: Option<seq<Reference>>,
    code: Option<CodeableConcept>,
    reaction: Option<seq<Reaction>>,
    clinicalStatus: Option<CodeableConcept>,
    relationship: Option<seq<CodeableConcept>>,
    valueString: Option<string>,
    valueCodeableConcept: Option<CodeableConcept>,
    entry: Option<seq<BundleEntry>>)

  datatype BundleEntry = BundleEntry(resource: Option<Resource>)

  /** A resource with no elements at all: `{}`. */
  const EmptyResource := Resource(None, None, None, None, None, None, None, None,
                                   None, None, None, None, None, None, None)
}
