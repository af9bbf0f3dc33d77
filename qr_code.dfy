/**
 * The text encoded into the QR code: `formatDataToString(data)` writes a
 * fixed-order document from the selected data (patient block, allergies,
 * emergency contacts) and trims it.
 */
module QrCode {
  import opened Wrappers
  import opened JsText
  import opened Views
  import Dashboard

  /** `Object.keys(data).length > 0` */
  predicate HasData(data: SelectedData)
  {
    KeyCount(data) > 0
  }

  // The reference document: each section stated once, items joined by a blank line.

  /** The six labelled patient lines, in order; id and nothing else is left out. */
  function PatientLines(p: Patient): (r: seq<string>)
    ensures |r| == 6
  {
    ["Name: " + p.name, "Birth Date: " + p.birthDate, "Gender: " + p.gender,
     "Address: " + p.address, "Phone: " + p.phone, "Email: " + p.email]
  }

  function PatientSection(p: Option<Patient>): string
  {
    match p
    case None => ""
    case Some(p) => "PATIENT INFO\n" + Join(PatientLines(p), "\n") + "\n\n"
  }

  function AllergyBlock(a: Allergy): string
  {
    ("Substance: " + a.substance + "\n") + ("Severity: " + a.severity + "\n") + ("Status: " + a.status + "\n")
  }

  function AllergyBlocks(allergies: seq<Allergy>): (r: seq<string>)
    ensures |r| == |allergies|
  {
    seq(|allergies|, i requires 0 <= i < |allergies| => AllergyBlock(allergies[i]))
  }

  function AllergySection(allergies: Option<seq<Allergy>>): string
  {
    if allergies.Some? && |allergies.value| > 0 then
      "ALLERGIES\n" + Join(AllergyBlocks(allergies.value), "\n") + "\n"
    else ""
  }

  function ContactBlock(c: Contact): string
  {
    ("Name: " + c.name + "\n") + ("Relationship: " + c.relationship + "\n") + ("Phone: " + c.phone + "\n")
  }

  function ContactBlocks(contacts: seq<Contact>): (r: seq<string>)
    ensures |r| == |contacts|
  {
    seq(|contacts|, i requires 0 <= i < |contacts| => ContactBlock(contacts[i]))
  }

  function ContactSection(contacts: Option<seq<Contact>>): string
  {
    if contacts.Some? && |contacts.value| > 0 then
      "EMERGENCY CONTACTS\n" + Join(ContactBlocks(contacts.value), "\n")
    else ""
  }

  /** The untrimmed document: patient, then allergies, then contacts. */
  function Document(data: SelectedData): string
  {
    PatientSection(data.patient) + AllergySection(data.allergies) + ContactSection(data.emergencyContacts)
  }

  // The accumulating loops of `formatDataToString`.

  /**
   * After `i` of the blocks `bs` the text is `head`, the first `i` blocks
   * joined by newlines, and the separator the `index < length - 1` test
   * has already written.
   */
  predicate JoinedSoFar(head: string, bs: seq<string>, i: nat, result: string)
    requires i <= |bs|
  {
    result == head + Join(bs[..i], "\n") + (if 0 < i < |bs| then "\n" else "")
  }

  lemma JoinedSoFarStep(head: string, bs: seq<string>, i: nat, result: string)
    requires i < |bs| && JoinedSoFar(head, bs, i, result)
    ensures JoinedSoFar(head, bs, i + 1, result + bs[i] + (if i < |bs| - 1 then "\n" else ""))
  {
    if i > 0 {
      assert bs[..i + 1] == bs[..i] + [bs[i]];
      JoinSnoc(bs[..i], bs[i], "\n");
    } else {
      assert bs[..1] == [bs[0]];
    }
  }

  /** Three appends in a row add their concatenation. */
  lemma AppendThree(was: string, a: string, b: string, c: string)
    ensures was + a + b + c == was + (a + b + c)
  {
  }

  lemma PatientLinesAppended(head: string, l: seq<string>)
    requires |l| == 6
    ensures head + (l[0] + "\n") + (l[1] + "\n") + (l[2] + "\n") + (l[3] + "\n") + (l[4] + "\n") + (l[5] + "\n\n")
            == head + Join(l, "\n") + "\n\n"
  {
    assert Join(l[5..], "\n") == l[5];
    assert Join(l[4..], "\n") == l[4] + "\n" + l[5] by { assert l[4..][1..] == l[5..]; }
    assert Join(l[3..], "\n") == l[3] + "\n" + Join(l[4..], "\n") by { assert l[3..][1..] == l[4..]; }
    assert Join(l[2..], "\n") == l[2] + "\n" + Join(l[3..], "\n") by { assert l[2..][1..] == l[3..]; }
    assert Join(l[1..], "\n") == l[1] + "\n" + Join(l[2..], "\n") by { assert l[1..][1..] == l[2..]; }
  }

  /** The patient block of `formatDataToString`. */
  method WritePatient(p: Patient) returns (result: string)
    ensures result == PatientSection(Some(p))
  {
    result := "PATIENT INFO\n";
    result := result + ("Name: " + p.name + "\n");
    result := result + ("Birth Date: " + p.birthDate + "\n");
    result := result + ("Gender: " + p.gender + "\n");
    result := result + ("Address: " + p.address + "\n");
    result := result + ("Phone: " + p.phone + "\n");
    result := result + ("Email: " + p.email + "\n\n");
    PatientLinesAppended("PATIENT INFO\n", PatientLines(p));
  }

  /** The three lines the allergies callback writes for one allergy. */
  method AppendAllergy(prefix: string, a: Allergy) returns (result: string)
    ensures result == prefix + AllergyBlock(a)
  {
    result := prefix + ("Substance: " + a.substance + "\n");
    result := result + ("Severity: " + a.severity + "\n");
    result := result + ("Status: " + a.status + "\n");
    AppendThree(prefix, "Substance: " + a.substance + "\n", "Severity: " + a.severity + "\n", "Status: " + a.status + "\n");
  }

  /** The three lines the contacts callback writes for one contact. */
  method AppendContact(prefix: string, c: Contact) returns (result: string)
    ensures result == prefix + ContactBlock(c)
  {
    result := prefix + ("Name: " + c.name + "\n");
    result := result + ("Relationship: " + c.relationship + "\n");
    result := result + ("Phone: " + c.phone + "\n");
    AppendThree(prefix, "Name: " + c.name + "\n", "Relationship: " + c.relationship + "\n", "Phone: " + c.phone + "\n");
  }

  /** The allergies `forEach` of `formatDataToString`, appending to `prefix`. */
  method WriteAllergies(prefix: string, allergies: seq<Allergy>) returns (result: string)
    requires |allergies| > 0
    ensures result == prefix + AllergySection(Some(allergies))
  {
    ghost var head := prefix + "ALLERGIES\n";
    ghost var bs := AllergyBlocks(allergies);
    result := prefix + "ALLERGIES\n";
    var i := 0;
    while i < |allergies|
      invariant 0 <= i <= |allergies|
      invariant JoinedSoFar(head, bs, i, result)
    {
      JoinedSoFarStep(head, bs, i, result);
      result := AppendAllergy(result, allergies[i]);
      if i < |allergies| - 1 {
        result := result + "\n";
      }
      i := i + 1;
    }
    assert bs[..i] == bs;
    assert result == head + Join(bs, "\n");
    result := result + "\n";
    assert result == prefix + ("ALLERGIES\n" + Join(bs, "\n") + "\n");
  }

  /** The emergency contacts `forEach` of `formatDataToString`, appending to `prefix`. */
  method WriteContacts(prefix: string, contacts: seq<Contact>) returns (result: string)
    requires |contacts| > 0
    ensures result == prefix + ContactSection(Some(contacts))
  {
    ghost var head := prefix + "EMERGENCY CONTACTS\n";
    ghost var bs := ContactBlocks(contacts);
    result := prefix + "EMERGENCY CONTACTS\n";
    var i := 0;
    while i < |contacts|
      invariant 0 <= i <= |contacts|
      invariant JoinedSoFar(head, bs, i, result)
    {
      JoinedSoFarStep(head, bs, i, result);
      result := AppendContact(result, contacts[i]);
      if i < |contacts| - 1 {
        result := result + "\n";
      }
      i := i + 1;
    }
    assert bs[..i] == bs;
    assert result == prefix + ("EMERGENCY CONTACTS\n" + Join(bs, "\n"));
  }

  /**
   * `formatDataToString(data)`: the patient block, the allergies and the
   * emergency contacts accumulated in this order, then trimmed.
   */
  method FormatDataToString(data: SelectedData) returns (s: string)
    ensures s == Trim(Document(data))
  {
    var result := "";
    if data.patient.Some? {
      result := WritePatient(data.patient.value);
    }
    assert result == PatientSection(data.patient);
    if data.allergies.Some? && |data.allergies.value| > 0 {
      result := WriteAllergies(result, data.allergies.value);
    }
    assert result == PatientSection(data.patient) + AllergySection(data.allergies);
    if data.emergencyContacts.Some? && |data.emergencyContacts.value| > 0 {
      result := WriteContacts(result, data.emergencyContacts.value);
    }
    assert result == Document(data);
    s := Trim(result);
  }

  // Properties of the document.

  /** At least one section has something to print. */
  predicate WritesSomething(data: SelectedData)
  {
    || data.patient.Some?
    || (data.allergies.Some? && |data.allergies.value| > 0)
    || (data.emergencyContacts.Some? && |data.emergencyContacts.value| > 0)
  }

  /**
   * The encoded text is empty exactly when no section is written: every
   * section begins with its header letter, which trimming keeps.
   */
  lemma FormattedEmptyIff(data: SelectedData)
    ensures Trim(Document(data)) == "" <==> !WritesSomething(data)
  {
    var d := Document(data);
    if data.patient.Some? {
      assert d[0] == 'P';
      TrimKeepsFirst(d);
    } else if data.allergies.Some? && |data.allergies.value| > 0 {
      assert d[0] == 'A';
      TrimKeepsFirst(d);
    } else if data.emergencyContacts.Some? && |data.emergencyContacts.value| > 0 {
      assert d[0] == 'E';
      TrimKeepsFirst(d);
    } else {
      assert d == "";
    }
  }

  /**
   * A list present but empty still counts as a key: the "no data" state is
   * skipped while the encoded text is empty.
   */
  lemma EmptyListsGiveBlankCode(data: SelectedData)
    requires data.patient.None?
    requires data.allergies == Some([]) || data.emergencyContacts == Some([])
    requires data.allergies.None? || data.allergies == Some([])
    requires data.emergencyContacts.None? || data.emergencyContacts == Some([])
    ensures HasData(data) && Trim(Document(data)) == ""
  {
    assert !WritesSomething(data);
    FormattedEmptyIff(data);
    assert data.allergies.Some? || data.emergencyContacts.Some?;
  }

  /**
   * On the dashboard's projection the two tests agree: there is text to
   * encode exactly when some key is present, because a selected list is
   * never empty.
   */
  lemma SelectedTextIff(healthData: Option<HealthData>, selected: set<string>)
    ensures var d := Dashboard.GetSelectedData(healthData, selected);
      Trim(Document(d)) == "" <==> !HasData(d)
  {
    var d := Dashboard.GetSelectedData(healthData, selected);
    if healthData.Some? {
      Dashboard.SelectedListsExact(healthData.value, selected);
    }
    FormattedEmptyIff(d);
  }

  /** The patient's id is never written. */
  lemma FormatIgnoresPatientId(data: SelectedData, id: string)
    requires data.patient.Some?
    ensures Document(data.(patient := Some(data.patient.value.(id := id)))) == Document(data)
  {
  }

  /**
   * Cutting the blocks at `k` cuts the join at one newline, between the
   * text ending with block `k - 1` and the text starting with block `k`.
   */
  lemma BlocksCut(bs: seq<string>, k: nat)
    requires 0 < k < |bs|
    ensures Join(bs, "\n") == Join(bs[..k], "\n") + "\n" + Join(bs[k..], "\n")
    ensures IsSuffix(bs[k - 1], Join(bs[..k], "\n")) && IsPrefix(bs[k], Join(bs[k..], "\n"))
  {
    JoinSplit(bs, "\n", k);
    JoinEnds(bs[..k], "\n");
    JoinEnds(bs[k..], "\n");
  }

  lemma AllergyBlockEnds(a: Allergy)
    ensures IsPrefix("Substance: " + a.substance + "\n", AllergyBlock(a))
    ensures IsSuffix("Status: " + a.status + "\n", AllergyBlock(a))
  {
    var first := "Substance: " + a.substance + "\n";
    var second := "Severity: " + a.severity + "\n";
    AffixesOfConcat(first, second);
    AffixesOfConcat(first + second, "Status: " + a.status + "\n");
    PrefixTrans(first, first + second, AllergyBlock(a));
  }

  lemma ContactBlockEnds(c: Contact)
    ensures IsPrefix("Name: " + c.name + "\n", ContactBlock(c))
    ensures IsSuffix("Phone: " + c.phone + "\n", ContactBlock(c))
  {
    var first := "Name: " + c.name + "\n";
    var second := "Relationship: " + c.relationship + "\n";
    AffixesOfConcat(first, second);
    AffixesOfConcat(first + second, "Phone: " + c.phone + "\n");
    PrefixTrans(first, first + second, ContactBlock(c));
  }

  /**
   * Consecutive allergies are separated by one blank line: the item before
   * the cut ends with its status line, the separator adds a newline, and
   * the next item starts with its substance line.
   */
  lemma AllergiesSeparated(allergies: seq<Allergy>, k: nat)
    requires 0 < k < |allergies|
    ensures var bs := AllergyBlocks(allergies);
      && AllergySection(Some(allergies))
         == "ALLERGIES\n" + (Join(bs[..k], "\n") + "\n" + Join(bs[k..], "\n")) + "\n"
      && IsSuffix("Status: " + allergies[k - 1].status + "\n", Join(bs[..k], "\n"))
      && IsPrefix("Substance: " + allergies[k].substance + "\n", Join(bs[k..], "\n"))
  {
    var bs := AllergyBlocks(allergies);
    BlocksCut(bs, k);
    AllergyBlockEnds(allergies[k - 1]);
    AllergyBlockEnds(allergies[k]);
    SuffixTrans("Status: " + allergies[k - 1].status + "\n", bs[k - 1], Join(bs[..k], "\n"));
    PrefixTrans("Substance: " + allergies[k].substance + "\n", bs[k], Join(bs[k..], "\n"));
  }

  /** Consecutive emergency contacts are separated by one blank line. */
  lemma ContactsSeparated(contacts: seq<Contact>, k: nat)
    requires 0 < k < |contacts|
    ensures var bs := ContactBlocks(contacts);
      && ContactSection(Some(contacts))
         == "EMERGENCY CONTACTS\n" + (Join(bs[..k], "\n") + "\n" + Join(bs[k..], "\n"))
      && IsSuffix("Phone: " + contacts[k - 1].phone + "\n", Join(bs[..k], "\n"))
      && IsPrefix("Name: " + contacts[k].name + "\n", Join(bs[k..], "\n"))
  {
    var bs := ContactBlocks(contacts);
    BlocksCut(bs, k);
    ContactBlockEnds(contacts[k - 1]);
    ContactBlockEnds(contacts[k]);
    SuffixTrans("Phone: " + contacts[k - 1].phone + "\n", bs[k - 1], Join(bs[..k], "\n"));
    PrefixTrans("Name: " + contacts[k].name + "\n", bs[k], Join(bs[k..], "\n"));
  }
}
