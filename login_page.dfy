/**
 * The identifier rules of the login form: `formatSSN`, applied to every
 * change of the input, `validateSSN`, and the validation gate in front of
 * `login` in `handleSubmit`.
 */
module LoginPage {
  import opened Wrappers

  /** A character that `\D` does not match: an ASCII decimal digit. */
  predicate IsDigit(c: char)
  {
    '0' <= c <= '9'
  }

  /** The input with every non-digit character removed (LoginPage.js:159): its digits, in order. */
  function Digits(value: string): (r: string)
    ensures |r| <= |value|
  {
    if value == [] then []
    else (if IsDigit(value[0]) then [value[0]] else []) + Digits(value[1..])
  }

  /** `Digits` keeps every digit character of the input, as often as it occurs, and nothing else. */
  lemma {:induction false} DigitsExact(value: string)
    ensures forall i :: 0 <= i < |Digits(value)| ==> IsDigit(Digits(value)[i])
    ensures forall c :: IsDigit(c) ==> multiset(Digits(value))[c] == multiset(value)[c]
  {
    if value != [] {
      DigitsExact(value[1..]);
      assert value == [value[0]] + value[1..];
    }
  }

  lemma {:induction false} DigitsAppend(a: string, b: string)
    ensures Digits(a + b) == Digits(a) + Digits(b)
  {
    if a != [] {
      assert (a + b)[1..] == a[1..] + b;
      DigitsAppend(a[1..], b);
    } else {
      assert a + b == b;
    }
  }

  /** A string of digits only is its own digit string. */
  lemma {:induction false} DigitsOfDigits(s: string)
    requires forall i :: 0 <= i < |s| ==> IsDigit(s[i])
    ensures Digits(s) == s
  {
    if s != [] {
      DigitsOfDigits(s[1..]);
    }
  }

  /** Nine digits grouped three, two and four, with a dash between groups. */
  function Dashed(c: string): (r: string)
    requires |c| == 9
    ensures |r| == 11 && r[3] == '-' && r[6] == '-'
    ensures r[..3] == c[..3] && r[4..6] == c[3..5] && r[7..] == c[5..]
  {
    c[..3] + "-" + c[3..5] + "-" + c[5..]
  }

  /**
   * `formatSSN(value)`: the digits, dashed 3-2-4 when there are nine of
   * them, and cut to the first nine first when there are more. Fewer than
   * nine digits contain no match of the pattern and are returned as they are.
   */
  function FormatSsn(value: string): string
  {
    var cleaned := Digits(value);
    if |cleaned| <= 9 then
      (if |cleaned| == 9 then Dashed(cleaned) else cleaned)
    else Dashed(cleaned[..9])
  }

  /** `validateSSN(ssn)`: exactly nine digit characters, whatever else is around them. */
  predicate ValidateSsn(ssn: string)
  {
    |Digits(ssn)| == 9
  }

  function Min(a: int, b: int): int
  {
    if a <= b then a else b
  }

  /** The digits of the dashed form are the nine digits, and its only other character is '-'. */
  lemma DashedDigits(c: string)
    requires |c| == 9 && forall i :: 0 <= i < 9 ==> IsDigit(c[i])
    ensures Digits(Dashed(c)) == c
  {
    var a, b, t := c[..3], c[3..5], c[5..];
    DigitsAppend(a + "-" + b + "-", t);
    DigitsAppend(a + "-" + b, "-");
    DigitsAppend(a + "-", b);
    DigitsAppend(a, "-");
    DigitsOfDigits(a);
    DigitsOfDigits(b);
    DigitsOfDigits(t);
    assert Digits("-") == [];
    assert Digits(Dashed(c)) == a + b + t;
    assert c == a + b + t;
  }

  /** Every character of the dashed form is a digit or a dash. */
  lemma DashedAlphabet(c: string)
    requires |c| == 9 && forall i :: 0 <= i < 9 ==> IsDigit(c[i])
    ensures forall i :: 0 <= i < 11 ==> IsDigit(Dashed(c)[i]) || Dashed(c)[i] == '-'
  {
    var r := Dashed(c);
    assert forall i :: 0 <= i < 3 ==> r[i] == c[i];
    assert forall i :: 4 <= i < 6 ==> r[i] == c[i - 1];
    assert forall i :: 7 <= i < 11 ==> r[i] == c[i - 2];
  }

  /**
   * The output keeps the first min(9, n) digits of the input in order and
   * adds nothing but dashes.
   */
  lemma FormatKeepsLeadingDigits(value: string)
    ensures var r := FormatSsn(value); var c := Digits(value);
      && Digits(r) == c[..Min(9, |c|)]
      && forall i :: 0 <= i < |r| ==> IsDigit(r[i]) || r[i] == '-'
  {
    var c := Digits(value);
    DigitsExact(value);
    if |c| < 9 {
      DigitsOfDigits(c);
      assert c[..|c|] == c;
    } else {
      DashedDigits(c[..9]);
      DashedAlphabet(c[..9]);
      if |c| == 9 {
        assert c[..9] == c;
      }
    }
  }

  /** With fewer than nine digits the output is those digits, without dashes. */
  lemma ShortInputUndashed(value: string)
    requires |Digits(value)| < 9
    ensures FormatSsn(value) == Digits(value)
    ensures '-' !in FormatSsn(value)
  {
    DigitsExact(value);
    var r := FormatSsn(value);
    assert forall i :: 0 <= i < |r| ==> IsDigit(r[i]);
  }

  /**
   * With nine or more digits the output is the first nine as ddd-dd-dddd,
   * eleven characters, the input's `maxLength`.
   */
  lemma LongInputDashed(value: string)
    requires |Digits(value)| >= 9
    ensures var r := FormatSsn(value); var c := Digits(value);
      && |r| == 11 && r[3] == '-' && r[6] == '-'
      && r[..3] == c[..3] && r[4..6] == c[3..5] && r[7..] == c[5..9]
  {
    var c := Digits(value);
    var d := if |c| == 9 then c else c[..9];
    assert FormatSsn(value) == Dashed(d);
    assert d[..3] == c[..3] && d[3..5] == c[3..5] && d[5..] == c[5..9];
  }

  /** Reformatting a formatted value changes nothing, so the handler can reapply it on every change. */
  lemma FormatIdempotent(value: string)
    ensures FormatSsn(FormatSsn(value)) == FormatSsn(value)
  {
    var c := Digits(value);
    FormatKeepsLeadingDigits(value);
    if |c| < 9 {
      assert c[..|c|] == c;
    } else {
      assert FormatSsn(value) == Dashed(c[..9]) by {
        if |c| == 9 { assert c[..9] == c; }
      }
      assert Digits(FormatSsn(value)) == c[..9];
      assert c[..9][..9] == c[..9];
    }
  }

  /** Validation counts digit characters: exactly nine of them, with any other characters around. */
  lemma ValidateCountsDigits(ssn: string, extra: string)
    requires forall i :: 0 <= i < |extra| ==> !IsDigit(extra[i])
    ensures ValidateSsn(ssn + extra) <==> ValidateSsn(ssn)
    ensures ValidateSsn(extra + ssn) <==> ValidateSsn(ssn)
  {
    DigitsAppend(ssn, extra);
    DigitsAppend(extra, ssn);
    NoDigits(extra);
  }

  lemma {:induction false} NoDigits(s: string)
    requires forall i :: 0 <= i < |s| ==> !IsDigit(s[i])
    ensures Digits(s) == []
  {
    if s != [] {
      NoDigits(s[1..]);
    }
  }

  /** A formatted value passes validation exactly when the raw input had at least nine digits. */
  lemma ValidateFormatIff(value: string)
    ensures ValidateSsn(FormatSsn(value)) <==> |Digits(value)| >= 9
  {
    FormatKeepsLeadingDigits(value);
    var c := Digits(value);
    if |c| < 9 {
      assert c[..|c|] == c;
    }
  }

  // The form's state cells and its two handlers.

  datatype Form = Form(ssn: string, error: string)

  const InvalidSsnMessage := "Please enter a valid 9-digit Social Security Number"

  /** `handleSSNChange`: the formatted input replaces the value and clears the error. */
  function OnSsnChange(form: Form, value: string): (r: Form)
    ensures r.ssn == FormatSsn(value) && r.error == ""
  {
    Form(FormatSsn(value), "")
  }

  /** What `handleSubmit` does after clearing the error. */
  datatype Submitted = Submitted(form: Form, login: Option<string>)

  /**
   * `handleSubmit`: an invalid value shows the message and stops before
   * `login`; a valid one is passed to `login` unchanged.
   */
  function OnSubmit(form: Form): (r: Submitted)
    ensures r.form.ssn == form.ssn
    ensures r.login.None? <==> !ValidateSsn(form.ssn)
    ensures r.login.None? ==> r.form.error == InvalidSsnMessage
    ensures r.login.Some? ==> r.login.value == form.ssn && r.form.error == ""
  {
    var cleared := form.(error := "");
    if !ValidateSsn(cleared.ssn) then Submitted(cleared.(error := InvalidSsnMessage), None)
    else Submitted(cleared, Some(cleared.ssn))
  }

  /** A value typed through the change handler reaches `login` exactly when it had nine digits. */
  lemma TypedValueReachesLogin(form: Form, typed: string)
    ensures OnSubmit(OnSsnChange(form, typed)).login.Some? <==> |Digits(typed)| >= 9
    ensures OnSubmit(OnSsnChange(form, typed)).login.Some? ==>
      |OnSubmit(OnSsnChange(form, typed)).login.value| == 11
  {
    ValidateFormatIff(typed);
    if |Digits(typed)| >= 9 {
      LongInputDashed(typed);
    }
  }
}
