/**
 * The employee form's validator (`validateInputs` in crud-app/src/Body.js).
 * Each of the eight fields is checked on its own and gets at most one
 * message; the result holds the messages of the failing fields, and a result
 * with no message means the form may be submitted.
 */
module Validation {
  import opened Wrappers
  import opened Text

  /**
   * The form's field values as the validator reads them. `age` is None when
   * the age input is empty or not a number; `gender` is "" while no radio
   * button is selected.
   */
  datatype Form = Form(
    firstName: string,
    lastName: string,
    email: string,
    age: Option<int>,
    gender: string,
    hobbies: seq<string>,
    phone: string,
    address: string)

  /** The messages the validator can attach to a field. */
  datatype Message =
    | FirstNameRequired | FirstNameLetters
    | LastNameRequired | LastNameLetters
    | EmailRequired | EmailInvalid
    | AgeRequired
    | GenderRequired
    | HobbiesRequired
    | PhoneRequired | PhoneInvalid
    | AddressRequired | AddressShort

  /** The text the form shows for each message. */
  function MessageText(m: Message): string {
    match m
    case FirstNameRequired => "First name is required."
    case FirstNameLetters => "First name should only contain letters."
    case LastNameRequired => "Last name is required."
    case LastNameLetters => "Last name should only contain letters."
    case EmailRequired => "Email is required."
    case EmailInvalid => "Enter a valid email address."
    case AgeRequired => "Valid age is required."
    case GenderRequired => "Please select a gender."
    case HobbiesRequired => "Select at least one hobby."
    case PhoneRequired => "Phone number is required."
    case PhoneInvalid => "Enter a valid 10-digit phone number."
    case AddressRequired => "Address is required."
    case AddressShort => "Address should be at least 5 characters long."
  }

  /** `/^[A-Za-z]+$/`: one or more ASCII letters and nothing else. */
  predicate IsName(s: string) {
    |s| > 0 && forall i :: 0 <= i < |s| ==> IsLetter(s[i])
  }

  /** `/^\d{10}$/`: exactly ten digits. */
  predicate IsPhone(s: string) {
    |s| == 10 && forall i :: 0 <= i < |s| ==> IsDigit(s[i])
  }

  /** A character of the regex class `[^\s@]`. */
  predicate IsPlain(c: char) {
    !IsSpace(c) && c != '@'
  }

  predicate PlainRun(s: string) {
    forall i :: 0 <= i < |s| ==> IsPlain(s[i])
  }

  /**
   * `/^[^\s@]+@[^\s@]+\.[^\s@]+$/` read off the regex: a non-empty plain run,
   * an `@` at `at`, a non-empty plain run, a `.` at `dot`, a non-empty plain run.
   */
  ghost predicate EmailShape(s: string) {
    exists at, dot ::
      0 < at && at + 1 < dot && dot + 1 < |s| &&
      PlainRun(s[..at]) && s[at] == '@' && PlainRun(s[at + 1..dot]) && s[dot] == '.' && PlainRun(s[dot + 1..])
  }

  /** The index of the first `c` in `s`, if any. */
  function IndexOf(s: string, c: char): (r: Option<nat>)
    ensures r.None? ==> c !in s
    ensures r.Some? ==> r.value < |s| && s[r.value] == c && c !in s[..r.value]
  {
    if |s| == 0 then None
    else if s[0] == c then Some(0)
    else
      var r := IndexOf(s[1..], c);
      if r.None? then None
      else
        assert s[..r.value + 1] == [s[0]] + s[1..][..r.value];
        Some(r.value + 1)
  }

  /**
   * How the email regex is decided: split at the first `@`; the part before
   * it must be a non-empty plain run, the part after it a plain run with a
   * `.` that is neither its first nor its last character.
   */
  predicate MatchesEmail(s: string) {
    match IndexOf(s, '@')
    case None => false
    case Some(at) =>
      var domain := s[at + 1..];
      at > 0 && PlainRun(s[..at]) && PlainRun(domain) && |domain| >= 3 && '.' in domain[1..|domain| - 1]
  }

  /** An occurrence of `c` with none before it is the one IndexOf finds. */
  lemma FirstIndex(s: string, c: char, k: nat)
    requires k < |s| && s[k] == c && c !in s[..k]
    ensures IndexOf(s, c) == Some(k)
  {
    var r := IndexOf(s, c);
    assert s[k] in s;
    assert forall i :: 0 <= i < k ==> s[i] == s[..k][i];
    assert forall i :: 0 <= i < r.value ==> s[i] == s[..r.value][i];
  }

  /** A string with the regex's shape passes the scan. */
  lemma ShapeMatches(s: string)
    requires EmailShape(s)
    ensures MatchesEmail(s)
  {
    var at, dot :|
      0 < at && at + 1 < dot && dot + 1 < |s| &&
      PlainRun(s[..at]) && s[at] == '@' && PlainRun(s[at + 1..dot]) && s[dot] == '.' && PlainRun(s[dot + 1..]);
    var local := s[..at];
    assert '@' !in local by {
      forall i | 0 <= i < |local| ensures local[i] != '@' { assert IsPlain(local[i]); }
    }
    FirstIndex(s, '@', at);
    var domain := s[at + 1..];
    var name, tld := s[at + 1..dot], s[dot + 1..];
    forall j | at + 1 <= j < |s| ensures IsPlain(s[j]) {
      if j < dot { assert s[j] == name[j - (at + 1)]; }
      else if j > dot { assert s[j] == tld[j - (dot + 1)]; }
    }
    forall i | 0 <= i < |domain| ensures IsPlain(domain[i]) {
      assert domain[i] == s[at + 1 + i];
    }
    assert domain[1..|domain| - 1][|name| - 1] == s[dot];
    assert PlainRun(local) && PlainRun(domain) && |domain| >= 3 && '.' in domain[1..|domain| - 1];
  }

  /** A string the scan accepts has the regex's shape. */
  lemma MatchHasShape(s: string)
    requires MatchesEmail(s)
    ensures EmailShape(s)
  {
    var at := IndexOf(s, '@').value;
    var domain := s[at + 1..];
    var q :| 0 <= q < |domain[1..|domain| - 1]| && domain[1..|domain| - 1][q] == '.';
    var dot := at + 2 + q;
    assert s[dot] == '.';
    var name, tld := s[at + 1..dot], s[dot + 1..];
    forall i | 0 <= i < |name| ensures IsPlain(name[i]) {
      assert name[i] == domain[i];
    }
    forall i | 0 <= i < |tld| ensures IsPlain(tld[i]) {
      assert tld[i] == domain[q + 2 + i];
    }
  }

  /** The scan accepts exactly the strings the email regex matches. */
  lemma MatchesEmailIffShape(s: string)
    ensures MatchesEmail(s) <==> EmailShape(s)
  {
    if EmailShape(s) { ShapeMatches(s); }
    if MatchesEmail(s) { MatchHasShape(s); }
  }

  /**
   * The error object: one optional message per field. A field without a
   * message is a key the source never sets.
   */
  datatype Errors = Errors(
    firstName: Option<Message>,
    lastName: Option<Message>,
    email: Option<Message>,
    age: Option<Message>,
    gender: Option<Message>,
    hobbies: Option<Message>,
    phone: Option<Message>,
    address: Option<Message>)
  {
    /** `Object.keys(errors).length`: how many fields carry a message. */
    function Count(): (n: nat)
      ensures n <= 8
      ensures n == 0 <==> this == NoErrors
    {
      (if firstName.Some? then 1 else 0) + (if lastName.Some? then 1 else 0) +
      (if email.Some? then 1 else 0) + (if age.Some? then 1 else 0) +
      (if gender.Some? then 1 else 0) + (if hobbies.Some? then 1 else 0) +
      (if phone.Some? then 1 else 0) + (if address.Some? then 1 else 0)
    }
  }

  /** The empty error object `{}`. */
  const NoErrors := Errors(None, None, None, None, None, None, None, None)

  /**
   * A name field: "required" when it is whitespace only, otherwise "letters
   * only" when it is not one or more ASCII letters.
   */
  function NameError(s: string, required: Message, letters: Message): (r: Option<Message>)
    ensures r.Some? <==> !IsName(s)
    ensures AllSpace(s) ==> r == Some(required)
    ensures !AllSpace(s) && !IsName(s) ==> r == Some(letters)
  {
    BlankFailsShapes(s);
    if AllSpace(s) then Some(required) else if !IsName(s) then Some(letters) else None
  }

  /** The email field: "required" when whitespace only, otherwise "invalid" unless it has the regex's shape. */
  ghost function EmailError(s: string): (r: Option<Message>)
    ensures r.Some? <==> !EmailShape(s)
    ensures AllSpace(s) ==> r == Some(EmailRequired)
    ensures !AllSpace(s) && !EmailShape(s) ==> r == Some(EmailInvalid)
  {
    BlankFailsShapes(s);
    if AllSpace(s) then Some(EmailRequired) else if !EmailShape(s) then Some(EmailInvalid) else None
  }

  /** The phone field: "required" when whitespace only, otherwise "invalid" unless it is ten digits. */
  function PhoneError(s: string): (r: Option<Message>)
    ensures r.Some? <==> !IsPhone(s)
    ensures AllSpace(s) ==> r == Some(PhoneRequired)
    ensures !AllSpace(s) && !IsPhone(s) ==> r == Some(PhoneInvalid)
  {
    BlankFailsShapes(s);
    if AllSpace(s) then Some(PhoneRequired) else if !IsPhone(s) then Some(PhoneInvalid) else None
  }

  /**
   * The address field: "required" when whitespace only, otherwise "too short"
   * when the untrimmed value has fewer than five characters.
   */
  function AddressError(s: string): (r: Option<Message>)
    ensures r.None? <==> !AllSpace(s) && |s| >= 5
    ensures AllSpace(s) ==> r == Some(AddressRequired)
    ensures !AllSpace(s) && |s| < 5 ==> r == Some(AddressShort)
  {
    if AllSpace(s) then Some(AddressRequired) else if |s| < 5 then Some(AddressShort) else None
  }

  /**
   * What the validator reports for a form, field by field, with "blank"
   * read as "whitespace only" and the regexes read as the shapes above.
   */
  ghost function Validate(f: Form): Errors {
    Errors(
      NameError(f.firstName, FirstNameRequired, FirstNameLetters),
      NameError(f.lastName, LastNameRequired, LastNameLetters),
      EmailError(f.email),
      if f.age.None? || f.age.value <= 0 then Some(AgeRequired) else None,
      if f.gender == "" then Some(GenderRequired) else None,
      if |f.hobbies| == 0 then Some(HobbiesRequired) else None,
      PhoneError(f.phone),
      AddressError(f.address))
  }

  /** Every field passes its check. */
  ghost predicate FormValid(f: Form) {
    && IsName(f.firstName)
    && IsName(f.lastName)
    && EmailShape(f.email)
    && f.age.Some? && f.age.value > 0
    && f.gender != ""
    && |f.hobbies| > 0
    && IsPhone(f.phone)
    && !AllSpace(f.address) && |f.address| >= 5
  }

  /** A whitespace-only value is never a name, a phone number or an email address. */
  lemma BlankFailsShapes(s: string)
    ensures AllSpace(s) ==> !IsName(s) && !IsPhone(s) && !EmailShape(s)
  {
    if AllSpace(s) && |s| > 0 {
      assert IsSpace(s[0]) && !IsLetter(s[0]) && !IsDigit(s[0]);
    }
    if EmailShape(s) {
      var at, dot :| 0 < at && at + 1 < dot && dot + 1 < |s| && PlainRun(s[..at]) && s[at] == '@';
      assert s[..at][0] == s[0] && IsPlain(s[0]);
    }
  }

  /** The error object is empty exactly when all eight checks pass. */
  lemma ValidIffAllChecksPass(f: Form)
    ensures Validate(f) == NoErrors <==> FormValid(f)
    ensures Validate(f).Count() == 0 <==> FormValid(f)
  {
  }

  /**
   * `validateInputs`' test of a name field: `trim() === ""` gives "required",
   * otherwise a failed `/^[A-Za-z]+$/` gives "letters only".
   */
  method CheckName(value: string, required: Message, letters: Message) returns (m: Option<Message>)
    ensures m == NameError(value, required, letters)
  {
    TrimEmptyIffAllSpace(value);
    if Trim(value) == "" {
      m := Some(required);
    } else if !IsName(value) {
      m := Some(letters);
    } else {
      m := None;
    }
  }

  /** `validateInputs`' test of the email field, with the regex decided by MatchesEmail. */
  method CheckEmail(value: string) returns (m: Option<Message>)
    ensures m == EmailError(value)
  {
    TrimEmptyIffAllSpace(value);
    MatchesEmailIffShape(value);
    if Trim(value) == "" {
      m := Some(EmailRequired);
    } else {
      m := None;
      if !MatchesEmail(value) {
        m := Some(EmailInvalid);
      }
    }
  }

  /** `validateInputs`' test of the phone field against `/^\d{10}$/`. */
  method CheckPhone(value: string) returns (m: Option<Message>)
    ensures m == PhoneError(value)
  {
    TrimEmptyIffAllSpace(value);
    if Trim(value) == "" {
      m := Some(PhoneRequired);
    } else if !IsPhone(value) {
      m := Some(PhoneInvalid);
    } else {
      m := None;
    }
  }

  /** `validateInputs`' test of the address field: blank after trimming, then the untrimmed length. */
  method CheckAddress(value: string) returns (m: Option<Message>)
    ensures m == AddressError(value)
  {
    TrimEmptyIffAllSpace(value);
    if Trim(value) == "" {
      m := Some(AddressRequired);
    } else if |value| < 5 {
      m := Some(AddressShort);
    } else {
      m := None;
    }
  }

  /**
   * `validateInputs`: starts from `{}` and gives each failing field its
   * message; a check that passes leaves its field without one.
   */
  method ValidateInputs(f: Form) returns (errors: Errors)
    ensures errors == Validate(f)
  {
    errors := NoErrors;

    var m := CheckName(f.firstName, FirstNameRequired, FirstNameLetters);
    errors := errors.(firstName := m);
    m := CheckName(f.lastName, LastNameRequired, LastNameLetters);
    errors := errors.(lastName := m);
    m := CheckEmail(f.email);
    errors := errors.(email := m);

    if f.age.None? || f.age.value <= 0 {
      errors := errors.(age := Some(AgeRequired));
    }
    if f.gender == "" {
      errors := errors.(gender := Some(GenderRequired));
    }
    if |f.hobbies| == 0 {
      errors := errors.(hobbies := Some(HobbiesRequired));
    }

    m := CheckPhone(f.phone);
    errors := errors.(phone := m);
    m := CheckAddress(f.address);
    errors := errors.(address := m);
  }

  /**
   * The regexes and the length test see the value as typed, not trimmed:
   * a name with a leading space is "letters only", and an address of two
   * letters padded with spaces to five characters is accepted.
   */
  lemma UntrimmedValuesChecked()
    ensures NameError(" Jane", FirstNameRequired, FirstNameLetters) == Some(FirstNameLetters)
    ensures AddressError("  ab ") == None
  {
    assert !IsLetter(" Jane"[0]) && !IsSpace(" Jane"[1]);
    assert !IsSpace("  ab "[2]);
  }

  /** The example address "jane@x.com" has the shape the email regex describes. */
  lemma SampleEmailHasShape()
    ensures EmailShape("jane@x.com")
  {
    var email := "jane@x.com";
    assert PlainRun(email[..4]) && email[4] == '@' && PlainRun(email[5..6]) && email[6] == '.' && PlainRun(email[7..]);
  }

  /** The example's names, phone number and address pass their checks. */
  lemma SampleFieldsPass()
    ensures IsName("Jane") && IsName("Doe") && IsPhone("1234567890") && !AllSpace("123 Main St")
  {
    var first, last, phone, address := "Jane", "Doe", "1234567890", "123 Main St";
    assert forall i :: 0 <= i < |first| ==> IsLetter(first[i]);
    assert forall i :: 0 <= i < |last| ==> IsLetter(last[i]);
    assert forall i :: 0 <= i < |phone| ==> IsDigit(phone[i]);
    assert !IsSpace(address[0]);
  }

  /** The completely filled-in example form is accepted. */
  lemma SampleFormIsValid()
    ensures Validate(Form("Jane", "Doe", "jane@x.com", Some(30), "Female", ["Reading"], "1234567890", "123 Main St")) == NoErrors
  {
    var form := Form("Jane", "Doe", "jane@x.com", Some(30), "Female", ["Reading"], "1234567890", "123 Main St");
    SampleEmailHasShape();
    SampleFieldsPass();
    ValidIffAllChecksPass(form);
  }
}
