/** The lead form: company name and e-mail address, validated on submit. */
module LeadCapture {
  import opened Js

  datatype LeadData = LeadData(companyName: string, email: string)

  datatype LeadField = CompanyName | Email

  const CompanyNameRequired: string := "Company name is required"
  const EmailRequired: string := "Email is required"
  const InvalidEmail: string := "Please enter a valid email address"

  // ---------------------------------------------------------------------------
  // The e-mail pattern ^[^\s@]+@[^\s@]+\.[^\s@]+$
  // ---------------------------------------------------------------------------

  /** One `[^\s@]+` run: non-empty, no white space, no '@'. */
  predicate Atom(s: string) {
    |s| > 0 && forall i :: 0 <= i < |s| ==> !IsWhitespace(s[i]) && s[i] != '@'
  }

  /** The regular expression: the whole string splits as a run, '@', a run, '.', a run
      (for some choice of the '.', as backtracking allows). */
  ghost predicate MatchesEmailPattern(s: string) {
    exists i, j :: 0 < i < j < |s| && s[i] == '@' && s[j] == '.'
      && Atom(s[..i]) && Atom(s[i + 1..j]) && Atom(s[j + 1..])
  }

  predicate NoWhitespace(s: string) {
    forall i :: 0 <= i < |s| ==> !IsWhitespace(s[i])
  }

  /** The index of the first c in s, or -1. */
  function IndexOf(s: string, c: char): (r: int)
    ensures r == -1 <==> c !in s
    ensures r != -1 ==> 0 <= r < |s| && s[r] == c && c !in s[..r]
  {
    if s == [] then -1
    else if s[0] == c then 0
    else
      var r := IndexOf(s[1..], c);
      if r == -1 then -1 else r + 1
  }

  /** A '.' that is neither the first nor the last character. */
  predicate HasInnerDot(domain: string) {
    |domain| >= 3 && '.' in domain[1..|domain| - 1]
  }

  /** The pattern as a direct check: no white space, exactly one '@', something before
      it, and an inner '.' in what follows it. */
  predicate EmailShape(s: string) {
    var at := IndexOf(s, '@');
    NoWhitespace(s) && at > 0 && '@' !in s[at + 1..] && HasInnerDot(s[at + 1..])
  }

  lemma IndexOfUnique(s: string, c: char, i: nat)
    requires i < |s| && s[i] == c && c !in s[..i]
    ensures IndexOf(s, c) == i
  {
    var r := IndexOf(s, c);
    assert s[i] in s;
    forall p | 0 <= p < i ensures s[p] != c {
      assert s[..i][p] == s[p];
    }
    forall p | 0 <= p < r ensures s[p] != c {
      assert s[..r][p] == s[p];
    }
  }

  lemma ShapeGivesPattern(s: string)
    requires EmailShape(s)
    ensures MatchesEmailPattern(s)
  {
    var i := IndexOf(s, '@');
    var d := s[i + 1..];
    var inner := d[1..|d| - 1];
    var k :| 0 <= k < |inner| && inner[k] == '.';
    var j := i + 2 + k;
    assert inner[k] == d[k + 1];
    assert d[k + 1] == s[j];
    forall p | 0 <= p < i ensures s[p] != '@' {
      assert s[..i][p] == s[p];
    }
    forall p | i < p < |s| ensures s[p] != '@' {
      assert d[p - i - 1] == s[p];
    }
    assert Atom(s[..i]);
    assert Atom(s[i + 1..j]);
    assert Atom(s[j + 1..]);
  }

  lemma PatternGivesShape(s: string, i: nat, j: nat)
    requires 0 < i < j < |s| && s[i] == '@' && s[j] == '.'
    requires Atom(s[..i]) && Atom(s[i + 1..j]) && Atom(s[j + 1..])
    ensures EmailShape(s)
  {
    var a, b, c := s[..i], s[i + 1..j], s[j + 1..];
    forall p | 0 <= p < |s| ensures !IsWhitespace(s[p]) && (p != i ==> s[p] != '@') {
      if p < i {
        assert a[p] == s[p];
      } else if i < p < j {
        assert b[p - i - 1] == s[p];
      } else if p > j {
        assert c[p - j - 1] == s[p];
      }
    }
    assert '@' !in s[..i];
    IndexOfUnique(s, '@', i);
    var d := s[i + 1..];
    assert d[1..|d| - 1][j - i - 2] == '.';
    assert '@' !in d;
  }

  /** The direct check accepts exactly the strings the regular expression matches. */
  lemma EmailShapeIffPattern(s: string)
    ensures EmailShape(s) <==> MatchesEmailPattern(s)
  {
    if EmailShape(s) {
      ShapeGivesPattern(s);
    }
    if MatchesEmailPattern(s) {
      var i, j :| 0 < i < j < |s| && s[i] == '@' && s[j] == '.'
        && Atom(s[..i]) && Atom(s[i + 1..j]) && Atom(s[j + 1..]);
      PatternGivesShape(s, i, j);
    }
  }

  /** validateEmail: null (None) for an address the pattern matches, the error message
      otherwise. The address is tested as typed, without trimming. */
  function ValidateEmail(email: string): (r: Option<string>)
    ensures r.None? <==> MatchesEmailPattern(email)
    ensures r.Some? ==> r.value == InvalidEmail
  {
    EmailShapeIffPattern(email);
    if EmailShape(email) then None else Some(InvalidEmail)
  }

  /** Surrounding white space makes an otherwise valid address invalid, because
      validateEmail tests the pattern on the untrimmed value. This is a fact about
      validateEmail as a function. Through the `type="email"` input no padding reaches
      it: the browser strips leading and trailing ASCII white space, and any other white
      space (U+00A0, U+000B, ...) is outside HTML's ASCII-only e-mail grammar, so the
      browser blocks the submit and handleSubmit never runs. */
  lemma PaddedEmailRejected(email: string, pad: char)
    requires IsWhitespace(pad)
    ensures ValidateEmail([pad] + email) == Some(InvalidEmail)
    ensures ValidateEmail(email + [pad]) == Some(InvalidEmail)
  {
    var before, after := [pad] + email, email + [pad];
    assert before[0] == pad && after[|after| - 1] == pad;
    EmailShapeIffPattern(before);
    EmailShapeIffPattern(after);
  }

  // ---------------------------------------------------------------------------
  // Submit
  // ---------------------------------------------------------------------------

  /** handleSubmit's newErrors. A value fails `!value.trim()` exactly when it is all
      white space (TrimEmptyIffBlank). Every message it stores is one of the three
      texts, so a field has an entry exactly when its message is set. */
  function LeadErrors(f: LeadData): (r: map<LeadField, string>)
    ensures forall field :: field in r ==> r[field] in {CompanyNameRequired, EmailRequired, InvalidEmail}
    ensures forall field :: HasError(r, field) <==> field in r
  {
    var company := if IsBlank(f.companyName) then map[CompanyName := CompanyNameRequired] else map[];
    if IsBlank(f.email) then company[Email := EmailRequired]
    else match ValidateEmail(f.email)
      case Some(message) => company[Email := message]
      case None => company
  }

  /** The company name is required (white space alone does not count); the e-mail
      address is required in the same sense, and only a present address is checked
      against the pattern, so "required" takes precedence over "invalid". */
  lemma LeadErrorsSpec(f: LeadData)
    ensures CompanyName in LeadErrors(f) <==> IsBlank(f.companyName)
    ensures CompanyName in LeadErrors(f) ==> LeadErrors(f)[CompanyName] == CompanyNameRequired
    ensures Email in LeadErrors(f) <==> IsBlank(f.email) || !MatchesEmailPattern(f.email)
    ensures Email in LeadErrors(f) ==>
      LeadErrors(f)[Email] == if IsBlank(f.email) then EmailRequired else InvalidEmail
    ensures LeadErrors(f) == map[] <==> !IsBlank(f.companyName) && MatchesEmailPattern(f.email)
  {
    if IsBlank(f.email) && !IsBlank(f.companyName) {
      assert Email in LeadErrors(f);
    }
    if MatchesEmailPattern(f.email) && !IsBlank(f.companyName) {
      assert LeadErrors(f).Keys == {};
    }
  }

  /** An accepted lead has a non-empty company name and e-mail address. */
  lemma AcceptedLeadNonEmpty(f: LeadData)
    requires LeadErrors(f) == map[]
    ensures f.companyName != "" && f.email != ""
  {
    LeadErrorsSpec(f);
    assert f.companyName == "" ==> IsBlank(f.companyName);
    assert f.email == "" ==> IsBlank(f.email);
  }

  /** A message counts as set when it is a non-empty string. */
  predicate HasError(errors: map<LeadField, string>, field: LeadField) {
    field in errors && errors[field] != ""
  }

  function SetField(f: LeadData, field: LeadField, value: string): LeadData {
    match field
    case CompanyName => f.(companyName := value)
    case Email => f.(email := value)
  }

  function Field(f: LeadData, field: LeadField): string {
    match field
    case CompanyName => f.companyName
    case Email => f.email
  }

  /** handleChange's error update: a set message of the changed field becomes ''. */
  function ClearError(errors: map<LeadField, string>, field: LeadField): map<LeadField, string> {
    if HasError(errors, field) then errors[field := ""] else errors
  }

  /** A change writes only the named field and clears only that field's message. */
  lemma ChangeIsLocal(f: LeadData, errors: map<LeadField, string>, field: LeadField, value: string, other: LeadField)
    requires other != field
    ensures Field(SetField(f, field, value), field) == value
    ensures Field(SetField(f, field, value), other) == Field(f, other)
    ensures !HasError(ClearError(errors, field), field)
    ensures HasError(ClearError(errors, field), other) == HasError(errors, other)
    ensures other in errors ==> other in ClearError(errors, field) && ClearError(errors, field)[other] == errors[other]
  {
  }

  /** The LeadCapture component's state. */
  class LeadCaptureForm {
    var formData: LeadData
    var errors: map<LeadField, string>

    constructor ()
      ensures formData == LeadData("", "") && errors == map[]
    {
      formData := LeadData("", "");
      errors := map[];
    }

    /** handleSubmit: builds newErrors field by field, stores it, and hands the
        unchanged form data to onSubmit (returned here) when it is empty. */
    method HandleSubmit() returns (submitted: Option<LeadData>)
      modifies this
      ensures errors == LeadErrors(formData) && formData == old(formData)
      ensures submitted == if errors == map[] then Some(formData) else None
    {
      var f := formData;
      var companyMissing := TrimmedIsEmpty(f.companyName);
      var emailMissing := TrimmedIsEmpty(f.email);
      var newErrors: map<LeadField, string> := map[];
      if companyMissing {
        newErrors := newErrors[CompanyName := CompanyNameRequired];
      }
      if emailMissing {
        newErrors := newErrors[Email := EmailRequired];
      } else {
        var emailError := ValidateEmail(f.email);
        if emailError.Some? {
          newErrors := newErrors[Email := emailError.value];
        }
      }
      assert newErrors == LeadErrors(f);
      errors := newErrors;
      if |newErrors| == 0 {
        assert newErrors.Keys == {};
        submitted := Some(f);
      } else {
        submitted := None;
      }
    }

    /** handleChange for the input named `field`. */
    method HandleChange(field: LeadField, value: string)
      modifies this
      ensures formData == SetField(old(formData), field, value)
      ensures errors == ClearError(old(errors), field)
    {
      formData := SetField(formData, field, value);
      if HasError(errors, field) {
        errors := errors[field := ""];
      }
    }
  }
}
