/** The final contact form: first and last name, company size, phone and the consent
    checkbox, validated on submit. */
module FinalContact {
  import opened Js

  datatype ContactData = ContactData(
    firstName: string, lastName: string, companySize: string, phone: string,
    agreedToReceiveReport: bool)

  datatype ContactField = FirstName | LastName | CompanySize | Phone | AgreedToReceiveReport

  const FirstNameRequired: string := "First name is required"
  const LastNameRequired: string := "Last name is required"
  const CompanySizeRequired: string := "Company size is required"
  const ConsentRequired: string := "You must agree to receive your report"

  /** Which checks fail, each on its own field's value. A name fails `!value.trim()`,
      which holds exactly for the all-white-space values (TrimEmptyIffBlank). */
  predicate Fails(f: ContactData, field: ContactField) {
    match field
    case FirstName => IsBlank(f.firstName)
    case LastName => IsBlank(f.lastName)
    case CompanySize => f.companySize == ""
    case AgreedToReceiveReport => !f.agreedToReceiveReport
    case Phone => false
  }

  function Message(field: ContactField): string {
    match field
    case FirstName => FirstNameRequired
    case LastName => LastNameRequired
    case CompanySize => CompanySizeRequired
    case AgreedToReceiveReport => ConsentRequired
    case Phone => ""
  }

  /** `if (cond) newErrors.field = message` on a map. */
  function AddIf(errors: map<ContactField, string>, cond: bool, field: ContactField): map<ContactField, string> {
    if cond then errors[field := Message(field)] else errors
  }

  /** The four checks' messages, given which of them fail. */
  function ErrorsOf(firstFails: bool, lastFails: bool, sizeFails: bool, consentFails: bool): map<ContactField, string> {
    AddIf(AddIf(AddIf(AddIf(map[], firstFails, FirstName), lastFails, LastName),
      sizeFails, CompanySize), consentFails, AgreedToReceiveReport)
  }

  /** handleSubmit's newErrors: four independent checks; the phone is not checked.
      Every stored message is non-empty, so a field has an entry exactly when its message
      is set. */
  function ContactErrors(f: ContactData): (r: map<ContactField, string>)
    ensures Phone !in r
    ensures forall field :: HasError(r, field) <==> field in r
  {
    ErrorsOf(Fails(f, FirstName), Fails(f, LastName), Fails(f, CompanySize), Fails(f, AgreedToReceiveReport))
  }

  lemma ErrorsOfPointwise(b1: bool, b2: bool, b3: bool, b4: bool)
    ensures var e := ErrorsOf(b1, b2, b3, b4);
      (FirstName in e <==> b1) && (LastName in e <==> b2) && (CompanySize in e <==> b3)
      && (AgreedToReceiveReport in e <==> b4) && Phone !in e
      && forall field :: field in e ==> e[field] == Message(field)
  {
  }

  /** The checks' results as a map: a field has a message exactly when its check fails,
      and the message is that field's own. */
  lemma ContactErrorsPointwise(f: ContactData)
    ensures forall field :: field in ContactErrors(f) <==> Fails(f, field)
    ensures forall field :: field in ContactErrors(f) ==> ContactErrors(f)[field] == Message(field)
  {
    var b1, b2, b3, b4 := Fails(f, FirstName), Fails(f, LastName), Fails(f, CompanySize), Fails(f, AgreedToReceiveReport);
    ErrorsOfPointwise(b1, b2, b3, b4);
    var e := ErrorsOf(b1, b2, b3, b4);
    forall field ensures field in e <==> Fails(f, field) {
      match field
      case FirstName =>
      case LastName =>
      case CompanySize =>
      case AgreedToReceiveReport =>
      case Phone =>
    }
  }

  /** Each check sets its own message exactly when it fails: a name that is empty or
      white space only, an empty company size (not trimmed), a cleared consent box.
      The phone never gets a message, and the form is accepted exactly when all four
      checks pass. */
  lemma ContactErrorsSpec(f: ContactData)
    ensures FirstName in ContactErrors(f) <==> IsBlank(f.firstName)
    ensures LastName in ContactErrors(f) <==> IsBlank(f.lastName)
    ensures CompanySize in ContactErrors(f) <==> f.companySize == ""
    ensures AgreedToReceiveReport in ContactErrors(f) <==> !f.agreedToReceiveReport
    ensures Phone !in ContactErrors(f)
    ensures FirstName in ContactErrors(f) ==> ContactErrors(f)[FirstName] == FirstNameRequired
    ensures LastName in ContactErrors(f) ==> ContactErrors(f)[LastName] == LastNameRequired
    ensures CompanySize in ContactErrors(f) ==> ContactErrors(f)[CompanySize] == CompanySizeRequired
    ensures AgreedToReceiveReport in ContactErrors(f) ==>
      ContactErrors(f)[AgreedToReceiveReport] == ConsentRequired
    ensures ContactErrors(f) == map[] <==>
      !IsBlank(f.firstName) && !IsBlank(f.lastName) && f.companySize != "" && f.agreedToReceiveReport
  {
    ContactErrorsPointwise(f);
    var e := ContactErrors(f);
    assert Fails(f, FirstName) ==> FirstName in e;
    if !Fails(f, FirstName) && !Fails(f, LastName) && !Fails(f, CompanySize)
      && !Fails(f, AgreedToReceiveReport) {
      assert forall field :: field !in e;
      assert e.Keys == {};
    }
  }

  /** The phone value never affects acceptance. */
  lemma PhoneIgnored(f: ContactData, phone: string)
    ensures ContactErrors(f.(phone := phone)) == ContactErrors(f)
  {
    var g := f.(phone := phone);
    var b1, b2, b3, b4 := Fails(f, FirstName), Fails(f, LastName), Fails(f, CompanySize), Fails(f, AgreedToReceiveReport);
    assert ContactErrors(f) == ErrorsOf(b1, b2, b3, b4);
    assert Fails(g, FirstName) == b1;
    assert Fails(g, LastName) == b2;
    assert Fails(g, CompanySize) == b3;
    assert Fails(g, AgreedToReceiveReport) == b4;
    assert ContactErrors(g) == ErrorsOf(b1, b2, b3, b4);
  }

  /** An accepted contact has non-empty first and last names. */
  lemma AcceptedContactNonEmpty(f: ContactData)
    requires ContactErrors(f) == map[]
    ensures f.firstName != "" && f.lastName != ""
  {
    ContactErrorsSpec(f);
    assert f.firstName == "" ==> IsBlank(f.firstName);
    assert f.lastName == "" ==> IsBlank(f.lastName);
  }

  /** What a change event carries: a text input or select with its name and value, or
      the consent checkbox with its checked state. */
  datatype ContactInput =
    | TextInput(name: ContactField, value: string)
    | CheckboxInput(checked: bool)

  /** Only the consent box is a checkbox; every other input is a text input or select. */
  predicate WellNamed(input: ContactInput) {
    input.TextInput? ==> input.name != AgreedToReceiveReport
  }

  function InputName(input: ContactInput): ContactField {
    match input
    case TextInput(name, _) => name
    case CheckboxInput(_) => AgreedToReceiveReport
  }

  /** `[name]: type === 'checkbox' ? checked : value`: the checkbox stores its checked
      state in the consent field, a text input its value in the field it names, and
      every other field keeps its value. */
  function ApplyInput(f: ContactData, input: ContactInput): (r: ContactData)
    requires WellNamed(input)
    ensures input.CheckboxInput? ==> r.agreedToReceiveReport == input.checked
    ensures input.TextInput? ==> Field(r, input.name) == Some(input.value)
    ensures input.TextInput? ==> r.agreedToReceiveReport == f.agreedToReceiveReport
    ensures forall other :: other != InputName(input) ==> Field(r, other) == Field(f, other)
  {
    match input
    case CheckboxInput(checked) => f.(agreedToReceiveReport := checked)
    case TextInput(name, value) =>
      match name
      case FirstName => f.(firstName := value)
      case LastName => f.(lastName := value)
      case CompanySize => f.(companySize := value)
      case Phone => f.(phone := value)
  }

  predicate HasError(errors: map<ContactField, string>, field: ContactField) {
    field in errors && errors[field] != ""
  }

  function ClearError(errors: map<ContactField, string>, field: ContactField): map<ContactField, string> {
    if HasError(errors, field) then errors[field := ""] else errors
  }

  function Field(f: ContactData, field: ContactField): Option<string> {
    match field
    case FirstName => Some(f.firstName)
    case LastName => Some(f.lastName)
    case CompanySize => Some(f.companySize)
    case Phone => Some(f.phone)
    case AgreedToReceiveReport => None
  }

  /** A change clears the named field's message and leaves every other field's message
      as it was. */
  lemma ChangeIsLocal(errors: map<ContactField, string>, input: ContactInput, other: ContactField)
    requires WellNamed(input) && other != InputName(input)
    ensures !HasError(ClearError(errors, InputName(input)), InputName(input))
    ensures other in errors ==>
      other in ClearError(errors, InputName(input)) && ClearError(errors, InputName(input))[other] == errors[other]
  {
  }

  /** The FinalContact component's state. */
  class FinalContactForm {
    var formData: ContactData
    var errors: map<ContactField, string>

    constructor ()
      ensures formData == ContactData("", "", "", "", false) && errors == map[]
    {
      formData := ContactData("", "", "", "", false);
      errors := map[];
    }

    /** handleSubmit: runs the four checks in order, stores the messages, and hands the
        untrimmed form data to onSubmit (returned here) when there are none. */
    method HandleSubmit() returns (submitted: Option<ContactData>)
      modifies this
      ensures errors == ContactErrors(formData) && formData == old(formData)
      ensures submitted == if errors == map[] then Some(formData) else None
    {
      var f := formData;
      var firstMissing := TrimmedIsEmpty(f.firstName);
      var lastMissing := TrimmedIsEmpty(f.lastName);
      var newErrors: map<ContactField, string> := map[];
      if firstMissing {
        newErrors := newErrors[FirstName := FirstNameRequired];
      }
      if lastMissing {
        newErrors := newErrors[LastName := LastNameRequired];
      }
      if f.companySize == "" {
        newErrors := newErrors[CompanySize := CompanySizeRequired];
      }
      if !f.agreedToReceiveReport {
        newErrors := newErrors[AgreedToReceiveReport := ConsentRequired];
      }
      assert newErrors == ErrorsOf(firstMissing, lastMissing, f.companySize == "", !f.agreedToReceiveReport);
      assert newErrors == ContactErrors(f);
      errors := newErrors;
      if |newErrors| == 0 {
        assert newErrors.Keys == {};
        submitted := Some(f);
      } else {
        submitted := None;
      }
    }

    /** handleChange for one input event. */
    method HandleChange(input: ContactInput)
      requires WellNamed(input)
      modifies this
      ensures formData == ApplyInput(old(formData), input)
      ensures errors == ClearError(old(errors), InputName(input))
    {
      formData := ApplyInput(formData, input);
      var name := InputName(input);
      if HasError(errors, name) {
        errors := errors[name := ""];
      }
    }
  }
}
