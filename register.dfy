/** The registration form's submit: a chain of early-return checks, and the
    arguments handed to the account service when every check passes. */
module Register {
  import opened Wrappers
  import Text

  datatype Gender = Male | Female

  /** The form; the age is the text typed into its field. */
  datatype RegisterForm = RegisterForm(
    email: string, password: string, confirmPassword: string,
    fullName: string, gender: Gender, age: string)

  const InitialForm := RegisterForm("", "", "", "", Male, "")

  /** The four refusals, in the order they are checked. */
  datatype RegisterError = MissingFields | PasswordsDoNotMatch | PasswordTooShort | InvalidAge

  /** The arguments of `register(email, password, fullName, gender, age)`. */
  datatype Registration = Registration(
    email: string, password: string, fullName: string, gender: Gender, age: int)

  const MinPasswordLength := 6
  const MaxAge := 150

  /** Every field the form requires is filled in (the confirmation is not
      one of them). */
  predicate Filled(f: RegisterForm) {
    f.email != "" && f.password != "" && f.fullName != "" && f.age != ""
  }

  /** The age check on the parsed value: `NaN` (here `None`) and values
      outside 0..150 are refused. */
  predicate ValidAge(age: Option<int>) {
    age.Some? && 0 <= age.value <= MaxAge
  }

  /** `handleSubmit`'s checks. Each refusal is reported only when every
      earlier check passed; a form that passes them all yields the call to
      `register`, with the parsed age. */
  function Validate(f: RegisterForm): (r: Result<Registration, RegisterError>)
    ensures r == Err(MissingFields) <==> !Filled(f)
    ensures r == Err(PasswordsDoNotMatch) <==> Filled(f) && f.password != f.confirmPassword
    ensures r == Err(PasswordTooShort) <==>
      Filled(f) && f.password == f.confirmPassword && |f.password| < MinPasswordLength
    ensures r == Err(InvalidAge) <==>
      Filled(f) && f.password == f.confirmPassword && |f.password| >= MinPasswordLength && !ValidAge(Text.ParseInt(f.age))
    ensures r.Ok? ==> r.value == Registration(f.email, f.password, f.fullName, f.gender, Text.ParseInt(f.age).value)
  {
    if !Filled(f) then Err(MissingFields)
    else if f.password != f.confirmPassword then Err(PasswordsDoNotMatch)
    else if |f.password| < MinPasswordLength then Err(PasswordTooShort)
    else
      var age := Text.ParseInt(f.age);
      if !ValidAge(age) then Err(InvalidAge)
      else Ok(Registration(f.email, f.password, f.fullName, f.gender, age.value))
  }

  /** A registration is only ever requested for a filled form with matching
      passwords of at least six characters and an age in 0..150, and it
      carries the form's own email, password, name and gender. */
  lemma AcceptedRegistration(f: RegisterForm)
    requires Validate(f).Ok?
    ensures var reg := Validate(f).value;
      f.email != "" && f.fullName != "" && f.password == f.confirmPassword &&
      |reg.password| >= MinPasswordLength && 0 <= reg.age <= MaxAge &&
      reg.email == f.email && reg.password == f.password && reg.fullName == f.fullName && reg.gender == f.gender
  {
  }

  /** The untouched form is refused for its missing fields. */
  lemma InitialFormIsRefused()
    ensures Validate(InitialForm) == Err(MissingFields)
  {
  }

  /** For an otherwise valid form, an age typed as the decimal numeral of
      `n` is accepted, with value `n`, exactly when `n` is at most 150: both
      bounds are inclusive. */
  lemma AgeBounds(f: RegisterForm, n: nat)
    requires f.email != "" && f.fullName != ""
    requires f.password == f.confirmPassword && |f.password| >= MinPasswordLength
    ensures var g := f.(age := Text.DecimalString(n));
      (n <= MaxAge ==> Validate(g) == Ok(Registration(f.email, f.password, f.fullName, f.gender, n))) &&
      (n > MaxAge ==> Validate(g) == Err(InvalidAge))
  {
    Text.ParseDecimalString(n);
  }

  /** An age text with no digit after the optional sign is `NaN` and refused,
      whatever else the form holds. */
  lemma NonNumericAgeRefused(f: RegisterForm)
    requires Filled(f) && f.password == f.confirmPassword && |f.password| >= MinPasswordLength
    requires Text.ParseInt(f.age).None?
    ensures Validate(f) == Err(InvalidAge)
  {
  }
}
