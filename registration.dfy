/** The registration form (client/src/components/UserRegistration.js): the
    age computed from the date of birth, the per-field validation, the
    submit handler with its consent check, and the field editor. Dates are
    (year, month, day) triples already read from the date input and the
    clock; the date-of-birth text itself is kept for the registered details. */
module Registration {
  import opened Wrappers
  import opened Text
  import opened Conversation

  /** A calendar date as `getFullYear`, `getMonth` and `getDate` give it. */
  datatype Date = Date(year: int, month: int, day: int)

  /** The three inputs of the form. */
  datatype Field = FirstName | LastName | DateOfBirth

  /** `formData`. */
  datatype FormData = FormData(firstName: string, lastName: string, dateOfBirth: string)

  const TooYoung := "You must be at least 13 years old to use this service"
  const ImplausibleAge := "Please enter a valid date of birth"
  const DobRequired := "Date of birth is required"
  const ConsentMissing := "You must accept the privacy policy."

  /** The message for a missing name. */
  function NameRequired(f: Field): string {
    if f == FirstName then "First name is required" else "Last name is required"
  }

  /** The message for a one-character name. */
  function NameTooShort(f: Field): string {
    if f == FirstName then "First name must be at least 2 characters" else "Last name must be at least 2 characters"
  }

  /** `calculateAge`: the difference of the years, one less when today's
      (month, day) comes before the birthday's. */
  function CalculateAge(today: Date, birth: Date): int {
    var monthDiff := today.month - birth.month;
    var age := today.year - birth.year;
    if monthDiff < 0 || (monthDiff == 0 && today.day < birth.day) then age - 1 else age
  }

  /** Calendar order: by year, then month, then day. */
  predicate NotAfter(a: Date, b: Date) {
    a.year < b.year || (a.year == b.year && (a.month < b.month || (a.month == b.month && a.day <= b.day)))
  }

  /** The `n`-th birthday. */
  function Anniversary(birth: Date, n: int): Date {
    Date(birth.year + n, birth.month, birth.day)
  }

  /** The age is the number of birthdays reached: the `age`-th birthday is
      not after today and the next one is. */
  lemma AgeCountsBirthdays(today: Date, birth: Date)
    ensures NotAfter(Anniversary(birth, CalculateAge(today, birth)), today)
    ensures !NotAfter(Anniversary(birth, CalculateAge(today, birth) + 1), today)
  {
  }

  /** Only one number has that property, so it defines the age. */
  lemma AgeIsUnique(today: Date, birth: Date, n: int)
    requires NotAfter(Anniversary(birth, n), today) && !NotAfter(Anniversary(birth, n + 1), today)
    ensures n == CalculateAge(today, birth)
  {
    AgeCountsBirthdays(today, birth);
  }

  /** The error for one name field, if any: missing when its trimmed form is
      empty, too short when that has one character. */
  function NameError(f: Field, name: string): Option<string> {
    if Trim(name) == [] then Some(NameRequired(f))
    else if |Trim(name)| < 2 then Some(NameTooShort(f))
    else None
  }

  /** The error for the date of birth, if any, given the age it yields. */
  function DobError(dob: string, age: int): Option<string> {
    if dob == "" then Some(DobRequired)
    else if age < 13 then Some(TooYoung)
    else if age > 120 then Some(ImplausibleAge)
    else None
  }

  /** The `errors` object: one optional entry per field (an absent key is `None`). */
  datatype Errors = Errors(firstName: Option<string>, lastName: Option<string>, dateOfBirth: Option<string>)

  /** `{}`. */
  const NoErrors := Errors(None, None, None)

  /** `errors[f]`, when the key is present. */
  function ErrorOf(e: Errors, f: Field): Option<string> {
    match f
    case FirstName => e.firstName
    case LastName => e.lastName
    case DateOfBirth => e.dateOfBirth
  }

  /** `errors[f] = message`. */
  function WithError(e: Errors, f: Field, message: string): Errors {
    match f
    case FirstName => e.(firstName := Some(message))
    case LastName => e.(lastName := Some(message))
    case DateOfBirth => e.(dateOfBirth := Some(message))
  }

  /** `Object.keys(errors).length`. */
  function KeyCount(e: Errors): nat {
    (if e.firstName.Some? then 1 else 0) + (if e.lastName.Some? then 1 else 0)
      + (if e.dateOfBirth.Some? then 1 else 0)
  }

  /** The error object `validateForm` builds: a key for exactly the fields
      with an error. */
  function FormErrors(form: FormData, today: Date, birth: Date): Errors {
    Errors(NameError(FirstName, form.firstName), NameError(LastName, form.lastName),
           DobError(form.dateOfBirth, CalculateAge(today, birth)))
  }

  /** Setting an entry changes that entry and no other. */
  lemma WithErrorChangesOnlyThatField(e: Errors, f: Field, message: string, g: Field)
    ensures ErrorOf(WithError(e, f, message), g) == if g == f then Some(message) else ErrorOf(e, g)
  {
  }

  /** No keys means no entries at all. */
  lemma KeyCountZero(e: Errors)
    ensures KeyCount(e) == 0 <==> e == NoErrors
    ensures KeyCount(e) <= 3
  {
  }

  /** A name passes exactly when its trimmed form has at least two
      characters; otherwise the message says which rule it broke. */
  lemma NameErrorCases(f: Field, name: string)
    ensures NameError(f, name).None? <==> |Trim(name)| >= 2
    ensures NameError(f, name) == Some(NameRequired(f)) <==> Trim(name) == []
    ensures NameError(f, name) == Some(NameTooShort(f)) <==> |Trim(name)| == 1
  {
    assert NameRequired(f) != NameTooShort(f) by {
      assert |NameRequired(f)| < |NameTooShort(f)|;
    }
  }

  /** A filled-in date passes exactly for ages 13 to 120: 12 and 121 fail,
      13 and 120 pass. */
  lemma DobErrorCases(dob: string, age: int)
    ensures DobError("", age) == Some(DobRequired)
    ensures dob != "" ==> (DobError(dob, age).None? <==> 13 <= age <= 120)
    ensures dob != "" && age < 13 ==> DobError(dob, age) == Some(TooYoung)
    ensures dob != "" && age > 120 ==> DobError(dob, age) == Some(ImplausibleAge)
  {
  }

  /** The form is valid (its error object has no keys) exactly when both
      trimmed names have two characters or more and the date is filled in
      with an age from 13 to 120. */
  lemma FormValidIff(form: FormData, today: Date, birth: Date)
    ensures KeyCount(FormErrors(form, today, birth)) == 0 <==>
      |Trim(form.firstName)| >= 2 && |Trim(form.lastName)| >= 2 &&
      form.dateOfBirth != "" && 13 <= CalculateAge(today, birth) <= 120
  {
    NameErrorCases(FirstName, form.firstName);
    NameErrorCases(LastName, form.lastName);
    DobErrorCases(form.dateOfBirth, CalculateAge(today, birth));
  }

  /** The details handed to `onRegister`: the names as typed, untrimmed,
      the date text, the age, and the two names joined by one space. */
  function Details(form: FormData, age: int): UserDetails {
    UserDetails(form.firstName, form.lastName, form.dateOfBirth, age,
                form.firstName + " " + form.lastName)
  }

  /** The full name gives back both names: the first name, one space, the last name. */
  lemma FullNameParts(form: FormData, age: int)
    ensures var full := Details(form, age).fullName;
      && |full| == |form.firstName| + 1 + |form.lastName|
      && full[..|form.firstName|] == form.firstName
      && full[|form.firstName|] == ' '
      && full[|form.firstName| + 1..] == form.lastName
  {
    var full := Details(form, age).fullName;
    assert full == form.firstName + " " + form.lastName;
    assert full[|form.firstName| + 1..] == form.lastName;
  }

  /** The value of one field. */
  function Get(form: FormData, f: Field): string {
    match f
    case FirstName => form.firstName
    case LastName => form.lastName
    case DateOfBirth => form.dateOfBirth
  }

  /** `{...prev, [name]: value}`. */
  function Set(form: FormData, f: Field, value: string): FormData {
    match f
    case FirstName => form.(firstName := value)
    case LastName => form.(lastName := value)
    case DateOfBirth => form.(dateOfBirth := value)
  }

  /** Setting a field changes that field and no other. */
  lemma SetChangesOnlyThatField(form: FormData, f: Field, value: string, g: Field)
    ensures Get(Set(form, f, value), g) == if g == f then value else Get(form, g)
  {
  }

  /** The form component's state. */
  class RegistrationForm {
    var formData: FormData
    var errors: Errors
    var isSubmitting: bool
    var acceptPrivacy: bool
    var privacyError: string

    /** Empty fields, no errors, not submitting, consent unchecked. */
    constructor ()
      ensures formData == FormData("", "", "") && errors == NoErrors
      ensures !isSubmitting && !acceptPrivacy && privacyError == ""
    {
      formData := FormData("", "", "");
      errors := NoErrors;
      isSubmitting := false;
      acceptPrivacy := false;
      privacyError := "";
    }

    /** `validateForm`: fills a fresh error object field by field, stores
        it, and reports whether it has no keys. */
    method ValidateForm(today: Date, birth: Date) returns (ok: bool)
      modifies this
      ensures errors == FormErrors(formData, today, birth)
      ensures ok <==> KeyCount(errors) == 0
      ensures formData == old(formData) && isSubmitting == old(isSubmitting)
      ensures acceptPrivacy == old(acceptPrivacy) && privacyError == old(privacyError)
    {
      var form := formData;
      var newErrors := NoErrors;
      if Trim(form.firstName) == [] {
        newErrors := WithError(newErrors, FirstName, NameRequired(FirstName));
      } else if |Trim(form.firstName)| < 2 {
        newErrors := WithError(newErrors, FirstName, NameTooShort(FirstName));
      }
      assert newErrors == NoErrors.(firstName := NameError(FirstName, form.firstName));
      if Trim(form.lastName) == [] {
        newErrors := WithError(newErrors, LastName, NameRequired(LastName));
      } else if |Trim(form.lastName)| < 2 {
        newErrors := WithError(newErrors, LastName, NameTooShort(LastName));
      }
      assert newErrors.lastName == NameError(LastName, form.lastName);
      if form.dateOfBirth == "" {
        newErrors := WithError(newErrors, DateOfBirth, DobRequired);
      } else {
        var age := CalculateAge(today, birth);
        if age < 13 {
          newErrors := WithError(newErrors, DateOfBirth, TooYoung);
        } else if age > 120 {
          newErrors := WithError(newErrors, DateOfBirth, ImplausibleAge);
        }
      }
      errors := newErrors;
      ok := KeyCount(newErrors) == 0;
    }

    /** `handleSubmit`: validation first; then the consent check; then the
        details are handed to `onRegister` (the returned value) and
        `isSubmitting` is false again, whether `onRegister` returned or threw. */
    method HandleSubmit(today: Date, birth: Date) returns (registered: Option<UserDetails>)
      modifies this
      ensures errors == FormErrors(old(formData), today, birth)
      ensures registered.Some? <==> KeyCount(errors) == 0 && old(acceptPrivacy)
      ensures registered.Some? ==> registered.value == Details(old(formData), CalculateAge(today, birth))
      ensures privacyError == if KeyCount(errors) != 0 then old(privacyError)
                              else if !old(acceptPrivacy) then ConsentMissing else ""
      ensures isSubmitting == if registered.Some? then false else old(isSubmitting)
      ensures formData == old(formData) && acceptPrivacy == old(acceptPrivacy)
    {
      registered := None;
      var valid := ValidateForm(today, birth);
      if !valid {
        return;
      }
      if !acceptPrivacy {
        privacyError := ConsentMissing;
        return;
      }
      privacyError := "";
      isSubmitting := true;
      var age := CalculateAge(today, birth);
      registered := Some(Details(formData, age));
      isSubmitting := false;
    }

    /** `handleInputChange`: stores the value in the named field and clears
        that field's error when it is shown (a non-empty entry); nothing
        else changes. */
    method HandleInputChange(name: Field, value: string)
      modifies this
      ensures formData == Set(old(formData), name, value)
      ensures errors == if ErrorOf(old(errors), name).Some? && ErrorOf(old(errors), name).value != ""
                        then WithError(old(errors), name, "") else old(errors)
      ensures isSubmitting == old(isSubmitting) && acceptPrivacy == old(acceptPrivacy)
      ensures privacyError == old(privacyError)
    {
      formData := Set(formData, name, value);
      var shown := ErrorOf(errors, name);
      if shown.Some? && shown.value != "" {
        errors := WithError(errors, name, "");
      }
    }

    /** The consent checkbox's `onChange`. */
    method SetAcceptPrivacy(checked: bool)
      modifies this
      ensures acceptPrivacy == checked
      ensures formData == old(formData) && errors == old(errors)
      ensures isSubmitting == old(isSubmitting) && privacyError == old(privacyError)
    {
      acceptPrivacy := checked;
    }
  }
}
