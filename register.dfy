/**
 * The registration form: the field-by-field validator that builds the error
 * map, the per-field error clear on input, and the submit gate.
 */
module Register {
  import opened Common

  datatype Field =
    | FullName | Email | Password | ConfirmPassword | Phone
    | EmergencyContact | EmergencyPhone | AgreeTerms | AllowLocation

  predicate IsFlagField(f: Field)
  {
    f == AgreeTerms || f == AllowLocation
  }

  /** What an input handler passes: text for the text inputs, a flag for the checkboxes. */
  datatype FieldValue = Text(text: string) | Flag(flag: bool)

  predicate Fits(f: Field, v: FieldValue)
  {
    IsFlagField(f) <==> v.Flag?
  }

  datatype FormData = FormData(
    fullName: string,
    email: string,
    password: string,
    confirmPassword: string,
    phone: string,
    emergencyContact: string,
    emergencyPhone: string,
    agreeTerms: bool,
    allowLocation: bool)

  const EmptyForm: FormData := FormData("", "", "", "", "", "", "", false, false)

  function ReadField(form: FormData, f: Field): (v: FieldValue)
    ensures Fits(f, v)
  {
    match f
    case FullName => Text(form.fullName)
    case Email => Text(form.email)
    case Password => Text(form.password)
    case ConfirmPassword => Text(form.confirmPassword)
    case Phone => Text(form.phone)
    case EmergencyContact => Text(form.emergencyContact)
    case EmergencyPhone => Text(form.emergencyPhone)
    case AgreeTerms => Flag(form.agreeTerms)
    case AllowLocation => Flag(form.allowLocation)
  }

  /** `{ ...prev, [field]: value }`: only the named field changes. */
  function WithField(form: FormData, f: Field, v: FieldValue): (updated: FormData)
    requires Fits(f, v)
    ensures ReadField(updated, f) == v
    ensures forall g :: g != f ==> ReadField(updated, g) == ReadField(form, g)
  {
    match f
    case FullName => form.(fullName := v.text)
    case Email => form.(email := v.text)
    case Password => form.(password := v.text)
    case ConfirmPassword => form.(confirmPassword := v.text)
    case Phone => form.(phone := v.text)
    case EmergencyContact => form.(emergencyContact := v.text)
    case EmergencyPhone => form.(emergencyPhone := v.text)
    case AgreeTerms => form.(agreeTerms := v.flag)
    case AllowLocation => form.(allowLocation := v.flag)
  }

  // ---------------------------------------------------------------------
  // String predicates

  /** The characters JavaScript's `trim` removes and `\s` matches. */
  predicate IsWhitespace(c: char)
  {
    || c == '\t' || c == '\n' || c == '\U{B}' || c == '\U{C}' || c == '\r' || c == ' '
    || c == '\U{A0}' || c == '\U{1680}' || ('\U{2000}' <= c <= '\U{200A}')
    || c == '\U{2028}' || c == '\U{2029}' || c == '\U{202F}' || c == '\U{205F}'
    || c == '\U{3000}' || c == '\U{FEFF}'
  }

  predicate AllWhitespace(s: string)
  {
    forall i :: 0 <= i < |s| ==> IsWhitespace(s[i])
  }

  function TrimStart(s: string): (r: string)
    ensures |r| <= |s|
  {
    if s != [] && IsWhitespace(s[0]) then TrimStart(s[1..]) else s
  }

  function TrimEnd(s: string): (r: string)
    ensures |r| <= |s|
  {
    if s != [] && IsWhitespace(s[|s| - 1]) then TrimEnd(s[..|s| - 1]) else s
  }

  /** `trim`. */
  function Trim(s: string): (r: string)
    ensures |r| <= |s|
  {
    TrimEnd(TrimStart(s))
  }

  /** `TrimStart` drops exactly the leading whitespace. */
  lemma {:induction false} TrimStartSpec(s: string)
    ensures var r := TrimStart(s);
      && r == s[|s| - |r|..] && AllWhitespace(s[..|s| - |r|])
      && (r == [] <==> AllWhitespace(s))
      && (r != [] ==> !IsWhitespace(r[0]))
    decreases |s|
  {
    if s != [] && IsWhitespace(s[0]) {
      TrimStartSpec(s[1..]);
      var r := TrimStart(s[1..]);
      assert s[1..][|s| - 1 - |r|..] == s[|s| - |r|..];
      assert s[..|s| - |r|] == [s[0]] + s[1..][..|s| - 1 - |r|];
    }
  }

  /** `TrimEnd` drops exactly the trailing whitespace. */
  lemma {:induction false} TrimEndSpec(s: string)
    ensures var r := TrimEnd(s);
      && r == s[..|r|] && AllWhitespace(s[|r|..])
      && (r == [] <==> AllWhitespace(s))
      && (r != [] ==> !IsWhitespace(r[|r| - 1]))
    decreases |s|
  {
    if s != [] && IsWhitespace(s[|s| - 1]) {
      var front := s[..|s| - 1];
      TrimEndSpec(front);
      var r := TrimEnd(front);
      assert front[..|r|] == s[..|r|];
      assert s[|r|..] == front[|r|..] + [s[|s| - 1]];
    }
  }

  /** `r` is `s` with the whitespace prefix `s[..i]` and a whitespace suffix removed. */
  predicate TrimmedAt(s: string, r: string, i: nat)
  {
    i + |r| <= |s| && r == s[i..i + |r|] && AllWhitespace(s[..i]) && AllWhitespace(s[i + |r|..])
  }

  /** `trim` gives "" exactly for all-whitespace input, and otherwise starts and ends on a non-space. */
  lemma TrimSpec(s: string)
    ensures Trim(s) == [] <==> AllWhitespace(s)
    ensures Trim(s) != [] ==> !IsWhitespace(Trim(s)[0]) && !IsWhitespace(Trim(s)[|Trim(s)| - 1])
  {
    var front := TrimStart(s);
    TrimStartSpec(s);
    TrimEndSpec(front);
    var r := TrimEnd(front);
    if front != [] {
      assert !AllWhitespace(front) by {
        assert !IsWhitespace(front[0]);
      }
      assert r[0] == front[0];
    }
  }

  /** `trim` removes a whitespace prefix and a whitespace suffix and keeps what lies between. */
  lemma TrimShape(s: string)
    ensures TrimmedAt(s, Trim(s), |s| - |TrimStart(s)|)
  {
    var front := TrimStart(s);
    TrimStartSpec(s);
    TrimEndSpec(front);
    var r := TrimEnd(front);
    var i := |s| - |front|;
    assert s[i..i + |r|] == front[..|r|];
    assert s[i + |r|..] == front[|r|..];
  }

  /**
   * What `/\S+@\S+\.\S+/` finds somewhere in `s`: a run without whitespace
   * made of at least one character, `@`, at least one character, `.`, and at
   * least one character.
   */
  ghost predicate MatchesEmailPattern(s: string)
  {
    exists at, dot :: EmailMatchAt(s, at, dot)
  }

  /** The pattern matches with its `@` at `at` and its `.` at `dot`. */
  ghost predicate EmailMatchAt(s: string, at: int, dot: int)
  {
    && 1 <= at && at + 2 <= dot && dot + 1 < |s| && s[at] == '@' && s[dot] == '.'
    && forall k :: at - 1 <= k <= dot + 1 ==> !IsWhitespace(s[k])
  }

  /** A whitespace-free run from `k` reaching a `.` at `dot` followed by one more such character. */
  ghost predicate DotRunAt(s: string, k: int, dot: int)
  {
    && 0 <= k <= dot && dot + 1 < |s| && s[dot] == '.'
    && forall m :: k <= m <= dot + 1 ==> !IsWhitespace(s[m])
  }

  /** Scan for such a run from `k` on. */
  function DotRunFrom(s: string, k: nat): (found: bool)
    decreases |s| - k
  {
    if k + 1 >= |s| then false
    else if IsWhitespace(s[k]) then false
    else if s[k] == '.' && !IsWhitespace(s[k + 1]) then true
    else DotRunFrom(s, k + 1)
  }

  lemma {:induction false} DotRunFromSpec(s: string, k: nat)
    ensures DotRunFrom(s, k) <==> exists dot :: DotRunAt(s, k, dot)
    decreases |s| - k
  {
    if k + 1 >= |s| {
    } else if IsWhitespace(s[k]) {
    } else if s[k] == '.' && !IsWhitespace(s[k + 1]) {
      assert DotRunAt(s, k, k);
    } else {
      DotRunFromSpec(s, k + 1);
      if exists dot :: DotRunAt(s, k, dot) {
        var dot :| DotRunAt(s, k, dot);
        assert dot != k;
        assert DotRunAt(s, k + 1, dot);
      }
      var next := k + 1;
      if exists dot :: DotRunAt(s, next, dot) {
        var dot :| DotRunAt(s, next, dot);
        assert DotRunAt(s, k, dot);
      }
    }
  }

  /** Scan for a match whose `@` is at position `j` or later. */
  function AtFrom(s: string, j: nat): (found: bool)
    decreases |s| - j
  {
    if j >= |s| then false
    else
      var here := 1 <= j && j + 1 < |s| && s[j] == '@' && !IsWhitespace(s[j - 1]) && !IsWhitespace(s[j + 1])
                  && DotRunFrom(s, j + 2);
      here || AtFrom(s, j + 1)
  }

  lemma {:induction false} AtFromSpec(s: string, j: nat)
    ensures AtFrom(s, j) <==> exists at, dot :: j <= at && EmailMatchAt(s, at, dot)
    decreases |s| - j
  {
    if j < |s| {
      AtFromSpec(s, j + 1);
      if 1 <= j && j + 2 < |s| {
        DotRunFromSpec(s, j + 2);
      }
      if exists at, dot :: j <= at && EmailMatchAt(s, at, dot) {
        var at, dot :| j <= at && EmailMatchAt(s, at, dot);
        if at == j {
          assert DotRunAt(s, j + 2, dot);
        } else {
          assert j + 1 <= at;
        }
      }
      if 1 <= j && j + 1 < |s| && s[j] == '@' && !IsWhitespace(s[j - 1]) && !IsWhitespace(s[j + 1])
         && DotRunFrom(s, j + 2) {
        var dot :| DotRunAt(s, j + 2, dot);
        assert EmailMatchAt(s, j, dot);
      }
    }
  }

  /** The regular-expression test of the email field. */
  function EmailLooksValid(s: string): (ok: bool)
  {
    AtFrom(s, 0)
  }

  /** The scan agrees with the pattern. */
  lemma EmailLooksValidSpec(s: string)
    ensures EmailLooksValid(s) <==> MatchesEmailPattern(s)
  {
    AtFromSpec(s, 0);
  }

  // ---------------------------------------------------------------------
  // The validator

  const FullNameRequired: string := "Full name is required"
  const EmailRequired: string := "Email is required"
  const EmailInvalid: string := "Please enter a valid email"
  const PhoneRequired: string := "Phone number is required"
  const PasswordRequired: string := "Password is required"
  const PasswordTooShort: string := "Password must be at least 6 characters"
  const PasswordsDiffer: string := "Passwords do not match"
  const EmergencyContactRequired: string := "Emergency contact name is required"
  const EmergencyPhoneRequired: string := "Emergency contact phone is required"
  const TermsRequired: string := "You must agree to the terms and conditions"
  const LocationRequired: string := "Location access is required for safety monitoring"

  const MinPasswordLength: nat := 6

  /** The error one field gets, if any: the `if` of that field in `validateForm`. */
  function FieldError(form: FormData, f: Field): (err: Option<string>)
  {
    match f
    case FullName => if Trim(form.fullName) == "" then Some(FullNameRequired) else None
    case Email =>
      if Trim(form.email) == "" then Some(EmailRequired)
      else if !EmailLooksValid(form.email) then Some(EmailInvalid)
      else None
    case Phone => if Trim(form.phone) == "" then Some(PhoneRequired) else None
    case Password =>
      if form.password == "" then Some(PasswordRequired)
      else if |form.password| < MinPasswordLength then Some(PasswordTooShort)
      else None
    case ConfirmPassword => if form.password != form.confirmPassword then Some(PasswordsDiffer) else None
    case EmergencyContact => if Trim(form.emergencyContact) == "" then Some(EmergencyContactRequired) else None
    case EmergencyPhone => if Trim(form.emergencyPhone) == "" then Some(EmergencyPhoneRequired) else None
    case AgreeTerms => if !form.agreeTerms then Some(TermsRequired) else None
    case AllowLocation => if !form.allowLocation then Some(LocationRequired) else None
  }

  /** Each field's error, stated against the rule it checks rather than the code that checks it. */
  lemma ValidationRules(form: FormData)
    ensures FieldError(form, FullName) == if AllWhitespace(form.fullName) then Some(FullNameRequired) else None
    ensures FieldError(form, Phone) == if AllWhitespace(form.phone) then Some(PhoneRequired) else None
    ensures FieldError(form, EmergencyContact)
         == if AllWhitespace(form.emergencyContact) then Some(EmergencyContactRequired) else None
    ensures FieldError(form, EmergencyPhone)
         == if AllWhitespace(form.emergencyPhone) then Some(EmergencyPhoneRequired) else None
    ensures FieldError(form, Email) == Some(EmailRequired) <==> AllWhitespace(form.email)
    ensures FieldError(form, Email) == Some(EmailInvalid)
        <==> !AllWhitespace(form.email) && !MatchesEmailPattern(form.email)
    ensures FieldError(form, Email) == None <==> !AllWhitespace(form.email) && MatchesEmailPattern(form.email)
    ensures FieldError(form, Password) == Some(PasswordRequired) <==> form.password == ""
    ensures FieldError(form, Password) == Some(PasswordTooShort) <==> 0 < |form.password| < MinPasswordLength
    ensures FieldError(form, Password) == None <==> |form.password| >= MinPasswordLength
    ensures FieldError(form, ConfirmPassword)
         == if form.password != form.confirmPassword then Some(PasswordsDiffer) else None
    ensures FieldError(form, AgreeTerms) == if form.agreeTerms then None else Some(TermsRequired)
    ensures FieldError(form, AllowLocation) == if form.allowLocation then None else Some(LocationRequired)
  {
    TrimSpec(form.fullName);
    TrimSpec(form.email);
    TrimSpec(form.phone);
    TrimSpec(form.emergencyContact);
    TrimSpec(form.emergencyPhone);
    EmailLooksValidSpec(form.email);
  }

  /** The fields whose rules `form` breaks. */
  predicate ErrorsDescribe(form: FormData, errors: map<Field, string>)
  {
    forall f :: (f in errors <==> FieldError(form, f).Some?) && (f in errors ==> errors[f] == FieldError(form, f).value)
  }

  /** The position of each field's check in `validateForm`. */
  function CheckOrder(f: Field): (n: nat)
    ensures n < 9
  {
    match f
    case FullName => 0
    case Email => 1
    case Phone => 2
    case Password => 3
    case ConfirmPassword => 4
    case EmergencyContact => 5
    case EmergencyPhone => 6
    case AgreeTerms => 7
    case AllowLocation => 8
  }

  /** The field checked at each position of `validateForm`. */
  function FieldAt(n: nat): (f: Field)
    requires n < 9
    ensures CheckOrder(f) == n
  {
    match n
    case 0 => FullName
    case 1 => Email
    case 2 => Phone
    case 3 => Password
    case 4 => ConfirmPassword
    case 5 => EmergencyContact
    case 6 => EmergencyPhone
    case 7 => AgreeTerms
    case _ => AllowLocation
  }

  /** The error map once the first `done` checks have run. */
  function ErrorsUpTo(form: FormData, done: nat): (errors: map<Field, string>)
    requires done <= 9
  {
    if done == 0 then map[]
    else
      var f := FieldAt(done - 1);
      var before := ErrorsUpTo(form, done - 1);
      match FieldError(form, f)
      case Some(message) => before[f := message]
      case None => before
  }

  /** After `done` checks the map holds exactly the errors of the fields checked so far. */
  lemma {:induction false} ErrorsUpToSpec(form: FormData, done: nat)
    requires done <= 9
    ensures forall f :: f in ErrorsUpTo(form, done) <==> CheckOrder(f) < done && FieldError(form, f).Some?
    ensures forall f :: f in ErrorsUpTo(form, done) ==> ErrorsUpTo(form, done)[f] == FieldError(form, f).value
  {
    if done > 0 {
      ErrorsUpToSpec(form, done - 1);
    }
  }

  /** Two equal passwords, even two empty ones, never give the mismatch error. */
  lemma EqualPasswordsNoMismatch(form: FormData)
    requires form.password == form.confirmPassword
    ensures FieldError(form, ConfirmPassword) == None
    ensures form.password == "" ==> FieldError(form, Password) == Some(PasswordRequired)
  {
  }

  /**
   * One `if` of `validateForm`: record the error of field `f`, if it has one,
   * in the map built so far.
   */
  method CheckField(form: FormData, f: Field, errors: map<Field, string>) returns (updated: map<Field, string>)
    requires errors == ErrorsUpTo(form, CheckOrder(f))
    ensures updated == ErrorsUpTo(form, CheckOrder(f) + 1)
  {
    updated := errors;
    match f
    case FullName =>
      if Trim(form.fullName) == "" {
        updated := updated[FullName := FullNameRequired];
      }
    case Email =>
      if Trim(form.email) == "" {
        updated := updated[Email := EmailRequired];
      } else if !EmailLooksValid(form.email) {
        updated := updated[Email := EmailInvalid];
      }
    case Phone =>
      if Trim(form.phone) == "" {
        updated := updated[Phone := PhoneRequired];
      }
    case Password =>
      if form.password == "" {
        updated := updated[Password := PasswordRequired];
      } else if |form.password| < MinPasswordLength {
        updated := updated[Password := PasswordTooShort];
      }
    case ConfirmPassword =>
      if form.password != form.confirmPassword {
        updated := updated[ConfirmPassword := PasswordsDiffer];
      }
    case EmergencyContact =>
      if Trim(form.emergencyContact) == "" {
        updated := updated[EmergencyContact := EmergencyContactRequired];
      }
    case EmergencyPhone =>
      if Trim(form.emergencyPhone) == "" {
        updated := updated[EmergencyPhone := EmergencyPhoneRequired];
      }
    case AgreeTerms =>
      if !form.agreeTerms {
        updated := updated[AgreeTerms := TermsRequired];
      }
    case AllowLocation =>
      if !form.allowLocation {
        updated := updated[AllowLocation := LocationRequired];
      }
  }

  /**
   * The body of `validateForm`: start from an empty map and run the checks in
   * the order of the form.
   */
  method BuildErrors(form: FormData) returns (newErrors: map<Field, string>)
    ensures ErrorsDescribe(form, newErrors)
  {
    newErrors := map[];
    newErrors := CheckField(form, FullName, newErrors);
    newErrors := CheckField(form, Email, newErrors);
    newErrors := CheckField(form, Phone, newErrors);
    newErrors := CheckField(form, Password, newErrors);
    newErrors := CheckField(form, ConfirmPassword, newErrors);
    newErrors := CheckField(form, EmergencyContact, newErrors);
    newErrors := CheckField(form, EmergencyPhone, newErrors);
    newErrors := CheckField(form, AgreeTerms, newErrors);
    newErrors := CheckField(form, AllowLocation, newErrors);
    ErrorsUpToSpec(form, 9);
  }

  /** `handleInputChange`'s error part: a non-empty error on the field becomes "", its key stays. */
  function ClearFieldError(errors: map<Field, string>, f: Field): (cleared: map<Field, string>)
    ensures cleared.Keys == errors.Keys
    ensures forall g :: g in errors && g != f ==> cleared[g] == errors[g]
    ensures f in errors ==> cleared[f] == ""
  {
    if f in errors && errors[f] != "" then errors[f := ""] else errors
  }

  /** Clearing an error never hides the banner, which looks only at the number of keys. */
  lemma ClearKeepsBanner(errors: map<Field, string>, f: Field)
    requires |errors| > 0
    ensures |ClearFieldError(errors, f)| > 0
  {
    assert ClearFieldError(errors, f).Keys == errors.Keys;
  }

  class RegisterPage {
    var formData: FormData
    var errors: map<Field, string>
    var isLoading: bool

    constructor ()
      ensures formData == EmptyForm && errors == map[] && !isLoading
    {
      formData := EmptyForm;
      errors := map[];
      isLoading := false;
    }

    /** The error banner is shown while the map has any key, even one mapped to "". */
    function BannerShown(): bool
      reads this
    {
      |errors| > 0
    }

    /** Replace the whole error map; the form passes when no rule is broken. */
    method ValidateForm() returns (ok: bool)
      modifies this`errors
      ensures ErrorsDescribe(formData, errors)
      ensures ok <==> errors == map[]
      ensures ok <==> forall f :: FieldError(formData, f) == None
    {
      var newErrors := BuildErrors(formData);
      errors := newErrors;
      ok := |newErrors| == 0;
      if !ok {
        var f :| f in newErrors;
      }
    }

    /** Submitting: a failed validation returns before the loading flag is set. */
    method HandleSubmit() returns (submitted: bool)
      modifies this`errors, this`isLoading
      ensures ErrorsDescribe(formData, errors)
      ensures submitted <==> errors == map[]
      ensures submitted ==> isLoading
      ensures !submitted ==> isLoading == old(isLoading)
    {
      submitted := ValidateForm();
      if !submitted {
        return;
      }
      isLoading := true;
    }

    method HandleInputChange(f: Field, v: FieldValue)
      requires Fits(f, v)
      modifies this`formData, this`errors
      ensures formData == WithField(old(formData), f, v)
      ensures errors == ClearFieldError(old(errors), f)
      ensures old(BannerShown()) ==> BannerShown()
    {
      var previous := errors;
      formData := WithField(formData, f, v);
      if f in errors && errors[f] != "" {
        errors := errors[f := ""];
      }
      if |previous| > 0 {
        ClearKeepsBanner(previous, f);
      }
    }
  }
}
