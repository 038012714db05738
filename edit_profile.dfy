/** The profile form of `app/EditProfile.js`: the required-field and email checks of
    `validateForm`, field edits, the guarded update request and the save button. */
module EditProfile {
  import opened JsCore

  const FullNameRequired := "Full name is required"
  const EmailRequired := "Email is required"
  const EmailInvalid := "Please enter a valid email"
  const FetchFallback := "Failed to fetch profile data"
  const UpdateFallback := "Failed to update profile"

  datatype ProfileData = ProfileData(fullName: string, email: string, mobile: string)

  datatype ProfileField = FullName | Email | Mobile

  /** The `formErrors` object; `None` is a key that is absent (no error). */
  datatype FormErrors = FormErrors(fullName: Option<string>, email: Option<string>)

  /** The body of the profile update request: the two editable fields and nothing else. */
  datatype UpdateBody = UpdateBody(fullName: string, email: string)

  // ---------------------------------------------------------------------------
  // The email pattern /^[^\s@]+@[^\s@]+\.[^\s@]+$/

  /** A character of the class `[^\s@]`. */
  predicate EmailChar(c: char) {
    !IsSpace(c) && c != '@'
  }

  /** A match of `[^\s@]+`. */
  predicate EmailRun(s: string) {
    |s| > 0 && forall i :: 0 <= i < |s| ==> EmailChar(s[i])
  }

  /** `s` splits as a run, `@` at index `i`, a run, `.` at index `j`, a run. */
  ghost predicate PatternSplit(s: string, i: int, j: int) {
    && 0 < i && i + 1 < j && j + 1 < |s| && s[i] == '@' && s[j] == '.'
    && EmailRun(s[..i]) && EmailRun(s[i + 1..j]) && EmailRun(s[j + 1..])
  }

  /** The regular expression, read as a decomposition of the whole string. */
  ghost predicate MatchesEmailPattern(s: string) {
    exists i, j :: PatternSplit(s, i, j)
  }

  /** The first index of `c` in `s`, or -1. */
  function IndexOf(s: string, c: char): (k: int)
    ensures -1 <= k < |s|
  {
    IndexFrom(s, c, 0)
  }

  /** The first index of `c` in `s` at or after `from`, or -1. */
  function IndexFrom(s: string, c: char, from: nat): (k: int)
    requires from <= |s|
    ensures k == -1 || from <= k < |s|
    decreases |s| - from
  {
    if from == |s| then -1
    else if s[from] == c then from
    else IndexFrom(s, c, from + 1)
  }

  /** `IndexFrom` finds the first occurrence at or after `from`, and -1 means there is none. */
  lemma {:induction false} IndexFromFindsFirst(s: string, c: char, from: nat)
    requires from <= |s|
    ensures var k := IndexFrom(s, c, from);
      && (k >= 0 ==> s[k] == c && forall i :: from <= i < k ==> s[i] != c)
      && (k < 0 ==> forall i :: from <= i < |s| ==> s[i] != c)
    decreases |s| - from
  {
    if from < |s| && s[from] != c {
      IndexFromFindsFirst(s, c, from + 1);
    }
  }

  /** `IndexOf` finds the first occurrence, and -1 means there is none. */
  lemma IndexOfFindsFirst(s: string, c: char)
    ensures var k := IndexOf(s, c);
      && (k >= 0 ==> s[k] == c && forall i :: 0 <= i < k ==> s[i] != c)
      && (k < 0 ==> forall i :: 0 <= i < |s| ==> s[i] != c)
  {
    IndexFromFindsFirst(s, c, 0);
  }

  /** The email check, character by character: no whitespace, exactly one `@` with
      something before it, and after it a domain with a dot that is neither its first
      nor its last character. */
  predicate IsValidEmail(s: string) {
    var at := IndexOf(s, '@');
    && (forall i :: 0 <= i < |s| ==> !IsSpace(s[i]))
    && at > 0
    && var domain := s[at + 1..];
    && IndexOf(domain, '@') < 0
    && |domain| >= 3
    && IndexOf(domain[1..|domain| - 1], '.') >= 0
  }

  /** A non-empty slice of email characters is a run. */
  lemma SliceIsRun(s: string, lo: int, hi: int)
    requires 0 <= lo < hi <= |s|
    requires forall m :: lo <= m < hi ==> EmailChar(s[m])
    ensures EmailRun(s[lo..hi])
  {
    assert forall m :: 0 <= m < hi - lo ==> s[lo..hi][m] == s[lo + m];
  }

  /** In a string that passes the check, every character but the first `@` is an email character. */
  lemma CheckedEmailChars(s: string)
    requires IsValidEmail(s)
    ensures forall m :: 0 <= m < |s| && m != IndexOf(s, '@') ==> EmailChar(s[m])
  {
    var i := IndexOf(s, '@');
    var domain := s[i + 1..];
    IndexOfFindsFirst(s, '@');
    IndexOfFindsFirst(domain, '@');
    forall m | 0 <= m < |s| && m != i
      ensures s[m] != '@'
    {
      if m > i {
        assert s[m] == domain[m - i - 1];
      }
    }
  }

  /** The character-level check implies a match of the pattern. */
  lemma {:induction false} CheckedEmailMatches(s: string)
    requires IsValidEmail(s)
    ensures MatchesEmailPattern(s)
  {
    var i := IndexOf(s, '@');
    IndexOfFindsFirst(s, '@');
    var domain := s[i + 1..];
    var inner := domain[1..|domain| - 1];
    var k := IndexOf(inner, '.');
    IndexOfFindsFirst(inner, '.');
    var j := i + 2 + k;
    assert s[j] == '.' by {
      assert inner[k] == domain[k + 1];
      assert domain[k + 1] == s[j];
    }
    CheckedEmailChars(s);
    SliceIsRun(s, 0, i);
    SliceIsRun(s, i + 1, j);
    SliceIsRun(s, j + 1, |s|);
    assert s[..i] == s[0..i] && s[j + 1..] == s[j + 1..|s|];
    assert PatternSplit(s, i, j);
  }

  /** Every character of a run is an email character. */
  lemma RunChars(s: string, lo: int, hi: int)
    requires 0 <= lo <= hi <= |s| && EmailRun(s[lo..hi])
    ensures forall m :: lo <= m < hi ==> EmailChar(s[m])
  {
    assert forall m :: lo <= m < hi ==> s[m] == s[lo..hi][m - lo];
  }

  /** In a match of the pattern no character is whitespace and the only `@` is the one at `i`. */
  lemma PatternChars(s: string, i: int, j: int)
    requires PatternSplit(s, i, j)
    ensures forall m :: 0 <= m < |s| ==> !IsSpace(s[m]) && (s[m] == '@' <==> m == i)
  {
    assert s[..i] == s[0..i] && s[j + 1..] == s[j + 1..|s|];
    RunChars(s, 0, i);
    RunChars(s, i + 1, j);
    RunChars(s, j + 1, |s|);
  }

  /** A character that occurs exactly once is found where it occurs. */
  lemma IndexOfOnly(s: string, c: char, i: int)
    requires 0 <= i < |s|
    requires forall m :: 0 <= m < |s| ==> (s[m] == c <==> m == i)
    ensures IndexOf(s, c) == i
  {
    IndexOfFindsFirst(s, c);
    assert s[i] == c;
  }

  /** A match of the pattern passes the character-level check. */
  lemma {:induction false} MatchedEmailChecks(s: string)
    requires MatchesEmailPattern(s)
    ensures IsValidEmail(s)
  {
    var i, j :| PatternSplit(s, i, j);
    PatternChars(s, i, j);
    IndexOfOnly(s, '@', i);
    var domain := s[i + 1..];
    assert forall m :: 0 <= m < |domain| ==> domain[m] == s[i + 1 + m];
    IndexOfFindsFirst(domain, '@');
    var inner := domain[1..|domain| - 1];
    assert inner[j - i - 2] == s[j];
    IndexOfFindsFirst(inner, '.');
  }

  /** The character-level check accepts exactly the strings the regular expression matches. */
  lemma EmailCheckMatchesPattern(s: string)
    ensures IsValidEmail(s) <==> MatchesEmailPattern(s)
  {
    if IsValidEmail(s) {
      CheckedEmailMatches(s);
    }
    if MatchesEmailPattern(s) {
      MatchedEmailChecks(s);
    }
  }

  /** A string the pattern accepts is not blank. */
  lemma PatternIsNotBlank(s: string)
    requires MatchesEmailPattern(s)
    ensures !Blank(s)
  {
    var i, j :| PatternSplit(s, i, j);
    BlankIffAllSpace(s);
    assert !IsSpace(s[i]);
  }

  // ---------------------------------------------------------------------------
  // validateForm

  /** The full-name check: an error exactly when the name is blank once trimmed. */
  function FullNameError(fullName: string): (e: Option<string>)
    ensures e.Some? <==> Blank(fullName)
    ensures e.Some? ==> e.value == FullNameRequired
  {
    if Blank(fullName) then Some(FullNameRequired) else None
  }

  /** The email check: a blank email is reported as missing and is not matched against
      the pattern; any other email is checked as typed, untrimmed. */
  function EmailError(email: string): (e: Option<string>)
    ensures Blank(email) ==> e == Some(EmailRequired)
    ensures !Blank(email) ==> e != Some(EmailRequired)
  {
    if Blank(email) then Some(EmailRequired)
    else if !IsValidEmail(email) then Some(EmailInvalid)
    else None
  }

  /** A non-blank email is accepted exactly when the untrimmed string matches the
      pattern, and is otherwise reported as invalid. */
  lemma EmailErrorMeaning(email: string)
    requires !Blank(email)
    ensures EmailError(email).None? <==> MatchesEmailPattern(email)
    ensures EmailError(email).Some? ==> EmailError(email) == Some(EmailInvalid)
  {
    EmailCheckMatchesPattern(email);
  }

  /** The `formErrors` that `validateForm` writes for some form data. */
  function ErrorsOf(d: ProfileData): FormErrors {
    FormErrors(FullNameError(d.fullName), EmailError(d.email))
  }

  /** `validateForm`'s answer: no error was set. */
  predicate FormIsValid(d: ProfileData) {
    ErrorsOf(d) == FormErrors(None, None)
  }

  /** The two checks are independent and the form is valid exactly when both pass:
      a non-blank full name and an email the pattern matches. The mobile number plays no part. */
  lemma FormValidIff(d: ProfileData)
    ensures FormIsValid(d) <==> !Blank(d.fullName) && MatchesEmailPattern(d.email)
    ensures forall m :: FormIsValid(d) == FormIsValid(d.(mobile := m))
  {
    if MatchesEmailPattern(d.email) {
      PatternIsNotBlank(d.email);
    }
    if !Blank(d.email) {
      EmailErrorMeaning(d.email);
    }
  }

  // ---------------------------------------------------------------------------
  // handleChange and handleSubmit

  function FieldValue(d: ProfileData, f: ProfileField): string {
    match f
    case FullName => d.fullName
    case Email => d.email
    case Mobile => d.mobile
  }

  /** `{ ...prev, [name]: value }`: field `f` becomes `v`, every other field keeps its value. */
  function WithField(d: ProfileData, f: ProfileField, v: string): (r: ProfileData)
    ensures FieldValue(r, f) == v
    ensures forall g :: g != f ==> FieldValue(r, g) == FieldValue(d, g)
  {
    match f
    case FullName => d.(fullName := v)
    case Email => d.(email := v)
    case Mobile => d.(mobile := v)
  }

  /** The request `handleSubmit` sends: none when validation fails, otherwise a body
      with the full name and the email, never the mobile number. */
  function SubmitBody(d: ProfileData): (b: Option<UpdateBody>)
    ensures b.Some? <==> !Blank(d.fullName) && MatchesEmailPattern(d.email)
    ensures b.Some? ==> b.value.fullName == d.fullName && b.value.email == d.email
  {
    FormValidIff(d);
    if FormIsValid(d) then Some(UpdateBody(d.fullName, d.email)) else None
  }

  /** `SubmitBody` in terms of the validation flag. */
  lemma SubmitBodyOfFlag(d: ProfileData, isValid: bool)
    requires isValid == FormIsValid(d)
    ensures isValid ==> SubmitBody(d) == Some(UpdateBody(d.fullName, d.email))
    ensures !isValid ==> SubmitBody(d) == None
  {
  }

  /** The save button is disabled while submitting or while the form is invalid. */
  function SaveDisabled(submitting: bool, isFormValid: bool): (disabled: bool) {
    submitting || !isFormValid
  }

  /** When the form state is current, an enabled save button means the data passes validation. */
  lemma SaveEnabledOnlyForValidData(d: ProfileData, submitting: bool)
    ensures !SaveDisabled(submitting, FormIsValid(d)) ==> !submitting && SubmitBody(d).Some?
  {
  }

  // ---------------------------------------------------------------------------
  // The screen

  class EditProfileScreen {
    var loading: bool
    var submitting: bool
    var error: Option<string>
    var formData: ProfileData
    var formErrors: FormErrors
    var isFormValid: bool

    /** `formErrors` and `isFormValid` reflect the current form data. */
    ghost predicate Validated()
      reads this`formData, this`formErrors, this`isFormValid
    {
      formErrors == ErrorsOf(formData) && isFormValid == FormIsValid(formData)
    }

    /** The state on mount, before any effect has run. */
    constructor ()
      ensures loading && !submitting && error == None
      ensures formData == ProfileData("", "", "") && formErrors == FormErrors(None, None) && !isFormValid
    {
      loading, submitting, error := true, false, None;
      formData := ProfileData("", "", "");
      formErrors, isFormValid := FormErrors(None, None), false;
    }

    /** Builds the errors step by step, then writes `formErrors` and `isFormValid`. */
    method ValidateForm() returns (isValid: bool)
      modifies this`formErrors, this`isFormValid
      ensures Validated()
      ensures isValid == isFormValid
    {
      var data := formData;
      var fullNameError: Option<string> := None;
      var emailError: Option<string> := None;
      isValid := true;
      if Blank(data.fullName) {
        fullNameError := Some(FullNameRequired);
        isValid := false;
      }
      if Blank(data.email) {
        emailError := Some(EmailRequired);
        isValid := false;
      } else if !IsValidEmail(data.email) {
        emailError := Some(EmailInvalid);
        isValid := false;
      }
      assert FormErrors(fullNameError, emailError) == ErrorsOf(data);
      assert isValid == FormIsValid(data);
      formErrors := FormErrors(fullNameError, emailError);
      isFormValid := isValid;
      assert formData == data;
    }

    /** The profile load on mount; the validation effect then runs on the resulting form data. */
    method FetchProfile(reply: Reply<ProfileData>)
      modifies this`formData, this`error, this`loading, this`formErrors, this`isFormValid
      ensures Validated() && !loading
      ensures reply.Ok? ==> formData == reply.data && error == old(error)
      ensures reply.Failed? ==> formData == old(formData) && error == Some(OrElse(reply.message, FetchFallback))
    {
      match reply {
        case Ok(data) => formData := data;
        case Failed(message) => error := Some(OrElse(message, FetchFallback));
      }
      loading := false;
      var _ := ValidateForm();
    }

    /** An edit of one field; the validation effect then runs on the new form data. */
    method HandleChange(f: ProfileField, v: string)
      modifies this`formData, this`formErrors, this`isFormValid
      ensures formData == WithField(old(formData), f, v)
      ensures Validated()
    {
      formData := WithField(formData, f, v);
      var _ := ValidateForm();
    }

    /** Validates, and only when that passes sends the update (`reply` is the server's answer). */
    method HandleSubmit(reply: Reply<()>) returns (sent: Option<UpdateBody>)
      modifies this`formErrors, this`isFormValid, this`submitting, this`error
      ensures Validated() && formData == old(formData)
      ensures sent == SubmitBody(formData)
      ensures sent.None? ==> submitting == old(submitting)
      ensures sent.Some? ==> !submitting
      ensures sent.None? ==> error == old(error)
      ensures sent.Some? && reply.Ok? ==> error == old(error)
      ensures sent.Some? && reply.Failed? ==> error == Some(OrElse(reply.message, UpdateFallback))
    {
      var ok := ValidateForm();
      var data := formData;
      SubmitBodyOfFlag(data, ok);
      if !ok {
        return None;
      }
      submitting := true;
      sent := Some(UpdateBody(data.fullName, data.email));
      if reply.Failed? {
        error := Some(OrElse(reply.message, UpdateFallback));
      }
      submitting := false;
      assert formData == data;
    }

    /** `disabled={submitting || !isFormValid}`. */
    function SaveButtonDisabled(): bool
      reads this
    {
      SaveDisabled(submitting, isFormValid)
    }
  }
}
