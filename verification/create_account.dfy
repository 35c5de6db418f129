/**
 * Account registration: the form state, the ordered validator with its
 * first-failure message, the e-mail shape check, and the user list kept in
 * browser storage under the key 'disasterAI_users'.
 */
module CreateAccount {
  import opened Wrappers
  import opened JsText

  // ---------------------------------------------------------------------
  // E-mail shape: /^[^\s@]+@[^\s@]+\.[^\s@]+$/

  /** A character of the class `[^\s@]`. */
  predicate Plain(c: char)
  {
    c != '@' && !IsJsWhitespace(c)
  }

  predicate AllPlain(s: string)
  {
    forall i :: 0 <= i < |s| ==> Plain(s[i])
  }

  /**
   * The regular expression read literally: a non-empty plain run, '@', a
   * non-empty plain run, '.', a non-empty plain run, and nothing else.
   */
  ghost predicate MatchesEmailPattern(s: string)
  {
    exists at, dot :: 0 < at && at + 1 < dot && dot + 1 < |s| && s[at] == '@' && s[dot] == '.'
      && AllPlain(s[..at]) && AllPlain(s[at + 1..dot]) && AllPlain(s[dot + 1..])
  }

  /** The position of the first '@', or |s| when there is none. */
  function FirstAt(s: string): (k: nat)
    ensures k <= |s|
    ensures k < |s| ==> s[k] == '@'
    ensures forall i :: 0 <= i < k ==> s[i] != '@'
  {
    if s == [] then 0 else if s[0] == '@' then 0 else 1 + FirstAt(s[1..])
  }

  /** A '.' with at least one character on each side. */
  predicate HasInnerDot(domain: string)
  {
    exists k :: 0 < k < |domain| - 1 && domain[k] == '.'
  }

  /** The e-mail check as the page evaluates it: split at the first '@', then inspect both sides. */
  predicate IsValidEmail(email: string)
  {
    var at := FirstAt(email);
    && 0 < at < |email|
    && AllPlain(email[..at])
    && AllPlain(email[at + 1..])
    && HasInnerDot(email[at + 1..])
  }

  lemma AllPlainSlice(s: string, i: nat, j: nat)
    requires i <= j <= |s| && AllPlain(s)
    ensures AllPlain(s[i..j])
  {
    assert forall k :: 0 <= k < j - i ==> s[i..j][k] == s[i + k];
  }

  /** Everything the check accepts matches the regular expression. */
  lemma ValidEmailMatchesPattern(email: string)
    requires IsValidEmail(email)
    ensures MatchesEmailPattern(email)
  {
    var at := FirstAt(email);
    var domain := email[at + 1..];
    var k :| 0 < k < |domain| - 1 && domain[k] == '.';
    var dot := at + 1 + k;
    assert email[at + 1..dot] == domain[..k];
    assert email[dot + 1..] == domain[k + 1..];
    AllPlainSlice(domain, 0, k);
    AllPlainSlice(domain, k + 1, |domain|);
    assert email[dot] == '.';
  }

  /** Two plain runs joined by a '.' form a plain run. */
  lemma AllPlainDotJoin(b: string, c: string)
    requires AllPlain(b) && AllPlain(c)
    ensures AllPlain(b + "." + c)
  {
    var d := b + "." + c;
    forall i | 0 <= i < |d| ensures Plain(d[i]) {
      if i < |b| {
        assert d[i] == b[i];
      } else if i > |b| {
        assert d[i] == c[i - |b| - 1];
      }
    }
  }

  /** A string split as the regular expression splits it is accepted. */
  lemma SplitIsValidEmail(email: string, at: nat, dot: nat)
    requires 0 < at && at + 1 < dot && dot + 1 < |email| && email[at] == '@' && email[dot] == '.'
    requires AllPlain(email[..at]) && AllPlain(email[at + 1..dot]) && AllPlain(email[dot + 1..])
    ensures IsValidEmail(email)
  {
    forall i | 0 <= i < at ensures email[i] != '@' {
      assert email[..at][i] == email[i];
    }
    FirstAtIs(email, at);
    var domain := email[at + 1..];
    assert domain == email[at + 1..dot] + "." + email[dot + 1..];
    AllPlainDotJoin(email[at + 1..dot], email[dot + 1..]);
    assert domain[dot - at - 1] == '.';
  }

  /** Everything the regular expression matches, the check accepts. */
  lemma PatternIsValidEmail(email: string)
    requires MatchesEmailPattern(email)
    ensures IsValidEmail(email)
  {
    var at, dot :| 0 < at && at + 1 < dot && dot + 1 < |email| && email[at] == '@' && email[dot] == '.'
      && AllPlain(email[..at]) && AllPlain(email[at + 1..dot]) && AllPlain(email[dot + 1..]);
    SplitIsValidEmail(email, at, dot);
  }

  /** The check accepts exactly the strings the regular expression matches. */
  lemma IsValidEmailMatchesPattern(email: string)
    ensures IsValidEmail(email) <==> MatchesEmailPattern(email)
  {
    if IsValidEmail(email) {
      ValidEmailMatchesPattern(email);
    }
    if MatchesEmailPattern(email) {
      PatternIsValidEmail(email);
    }
  }

  lemma {:induction false} FirstAtIs(s: string, at: nat)
    requires at < |s| && s[at] == '@'
    requires forall i :: 0 <= i < at ==> s[i] != '@'
    ensures FirstAt(s) == at
  {
    if at > 0 {
      FirstAtIs(s[1..], at - 1);
    }
  }

  /** Examples: a usual address passes; a missing dot, a second '@' or a space fails. */
  lemma EmailExamples()
    ensures IsValidEmail("a@b.co")
    ensures !IsValidEmail("a@bco")
    ensures !IsValidEmail("a@b@c.d")
    ensures !IsValidEmail("a b@c.d")
    ensures !IsValidEmail("@b.co")
  {
    assert "a@b.co"[2..][1] == '.';
    assert FirstAt("a@b.co") == 1;
    assert FirstAt("a@bco") == 1;
    assert FirstAt("a@b@c.d") == 1;
    assert "a@b@c.d"[2..][1] == '@';
    assert FirstAt("a b@c.d") == 3;
    assert "a b@c.d"[..3][1] == ' ';
  }

  // ---------------------------------------------------------------------
  // The form

  datatype Form = Form(
    firstName: string, lastName: string, email: string, password: string,
    confirmPassword: string, role: string, organization: string)

  datatype FieldName = FirstName | LastName | Email | Password | ConfirmPassword | Role | Organization

  const EmptyForm: Form := Form("", "", "", "", "", "", "")

  function FieldOf(f: Form, name: FieldName): string
  {
    match name
    case FirstName => f.firstName
    case LastName => f.lastName
    case Email => f.email
    case Password => f.password
    case ConfirmPassword => f.confirmPassword
    case Role => f.role
    case Organization => f.organization
  }

  /** `{...prev, [name]: value}`. */
  function WithField(f: Form, name: FieldName, value: string): (g: Form)
    ensures FieldOf(g, name) == value
    ensures forall other :: other != name ==> FieldOf(g, other) == FieldOf(f, other)
  {
    match name
    case FirstName => f.(firstName := value)
    case LastName => f.(lastName := value)
    case Email => f.(email := value)
    case Password => f.(password := value)
    case ConfirmPassword => f.(confirmPassword := value)
    case Role => f.(role := value)
    case Organization => f.(organization := value)
  }

  const NameMessage := "Please enter your full name"
  const EmailMessage := "Please enter a valid email address"
  const PasswordLengthMessage := "Password must be at least 8 characters long"
  const PasswordMatchMessage := "Passwords do not match"
  const RoleMessage := "Please select your role"
  const OrganizationMessage := "Please enter your organization"
  const DuplicateMessage := "An account with this email already exists"

  /** What `validateForm` reports: the message of the first check that fails, in the page's order. */
  function ValidationError(f: Form): (m: Option<string>)
    ensures m.None? <==>
      && f.firstName != "" && f.lastName != ""
      && f.email != "" && IsValidEmail(f.email)
      && |f.password| >= 8
      && f.password == f.confirmPassword
      && f.role != ""
      && f.organization != ""
    ensures m == Some(NameMessage) <==> f.firstName == "" || f.lastName == ""
    ensures m == Some(EmailMessage) <==>
      && f.firstName != "" && f.lastName != ""
      && (f.email == "" || !IsValidEmail(f.email))
    ensures m == Some(PasswordLengthMessage) <==>
      && f.firstName != "" && f.lastName != ""
      && f.email != "" && IsValidEmail(f.email)
      && |f.password| < 8
    ensures m == Some(PasswordMatchMessage) <==>
      && f.firstName != "" && f.lastName != ""
      && f.email != "" && IsValidEmail(f.email)
      && |f.password| >= 8
      && f.password != f.confirmPassword
    ensures m == Some(RoleMessage) <==>
      && f.firstName != "" && f.lastName != ""
      && f.email != "" && IsValidEmail(f.email)
      && |f.password| >= 8
      && f.password == f.confirmPassword
      && f.role == ""
    ensures m == Some(OrganizationMessage) <==>
      && f.firstName != "" && f.lastName != ""
      && f.email != "" && IsValidEmail(f.email)
      && |f.password| >= 8
      && f.password == f.confirmPassword
      && f.role != ""
      && f.organization == ""
  {
    if f.firstName == "" || f.lastName == "" then Some(NameMessage)
    else if f.email == "" || !IsValidEmail(f.email) then Some(EmailMessage)
    else if |f.password| < 8 then Some(PasswordLengthMessage)
    else if f.password != f.confirmPassword then Some(PasswordMatchMessage)
    else if f.role == "" then Some(RoleMessage)
    else if f.organization == "" then Some(OrganizationMessage)
    else None
  }

  /** A form passes validation iff every field requirement holds, the e-mail read as the regular expression. */
  lemma ValidIff(f: Form)
    ensures ValidationError(f).None? <==>
      && f.firstName != "" && f.lastName != ""
      && MatchesEmailPattern(f.email)
      && |f.password| >= 8
      && f.password == f.confirmPassword
      && f.role != ""
      && f.organization != ""
  {
    IsValidEmailMatchesPattern(f.email);
  }

  /** Earlier checks win: a missing name is reported whatever else is wrong. */
  lemma MissingNameReportedFirst(f: Form)
    requires f.firstName == "" || f.lastName == ""
    ensures ValidationError(f) == Some(NameMessage)
  {
  }

  /** With a valid name and e-mail, a short password is the error reported. */
  lemma ShortPasswordReported(f: Form)
    requires f.firstName != "" && f.lastName != "" && IsValidEmail(f.email)
    requires |f.password| < 8
    ensures ValidationError(f) == Some(PasswordLengthMessage)
  {
    assert f.email != "";
  }

  // ---------------------------------------------------------------------
  // The stored users

  /** A stored account: the form without `confirmPassword`. */
  datatype User = User(
    firstName: string, lastName: string, email: string, password: string, role: string, organization: string)

  function UserOf(f: Form): User
  {
    User(f.firstName, f.lastName, f.email, f.password, f.role, f.organization)
  }

  predicate EmailTaken(users: seq<User>, email: string)
  {
    exists i :: 0 <= i < |users| && users[i].email == email
  }

  ghost predicate UniqueEmails(users: seq<User>)
  {
    forall i, j :: 0 <= i < j < |users| ==> users[i].email != users[j].email
  }

  /** The duplicate check and append of `handleSubmit`. */
  function Register(users: seq<User>, u: User): (r: Result<seq<User>, string>)
    ensures r.Failure? <==> EmailTaken(users, u.email)
    ensures r.Failure? ==> r.error == DuplicateMessage
    ensures r.Success? ==> |r.value| == |users| + 1 && r.value[..|users|] == users && r.value[|users|] == u
  {
    if EmailTaken(users, u.email) then Failure(DuplicateMessage) else Success(users + [u])
  }

  /** Registration keeps e-mail addresses unique. */
  lemma RegisterKeepsEmailsUnique(users: seq<User>, u: User)
    requires UniqueEmails(users)
    requires Register(users, u).Success?
    ensures UniqueEmails(Register(users, u).value)
  {
    var r := Register(users, u).value;
    forall i, j | 0 <= i < j < |r| ensures r[i].email != r[j].email {
      if j == |users| {
        assert r[i] == users[i];
      } else {
        assert r[i] == users[i] && r[j] == users[j];
      }
    }
  }

  /** Browser storage holding the registered users. */
  class UserStore {
    var users: seq<User>

    constructor ()
      ensures users == []
    {
      users := [];
    }
  }

  /** The CreateAccount page state. */
  class Page {
    var formData: Form
    var error: string
    var loading: bool
    var success: bool

    constructor ()
      ensures formData == EmptyForm && error == "" && !loading && !success
    {
      formData := EmptyForm;
      error := "";
      loading := false;
      success := false;
    }

    /** `handleChange`: replace the named field and clear the error. */
    method HandleChange(name: FieldName, value: string)
      modifies this
      ensures formData == WithField(old(formData), name, value)
      ensures error == ""
      ensures loading == old(loading) && success == old(success)
    {
      formData := WithField(formData, name, value);
      error := "";
    }

    /** `validateForm`: the checks in order; the first failure sets the error. */
    method ValidateForm() returns (valid: bool)
      modifies this`error
      ensures valid <==> ValidationError(formData).None?
      ensures !valid ==> error == ValidationError(formData).value
      ensures valid ==> error == old(error)
    {
      if formData.firstName == "" || formData.lastName == "" {
        error := NameMessage;
        return false;
      }
      if formData.email == "" || !IsValidEmail(formData.email) {
        error := EmailMessage;
        return false;
      }
      if |formData.password| < 8 {
        error := PasswordLengthMessage;
        return false;
      }
      if formData.password != formData.confirmPassword {
        error := PasswordMatchMessage;
        return false;
      }
      if formData.role == "" {
        error := RoleMessage;
        return false;
      }
      if formData.organization == "" {
        error := OrganizationMessage;
        return false;
      }
      return true;
    }

    /** `handleSubmit`: validate, then register the user unless the e-mail is taken. */
    method HandleSubmit(storage: UserStore)
      modifies this, storage
      ensures formData == old(formData)
      ensures ValidationError(formData).Some? ==>
        && error == ValidationError(formData).value
        && storage.users == old(storage.users)
        && loading == old(loading) && success == old(success)
      ensures ValidationError(formData).None? ==>
        var r := Register(old(storage.users), UserOf(formData));
        && !loading
        && (r.Failure? ==> error == DuplicateMessage && storage.users == old(storage.users) && success == old(success))
        && (r.Success? ==> error == "" && storage.users == r.value && success)
    {
      var valid := ValidateForm();
      if !valid {
        return;
      }
      loading := true;
      error := "";
      var userData := UserOf(formData);
      var existingUsers := storage.users;
      if EmailTaken(existingUsers, userData.email) {
        error := DuplicateMessage;
        loading := false;
        return;
      }
      existingUsers := existingUsers + [userData];
      storage.users := existingUsers;
      success := true;
      loading := false;
    }
  }
}
