// The login/registration controller (js/auth.js): the login/register mode and
// the selected account type, form trimming, the email pattern, login against
// the stored credentials, and registration as a fixed-order validation chain
// that stops at the first failure before creating the user and logging it in.

module Auth {
  import opened Seqs
  import opened Text
  import opened Storage

  /** The form as `getFormData` reads it. */
  datatype FormData = FormData(email: string, password: string, name: string, company: string, userType: string)

  /** Why a registration was refused, in the order the checks run. */
  datatype RegisterError =
    | NameMissing | NameTooShort | CompanyMissing | CompanyTooShort
    | InvalidEmail | PasswordTooShort | EmailTaken

  datatype RegisterOutcome = Registered(user: User) | Rejected(error: RegisterError)

  datatype LoginOutcome = LoggedIn(user: User) | InvalidCredentials

  datatype SubmitOutcome = Login(login: LoginOutcome) | Register(register: RegisterOutcome)

  // ------------------------------------------------------------ email

  /** The characters of the class `[^\s@]`. */
  predicate NoSpaceOrAt(t: string) {
    forall i :: 0 <= i < |t| ==> !IsWhitespace(t[i]) && t[i] != '@'
  }

  /**
   * The pattern matched with the '@' at `at` and the chosen '.' at `dot`: a
   * non-empty run of `[^\s@]`, '@', a non-empty run, '.', a non-empty run.
   */
  predicate EmailParts(email: string, at: int, dot: int) {
    && 0 < at && at + 1 < dot < |email| - 1
    && email[at] == '@' && email[dot] == '.'
    && NoSpaceOrAt(email[..at])
    && NoSpaceOrAt(email[at + 1..dot])
    && NoSpaceOrAt(email[dot + 1..])
  }

  /** `validateEmail`: the pattern `^[^\s@]+@[^\s@]+\.[^\s@]+$` matches somewhere. */
  function ValidateEmail(email: string): (r: bool)
    ensures r ==> 5 <= |email| && !IsWhitespace(email[0]) && email[0] != '@'
  {
    exists at, dot | 0 <= at < |email| && 0 <= dot < |email| :: EmailParts(email, at, dot)
  }

  /**
   * The shape of an accepted address stated without the pattern: no
   * whitespace, exactly one '@' and not first, and after it a '.' that is
   * neither the first nor the last character of the domain.
   */
  ghost predicate EmailShape(email: string) {
    && (forall i :: 0 <= i < |email| ==> !IsWhitespace(email[i]))
    && exists at :: 0 < at < |email| && email[at] == '@'
         && (forall i :: 0 <= i < |email| && email[i] == '@' ==> i == at)
         && exists dot :: at + 1 < dot < |email| - 1 && email[dot] == '.'
  }

  /** A character inside a slice of class `[^\s@]` is neither whitespace nor '@'. */
  lemma SliceChar(email: string, lo: int, hi: int, i: int)
    requires 0 <= lo <= i < hi <= |email|
    requires NoSpaceOrAt(email[lo..hi])
    ensures !IsWhitespace(email[i]) && email[i] != '@'
  {
    assert email[lo..hi][i - lo] == email[i];
  }

  lemma PartsHaveShape(email: string, at: int, dot: int)
    requires EmailParts(email, at, dot)
    ensures EmailShape(email)
  {
    assert email[..at] == email[0..at] && email[dot + 1..] == email[dot + 1..|email|];
    forall i | 0 <= i < |email| && i != at
      ensures !IsWhitespace(email[i]) && email[i] != '@'
    {
      if i < at {
        SliceChar(email, 0, at, i);
      } else if i < dot {
        SliceChar(email, at + 1, dot, i);
      } else if i > dot {
        SliceChar(email, dot + 1, |email|, i);
      }
    }
    assert 0 < at < |email| && email[at] == '@';
    assert forall i :: 0 <= i < |email| && email[i] == '@' ==> i == at;
    assert at + 1 < dot < |email| - 1 && email[dot] == '.';
  }

  lemma ValidEmailHasShape(email: string)
    requires ValidateEmail(email)
    ensures EmailShape(email)
  {
    var at, dot :| EmailParts(email, at, dot);
    PartsHaveShape(email, at, dot);
  }

  lemma ShapedEmailIsValid(email: string)
    requires EmailShape(email)
    ensures ValidateEmail(email)
  {
    var at :| 0 < at < |email| && email[at] == '@'
      && (forall i :: 0 <= i < |email| && email[i] == '@' ==> i == at)
      && exists dot :: at + 1 < dot < |email| - 1 && email[dot] == '.';
    var dot :| at + 1 < dot < |email| - 1 && email[dot] == '.';
    var user, host, tld := email[..at], email[at + 1..dot], email[dot + 1..];
    forall i | 0 <= i < |user| ensures !IsWhitespace(user[i]) && user[i] != '@' {
      assert user[i] == email[i];
    }
    forall i | 0 <= i < |host| ensures !IsWhitespace(host[i]) && host[i] != '@' {
      assert host[i] == email[at + 1 + i];
    }
    forall i | 0 <= i < |tld| ensures !IsWhitespace(tld[i]) && tld[i] != '@' {
      assert tld[i] == email[dot + 1 + i];
    }
    assert EmailParts(email, at, dot);
  }

  /** The pattern accepts exactly the addresses of that shape. */
  lemma ValidateEmailIsShape(email: string)
    ensures ValidateEmail(email) <==> EmailShape(email)
  {
    if ValidateEmail(email) {
      ValidEmailHasShape(email);
    }
    if EmailShape(email) {
      ShapedEmailIsValid(email);
    }
  }

  // ----------------------------------------------------- registration

  /** Blank as the first name and company checks see it: empty, or nothing but whitespace. */
  predicate Blank(s: string) {
    s == "" || Trim(s) == ""
  }

  /** The name checks pass: not blank and at least 3 UTF-16 units. */
  predicate NameOk(form: FormData) {
    !Blank(form.name) && 3 <= Utf16Length(form.name)
  }

  /** The company checks pass: only employers are asked for a non-blank company of at least 3 units. */
  predicate CompanyOk(form: FormData) {
    form.userType == Employer ==> !Blank(form.company) && 3 <= Utf16Length(form.company)
  }

  /** The first check of `handleRegister` that fails, or `None` when all pass. */
  function RegistrationError(form: FormData, users: seq<User>): (r: Option<RegisterError>)
    ensures r.None? <==>
      && NameOk(form) && CompanyOk(form) && ValidateEmail(form.email) && 6 <= Utf16Length(form.password)
      && FindUserByEmail(users, form.email).None?
    ensures r == Some(NameMissing) <==> Blank(form.name)
    ensures r == Some(NameTooShort) <==> !Blank(form.name) && Utf16Length(form.name) < 3
    ensures r == Some(CompanyMissing) <==> NameOk(form) && form.userType == Employer && Blank(form.company)
    ensures r == Some(CompanyTooShort) <==>
      NameOk(form) && form.userType == Employer && !Blank(form.company) && Utf16Length(form.company) < 3
    ensures r == Some(InvalidEmail) <==> NameOk(form) && CompanyOk(form) && !ValidateEmail(form.email)
    ensures r == Some(PasswordTooShort) <==>
      NameOk(form) && CompanyOk(form) && ValidateEmail(form.email) && Utf16Length(form.password) < 6
    ensures r == Some(EmailTaken) <==>
      && NameOk(form) && CompanyOk(form) && ValidateEmail(form.email) && 6 <= Utf16Length(form.password)
      && FindUserByEmail(users, form.email).Some?
  {
    if Blank(form.name) then Some(NameMissing)
    else if Utf16Length(form.name) < 3 then Some(NameTooShort)
    else if form.userType == Employer && Blank(form.company) then Some(CompanyMissing)
    else if form.userType == Employer && Utf16Length(form.company) < 3 then Some(CompanyTooShort)
    else if !ValidateEmail(form.email) then Some(InvalidEmail)
    else if Utf16Length(form.password) < 6 then Some(PasswordTooShort)
    else if FindUserByEmail(users, form.email).Some? then Some(EmailTaken)
    else None
  }

  /** The record `handleRegister` passes to `createUser`. */
  function RegistrationData(form: FormData): UserData {
    UserData(None, form.email, form.password, form.name, form.userType, form.company, None)
  }

  /** What an accepted registration guarantees about its form and about the users already stored. */
  lemma AcceptedRegistration(form: FormData, users: seq<User>)
    requires RegistrationError(form, users).None?
    ensures !AllWhitespace(form.name) && Utf16Length(form.name) >= 3
    ensures form.userType == Employer ==> !AllWhitespace(form.company) && Utf16Length(form.company) >= 3
    ensures EmailShape(form.email)
    ensures Utf16Length(form.password) >= 6
    ensures forall i :: 0 <= i < |users| ==> users[i].email != form.email
  {
    TrimEmpty(form.name);
    TrimEmpty(form.company);
    ValidateEmailIsShape(form.email);
  }

  /** The company is never looked at for an account that is not an employer. */
  lemma CompanyIgnoredForApplicants(form: FormData, users: seq<User>, company: string)
    requires form.userType != Employer
    ensures RegistrationError(form.(company := company), users) == RegistrationError(form, users)
  {
  }

  /** Registration keeps emails unique: the new user's email is not yet taken. */
  lemma RegistrationKeepsEmailsUnique(form: FormData, users: seq<User>, freshId: string, now: int)
    requires UniqueEmails(users)
    requires RegistrationError(form, users).None?
    ensures UniqueEmails(users + [NewUser(RegistrationData(form), freshId, now)])
  {
    var all := users + [NewUser(RegistrationData(form), freshId, now)];
    forall i, j | 0 <= i < j < |all| ensures all[i].email != all[j].email {
      if j == |users| {
        assert all[i] == users[i];
      } else {
        assert all[i] == users[i] && all[j] == users[j];
      }
    }
  }

  // ------------------------------------------------------- controller

  /**
   * `requireAuth`: passes exactly when the shared store holds a session (the
   * redirect to the login page is left out). It reads only the store, so it
   * takes the store rather than a controller.
   */
  function RequireAuth(store: StorageManager): (ok: bool)
    reads store
    ensures ok <==> store.currentUser.Some?
  {
    store.IsAuthenticated()
  }

  /** `AuthController`: the mode and account-type state over the shared store. */
  class AuthController {
    var isLoginMode: bool
    var selectedUserType: string
    const store: StorageManager

    constructor (store: StorageManager)
      ensures isLoginMode && selectedUserType == Applicant && this.store == store
    {
      isLoginMode := true;
      selectedUserType := Applicant;
      this.store := store;
    }

    /** `toggleMode`: flips the mode; register mode starts with the applicant type selected. */
    method ToggleMode()
      modifies this
      ensures isLoginMode == !old(isLoginMode)
      ensures selectedUserType == if isLoginMode then old(selectedUserType) else Applicant
    {
      isLoginMode := !isLoginMode;
      UpdateUI();
    }

    /** `updateUI`, state part: register mode selects the applicant type. */
    method UpdateUI()
      modifies this
      ensures isLoginMode == old(isLoginMode)
      ensures selectedUserType == if isLoginMode then old(selectedUserType) else Applicant
    {
      if !isLoginMode {
        SelectUserType(Applicant);
      }
    }

    /** `selectUserType`, state part. */
    method SelectUserType(userType: string)
      modifies this
      ensures selectedUserType == userType && isLoginMode == old(isLoginMode)
    {
      selectedUserType := userType;
    }

    /** `getFormData`: email, name and company trimmed, the password as typed, the selected type. */
    function GetFormData(email: string, password: string, name: string, company: string): (form: FormData)
      reads this
      ensures form.password == password && form.userType == selectedUserType
      ensures Trimmed(form.email) && Trimmed(form.name) && Trimmed(form.company)
      ensures form.email == Trim(email) && form.name == Trim(name) && form.company == Trim(company)
    {
      FormData(Trim(email), password, Trim(name), Trim(company), selectedUserType)
    }

    /** `handleSubmit`: reads the form and dispatches on the mode. */
    method HandleSubmit(email: string, password: string, name: string, company: string, freshId: string, now: int)
      returns (outcome: SubmitOutcome)
      modifies store
      ensures outcome.Login? <==> isLoginMode
      ensures outcome.Login? ==>
        && (outcome.login.LoggedIn? <==> ValidateCredentials(old(store.users), Trim(email), password).Some?)
        && (outcome.login.LoggedIn? ==>
              outcome.login.user == ValidateCredentials(old(store.users), Trim(email), password).value)
        && store.users == old(store.users)
        && store.currentUser == if outcome.login.LoggedIn? then Some(outcome.login.user) else old(store.currentUser)
      ensures outcome.Register? ==>
        var form := GetFormData(email, password, name, company);
        && (outcome.register.Registered? <==> RegistrationError(form, old(store.users)).None?)
        && (outcome.register.Rejected? ==>
              && outcome.register.error == RegistrationError(form, old(store.users)).value
              && store.users == old(store.users) && store.currentUser == old(store.currentUser))
        && (outcome.register.Registered? ==>
              && store.users == old(store.users) + [outcome.register.user]
              && outcome.register.user == NewUser(RegistrationData(form), freshId, now)
              && store.currentUser == Some(outcome.register.user))
      ensures store.jobs == old(store.jobs) && store.applications == old(store.applications)
    {
      var form := GetFormData(email, password, name, company);
      if isLoginMode {
        var login := HandleLogin(form);
        outcome := Login(login);
      } else {
        var register := HandleRegister(form, freshId, now);
        outcome := Register(register);
      }
    }

    /** `handleLogin`: the session becomes the user with exactly these credentials, if there is one. */
    method HandleLogin(form: FormData) returns (outcome: LoginOutcome)
      modifies store
      ensures var found := ValidateCredentials(old(store.users), form.email, form.password);
        && (found.Some? ==> outcome == LoggedIn(found.value) && store.currentUser == Some(found.value))
        && (found.None? ==> outcome == InvalidCredentials && store.currentUser == old(store.currentUser))
      ensures store.users == old(store.users) && store.jobs == old(store.jobs)
      ensures store.applications == old(store.applications)
    {
      var user := ValidateCredentials(store.users, form.email, form.password);
      if user.Some? {
        store.SetCurrentUser(user.value);
        outcome := LoggedIn(user.value);
      } else {
        outcome := InvalidCredentials;
      }
    }

    /**
     * `handleRegister`: name, company (employers only), email, password and
     * duplicate-email checks in that order; the first failure leaves the store
     * untouched, otherwise one user is appended and logged in.
     */
    method HandleRegister(form: FormData, freshId: string, now: int) returns (outcome: RegisterOutcome)
      modifies store
      ensures var err := RegistrationError(form, old(store.users));
        err.Some? ==> outcome == Rejected(err.value)
                      && store.users == old(store.users) && store.currentUser == old(store.currentUser)
      ensures outcome.Registered? <==> RegistrationError(form, old(store.users)).None?
      ensures outcome.Registered? ==>
        && store.users == old(store.users) + [outcome.user]
        && outcome.user.id == freshId && outcome.user.createdAt == now
        && outcome.user.email == form.email && outcome.user.password == form.password
        && outcome.user.name == form.name && outcome.user.userType == form.userType
        && outcome.user.company == form.company
        && store.currentUser == Some(outcome.user)
      ensures UniqueEmails(old(store.users)) ==> UniqueEmails(store.users)
      ensures store.jobs == old(store.jobs) && store.applications == old(store.applications)
    {
      if Blank(form.name) {
        return Rejected(NameMissing);
      }
      if Utf16Length(form.name) < 3 {
        return Rejected(NameTooShort);
      }
      if form.userType == Employer && Blank(form.company) {
        return Rejected(CompanyMissing);
      }
      if form.userType == Employer && Utf16Length(form.company) < 3 {
        return Rejected(CompanyTooShort);
      }
      if !ValidateEmail(form.email) {
        return Rejected(InvalidEmail);
      }
      if Utf16Length(form.password) < 6 {
        return Rejected(PasswordTooShort);
      }
      var existing := FindUserByEmail(store.users, form.email);
      if existing.Some? {
        return Rejected(EmailTaken);
      }
      ghost var before := store.users;
      if UniqueEmails(before) {
        RegistrationKeepsEmailsUnique(form, before, freshId, now);
      }
      var user := store.CreateUser(RegistrationData(form), freshId, now);
      store.SetCurrentUser(user);
      outcome := Registered(user);
    }

    /** `logout`: ends the session when the user confirms. */
    method Logout(confirmed: bool)
      modifies store
      ensures store.currentUser == if confirmed then None else old(store.currentUser)
      ensures store.users == old(store.users) && store.jobs == old(store.jobs)
      ensures store.applications == old(store.applications)
    {
      if confirmed {
        store.Logout();
      }
    }
  }
}
