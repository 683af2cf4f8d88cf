/** Registration and login rules of the accounts API. */
module UsersSerializers {
  import opened Wrappers
  import opened Text
  import opened Seqs

  datatype Account = Account(id: int, username: string, email: string, isStaff: bool)

  const EmailTakenMessage := "A user with this email already exists."
  const PasswordShortMessage := "Password must be at least 8 characters long."
  const PasswordMixMessage := "Password must be alphanumeric (letters and numbers)."
  const UsernameShortMessage := "Username must contain at least 4 characters."
  const UsernameTakenMessage := "A user with that username already exists."
  const LoginFailedMessage := "Invalid email or password"

  const MinPasswordLength := 8
  const MinUsernameLength := 4

  predicate EmailTaken(accounts: seq<Account>, email: string) {
    exists i :: 0 <= i < |accounts| && accounts[i].email == email
  }

  predicate UsernameTaken(accounts: seq<Account>, username: string) {
    exists i :: 0 <= i < |accounts| && accounts[i].username == username
  }

  /** `validate_email`: an address already on file is refused; any other comes back unchanged. */
  function ValidateEmail(accounts: seq<Account>, value: string): (r: Result<string, string>)
    ensures r.Success? <==> !EmailTaken(accounts, value)
    ensures r.Success? ==> r.value == value
    ensures r.Failure? ==> r.error == EmailTakenMessage
  {
    if EmailTaken(accounts, value) then Failure(EmailTakenMessage) else Success(value)
  }

  /** `re.search(r'[A-Za-z]', value)`. */
  predicate HasLetter(s: string) {
    exists i :: 0 <= i < |s| && IsLetter(s[i])
  }

  /** `re.search(r'[0-9]', value)`. */
  predicate HasDigit(s: string) {
    exists i :: 0 <= i < |s| && IsDigit(s[i])
  }

  /** `validate_password`: the length rule first, then the letter-and-digit rule. */
  function ValidatePassword(value: string): (r: Result<string, string>)
    ensures r.Success? <==> |value| >= MinPasswordLength && HasLetter(value) && HasDigit(value)
    ensures r.Success? ==> r.value == value
    ensures |value| < MinPasswordLength ==> r == Failure(PasswordShortMessage)
    ensures |value| >= MinPasswordLength && !(HasLetter(value) && HasDigit(value)) ==> r == Failure(PasswordMixMessage)
  {
    if |value| < MinPasswordLength then Failure(PasswordShortMessage)
    else if !HasLetter(value) || !HasDigit(value) then Failure(PasswordMixMessage)
    else Success(value)
  }

  /** `validate_username`: the length rule first, then uniqueness. */
  function ValidateUsername(accounts: seq<Account>, value: string): (r: Result<string, string>)
    ensures r.Success? <==> |value| >= MinUsernameLength && !UsernameTaken(accounts, value)
    ensures r.Success? ==> r.value == value
    ensures |value| < MinUsernameLength ==> r == Failure(UsernameShortMessage)
    ensures |value| >= MinUsernameLength && UsernameTaken(accounts, value) ==> r == Failure(UsernameTakenMessage)
  {
    if |value| < MinUsernameLength then Failure(UsernameShortMessage)
    else if UsernameTaken(accounts, value) then Failure(UsernameTakenMessage)
    else Success(value)
  }

  /** Two concrete passwords: all letters fails the mix rule, letters and digits pass. */
  lemma PasswordExamples()
    ensures ValidatePassword("password") == Failure(PasswordMixMessage)
    ensures ValidatePassword("passw0rd") == Success("passw0rd")
  {
    assert IsLetter("passw0rd"[0]) && IsDigit("passw0rd"[5]);
    assert !HasDigit("password") by {
      forall i | 0 <= i < |"password"| ensures !IsDigit("password"[i]) {
        assert "password"[i] in "password";
      }
    }
  }

  /**
   * `validate_username` refuses a short username for its length, whether or
   * not it is taken. At the endpoint the model field's unique validator runs
   * first, so there a short taken username gets the taken message instead.
   */
  lemma ShortUsernameIgnoresAccounts(a: seq<Account>, b: seq<Account>, value: string)
    requires |value| < MinUsernameLength
    ensures ValidateUsername(a, value) == ValidateUsername(b, value) == Failure(UsernameShortMessage)
  {
  }

  /**
   * The per-field errors of a registration, fields in the serializer's
   * order (username, email, password), one message each: the shape of
   * the `details` object the client turns into toasts.
   */
  function RegisterErrors(accounts: seq<Account>, username: string, email: string, password: string)
    : (errors: seq<(string, seq<string>)>)
    ensures errors == [] <==>
              ValidateUsername(accounts, username).Success? && ValidateEmail(accounts, email).Success?
              && ValidatePassword(password).Success?
    ensures |errors| <= 3
    ensures forall i :: 0 <= i < |errors| ==> |errors[i].1| == 1
  {
    var u := ValidateUsername(accounts, username);
    var e := ValidateEmail(accounts, email);
    var p := ValidatePassword(password);
    (if u.Failure? then [("username", [u.error])] else [])
    + (if e.Failure? then [("email", [e.error])] else [])
    + (if p.Failure? then [("password", [p.error])] else [])
  }

  /** The user table behind the serializers. */
  class Accounts {
    var accounts: seq<Account>
    var nextId: int

    ghost predicate Valid()
      reads this
    {
      forall i :: 0 <= i < |accounts| ==> accounts[i].id < nextId
    }

    constructor (initial: seq<Account>, nextId: int)
      requires forall i :: 0 <= i < |initial| ==> initial[i].id < nextId
      ensures Valid() && accounts == initial && this.nextId == nextId
    {
      accounts, this.nextId := initial, nextId;
    }

    /**
     * `is_valid()` then `save()` of the registration serializer: when every
     * field passes, `create` adds a non-staff account with a fresh id.
     */
    method Register(username: string, email: string, password: string) returns (r: Result<Account, seq<(string, seq<string>)>>)
      requires Valid()
      modifies this
      ensures Valid()
      ensures var errors := RegisterErrors(old(accounts), username, email, password);
              errors != [] ==> r == Failure(errors) && accounts == old(accounts) && nextId == old(nextId)
      ensures var errors := RegisterErrors(old(accounts), username, email, password);
              errors == [] ==>
                r == Success(Account(old(nextId), username, email, false))
                && accounts == old(accounts) + [r.value] && nextId == old(nextId) + 1
    {
      var errors := RegisterErrors(accounts, username, email, password);
      if errors != [] {
        return Failure(errors);
      }
      var account := Account(nextId, username, email, false);
      accounts := accounts + [account];
      nextId := nextId + 1;
      return Success(account);
    }
  }

  /**
   * Once an account is registered, a later registration that reuses its
   * email, or its (long enough) username, is refused with the "already
   * exists" message for that field.
   */
  lemma SecondRegistrationRefused(accounts: seq<Account>, a: Account, username: string, email: string, password: string)
    requires username == a.username || email == a.email
    ensures RegisterErrors(accounts + [a], username, email, password) != []
    ensures email == a.email ==> ("email", [EmailTakenMessage]) in RegisterErrors(accounts + [a], username, email, password)
    ensures username == a.username && |username| >= MinUsernameLength ==>
              ("username", [UsernameTakenMessage]) in RegisterErrors(accounts + [a], username, email, password)
  {
    var all := accounts + [a];
    assert all[|accounts|] == a;
    if email == a.email {
      assert EmailTaken(all, email);
    }
    if username == a.username {
      assert UsernameTaken(all, username);
    }
  }

  /** The login body; `user` is filled in by a successful validation. */
  datatype LoginData = LoginData(email: string, password: string, user: Option<Account>)

  datatype LoginError = Rejected(message: string) | ServerError

  function WithEmail(email: string): Account -> bool {
    (a: Account) => a.email == email
  }

  /**
   * `LoginSerializer.validate`. `authenticate` is Django's password check: the
   * account that the username and password log in as, if any. The lookup by
   * email fails with a server error when several accounts share the address.
   */
  function ValidateLogin(accounts: seq<Account>, data: LoginData, authenticate: (string, string) -> Option<Account>)
    : (r: Result<LoginData, LoginError>)
    ensures !EmailTaken(accounts, data.email) ==> r == Failure(Rejected(LoginFailedMessage))
    ensures r.Success? ==> r.value == data.(user := r.value.user) && r.value.user.Some?
  {
    var matches := Filter(accounts, WithEmail(data.email));
    FilterEmpty(accounts, WithEmail(data.email));
    if matches == [] then Failure(Rejected(LoginFailedMessage))
    else if |matches| > 1 then Failure(ServerError)
    else
      match authenticate(matches[0].username, data.password)
      case None => Failure(Rejected(LoginFailedMessage))
      case Some(user) => Success(data.(user := Some(user)))
  }

  /** An account that is the only one with its email, and appears once, is the lookup's only match. */
  lemma SingleMatch(accounts: seq<Account>, email: string, a: Account)
    requires a in accounts && a.email == email
    requires forall b :: b in accounts && b.email == email ==> b == a
    requires multiset(accounts)[a] == 1
    ensures Filter(accounts, WithEmail(email)) == [a]
  {
    var keep := WithEmail(email);
    var matches := Filter(accounts, keep);
    forall x ensures multiset(matches)[x] == multiset{a}[x] {
      FilterCounts(accounts, keep, x);
      if keep(x) && x in multiset(accounts) {
        assert x in accounts;
      }
    }
    assert multiset(matches) == multiset{a};
    assert |matches| == 1 by {
      assert |multiset(matches)| == |matches|;
    }
    assert matches[0] in multiset(matches);
  }

  /**
   * An unknown email and a wrong password for a known one are refused
   * with the same message, so a reply does not tell which was wrong.
   */
  lemma SameMessageForUnknownEmailAndWrongPassword(
    accounts: seq<Account>, data: LoginData, authenticate: (string, string) -> Option<Account>, a: Account)
    requires a in accounts && a.email == data.email
    requires forall b :: b in accounts && b.email == a.email ==> b == a
    requires multiset(accounts)[a] == 1
    requires authenticate(a.username, data.password).None?
    ensures ValidateLogin(accounts, data, authenticate) == Failure(Rejected(LoginFailedMessage))
  {
    SingleMatch(accounts, data.email, a);
  }

  /** Login succeeds exactly when the single account with this email authenticates, and it then carries that user. */
  lemma LoginSucceedsIff(accounts: seq<Account>, data: LoginData, authenticate: (string, string) -> Option<Account>, a: Account)
    requires a in accounts && a.email == data.email
    requires forall b :: b in accounts && b.email == a.email ==> b == a
    requires multiset(accounts)[a] == 1
    ensures ValidateLogin(accounts, data, authenticate).Success? <==> authenticate(a.username, data.password).Some?
    ensures ValidateLogin(accounts, data, authenticate).Success? ==>
              ValidateLogin(accounts, data, authenticate).value.user == authenticate(a.username, data.password)
  {
    SingleMatch(accounts, data.email, a);
  }

  /** Several accounts with one email make the lookup fail with a server error before any password check. */
  lemma SharedEmailIsServerError(accounts: seq<Account>, data: LoginData, authenticate: (string, string) -> Option<Account>, i: nat, j: nat)
    requires i < j < |accounts| && accounts[i].email == data.email && accounts[j].email == data.email
    ensures ValidateLogin(accounts, data, authenticate) == Failure(ServerError)
  {
    var keep := WithEmail(data.email);
    var front, back := accounts[..j], accounts[j..];
    assert accounts == front + back;
    FilterAppend(front, back, keep);
    assert front[i] == accounts[i] && back[0] == accounts[j];
    FilterEmpty(front, keep);
    FilterEmpty(back, keep);
  }
}
