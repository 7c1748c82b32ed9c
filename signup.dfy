/** The checks the sign-up handler makes on a submitted form before it
    stores a new account, and the account it stores.

    The handler reads five form fields, any of which may be absent, then
    tries four checks in a fixed order and stops at the first that fails,
    showing that check's message. Only a form that passes all four becomes
    an account. The account store is modelled as the list of stored
    accounts; the password hash is a parameter. */
module Signup {
  import opened Wrappers

  /** The five fields of a submitted sign-up form; `None` is a field the
      request did not carry. */
  datatype SignupForm = SignupForm(
    username: Option<string>,
    password: Option<string>,
    confirmPassword: Option<string>,
    name: Option<string>,
    email: Option<string>)

  /** A stored account: the submitted fields, with the password replaced
      by its hash. */
  datatype Account = Account(username: string, passwordHash: string, name: string, email: string)

  /** The four checks, in the order the handler makes them. */
  datatype Check = AllFieldsGiven | PasswordsMatch | UsernameFree | EmailFree

  datatype Outcome = Rejected(failed: Check) | Created(account: Account)

  /** A field value that counts as given: present and not empty. */
  predicate Given(v: Option<string>)
  {
    v.Some? && v.value != ""
  }

  predicate AllGiven(form: SignupForm)
  {
    && Given(form.username) && Given(form.password) && Given(form.confirmPassword)
    && Given(form.name) && Given(form.email)
  }

  /** Whether some stored account has this username. */
  predicate UsernameStored(users: seq<Account>, username: Option<string>)
  {
    exists i :: 0 <= i < |users| && Some(users[i].username) == username
  }

  /** Whether some stored account has this email. */
  predicate EmailStored(users: seq<Account>, email: Option<string>)
  {
    exists i :: 0 <= i < |users| && Some(users[i].email) == email
  }

  /** Position of a check in the handler's order. */
  function Position(c: Check): nat
  {
    match c
    case AllFieldsGiven => 0
    case PasswordsMatch => 1
    case UsernameFree => 2
    case EmailFree => 3
  }

  /** Whether a check, taken on its own, fails for the form. */
  predicate Fails(c: Check, form: SignupForm, users: seq<Account>)
  {
    match c
    case AllFieldsGiven => !AllGiven(form)
    case PasswordsMatch => form.password != form.confirmPassword
    case UsernameFree => UsernameStored(users, form.username)
    case EmailFree => EmailStored(users, form.email)
  }

  /** The message the handler flashes when a check fails. */
  function Message(c: Check): string
  {
    match c
    case AllFieldsGiven => "All fields are required"
    case PasswordsMatch => "Passwords do not match"
    case UsernameFree => "Username already exists"
    case EmailFree => "Email already exists"
  }

  /** The handler's checks, made one after the other: a rejection names a
      failing check before which every check passed, and an account is
      created exactly when no check fails, from the submitted fields. */
  function Validate(form: SignupForm, users: seq<Account>, hash: string -> string): (r: Outcome)
    ensures r.Rejected? ==>
              && Fails(r.failed, form, users)
              && forall c :: Position(c) < Position(r.failed) ==> !Fails(c, form, users)
    ensures r.Created? ==> forall c :: !Fails(c, form, users)
    ensures r.Created? ==>
              && AllGiven(form)
              && r.account == Account(form.username.value, hash(form.password.value),
                                   form.name.value, form.email.value)
  {
    if !AllGiven(form) then Rejected(AllFieldsGiven)
    else if form.password != form.confirmPassword then Rejected(PasswordsMatch)
    else if UsernameStored(users, form.username) then Rejected(UsernameFree)
    else if EmailStored(users, form.email) then Rejected(EmailFree)
    else
      Created(Account(form.username.value, hash(form.password.value), form.name.value, form.email.value))
  }

  /** The outcome is decided by the first failing check alone: two forms
      with the same failing checks get the same rejection. */
  lemma {:induction false} FirstFailureDecides(form: SignupForm, users: seq<Account>, hash: string -> string, c: Check)
    requires Fails(c, form, users)
    requires forall d :: Position(d) < Position(c) ==> !Fails(d, form, users)
    ensures Validate(form, users, hash) == Rejected(c)
  {
  }

  /** Each check has its own message, so the message tells which check
      failed. */
  lemma MessageNamesCheck(c: Check, d: Check)
    requires Message(c) == Message(d)
    ensures c == d
  {
  }

  /** No two stored accounts share a username or an email, and every
      stored account has a username and an email. */
  predicate UniqueAccounts(users: seq<Account>)
  {
    && (forall i :: 0 <= i < |users| ==> users[i].username != "" && users[i].email != "")
    && (forall i, j :: 0 <= i < j < |users| ==> users[i].username != users[j].username)
    && (forall i, j :: 0 <= i < j < |users| ==> users[i].email != users[j].email)
  }

  /** Submitting a form: the outcome, and the stored accounts afterwards
      (the new account is appended when one is created). */
  function Submit(form: SignupForm, users: seq<Account>, hash: string -> string): (result: (Outcome, seq<Account>))
    ensures result.0 == Validate(form, users, hash)
    ensures result.0.Rejected? ==> result.1 == users
    ensures result.0.Created? ==> result.1 == users + [result.0.account]
  {
    var r := Validate(form, users, hash);
    match r
    case Rejected(_) => (r, users)
    case Created(account) => (r, users + [account])
  }

  /** Sign-up keeps usernames and emails unique among the stored accounts. */
  lemma SubmitKeepsUnique(form: SignupForm, users: seq<Account>, hash: string -> string)
    requires UniqueAccounts(users)
    ensures UniqueAccounts(Submit(form, users, hash).1)
  {
    var r := Validate(form, users, hash);
    if r.Created? {
      var after := users + [r.account];
      assert !Fails(UsernameFree, form, users) && !Fails(EmailFree, form, users);
      forall i | 0 <= i < |users|
        ensures users[i].username != r.account.username && users[i].email != r.account.email
      {
        assert Some(users[i].username) != form.username;
        assert Some(users[i].email) != form.email;
      }
      assert after[|users|] == r.account;
      assert forall i :: 0 <= i < |users| ==> after[i] == users[i];
    }
  }

  /** Once a form has created an account, submitting the same form again is
      rejected because the username is taken. */
  lemma {:induction false} ResubmissionRejected(form: SignupForm, users: seq<Account>, hash: string -> string)
    requires Validate(form, users, hash).Created?
    ensures Validate(form, Submit(form, users, hash).1, hash) == Rejected(UsernameFree)
  {
    var after := Submit(form, users, hash).1;
    assert after[|users|].username == form.username.value;
    assert Fails(UsernameFree, form, after);
    assert !Fails(AllFieldsGiven, form, after) && !Fails(PasswordsMatch, form, after);
    FirstFailureDecides(form, after, hash, UsernameFree);
  }
}
