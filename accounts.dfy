/** The field checks of `user_login` and `user_signup`, over the User table. */
module Accounts {
  import opened Wrappers
  import opened PyStr

  /** A User row. Django stores a hash of the password; the model keeps the text given. */
  datatype Account = Account(id: nat, username: string, email: string, password: string)

  /** `User.objects.filter(username=name).exists()`. */
  predicate UsernameTaken(users: seq<Account>, name: string) {
    exists i :: 0 <= i < |users| && users[i].username == name
  }

  /** `User.objects.filter(email=email).exists()`. */
  predicate EmailTaken(users: seq<Account>, email: string) {
    exists i :: 0 <= i < |users| && users[i].email == email
  }

  /**
   * No two accounts share an id or a username: the primary key and the
   * unique constraint on `username`. E-mail addresses carry no constraint.
   */
  predicate DistinctAccounts(users: seq<Account>) {
    forall i, j :: 0 <= i < j < |users| ==> users[i].id != users[j].id && users[i].username != users[j].username
  }

  /**
   * What the login and signup views do: render their form (maybe with an
   * error), log in and redirect, or end in an exception the view does not
   * catch, which Django turns into a 500 page.
   */
  datatype Page = ShowForm(error: Option<string>) | LoggedIn(user: nat) | ServerError

  /** The POST fields, each `request.POST.get(name, '')`. */
  datatype LoginForm = LoginForm(username: string, password: string)
  datatype SignupForm = SignupForm(username: string, email: string, password: string, repeatPassword: string)

  /**
   * `user_login`. `authenticate` stands for Django's `authenticate(request,
   * username=..., password=...)`: the id of the matching user, or `None`.
   */
  function UserLogin(httpMethod: string, f: LoginForm, authenticate: (string, string) -> Option<nat>): (p: Page)
    ensures httpMethod != "POST" ==> p == ShowForm(None)
    ensures httpMethod == "POST" && (Strip(f.username) == "" || Strip(f.password) == "") ==>
              p == ShowForm(Some("Please fill all fields"))
    ensures p.LoggedIn? <==>
              httpMethod == "POST" && Strip(f.username) != "" && Strip(f.password) != "" &&
              authenticate(Strip(f.username), Strip(f.password)).Some?
    ensures p.LoggedIn? ==> authenticate(Strip(f.username), Strip(f.password)) == Some(p.user)
    ensures httpMethod == "POST" && Strip(f.username) != "" && Strip(f.password) != "" && !p.LoggedIn? ==>
              p == ShowForm(Some("Invalid username or password"))
  {
    if httpMethod != "POST" then ShowForm(None)
    else
      var username := Strip(f.username);
      var password := Strip(f.password);
      if username != "" && password != "" then
        match authenticate(username, password)
        case Some(user) => LoggedIn(user)
        case None => ShowForm(Some("Invalid username or password"))
      else ShowForm(Some("Please fill all fields"))
  }

  /** The empty-field check comes first: when it fails, what `authenticate` would answer is irrelevant. */
  lemma LoginChecksFieldsFirst(f: LoginForm, a: (string, string) -> Option<nat>, b: (string, string) -> Option<nat>)
    requires Strip(f.username) == "" || Strip(f.password) == ""
    ensures UserLogin("POST", f, a) == UserLogin("POST", f, b) == ShowForm(Some("Please fill all fields"))
  {
  }

  /** Leading and trailing whitespace in either field never changes the login outcome. */
  lemma {:induction false} LoginIgnoresSurroundingSpaces(f: LoginForm, g: LoginForm, a: (string, string) -> Option<nat>)
    requires Strip(f.username) == Strip(g.username) && Strip(f.password) == Strip(g.password)
    ensures UserLogin("POST", f, a) == UserLogin("POST", g, a)
  {
  }

  /** The outcome of the signup checks, taken in the view's order. */
  datatype SignupCheck = PasswordsDiffer | UsernameInUse | EmailInUse | MayCreate(username: string, email: string)

  /**
   * `user_signup`'s checks: the two passwords must match, then the stripped
   * username must be free, then the stripped e-mail address must be free.
   * The passwords are compared as typed, without stripping.
   */
  function SignupDecision(users: seq<Account>, f: SignupForm): (c: SignupCheck)
    ensures f.password != f.repeatPassword ==> c == PasswordsDiffer
    ensures f.password == f.repeatPassword && UsernameTaken(users, Strip(f.username)) ==> c == UsernameInUse
    ensures (f.password == f.repeatPassword && !UsernameTaken(users, Strip(f.username)) &&
             EmailTaken(users, Strip(f.email))) ==> c == EmailInUse
    ensures c.MayCreate? <==>
              f.password == f.repeatPassword && !UsernameTaken(users, Strip(f.username)) &&
              !EmailTaken(users, Strip(f.email))
    ensures c.MayCreate? ==> c.username == Strip(f.username) && c.email == Strip(f.email)
  {
    var username := Strip(f.username);
    var email := Strip(f.email);
    if f.password == f.repeatPassword then
      if UsernameTaken(users, username) then UsernameInUse
      else if EmailTaken(users, email) then EmailInUse
      else MayCreate(username, email)
    else PasswordsDiffer
  }

  /** The error message each refused signup renders. */
  function SignupError(c: SignupCheck): (msg: string)
    requires !c.MayCreate?
    ensures msg != ""
  {
    match c
    case PasswordsDiffer => "Passwords do not match"
    case UsernameInUse => "Username already taken"
    case EmailInUse => "Email already in use"
  }

  /** The table's keys: accounts are distinct and every id lies in `1 .. next - 1`. */
  predicate AccountKeys(users: seq<Account>, next: nat) {
    DistinctAccounts(users) && forall i :: 0 <= i < |users| ==> 0 < users[i].id < next
  }

  /** Adding an account with the next id and a free username keeps the keys. */
  lemma {:induction false} AddAccountKeepsKeys(users: seq<Account>, next: nat, created: Account)
    requires AccountKeys(users, next) && 0 < next && created.id == next
    requires !UsernameTaken(users, created.username)
    ensures AccountKeys(users + [created], next + 1)
  {
    var after := users + [created];
    forall i, j | 0 <= i < j < |after|
      ensures after[i].id != after[j].id && after[i].username != after[j].username
    {
      assert after[i] == users[i];
      if j < |users| { assert after[j] == users[j]; }
    }
    forall i | 0 <= i < |after| ensures 0 < after[i].id < next + 1 {
      if i < |users| { assert after[i] == users[i]; }
    }
  }

  /**
   * What `User.objects.create_user` does to its arguments before saving:
   * `username` stands for `normalize_username` (NFKC normalisation) and
   * `email` for `normalize_email` (lower-casing the domain part).
   */
  datatype Normalize = Normalize(username: string -> string, email: string -> string)

  /**
   * `create_user` on a table `users` whose next id is `next`: it raises on
   * an empty username, before normalising it, and the database raises on a
   * normalised username already stored; otherwise the row holds the
   * normalised username and e-mail.
   */
  function CreateUser(users: seq<Account>, next: nat, n: Normalize, username: string, email: string, password: string): (a: Option<Account>)
    ensures a.Some? <==> username != "" && !UsernameTaken(users, n.username(username))
    ensures a.Some? ==> a.value == Account(next, n.username(username), n.email(email), password)
  {
    var name := n.username(username);
    if username == "" || UsernameTaken(users, name) then None
    else Some(Account(next, name, n.email(email), password))
  }

  /** What one call of `user_signup` leaves behind: the table, the next id and the page. */
  datatype SignupOutcome = SignupOutcome(users: seq<Account>, next: nat, page: Page)

  /**
   * `user_signup` on the table `users` whose next free id is `next`: only a
   * POST is processed; once the view's three checks pass, `create_user`
   * runs, and the new user is logged in when it does not raise.
   */
  function Signup(users: seq<Account>, next: nat, n: Normalize, httpMethod: string, f: SignupForm): (o: SignupOutcome)
    ensures |users| <= |o.users| <= |users| + 1 && o.users[..|users|] == users
    ensures |o.users| == |users| <==> o.next == next
    ensures o.page.LoggedIn? <==> |o.users| == |users| + 1
    ensures o.page.LoggedIn? <==>
              httpMethod == "POST" && SignupDecision(users, f).MayCreate? &&
              CreateUser(users, next, n, Strip(f.username), Strip(f.email), f.password).Some?
    ensures o.page.LoggedIn? ==>
              o.next == next + 1 && o.page.user == next &&
              o.users[|users|] == Account(next, n.username(Strip(f.username)), n.email(Strip(f.email)), f.password)
    ensures httpMethod != "POST" ==> o.page == ShowForm(None)
    ensures httpMethod == "POST" && !SignupDecision(users, f).MayCreate? ==>
              o.page == ShowForm(Some(SignupError(SignupDecision(users, f))))
    ensures o.page == ServerError <==>
              httpMethod == "POST" && SignupDecision(users, f).MayCreate? &&
              CreateUser(users, next, n, Strip(f.username), Strip(f.email), f.password).None?
  {
    if httpMethod != "POST" then SignupOutcome(users, next, ShowForm(None))
    else
      var c := SignupDecision(users, f);
      if c.MayCreate? then
        match CreateUser(users, next, n, c.username, c.email, f.password)
        case Some(created) => SignupOutcome(users + [created], next + 1, LoggedIn(next))
        case None => SignupOutcome(users, next, ServerError)
      else SignupOutcome(users, next, ShowForm(Some(SignupError(c))))
  }

  /** A signup keeps the table's keys. */
  lemma SignupKeepsKeys(users: seq<Account>, next: nat, n: Normalize, httpMethod: string, f: SignupForm)
    requires AccountKeys(users, next) && 0 < next
    ensures var o := Signup(users, next, n, httpMethod, f); AccountKeys(o.users, o.next) && 0 < o.next
  {
    var c := SignupDecision(users, f);
    if httpMethod == "POST" && c.MayCreate? {
      var a := CreateUser(users, next, n, c.username, c.email, f.password);
      if a.Some? {
        AddAccountKeepsKeys(users, next, a.value);
      }
    }
  }

  /**
   * After a signup succeeds, submitting the same form again never creates a
   * second account, whatever the normalisation does: either a check refuses
   * it or the stored username makes `create_user` raise.
   */
  lemma {:induction false} SignupNeverTwice(users: seq<Account>, next: nat, n: Normalize, f: SignupForm)
    requires Signup(users, next, n, "POST", f).page.LoggedIn?
    ensures var o := Signup(users, next, n, "POST", f);
            var again := Signup(o.users, o.next, n, "POST", f);
            again.users == o.users && again.next == o.next && !again.page.LoggedIn?
  {
    var o := Signup(users, next, n, "POST", f);
    var name := n.username(Strip(f.username));
    assert o.users[|users|].username == name;
    assert UsernameTaken(o.users, name);
  }

  /**
   * When normalisation leaves the username as typed, the resubmission is
   * refused by the view's own check, with "Username already taken".
   */
  lemma {:induction false} SignupTwiceRefused(users: seq<Account>, next: nat, n: Normalize, f: SignupForm)
    requires Signup(users, next, n, "POST", f).page.LoggedIn?
    requires n.username(Strip(f.username)) == Strip(f.username)
    ensures var o := Signup(users, next, n, "POST", f);
            Signup(o.users, o.next, n, "POST", f) == SignupOutcome(o.users, o.next, ShowForm(Some("Username already taken")))
  {
    var o := Signup(users, next, n, "POST", f);
    assert o.users[|users|].username == Strip(f.username);
    assert UsernameTaken(o.users, Strip(f.username));
  }

  /**
   * The e-mail check runs on the address as typed while `create_user`
   * stores it normalised, so two accounts can share an address: "a" and
   * then "b" both sign up with "x@EXAMPLE.com", stored as "x@example.com".
   */
  lemma SharedEmailExample()
    ensures var n := Normalize(u => u, e => if e == "x@EXAMPLE.com" then "x@example.com" else e);
            var first := Signup([], 1, n, "POST", SignupForm("a", "x@EXAMPLE.com", "pw", "pw"));
            var second := Signup(first.users, first.next, n, "POST", SignupForm("b", "x@EXAMPLE.com", "pw", "pw"));
            && second.page == LoggedIn(2)
            && second.users == [Account(1, "a", "x@example.com", "pw"), Account(2, "b", "x@example.com", "pw")]
  {
    var n := Normalize(u => u, e => if e == "x@EXAMPLE.com" then "x@example.com" else e);
    StrippedIsFixed("a");
    StrippedIsFixed("b");
    StrippedIsFixed("x@EXAMPLE.com");
    var first := Signup([], 1, n, "POST", SignupForm("a", "x@EXAMPLE.com", "pw", "pw"));
    assert first.users == [Account(1, "a", "x@example.com", "pw")];
    assert !UsernameTaken(first.users, "b");
    assert !EmailTaken(first.users, "x@EXAMPLE.com");
  }
}
