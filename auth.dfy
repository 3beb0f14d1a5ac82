/**
 * The mock authentication service: a list of registered users and a
 * "current user" session record, each kept under its own browser-storage key.
 * Here the two keys are the two fields of `AuthStore`; an absent key is an
 * empty list or no session.
 */
module Auth {
  import opened Wrappers

  /** A stored user; the password is optional and kept as plain text. */
  datatype User = User(name: string, email: string, password: Option<string>)

  /** The session record: a copy of the signed-in user's name and email. */
  datatype Session = Session(name: string, email: string)

  /** The `{ success, message }` object every operation returns instead of throwing. */
  datatype AuthResult = AuthResult(success: bool, message: string)

  const EmailExists := "Email already exists"
  const RegistrationSuccessful := "Registration successful"
  const LoginSuccessful := "Login successful"
  const InvalidCredentials := "Invalid email or password"

  /** `users.some(u => u.email === email)`: the uniqueness scan done on registration. */
  function EmailTaken(users: seq<User>, email: string): (taken: bool)
    ensures taken <==> exists i :: 0 <= i < |users| && users[i].email == email
  {
    if users == [] then false
    else users[0].email == email || EmailTaken(users[1..], email)
  }

  /**
   * The login test for one stored user. A user stored without a password
   * never matches, since `undefined === password` is false for every string.
   */
  predicate Matches(u: User, email: string, password: string)
  {
    u.email == email && u.password == Some(password)
  }

  /** `users.find(...)` at login, as the index of the first matching user. */
  function FirstMatch(users: seq<User>, email: string, password: string): (r: Option<nat>)
    ensures r.Some? ==> r.value < |users| && Matches(users[r.value], email, password)
    ensures r.Some? ==> forall j :: 0 <= j < r.value ==> !Matches(users[j], email, password)
    ensures r.None? <==> forall j :: 0 <= j < |users| ==> !Matches(users[j], email, password)
  {
    if users == [] then None
    else if Matches(users[0], email, password) then Some(0)
    else match FirstMatch(users[1..], email, password)
      case None => None
      case Some(k) => Some(k + 1)
  }

  /** No two stored users share an email. */
  ghost predicate EmailsDistinct(users: seq<User>)
  {
    forall i, j :: 0 <= i < j < |users| ==> users[i].email != users[j].email
  }

  /** Appending a user whose email is not taken keeps the emails distinct. */
  lemma AppendKeepsDistinct(users: seq<User>, u: User)
    requires !EmailTaken(users, u.email)
    ensures EmailsDistinct(users) ==> EmailsDistinct(users + [u])
  {
  }

  /**
   * With distinct emails, the user a login finds is the only stored user with
   * that email, so the session names the account the email belongs to.
   */
  lemma LoginFindsOwner(users: seq<User>, email: string, password: string, j: nat)
    requires EmailsDistinct(users)
    requires FirstMatch(users, email, password).Some?
    requires j < |users| && users[j].email == email
    ensures FirstMatch(users, email, password) == Some(j)
  {
  }

  class AuthStore {
    /** The parsed `seyone_users` key. */
    var users: seq<User>
    /** The parsed `seyone_current_user` key; `None` when the key is absent. */
    var current: Option<Session>
    /** The number of `auth-change` events dispatched so far. */
    ghost var events: nat

    /** Both keys absent: no users and nobody signed in. */
    constructor ()
      ensures users == [] && current == None && events == 0
    {
      users := [];
      current := None;
      events := 0;
    }

    /** Storage as found: a missing users key reads as the empty list. */
    constructor FromStorage(storedUsers: Option<seq<User>>, storedSession: Option<Session>)
      ensures users == (if storedUsers.Some? then storedUsers.value else [])
      ensures current == storedSession && events == 0
    {
      users := if storedUsers.Some? then storedUsers.value else [];
      current := storedSession;
      events := 0;
    }

    /**
     * `register(user)`: refuses an email already on file and otherwise appends
     * the user, signs them in and announces the change.
     */
    method Register(user: User) returns (r: AuthResult)
      modifies this
      ensures EmailTaken(old(users), user.email) ==>
        && r == AuthResult(false, EmailExists)
        && users == old(users) && current == old(current) && events == old(events)
      ensures !EmailTaken(old(users), user.email) ==>
        && r == AuthResult(true, RegistrationSuccessful)
        && users == old(users) + [user]
        && current == Some(Session(user.name, user.email))
        && events == old(events) + 1
      ensures old(EmailsDistinct(users)) ==> EmailsDistinct(users)
    {
      if EmailTaken(users, user.email) {
        return AuthResult(false, EmailExists);
      }
      AppendKeepsDistinct(users, user);
      users := users + [user];
      current := Some(Session(user.name, user.email));
      events := events + 1;
      r := AuthResult(true, RegistrationSuccessful);
    }

    /**
     * `login(email, password)`: signs in the first stored user whose email and
     * password both match; otherwise reports a generic failure.
     */
    method Login(email: string, password: string) returns (r: AuthResult)
      modifies this`current, this`events
      ensures users == old(users)
      ensures r.success <==> exists i :: 0 <= i < |users| && Matches(users[i], email, password)
      ensures match FirstMatch(users, email, password)
        case Some(i) =>
          && r == AuthResult(true, LoginSuccessful)
          && current == Some(Session(users[i].name, users[i].email))
          && events == old(events) + 1
        case None =>
          && r == AuthResult(false, InvalidCredentials)
          && current == old(current) && events == old(events)
    {
      match FirstMatch(users, email, password)
      case Some(i) =>
        current := Some(Session(users[i].name, users[i].email));
        events := events + 1;
        r := AuthResult(true, LoginSuccessful);
      case None =>
        r := AuthResult(false, InvalidCredentials);
    }

    /** `logout()`: removes the session key unconditionally, so it is idempotent. */
    method Logout()
      modifies this`current, this`events
      ensures current == None && events == old(events) + 1
    {
      current := None;
      events := events + 1;
    }

    /** `getCurrentUser()`: a pure read of the session key. */
    method GetCurrentUser() returns (s: Option<Session>)
      ensures s == current
    {
      s := current;
    }
  }

  /** The register/login walk-through: a duplicate email and a wrong password both fail. */
  method RegisterThenLogin()
  {
    var store := new AuthStore();
    var a := User("A", "a@x.com", Some("p"));
    var r := store.Register(a);
    assert r.success && store.users == [a];
    r := store.Register(User("B", "a@x.com", Some("q")));
    assert r == AuthResult(false, EmailExists) && store.users == [a];
    store.Logout();
    r := store.Login("a@x.com", "wrong");
    assert r == AuthResult(false, InvalidCredentials) && store.current == None;
    r := store.Login("a@x.com", "p");
    assert r.success;
    var s := store.GetCurrentUser();
    assert s == Some(Session("A", "a@x.com"));
    store.Logout();
    s := store.GetCurrentUser();
    assert s == None;
  }
}
