/**
 * The mock identity gate (services/authService.ts): a list of registered
 * users and a session slot, both kept in browser storage. Passwords are not
 * checked. Fresh identifiers come in as parameters.
 */
module Auth {
  import opened Common

  datatype User = User(id: string, email: string, name: string, avatar: Option<string>)

  const InvalidCredentials: string := "Invalid credentials. Please register first."
  const EmailAlreadyRegistered: string := "Email already registered."

  const GoogleIdPrefix: string := "google_"
  const GoogleEmail: string := "pilot.demo@gmail.com"
  const GoogleName: string := "Google Pilot"
  const GoogleAvatar: string := "https://lh3.googleusercontent.com/a/default-user"

  /** `users.find(u => u.email === email)`, as the index of the first match. */
  function FirstWithEmail(users: seq<User>, email: string): (r: Option<nat>)
    ensures r.Some? ==> r.value < |users| && users[r.value].email == email
    ensures r.Some? ==> forall j :: 0 <= j < r.value ==> users[j].email != email
    ensures r.None? <==> forall j :: 0 <= j < |users| ==> users[j].email != email
  {
    if |users| == 0 then None
    else if users[0].email == email then Some(0)
    else
      match FirstWithEmail(users[1..], email)
      case None => None
      case Some(k) => Some(k + 1)
  }

  /** No two registered users share an email. */
  ghost predicate DistinctEmails(users: seq<User>) {
    forall i, j :: 0 <= i < j < |users| ==> users[i].email != users[j].email
  }

  /** The Google sign-in user for a fresh identifier. */
  function GoogleUser(uuid: string): (u: User)
    ensures u.email == GoogleEmail
    ensures |GoogleIdPrefix| <= |u.id| && u.id[..|GoogleIdPrefix|] == GoogleIdPrefix
  {
    User(GoogleIdPrefix + uuid, GoogleEmail, GoogleName, Some(GoogleAvatar))
  }

  /** After registering an unused email, a login with it finds the new user. */
  lemma {:induction false} RegisteredUserIsFound(users: seq<User>, u: User)
    requires FirstWithEmail(users, u.email).None?
    ensures FirstWithEmail(users + [u], u.email) == Some(|users|)
    decreases |users|
  {
    if |users| > 0 {
      assert (users + [u])[1..] == users[1..] + [u];
      RegisteredUserIsFound(users[1..], u);
    }
  }

  /** Appending a user with an unused email keeps emails distinct. */
  lemma AppendKeepsDistinct(users: seq<User>, u: User)
    requires DistinctEmails(users)
    requires FirstWithEmail(users, u.email).None?
    ensures DistinctEmails(users + [u])
  {
  }

  /** Among distinct emails, the first match is the only match. */
  lemma FirstMatchIsUnique(users: seq<User>, email: string, k: nat)
    requires DistinctEmails(users)
    requires k < |users| && users[k].email == email
    ensures FirstWithEmail(users, email) == Some(k)
  {
  }

  class AuthService {
    /** The registered users ('focuspilot_users'). */
    var users: seq<User>
    /** The signed-in user (the session slot), if any. */
    var session: Option<User>

    ghost predicate Valid()
      reads this
    {
      DistinctEmails(users)
    }

    /** A browser with nothing stored yet. */
    constructor ()
      ensures Valid()
      ensures users == [] && session == None
    {
      users := [];
      session := None;
    }

    method GetCurrentUser() returns (u: Option<User>)
      ensures u == session
    {
      u := session;
    }

    /** Signs in the first user with this email; the password is ignored. */
    method Login(email: string, password: string) returns (r: Result<User, string>)
      requires Valid()
      modifies this
      ensures Valid() && users == old(users)
      ensures FirstWithEmail(users, email).None? ==>
        r == Err(InvalidCredentials) && session == old(session)
      ensures FirstWithEmail(users, email).Some? ==>
        var u := users[FirstWithEmail(users, email).value];
        r == Ok(u) && session == Some(u)
    {
      var found := FirstWithEmail(users, email);
      if found.None? {
        return Err(InvalidCredentials);
      }
      var u := users[found.value];
      session := Some(u);
      r := Ok(u);
    }

    /** Signs in a fixed demonstration user without registering it. */
    method LoginWithGoogle(uuid: string) returns (u: User)
      requires Valid()
      modifies this
      ensures Valid() && users == old(users)
      ensures u == GoogleUser(uuid) && session == Some(u)
    {
      u := GoogleUser(uuid);
      session := Some(u);
    }

    /** Registers a new user and signs it in, unless the email is taken. */
    method Register(name: string, email: string, uuid: string) returns (r: Result<User, string>)
      requires Valid()
      modifies this
      ensures Valid()
      ensures FirstWithEmail(old(users), email).Some? ==>
        r == Err(EmailAlreadyRegistered) && users == old(users) && session == old(session)
      ensures FirstWithEmail(old(users), email).None? ==>
        var u := User(uuid, email, name, None);
        r == Ok(u) && users == old(users) + [u] && session == Some(u)
    {
      if FirstWithEmail(users, email).Some? {
        return Err(EmailAlreadyRegistered);
      }
      var u := User(uuid, email, name, None);
      AppendKeepsDistinct(users, u);
      users := users + [u];
      session := Some(u);
      r := Ok(u);
    }

    /** Ends the session; the registered users stay. */
    method Logout()
      requires Valid()
      modifies this
      ensures Valid() && users == old(users) && session == None
    {
      session := None;
    }
  }
}
