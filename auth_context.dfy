/** The client's local account mock (frontend/src/contexts/AuthContext.tsx):
    a current user, a loading flag, and two browser-storage keys, the stored
    current user and the stored list of users. Passwords are accepted and
    ignored; the generated id and the clock are parameters. The toasts are
    left out; a thrown error is returned as its message. */
module AuthContext {
  import opened Support

  datatype LocalUser = LocalUser(id: string, email: string, name: string, role: string,
                                 createdAt: int, updatedAt: int)

  /** How a call ends: normally, or by rethrowing an error with this message. */
  datatype Outcome = Done | Thrown(message: string)

  /** `users.find(u => u.email === email)`. */
  function FindUser(users: seq<LocalUser>, email: string): (r: Option<LocalUser>)
    ensures r.Some? ==> r.value in users && r.value.email == email
    ensures r.None? <==> forall u :: u in users ==> u.email != email
    ensures forall i :: (0 <= i < |users| && users[i].email == email &&
                         (forall j :: 0 <= j < i ==> users[j].email != email)) ==> r == Some(users[i])
  {
    if users == [] then None
    else if users[0].email == email then Some(users[0])
    else
      var t := users[1..];
      assert forall i :: 1 <= i < |users| ==> users[i] == t[i - 1];
      FindUser(t, email)
  }

  predicate UniqueEmails(users: seq<LocalUser>)
  {
    forall i, j :: 0 <= i < j < |users| ==> users[i].email != users[j].email
  }

  class AuthProvider {
    var user: Option<LocalUser>
    var isLoading: bool
    /** The `medical_planner_user` key. */
    var storedUser: Option<LocalUser>
    /** The `medical_planner_users` key, read as `[]` when absent. */
    var storedUsers: seq<LocalUser>

    constructor (stored: Option<LocalUser>, users: seq<LocalUser>)
      ensures user.None? && isLoading && storedUser == stored && storedUsers == users
    {
      user := None;
      isLoading := true;
      storedUser := stored;
      storedUsers := users;
    }

    /** The mount effect: resume the stored user, if any. */
    method Mount()
      modifies this
      ensures user == (if old(storedUser).Some? then old(storedUser) else old(user))
      ensures !isLoading && storedUser == old(storedUser) && storedUsers == old(storedUsers)
    {
      if storedUser.Some? {
        user := storedUser;
      }
      isLoading := false;
    }

    /** `login`: any stored email signs in, whatever the password; an
        unknown one throws 'Invalid credentials' and changes no user. */
    method Login(email: string, password: string) returns (r: Outcome)
      modifies this
      ensures !isLoading && storedUsers == old(storedUsers)
      ensures FindUser(old(storedUsers), email).None? ==>
        r == Thrown("Invalid credentials") && user == old(user) && storedUser == old(storedUser)
      ensures FindUser(old(storedUsers), email).Some? ==>
        r == Done && user == FindUser(old(storedUsers), email) && storedUser == user
    {
      isLoading := true;
      var found := FindUser(storedUsers, email);
      if found.None? {
        isLoading := false;
        return Thrown("Invalid credentials");
      }
      user := found;
      storedUser := found;
      isLoading := false;
      r := Done;
    }

    /** `signup`: a taken email throws 'User already exists' and changes
        nothing; otherwise the new user is appended to the stored list and
        becomes the current and the stored user. */
    method Signup(email: string, password: string, name: string, role: string, newId: string, now: int)
      returns (r: Outcome)
      modifies this
      ensures !isLoading
      ensures UniqueEmails(old(storedUsers)) ==> UniqueEmails(storedUsers)
      ensures FindUser(old(storedUsers), email).Some? ==>
        r == Thrown("User already exists") && storedUsers == old(storedUsers) &&
        user == old(user) && storedUser == old(storedUser)
      ensures FindUser(old(storedUsers), email).None? ==>
        var u := LocalUser(newId, email, name, role, now, now);
        r == Done && storedUsers == old(storedUsers) + [u] && user == Some(u) && storedUser == Some(u)
    {
      isLoading := true;
      if FindUser(storedUsers, email).Some? {
        isLoading := false;
        return Thrown("User already exists");
      }
      var u := LocalUser(newId, email, name, role, now, now);
      storedUsers := storedUsers + [u];
      user := Some(u);
      storedUser := Some(u);
      isLoading := false;
      r := Done;
    }

    /** `logout`: no current user, no stored user, the user list untouched. */
    method Logout()
      modifies this
      ensures user.None? && storedUser.None?
      ensures storedUsers == old(storedUsers) && isLoading == old(isLoading)
    {
      user := None;
      storedUser := None;
    }
  }

  /** After a sign-up the new email is taken, so signing up again with it fails. */
  lemma SignupTakesEmail(users: seq<LocalUser>, u: LocalUser)
    ensures FindUser(users + [u], u.email).Some?
  {
    assert u in users + [u];
  }

  /** After a sign-up, logging in with its email signs in the new user, and
      logging in with any other email finds whom it found before. */
  lemma {:induction false} SignupThenLogin(users: seq<LocalUser>, u: LocalUser, email: string)
    requires FindUser(users, u.email).None?
    ensures FindUser(users + [u], email) == if email == u.email then Some(u) else FindUser(users, email)
  {
    if users != [] {
      assert (users + [u])[1..] == users[1..] + [u];
      if users[0].email != email {
        SignupThenLogin(users[1..], u, email);
      }
    }
  }
}
