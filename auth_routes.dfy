/** The account routes (frontend/server/src/routes/auth.js) over the user
    collection. Password hashing, `comparePassword` and token signing are not
    modelled: the hash arrives with the request, password matching is a
    parameter, and a token only names the user it was issued for. Each
    handler sees the body as its validation chain left it (name trimmed,
    email normalized). */
module AuthRoutes {
  import opened Support

  type Id = string

  /** A user document. */
  datatype User = User(
    id: Id, email: string, passwordHash: string, name: string, role: string,
    phone: Option<string>, isActive: bool, createdAt: int, updatedAt: int)

  /** The user as the responses show it: every field but the password. */
  datatype PublicUser = PublicUser(
    id: Id, email: string, name: string, role: string, phone: Option<string>,
    createdAt: int, updatedAt: int)

  function Public(u: User): PublicUser
  {
    PublicUser(u.id, u.email, u.name, u.role, u.phone, u.createdAt, u.updatedAt)
  }

  /** A signed session token for a user. */
  datatype Token = Token(userId: Id)

  datatype AuthResponse =
    | Authenticated(status: int, user: PublicUser, token: Token)
    | Failure(status: int, message: string)

  const UserExists := "User already exists with this email"
  const InvalidCredentials := "Invalid credentials"
  const AccountDeactivated := "Account is deactivated"

  /** `User.findOne({ email })`: the first user with that email, or -1. */
  function FindByEmail(users: seq<User>, email: string): (i: int)
    ensures -1 <= i < |users|
    ensures i >= 0 ==> users[i].email == email && forall j :: 0 <= j < i ==> users[j].email != email
    ensures i == -1 ==> forall j :: 0 <= j < |users| ==> users[j].email != email
  {
    if users == [] then -1
    else if users[0].email == email then 0
    else
      var k := FindByEmail(users[1..], email);
      if k == -1 then -1 else k + 1
  }

  /** `User.findById(id)`: the user with that id, if any. */
  function FindById(users: seq<User>, id: Option<Id>): (r: Option<User>)
    ensures r.Some? ==> id.Some? && r.value in users && r.value.id == id.value
    ensures r.None? ==> id.None? || forall u :: u in users ==> u.id != id.value
  {
    if id.None? || users == [] then None
    else if users[0].id == id.value then Some(users[0])
    else FindById(users[1..], id)
  }

  /** The stored phone: `phone || undefined` turns an empty phone into none. */
  function StoredPhone(phone: Option<string>): (r: Option<string>)
    ensures r.Some? <==> phone.Some? && phone.value != ""
    ensures r.Some? ==> r == phone
  {
    if phone.Some? && phone.value != "" then phone else None
  }

  /** The login decision, in the handler's order: unknown email, then a
      deactivated account, then a wrong password. */
  function Login(users: seq<User>, email: string, password: string,
                 matches: (string, string) -> bool): (r: AuthResponse)
    ensures r.Authenticated? <==>
      var i := FindByEmail(users, email);
      i >= 0 && users[i].isActive && matches(password, users[i].passwordHash)
    ensures r.Authenticated? ==>
      r.status == 200 && r.user == Public(users[FindByEmail(users, email)]) &&
      r.token == Token(users[FindByEmail(users, email)].id)
    ensures FindByEmail(users, email) == -1 ==> r == Failure(401, InvalidCredentials)
    ensures FindByEmail(users, email) >= 0 && !users[FindByEmail(users, email)].isActive ==>
      r == Failure(401, AccountDeactivated)
    ensures FindByEmail(users, email) >= 0 && users[FindByEmail(users, email)].isActive &&
            !matches(password, users[FindByEmail(users, email)].passwordHash) ==>
      r == Failure(401, InvalidCredentials)
    ensures r.Failure? ==> r.status == 401
  {
    var i := FindByEmail(users, email);
    if i == -1 then Failure(401, InvalidCredentials)
    else if !users[i].isActive then Failure(401, AccountDeactivated)
    else if !matches(password, users[i].passwordHash) then Failure(401, InvalidCredentials)
    else Authenticated(200, Public(users[i]), Token(users[i].id))
  }

  /** A deactivated account is refused before the password is looked at:
      the answer is the same whatever the password and the matcher. */
  lemma DeactivatedBeforePassword(users: seq<User>, email: string, p1: string, p2: string,
                                  m1: (string, string) -> bool, m2: (string, string) -> bool)
    requires FindByEmail(users, email) >= 0 && !users[FindByEmail(users, email)].isActive
    ensures Login(users, email, p1, m1) == Login(users, email, p2, m2) == Failure(401, AccountDeactivated)
  {
  }

  /** The user collection. */
  class UserStore {
    var users: seq<User>

    /** Emails and ids are unique. */
    predicate Valid()
      reads this
    {
      forall i, j :: 0 <= i < j < |users| ==> users[i].email != users[j].email && users[i].id != users[j].id
    }

    constructor ()
      ensures Valid() && users == []
    {
      users := [];
    }

    /** `POST /register`. A new user is active; the `User` model that sets
        that default is not part of this model. */
    method Register(email: string, passwordHash: string, name: string, role: string,
                    phone: Option<string>, newId: Id, now: int) returns (r: AuthResponse)
      requires Valid()
      requires forall u :: u in users ==> u.id != newId
      modifies this
      ensures Valid()
      ensures FindByEmail(old(users), email) >= 0 ==>
        r == Failure(400, UserExists) && users == old(users)
      ensures FindByEmail(old(users), email) == -1 ==>
        var u := User(newId, email, passwordHash, name, role, StoredPhone(phone), true, now, now);
        users == old(users) + [u] && r == Authenticated(201, Public(u), Token(newId))
    {
      if FindByEmail(users, email) >= 0 {
        return Failure(400, UserExists);
      }
      var u := User(newId, email, passwordHash, name, role, StoredPhone(phone), true, now, now);
      users := users + [u];
      r := Authenticated(201, Public(u), Token(newId));
    }

    /** `POST /logout` only acknowledges; it reads and changes no state. */
    method Logout() returns (message: string)
      ensures message == "Logged out successfully"
    {
      message := "Logged out successfully";
    }
  }

  /** A registration leaves at most one user per email. */
  lemma RegisterKeepsEmailsUnique(users: seq<User>, u: User)
    requires forall i, j :: 0 <= i < j < |users| ==> users[i].email != users[j].email
    requires FindByEmail(users, u.email) == -1
    ensures forall i, j :: 0 <= i < j < |users + [u]| ==> (users + [u])[i].email != (users + [u])[j].email
  {
  }
}
