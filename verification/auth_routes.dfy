/**
 * Registration (`POST /api/auth/register`) and login (`POST /api/auth/login`) over the user
 * store. Password hashing, password checking, token signing and the email format check are
 * collaborators and are given as functions.
 */
module AuthRoutes {
  import opened Wrappers
  import opened Json
  import V = Validators
  import Text
  import opened Store

  /** The collaborators both endpoints use. */
  datatype Crypto = Crypto(
    isEmail: string -> bool,
    hashPassword: string -> string,
    verifyPassword: (string, string) -> bool,
    generateToken: TokenPayload -> string)

  /** The user as returned to the client: id, email, name and role, never the password hash. */
  datatype PublicUser = PublicUser(id: string, email: string, name: string, role: V.Role)

  datatype Body =
    | Error(message: string)
    | Invalid(issues: seq<string>)
    | Authenticated(user: PublicUser, token: string)

  datatype Response = Response(status: nat, body: Body)

  /** A response together with the user store after the request. */
  datatype Registered = Registered(response: Response, users: seq<User>)

  const DuplicateMessage: string := "User with this email already exists"
  const RegisterFailed: string := "Registration failed"
  const InvalidCredentials: string := "Invalid email or password"
  const LoginFailed: string := "Login failed"

  /** No two users share an email, as the unique column guarantees. */
  predicate UniqueEmails(users: seq<User>) {
    forall i, j :: 0 <= i < j < |users| ==> users[i].email != users[j].email
  }

  /** `findUnique({ where: { email } })`: the user with this email, if any. */
  function FindByEmail(users: seq<User>, email: string): (r: Option<User>)
    ensures r.Some? ==> r.value in users && r.value.email == email
    ensures r.None? <==> forall i :: 0 <= i < |users| ==> users[i].email != email
  {
    if |users| == 0 then None
    else if users[0].email == email then Some(users[0])
    else FindByEmail(users[1..], email)
  }

  function Public(u: User): (p: PublicUser)
    ensures p.id == u.id && p.email == u.email && p.name == u.name && p.role == u.role
  {
    PublicUser(u.id, u.email, u.name, u.role)
  }

  function PayloadOf(u: User): (p: TokenPayload)
    ensures p.userId == u.id && p.email == u.email && p.role == u.role
  {
    TokenPayload(u.id, u.email, u.role)
  }

  /** The row registration creates: the password replaced by its hash, an empty date of birth stored as null. */
  function NewUser(input: V.RegisterInput, id: string, crypto: Crypto): (u: User)
    ensures u.id == id && u.email == input.email && u.name == input.name && u.role == input.role
    ensures u.password == crypto.hashPassword(input.password) && u.phone == input.phone
    ensures u.dateOfBirth.Some? <==> input.dateOfBirth.Some? && input.dateOfBirth.value != ""
  {
    User(id, input.email, crypto.hashPassword(input.password), input.name, input.phone,
         if input.dateOfBirth.Some? && input.dateOfBirth.value != "" then input.dateOfBirth else None,
         input.role)
  }

  /**
   * `POST /api/auth/register`: `body` is the parsed JSON body or the parse error message,
   * `newId` the id the store assigns and `create` the outcome of the insert.
   */
  function Register(body: Result<Json, string>, crypto: Crypto, newId: string, create: Outcome<string>,
                    users: seq<User>): (r: Registered)
    ensures r.response.status in {201, 400}
    ensures r.response.status == 201 <==>
              body.Ok? && V.ParseRegister(body.value, crypto.isEmail).Ok?
              && FindByEmail(users, V.ParseRegister(body.value, crypto.isEmail).value.email).None?
              && create == Done
    ensures r.response.status == 201 ==>
              var u := NewUser(V.ParseRegister(body.value, crypto.isEmail).value, newId, crypto);
              && r.users == users + [u]
              && r.response.body == Authenticated(Public(u), crypto.generateToken(PayloadOf(u)))
    ensures r.response.status != 201 ==> r.users == users
    ensures body.Ok? && V.ParseRegister(body.value, crypto.isEmail).Ok?
            && FindByEmail(users, V.ParseRegister(body.value, crypto.isEmail).value.email).Some? ==>
              r.response == Response(400, Error(DuplicateMessage))
    ensures UniqueEmails(users) ==> UniqueEmails(r.users)
  {
    match body
    case Err(message) => Registered(Response(400, Error(Text.MessageOr(message, RegisterFailed))), users)
    case Ok(json) =>
      match V.ParseRegister(json, crypto.isEmail)
      case Err(issues) => Registered(Response(400, Invalid(issues)), users)
      case Ok(input) =>
        if FindByEmail(users, input.email).Some? then
          Registered(Response(400, Error(DuplicateMessage)), users)
        else
          match create
          case Failed(message) => Registered(Response(400, Error(Text.MessageOr(message, RegisterFailed))), users)
          case Done =>
            var u := NewUser(input, newId, crypto);
            Registered(Response(201, Authenticated(Public(u), crypto.generateToken(PayloadOf(u)))), users + [u])
  }

  /** `POST /api/auth/login`. It only reads the store, so it returns no new one. */
  function Login(body: Result<Json, string>, crypto: Crypto, users: seq<User>): (resp: Response)
    ensures resp.status in {200, 400, 401}
    ensures resp.status == 400 <==> body.Err? || V.ParseLogin(body.value, crypto.isEmail).Err?
    ensures resp.status == 401 ==> resp.body == Error(InvalidCredentials)
    ensures resp.status == 200 <==>
              body.Ok? && V.ParseLogin(body.value, crypto.isEmail).Ok?
              && var input := V.ParseLogin(body.value, crypto.isEmail).value;
                 FindByEmail(users, input.email).Some?
                 && crypto.verifyPassword(input.password, FindByEmail(users, input.email).value.password)
    ensures resp.status == 200 ==>
              var u := FindByEmail(users, V.ParseLogin(body.value, crypto.isEmail).value.email).value;
              resp.body == Authenticated(Public(u), crypto.generateToken(PayloadOf(u)))
  {
    match body
    case Err(message) => Response(400, Error(Text.MessageOr(message, LoginFailed)))
    case Ok(json) =>
      match V.ParseLogin(json, crypto.isEmail)
      case Err(issues) => Response(400, Invalid(issues))
      case Ok(input) =>
        match FindByEmail(users, input.email)
        case None => Response(401, Error(InvalidCredentials))
        case Some(u) =>
          if !crypto.verifyPassword(input.password, u.password) then Response(401, Error(InvalidCredentials))
          else Response(200, Authenticated(Public(u), crypto.generateToken(PayloadOf(u))))
  }

  // ---- properties of the two endpoints ----

  /** An unknown email and a wrong password get the same answer, so the answer does not reveal which accounts exist. */
  lemma UnknownEmailLooksLikeWrongPassword(body: Json, crypto: Crypto, users: seq<User>, others: seq<User>)
    requires V.ParseLogin(body, crypto.isEmail).Ok?
    requires FindByEmail(users, V.ParseLogin(body, crypto.isEmail).value.email).None?
    requires FindByEmail(others, V.ParseLogin(body, crypto.isEmail).value.email).Some?
    requires !crypto.verifyPassword(V.ParseLogin(body, crypto.isEmail).value.password,
                                    FindByEmail(others, V.ParseLogin(body, crypto.isEmail).value.email).value.password)
    ensures Login(Ok(body), crypto, users) == Login(Ok(body), crypto, others) == Response(401, Error(InvalidCredentials))
  {
  }

  /** Registering and then logging in with the same email and password succeeds whenever the hash verifies its password. */
  lemma RegisterThenLogin(reg: Json, login: Json, crypto: Crypto, newId: string, users: seq<User>)
    requires UniqueEmails(users)
    requires Register(Ok(reg), crypto, newId, Done, users).response.status == 201
    requires V.ParseLogin(login, crypto.isEmail).Ok?
    requires V.ParseLogin(login, crypto.isEmail).value.email == V.ParseRegister(reg, crypto.isEmail).value.email
    requires V.ParseLogin(login, crypto.isEmail).value.password == V.ParseRegister(reg, crypto.isEmail).value.password
    requires forall p :: crypto.verifyPassword(p, crypto.hashPassword(p))
    ensures Login(Ok(login), crypto, Register(Ok(reg), crypto, newId, Done, users).users).status == 200
  {
    var input := V.ParseRegister(reg, crypto.isEmail).value;
    var u := NewUser(input, newId, crypto);
    FindAppended(users, u);
  }

  /** Looking up the email of a user appended to a store without that email finds that user. */
  lemma {:induction false} FindAppended(users: seq<User>, u: User)
    requires FindByEmail(users, u.email).None?
    ensures FindByEmail(users + [u], u.email) == Some(u)
    decreases |users|
  {
    if |users| > 0 {
      assert (users + [u])[1..] == users[1..] + [u];
      FindAppended(users[1..], u);
    }
  }
}
