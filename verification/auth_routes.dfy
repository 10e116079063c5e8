/** The account routes of backend/auth_routes.py: register, login, the
    current user and logout.  Password hashing, its check and token
    creation are outside the model: they are passed in as functions. */
module AuthRoutes {
  import opened Common
  import opened Models

  const EMAIL_TAKEN: string := "Email already registered"
  const CREDENTIALS_REQUIRED: string := "Email and password are required"
  const INVALID_CREDENTIALS: string := "Invalid email or password"
  const USER_NOT_FOUND: string := "User not found"
  const REGISTERED: string := "User registered successfully"
  const LOGGED_IN: string := "Login successful"
  const LOGGED_OUT: string := "Logout successful"

  /** The JSON body of a registration; None is a missing key. */
  datatype RegisterBody = RegisterBody(email: Option<string>, password: Option<string>,
                                       nome: Option<string>, tipoUsuario: Option<string>,
                                       telefone: Option<string>)

  const REGISTER_REQUIRED: seq<string> := ["email", "password", "nome"]

  /** `data.get(field)` is truthy. */
  predicate RegisterFieldPresent(body: RegisterBody, field: string)
  {
    if field == "email" then Truthy(body.email)
    else if field == "password" then Truthy(body.password)
    else if field == "nome" then Truthy(body.nome)
    else false
  }

  /** The user dictionary a login or `/me` returns: `vereador_id` (and on
      `/me` the councilmember's own dictionary) only for a councilmember
      account that has a profile. */
  datatype UserData = UserData(user: UserView, vereadorId: Option<nat>, vereadorProfile: Option<VereadorView>)

  datatype AuthPayload = AuthPayload(message: string, token: string, user: UserData)

  /** Selects the account with this email. */
  function EmailIs(email: string): User -> bool
  {
    (u: User) => u.email == email
  }

  /** The councilmember profile of a councilmember account
      (`Vereador.query.filter_by(user_id=user.id).first()`). */
  function ProfileOf(vereadores: seq<Vereador>, u: User): (r: Option<Vereador>)
    ensures r.None? <==> u.tipoUsuario != VEREADOR || forall i :: 0 <= i < |vereadores| ==> vereadores[i].userId != u.id
    ensures r.Some? ==> r.value in vereadores && r.value.userId == u.id && u.tipoUsuario == VEREADOR
  {
    if u.tipoUsuario != VEREADOR then None
    else First(vereadores, (v: Vereador) => v.userId == u.id)
  }

  // ------------------------------------------------ POST /api/auth/register

  method Register(db: Database, body: RegisterBody, hash: string -> string, token: int -> string, now: int)
    returns (r: Reply<AuthPayload>)
    requires db.Valid()
    modifies db
    ensures db.Valid()
    ensures db.vereadores == old(db.vereadores) && db.categorias == old(db.categorias)
         && db.bairros == old(db.bairros) && db.solicitacoes == old(db.solicitacoes)
    ensures !RegisterFieldPresent(body, "email") ==> r == Fail(400, RequiredMessage("email"))
    ensures RegisterFieldPresent(body, "email") && !RegisterFieldPresent(body, "password")
            ==> r == Fail(400, RequiredMessage("password"))
    ensures RegisterFieldPresent(body, "email") && RegisterFieldPresent(body, "password")
            && !RegisterFieldPresent(body, "nome")
            ==> r == Fail(400, RequiredMessage("nome"))
    ensures Truthy(body.email) && Truthy(body.password) && Truthy(body.nome)
            && (exists i :: 0 <= i < |old(db.users)| && old(db.users)[i].email == body.email.value)
            ==> r == Fail(400, EMAIL_TAKEN)
    ensures r.Fail? ==> db.users == old(db.users)
    ensures r.Ok? <==> Truthy(body.email) && Truthy(body.password) && Truthy(body.nome)
                       && forall i :: 0 <= i < |old(db.users)| ==> old(db.users)[i].email != body.email.value
    ensures r.Ok? ==>
              && |db.users| == |old(db.users)| + 1 && db.users[..|old(db.users)|] == old(db.users)
              && var u := db.users[|old(db.users)|];
                 && (forall i :: 0 <= i < |old(db.users)| ==> old(db.users)[i].id != u.id)
                 && u.email == body.email.value && u.nome == body.nome.value
                 && u.passwordHash == hash(body.password.value)
                 && u.tipoUsuario == (if body.tipoUsuario.Some? then body.tipoUsuario.value else CIDADAO)
                 && u.telefone == body.telefone && u.createdAt == now
                 && First(db.users, EmailIs(u.email)) == Some(u)
                 && r == Ok(201, AuthPayload(REGISTERED, token(u.id), UserData(UserToDict(u), None, None)))
  {
    var missing := MissingRegisterField(body);
    if missing.Some? {
      return Fail(400, RequiredMessage(missing.value));
    }
    var email := body.email.value;
    var existing := First(db.users, EmailIs(email));
    if existing.Some? {
      return Fail(400, EMAIL_TAKEN);
    }
    var u := User(db.nextUserId, email, hash(body.password.value), body.nome.value,
                  if body.tipoUsuario.Some? then body.tipoUsuario.value else CIDADAO,
                  body.telefone, now);
    assert forall i :: 0 <= i < |db.users| ==> db.users[i].id != u.id by {
      assert BelowBy(db.users, UserIdOf, db.nextUserId);
      forall i | 0 <= i < |db.users| ensures db.users[i].id != u.id {
        assert UserIdOf(db.users[i]) < db.nextUserId;
      }
    }
    FirstAppended(db.users, u, EmailIs(email));
    db.AddUser(u);
    assert db.users[|old(db.users)|] == u;
    return Ok(201, AuthPayload(REGISTERED, token(u.id), UserData(UserToDict(u), None, None)));
  }

  /** The required-field loop of `register`: the first of email, password
      and nome whose value is falsy. */
  method MissingRegisterField(body: RegisterBody) returns (missing: Option<string>)
    ensures missing == if !Truthy(body.email) then Some("email")
                       else if !Truthy(body.password) then Some("password")
                       else if !Truthy(body.nome) then Some("nome")
                       else None
  {
    missing := FirstFalsy(REGISTER_REQUIRED, field => RegisterFieldPresent(body, field));
    assert REGISTER_REQUIRED[0] == "email" && REGISTER_REQUIRED[1] == "password"
        && REGISTER_REQUIRED[2] == "nome";
    if missing.Some? {
      ghost var k :| 0 <= k < |REGISTER_REQUIRED| && REGISTER_REQUIRED[k] == missing.value
               && !RegisterFieldPresent(body, REGISTER_REQUIRED[k])
               && forall j :: 0 <= j < k ==> RegisterFieldPresent(body, REGISTER_REQUIRED[j]);
      assert k == 0 || k == 1 || k == 2;
    } else {
      assert RegisterFieldPresent(body, REGISTER_REQUIRED[0]) && RegisterFieldPresent(body, REGISTER_REQUIRED[1])
          && RegisterFieldPresent(body, REGISTER_REQUIRED[2]);
    }
  }

  /** The reply of a registration whose required field `field` is missing. */
  function RequiredMessage(field: string): string
  {
    field + " is required"
  }

  // --------------------------------------------------- POST /api/auth/login

  datatype LoginBody = LoginBody(email: Option<string>, password: Option<string>)

  /** `checkPassword(hash, password)` is the password check. */
  method Login(db: Database, body: LoginBody, checkPassword: (string, string) -> bool, token: int -> string)
    returns (r: Reply<AuthPayload>)
    ensures !Truthy(body.email) || !Truthy(body.password) <==> r == Fail(400, CREDENTIALS_REQUIRED)
    // an unknown email and a wrong password give the same answer
    ensures Truthy(body.email) && Truthy(body.password) ==>
              (r == Fail(401, INVALID_CREDENTIALS) <==>
                 First(db.users, EmailIs(body.email.value)).None?
                 || !checkPassword(First(db.users, EmailIs(body.email.value)).value.passwordHash,
                                   body.password.value))
    ensures r.Ok? ==>
              && r.code == 200 && r.value.message == LOGGED_IN
              && First(db.users, EmailIs(body.email.value)).Some?
              && var u := First(db.users, EmailIs(body.email.value)).value;
                 && checkPassword(u.passwordHash, body.password.value)
                 && r.value.token == token(u.id)
                 && r.value.user.user == UserToDict(u) && r.value.user.user.email == body.email.value
                 && r.value.user.vereadorProfile.None?
                 && (r.value.user.vereadorId.Some? <==> ProfileOf(db.vereadores, u).Some?)
                 && (r.value.user.vereadorId.Some? ==> r.value.user.vereadorId.value == ProfileOf(db.vereadores, u).value.id)
    ensures r.Fail? ==> r == Fail(400, CREDENTIALS_REQUIRED) || r == Fail(401, INVALID_CREDENTIALS)
  {
    if !Truthy(body.email) || !Truthy(body.password) {
      return Fail(400, CREDENTIALS_REQUIRED);
    }
    var user := First(db.users, EmailIs(body.email.value));
    if user.None? || !checkPassword(user.value.passwordHash, body.password.value) {
      return Fail(401, INVALID_CREDENTIALS);
    }
    var u := user.value;
    var profile := ProfileOf(db.vereadores, u);
    var vereadorId := if profile.Some? then Some(profile.value.id) else None;
    return Ok(200, AuthPayload(LOGGED_IN, token(u.id), UserData(UserToDict(u), vereadorId, None)));
  }

  // ------------------------------------------------------ GET /api/auth/me

  /** The account behind the token (`identity`), with the councilmember's
      id and dictionary (statistics included) when it is one. */
  method GetCurrentUser(db: Database, identity: int) returns (r: Reply<UserData>)
    ensures r.Fail? <==> forall i :: 0 <= i < |db.users| ==> db.users[i].id != identity
    ensures r.Fail? ==> r == Fail(404, USER_NOT_FOUND)
    ensures r.Ok? ==>
              && r.code == 200 && FindUser(db.users, identity).Some?
              && var u := FindUser(db.users, identity).value;
                 && r.value.user == UserToDict(u) && r.value.user.id == identity
                 && (r.value.vereadorId.Some? <==> ProfileOf(db.vereadores, u).Some?)
                 && (r.value.vereadorProfile.Some? <==> ProfileOf(db.vereadores, u).Some?)
                 && (r.value.vereadorProfile.Some? ==>
                       r.value.vereadorProfile.value.stats.Some?
                       && r.value.vereadorProfile.value.id == r.value.vereadorId.value)
                 && (ProfileOf(db.vereadores, u).Some? ==>
                       r.value.vereadorId == Some(ProfileOf(db.vereadores, u).value.id)
                       && r.value.vereadorProfile
                          == Some(VereadorToDict(ProfileOf(db.vereadores, u).value, db.categorias, db.solicitacoes, true)))
  {
    var user := FindUser(db.users, identity);
    if user.None? {
      return Fail(404, USER_NOT_FOUND);
    }
    var u := user.value;
    var profile := ProfileOf(db.vereadores, u);
    if profile.None? {
      return Ok(200, UserData(UserToDict(u), None, None));
    }
    var v := profile.value;
    return Ok(200, UserData(UserToDict(u), Some(v.id),
                            Some(VereadorToDict(v, db.categorias, db.solicitacoes, true))));
  }

  // -------------------------------------------------- POST /api/auth/logout

  /** Tokens are not revoked: logout answers 200 and changes nothing. */
  method Logout(db: Database) returns (r: Reply<string>)
    ensures r.Ok? && r.code == 200 && r.value == LOGGED_OUT
  {
    return Ok(200, LOGGED_OUT);
  }
}
