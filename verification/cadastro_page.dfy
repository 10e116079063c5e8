/** The sign-up page (`/cadastro`): the ordered checks on the form, the
    request it posts to the registration endpoint, and what it stores and
    shows when the reply comes back. */
module Cadastro {
  import opened Common
  import opened BrowserStorage
  import opened Api
  import opened EmailPattern
  import Auth
  import AuthRoutes

  const FILL_REQUIRED: string := "Por favor, preencha todos os campos obrigatórios"
  const INVALID_EMAIL: string := "Por favor, insira um e-mail válido"
  const PASSWORD_TOO_SHORT: string := "A senha deve ter pelo menos 8 caracteres"
  const PASSWORDS_DIFFER: string := "As senhas não coincidem"
  const SIGNUP_FAILED: string := "Erro ao criar conta"
  const MIN_PASSWORD: nat := 8
  const HOME: string := "/"

  /** The form's five inputs. */
  datatype SignupForm = SignupForm(name: string, email: string, phone: string,
                                   password: string, confirmPassword: string)

  /** The reply body as the page reads it: `message`, `token` and `user`. */
  datatype SignupBody = SignupBody(message: Option<string>, token: Option<string>, user: Option<Auth.User>)

  /** A registration response: its status and its body, None when not JSON. */
  datatype SignupReply = SignupReply(status: int, body: Option<SignupBody>)

  /** The checks of `handleSubmit`, in the order they run: every required
      input filled (the phone is optional), the e-mail pattern, the password
      length, and the confirmation. */
  function SignupChecks(f: SignupForm): (c: seq<Check>)
    ensures |c| == 4
    ensures c[0] == Check(f.name != "" && f.email != "" && f.password != "" && f.confirmPassword != "", FILL_REQUIRED)
    ensures c[1] == Check(EmailTest(f.email), INVALID_EMAIL)
    ensures c[2] == Check(|f.password| >= MIN_PASSWORD, PASSWORD_TOO_SHORT)
    ensures c[3] == Check(f.password == f.confirmPassword, PASSWORDS_DIFFER)
  {
    [Check(f.name != "" && f.email != "" && f.password != "" && f.confirmPassword != "", FILL_REQUIRED),
     Check(EmailTest(f.email), INVALID_EMAIL),
     Check(|f.password| >= MIN_PASSWORD, PASSWORD_TOO_SHORT),
     Check(f.password == f.confirmPassword, PASSWORDS_DIFFER)]
  }

  /** The JSON body the page posts, as written: the name and phone go out
      under "name" and "phone". */
  function SignupRequest(f: SignupForm): (r: JsonObject)
    ensures r.Keys == {"name", "email", "phone", "password"}
    ensures "confirmPassword" !in r && "nome" !in r
    ensures r["name"] == f.name && r["email"] == f.email && r["phone"] == f.phone && r["password"] == f.password
  {
    map["name" := f.name, "email" := f.email, "phone" := f.phone, "password" := f.password]
  }

  /** The JSON body under the member names the registration endpoint reads:
      "nome" and "telefone". */
  function SignupRequestFixed(f: SignupForm): (r: JsonObject)
    ensures r.Keys == {"nome", "email", "telefone", "password"}
    ensures "confirmPassword" !in r
    ensures r["nome"] == f.name && r["email"] == f.email && r["telefone"] == f.phone && r["password"] == f.password
  {
    map["nome" := f.name, "email" := f.email, "telefone" := f.phone, "password" := f.password]
  }

  /** How the registration endpoint reads a posted JSON object:
      `data.get(member)` for each member it uses. */
  function AsRegisterBody(o: JsonObject): (b: AuthRoutes.RegisterBody)
    ensures b.email == Field(o, "email") && b.password == Field(o, "password") && b.nome == Field(o, "nome")
    ensures b.tipoUsuario == Field(o, "tipo_usuario") && b.telefone == Field(o, "telefone")
  {
    AuthRoutes.RegisterBody(Field(o, "email"), Field(o, "password"), Field(o, "nome"),
                            Field(o, "tipo_usuario"), Field(o, "telefone"))
  }

  /** The message of a refused registration: the body's `message`, or
      "Erro ao criar conta". */
  function RefusalMessage(body: SignupBody): (m: string)
    ensures Truthy(body.message) ==> m == body.message.value
    ensures !Truthy(body.message) ==> m == SIGNUP_FAILED
    ensures m != ""
  {
    if Truthy(body.message) then body.message.value else SIGNUP_FAILED
  }

  /** A missing required input fails first, whatever else is wrong. */
  lemma MissingInputFirst(f: SignupForm)
    requires f.name == "" || f.email == "" || f.password == "" || f.confirmPassword == ""
    ensures FirstFailure(SignupChecks(f)) == Some(FILL_REQUIRED)
  {
  }

  /** A filled form whose password is shorter than 8 characters (a
      7-character one, say) fails on the length, whatever the confirmation. */
  lemma ShortPasswordRejected(f: SignupForm)
    requires f.name != "" && f.email != "" && f.password != "" && f.confirmPassword != ""
    requires EmailTest(f.email) && |f.password| < MIN_PASSWORD
    ensures FirstFailure(SignupChecks(f)) == Some(PASSWORD_TOO_SHORT)
  {
  }

  /** Any password of 8 characters or more passes the length check. */
  lemma LongPasswordPassesLength(f: SignupForm)
    requires |f.password| >= MIN_PASSWORD
    ensures SignupChecks(f)[2].passes
    ensures FirstFailure(SignupChecks(f)) != Some(PASSWORD_TOO_SHORT)
  {
    var c := SignupChecks(f);
    if FirstFailure(c).Some? {
      var k :| 0 <= k < |c| && !c[k].passes && c[k].message == FirstFailure(c).value
               && forall j :: 0 <= j < k ==> c[j].passes;
      assert k != 2;
    }
  }

  /** A password and confirmation that differ are rejected even when both
      are long enough. */
  lemma MismatchRejected(f: SignupForm)
    requires f.name != "" && f.email != "" && EmailTest(f.email)
    requires |f.password| >= MIN_PASSWORD && |f.confirmPassword| >= MIN_PASSWORD
    requires f.password != f.confirmPassword
    ensures FirstFailure(SignupChecks(f)) == Some(PASSWORDS_DIFFER)
  {
  }

  /** A form that passes the checks, posted as written, reaches the
      endpoint with its e-mail and password but without a "nome", so the
      endpoint refuses it with 400 "nome is required"; and since that
      refusal carries no `message`, the page shows "Erro ao criar conta". */
  lemma AsWrittenSignupLacksNome(f: SignupForm)
    requires FirstFailure(SignupChecks(f)) == None
    ensures AuthRoutes.RegisterFieldPresent(AsRegisterBody(SignupRequest(f)), "email")
    ensures AuthRoutes.RegisterFieldPresent(AsRegisterBody(SignupRequest(f)), "password")
    ensures !AuthRoutes.RegisterFieldPresent(AsRegisterBody(SignupRequest(f)), "nome")
    ensures RefusalMessage(SignupBody(None, None, None)) == SIGNUP_FAILED
  {
    assert SignupChecks(f)[0].passes;
  }

  /** A form that passes the checks, posted under the endpoint's names,
      carries all three required members, and the phone as the telefone. */
  lemma FixedSignupHasRequired(f: SignupForm)
    requires FirstFailure(SignupChecks(f)) == None
    ensures var b := AsRegisterBody(SignupRequestFixed(f));
            AuthRoutes.RegisterFieldPresent(b, "email") && AuthRoutes.RegisterFieldPresent(b, "password")
            && AuthRoutes.RegisterFieldPresent(b, "nome")
            && b.nome == Some(f.name) && b.telefone == Some(f.phone) && b.tipoUsuario == None
  {
    assert SignupChecks(f)[0].passes;
  }

  /** The page's state: the error shown and the busy flag. */
  class SignupPage {
    var error: string
    var isLoading: bool

    constructor ()
      ensures error == "" && !isLoading
    {
      error := "";
      isLoading := false;
    }

    /** `handleSubmit`. The first failing check sets its message and nothing
        is sent. Otherwise the form is posted (under the endpoint's member
        names, see `FixedSignupHasRequired`): a rejected fetch or a body that
        is not JSON shows the thrown message; a refusal shows `message` or
        "Erro ao criar conta"; an accepted reply with a token stores the
        token and the user and goes to the home page, one without a token
        changes nothing. The busy flag is down on every path. */
    method HandleSubmit(f: SignupForm, st: Storage, fetched: Fetched<SignupReply>, stringify: Auth.User -> string)
      returns (sent: Option<JsonObject>, nav: Option<string>)
      modifies this, st
      ensures !isLoading
      ensures sent.None? <==> FirstFailure(SignupChecks(f)).Some?
      ensures sent.None? ==> error == FirstFailure(SignupChecks(f)).value && st.items == old(st.items) && nav == None
      ensures sent.Some? ==> sent.value == SignupRequestFixed(f)
      ensures sent.Some? && fetched.Rejected? ==> error == fetched.error.message && st.items == old(st.items) && nav == None
      ensures sent.Some? && fetched.Answered? && fetched.reply.body.None?
              ==> error == SYNTAX_ERROR.message && st.items == old(st.items) && nav == None
      ensures sent.Some? && fetched.Answered? && fetched.reply.body.Some? && !OkStatus(fetched.reply.status)
              ==> error == RefusalMessage(fetched.reply.body.value) && st.items == old(st.items) && nav == None
      ensures sent.Some? && fetched.Answered? && fetched.reply.body.Some? && OkStatus(fetched.reply.status)
              ==> error == ""
                  && (Truthy(fetched.reply.body.value.token)
                      ==> st.items == StoreSession(old(st.items), fetched.reply.body.value.token.value,
                                                   Auth.StoredUser(fetched.reply.body.value.user, stringify))
                          && nav == Some(HOME))
                  && (!Truthy(fetched.reply.body.value.token) ==> st.items == old(st.items) && nav == None)
    {
      error := "";
      isLoading := true;
      sent, nav := None, None;
      if !(f.name != "" && f.email != "" && f.password != "" && f.confirmPassword != "") {
        error := FILL_REQUIRED;
        isLoading := false;
        return;
      }
      if !EmailTest(f.email) {
        error := INVALID_EMAIL;
        isLoading := false;
        return;
      }
      if |f.password| < MIN_PASSWORD {
        error := PASSWORD_TOO_SHORT;
        isLoading := false;
        return;
      }
      if f.password != f.confirmPassword {
        error := PASSWORDS_DIFFER;
        isLoading := false;
        return;
      }
      sent := Some(SignupRequestFixed(f));
      match fetched {
        case Rejected(e) =>
          error := e.message;
        case Answered(reply) =>
          if reply.body.None? {
            error := SYNTAX_ERROR.message;
          } else if !OkStatus(reply.status) {
            error := RefusalMessage(reply.body.value);
          } else if Truthy(reply.body.value.token) {
            st.SetItem(AUTH_TOKEN, reply.body.value.token.value);
            st.SetItem(USER, Auth.StoredUser(reply.body.value.user, stringify));
            nav := Some(HOME);
          }
      }
      isLoading := false;
    }
  }
}
