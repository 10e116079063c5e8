/** The sign-in page (`/entrar`): two checks on the form, the sign-in call,
    the redirect by role, and the message shown when signing in fails. */
module Entrar {
  import opened Common
  import opened BrowserStorage
  import opened Api
  import opened EmailPattern
  import Auth

  const FILL_ALL: string := "Por favor, preencha todos os campos"
  const INVALID_EMAIL: string := "Por favor, insira um e-mail válido"
  const SERVER_UNAVAILABLE: string :=
    "Servidor não disponível. Certifique-se que o backend Python está rodando em http://localhost:5000"
  const VEREADOR_DASHBOARD: string := "/vereador/dashboard"
  const CIDADAO_DASHBOARD: string := "/dashboard"
  /** What reading `tipo_usuario` of an undefined user throws. */
  const READ_UNDEFINED: JsError := JsError("TypeError", "Cannot read properties of undefined (reading 'tipo_usuario')")

  /** The checks of `handleSubmit`, in order: both inputs filled, then the
      e-mail pattern. */
  function LoginChecks(email: string, password: string): (c: seq<Check>)
    ensures |c| == 2
    ensures c[0] == Check(email != "" && password != "", FILL_ALL)
    ensures c[1] == Check(EmailTest(email), INVALID_EMAIL)
  {
    [Check(email != "" && password != "", FILL_ALL), Check(EmailTest(email), INVALID_EMAIL)]
  }

  /** Where a signed-in user goes: councillors to their dashboard, everyone
      else to the citizen dashboard. */
  function RedirectFor(u: Auth.User): (r: string)
    ensures r == VEREADOR_DASHBOARD <==> Auth.IsVereador(u)
    ensures r == CIDADAO_DASHBOARD <==> !Auth.IsVereador(u)
  {
    if Auth.IsVereador(u) then VEREADOR_DASHBOARD else CIDADAO_DASHBOARD
  }

  /** The message shown for a failed sign-in: a TypeError mentioning
      "fetch" is the server being down; any other error shows its message. */
  function ErrorMessage(e: JsError): (m: string)
    ensures e.name == "TypeError" && Contains(e.message, "fetch") ==> m == SERVER_UNAVAILABLE
    ensures !(e.name == "TypeError" && Contains(e.message, "fetch")) ==> m == e.message
  {
    if e.name == "TypeError" && Contains(e.message, "fetch") then SERVER_UNAVAILABLE else e.message
  }

  /** An unreachable server shows the server-unavailable message. */
  lemma NetworkFailureShown()
    ensures ErrorMessage(NETWORK_FAILURE) == SERVER_UNAVAILABLE
  {
    assert NETWORK_FAILURE.message == "Failed to " + "fetch";
    ContainsSuffix("Failed to ", "fetch");
  }

  /** A refusal by the server is shown as the server worded it. */
  lemma RefusalShownVerbatim(message: string)
    ensures ErrorMessage(Error(message)) == message
  {
  }

  /** An empty input fails first, whatever the e-mail looks like. */
  lemma EmptyInputFirst(email: string, password: string)
    requires email == "" || password == ""
    ensures FirstFailure(LoginChecks(email, password)) == Some(FILL_ALL)
  {
  }

  /** With both inputs filled, the e-mail pattern decides. */
  lemma PatternDecides(email: string, password: string)
    requires email != "" && password != ""
    ensures FirstFailure(LoginChecks(email, password)) == if EmailTest(email) then None else Some(INVALID_EMAIL)
  {
  }

  /** The page's state: the error shown and the busy flag. */
  class LoginPage {
    var error: string
    var isLoading: bool

    constructor ()
      ensures error == "" && !isLoading
    {
      error := "";
      isLoading := false;
    }

    /** `handleSubmit`. A failing check sets its message and `login` is not
        called. Otherwise `login` runs: a returned user is sent on by role
        and the busy flag stays up; a thrown error (also the one from
        reading the role of an undefined user) is shown as `ErrorMessage`
        says and the busy flag goes down. */
    method HandleSubmit(email: string, password: string, st: Storage, fetched: Fetched<Auth.AuthReply>,
                        stringify: Auth.User -> string)
      returns (login: Option<Outcome<Option<Auth.User>>>, nav: Option<string>)
      modifies this, st
      ensures login.None? <==> FirstFailure(LoginChecks(email, password)).Some?
      ensures login.None? ==> error == FirstFailure(LoginChecks(email, password)).value && !isLoading
                              && nav == None && st.items == old(st.items)
      ensures login.Some? && fetched.Rejected? ==> login.value == Threw(fetched.error)
      ensures login.Some? && fetched.Answered? && !OkStatus(fetched.reply.status)
              ==> login.value == Threw(Error(Auth.RefusalMessage(fetched.reply, Auth.LOGIN_FAILED)))
      ensures login.Some? && fetched.Answered? && OkStatus(fetched.reply.status) && fetched.reply.body.None?
              ==> login.value == Threw(SYNTAX_ERROR)
      ensures login.Some? && fetched.Answered? && OkStatus(fetched.reply.status) && fetched.reply.body.Some?
              ==> login.value == Returned(fetched.reply.body.value.user)
                  && st.items == if st.inBrowser
                                 then StoreSession(old(st.items),
                                                   Auth.StoredText(fetched.reply.body.value.token),
                                                   Auth.StoredUser(fetched.reply.body.value.user, stringify))
                                 else old(st.items)
      ensures login.Some? && login.value.Threw?
              ==> error == ErrorMessage(login.value.error) && !isLoading && nav == None && st.items == old(st.items)
      ensures login.Some? && login.value.Returned? && login.value.value.Some?
              ==> error == "" && isLoading && nav == Some(RedirectFor(login.value.value.value))
      ensures login.Some? && login.value.Returned? && login.value.value.None?
              ==> error == ErrorMessage(READ_UNDEFINED) && !isLoading && nav == None
    {
      error := "";
      isLoading := true;
      login, nav := None, None;
      if email == "" || password == "" {
        error := FILL_ALL;
        isLoading := false;
        return;
      }
      if !EmailTest(email) {
        error := INVALID_EMAIL;
        isLoading := false;
        return;
      }
      var out := Auth.Login(st, fetched, stringify);
      login := Some(out);
      match out {
        case Returned(user) =>
          if user.Some? {
            nav := Some(RedirectFor(user.value));
          } else {
            error := ErrorMessage(READ_UNDEFINED);
            isLoading := false;
          }
        case Threw(e) =>
          error := ErrorMessage(e);
          isLoading := false;
      }
    }
  }
}
