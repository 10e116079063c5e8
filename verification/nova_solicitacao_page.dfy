/** The new-request page (`/nova-solicitacao`): the token check when it
    opens, the guards of its submit, the payload it builds from the form,
    and how it tells a lost session from any other failure. */
module NovaSolicitacao {
  import opened Common
  import opened Text
  import opened BrowserStorage
  import opened Api

  const LOGIN_PAGE: string := "/entrar"
  const DASHBOARD: string := "/dashboard"
  const MUST_LOGIN: string := "Você precisa estar logado para criar uma solicitação"
  const MUST_LOGIN_REDIRECT: string :=
    "Você precisa estar logado para criar uma solicitação. Redirecionando para login..."
  const SESSION_EXPIRED: string := "Sua sessão expirou. Por favor, faça login novamente."
  const SELECT_CATEGORIA: string := "Por favor, selecione uma categoria"
  const CREATED: string := "Solicitação enviada com sucesso!"
  const CREATE_ERROR_PREFIX: string := "Erro ao criar solicitação: "
  /** The value a checked checkbox submits. */
  const CHECKED: string := "on"

  /** The token has the three dot-separated parts of a JWT. */
  predicate TokenShaped(token: string)
  {
    |Split(token, '.')| == 3
  }

  /** Three parts means exactly two dots; what lies between them is not
      looked at. */
  lemma TokenShapeIsTwoDots(token: string)
    ensures TokenShaped(token) <==> CharCount(token, '.') == 2
  {
    SplitCount(token, '.');
  }

  /** Empty parts pass: ".." counts as a well-formed token. */
  lemma EmptyPartsPass()
    ensures TokenShaped("..")
  {
    TokenShapeIsTwoDots("..");
    assert ".." == ['.'] + ['.'];
  }

  /** The form's entries, as `formData.get` returns them (None for null).
      The contact inputs are part of the form but not of the payload. */
  datatype FormData = FormData(titulo: Option<string>, categoria: Option<string>, descricao: Option<string>,
                               endereco: Option<string>, bairro: Option<string>, cep: Option<string>,
                               anonimo: Option<string>, nome: Option<string>, email: Option<string>,
                               telefone: Option<string>)

  /** The object sent to `createSolicitacao`: exactly these seven members.
      A category id that does not parse (NaN) is None. */
  datatype CreatePayload = CreatePayload(titulo: Option<string>, categoriaId: Option<int>,
                                         descricao: Option<string>, endereco: Option<string>,
                                         bairro: Option<string>, cep: Option<string>, anonimo: bool)

  /** The payload of a form: the texts as entered, the category parsed as
      a number, and `anonimo` exactly when the checkbox was ticked. */
  function BuildPayload(form: FormData): (p: CreatePayload)
    ensures p.anonimo <==> form.anonimo == Some(CHECKED)
    ensures p.titulo == form.titulo && p.descricao == form.descricao && p.endereco == form.endereco
    ensures p.bairro == form.bairro && p.cep == form.cep
    ensures form.categoria.None? ==> p.categoriaId == None
  {
    CreatePayload(form.titulo,
                  if form.categoria.Some? then ParseInt(form.categoria.value) else None,
                  form.descricao, form.endereco, form.bairro, form.cep,
                  form.anonimo == Some(CHECKED))
  }

  /** The category options carry the id's decimal text, which the payload
      reads back as the same id. */
  lemma CategoriaIdRoundTrip(form: FormData, id: int)
    requires form.categoria == Some(NumberText(id))
    ensures BuildPayload(form).categoriaId == Some(id)
  {
    if id < 0 {
      assert NumberText(id) == "-" + IntToString(-id);
      ParseNegative(-id);
    } else {
      assert NumberText(id) == IntToString(id) + "";
      ParseDecimal(id, "");
    }
  }

  /** A failure message that means the session is gone: it mentions
      "token", "expired" or "Invalid", letter case as written. */
  predicate IsSessionError(message: string)
  {
    Contains(message, "token") || Contains(message, "expired") || Contains(message, "Invalid")
  }

  /** The JWT library's refusal of an expired token, in two pieces. */
  const TOKEN_EXPIRED: string := TOKEN_HAS + EXPIRED
  const TOKEN_HAS: string := "Token has "
  const EXPIRED: string := "expired"

  /** The refusal counts as a lost session through "expired", not through
      "token" (the match is case-sensitive), and it is not a network
      failure. */
  lemma ExpiredIsSessionError()
    ensures IsSessionError(TOKEN_EXPIRED)
    ensures !Contains(TOKEN_EXPIRED, "token")
    ensures !Contains(TOKEN_EXPIRED, "Failed to fetch")
  {
    ContainsSuffix(TOKEN_HAS, EXPIRED);
    assert 't' !in TOKEN_HAS && 't' !in EXPIRED;
    assert 'F' !in TOKEN_HAS && 'F' !in EXPIRED;
    MissingFirstChar(TOKEN_EXPIRED, "token");
    MissingFirstChar(TOKEN_EXPIRED, "Failed to fetch");
  }

  /** A 401 whose body's `msg` is the expired-token refusal ends the create
      with that message, which the page treats as a lost session. */
  lemma ExpiredTokenEndsSession(reply: HttpReply)
    requires reply.status == 401 && reply.json == Some(map["msg" := TOKEN_EXPIRED])
    ensures CreateOutcome(Answered(reply)) == Threw(Error(TOKEN_EXPIRED))
    ensures IsSessionError(CreateOutcome(Answered(reply)).error.message)
  {
    ExpiredIsSessionError();
    assert CreateErrorMessage(reply) == TOKEN_EXPIRED;
    assert Caught(Error(TOKEN_EXPIRED)) == Error(TOKEN_EXPIRED);
  }

  /** The page's state: the reference lists and the busy flag. */
  class NovaSolicitacaoPage {
    var categorias: seq<Categoria>
    var bairros: seq<Bairro>
    var loading: bool

    constructor ()
      ensures categorias == [] && bairros == [] && !loading
    {
      categorias := [];
      bairros := [];
      loading := false;
    }

    /** The mount effect. No token: alert and go to sign-in. A token
        without exactly three parts: both session keys go, alert and go to
        sign-in. Otherwise the categories and neighbourhoods are loaded;
        a failed load leaves the lists as they were. */
    method OnMount(st: Storage, loaded: Outcome<(seq<Categoria>, seq<Bairro>)>)
      returns (nav: Option<string>, alert: Option<string>)
      modifies this, st
      ensures loading == old(loading)
      ensures !Truthy(old(GetAuthToken(st)))
              ==> nav == Some(LOGIN_PAGE) && alert == Some(MUST_LOGIN) && st.items == old(st.items)
                  && categorias == old(categorias) && bairros == old(bairros)
      ensures Truthy(old(GetAuthToken(st))) && !TokenShaped(old(GetAuthToken(st)).value)
              ==> nav == Some(LOGIN_PAGE) && alert == Some(SESSION_EXPIRED) && st.items == Cleared(old(st.items))
                  && categorias == old(categorias) && bairros == old(bairros)
      ensures Truthy(old(GetAuthToken(st))) && TokenShaped(old(GetAuthToken(st)).value)
              ==> nav == None && alert == None && st.items == old(st.items)
                  && (loaded.Returned? ==> categorias == loaded.value.0 && bairros == loaded.value.1)
                  && (loaded.Threw? ==> categorias == old(categorias) && bairros == old(bairros))
    {
      var token := GetAuthToken(st);
      if !Truthy(token) {
        return Some(LOGIN_PAGE), Some(MUST_LOGIN);
      }
      if !TokenShaped(token.value) {
        st.RemoveItem(AUTH_TOKEN);
        st.RemoveItem(USER);
        return Some(LOGIN_PAGE), Some(SESSION_EXPIRED);
      }
      nav, alert := None, None;
      if loaded.Returned? {
        categorias := loaded.value.0;
        bairros := loaded.value.1;
      }
    }

    /** `handleSubmit`. No token: alert and go to sign-in, nothing else.
        The token's shape is not checked again. No category: alert and
        stop. Otherwise the payload is sent: success goes to the dashboard;
        a session failure clears both keys and goes to sign-in; any other
        failure is shown. The busy flag is down after every path past the
        token check. */
    method HandleSubmit(st: Storage, form: FormData, fetched: Fetched<HttpReply>)
      returns (payload: Option<CreatePayload>, call: Option<Call<JsonObject>>,
               nav: Option<string>, alert: Option<string>)
      modifies this, st
      ensures categorias == old(categorias) && bairros == old(bairros)
      ensures !Truthy(old(GetAuthToken(st)))
              ==> payload == None && call == None && nav == Some(LOGIN_PAGE) && alert == Some(MUST_LOGIN_REDIRECT)
                  && loading == old(loading) && st.items == old(st.items)
      ensures Truthy(old(GetAuthToken(st))) ==> !loading
      ensures Truthy(old(GetAuthToken(st))) && !Truthy(form.categoria)
              ==> payload == None && call == None && nav == None && alert == Some(SELECT_CATEGORIA)
                  && st.items == old(st.items)
      ensures Truthy(old(GetAuthToken(st))) && Truthy(form.categoria)
              ==> payload == Some(BuildPayload(form))
                  && call == Some(Sent(AuthHeaders(old(GetAuthToken(st))), CreateOutcome(fetched)))
      ensures call.Some? && call.value.outcome.Returned?
              ==> nav == Some(DASHBOARD) && alert == Some(CREATED) && st.items == old(st.items)
      ensures call.Some? && call.value.outcome.Threw? && IsSessionError(call.value.outcome.error.message)
              ==> nav == Some(LOGIN_PAGE) && alert == Some(SESSION_EXPIRED) && st.items == Cleared(old(st.items))
      ensures call.Some? && call.value.outcome.Threw? && !IsSessionError(call.value.outcome.error.message)
              ==> nav == None && alert == Some(CREATE_ERROR_PREFIX + call.value.outcome.error.message)
                  && st.items == old(st.items)
    {
      payload, call := None, None;
      var token := GetAuthToken(st);
      if !Truthy(token) {
        return None, None, Some(LOGIN_PAGE), Some(MUST_LOGIN_REDIRECT);
      }
      loading := true;
      if !Truthy(form.categoria) {
        loading := false;
        return None, None, None, Some(SELECT_CATEGORIA);
      }
      payload := Some(BuildPayload(form));
      var result := CreateSolicitacao(st, fetched);
      call := Some(result);
      match result.outcome {
        case Returned(_) =>
          nav, alert := Some(DASHBOARD), Some(CREATED);
        case Threw(e) =>
          if IsSessionError(e.message) {
            st.RemoveItem(AUTH_TOKEN);
            st.RemoveItem(USER);
            nav, alert := Some(LOGIN_PAGE), Some(SESSION_EXPIRED);
          } else {
            nav, alert := None, Some(CREATE_ERROR_PREFIX + e.message);
          }
      }
      loading := false;
    }
  }
}
