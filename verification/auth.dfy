/** The browser's session helpers: who is signed in, signing out, the
    authenticated fetch that ends the session on a 401, and signing in or
    up, which store the session only when the server accepts. */
module Auth {
  import opened Common
  import opened BrowserStorage
  import opened Api
  import Models

  const SESSION_EXPIRED: string := "Sessão expirada. Por favor, faça login novamente."
  const LOGIN_FAILED: string := "Falha ao fazer login"
  const REGISTER_FAILED: string := "Falha ao criar conta"
  const LOGIN_PAGE: string := "/entrar"
  /** What `localStorage.setItem(key, undefined)` stores. */
  const UNDEFINED_TEXT: string := "undefined"

  /** The signed-in user as the client keeps it (the `user` object the
      server returns, with the fields the pages read). */
  datatype User = User(id: int, nome: Option<string>, email: string, tipoUsuario: Option<string>,
                       vereadorId: Option<int>)

  /** `user.tipo_usuario === "vereador"`. */
  predicate IsVereador(u: User)
  {
    u.tipoUsuario == Some(Models.VEREADOR)
  }

  /** The JSON body of a sign-in or sign-up reply, with its members
      undefined when absent. */
  datatype AuthBody = AuthBody(error: Option<string>, token: Option<string>, user: Option<User>)

  /** A sign-in or sign-up response: its status and its body, None when the
      body is not JSON. */
  datatype AuthReply = AuthReply(status: int, body: Option<AuthBody>)

  /** `getCurrentUser()`: outside a browser, or with no stored user text,
      null; otherwise what the text parses to. */
  function GetCurrentUser(st: Storage, parse: string -> Option<User>): (r: Option<User>)
    reads st
    ensures !st.inBrowser || USER !in st.items || st.items[USER] == "" ==> r == None
    ensures r.Some? ==> parse(st.items[USER]) == r
    ensures st.inBrowser && USER in st.items && st.items[USER] != "" ==> r == parse(st.items[USER])
  {
    if st.inBrowser then UserIn(st.items, parse) else None
  }

  /** `isAuthenticated()`: exactly when a browser holds a non-empty token. */
  predicate IsAuthenticated(st: Storage)
    reads st
    ensures IsAuthenticated(st) <==> st.inBrowser && AUTH_TOKEN in st.items && st.items[AUTH_TOKEN] != ""
  {
    Truthy(GetAuthToken(st))
  }

  /** `logout()`: in a browser, both session keys go and the page moves to
      the sign-in page; afterwards no token and no user read back. Outside
      a browser nothing happens. */
  method Logout(st: Storage) returns (nav: Option<string>)
    modifies st
    ensures st.inBrowser ==> st.items == Cleared(old(st.items)) && nav == Some(LOGIN_PAGE)
    ensures !st.inBrowser ==> st.items == old(st.items) && nav == None
    ensures GetAuthToken(st) == None && !IsAuthenticated(st)
    ensures forall parse :: GetCurrentUser(st, parse) == None
  {
    if !st.inBrowser {
      return None;
    }
    st.RemoveItem(AUTH_TOKEN);
    st.RemoveItem(USER);
    assert st.items == Cleared(old(st.items));
    nav := Some(LOGIN_PAGE);
  }

  /** The headers of `fetchWithAuth`: the defaults, then the caller's, so a
      caller's entry wins over a default of the same name. */
  function MergeHeaders(token: Option<string>, options: map<string, string>): (h: map<string, string>)
    ensures h.Keys == AuthHeaders(token).Keys + options.Keys
    ensures forall k :: k in options ==> h[k] == options[k]
    ensures forall k :: k in AuthHeaders(token) && k !in options ==> h[k] == AuthHeaders(token)[k]
  {
    AuthHeaders(token) + options
  }

  /** `fetchWithAuth(url, options)`. The request goes out with the merged
      headers. A rejected fetch reaches the caller unchanged; a 401 signs
      the user out and throws "Sessão expirada..."; any other response is
      returned and the store is left alone. */
  method FetchWithAuth(st: Storage, options: map<string, string>, fetched: Fetched<HttpReply>)
    returns (headers: map<string, string>, out: Outcome<HttpReply>, nav: Option<string>)
    modifies st
    ensures headers == MergeHeaders(old(GetAuthToken(st)), options)
    ensures fetched.Rejected? ==> out == Threw(fetched.error) && st.items == old(st.items) && nav == None
    ensures fetched.Answered? && fetched.reply.status == 401
            ==> out == Threw(Error(SESSION_EXPIRED)) && GetAuthToken(st) == None
                && (st.inBrowser ==> st.items == Cleared(old(st.items)) && nav == Some(LOGIN_PAGE))
                && (!st.inBrowser ==> st.items == old(st.items) && nav == None)
    ensures fetched.Answered? && fetched.reply.status != 401
            ==> out == Returned(fetched.reply) && st.items == old(st.items) && nav == None
  {
    headers := MergeHeaders(GetAuthToken(st), options);
    nav := None;
    match fetched
    case Rejected(e) =>
      out := Threw(e);
    case Answered(reply) =>
      if reply.status == 401 {
        nav := Logout(st);
        out := Threw(Error(SESSION_EXPIRED));
      } else {
        out := Returned(reply);
      }
  }

  /** The text stored for an optional string: undefined is stored as "undefined". */
  function StoredText(s: Option<string>): string
  {
    if s.Some? then s.value else UNDEFINED_TEXT
  }

  /** The text stored for the user: its JSON text, or "undefined" when the
      reply carried no user. */
  function StoredUser(u: Option<User>, stringify: User -> string): string
  {
    if u.Some? then stringify(u.value) else UNDEFINED_TEXT
  }

  /** The message of a refused sign-in or sign-up: the body's `error`, or
      the fallback when the body has none or is not JSON. */
  function RefusalMessage(reply: AuthReply, fallback: string): (m: string)
    ensures reply.body.Some? && Truthy(reply.body.value.error) ==> m == reply.body.value.error.value
    ensures !(reply.body.Some? && Truthy(reply.body.value.error)) ==> m == fallback
  {
    if reply.body.Some? && Truthy(reply.body.value.error) then reply.body.value.error.value else fallback
  }

  /** The shared course of `login` and `register`: a rejected fetch, a
      refusal, and a success body that is not JSON store nothing; an
      accepted reply stores its token and user (in a browser) and returns
      the user. */
  method Authenticate(st: Storage, fetched: Fetched<AuthReply>, fallback: string, stringify: User -> string)
    returns (out: Outcome<Option<User>>)
    modifies st
    ensures fetched.Rejected? ==> out == Threw(fetched.error)
    ensures fetched.Answered? && !OkStatus(fetched.reply.status)
            ==> out == Threw(Error(RefusalMessage(fetched.reply, fallback)))
    ensures fetched.Answered? && OkStatus(fetched.reply.status) && fetched.reply.body.None?
            ==> out == Threw(SYNTAX_ERROR)
    ensures fetched.Answered? && OkStatus(fetched.reply.status) && fetched.reply.body.Some?
            ==> out == Returned(fetched.reply.body.value.user)
    ensures out.Threw? ==> st.items == old(st.items)
    ensures out.Returned? ==> fetched.Answered? && OkStatus(fetched.reply.status) && fetched.reply.body.Some?
                              && out.value == fetched.reply.body.value.user
                              && st.items == if st.inBrowser
                                             then StoreSession(old(st.items),
                                                               StoredText(fetched.reply.body.value.token),
                                                               StoredUser(fetched.reply.body.value.user, stringify))
                                             else old(st.items)
  {
    match fetched
    case Rejected(e) =>
      out := Threw(e);
    case Answered(reply) =>
      if !OkStatus(reply.status) {
        out := Threw(Error(RefusalMessage(reply, fallback)));
      } else if reply.body.None? {
        out := Threw(SYNTAX_ERROR);
      } else {
        var data := reply.body.value;
        if st.inBrowser {
          st.SetItem(AUTH_TOKEN, StoredText(data.token));
          st.SetItem(USER, StoredUser(data.user, stringify));
        }
        out := Returned(data.user);
      }
  }

  /** `login(email, password)`: a refusal throws the body's `error` or
      "Falha ao fazer login" and stores nothing; an accepted reply stores
      the session and returns `data.user`. */
  method Login(st: Storage, fetched: Fetched<AuthReply>, stringify: User -> string)
    returns (out: Outcome<Option<User>>)
    modifies st
    ensures fetched.Rejected? ==> out == Threw(fetched.error)
    ensures fetched.Answered? && !OkStatus(fetched.reply.status)
            ==> out == Threw(Error(RefusalMessage(fetched.reply, LOGIN_FAILED)))
    ensures fetched.Answered? && OkStatus(fetched.reply.status) && fetched.reply.body.None?
            ==> out == Threw(SYNTAX_ERROR)
    ensures fetched.Answered? && OkStatus(fetched.reply.status) && fetched.reply.body.Some?
            ==> out == Returned(fetched.reply.body.value.user)
    ensures out.Threw? ==> st.items == old(st.items)
    ensures out.Returned? ==> fetched.Answered? && fetched.reply.body.Some?
                              && out.value == fetched.reply.body.value.user
                              && st.items == if st.inBrowser
                                             then StoreSession(old(st.items),
                                                               StoredText(fetched.reply.body.value.token),
                                                               StoredUser(fetched.reply.body.value.user, stringify))
                                             else old(st.items)
  {
    out := Authenticate(st, fetched, LOGIN_FAILED, stringify);
  }

  /** `register(userData)`: the same store-only-on-success course, with
      "Falha ao criar conta" as the fallback message. */
  method Register(st: Storage, fetched: Fetched<AuthReply>, stringify: User -> string)
    returns (out: Outcome<Option<User>>)
    modifies st
    ensures fetched.Rejected? ==> out == Threw(fetched.error)
    ensures fetched.Answered? && !OkStatus(fetched.reply.status)
            ==> out == Threw(Error(RefusalMessage(fetched.reply, REGISTER_FAILED)))
    ensures fetched.Answered? && OkStatus(fetched.reply.status) && fetched.reply.body.None?
            ==> out == Threw(SYNTAX_ERROR)
    ensures fetched.Answered? && OkStatus(fetched.reply.status) && fetched.reply.body.Some?
            ==> out == Returned(fetched.reply.body.value.user)
    ensures out.Threw? ==> st.items == old(st.items)
    ensures out.Returned? ==> fetched.Answered? && fetched.reply.body.Some?
                              && out.value == fetched.reply.body.value.user
                              && st.items == if st.inBrowser
                                             then StoreSession(old(st.items),
                                                               StoredText(fetched.reply.body.value.token),
                                                               StoredUser(fetched.reply.body.value.user, stringify))
                                             else old(st.items)
  {
    out := Authenticate(st, fetched, REGISTER_FAILED, stringify);
  }

  /** After an accepted sign-in that carried a token and a user, the stored
      session reads back as that token and that user, and the browser
      counts as authenticated when the token is non-empty. */
  lemma SignedInReadsBack(items: map<string, string>, data: AuthBody,
                          parse: string -> Option<User>, stringify: User -> string)
    requires data.token.Some? && data.user.Some?
    requires JsonCodec(parse, stringify)
    ensures TokenIn(StoreSession(items, StoredText(data.token), StoredUser(data.user, stringify))) == data.token
    ensures UserIn(StoreSession(items, StoredText(data.token), StoredUser(data.user, stringify)), parse) == data.user
  {
    SessionReadsBack(items, data.token.value, data.user.value, parse, stringify);
  }
}
