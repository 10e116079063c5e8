/** The browser's API client: reading and writing the stored token, the
    request headers, the query string of the listing call, and the two
    authenticated writes (creating and updating a request) with their
    guards and error messages. The network is a parameter: each call
    receives what `fetch` produced. */
module Api {
  import opened Common
  import opened Text
  import opened BrowserStorage

  const AUTH_REQUIRED: string := "Authentication required"
  /** The backend-unavailable message, written in three pieces so that its
      characters can be checked a piece at a time. */
  const BACKEND_UNAVAILABLE: string := UNAVAILABLE_1 + UNAVAILABLE_2 + UNAVAILABLE_3
  const UNAVAILABLE_1: string := "Backend não está disponível. "
  const UNAVAILABLE_2: string := "Certifique-se de que o servidor "
  const UNAVAILABLE_3: string := "Python está rodando em localhost:5000"
  const UPDATE_FAILED: string := "Failed to update solicitação"
  const CONTENT_TYPE: string := "Content-Type"
  const JSON_TYPE: string := "application/json"
  const AUTHORIZATION: string := "Authorization"

  /** A thrown JavaScript error: its constructor name and its message. */
  datatype JsError = JsError(name: string, message: string)

  /** `new Error(message)`. */
  function Error(message: string): JsError
  {
    JsError("Error", message)
  }

  /** What `fetch` rejects with when the server cannot be reached. */
  const NETWORK_FAILURE: JsError := JsError("TypeError", "Failed to fetch")
  /** What `JSON.parse` throws on text that is not JSON; the message text is
      the engine's own, and this one stands for all of them. */
  const SYNTAX_ERROR: JsError := JsError("SyntaxError", "Unexpected token in JSON")

  /** The end of an async call: a value, or a thrown error. */
  datatype Outcome<T> = Returned(value: T) | Threw(error: JsError)

  /** A JSON object with its string-valued members. */
  type JsonObject = map<string, string>

  /** `obj.name`, undefined when absent. */
  function Field(obj: JsonObject, name: string): Option<string>
  {
    if name in obj then Some(obj[name]) else None
  }

  /** An HTTP response: status, status text, the body text, and the object
      the text parses to (None when it is not JSON). */
  datatype HttpReply = HttpReply(status: int, statusText: string, text: string, json: Option<JsonObject>)

  /** `response.ok`. */
  predicate OkStatus(status: int)
  {
    200 <= status <= 299
  }

  /** What `await fetch(...)` gave: a rejection, or a response. */
  datatype Fetched<R> = Rejected(error: JsError) | Answered(reply: R)

  /** An authenticated call: refused before any request, or sent with the
      given headers. */
  datatype Call<T> = NotSent(outcome: Outcome<T>) | Sent(headers: map<string, string>, outcome: Outcome<T>)

  /** A request as the client receives it. Coordinates are left out; the
      optional members are None when undefined. */
  datatype Solicitacao = Solicitacao(
    id: int, titulo: string, categoria: string, categoriaId: int, descricao: string,
    endereco: string, bairro: string, bairroId: int, cep: Option<string>, fotos: seq<string>,
    status: string, anonimo: bool, vereadorId: Option<int>, vereadorNome: Option<string>,
    createdAt: string, updatedAt: string, tempoResolucao: Option<int>)

  /** A category as listed by the API. */
  datatype Categoria = Categoria(id: int, nome: string, icone: Option<string>)

  /** A neighbourhood as listed by the API. */
  datatype Bairro = Bairro(id: int, nome: string)

  /** The body of `updateSolicitacao`: the members a caller sets. */
  datatype UpdatePayload = UpdatePayload(status: Option<string>, vereadorId: Option<int>, descricao: Option<string>)

  /** `getAuthToken()`: the stored token, and null outside a browser. */
  function GetAuthToken(st: Storage): (r: Option<string>)
    reads st
    ensures !st.inBrowser ==> r == None
    ensures r.Some? ==> AUTH_TOKEN in st.items && st.items[AUTH_TOKEN] == r.value
    ensures st.inBrowser && AUTH_TOKEN in st.items ==> r == Some(st.items[AUTH_TOKEN])
  {
    if st.inBrowser then TokenIn(st.items) else None
  }

  /** `setAuthToken(token)`: in a browser the token is stored and reads back;
      outside one nothing happens. */
  method SetAuthToken(st: Storage, token: string)
    modifies st
    ensures st.inBrowser ==> st.items == old(st.items)[AUTH_TOKEN := token]
    ensures !st.inBrowser ==> st.items == old(st.items)
    ensures GetAuthToken(st) == if st.inBrowser then Some(token) else None
  {
    if st.inBrowser {
      st.SetItem(AUTH_TOKEN, token);
    }
  }

  /** `getAuthHeaders()` for a given stored token: always the JSON content
      type, and a bearer authorization exactly when the token is non-empty. */
  function AuthHeaders(token: Option<string>): (h: map<string, string>)
    ensures CONTENT_TYPE in h && h[CONTENT_TYPE] == JSON_TYPE
    ensures AUTHORIZATION in h <==> Truthy(token)
    ensures AUTHORIZATION in h ==> h[AUTHORIZATION] == "Bearer " + token.value
    ensures h.Keys <= {CONTENT_TYPE, AUTHORIZATION}
  {
    var base := map[CONTENT_TYPE := JSON_TYPE];
    if Truthy(token) then base[AUTHORIZATION := "Bearer " + token.value] else base
  }

  /** The optional filters of `getSolicitacoes`. */
  datatype Filters = Filters(categoria: Option<string>, bairro: Option<string>, status: Option<string>,
                             search: Option<string>, vereadorId: Option<int>)

  /** `getSolicitacoes()` without filters. */
  const NO_FILTERS: Filters := Filters(None, None, None, None, None)

  /** `n.toString()` for an integer. */
  function NumberText(n: int): (r: string)
    ensures r != []
  {
    if n < 0 then "-" + IntToString(-n) else IntToString(n)
  }

  /** The query keys `getSolicitacoes` may send, in the order it appends them. */
  datatype QueryKey = CategoriaKey | BairroKey | StatusKey | SearchKey | VereadorIdKey

  /** The key's name in the query string. */
  function KeyName(k: QueryKey): string
  {
    match k
    case CategoriaKey => "categoria"
    case BairroKey => "bairro"
    case StatusKey => "status"
    case SearchKey => "search"
    case VereadorIdKey => "vereador_id"
  }

  /** The position of a key in the order the client appends them. */
  function KeyRank(k: QueryKey): int
  {
    match k
    case CategoriaKey => 0
    case BairroKey => 1
    case StatusKey => 2
    case SearchKey => 3
    case VereadorIdKey => 4
  }

  /** The value a query key takes, looked up key by key: the filter's value
      when it is truthy (a non-empty string, a non-zero number), otherwise
      no parameter. */
  function FilterValue(f: Filters, k: QueryKey): Option<string>
  {
    match k
    case CategoriaKey => if Truthy(f.categoria) then f.categoria else None
    case BairroKey => if Truthy(f.bairro) then f.bairro else None
    case StatusKey => if Truthy(f.status) then f.status else None
    case SearchKey => if Truthy(f.search) then f.search else None
    case VereadorIdKey =>
      if f.vereadorId.Some? && f.vereadorId.value != 0 then Some(NumberText(f.vereadorId.value)) else None
  }

  /** Every query key, in the order the client appends them. */
  const ALL_KEYS: seq<QueryKey> := [CategoriaKey, BairroKey, StatusKey, SearchKey, VereadorIdKey]

  /** The parameter a key contributes: one when its filter is truthy. */
  function Param(f: Filters, k: QueryKey): seq<(QueryKey, string)>
  {
    match FilterValue(f, k)
    case Some(v) => [(k, v)]
    case None => []
  }

  /** The parameters of the keys `keys`, taken in that order. */
  function Selected(f: Filters, keys: seq<QueryKey>): seq<(QueryKey, string)>
  {
    if keys == [] then [] else Selected(f, keys[..|keys| - 1]) + Param(f, keys[|keys| - 1])
  }

  /** The `URLSearchParams` of `getSolicitacoes(filters)`, appended one by
      one: the parameters of the truthy filters in key order (see
      `QueryInOrder`). */
  method BuildQuery(f: Filters) returns (params: seq<(QueryKey, string)>)
    ensures params == Selected(f, ALL_KEYS)
  {
    params := [];
    ghost var keys: seq<QueryKey> := [];
    ghost var prev := params;
    if Truthy(f.categoria) {
      params := params + [(CategoriaKey, f.categoria.value)];
    }
    PrefixStep(f, keys, CategoriaKey, prev, params);
    keys := keys + [CategoriaKey];
    prev := params;
    if Truthy(f.bairro) {
      params := params + [(BairroKey, f.bairro.value)];
    }
    PrefixStep(f, keys, BairroKey, prev, params);
    keys := keys + [BairroKey];
    prev := params;
    if Truthy(f.status) {
      params := params + [(StatusKey, f.status.value)];
    }
    PrefixStep(f, keys, StatusKey, prev, params);
    keys := keys + [StatusKey];
    prev := params;
    if Truthy(f.search) {
      params := params + [(SearchKey, f.search.value)];
    }
    PrefixStep(f, keys, SearchKey, prev, params);
    keys := keys + [SearchKey];
    prev := params;
    if f.vereadorId.Some? && f.vereadorId.value != 0 {
      params := params + [(VereadorIdKey, NumberText(f.vereadorId.value))];
    }
    PrefixStep(f, keys, VereadorIdKey, prev, params);
    keys := keys + [VereadorIdKey];
    assert keys == ALL_KEYS;
  }

  /** One step of `BuildQuery`: appending what key `k` gives to what the
      keys before it gave. */
  lemma PrefixStep(f: Filters, keys: seq<QueryKey>, k: QueryKey, prev: seq<(QueryKey, string)>,
                   params: seq<(QueryKey, string)>)
    requires prev == Selected(f, keys) && params == prev + Param(f, k)
    ensures params == Selected(f, keys + [k])
  {
    assert (keys + [k])[..|keys|] == keys;
  }

  /** The query of `f`: every parameter carries its filter's truthy value,
      every truthy filter is present, and the keys come in the fixed order
      categoria, bairro, status, search, vereador_id, each at most once. */
  lemma QueryInOrder(f: Filters)
    ensures forall i :: 0 <= i < |Selected(f, ALL_KEYS)| ==>
              FilterValue(f, Selected(f, ALL_KEYS)[i].0) == Some(Selected(f, ALL_KEYS)[i].1)
    ensures forall k :: FilterValue(f, k).Some? ==> (k, FilterValue(f, k).value) in Selected(f, ALL_KEYS)
    ensures forall i, j :: 0 <= i < j < |Selected(f, ALL_KEYS)| ==>
              KeyRank(Selected(f, ALL_KEYS)[i].0) < KeyRank(Selected(f, ALL_KEYS)[j].0)
  {
    SelectedSound(f, ALL_KEYS);
    assert forall i :: 0 <= i < 5 ==> KeyRank(ALL_KEYS[i]) == i;
    forall k | FilterValue(f, k).Some? ensures (k, FilterValue(f, k).value) in Selected(f, ALL_KEYS) {
      assert ALL_KEYS[KeyRank(k)] == k;
      SelectedComplete(f, ALL_KEYS, k);
    }
    SelectedOrdered(f, ALL_KEYS);
  }

  /** Each selected parameter carries its filter's truthy value. */
  lemma {:induction false} SelectedSound(f: Filters, keys: seq<QueryKey>)
    ensures forall i :: 0 <= i < |Selected(f, keys)| ==>
              FilterValue(f, Selected(f, keys)[i].0) == Some(Selected(f, keys)[i].1)
  {
    if keys != [] {
      SelectedSound(f, keys[..|keys| - 1]);
    }
  }

  /** Every listed key whose filter is truthy contributes its parameter. */
  lemma {:induction false} SelectedComplete(f: Filters, keys: seq<QueryKey>, k: QueryKey)
    requires k in keys && FilterValue(f, k).Some?
    ensures (k, FilterValue(f, k).value) in Selected(f, keys)
  {
    var init := keys[..|keys| - 1];
    if k in init {
      SelectedComplete(f, init, k);
    } else {
      assert k == keys[|keys| - 1] by {
        assert keys == init + [keys[|keys| - 1]];
      }
    }
  }

  /** Keys listed in rising rank give parameters in rising rank. */
  lemma {:induction false} SelectedOrdered(f: Filters, keys: seq<QueryKey>)
    requires forall i, j :: 0 <= i < j < |keys| ==> KeyRank(keys[i]) < KeyRank(keys[j])
    ensures forall i, j :: 0 <= i < j < |Selected(f, keys)| ==>
              KeyRank(Selected(f, keys)[i].0) < KeyRank(Selected(f, keys)[j].0)
    ensures forall i :: 0 <= i < |Selected(f, keys)| ==> Selected(f, keys)[i].0 in keys
  {
    if keys != [] {
      var init := keys[..|keys| - 1];
      var last := keys[|keys| - 1];
      SelectedOrdered(f, init);
      var r := Selected(f, init);
      forall i | 0 <= i < |r| ensures KeyRank(r[i].0) < KeyRank(last) {
        var m :| 0 <= m < |init| && init[m] == r[i].0;
      }
    }
  }

  /** The message of a failed create: the body's `error`, else its `msg`,
      else a generic text with the status; a body that is not JSON gives
      its own text, or "HTTP status: statusText" when it is empty. */
  function CreateErrorMessage(reply: HttpReply): (m: string)
    ensures m != ""
    ensures reply.json.Some? && Truthy(Field(reply.json.value, "error"))
            ==> m == reply.json.value["error"]
    ensures reply.json.Some? && !Truthy(Field(reply.json.value, "error")) && Truthy(Field(reply.json.value, "msg"))
            ==> m == reply.json.value["msg"]
    ensures reply.json.Some? && !Truthy(Field(reply.json.value, "error")) && !Truthy(Field(reply.json.value, "msg"))
            ==> m == "Failed to create solicitação (" + NumberText(reply.status) + ")"
    ensures reply.json.None? && reply.text != "" ==> m == reply.text
    ensures reply.json.None? && reply.text == ""
            ==> m == "HTTP " + NumberText(reply.status) + ": " + reply.statusText
  {
    var error := match reply.json
      case Some(obj) => obj
      case None => map["error" := if reply.text != "" then reply.text
                                  else "HTTP " + NumberText(reply.status) + ": " + reply.statusText];
    if Truthy(Field(error, "error")) then error["error"]
    else if Truthy(Field(error, "msg")) then error["msg"]
    else "Failed to create solicitação (" + NumberText(reply.status) + ")"
  }

  /** The `catch` of `createSolicitacao`: a network failure (a message
      mentioning "Failed to fetch", or a TypeError) becomes the
      backend-unavailable error; anything else is rethrown as it is. */
  function Caught(e: JsError): (r: JsError)
    ensures Contains(e.message, "Failed to fetch") || e.name == "TypeError" ==> r == Error(BACKEND_UNAVAILABLE)
    ensures !(Contains(e.message, "Failed to fetch") || e.name == "TypeError") ==> r == e
  {
    if Contains(e.message, "Failed to fetch") || e.name == "TypeError" then Error(BACKEND_UNAVAILABLE) else e
  }

  /** A string without the first character of `needle` does not contain it. */
  lemma MissingFirstChar(hay: string, needle: string)
    requires needle != [] && needle[0] !in hay
    ensures !Contains(hay, needle)
  {
    ContainsIff(hay, needle);
  }

  /** No piece of the backend-unavailable message holds an 'F'. */
  lemma NoCapitalF()
    ensures 'F' !in BACKEND_UNAVAILABLE
  {
    FirstPiece();
    SecondPiece();
    ThirdPiece();
  }

  lemma FirstPiece() ensures 'F' !in UNAVAILABLE_1 {}
  lemma SecondPiece() ensures 'F' !in UNAVAILABLE_2 {}
  lemma ThirdPiece() ensures 'F' !in UNAVAILABLE_3 {}

  /** The backend-unavailable message is not itself a network failure. */
  lemma UnavailableIsFinal()
    ensures !Contains(BACKEND_UNAVAILABLE, "Failed to fetch")
  {
    NoCapitalF();
    MissingFirstChar(BACKEND_UNAVAILABLE, "Failed to fetch");
  }

  /** A JSON parse error is not a network failure, so the catch rethrows it as it is. */
  lemma SyntaxErrorRethrown()
    ensures Caught(SYNTAX_ERROR) == SYNTAX_ERROR
  {
    assert 'F' !in SYNTAX_ERROR.message;
    MissingFirstChar(SYNTAX_ERROR.message, "Failed to fetch");
  }

  /** Mapping a caught error twice is mapping it once, and what comes out is
      never a TypeError and never mentions "Failed to fetch". */
  lemma CaughtIdempotent(e: JsError)
    ensures Caught(Caught(e)) == Caught(e)
    ensures Caught(e).name != "TypeError" && !Contains(Caught(e).message, "Failed to fetch")
  {
    UnavailableIsFinal();
  }

  /** What a sent create ends in: a rejected fetch, a failed status and an
      unparsable success body all pass through the catch, so the caller never
      sees a raw network failure. */
  function CreateOutcome(fetched: Fetched<HttpReply>): (o: Outcome<JsonObject>)
    ensures fetched.Rejected? ==> o == Threw(Caught(fetched.error))
    ensures fetched.Answered? && !OkStatus(fetched.reply.status)
            ==> o == Threw(Caught(Error(CreateErrorMessage(fetched.reply))))
    ensures fetched.Answered? && OkStatus(fetched.reply.status) && fetched.reply.json.Some?
            ==> o == Returned(fetched.reply.json.value)
    ensures fetched.Answered? && OkStatus(fetched.reply.status) && fetched.reply.json.None?
            ==> o == Threw(SYNTAX_ERROR)
    ensures o.Threw? ==> o.error.name != "TypeError" && !Contains(o.error.message, "Failed to fetch")
  {
    if fetched.Rejected? then
      CaughtIdempotent(fetched.error);
      Threw(Caught(fetched.error))
    else if !OkStatus(fetched.reply.status) then
      var e := Error(CreateErrorMessage(fetched.reply));
      CaughtIdempotent(e);
      Threw(Caught(e))
    else if fetched.reply.json.None? then
      SyntaxErrorRethrown();
      CaughtIdempotent(SYNTAX_ERROR);
      Threw(Caught(SYNTAX_ERROR))
    else Returned(fetched.reply.json.value)
  }

  /** `createSolicitacao(data)`: without a stored token it throws
      "Authentication required" and sends nothing; otherwise the request
      carries the bearer authorization and ends as `CreateOutcome` says. */
  function CreateSolicitacao(st: Storage, fetched: Fetched<HttpReply>): (r: Call<JsonObject>)
    reads st
    ensures !Truthy(GetAuthToken(st)) ==> r == NotSent(Threw(Error(AUTH_REQUIRED)))
    ensures Truthy(GetAuthToken(st)) ==> r == Sent(AuthHeaders(GetAuthToken(st)), CreateOutcome(fetched))
                                         && AUTHORIZATION in r.headers
  {
    var token := GetAuthToken(st);
    if !Truthy(token) then NotSent(Threw(Error(AUTH_REQUIRED)))
    else Sent(AuthHeaders(token), CreateOutcome(fetched))
  }

  /** `updateSolicitacao(id, data)`. The same token guard; a failed status
      throws the body's `error` or "Failed to update solicitação"; there is no
      catch, so a network failure reaches the caller unchanged. */
  function UpdateSolicitacao(st: Storage, fetched: Fetched<HttpReply>): (r: Call<JsonObject>)
    reads st
    ensures !Truthy(GetAuthToken(st)) ==> r == NotSent(Threw(Error(AUTH_REQUIRED)))
    ensures Truthy(GetAuthToken(st)) ==> r.Sent? && r.headers == AuthHeaders(GetAuthToken(st))
    ensures r.Sent? && fetched.Rejected? ==> r.outcome == Threw(fetched.error)
    ensures r.Sent? && fetched.Answered? && fetched.reply.json.Some? && !OkStatus(fetched.reply.status)
            ==> r.outcome == Threw(Error(
                  if Truthy(Field(fetched.reply.json.value, "error")) then fetched.reply.json.value["error"]
                  else UPDATE_FAILED))
    ensures r.Sent? && fetched.Answered? && fetched.reply.json.Some? && OkStatus(fetched.reply.status)
            ==> r.outcome == Returned(fetched.reply.json.value)
    ensures r.Sent? && fetched.Answered? && fetched.reply.json.None? ==> r.outcome == Threw(SYNTAX_ERROR)
  {
    var token := GetAuthToken(st);
    if !Truthy(token) then NotSent(Threw(Error(AUTH_REQUIRED)))
    else
      var outcome := match fetched
        case Rejected(e) => Threw(e)
        case Answered(reply) =>
          match reply.json
          case None => Threw(SYNTAX_ERROR)
          case Some(body) =>
            if !OkStatus(reply.status) then
              Threw(Error(if Truthy(Field(body, "error")) then body["error"] else UPDATE_FAILED))
            else Returned(body);
      Sent(AuthHeaders(token), outcome)
  }
}
