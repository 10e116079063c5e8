/** The request routes of backend/solicitacao_routes.py: filtered listing,
    single read, creation (with find-or-create of the neighbourhood), update
    (owner-or-councilmember rule and the status transition) and the recent
    list.  Each handler is a method over the `Database`; handlers that only
    read take no `modifies` clause, and a handler that answers with an
    error leaves every table as it was (the rollback). */
module SolicitacaoRoutes {
  import opened Common
  import opened Sorting
  import opened Models

  const NOT_FOUND: string := "Solicitação not found"
  const UNAUTHORIZED: string := "Unauthorized"
  const INVALID_TOKEN: string := "Invalid or expired token. Please login again."
  /** What `str(e)` reads when the handler dereferences a missing row. */
  const NONE_USER_ERROR: string := "'NoneType' object has no attribute 'tipo_usuario'"
  const NONE_OWNER_ERROR: string := "'NoneType' object has no attribute 'to_dict'"
  const DEFAULT_RECENT_LIMIT: int := 10

  function CreatedAtOf(s: Solicitacao): int { s.createdAt }

  /** `ORDER BY created_at DESC`. */
  predicate NewestFirst(rows: seq<Solicitacao>)
  {
    SortedDesc(rows, CreatedAtOf)
  }

  // --------------------------------------------------- GET /api/solicitacoes

  /** The query-string filters; "" (or None) means the parameter is absent. */
  datatype ListFilters = ListFilters(categoria: string, bairro: string, status: string,
                                     search: string, vereadorId: Option<int>)

  /** The id a `categoria` name resolves to: None when the parameter is empty
      or names no category, and then the filter is not applied. */
  function CategoriaFilterId(categorias: seq<Categoria>, nome: string): Option<int>
  {
    if nome == "" then None
    else match First(categorias, (c: Categoria) => c.nome == nome)
      case None => None
      case Some(c) => Some(c.id)
  }

  function BairroFilterId(bairros: seq<Bairro>, nome: string): Option<int>
  {
    if nome == "" then None
    else match First(bairros, (b: Bairro) => b.nome == nome)
      case None => None
      case Some(b) => Some(b.id)
  }

  /** `search` as a substring of the title, the description or the address
      (a NULL address matches nothing). */
  predicate SearchMatches(search: string, s: Solicitacao)
  {
    Contains(s.titulo, search) || Contains(s.descricao, search)
    || (s.endereco.Some? && Contains(s.endereco.value, search))
  }

  /** The WHERE clause the chained `.filter()` calls build: each condition
      is present only when its parameter is (`catId`/`baiId` are the ids the
      names resolved to). */
  predicate Passes(catId: Option<int>, baiId: Option<int>, f: ListFilters, s: Solicitacao)
  {
    && (catId.Some? ==> s.categoriaId == catId.value)
    && (baiId.Some? ==> s.bairroId.Some? && s.bairroId.value == baiId.value)
    && (f.status != "" ==> s.status == f.status)
    && (f.vereadorId.Some? ==> s.vereadorId == f.vereadorId)
    && (f.search != "" ==> SearchMatches(f.search, s))
  }

  /** The specification of the listing: a row is kept when it satisfies
      every filter that is applied. */
  predicate Matches(categorias: seq<Categoria>, bairros: seq<Bairro>, f: ListFilters, s: Solicitacao)
  {
    Passes(CategoriaFilterId(categorias, f.categoria), BairroFilterId(bairros, f.bairro), f, s)
  }

  /** The rows a listing shows, before ordering. */
  function Listed(sols: seq<Solicitacao>, categorias: seq<Categoria>, bairros: seq<Bairro>,
                  f: ListFilters): (r: seq<Solicitacao>)
    ensures forall i :: 0 <= i < |r| ==> r[i] in sols && Matches(categorias, bairros, f, r[i])
    ensures forall i :: 0 <= i < |sols| && Matches(categorias, bairros, f, sols[i]) ==> sols[i] in r
  {
    var keep := (s: Solicitacao) => Matches(categorias, bairros, f, s);
    assert forall i :: 0 <= i < |sols| && keep(sols[i]) ==> sols[i] in Where(sols, keep) by {
      forall i | 0 <= i < |sols| && keep(sols[i]) ensures sols[i] in Where(sols, keep) {
        WhereComplete(sols, keep, i);
      }
    }
    Where(sols, keep)
  }

  /** The listing: the rows that pass every applied filter, newest first. */
  method GetSolicitacoes(db: Database, f: ListFilters) returns (rows: seq<Solicitacao>, total: nat)
    ensures total == |rows|
    ensures NewestFirst(rows)
    ensures multiset(rows) == multiset(Listed(db.solicitacoes, db.categorias, db.bairros, f))
  {
    var all, categorias, bairros := db.solicitacoes, db.categorias, db.bairros;
    var catId := CategoriaFilterId(categorias, f.categoria);
    var baiId := BairroFilterId(bairros, f.bairro);
    var query := Where(all, (s: Solicitacao) => Passes(catId, baiId, f, s));
    assert query == Listed(all, categorias, bairros, f) by {
      WhereCongruent(all, (s: Solicitacao) => Passes(catId, baiId, f, s),
                     (s: Solicitacao) => Matches(categorias, bairros, f, s));
    }
    rows := SortDesc(query, CreatedAtOf);
    total := |rows|;
  }

  /** Chaining the filters one after another, as the handler's code reads,
      selects the same rows as the single WHERE clause. */
  lemma ChainedFilters(all: seq<Solicitacao>, catId: Option<int>, baiId: Option<int>, f: ListFilters)
    ensures Where(Where(Where(Where(Where(all,
              (s: Solicitacao) => catId.Some? ==> s.categoriaId == catId.value),
              (s: Solicitacao) => baiId.Some? ==> s.bairroId.Some? && s.bairroId.value == baiId.value),
              (s: Solicitacao) => f.status != "" ==> s.status == f.status),
              (s: Solicitacao) => f.vereadorId.Some? ==> s.vereadorId == f.vereadorId),
              (s: Solicitacao) => f.search != "" ==> SearchMatches(f.search, s))
         == Where(all, (s: Solicitacao) => Passes(catId, baiId, f, s))
  {
    WhereChain(all,
      (s: Solicitacao) => catId.Some? ==> s.categoriaId == catId.value,
      (s: Solicitacao) => baiId.Some? ==> s.bairroId.Some? && s.bairroId.value == baiId.value,
      (s: Solicitacao) => f.status != "" ==> s.status == f.status,
      (s: Solicitacao) => f.vereadorId.Some? ==> s.vereadorId == f.vereadorId,
      (s: Solicitacao) => f.search != "" ==> SearchMatches(f.search, s),
      (s: Solicitacao) => Passes(catId, baiId, f, s));
  }

  /** Five filters in a row select what their conjunction selects. */
  lemma WhereChain<T>(s: seq<T>, p1: T -> bool, p2: T -> bool, p3: T -> bool, p4: T -> bool,
                      p5: T -> bool, all: T -> bool)
    requires forall x :: all(x) == (p1(x) && p2(x) && p3(x) && p4(x) && p5(x))
    ensures Where(Where(Where(Where(Where(s, p1), p2), p3), p4), p5) == Where(s, all)
  {
    var p12 := (x: T) => p1(x) && p2(x);
    var p123 := (x: T) => p12(x) && p3(x);
    var p1234 := (x: T) => p123(x) && p4(x);
    WhereWhere(s, p1, p2, p12);
    WhereWhere(s, p12, p3, p123);
    WhereWhere(s, p123, p4, p1234);
    WhereWhere(s, p1234, p5, all);
  }

  lemma {:induction false} WhereKeepsAll<T>(s: seq<T>, p: T -> bool)
    requires forall x :: p(x)
    ensures Where(s, p) == s
  {
    if s != [] {
      WhereKeepsAll(s[1..], p);
      assert s == [s[0]] + s[1..];
    }
  }

  /** A `categoria` name that matches no category is ignored: the listing is
      the one without that parameter. */
  lemma UnknownCategoriaIgnored(categorias: seq<Categoria>, bairros: seq<Bairro>, f: ListFilters,
                                s: Solicitacao)
    requires forall i :: 0 <= i < |categorias| ==> categorias[i].nome != f.categoria
    ensures Matches(categorias, bairros, f, s) == Matches(categorias, bairros, f.(categoria := ""), s)
  {
  }

  /** Likewise for an unknown `bairro` name. */
  lemma UnknownBairroIgnored(categorias: seq<Categoria>, bairros: seq<Bairro>, f: ListFilters,
                             s: Solicitacao)
    requires forall i :: 0 <= i < |bairros| ==> bairros[i].nome != f.bairro
    ensures Matches(categorias, bairros, f, s) == Matches(categorias, bairros, f.(bairro := ""), s)
  {
  }

  // ----------------------------------------------- GET /api/solicitacoes/<id>

  /** The single request with its owner attached (unless anonymous). */
  method GetSolicitacao(db: Database, id: int) returns (r: Reply<SolicitacaoView>)
    ensures r.Fail? && r.code == 404 <==> forall i :: 0 <= i < |db.solicitacoes| ==> db.solicitacoes[i].id != id
    ensures r.Ok? ==> r.code == 200 && r.value.id == id
                      && (r.value.usuario.Some? <==> !r.value.anonimo)
    ensures r.Fail? ==> r == Fail(404, NOT_FOUND) || r == Fail(500, NONE_OWNER_ERROR)
    ensures r == Fail(500, NONE_OWNER_ERROR) <==>
              First(db.solicitacoes, (s: Solicitacao) => s.id == id).Some?
              && OwnerNeeded(First(db.solicitacoes, (s: Solicitacao) => s.id == id).value, true)
              && FindUser(db.users, First(db.solicitacoes, (s: Solicitacao) => s.id == id).value.userId).None?
    ensures r.Ok? ==> r.value == SolicitacaoToDict(First(db.solicitacoes, (s: Solicitacao) => s.id == id).value,
                                                   db.categorias, db.bairros, db.vereadores, db.users, true)
  {
    var found := First(db.solicitacoes, (s: Solicitacao) => s.id == id);
    if found.None? {
      return Fail(404, NOT_FOUND);
    }
    var s := found.value;
    if OwnerNeeded(s, true) && FindUser(db.users, s.userId).None? {
      return Fail(500, NONE_OWNER_ERROR);
    }
    return Ok(200, SolicitacaoToDict(s, db.categorias, db.bairros, db.vereadores, db.users, true));
  }

  // -------------------------------------------------- POST /api/solicitacoes

  /** The JSON body of a creation request; None is a missing key. */
  datatype CreateBody = CreateBody(
    titulo: Option<string>, categoriaId: Option<int>, descricao: Option<string>,
    endereco: Option<string>, bairro: Option<string>, cep: Option<string>,
    latitude: Option<real>, longitude: Option<real>, fotos: Option<seq<string>>,
    anonimo: Option<bool>)

  const CREATE_REQUIRED: seq<string> := ["titulo", "categoria_id", "descricao"]

  /** `data.get(field)` is truthy: present, and not "" or 0. */
  predicate CreateFieldPresent(body: CreateBody, field: string)
  {
    if field == "titulo" then Truthy(body.titulo)
    else if field == "categoria_id" then body.categoriaId.Some? && body.categoriaId.value != 0
    else if field == "descricao" then Truthy(body.descricao)
    else false
  }

  /** The reply of a create whose required field `field` is missing. */
  function RequiredMessage(field: string): string
  {
    field + " is required"
  }

  method CreateSolicitacao(db: Database, identity: Option<int>, body: CreateBody, now: int)
    returns (r: Reply<Solicitacao>)
    requires db.Valid()
    modifies db
    ensures db.Valid()
    ensures db.users == old(db.users) && db.vereadores == old(db.vereadores)
         && db.categorias == old(db.categorias)
    // a malformed identity or a missing field: 401 / 400 and nothing is written
    ensures identity.None? ==> r == Fail(401, INVALID_TOKEN)
    ensures identity.Some? && !CreateFieldPresent(body, "titulo") ==> r == Fail(400, RequiredMessage("titulo"))
    ensures identity.Some? && CreateFieldPresent(body, "titulo") && !CreateFieldPresent(body, "categoria_id")
            ==> r == Fail(400, RequiredMessage("categoria_id"))
    ensures identity.Some? && CreateFieldPresent(body, "titulo") && CreateFieldPresent(body, "categoria_id")
            && !CreateFieldPresent(body, "descricao")
            ==> r == Fail(400, RequiredMessage("descricao"))
    ensures r.Fail? ==> db.solicitacoes == old(db.solicitacoes) && db.bairros == old(db.bairros)
    // otherwise exactly one new row, open, owned by the caller
    ensures r.Ok? <==> identity.Some? && CreateFieldPresent(body, "titulo") && CreateFieldPresent(body, "categoria_id")
                       && CreateFieldPresent(body, "descricao")
    ensures r.Ok? ==>
              && r.code == 201
              && db.solicitacoes == old(db.solicitacoes) + [r.value]
              && (forall i :: 0 <= i < |old(db.solicitacoes)| ==> old(db.solicitacoes)[i].id != r.value.id)
              && r.value.titulo == body.titulo.value && r.value.categoriaId == body.categoriaId.value
              && r.value.descricao == body.descricao.value
              && r.value.endereco == body.endereco && r.value.cep == body.cep
              && r.value.latitude == body.latitude && r.value.longitude == body.longitude
              && r.value.status == ABERTA && r.value.userId == identity.value
              && r.value.anonimo == (body.anonimo.Some? && body.anonimo.value)
              && r.value.fotos == Some(if body.fotos.Some? then body.fotos.value else [])
              && r.value.vereadorId.None? && r.value.tempoResolucao.None?
              && r.value.createdAt == now && r.value.updatedAt == now
    // find-or-create of the neighbourhood
    ensures r.Ok? && !Truthy(body.bairro) ==> r.value.bairroId.None? && db.bairros == old(db.bairros)
    ensures r.Ok? && Truthy(body.bairro) ==>
              r.value.bairroId.Some?
              && FindBairro(db.bairros, r.value.bairroId.value) == Some(Bairro(r.value.bairroId.value, body.bairro.value))
    ensures r.Ok? && Truthy(body.bairro) && (exists i :: 0 <= i < |old(db.bairros)| && old(db.bairros)[i].nome == body.bairro.value)
            ==> db.bairros == old(db.bairros)
    ensures r.Ok? && Truthy(body.bairro) && (forall i :: 0 <= i < |old(db.bairros)| ==> old(db.bairros)[i].nome != body.bairro.value)
            ==> db.bairros == old(db.bairros) + [Bairro(r.value.bairroId.value, body.bairro.value)]
  {
    if identity.None? {
      return Fail(401, INVALID_TOKEN);
    }
    var missing := MissingCreateField(body);
    if missing.Some? {
      return Fail(400, RequiredMessage(missing.value));
    }

    var bairroId: Option<nat> := None;
    if Truthy(body.bairro) {
      var id := FindOrCreateBairro(db, body.bairro.value);
      bairroId := Some(id);
    }

    var row := Solicitacao(
      db.nextSolicitacaoId, body.titulo.value, body.categoriaId.value, body.descricao.value,
      body.endereco, bairroId, body.cep, body.latitude, body.longitude,
      Some(if body.fotos.Some? then body.fotos.value else []),
      ABERTA, body.anonimo.Some? && body.anonimo.value, identity.value, None,
      now, now, None);
    db.AddSolicitacao(row);
    return Ok(201, row);
  }

  /** The required-field loop of `create_solicitacao`: the first of titulo,
      categoria_id and descricao whose value is falsy. */
  method MissingCreateField(body: CreateBody) returns (missing: Option<string>)
    ensures missing == if !CreateFieldPresent(body, "titulo") then Some("titulo")
                       else if !CreateFieldPresent(body, "categoria_id") then Some("categoria_id")
                       else if !CreateFieldPresent(body, "descricao") then Some("descricao")
                       else None
  {
    missing := FirstFalsy(CREATE_REQUIRED, field => CreateFieldPresent(body, field));
    assert CREATE_REQUIRED[0] == "titulo" && CREATE_REQUIRED[1] == "categoria_id"
        && CREATE_REQUIRED[2] == "descricao";
    if missing.Some? {
      ghost var k :| 0 <= k < |CREATE_REQUIRED| && CREATE_REQUIRED[k] == missing.value
               && !CreateFieldPresent(body, CREATE_REQUIRED[k])
               && forall j :: 0 <= j < k ==> CreateFieldPresent(body, CREATE_REQUIRED[j]);
      assert k == 0 || k == 1 || k == 2;
    } else {
      assert CreateFieldPresent(body, CREATE_REQUIRED[0]) && CreateFieldPresent(body, CREATE_REQUIRED[1])
          && CreateFieldPresent(body, CREATE_REQUIRED[2]);
    }
  }

  /** The neighbourhood called `nome`: the existing row, or a new one with
      the next id when no row has that name. */
  method FindOrCreateBairro(db: Database, nome: string) returns (id: nat)
    requires db.Valid()
    modifies db
    ensures db.Valid()
    ensures db.users == old(db.users) && db.vereadores == old(db.vereadores)
         && db.categorias == old(db.categorias) && db.solicitacoes == old(db.solicitacoes)
         && db.nextSolicitacaoId == old(db.nextSolicitacaoId)
    ensures FindBairro(db.bairros, id) == Some(Bairro(id, nome))
    ensures (exists i :: 0 <= i < |old(db.bairros)| && old(db.bairros)[i].nome == nome)
            ==> db.bairros == old(db.bairros)
    ensures (forall i :: 0 <= i < |old(db.bairros)| ==> old(db.bairros)[i].nome != nome)
            ==> db.bairros == old(db.bairros) + [Bairro(id, nome)]
  {
    var idx := IndexOf(db.bairros, (b: Bairro) => b.nome == nome);
    if idx.None? {
      var created := Bairro(db.nextBairroId, nome);
      FindBairroLast(db.bairros, created);
      db.AddBairro(created);
      id := created.id;
    } else {
      id := db.bairros[idx.value].id;
      FindBairroUnique(db.bairros, idx.value);
    }
  }

  /** With unique ids, looking up the id of the bairro at `k` finds it. */
  lemma FindBairroUnique(bairros: seq<Bairro>, k: nat)
    requires k < |bairros| && UniqueBy(bairros, BairroIdOf)
    ensures FindBairro(bairros, bairros[k].id) == Some(bairros[k])
  {
    var idx := IndexOf(bairros, (b: Bairro) => b.id == bairros[k].id);
    assert idx.Some?;
    var j := idx.value;
    assert j <= k;
    assert BairroIdOf(bairros[j]) == BairroIdOf(bairros[k]);
    assert j == k;
  }

  /** A bairro appended with a fresh id is the one found under that id. */
  lemma FindBairroLast(bairros: seq<Bairro>, b: Bairro)
    requires BelowBy(bairros, BairroIdOf, b.id)
    ensures FindBairro(bairros + [b], b.id) == Some(b)
  {
    var all := bairros + [b];
    assert all[|bairros|] == b;
    var idx := IndexOf(all, (x: Bairro) => x.id == b.id);
    assert idx.Some?;
    forall i | 0 <= i < |bairros| ensures all[i].id != b.id {
      assert all[i] == bairros[i];
      assert BairroIdOf(bairros[i]) < b.id;
    }
    assert idx.value == |bairros|;
  }

  // ----------------------------------------------- PUT /api/solicitacoes/<id>

  /** The JSON body of an update; None is a missing key.  `vereadorId` may
      be present with JSON null (`Some(None)`), which unassigns. */
  datatype UpdateBody = UpdateBody(status: Option<string>, vereadorId: Option<Option<int>>,
                                   descricao: Option<string>)

  /** The row after an authorised update at time `now`. */
  function UpdatedRow(s: Solicitacao, body: UpdateBody, now: int): (u: Solicitacao)
    ensures u.status == (if body.status.Some? then body.status.value else s.status)
    ensures u.vereadorId == (if body.vereadorId.Some? then body.vereadorId.value else s.vereadorId)
    ensures u.descricao == (if body.descricao.Some? then body.descricao.value else s.descricao)
    ensures u.updatedAt == now
    // the resolution time changes only on the transition into "resolvida",
    // measured up to the update before this one
    ensures body.status == Some(RESOLVIDA) && s.status != RESOLVIDA
            ==> u.tempoResolucao == Some((s.updatedAt - s.createdAt) / SECONDS_PER_DAY)
    ensures !(body.status == Some(RESOLVIDA) && s.status != RESOLVIDA) ==> u.tempoResolucao == s.tempoResolucao
    // nothing else changes
    ensures u.(status := s.status, vereadorId := s.vereadorId, descricao := s.descricao,
               updatedAt := s.updatedAt, tempoResolucao := s.tempoResolucao) == s
  {
    var s1 := if body.status.Some? then
                var moved := s.(status := body.status.value);
                if body.status.value == RESOLVIDA && s.status != RESOLVIDA
                then moved.(tempoResolucao := CalculateTempoResolucao(moved))
                else moved
              else s;
    var s2 := if body.vereadorId.Some? then s1.(vereadorId := body.vereadorId.value) else s1;
    var s3 := if body.descricao.Some? then s2.(descricao := body.descricao.value) else s2;
    s3.(updatedAt := now)
  }

  /** Resolving an already resolved request again keeps its resolution time. */
  lemma ResolveTwiceKeepsTempo(s: Solicitacao, body: UpdateBody, t1: int, t2: int)
    requires body.status == Some(RESOLVIDA)
    ensures UpdatedRow(UpdatedRow(s, body, t1), body, t2).tempoResolucao
         == UpdatedRow(s, body, t1).tempoResolucao
  {
  }

  /** May this caller update the row?  Councilmembers may update any row,
      citizens only their own. */
  predicate MayUpdate(caller: User, s: Solicitacao)
  {
    caller.tipoUsuario == VEREADOR || s.userId == caller.id
  }

  method UpdateSolicitacao(db: Database, identity: int, id: int, body: UpdateBody, now: int)
    returns (r: Reply<Solicitacao>)
    requires db.Valid()
    modifies db
    ensures db.Valid()
    ensures db.users == old(db.users) && db.vereadores == old(db.vereadores)
         && db.categorias == old(db.categorias) && db.bairros == old(db.bairros)
    ensures r.Fail? ==> db.solicitacoes == old(db.solicitacoes)
    ensures (forall i :: 0 <= i < |old(db.solicitacoes)| ==> old(db.solicitacoes)[i].id != id)
            <==> r == Fail(404, NOT_FOUND)
    ensures r.Fail? && r.code == 403 <==>
              (exists i :: 0 <= i < |old(db.solicitacoes)| && old(db.solicitacoes)[i].id == id)
              && FindUser(db.users, identity).Some?
              && !MayUpdate(FindUser(db.users, identity).value,
                            First(old(db.solicitacoes), (s: Solicitacao) => s.id == id).value)
    ensures r.Fail? && r.code == 403 ==> r.error == UNAUTHORIZED
    ensures r == Fail(500, NONE_USER_ERROR) <==>
              (exists i :: 0 <= i < |old(db.solicitacoes)| && old(db.solicitacoes)[i].id == id)
              && FindUser(db.users, identity).None?
    ensures (exists i :: 0 <= i < |old(db.solicitacoes)| && old(db.solicitacoes)[i].id == id)
            && FindUser(db.users, identity).Some?
            && MayUpdate(FindUser(db.users, identity).value,
                         First(old(db.solicitacoes), (s: Solicitacao) => s.id == id).value)
            ==> r.Ok?
    ensures r.Ok? ==>
              exists k :: 0 <= k < |old(db.solicitacoes)| && old(db.solicitacoes)[k].id == id
                && FindUser(db.users, identity).Some?
                && MayUpdate(FindUser(db.users, identity).value, old(db.solicitacoes)[k])
                && r == Ok(200, UpdatedRow(old(db.solicitacoes)[k], body, now))
                && db.solicitacoes == old(db.solicitacoes)[k := r.value]
  {
    var idx := IndexOf(db.solicitacoes, (s: Solicitacao) => s.id == id);
    if idx.None? {
      return Fail(404, NOT_FOUND);
    }
    var k := idx.value;
    var s := db.solicitacoes[k];
    assert First(db.solicitacoes, (s: Solicitacao) => s.id == id) == Some(s);
    var user := FindUser(db.users, identity);
    if user.None? {
      return Fail(500, NONE_USER_ERROR);
    }
    if !MayUpdate(user.value, s) {
      return Fail(403, UNAUTHORIZED);
    }
    var u := UpdatedRow(s, body, now);
    db.ReplaceSolicitacao(k, u);
    return Ok(200, u);
  }

  // -------------------------------------------- GET /api/solicitacoes/recent

  /** The `limit` newest requests (10 when the parameter is absent or not an
      integer; SQLite reads a negative LIMIT as no limit). */
  method GetRecentSolicitacoes(db: Database, limit: Option<int>) returns (rows: seq<Solicitacao>)
    ensures IsTopN(rows, multiset(db.solicitacoes), CreatedAtOf)
    ensures var n := if limit.Some? then limit.value else DEFAULT_RECENT_LIMIT;
            |rows| == if 0 <= n < |db.solicitacoes| then n else |db.solicitacoes|
  {
    var all := db.solicitacoes;
    var n := if limit.Some? then limit.value else DEFAULT_RECENT_LIMIT;
    var cut := if 0 <= n < |all| then n else |all|;
    rows := SortDesc(all, CreatedAtOf)[..cut];
    TopN(all, CreatedAtOf, cut);
  }
}
