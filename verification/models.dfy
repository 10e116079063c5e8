/** The backend's tables (backend/models.py) and the pure functions that
    derive values from them: resolution time, per-councilmember statistics,
    the top-three categories and the dictionaries the routes return.
    Timestamps are whole seconds; the database is a `Database` object whose
    tables are sequences in insertion order. */
module Models {
  import opened Common
  import opened Sorting

  const ABERTA: string := "aberta"
  const EM_ANDAMENTO: string := "em_andamento"
  const RESOLVIDA: string := "resolvida"
  const CIDADAO: string := "cidadao"
  const VEREADOR: string := "vereador"
  const SECONDS_PER_DAY: int := 86400

  datatype User = User(id: nat, email: string, passwordHash: string, nome: string,
                       tipoUsuario: string, telefone: Option<string>, createdAt: int)

  datatype Vereador = Vereador(id: nat, userId: int, nome: string, partido: string,
                               fotoUrl: Option<string>, createdAt: int)

  datatype Categoria = Categoria(id: nat, nome: string, icone: Option<string>)

  datatype Bairro = Bairro(id: nat, nome: string)

  /** A service request row.  `fotos` is the JSON text column: `Some(list)`
      holds the text of a JSON list, `None` stands for NULL or ''. */
  datatype Solicitacao = Solicitacao(
    id: nat, titulo: string, categoriaId: int, descricao: string,
    endereco: Option<string>, bairroId: Option<nat>, cep: Option<string>,
    latitude: Option<real>, longitude: Option<real>, fotos: Option<seq<string>>,
    status: string, anonimo: bool, userId: int, vereadorId: Option<int>,
    createdAt: int, updatedAt: int, tempoResolucao: Option<int>)

  // ---------------------------------------------------------------- lookups

  function FindUser(users: seq<User>, id: int): Option<User>
  {
    First(users, (u: User) => u.id == id)
  }

  function FindVereador(vereadores: seq<Vereador>, id: int): Option<Vereador>
  {
    First(vereadores, (v: Vereador) => v.id == id)
  }

  function FindCategoria(categorias: seq<Categoria>, id: int): Option<Categoria>
  {
    First(categorias, (c: Categoria) => c.id == id)
  }

  function FindBairro(bairros: seq<Bairro>, id: int): Option<Bairro>
  {
    First(bairros, (b: Bairro) => b.id == id)
  }

  // ------------------------------------------------------------ User.to_dict

  /** The public form of a user: every column except the password hash. */
  datatype UserView = UserView(id: nat, email: string, nome: string, tipoUsuario: string,
                               telefone: Option<string>, createdAt: int)

  function UserToDict(u: User): UserView
  {
    UserView(u.id, u.email, u.nome, u.tipoUsuario, u.telefone, u.createdAt)
  }

  /** `to_dict` never exposes the password hash: two users that differ only
      in it look the same. */
  lemma UserToDictHidesPassword(u: User, otherHash: string)
    ensures UserToDict(u.(passwordHash := otherHash)) == UserToDict(u)
    ensures UserToDict(u).id == u.id && UserToDict(u).email == u.email
  {
  }

  // ------------------------------------------- Solicitacao.calculate_tempo_resolucao

  /** Whole days from creation to last update, only for a resolved request.
      Python's `timedelta.days` rounds toward minus infinity, as Dafny's
      division by a positive number does. */
  function CalculateTempoResolucao(s: Solicitacao): (days: Option<int>)
    ensures days.Some? <==> s.status == RESOLVIDA
    ensures days.Some? ==> days.value * SECONDS_PER_DAY <= s.updatedAt - s.createdAt
                             < (days.value + 1) * SECONDS_PER_DAY
    ensures days.Some? && s.createdAt <= s.updatedAt ==> days.value >= 0
  {
    if s.status == RESOLVIDA then Some((s.updatedAt - s.createdAt) / SECONDS_PER_DAY) else None
  }

  // ------------------------------------------------------------- rounding

  /** Python's `round` applied to the exact quotient n / d: the nearest
      integer, ties to the even one. */
  function RoundHalfEven(n: int, d: int): (r: int)
    requires d > 0
    ensures 2 * (n - d * r) <= d && 2 * (d * r - n) <= d
    ensures 2 * (n - d * r) == d || 2 * (d * r - n) == d ==> r % 2 == 0
  {
    var q := n / d;
    var m := n % d;
    assert n == d * q + m;
    assert d * (q + 1) == d * q + d;
    if 2 * m > d then q + 1
    else if 2 * m < d then q
    else if q % 2 == 0 then q
    else q + 1
  }

  /** A rounded quotient stays within integer bounds of the exact quotient. */
  lemma RoundHalfEvenWithin(n: int, d: int, lo: int, hi: int)
    requires d > 0 && d * lo <= n <= d * hi
    ensures lo <= RoundHalfEven(n, d) <= hi
  {
    var r := RoundHalfEven(n, d);
    if r < lo {
      assert d * r <= d * (lo - 1) by { MulMonotone(d, r, lo - 1); }
      assert false;
    }
    if r > hi {
      assert d * r >= d * (hi + 1) by { MulMonotone(d, hi + 1, r); }
      assert false;
    }
  }

  lemma MulMonotone(d: int, a: int, b: int)
    requires d > 0 && a <= b
    ensures d * a <= d * b
  {
  }

  // ---------------------------------------------------- Vereador.calculate_stats

  /** The rows assigned to councilmember `vid` (the `solicitacoes` relationship). */
  function Assigned(sols: seq<Solicitacao>, vid: int): seq<Solicitacao>
  {
    Where(sols, AssignedTo(vid))
  }

  /** Selects the rows whose `vereador_id` is `vid`. */
  function AssignedTo(vid: int): Solicitacao -> bool
  {
    (s: Solicitacao) => s.vereadorId == Some(vid)
  }

  predicate IsResolved(s: Solicitacao)
  {
    s.status == RESOLVIDA
  }

  /** Selects the rows assigned to `vid` and resolved, in one test. */
  function ResolvedBy(vid: int): Solicitacao -> bool
  {
    (s: Solicitacao) => s.vereadorId == Some(vid) && s.status == RESOLVIDA
  }

  /** Resolved with a truthy resolution time: a time of 0 does not count. */
  predicate HasTruthyTempo(s: Solicitacao)
  {
    s.status == RESOLVIDA && s.tempoResolucao.Some? && s.tempoResolucao.value != 0
  }

  function TempoOf(s: Solicitacao): int
  {
    if s.tempoResolucao.Some? then s.tempoResolucao.value else 0
  }

  function SumTempo(s: seq<Solicitacao>): int
  {
    if s == [] then 0 else TempoOf(s[0]) + SumTempo(s[1..])
  }

  /** Bounds on every time bound the sum. */
  lemma {:induction false} SumTempoWithin(s: seq<Solicitacao>, lo: int, hi: int)
    requires forall i :: 0 <= i < |s| ==> lo <= TempoOf(s[i]) <= hi
    ensures |s| * lo <= SumTempo(s) <= |s| * hi
  {
    if s != [] {
      SumTempoWithin(s[1..], lo, hi);
    }
  }

  /** `m` is `round(sum / len, 1)` of the times of `rows`, in tenths of a day:
      within half a tenth of the exact mean, with a tie going to the even tenth. */
  predicate RoundedMeanTenths(rows: seq<Solicitacao>, m: int)
  {
    var n := 10 * SumTempo(rows);
    var d := |rows|;
    2 * (n - d * m) <= d && 2 * (d * m - n) <= d
    && (2 * (n - d * m) == d || 2 * (d * m - n) == d ==> m % 2 == 0)
  }

  /** The mean of `rows`' times in tenths of a day, rounded as `round(x, 1)`
      does; 0 when there are no rows. */
  function MeanTempoTenths(rows: seq<Solicitacao>): (m: int)
    ensures rows == [] ==> m == 0
    ensures rows != [] ==> RoundedMeanTenths(rows, m)
  {
    if rows == [] then 0 else RoundHalfEven(10 * SumTempo(rows), |rows|)
  }

  /** The mean lies between the smallest and largest time. */
  lemma MeanTempoWithin(rows: seq<Solicitacao>, lo: int, hi: int)
    requires forall i :: 0 <= i < |rows| ==> lo <= TempoOf(rows[i]) <= hi
    requires rows != []
    ensures 10 * lo <= MeanTempoTenths(rows) <= 10 * hi
  {
    SumTempoWithin(rows, lo, hi);
    RoundHalfEvenWithin(10 * SumTempo(rows), |rows|, 10 * lo, 10 * hi);
  }

  /** A resolution rate in percent: round(100 * resolved / total), 0 when total is 0. */
  function TaxaResolucao(resolvidas: nat, total: nat): (taxa: int)
    requires resolvidas <= total
    ensures 0 <= taxa <= 100
    ensures total == 0 ==> taxa == 0
    ensures total > 0 ==> (2 * (100 * resolvidas - total * taxa) <= total
                           && 2 * (total * taxa - 100 * resolvidas) <= total)
    ensures total > 0 && (2 * (100 * resolvidas - total * taxa) == total
                          || 2 * (total * taxa - 100 * resolvidas) == total)
            ==> taxa % 2 == 0
    ensures total > 0 ==> taxa == RoundHalfEven(100 * resolvidas, total)
    ensures total > 0 && resolvidas == total ==> taxa == 100
  {
    if total == 0 then 0
    else
      RoundHalfEvenWithin(100 * resolvidas, total, 0, 100);
      var t := RoundHalfEven(100 * resolvidas, total);
      assert resolvidas == total ==> t == 100 by {
        if resolvidas == total { RoundHalfEvenWithin(100 * resolvidas, total, 100, 100); }
      }
      t
  }

  datatype VereadorStats = VereadorStats(solicitacoesAssumidas: nat, solicitacoesResolvidas: nat,
                                         tempoMedioDecimos: int, taxaResolucao: int)

  function CalculateStats(sols: seq<Solicitacao>, vid: int): (st: VereadorStats)
    ensures st.solicitacoesAssumidas == Count(sols, AssignedTo(vid))
    ensures st.solicitacoesResolvidas == Count(sols, ResolvedBy(vid))
    ensures st.solicitacoesResolvidas <= st.solicitacoesAssumidas
    ensures st.taxaResolucao == TaxaResolucao(st.solicitacoesResolvidas, st.solicitacoesAssumidas)
    ensures st.solicitacoesAssumidas == 0 ==> st.taxaResolucao == 0 && st.tempoMedioDecimos == 0
    ensures 0 <= st.taxaResolucao <= 100
  {
    var mine := Assigned(sols, vid);
    var resolvidas := Where(mine, IsResolved);
    WhereWhere(sols, AssignedTo(vid), IsResolved, ResolvedBy(vid));
    var comTempo := Where(mine, HasTruthyTempo);
    VereadorStats(|mine|, |resolvidas|, MeanTempoTenths(comTempo),
                  TaxaResolucao(|resolvidas|, |mine|))
  }

  /** The average covers exactly this councilmember's resolved requests with
      a non-zero time, is their mean rounded to a tenth, and lies between
      their smallest and largest time. */
  lemma CalculateStatsAverage(sols: seq<Solicitacao>, vid: int, lo: int, hi: int)
    requires forall i :: 0 <= i < |sols| && sols[i].vereadorId == Some(vid) && HasTruthyTempo(sols[i])
               ==> lo <= TempoOf(sols[i]) <= hi
    ensures (forall i :: 0 <= i < |sols| ==> !(sols[i].vereadorId == Some(vid) && HasTruthyTempo(sols[i])))
            ==> CalculateStats(sols, vid).tempoMedioDecimos == 0
    ensures (exists i :: 0 <= i < |sols| && sols[i].vereadorId == Some(vid) && HasTruthyTempo(sols[i]))
            ==> 10 * lo <= CalculateStats(sols, vid).tempoMedioDecimos <= 10 * hi
    ensures Where(Assigned(sols, vid), HasTruthyTempo) != []
            ==> RoundedMeanTenths(Where(Assigned(sols, vid), HasTruthyTempo),
                                  CalculateStats(sols, vid).tempoMedioDecimos)
  {
    var comTempo := Where(Assigned(sols, vid), HasTruthyTempo);
    assert CalculateStats(sols, vid).tempoMedioDecimos == MeanTempoTenths(comTempo);
    WhereWhereWitness(sols, AssignedTo(vid), HasTruthyTempo);
    if comTempo != [] {
      forall j | 0 <= j < |comTempo| ensures lo <= TempoOf(comTempo[j]) <= hi {
        var m :| 0 <= m < |sols| && sols[m] == comTempo[j]
                 && sols[m].vereadorId == Some(vid) && HasTruthyTempo(sols[m]);
      }
      MeanTempoWithin(comTempo, lo, hi);
    }
  }

  // ----------------------------------------------- principais_areas (top three)

  datatype Area = Area(area: string, count: nat)

  function AreaCountOf(a: Area): int { a.count }

  /** The category names in first-occurrence order (the GROUP BY keys). */
  function DistinctNames(categorias: seq<Categoria>, seen: set<string>): (names: seq<string>)
    ensures forall i :: 0 <= i < |names| ==> names[i] !in seen
    ensures forall i, j :: 0 <= i < j < |names| ==> names[i] != names[j]
    ensures forall i :: 0 <= i < |categorias| && categorias[i].nome !in seen
              ==> categorias[i].nome in names
  {
    if categorias == [] then []
    else if categorias[0].nome in seen then DistinctNames(categorias[1..], seen)
    else [categorias[0].nome] + DistinctNames(categorias[1..], seen + {categorias[0].nome})
  }

  /** How many of `mine` fall in a category called `name`. */
  function AreaCount(categorias: seq<Categoria>, mine: seq<Solicitacao>, name: string): nat
  {
    Count(mine, (s: Solicitacao) => CategoriaNome(categorias, s.categoriaId) == Some(name))
  }

  /** One group per name with at least one row. */
  function Groups(names: seq<string>, categorias: seq<Categoria>, mine: seq<Solicitacao>): (gs: seq<Area>)
    ensures forall i :: 0 <= i < |gs| ==>
              (gs[i].count > 0 && gs[i].area in names && gs[i].count == AreaCount(categorias, mine, gs[i].area))
    ensures forall n :: n in names && AreaCount(categorias, mine, n) > 0
              ==> Area(n, AreaCount(categorias, mine, n)) in gs
  {
    if names == [] then []
    else
      var c := AreaCount(categorias, mine, names[0]);
      (if c > 0 then [Area(names[0], c)] else []) + Groups(names[1..], categorias, mine)
  }

  /** Every group of this councilmember's requests, by count descending. */
  function RankedAreas(categorias: seq<Categoria>, sols: seq<Solicitacao>, vid: int): seq<Area>
  {
    SortDesc(Groups(DistinctNames(categorias, {}), categorias, Assigned(sols, vid)), AreaCountOf)
  }

  /** `principais_areas`: group this councilmember's requests by category
      name, order by count descending, keep three. */
  function PrincipaisAreas(categorias: seq<Categoria>, sols: seq<Solicitacao>, vid: int): seq<Area>
  {
    Take(RankedAreas(categorias, sols, vid), 3)
  }

  /** At most three areas, by non-increasing count, each counting exactly this
      councilmember's requests in that category. */
  lemma PrincipaisAreasCounts(categorias: seq<Categoria>, sols: seq<Solicitacao>, vid: int)
    ensures var areas := PrincipaisAreas(categorias, sols, vid);
            && |areas| <= 3
            && SortedDesc(areas, AreaCountOf)
            && (forall i :: 0 <= i < |areas| ==>
                  (areas[i].count > 0
                   && areas[i].count == AreaCount(categorias, Assigned(sols, vid), areas[i].area)))
  {
    var groups := Groups(DistinctNames(categorias, {}), categorias, Assigned(sols, vid));
    var ranked := RankedAreas(categorias, sols, vid);
    var areas := PrincipaisAreas(categorias, sols, vid);
    forall i | 0 <= i < |areas|
      ensures areas[i].count > 0 && areas[i].count == AreaCount(categorias, Assigned(sols, vid), areas[i].area)
    {
      assert areas[i] == ranked[i];
      assert ranked[i] in multiset(groups);
    }
  }

  /** No category left out has more of this councilmember's requests than a
      listed one, and when fewer than three are listed none is left out. */
  lemma PrincipaisAreasTop(categorias: seq<Categoria>, sols: seq<Solicitacao>, vid: int, k: nat)
    requires k < |categorias|
    requires AreaCount(categorias, Assigned(sols, vid), categorias[k].nome) > 0
    requires forall i :: 0 <= i < |PrincipaisAreas(categorias, sols, vid)| ==>
               PrincipaisAreas(categorias, sols, vid)[i].area != categorias[k].nome
    ensures |PrincipaisAreas(categorias, sols, vid)| == 3
    ensures forall i :: 0 <= i < 3 ==>
              AreaCount(categorias, Assigned(sols, vid), categorias[k].nome)
              <= PrincipaisAreas(categorias, sols, vid)[i].count
  {
    var name := categorias[k].nome;
    var mine := Assigned(sols, vid);
    var ranked := RankedAreas(categorias, sols, vid);
    var g := Area(name, AreaCount(categorias, mine, name));
    assert g in ranked by {
      var names := DistinctNames(categorias, {});
      var groups := Groups(names, categorias, mine);
      assert name in names;
      assert g in groups;
      assert g in multiset(ranked);
    }
    var areas := PrincipaisAreas(categorias, sols, vid);
    assert areas == Take(ranked, 3);
    forall i | 0 <= i < |areas| ensures areas[i] != g {
      assert areas[i].area != name;
    }
    LeftOutDominated(ranked, AreaCountOf, 3, g);
  }

  // ------------------------------------------------------- Vereador.to_dict

  datatype VereadorView = VereadorView(id: nat, nome: string, partido: string, fotoUrl: Option<string>,
                                       createdAt: int, stats: Option<VereadorStats>,
                                       principaisAreas: Option<seq<Area>>)

  function VereadorToDict(v: Vereador, categorias: seq<Categoria>, sols: seq<Solicitacao>,
                          includeStats: bool): (view: VereadorView)
    ensures view.id == v.id && view.nome == v.nome && view.partido == v.partido
    ensures view.fotoUrl == v.fotoUrl && view.createdAt == v.createdAt
    ensures view.stats.Some? == includeStats && view.principaisAreas.Some? == includeStats
    ensures includeStats ==>
              view.stats == Some(CalculateStats(sols, v.id))
              && view.principaisAreas == Some(PrincipaisAreas(categorias, sols, v.id))
    ensures includeStats ==>
              (|view.principaisAreas.value| <= 3
               && view.stats.value.solicitacoesResolvidas <= view.stats.value.solicitacoesAssumidas
               && 0 <= view.stats.value.taxaResolucao <= 100)
  {
    var areas := PrincipaisAreas(categorias, sols, v.id);
    PrincipaisAreasCounts(categorias, sols, v.id);
    VereadorView(v.id, v.nome, v.partido, v.fotoUrl, v.createdAt,
                 if includeStats then Some(CalculateStats(sols, v.id)) else None,
                 if includeStats then Some(areas) else None)
  }

  /** The resolution rate a councilmember entry is ranked by (0 without stats). */
  function RankKey(view: VereadorView): int
  {
    if view.stats.Some? then view.stats.value.taxaResolucao else 0
  }

  // ----------------------------------------------------- Solicitacao.to_dict

  datatype SolicitacaoView = SolicitacaoView(
    id: nat, titulo: string, categoria: Option<string>, categoriaId: int, descricao: string,
    endereco: Option<string>, bairro: Option<string>, bairroId: Option<nat>, cep: Option<string>,
    latitude: Option<real>, longitude: Option<real>, fotos: seq<string>, status: string,
    anonimo: bool, vereadorId: Option<int>, vereadorNome: Option<string>, createdAt: int,
    updatedAt: int, tempoResolucao: Option<int>, usuario: Option<UserView>)

  /** The owner's dictionary is attached only when asked for and the
      request is not anonymous; reading it needs the owner row. */
  predicate OwnerNeeded(s: Solicitacao, includeUser: bool)
  {
    includeUser && !s.anonimo
  }

  /** The name of the category with id `id` (`self.categoria.nome`, and the
      inner join on categoria_id), or None when the row is missing. */
  function CategoriaNome(categorias: seq<Categoria>, id: int): (r: Option<string>)
    ensures r.None? <==> forall i :: 0 <= i < |categorias| ==> categorias[i].id != id
    ensures r.Some? ==> exists i :: 0 <= i < |categorias| && categorias[i].id == id
                                     && categorias[i].nome == r.value
  {
    match IndexOf(categorias, (c: Categoria) => c.id == id)
    case None => None
    case Some(i) => Some(categorias[i].nome)
  }

  /** The name of the neighbourhood a request points at, or None when it
      points at none or at a missing row. */
  function BairroNome(bairros: seq<Bairro>, id: Option<nat>): (r: Option<string>)
    ensures r.None? <==> id.None? || forall i :: 0 <= i < |bairros| ==> bairros[i].id != id.value
    ensures r.Some? ==> exists i :: 0 <= i < |bairros| && bairros[i].id == id.value
                                     && bairros[i].nome == r.value
  {
    if id.None? then None
    else match IndexOf(bairros, (b: Bairro) => b.id == id.value)
      case None => None
      case Some(i) => Some(bairros[i].nome)
  }

  /** The name of the assigned councilmember, or None when there is none
      or the row is missing. */
  function VereadorNome(vereadores: seq<Vereador>, id: Option<int>): (r: Option<string>)
    ensures r.None? <==> id.None? || forall i :: 0 <= i < |vereadores| ==> vereadores[i].id != id.value
    ensures r.Some? ==> exists i :: 0 <= i < |vereadores| && vereadores[i].id == id.value
                                     && vereadores[i].nome == r.value
  {
    if id.None? then None
    else match IndexOf(vereadores, (v: Vereador) => v.id == id.value)
      case None => None
      case Some(i) => Some(vereadores[i].nome)
  }

  function SolicitacaoToDict(s: Solicitacao, categorias: seq<Categoria>, bairros: seq<Bairro>,
                             vereadores: seq<Vereador>, users: seq<User>, includeUser: bool)
    : (v: SolicitacaoView)
    requires OwnerNeeded(s, includeUser) ==> FindUser(users, s.userId).Some?
    ensures v.usuario.Some? <==> OwnerNeeded(s, includeUser)
    ensures v.usuario.Some? ==> v.usuario.value.id == s.userId
    ensures v.fotos == (if s.fotos.Some? then s.fotos.value else [])
    ensures v.id == s.id && v.status == s.status && v.vereadorId == s.vereadorId
         && v.tempoResolucao == s.tempoResolucao && v.anonimo == s.anonimo
    ensures v.createdAt == s.createdAt && v.updatedAt == s.updatedAt
    ensures v.titulo == s.titulo && v.descricao == s.descricao && v.endereco == s.endereco && v.cep == s.cep
    ensures v.categoriaId == s.categoriaId && v.bairroId == s.bairroId
         && v.latitude == s.latitude && v.longitude == s.longitude
    ensures v.categoria == CategoriaNome(categorias, s.categoriaId)
         && v.bairro == BairroNome(bairros, s.bairroId)
         && v.vereadorNome == VereadorNome(vereadores, s.vereadorId)
    ensures v.usuario.Some? ==> v.usuario.value == UserToDict(FindUser(users, s.userId).value)
  {
    var usuario := if OwnerNeeded(s, includeUser) then Some(UserToDict(FindUser(users, s.userId).value)) else None;
    SolicitacaoView(
      s.id, s.titulo, CategoriaNome(categorias, s.categoriaId), s.categoriaId, s.descricao,
      s.endereco, BairroNome(bairros, s.bairroId), s.bairroId, s.cep,
      s.latitude, s.longitude, if s.fotos.Some? then s.fotos.value else [], s.status,
      s.anonimo, s.vereadorId, VereadorNome(vereadores, s.vereadorId), s.createdAt,
      s.updatedAt, s.tempoResolucao, usuario)
  }

  // ------------------------------------------------------------- the database

  /** The SQLite database: one sequence per table and the next value of each
      autoincrement key the routes use. */
  function UserIdOf(u: User): int { u.id }
  function UserEmailOf(u: User): string { u.email }
  function VereadorIdOf(v: Vereador): int { v.id }
  function CategoriaIdOf(c: Categoria): int { c.id }
  function CategoriaNomeOf(c: Categoria): string { c.nome }
  function BairroIdOf(b: Bairro): int { b.id }
  function BairroNomeOf(b: Bairro): string { b.nome }
  function SolicitacaoIdOf(s: Solicitacao): int { s.id }

  class Database {
    var users: seq<User>
    var vereadores: seq<Vereador>
    var categorias: seq<Categoria>
    var bairros: seq<Bairro>
    var solicitacoes: seq<Solicitacao>
    var nextUserId: nat
    var nextBairroId: nat
    var nextSolicitacaoId: nat

    /** Primary keys are unique and below their counters; the UNIQUE
        columns (users.email, bairros.nome, categorias.nome) hold. */
    ghost predicate Valid()
      reads this
    {
      && BelowBy(users, UserIdOf, nextUserId) && UniqueBy(users, UserIdOf) && UniqueBy(users, UserEmailOf)
      && UniqueBy(vereadores, VereadorIdOf)
      && UniqueBy(categorias, CategoriaIdOf) && UniqueBy(categorias, CategoriaNomeOf)
      && BelowBy(bairros, BairroIdOf, nextBairroId) && UniqueBy(bairros, BairroIdOf)
      && UniqueBy(bairros, BairroNomeOf)
      && BelowBy(solicitacoes, SolicitacaoIdOf, nextSolicitacaoId) && UniqueBy(solicitacoes, SolicitacaoIdOf)
    }

    /** A fresh database holding the seeded reference tables and no
        accounts, neighbourhoods or requests. */
    constructor (vereadores: seq<Vereador>, categorias: seq<Categoria>)
      requires UniqueBy(vereadores, VereadorIdOf)
      requires UniqueBy(categorias, CategoriaIdOf) && UniqueBy(categorias, CategoriaNomeOf)
      ensures Valid()
      ensures this.vereadores == vereadores && this.categorias == categorias
      ensures users == [] && bairros == [] && solicitacoes == []
    {
      this.users := [];
      this.vereadores := vereadores;
      this.categorias := categorias;
      this.bairros := [];
      this.solicitacoes := [];
      this.nextUserId := 1;
      this.nextBairroId := 1;
      this.nextSolicitacaoId := 1;
    }

    /** `db.session.add(u); db.session.commit()` for a new account: the id
        comes from the counter. */
    method AddUser(u: User)
      requires Valid() && u.id == nextUserId
      requires forall i :: 0 <= i < |users| ==> users[i].email != u.email
      modifies this
      ensures Valid()
      ensures users == old(users) + [u] && nextUserId == old(nextUserId) + 1
      ensures vereadores == old(vereadores) && categorias == old(categorias)
      ensures bairros == old(bairros) && nextBairroId == old(nextBairroId)
      ensures solicitacoes == old(solicitacoes) && nextSolicitacaoId == old(nextSolicitacaoId)
    {
      AppendFresh(users, u, UserIdOf, nextUserId);
      AppendUnique(users, u, UserEmailOf);
      users := users + [u];
      nextUserId := nextUserId + 1;
    }

    /** Adds a neighbourhood under a new name with the next id. */
    method AddBairro(b: Bairro)
      requires Valid() && b.id == nextBairroId
      requires forall i :: 0 <= i < |bairros| ==> bairros[i].nome != b.nome
      modifies this
      ensures Valid()
      ensures bairros == old(bairros) + [b] && nextBairroId == old(nextBairroId) + 1
      ensures users == old(users) && nextUserId == old(nextUserId)
      ensures vereadores == old(vereadores) && categorias == old(categorias)
      ensures solicitacoes == old(solicitacoes) && nextSolicitacaoId == old(nextSolicitacaoId)
    {
      AppendFresh(bairros, b, BairroIdOf, nextBairroId);
      AppendUnique(bairros, b, BairroNomeOf);
      bairros := bairros + [b];
      nextBairroId := nextBairroId + 1;
    }

    /** Adds a request with the next id. */
    method AddSolicitacao(s: Solicitacao)
      requires Valid() && s.id == nextSolicitacaoId
      modifies this
      ensures Valid()
      ensures solicitacoes == old(solicitacoes) + [s] && nextSolicitacaoId == old(nextSolicitacaoId) + 1
      ensures users == old(users) && nextUserId == old(nextUserId)
      ensures vereadores == old(vereadores) && categorias == old(categorias)
      ensures bairros == old(bairros) && nextBairroId == old(nextBairroId)
    {
      AppendFresh(solicitacoes, s, SolicitacaoIdOf, nextSolicitacaoId);
      solicitacoes := solicitacoes + [s];
      nextSolicitacaoId := nextSolicitacaoId + 1;
    }

    /** Writes back the row at `k` after an update that keeps its id. */
    method ReplaceSolicitacao(k: nat, s: Solicitacao)
      requires Valid() && k < |solicitacoes| && s.id == solicitacoes[k].id
      modifies this
      ensures Valid()
      ensures solicitacoes == old(solicitacoes)[k := s]
      ensures users == old(users) && nextUserId == old(nextUserId)
      ensures vereadores == old(vereadores) && categorias == old(categorias)
      ensures bairros == old(bairros) && nextBairroId == old(nextBairroId)
      ensures nextSolicitacaoId == old(nextSolicitacaoId)
    {
      ReplaceSameKey(solicitacoes, k, s, SolicitacaoIdOf, nextSolicitacaoId);
      solicitacoes := solicitacoes[k := s];
    }
  }
}
