/** The councilmember routes of backend/vereador_routes.py: the ranking,
    one councilmember, the requests assigned to one, and the global
    statistics over every assigned request. */
module VereadorRoutes {
  import opened Common
  import opened Sorting
  import opened Models
  import opened SolicitacaoRoutes

  const VEREADOR_NOT_FOUND: string := "Vereador not found"

  // ------------------------------------------------------ GET /api/vereadores

  /** Every councilmember's dictionary with statistics, in table order. */
  function VereadorDicts(vs: seq<Vereador>, categorias: seq<Categoria>, sols: seq<Solicitacao>)
    : (r: seq<VereadorView>)
    ensures |r| == |vs|
    ensures forall i :: 0 <= i < |vs| ==> r[i] == VereadorToDict(vs[i], categorias, sols, true)
  {
    if vs == [] then []
    else [VereadorToDict(vs[0], categorias, sols, true)] + VereadorDicts(vs[1..], categorias, sols)
  }

  /** Selects the entries ranked with resolution rate `k`. */
  function RateIs(k: int): VereadorView -> bool
  {
    (v: VereadorView) => RankKey(v) == k
  }

  /** A ranking entry carries statistics and areas, and a rate in [0, 100]. */
  predicate Ranked(v: VereadorView)
  {
    v.stats.Some? && v.principaisAreas.Some? && 0 <= RankKey(v) <= 100
  }

  /** Every dictionary built with statistics is a well-formed ranking entry. */
  lemma DictsRanked(vs: seq<Vereador>, categorias: seq<Categoria>, sols: seq<Solicitacao>)
    ensures forall i :: 0 <= i < |vs| ==> Ranked(VereadorDicts(vs, categorias, sols)[i])
  {
    var data := VereadorDicts(vs, categorias, sols);
    forall i | 0 <= i < |vs| ensures Ranked(data[i]) {
      assert data[i] == VereadorToDict(vs[i], categorias, sols, true);
    }
  }

  /** The ranking: every councilmember once, with statistics, by
      non-increasing resolution rate; councilmembers with equal rates keep
      their table order (Python's sort is stable).  The `ranking` parameter
      is read and ignored, so it does not appear in the contract. */
  method GetVereadores(db: Database, ranking: string) returns (rows: seq<VereadorView>, total: nat)
    ensures total == |rows| == |db.vereadores|
    ensures multiset(rows) == multiset(VereadorDicts(db.vereadores, db.categorias, db.solicitacoes))
    ensures SortedDesc(rows, RankKey)
    ensures forall k :: Where(rows, RateIs(k))
                        == Where(VereadorDicts(db.vereadores, db.categorias, db.solicitacoes), RateIs(k))
    ensures forall i :: 0 <= i < |rows| ==> Ranked(rows[i])
  {
    var vereadores, categorias, sols := db.vereadores, db.categorias, db.solicitacoes;
    ghost var all := VereadorDicts(vereadores, categorias, sols);
    var data: seq<VereadorView> := [];
    var i := 0;
    while i < |vereadores|
      invariant 0 <= i <= |vereadores|
      invariant data == all[..i]
    {
      var entry := VereadorToDict(vereadores[i], categorias, sols, true);
      assert entry == all[i];
      PrefixSnoc(all, i);
      data := data + [entry];
      i := i + 1;
    }
    assert data == all;
    rows := SortDesc(data, RankKey);
    assert forall k :: Where(rows, RateIs(k)) == Where(data, RateIs(k)) by {
      forall k ensures Where(rows, RateIs(k)) == Where(data, RateIs(k)) {
        SortDescStable(data, RankKey, k, RateIs(k));
      }
    }
    assert forall i :: 0 <= i < |rows| ==> Ranked(rows[i]) by {
      DictsRanked(vereadores, categorias, sols);
      SameElements(rows, data, Ranked);
    }
    total := |rows|;
  }

  // ------------------------------------------------- GET /api/vereadores/<id>

  method GetVereador(db: Database, id: int) returns (r: Reply<VereadorView>)
    ensures r.Fail? <==> forall i :: 0 <= i < |db.vereadores| ==> db.vereadores[i].id != id
    ensures r.Fail? ==> r == Fail(404, VEREADOR_NOT_FOUND)
    ensures r.Ok? ==> r.code == 200 && r.value.id == id && r.value.stats.Some?
                      && exists i :: 0 <= i < |db.vereadores| && db.vereadores[i].id == id
                           && r.value == VereadorToDict(db.vereadores[i], db.categorias, db.solicitacoes, true)
  {
    var found := IndexOf(db.vereadores, (v: Vereador) => v.id == id);
    if found.None? {
      return Fail(404, VEREADOR_NOT_FOUND);
    }
    var v := db.vereadores[found.value];
    return Ok(200, VereadorToDict(v, db.categorias, db.solicitacoes, true));
  }

  // --------------------------------------- GET /api/vereadores/<id>/solicitacoes

  /** `filter_by(vereador_id=id)`, then `filter_by(status=status)` when a
      status is given. */
  function InVereadorList(id: int, status: string): Solicitacao -> bool
  {
    (s: Solicitacao) => s.vereadorId == Some(id) && (status != "" ==> s.status == status)
  }

  /** The two chained filters select what the single predicate selects. */
  lemma VereadorListChained(sols: seq<Solicitacao>, id: int, status: string)
    ensures Where(Where(sols, (s: Solicitacao) => s.vereadorId == Some(id)),
                  (s: Solicitacao) => status != "" ==> s.status == status)
            == Where(sols, InVereadorList(id, status))
  {
    WhereWhere(sols, (s: Solicitacao) => s.vereadorId == Some(id),
               (s: Solicitacao) => status != "" ==> s.status == status, InVereadorList(id, status));
  }

  /** `[sol.to_dict() for sol in rows]` (without the owner). */
  function ToDicts(rows: seq<Solicitacao>, categorias: seq<Categoria>, bairros: seq<Bairro>,
                   vereadores: seq<Vereador>): (r: seq<SolicitacaoView>)
    ensures |r| == |rows|
    ensures forall i :: 0 <= i < |rows| ==>
              r[i] == SolicitacaoToDict(rows[i], categorias, bairros, vereadores, [], false)
    ensures forall i :: 0 <= i < |rows| ==>
              r[i].id == rows[i].id && r[i].vereadorId == rows[i].vereadorId
              && r[i].status == rows[i].status && r[i].createdAt == rows[i].createdAt
  {
    if rows == [] then []
    else [SolicitacaoToDict(rows[0], categorias, bairros, vereadores, [], false)]
         + ToDicts(rows[1..], categorias, bairros, vereadores)
  }

  function ViewCreatedAtOf(v: SolicitacaoView): int { v.createdAt }
  function ViewIdOf(v: SolicitacaoView): int { v.id }

  datatype SolicitacaoList = SolicitacaoList(solicitacoes: seq<SolicitacaoView>, total: nat)

  /** The requests assigned to councilmember `id` (with status `status`
      when it is non-empty), newest first, as dictionaries. */
  function VereadorListing(sols: seq<Solicitacao>, categorias: seq<Categoria>, bairros: seq<Bairro>,
                           vereadores: seq<Vereador>, id: int, status: string): (views: seq<SolicitacaoView>)
    ensures |views| == Count(sols, InVereadorList(id, status))
    ensures forall i :: 0 <= i < |views| ==>
              views[i].vereadorId == Some(id) && (status != "" ==> views[i].status == status)
    ensures SortedDesc(views, ViewCreatedAtOf)
    ensures forall j :: 0 <= j < |sols| && InVereadorList(id, status)(sols[j])
              ==> exists i :: 0 <= i < |views| && views[i].id == sols[j].id
  {
    var rows := SortedWhere(sols, InVereadorList(id, status), CreatedAtOf);
    var views := ToDicts(rows, categorias, bairros, vereadores);
    assert forall i :: 0 <= i < |views| ==>
             views[i].vereadorId == Some(id) && (status != "" ==> views[i].status == status) by {
      forall i | 0 <= i < |views|
        ensures views[i].vereadorId == Some(id) && (status != "" ==> views[i].status == status)
      {
        assert InVereadorList(id, status)(rows[i]);
      }
    }
    assert SortedDesc(views, ViewCreatedAtOf) by {
      SortedMapped(rows, CreatedAtOf, views, ViewCreatedAtOf);
    }
    assert forall j :: 0 <= j < |sols| && InVereadorList(id, status)(sols[j])
             ==> exists i :: 0 <= i < |views| && views[i].id == sols[j].id by {
      KeptAfterReorder(sols, InVereadorList(id, status), rows, SolicitacaoIdOf, views, ViewIdOf);
    }
    views
  }

  /** Each dictionary in the listing is `to_dict()` of a request the listing selects. */
  lemma VereadorListingViews(sols: seq<Solicitacao>, categorias: seq<Categoria>, bairros: seq<Bairro>,
                             vereadores: seq<Vereador>, id: int, status: string)
    ensures forall i :: 0 <= i < |VereadorListing(sols, categorias, bairros, vereadores, id, status)| ==>
              exists j :: 0 <= j < |sols| && InVereadorList(id, status)(sols[j])
                          && VereadorListing(sols, categorias, bairros, vereadores, id, status)[i]
                             == SolicitacaoToDict(sols[j], categorias, bairros, vereadores, [], false)
  {
    var rows := SortedWhere(sols, InVereadorList(id, status), CreatedAtOf);
    var views := ToDicts(rows, categorias, bairros, vereadores);
    assert views == VereadorListing(sols, categorias, bairros, vereadores, id, status);
    ImagesFromSelection(sols, InVereadorList(id, status), rows, views,
                        (r: Solicitacao) => SolicitacaoToDict(r, categorias, bairros, vereadores, [], false));
  }


  /** 404 for an unknown councilmember, otherwise the listing and its length. */
  method GetVereadorSolicitacoes(db: Database, id: int, status: string) returns (r: Reply<SolicitacaoList>)
    ensures r.Fail? <==> forall i :: 0 <= i < |db.vereadores| ==> db.vereadores[i].id != id
    ensures r.Fail? ==> r == Fail(404, VEREADOR_NOT_FOUND)
    ensures r.Ok? ==> r.code == 200 && r.value.total == |r.value.solicitacoes|
    ensures r.Ok? ==> r.value.solicitacoes
                      == VereadorListing(db.solicitacoes, db.categorias, db.bairros, db.vereadores, id, status)
  {
    var found := IndexOf(db.vereadores, (v: Vereador) => v.id == id);
    if found.None? {
      return Fail(404, VEREADOR_NOT_FOUND);
    }
    var views := VereadorListing(db.solicitacoes, db.categorias, db.bairros, db.vereadores, id, status);
    return Ok(200, SolicitacaoList(views, |views|));
  }

  // ------------------------------------------------ GET /api/vereadores/stats

  /** Assigned to some councilmember (`vereador_id IS NOT NULL`). */
  predicate AssignedAny(s: Solicitacao)
  {
    s.vereadorId.Some?
  }

  /** Assigned, with status `status`. */
  function AssignedWithStatus(status: string): Solicitacao -> bool
  {
    (s: Solicitacao) => s.status == status && s.vereadorId.Some?
  }

  /** Resolved, with a non-NULL resolution time (0 included), and assigned. */
  predicate InGlobalMean(s: Solicitacao)
  {
    s.status == RESOLVIDA && s.tempoResolucao.Some? && s.vereadorId.Some?
  }

  function OwnerOf(s: Solicitacao): int { s.userId }

  /** The citizens served: the distinct owners of the assigned requests,
      read off the table index by index. */
  function CitizensServed(sols: seq<Solicitacao>): set<int>
  {
    set i | 0 <= i < |sols| && sols[i].vereadorId.Some? :: sols[i].userId
  }


  datatype StatusBreakdown = StatusBreakdown(aberta: nat, emAndamento: nat, resolvida: nat)

  datatype GlobalStats = GlobalStats(
    totalSolicitacoes: nat, solicitacoesResolvidas: nat, tempoMedioDecimos: int,
    taxaResolucao: int, cidadaosAtendidos: nat, statusBreakdown: StatusBreakdown)

  /** The totals over every assigned request: counts by status, the mean
      resolution time in tenths of a day, the resolution rate and the number
      of distinct citizens served. */
  function GetVereadoresStats(sols: seq<Solicitacao>): (st: GlobalStats)
    ensures st.totalSolicitacoes == Count(sols, AssignedAny)
    ensures st.statusBreakdown.aberta + st.statusBreakdown.emAndamento + st.statusBreakdown.resolvida
            <= st.totalSolicitacoes
    ensures st.solicitacoesResolvidas == Count(sols, AssignedWithStatus(RESOLVIDA))
    ensures st.statusBreakdown == StatusBreakdown(Count(sols, AssignedWithStatus(ABERTA)),
                                                  Count(sols, AssignedWithStatus(EM_ANDAMENTO)),
                                                  st.solicitacoesResolvidas)
    ensures st.taxaResolucao == TaxaResolucao(st.solicitacoesResolvidas, st.totalSolicitacoes)
    ensures st.cidadaosAtendidos == |CitizensServed(sols)|
    ensures st.cidadaosAtendidos <= st.totalSolicitacoes
    ensures st.cidadaosAtendidos > 0 <==> st.totalSolicitacoes > 0
    ensures 0 <= st.taxaResolucao <= 100
    ensures st.totalSolicitacoes == 0 ==> st.taxaResolucao == 0 && st.tempoMedioDecimos == 0
  {
    var total := Count(sols, AssignedAny);
    var resolvidas := Count(sols, AssignedWithStatus(RESOLVIDA));
    var abertas := Count(sols, AssignedWithStatus(ABERTA));
    var emAndamento := Count(sols, AssignedWithStatus(EM_ANDAMENTO));
    var comTempo := Where(sols, InGlobalMean);
    var engajados := Image(Where(sols, AssignedAny), OwnerOf);
    assert abertas + emAndamento + resolvidas <= total by {
      assert ABERTA[0] != EM_ANDAMENTO[0] && ABERTA[0] != RESOLVIDA[0] && EM_ANDAMENTO[0] != RESOLVIDA[0];
      CountDisjoint3(sols, AssignedWithStatus(ABERTA), AssignedWithStatus(EM_ANDAMENTO),
                     AssignedWithStatus(RESOLVIDA), AssignedAny);
    }
    assert |engajados| <= total && (total > 0 <==> |engajados| > 0) by {
      ImageBound(Where(sols, AssignedAny), OwnerOf);
    }
    assert engajados == CitizensServed(sols) by {
      ImageWhere(sols, AssignedAny, OwnerOf);
    }
    assert total == 0 ==> comTempo == [] by {
      CountMonotone(sols, InGlobalMean, AssignedAny);
    }
    GlobalStats(total, resolvidas, MeanTempoTenths(comTempo), TaxaResolucao(resolvidas, total),
                |engajados|, StatusBreakdown(abertas, emAndamento, resolvidas))
  }

  /** The global mean covers every assigned, resolved request with a
      resolution time, and lies between the smallest and the largest. */
  lemma GlobalMeanWithin(sols: seq<Solicitacao>, lo: int, hi: int)
    requires forall i :: 0 <= i < |sols| && InGlobalMean(sols[i]) ==> lo <= TempoOf(sols[i]) <= hi
    ensures (forall i :: 0 <= i < |sols| ==> !InGlobalMean(sols[i]))
            ==> GetVereadoresStats(sols).tempoMedioDecimos == 0
    ensures (exists i :: 0 <= i < |sols| && InGlobalMean(sols[i]))
            ==> 10 * lo <= GetVereadoresStats(sols).tempoMedioDecimos <= 10 * hi
    ensures Where(sols, InGlobalMean) != []
            ==> RoundedMeanTenths(Where(sols, InGlobalMean), GetVereadoresStats(sols).tempoMedioDecimos)
  {
    var comTempo := Where(sols, InGlobalMean);
    assert GetVereadoresStats(sols).tempoMedioDecimos == MeanTempoTenths(comTempo);
    WhereNonEmpty(sols, InGlobalMean);
    if comTempo != [] {
      WhereBounded(sols, InGlobalMean, TempoOf, lo, hi);
      MeanTempoWithin(comTempo, lo, hi);
    }
  }

  /** Filtering a two-element sequence. */
  lemma WherePair<T>(x: T, y: T, p: T -> bool)
    ensures Where([x, y], p) == (if p(x) then [x] else []) + (if p(y) then [y] else [])
  {
    assert [x, y][1..] == [y];
    assert [y][1..] == [];
  }

  lemma GlobalMeanIs(sols: seq<Solicitacao>)
    ensures GetVereadoresStats(sols).tempoMedioDecimos == MeanTempoTenths(Where(sols, InGlobalMean))
  {
  }

  lemma StatsMeanIs(sols: seq<Solicitacao>, vid: int)
    ensures CalculateStats(sols, vid).tempoMedioDecimos == MeanTempoTenths(Where(Assigned(sols, vid), HasTruthyTempo))
  {
  }

  /** The global mean counts a resolution time of 0 while the per-councilmember
      mean skips it: for one request resolved in 0 days and one in `d` days,
      the global mean is d/2 and the councilmember's own mean is d. */
  lemma GlobalMeanCountsZeroTimes(a: Solicitacao, b: Solicitacao, vid: int, d: int)
    requires a.status == RESOLVIDA && a.vereadorId == Some(vid) && a.tempoResolucao == Some(0)
    requires b.status == RESOLVIDA && b.vereadorId == Some(vid) && b.tempoResolucao == Some(d) && d != 0
    ensures GetVereadoresStats([a, b]).tempoMedioDecimos == 5 * d
    ensures CalculateStats([a, b], vid).tempoMedioDecimos == 10 * d
  {
    GlobalMeanOfPair(a, b, d);
    StatsMeanOfPair(a, b, vid, d);
  }

  lemma GlobalMeanOfPair(a: Solicitacao, b: Solicitacao, d: int)
    requires InGlobalMean(a) && a.tempoResolucao == Some(0)
    requires InGlobalMean(b) && b.tempoResolucao == Some(d)
    ensures GetVereadoresStats([a, b]).tempoMedioDecimos == 5 * d
  {
    var sols := [a, b];
    GlobalMeanIs(sols);
    WherePair(a, b, InGlobalMean);
    assert sols[1..] == [b] && [b][1..] == [];
    assert SumTempo([b]) == d;
    assert SumTempo(sols) == d;
  }

  lemma StatsMeanOfPair(a: Solicitacao, b: Solicitacao, vid: int, d: int)
    requires AssignedTo(vid)(a) && !HasTruthyTempo(a)
    requires AssignedTo(vid)(b) && HasTruthyTempo(b) && b.tempoResolucao == Some(d)
    ensures CalculateStats([a, b], vid).tempoMedioDecimos == 10 * d
  {
    var sols := [a, b];
    StatsMeanIs(sols, vid);
    WherePair(a, b, AssignedTo(vid));
    assert Assigned(sols, vid) == sols;
    WherePair(a, b, HasTruthyTempo);
    assert Where(sols, HasTruthyTempo) == [b];
    assert [b][1..] == [];
    assert SumTempo([b]) == d;
  }
}
