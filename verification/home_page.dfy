/** The home page (`/`): what it loads when it opens and the sample data it
    falls back to when the backend cannot be reached, the search filters,
    and the status badges of the request list. */
module Home {
  import opened Common
  import opened BrowserStorage
  import opened Api
  import Models
  import CidadaoDashboard
  import VereadorRoutes

  const LABEL_ABERTA: string := "Aberta"
  const LABEL_EM_ANDAMENTO: string := "Em Andamento"
  const LABEL_RESOLVIDA: string := "Resolvida"
  const COLOR_ABERTA: string := "border-destructive text-destructive bg-destructive/10"
  const COLOR_EM_ANDAMENTO: string := "border-chart-4 text-chart-4 bg-chart-4/10"
  const COLOR_RESOLVIDA: string := "border-green-600 text-green-600 bg-green-50 dark:bg-green-950/30"
  const COLOR_OTHER: string := "border-muted-foreground text-muted-foreground bg-muted"
  /** The "any category" and "any neighbourhood" choices of the search. */
  const ALL_CATEGORIAS: string := "Todas"
  const ALL_BAIRROS: string := "Todos"
  const SEARCH_FAILED: string := "Erro ao buscar solicitações. Verifique se o backend está rodando."

  /** `getStatusLabel`: the label of each known status; any other status
      is shown as it is. */
  function StatusLabel(status: string): (r: string)
    ensures status == Models.ABERTA ==> r == LABEL_ABERTA
    ensures status == Models.EM_ANDAMENTO ==> r == LABEL_EM_ANDAMENTO
    ensures status == Models.RESOLVIDA ==> r == LABEL_RESOLVIDA
    ensures !CidadaoDashboard.KnownStatus(status) ==> r == status
  {
    if status == Models.ABERTA then LABEL_ABERTA
    else if status == Models.EM_ANDAMENTO then LABEL_EM_ANDAMENTO
    else if status == Models.RESOLVIDA then LABEL_RESOLVIDA
    else status
  }

  /** The home page and the citizen dashboard label the three known
      statuses alike; an unknown status is shown as it is here and as
      "Aberta" there. */
  lemma LabelsAgreeOnKnownStatuses(status: string)
    ensures CidadaoDashboard.KnownStatus(status) ==> StatusLabel(status) == CidadaoDashboard.StatusLabel(status)
    ensures !CidadaoDashboard.KnownStatus(status)
            ==> StatusLabel(status) == status && CidadaoDashboard.StatusLabel(status) == LABEL_ABERTA
  {
  }

  /** `getStatusColor`: one class list per known status and a muted one for
      anything else. */
  function StatusColor(status: string): (r: string)
    ensures status == Models.ABERTA ==> r == COLOR_ABERTA
    ensures status == Models.EM_ANDAMENTO ==> r == COLOR_EM_ANDAMENTO
    ensures status == Models.RESOLVIDA ==> r == COLOR_RESOLVIDA
    ensures !CidadaoDashboard.KnownStatus(status) ==> r == COLOR_OTHER
  {
    if status == Models.ABERTA then COLOR_ABERTA
    else if status == Models.EM_ANDAMENTO then COLOR_EM_ANDAMENTO
    else if status == Models.RESOLVIDA then COLOR_RESOLVIDA
    else COLOR_OTHER
  }

  /** The badge colour tells the statuses apart: two statuses share a
      colour only when both are unknown or they are the same. */
  lemma ColorsDistinct(s: string, t: string)
    requires StatusColor(s) == StatusColor(t)
    ensures s == t || (!CidadaoDashboard.KnownStatus(s) && !CidadaoDashboard.KnownStatus(t))
  {
    assert |COLOR_ABERTA| == 53 && |COLOR_EM_ANDAMENTO| == 41;
    assert |COLOR_RESOLVIDA| == 64 && |COLOR_OTHER| == 54;
  }

  /** The message after a search: the number found, or the failure text. */
  function SearchAlert(result: Outcome<nat>): (m: string)
    ensures result.Threw? ==> m == SEARCH_FAILED
    ensures result.Returned? ==> m == "Encontradas " + NumberText(result.value) + " solicitações"
  {
    if result.Threw? then SEARCH_FAILED
    else "Encontradas " + NumberText(result.value) + " solicitações"
  }

  /** `handleSearch`'s filters, built up one by one: the search text when
      there is one, the category and the neighbourhood when one was picked
      other than "Todas" or "Todos". The query therefore never asks for the
      "any" choices. */
  method SearchFilters(searchTerm: string, category: string, neighborhood: string) returns (f: Filters)
    ensures FilterValue(f, SearchKey) == if searchTerm != "" then Some(searchTerm) else None
    ensures FilterValue(f, CategoriaKey) == if category != "" && category != ALL_CATEGORIAS then Some(category) else None
    ensures FilterValue(f, BairroKey) == if neighborhood != "" && neighborhood != ALL_BAIRROS then Some(neighborhood) else None
    ensures FilterValue(f, StatusKey) == None && FilterValue(f, VereadorIdKey) == None
    ensures (CategoriaKey, ALL_CATEGORIAS) !in Selected(f, ALL_KEYS)
    ensures (BairroKey, ALL_BAIRROS) !in Selected(f, ALL_KEYS)
  {
    f := NO_FILTERS;
    if searchTerm != "" {
      f := f.(search := Some(searchTerm));
    }
    if category != "" && category != ALL_CATEGORIAS {
      f := f.(categoria := Some(category));
    }
    if neighborhood != "" && neighborhood != ALL_BAIRROS {
      f := f.(bairro := Some(neighborhood));
    }
    QueryInOrder(f);
  }

  /** The figures of the statistics call, None where a member is missing
      or null; the mean resolution time is in tenths of a day. */
  datatype StatsReply = StatsReply(totalSolicitacoes: Option<int>, cidadaosAtendidos: Option<int>,
                                   tempoMedioResolucao: Option<int>, taxaResolucao: Option<int>)

  /** The figures the page shows. */
  datatype HomeStats = HomeStats(totalSolicitacoes: int, cidadaosAtendidos: int,
                                 tempoMedioResolucao: int, taxaResolucao: int)

  /** Everything the five calls of the mount effect return together. */
  datatype HomeData = HomeData(categorias: seq<Categoria>, bairros: seq<Bairro>, recent: seq<Solicitacao>,
                               stats: StatsReply, all: Option<seq<Solicitacao>>)

  /** `x || 0`: a missing figure shows as 0. */
  function OrZero(x: Option<int>): (r: int)
    ensures x.Some? ==> r == x.value
    ensures x.None? ==> r == 0
  {
    if x.Some? then x.value else 0
  }

  /** The figures shown after a successful load. */
  function ShownStats(reply: StatsReply): (s: HomeStats)
    ensures s.totalSolicitacoes == OrZero(reply.totalSolicitacoes)
    ensures s.cidadaosAtendidos == OrZero(reply.cidadaosAtendidos)
    ensures s.tempoMedioResolucao == OrZero(reply.tempoMedioResolucao)
    ensures s.taxaResolucao == OrZero(reply.taxaResolucao)
  {
    HomeStats(OrZero(reply.totalSolicitacoes), OrZero(reply.cidadaosAtendidos),
              OrZero(reply.tempoMedioResolucao), OrZero(reply.taxaResolucao))
  }

  /** The statistics reply as the backend's stats route writes it: every
      member present. */
  function ReplyOf(g: VereadorRoutes.GlobalStats): (r: StatsReply)
    ensures r.totalSolicitacoes == Some(g.totalSolicitacoes as int) && r.taxaResolucao == Some(g.taxaResolucao)
    ensures r.cidadaosAtendidos == Some(g.cidadaosAtendidos as int) && r.tempoMedioResolucao == Some(g.tempoMedioDecimos)
  {
    StatsReply(Some(g.totalSolicitacoes), Some(g.cidadaosAtendidos), Some(g.tempoMedioDecimos), Some(g.taxaResolucao))
  }

  /** Over the backend's own figures the page shows them unchanged; in
      particular the rate it shows lies between 0 and 100 and the number
      of citizens served never exceeds the total. */
  lemma ShownBackendFigures(sols: seq<Models.Solicitacao>)
    ensures ShownStats(ReplyOf(VereadorRoutes.GetVereadoresStats(sols)))
            == HomeStats(VereadorRoutes.GetVereadoresStats(sols).totalSolicitacoes,
                         VereadorRoutes.GetVereadoresStats(sols).cidadaosAtendidos,
                         VereadorRoutes.GetVereadoresStats(sols).tempoMedioDecimos,
                         VereadorRoutes.GetVereadoresStats(sols).taxaResolucao)
    ensures 0 <= ShownStats(ReplyOf(VereadorRoutes.GetVereadoresStats(sols))).taxaResolucao <= 100
    ensures 0 <= ShownStats(ReplyOf(VereadorRoutes.GetVereadoresStats(sols))).cidadaosAtendidos
              <= ShownStats(ReplyOf(VereadorRoutes.GetVereadoresStats(sols))).totalSolicitacoes
  {
  }

  const MOCK_CATEGORIAS: seq<Categoria> := [
    Categoria(1, "Pavimentação", None), Categoria(2, "Iluminação", None), Categoria(3, "Saúde", None),
    Categoria(4, "Educação", None), Categoria(5, "Saneamento", None), Categoria(6, "Segurança", None)]

  const MOCK_BAIRROS: seq<Bairro> := [
    Bairro(1, "Centro"), Bairro(2, "Jardim América"), Bairro(3, "Vila Nova"), Bairro(4, "Bela Vista")]

  /** The two sample requests; their `created_at` holds a count of
      supporters rather than a date. */
  const MOCK_REQUESTS: seq<Solicitacao> := [
    Solicitacao(1, "Buraco na Rua das Flores", "Pavimentação", 1,
                "Grande buraco na via principal causando acidentes", "Rua das Flores, 123", "Centro", 1,
                None, [], Models.ABERTA, false, None, Some("Carlos Lima"), "23 apoios", "", None),
    Solicitacao(2, "Iluminação deficiente na Praça Central", "Iluminação", 2,
                "Várias lâmpadas queimadas comprometem a segurança", "Praça Central", "Centro", 1,
                None, [], Models.EM_ANDAMENTO, false, None, Some("Carlos Lima"), "45 apoios", "", None)]

  /** The figures shown without a backend: the number of samples, and 0
      for the rest. */
  const FALLBACK_STATS: HomeStats := HomeStats(|MOCK_REQUESTS|, 0, 0, 0)

  /** The sample data: six categories, four neighbourhoods, two requests
      with different ids and known statuses, and a total of 2. */
  lemma FallbackData()
    ensures |MOCK_CATEGORIAS| == 6 && |MOCK_BAIRROS| == 4 && |MOCK_REQUESTS| == 2
    ensures FALLBACK_STATS == HomeStats(2, 0, 0, 0)
    ensures MOCK_REQUESTS[0].id != MOCK_REQUESTS[1].id
    ensures forall i :: 0 <= i < |MOCK_REQUESTS| ==> CidadaoDashboard.KnownStatus(MOCK_REQUESTS[i].status)
  {
  }

  /** The page's state. `backendConnected` is None until the load ends. */
  class HomePage {
    var categorias: seq<Categoria>
    var bairros: seq<Bairro>
    var recent: seq<Solicitacao>
    var all: seq<Solicitacao>
    var stats: HomeStats
    var backendConnected: Option<bool>
    var loading: bool

    constructor ()
      ensures categorias == [] && bairros == [] && recent == [] && all == []
      ensures stats == HomeStats(0, 0, 0, 0) && backendConnected == None && loading
    {
      categorias, bairros, recent, all := [], [], [], [];
      stats := HomeStats(0, 0, 0, 0);
      backendConnected := None;
      loading := true;
    }

    /** The mount effect: when every call succeeds the page shows what they
        returned (missing figures as 0, a missing list as empty) and marks
        the backend connected; when any fails it shows the sample data and
        marks it disconnected. Either way the busy flag goes down. */
    method Mount(loaded: Outcome<HomeData>)
      modifies this
      ensures !loading
      ensures loaded.Returned?
              ==> categorias == loaded.value.categorias && bairros == loaded.value.bairros
                  && recent == loaded.value.recent && stats == ShownStats(loaded.value.stats)
                  && all == (if loaded.value.all.Some? then loaded.value.all.value else [])
                  && backendConnected == Some(true)
      ensures loaded.Threw?
              ==> categorias == MOCK_CATEGORIAS && bairros == MOCK_BAIRROS
                  && recent == MOCK_REQUESTS && all == MOCK_REQUESTS && stats == FALLBACK_STATS
                  && backendConnected == Some(false)
    {
      match loaded {
        case Returned(data) =>
          categorias := data.categorias;
          bairros := data.bairros;
          recent := data.recent;
          stats := ShownStats(data.stats);
          all := if data.all.Some? then data.all.value else [];
          backendConnected := Some(true);
        case Threw(_) =>
          categorias := MOCK_CATEGORIAS;
          bairros := MOCK_BAIRROS;
          recent := MOCK_REQUESTS;
          all := MOCK_REQUESTS;
          stats := FALLBACK_STATS;
          backendConnected := Some(false);
      }
      loading := false;
    }
  }
}
