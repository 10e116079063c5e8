/** The citizen's dashboard (`/dashboard`): who may see it, the list it
    loads, the counts above it, the status badges and the avatar letter. */
module CidadaoDashboard {
  import opened Common
  import opened Text
  import opened Sorting
  import opened BrowserStorage
  import opened Api
  import Auth
  import Models
  import VereadorDashboard

  const LOGIN_PAGE: string := "/entrar"
  const VEREADOR_DASHBOARD: string := "/vereador/dashboard"
  /** How many requests the page lists. */
  const SHOWN: nat := 5
  /** The avatar letter when the name gives none. */
  const DEFAULT_INITIAL: string := "U"
  const LABEL_RESOLVIDA: string := "Resolvida"
  const LABEL_EM_ANDAMENTO: string := "Em Andamento"
  const LABEL_ABERTA: string := "Aberta"

  /** Where the page sends its visitor: nobody signed in goes to sign-in,
      a councillor to the councillor's dashboard; everyone else stays. */
  function RouteFor(u: Option<Auth.User>): (r: Option<string>)
    ensures u.None? ==> r == Some(LOGIN_PAGE)
    ensures u.Some? && Auth.IsVereador(u.value) ==> r == Some(VEREADOR_DASHBOARD)
    ensures r.None? <==> u.Some? && !Auth.IsVereador(u.value)
  {
    if u.None? then Some(LOGIN_PAGE)
    else if Auth.IsVereador(u.value) then Some(VEREADOR_DASHBOARD)
    else None
  }

  /** The two dashboards split the signed-in users between them: each user
      is kept by exactly one, and the other sends them to it, so no user
      bounces between the two. Nobody signed in is sent to sign-in by both. */
  lemma DashboardsPartitionUsers(u: Option<Auth.User>)
    ensures u.Some? ==> (RouteFor(u).None? <==> VereadorDashboard.RouteFor(u).Some?)
    ensures u.Some? && RouteFor(u).Some? ==> RouteFor(u) == Some(VEREADOR_DASHBOARD) && VereadorDashboard.RouteFor(u).None?
    ensures u.Some? && VereadorDashboard.RouteFor(u).Some?
            ==> VereadorDashboard.RouteFor(u) == Some(VereadorDashboard.CIDADAO_DASHBOARD) && RouteFor(u).None?
    ensures u.None? ==> RouteFor(u) == VereadorDashboard.RouteFor(u) == Some(LOGIN_PAGE)
  {
  }

  /** The citizen's list is loaded with no filter at all: the call carries
      no parameter, so it lists everybody's requests, not the citizen's. */
  lemma ListIsUnfiltered()
    ensures Selected(NO_FILTERS, ALL_KEYS) == []
  {
    assert forall k :: FilterValue(NO_FILTERS, k) == None;
    VereadorDashboard.NothingSelected(NO_FILTERS, ALL_KEYS);
  }

  /** The figures above the list. */
  datatype CitizenStats = CitizenStats(total: nat, abertas: nat, emAndamento: nat, resolvidas: nat)

  /** `stats`: the number of listed requests and how many of them have each
      status. */
  function Stats(minhas: seq<Solicitacao>): (s: CitizenStats)
    ensures s.total == |minhas|
    ensures s.abertas == Count(minhas, VereadorDashboard.WithStatus(Models.ABERTA))
    ensures s.emAndamento == Count(minhas, VereadorDashboard.WithStatus(Models.EM_ANDAMENTO))
    ensures s.resolvidas == Count(minhas, VereadorDashboard.WithStatus(Models.RESOLVIDA))
  {
    CitizenStats(|minhas|, Count(minhas, VereadorDashboard.WithStatus(Models.ABERTA)),
                 Count(minhas, VereadorDashboard.WithStatus(Models.EM_ANDAMENTO)),
                 Count(minhas, VereadorDashboard.WithStatus(Models.RESOLVIDA)))
  }

  /** A status the client type allows: "aberta", "em_andamento" or "resolvida". */
  predicate KnownStatus(status: string)
  {
    status == Models.ABERTA || status == Models.EM_ANDAMENTO || status == Models.RESOLVIDA
  }

  /** When every listed status is one of the three, the three counts add up
      to the total. */
  lemma CountsAddUp(minhas: seq<Solicitacao>)
    requires forall i :: 0 <= i < |minhas| ==> KnownStatus(minhas[i].status)
    ensures Stats(minhas).abertas + Stats(minhas).emAndamento + Stats(minhas).resolvidas == Stats(minhas).total
  {
    CountPartition3(minhas, VereadorDashboard.WithStatus(Models.ABERTA),
                    VereadorDashboard.WithStatus(Models.EM_ANDAMENTO), VereadorDashboard.WithStatus(Models.RESOLVIDA));
  }

  /** The badge text: "Resolvida" and "Em Andamento" for those statuses,
      "Aberta" for every other one. */
  function StatusLabel(status: string): (r: string)
    ensures r == LABEL_RESOLVIDA <==> status == Models.RESOLVIDA
    ensures r == LABEL_EM_ANDAMENTO <==> status == Models.EM_ANDAMENTO
    ensures r == LABEL_ABERTA <==> status != Models.RESOLVIDA && status != Models.EM_ANDAMENTO
  {
    if status == Models.RESOLVIDA then LABEL_RESOLVIDA
    else if status == Models.EM_ANDAMENTO then LABEL_EM_ANDAMENTO
    else LABEL_ABERTA
  }

  /** The avatar letter: the name's first character upper-cased, or "U"
      when there is no name or it is empty. */
  function AvatarInitial(nome: Option<string>): (r: string)
    ensures |r| == 1
    ensures nome.None? || nome == Some("") ==> r == DEFAULT_INITIAL
    ensures nome.Some? && nome.value != "" ==> r == [UpperChar(nome.value[0])]
  {
    if nome.None? || nome.value == "" then DEFAULT_INITIAL else [UpperChar(nome.value[0])]
  }

  /** For a one-word name the avatar letter is the councillor dashboard's
      initials. */
  lemma OneWordAvatarIsInitials(word: string)
    requires word != "" && ' ' !in word
    ensures AvatarInitial(Some(word)) == VereadorDashboard.Initials(Some(word))
  {
    SplitNoSeparator(word, ' ');
    assert VereadorDashboard.FirstChars([word]) == [word[0]];
  }

  /** The page's state. */
  class CidadaoDashboardPage {
    var user: Option<Auth.User>
    var minhas: seq<Solicitacao>
    var loading: bool

    constructor ()
      ensures user == None && minhas == [] && loading
    {
      user := None;
      minhas := [];
      loading := true;
    }

    /** `loadData`: a visitor who is not a citizen is sent away and nothing
        loads; a citizen is kept and the first five listed requests are
        shown (a failed load is only logged). The busy flag is down on
        every path. */
    method LoadData(st: Storage, parse: string -> Option<Auth.User>, loaded: Outcome<seq<Solicitacao>>)
      returns (nav: Option<string>, queries: seq<Filters>)
      modifies this
      ensures !loading
      ensures nav == RouteFor(Auth.GetCurrentUser(st, parse))
      ensures nav.Some? ==> queries == [] && user == old(user) && minhas == old(minhas)
      ensures nav.None? ==> user == Auth.GetCurrentUser(st, parse) && queries == [NO_FILTERS]
      ensures nav.None? && loaded.Returned? ==> minhas == Take(loaded.value, SHOWN) && |minhas| <= SHOWN
      ensures nav.None? && loaded.Threw? ==> minhas == old(minhas)
    {
      var current := Auth.GetCurrentUser(st, parse);
      nav := RouteFor(current);
      queries := [];
      if nav.None? {
        user := current;
        queries := [NO_FILTERS];
        if loaded.Returned? {
          minhas := Take(loaded.value, SHOWN);
        }
      }
      loading := false;
    }
  }
}
