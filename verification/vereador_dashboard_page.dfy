/** The councillor's dashboard (`/vereador/dashboard`): who may see it, the
    new (unassigned) requests and the councillor's own, the figures shown
    above them, taking on a request, marking one resolved, and the initials
    in the header. */
module VereadorDashboard {
  import opened Common
  import opened Text
  import opened Sorting
  import opened BrowserStorage
  import opened Api
  import Auth
  import Models

  const LOGIN_PAGE: string := "/entrar"
  const CIDADAO_DASHBOARD: string := "/dashboard"
  /** How many new requests the page lists. */
  const SHOWN_NOVAS: nat := 5
  /** The initials shown when the name gives none. */
  const DEFAULT_INITIALS: string := "V"

  /** The listing call for new requests: status "aberta". */
  const OPEN_REQUESTS: Filters := NO_FILTERS.(status := Some(Models.ABERTA))

  /** The listing call for the councillor's own requests. */
  function MineFilter(u: Auth.User): (f: Filters)
    ensures f == NO_FILTERS.(vereadorId := u.vereadorId)
  {
    NO_FILTERS.(vereadorId := u.vereadorId)
  }

  /** Where the page sends its visitor: nobody signed in goes to sign-in,
      a citizen to the citizen dashboard; only a councillor stays. */
  function RouteFor(u: Option<Auth.User>): (r: Option<string>)
    ensures u.None? ==> r == Some(LOGIN_PAGE)
    ensures u.Some? && !Auth.IsVereador(u.value) ==> r == Some(CIDADAO_DASHBOARD)
    ensures r.None? <==> u.Some? && Auth.IsVereador(u.value)
  {
    if u.None? then Some(LOGIN_PAGE)
    else if !Auth.IsVereador(u.value) then Some(CIDADAO_DASHBOARD)
    else None
  }

  /** `!s.vereador_id`: nobody has taken the request on. */
  predicate Unassigned(s: Solicitacao)
  {
    s.vereadorId.None? || s.vereadorId.value == 0
  }

  /** The new requests: those of the listing nobody has taken on, in the
      listing's order. */
  function Novas(listed: seq<Solicitacao>): (r: seq<Solicitacao>)
    ensures |r| <= |listed|
    ensures forall i :: 0 <= i < |r| ==> r[i] in listed && Unassigned(r[i])
  {
    Where(listed, Unassigned)
  }

  /** A listed request is new exactly when nobody has taken it on. */
  lemma NovasExact(listed: seq<Solicitacao>, s: Solicitacao)
    requires s in listed
    ensures s in Novas(listed) <==> Unassigned(s)
  {
    if Unassigned(s) {
      var i :| 0 <= i < |listed| && listed[i] == s;
      WhereComplete(listed, Unassigned, i);
    }
  }

  /** A councillor without a councillor id sends no filter at all, so the
      "own requests" call lists every request. */
  lemma MineUnfilteredWithoutId(u: Auth.User)
    requires u.vereadorId.None? || u.vereadorId.value == 0
    ensures Selected(MineFilter(u), ALL_KEYS) == []
  {
    assert forall k :: FilterValue(MineFilter(u), k) == None;
    NothingSelected(MineFilter(u), ALL_KEYS);
  }

  /** Filters that are all falsy select no parameter. */
  lemma {:induction false} NothingSelected(f: Filters, keys: seq<QueryKey>)
    requires forall k :: FilterValue(f, k) == None
    ensures Selected(f, keys) == []
  {
    if keys != [] {
      NothingSelected(f, keys[..|keys| - 1]);
    }
  }

  /** The requests the page lists: at most five, the first of the new ones. */
  function ShownNovas(novas: seq<Solicitacao>): (r: seq<Solicitacao>)
    ensures |r| <= SHOWN_NOVAS && |r| <= |novas|
    ensures forall i :: 0 <= i < |r| ==> r[i] == novas[i]
    ensures |novas| >= SHOWN_NOVAS ==> |r| == SHOWN_NOVAS
  {
    Take(novas, SHOWN_NOVAS)
  }

  /** The "Marcar como Resolvida" action is offered for a request that is
      not resolved yet. */
  predicate ResolveOffered(s: Solicitacao)
  {
    s.status != Models.RESOLVIDA
  }

  /** The test "has status `status`". */
  function WithStatus(status: string): Solicitacao -> bool
  {
    (s: Solicitacao) => s.status == status
  }

  /** `p` is `Math.round(100 * part / whole)` on the exact quotient: the
      nearest integer, a half rounding up. */
  predicate NearestPercent(part: int, whole: int, p: int)
  {
    2 * p * whole - whole <= 200 * part < 2 * p * whole + whole
  }

  /** `Math.round(num / den)` on the exact quotient. */
  function RoundDiv(num: int, den: int): (r: int)
    requires den > 0
    ensures 2 * r * den - den <= 2 * num < 2 * r * den + den
  {
    var q := (2 * num + den) / (2 * den);
    var m := (2 * num + den) % (2 * den);
    assert 2 * num + den == q * (2 * den) + m && 0 <= m < 2 * den;
    assert 2 * q * den == q * (2 * den);
    q
  }

  /** A share of a whole rounds to a percentage from 0 to 100. */
  lemma PercentBounds(part: int, whole: int)
    requires 0 <= part <= whole && whole > 0
    ensures 0 <= RoundDiv(100 * part, whole) <= 100
  {
    var t := RoundDiv(100 * part, whole);
    assert (2 * t - 201) * whole <= 0 by {
      assert 2 * t * whole - whole <= 200 * part <= 200 * whole;
    }
    assert 0 < (2 * t + 1) * whole by {
      assert 0 <= 200 * part < 2 * t * whole + whole;
    }
    ProductSign(2 * t - 201, whole);
    ProductSign(2 * t + 1, whole);
  }

  /** A product with a positive factor has the sign of the other factor. */
  lemma ProductSign(x: int, w: int)
    requires w > 0
    ensures x > 0 ==> x * w > 0
    ensures x <= 0 ==> x * w <= 0
  {
  }

  /** The figures above the councillor's own requests. */
  datatype DashboardStats = DashboardStats(assumidas: nat, resolvidas: nat, emAndamento: nat, taxaResolucao: int)

  /** `stats`: how many requests the councillor holds, how many of them are
      resolved and in progress, and the resolved share as a rounded
      percentage (0 with no requests). */
  function Stats(minhas: seq<Solicitacao>): (s: DashboardStats)
    ensures s.assumidas == |minhas|
    ensures s.resolvidas == Count(minhas, WithStatus(Models.RESOLVIDA))
    ensures s.emAndamento == Count(minhas, WithStatus(Models.EM_ANDAMENTO))
    ensures s.resolvidas + s.emAndamento <= s.assumidas
    ensures 0 <= s.taxaResolucao <= 100
    ensures minhas == [] ==> s.taxaResolucao == 0
    ensures minhas != [] ==> NearestPercent(s.resolvidas, s.assumidas, s.taxaResolucao)
  {
    var resolvidas := Count(minhas, WithStatus(Models.RESOLVIDA));
    var emAndamento := Count(minhas, WithStatus(Models.EM_ANDAMENTO));
    CountDisjoint(minhas, WithStatus(Models.RESOLVIDA), WithStatus(Models.EM_ANDAMENTO));
    if |minhas| > 0 then
      PercentBounds(resolvidas, |minhas|);
      DashboardStats(|minhas|, resolvidas, emAndamento, RoundDiv(100 * resolvidas, |minhas|))
    else DashboardStats(0, resolvidas, emAndamento, 0)
  }

  /** Half of the requests resolved is 50%; one of eight (12.5%) rounds up. */
  lemma RateExamples()
    ensures RoundDiv(100 * 1, 2) == 50
    ensures RoundDiv(100 * 1, 8) == 13
  {
  }

  /** The body of `updateSolicitacao` when taking a request on: the
      councillor's id and the status "em_andamento", nothing else. */
  function AssumirPayload(u: Auth.User): (p: UpdatePayload)
    ensures p.vereadorId == u.vereadorId && p.status == Some(Models.EM_ANDAMENTO) && p.descricao == None
  {
    UpdatePayload(Some(Models.EM_ANDAMENTO), u.vereadorId, None)
  }

  /** The body of `updateSolicitacao` when marking a request resolved. */
  const RESOLVE_PAYLOAD: UpdatePayload := UpdatePayload(Some(Models.RESOLVIDA), None, None)

  /** The first character of every non-empty word, in order (`n[0]` of an
      empty word is undefined, which `join` writes as nothing). */
  function FirstChars(words: seq<string>): (r: string)
    ensures |r| <= |words|
    ensures (forall i :: 0 <= i < |words| ==> words[i] == "") ==> r == ""
  {
    if words == [] then ""
    else (if words[0] != "" then [words[0][0]] else "") + FirstChars(words[1..])
  }

  /** The initials in the header: the first letters of the space-separated
      words of the name, upper-cased, or "V" when that gives nothing. */
  function Initials(nome: Option<string>): (r: string)
    ensures r != ""
    ensures nome.None? ==> r == DEFAULT_INITIALS
  {
    if nome.None? then DEFAULT_INITIALS
    else
      var t := Upper(FirstChars(Split(nome.value, ' ')));
      if t == "" then DEFAULT_INITIALS else t
  }

  /** A name of two words gives their two first letters, upper-cased. */
  lemma TwoWordInitials(first: string, last: string)
    requires first != "" && last != "" && ' ' !in first && ' ' !in last
    ensures Initials(Some(first + " " + last)) == [UpperChar(first[0]), UpperChar(last[0])]
  {
    SplitAfterPiece(first, ' ', last);
    SplitNoSeparator(last, ' ');
    assert first + " " + last == first + [' '] + last;
    var words := Split(first + " " + last, ' ');
    assert words == [first, last];
    assert FirstChars(words) == [first[0], last[0]] by {
      assert words[1..] == [last];
      assert words[1..][1..] == [];
    }
  }

  /** A name of spaces only, or an empty one, gives "V". */
  lemma BlankNameGivesDefault(nome: string)
    requires forall i :: 0 <= i < |nome| ==> nome[i] == ' '
    ensures Initials(Some(nome)) == DEFAULT_INITIALS
  {
    SplitBlank(nome, ' ');
  }

  /** The two loads in turn, as both `loadData` and `handleAssumir` run
      them: the open requests, filtered to the new ones, then the
      councillor's own; a failed load ends the sequence (the error is only
      logged), leaving what it has not reached as it was. */
  ghost predicate Reloaded(novas0: seq<Solicitacao>, minhas0: seq<Solicitacao>,
                           novas: seq<Solicitacao>, minhas: seq<Solicitacao>, queries: seq<Filters>,
                           u: Auth.User, novasLoaded: Outcome<seq<Solicitacao>>,
                           minhasLoaded: Outcome<seq<Solicitacao>>)
  {
    if novasLoaded.Threw? then queries == [OPEN_REQUESTS] && novas == novas0 && minhas == minhas0
    else
      queries == [OPEN_REQUESTS, MineFilter(u)] && novas == Novas(novasLoaded.value)
      && minhas == if minhasLoaded.Returned? then minhasLoaded.value else minhas0
  }

  /** The page's state. */
  class VereadorDashboardPage {
    var user: Option<Auth.User>
    var novas: seq<Solicitacao>
    var minhas: seq<Solicitacao>
    var loading: bool

    constructor ()
      ensures user == None && novas == [] && minhas == [] && loading
    {
      user := None;
      novas := [];
      minhas := [];
      loading := true;
    }

    /** The two loads; `queries` are the listing calls made, in order. */
    method Reload(u: Auth.User, novasLoaded: Outcome<seq<Solicitacao>>, minhasLoaded: Outcome<seq<Solicitacao>>)
      returns (queries: seq<Filters>)
      modifies this
      ensures Reloaded(old(novas), old(minhas), novas, minhas, queries, u, novasLoaded, minhasLoaded)
      ensures user == old(user) && loading == old(loading)
    {
      queries := [OPEN_REQUESTS];
      if novasLoaded.Threw? {
        return;
      }
      novas := Novas(novasLoaded.value);
      queries := queries + [MineFilter(u)];
      if minhasLoaded.Returned? {
        minhas := minhasLoaded.value;
      }
    }

    /** `loadData`: a visitor who is not a councillor is sent away and
        nothing loads; a councillor is kept and both lists load. The busy
        flag is down on every path. */
    method LoadData(st: Storage, parse: string -> Option<Auth.User>,
                    novasLoaded: Outcome<seq<Solicitacao>>, minhasLoaded: Outcome<seq<Solicitacao>>)
      returns (nav: Option<string>, queries: seq<Filters>)
      modifies this
      ensures !loading
      ensures nav == RouteFor(Auth.GetCurrentUser(st, parse))
      ensures nav.Some? ==> queries == [] && user == old(user) && novas == old(novas) && minhas == old(minhas)
      ensures nav.None? ==> user == Auth.GetCurrentUser(st, parse) && user.Some?
                            && Reloaded(old(novas), old(minhas), novas, minhas, queries, user.value,
                                        novasLoaded, minhasLoaded)
    {
      var current := Auth.GetCurrentUser(st, parse);
      nav := RouteFor(current);
      queries := [];
      if nav.None? {
        user := current;
        queries := Reload(current.value, novasLoaded, minhasLoaded);
      }
      loading := false;
    }

    /** `handleAssumir`: the request goes to this councillor as in
        progress; after a successful update both lists load again, and
        after a failed one nothing changes. */
    method HandleAssumir(st: Storage, updated: Fetched<HttpReply>,
                         novasLoaded: Outcome<seq<Solicitacao>>, minhasLoaded: Outcome<seq<Solicitacao>>)
      returns (payload: UpdatePayload, call: Call<JsonObject>, queries: seq<Filters>)
      requires user.Some?
      modifies this
      ensures user == old(user) && loading == old(loading)
      ensures payload == AssumirPayload(user.value)
      ensures call == UpdateSolicitacao(st, updated)
      ensures call.outcome.Threw? ==> queries == [] && novas == old(novas) && minhas == old(minhas)
      ensures call.outcome.Returned?
              ==> Reloaded(old(novas), old(minhas), novas, minhas, queries, user.value, novasLoaded, minhasLoaded)
    {
      payload := AssumirPayload(user.value);
      call := UpdateSolicitacao(st, updated);
      queries := [];
      if call.outcome.Returned? {
        queries := Reload(user.value, novasLoaded, minhasLoaded);
      }
    }

    /** "Marcar como Resolvida": the request becomes resolved and, after a
        successful update, the councillor's own list loads again. */
    method MarkResolved(st: Storage, updated: Fetched<HttpReply>, minhasLoaded: Outcome<seq<Solicitacao>>)
      returns (payload: UpdatePayload, call: Call<JsonObject>, queries: seq<Filters>)
      requires user.Some?
      modifies this
      ensures user == old(user) && novas == old(novas) && loading == old(loading)
      ensures payload == RESOLVE_PAYLOAD && call == UpdateSolicitacao(st, updated)
      ensures call.outcome.Threw? ==> queries == [] && minhas == old(minhas)
      ensures call.outcome.Returned?
              ==> queries == [MineFilter(user.value)]
                  && minhas == if minhasLoaded.Returned? then minhasLoaded.value else old(minhas)
    {
      payload := RESOLVE_PAYLOAD;
      call := UpdateSolicitacao(st, updated);
      queries := [];
      if call.outcome.Returned? {
        queries := [MineFilter(user.value)];
        if minhasLoaded.Returned? {
          minhas := minhasLoaded.value;
        }
      }
    }
  }
}
