# Cidadão Ativo — a Dafny model

Cidadão Ativo is a civic-request site. Citizens file service requests
(*solicitações*): a pothole, a broken street light. Councilmembers
(*vereadores*) take requests on and resolve them, and the site publishes
each councilmember's resolution figures. The model covers both halves of
the repository.

- **The Flask backend.**
  - The request table: filtered listing, creation with find-or-create of the
    neighbourhood, and update with the owner-or-councilmember rule and the
    resolution-time rule.
  - The per-councilmember statistics, the top-three areas and the ranking.
  - The global totals.
  - The account routes.

  Each route handler is a method over a `Models.Database` object whose
  tables are sequences in insertion order. A handler that answers with an
  error leaves every table as it was.
- **The browser client.**
  - `lib/api.ts` and `lib/auth.ts`: the two session keys in `localStorage`,
    the auth header, the query string, and the error messages of the
    create/update calls.
  - The six pages: sign-up, sign-in, new request, both dashboards and the
    home page.

  Each page is a class whose fields are the component's state. Its event
  handlers are methods that return what the component does outside its
  state: the navigation target, the alert text, and the calls it made.

Network replies, JSON parsing and the clock are parameters of the methods
that use them. Everything else is computed. Timestamps are whole seconds.
Averages and percentages use exact rational arithmetic with the source's
rounding rule: Python's round-half-even for the backend, `Math.round`
(half-up) for the client.

Modules and files:

| file | module | models |
|---|---|---|
| common.dfy | Common | Option, filtering, counting, substring search, the ordered check chain |
| sorting.dfy | Sorting | stable descending sort, `LIMIT n`, top-n |
| text.dfy | Text | `split`, `toUpperCase`, `Number.parseInt` |
| models.dfy | Models | backend/models.py |
| solicitacao_routes.dfy | SolicitacaoRoutes | backend/solicitacao_routes.py |
| vereador_routes.dfy | VereadorRoutes | backend/vereador_routes.py |
| auth_routes.dfy | AuthRoutes | backend/auth_routes.py |
| storage.dfy | BrowserStorage | `localStorage` |
| api.dfy | Api | lib/api.ts |
| auth.dfy | Auth | lib/auth.ts |
| email_pattern.dfy | EmailPattern | the `/\S+@\S+\.\S+/` test of both forms |
| cadastro_page.dfy | Cadastro | app/cadastro/page.tsx |
| entrar_page.dfy | Entrar | app/entrar/page.tsx |
| nova_solicitacao_page.dfy | NovaSolicitacao | app/nova-solicitacao/page.tsx |
| vereador_dashboard_page.dfy | VereadorDashboard | app/vereador/dashboard/page.tsx |
| dashboard_page.dfy | CidadaoDashboard | app/dashboard/page.tsx |
| home_page.dfy | Home | app/page.tsx |

## Model

| member | source | states |
|---|---|---|
| Models.UserToDictHidesPassword | backend/models.py:18-26 | the user dictionary does not depend on the password hash; it keeps id and email |
| Models.CalculateTempoResolucao | backend/models.py:140-144 | None exactly when the status is not "resolvida"; otherwise the whole days between creation and last update, rounded toward minus infinity as `timedelta.days` is; non-negative when the update is not earlier |
| Models.RoundHalfEven | backend/models.py:54-55 | Python's `round` on an exact quotient: within one half of it, and an exact tie goes to the even neighbour |
| Models.RoundHalfEvenWithin | backend/models.py:54-55 | a rounded quotient stays between any integer bounds of the exact quotient |
| Models.MeanTempoWithin | backend/models.py:49 | the mean resolution time, in tenths of a day, lies between ten times the smallest and ten times the largest time |
| Models.TaxaResolucao | backend/models.py:55 | the rate is in [0, 100]; it is 0 with no assumed requests and 100 when all are resolved; otherwise it is the nearest integer to 100·resolved/assumed, a tie going to the even neighbour as Python's `round` does (`RoundHalfEven`) |
| Models.MeanTempoTenths | backend/models.py:48-54 | 0 for no rows; otherwise within half a tenth of the exact mean time in tenths of a day, a tie going to the even tenth, as `round(x, 1)` does |
| Models.CalculateStats | backend/models.py:43-56 | assumed is the number of rows assigned to the councilmember; resolved is the number of those rows that are resolved, counted by the single combined test; resolved ≤ assumed; the rate is `TaxaResolucao(resolved, assumed)`, in [0, 100]; rate and mean time are 0 when nothing is assumed |
| Models.CalculateStatsAverage | backend/models.py:47-54 | the mean covers exactly this councilmember's resolved requests with a truthy time (a time of 0 is left out); it is 0 when there are none, and otherwise is their mean rounded to a tenth of a day with ties to even (`RoundedMeanTenths`) and lies between their smallest and largest time |
| Models.PrincipaisAreasCounts | backend/models.py:71-85 | at most three areas, counts non-increasing, each count positive and equal to the number of this councilmember's requests in that category name |
| Models.PrincipaisAreasTop | backend/models.py:71-85 | a category that holds some of this councilmember's requests and is not listed means three areas are listed, each with at least as many requests |
| Models.VereadorToDict | backend/models.py:58-87 | id, name, party, photo URL and creation time are copied; stats and areas are present exactly when asked for, and are then `CalculateStats` and `PrincipaisAreas` of this councilmember, with at most three areas, resolved ≤ assumed and the rate in [0, 100] |
| Models.CategoriaNome | backend/models.py:152 | None exactly when no category has the id, otherwise that category's name |
| Models.BairroNome | backend/models.py:156 | None exactly when the request has no neighbourhood or none has its id, otherwise that name |
| Models.VereadorNome | backend/models.py:165 | None exactly when the request is unassigned or no councilmember has its id, otherwise that name |
| Models.SolicitacaoToDict | backend/models.py:146-174 | the owner's dictionary is attached exactly when asked for and the request is not anonymous; stored photos are decoded and a missing list gives []; every other column is copied; the category, neighbourhood and councilmember names are the ones their ids resolve to (`CategoriaNome`, `BairroNome`, `VereadorNome`); the owner's dictionary is that user's `to_dict` |
| Models.Database.AddUser | backend/models.py:4-13 | appends the account under the next id; ids and e-mails stay unique; the other tables are unchanged |
| Models.Database.AddBairro | backend/models.py:105-109 | appends the neighbourhood under the next id; ids and names stay unique; the other tables are unchanged |
| Models.Database.AddSolicitacao | backend/models.py:119-138 | appends the request under the next id; ids stay unique; the other tables are unchanged |
| SolicitacaoRoutes.Listed | backend/solicitacao_routes.py:20-47 | keeps exactly the rows that pass every filter given: the category and neighbourhood ids when their names resolve, status, councilmember, and the search text as a substring of title, description or address |
| SolicitacaoRoutes.GetSolicitacoes | backend/solicitacao_routes.py:9-58 | the rows are a permutation of the listed rows, newest first, and `total` is their number |
| SolicitacaoRoutes.ChainedFilters | backend/solicitacao_routes.py:20-47 | the filters applied one after another select exactly what their conjunction selects |
| SolicitacaoRoutes.UnknownCategoriaIgnored | backend/solicitacao_routes.py:23-26 | a category name that matches no category filters nothing: the result is the same as with no category |
| SolicitacaoRoutes.UnknownBairroIgnored | backend/solicitacao_routes.py:28-31 | likewise for a neighbourhood name |
| SolicitacaoRoutes.GetSolicitacao | backend/solicitacao_routes.py:60-71 | 404 exactly when no row has the id; 500 exactly when the row is not anonymous and its owner is missing; no other failure is possible, and otherwise 200 with `SolicitacaoToDict` of the row with that id, its owner attached exactly when it is not anonymous |
| SolicitacaoRoutes.MissingCreateField | backend/solicitacao_routes.py:88-91 | the first of titulo, categoria_id and descricao whose value is falsy (so categoria_id 0 counts as missing), or None |
| SolicitacaoRoutes.CreateSolicitacao | backend/solicitacao_routes.py:73-132 | an unreadable identity gives 401, and a missing field gives 400 naming the first one; neither changes anything. Otherwise exactly one row is appended under a fresh id: status "aberta", owned by the caller, anonimo false and fotos [] by default, unassigned, created and updated now |
| SolicitacaoRoutes.FindOrCreateBairro | backend/solicitacao_routes.py:94-101 | a known name reuses its row; an unknown name appends exactly one row with that name; the id returned finds a row with that name; names stay unique |
| Models.Database.ReplaceSolicitacao | backend/solicitacao_routes.py:152-168 | the commit of an update: only that row changes, its id is kept, the other tables are unchanged and ids stay unique |
| SolicitacaoRoutes.UpdatedRow | backend/solicitacao_routes.py:152-166 | status, councilmember and description change only when present in the body; updated_at is refreshed; the resolution time is recomputed (from the old updated_at) only on a transition into "resolvida"; every other column is kept |
| SolicitacaoRoutes.ResolveTwiceKeepsTempo | backend/solicitacao_routes.py:157-158 | resolving an already resolved request again keeps its resolution time |
| SolicitacaoRoutes.UpdateSolicitacao | backend/solicitacao_routes.py:134-177 | 404 exactly when the id is unknown; 403 "Unauthorized" exactly when the caller is neither a councilmember nor the owner; 500 exactly when the row exists but the caller's account does not; none of these writes anything. An existing row and an authorised caller always succeed: 200, and only that row is replaced, by `UpdatedRow` |
| SolicitacaoRoutes.GetRecentSolicitacoes | backend/solicitacao_routes.py:179-193 | the rows are the newest of the table, newest first; there are `limit` of them (10 by default), or all of them when the limit is negative or larger |
| Sorting.SortDesc | backend/vereador_routes.py:21 | the result is sorted by non-increasing key and is a permutation of the input |
| Sorting.SortDescStable | backend/vereador_routes.py:21 | the sort is stable: elements with equal keys keep their relative order |
| Sorting.Take | app/dashboard/page.tsx:46 | the first n elements, or all of them when there are fewer |
| Sorting.TopN | backend/solicitacao_routes.py:184-186 | the first n of a descending sort are the n largest-keyed elements, in order |
| VereadorRoutes.VereadorDicts | backend/vereador_routes.py:16-18 | one dictionary with statistics per councilmember, in table order |
| VereadorRoutes.DictsRanked | backend/vereador_routes.py:17 | every dictionary built with statistics carries stats and areas and a rate in [0, 100] |
| VereadorRoutes.GetVereadores | backend/vereador_routes.py:7-29 | every councilmember exactly once, by non-increasing rate, entries of equal rate in table order; `total` is the number of councilmembers; `ranking` has no effect |
| VereadorRoutes.GetVereador | backend/vereador_routes.py:31-44 | 404 exactly when no councilmember has the id, otherwise that councilmember with statistics |
| VereadorRoutes.VereadorListChained | backend/vereador_routes.py:57-60 | the two chained filters select what the single combined test selects |
| VereadorRoutes.ToDicts | backend/vereador_routes.py:65 | one dictionary per row, in order: the i-th is `SolicitacaoToDict` of the i-th row without the owner |
| VereadorRoutes.VereadorListing | backend/vereador_routes.py:55-67 | every request returned is assigned to this councilmember and, when a status is given, has it; all such requests are returned, newest first |
| VereadorRoutes.VereadorListingViews | backend/vereador_routes.py:55-67 | each dictionary of the listing is `SolicitacaoToDict`, without the owner, of a request the listing selects |
| VereadorRoutes.GetVereadorSolicitacoes | backend/vereador_routes.py:46-70 | 404 exactly when the councilmember is unknown; otherwise the listing, with `total` equal to its length |
| VereadorRoutes.GetVereadoresStats | backend/vereador_routes.py:72-115 | the total counts assigned requests only; resolved, and the breakdown's open, in-progress and resolved entries, count the assigned requests with that status; the three add up to at most the total; the citizens served are the number of distinct owners of assigned requests (`CitizensServed`), at most the total and positive exactly when it is; the rate is `TaxaResolucao(resolved, total)`, in [0, 100] and, like the mean, 0 when the total is 0 |
| VereadorRoutes.GlobalMeanWithin | backend/vereador_routes.py:91-97 | the global mean covers the assigned, resolved requests with any non-null time; it is 0 without one and otherwise is their mean rounded to a tenth of a day with ties to even (`RoundedMeanTenths`) and lies between their smallest and largest time |
| VereadorRoutes.GlobalMeanCountsZeroTimes | backend/vereador_routes.py:91-97 | a resolution time of 0 counts in the global mean but not in the per-councilmember mean: for times 0 and d the two means are d/2 and d |
| AuthRoutes.ProfileOf | backend/auth_routes.py:67-71 | a councilmember profile is found exactly for a councilmember account that has one, and it belongs to that account |
| AuthRoutes.MissingRegisterField | backend/auth_routes.py:13-16 | the first of email, password and nome whose value is falsy, or None |
| AuthRoutes.Register | backend/auth_routes.py:7-47 | 400 naming the first missing field; 400 "Email already registered" for a taken e-mail; neither adds anyone. Otherwise exactly one account is appended: fresh id, hashed password, type "cidadao" by default; its e-mail now finds it; the reply carries a token and the public user |
| AuthRoutes.Login | backend/auth_routes.py:49-80 | 400 exactly when e-mail or password is missing; the same 401 for an unknown e-mail and for a wrong password; no other failure is possible, and otherwise 200 with the account found by e-mail, with `vereador_id` only for a councilmember that has a profile |
| AuthRoutes.GetCurrentUser | backend/auth_routes.py:82-104 | 404 exactly when the identity is unknown; otherwise that user's dictionary; for a councilmember with a profile, its id and its dictionary with statistics over the current tables, and neither for anyone else |
| AuthRoutes.Logout | backend/auth_routes.py:106-110 | always 200 "Logout successful"; nothing changes |
| BrowserStorage.Storage.SetItem | lib/api.ts:58 | the key now holds the value; nothing else changes |
| BrowserStorage.Storage.RemoveItem | lib/auth.ts:40-41 | the key is gone; nothing else changes |
| BrowserStorage.UserIn | lib/auth.ts:18-25 | null when the `user` key is absent or empty; when it holds text, exactly what parsing that text gives |
| BrowserStorage.StoreSession | lib/auth.ts:86-89 | both session keys are set; every other key is kept |
| BrowserStorage.Cleared | lib/auth.ts:40-41 | both session keys are gone; every other key is kept |
| BrowserStorage.SessionReadsBack | lib/auth.ts:86-89 | what a sign-in stores reads back as the same token and the same user |
| BrowserStorage.ClearedEmpty | lib/auth.ts:37-43 | after clearing, neither a token nor a user reads back, and clearing twice is clearing once |
| Api.GetAuthToken | lib/api.ts:49-54 | null outside a browser or when no token is stored; in a browser with a stored token, exactly that token |
| Api.SetAuthToken | lib/api.ts:56-60 | in a browser the token is stored and reads back; outside one nothing changes |
| Api.AuthHeaders | lib/api.ts:62-68 | always the JSON content type; `Authorization` is present exactly when the token is non-null and non-empty, and is then "Bearer " + token; no other header |
| Api.NumberText | lib/api.ts:83 | the decimal text of an integer (never empty), which `Text.ParseInt` reads back as the same integer (`NovaSolicitacao.CategoriaIdRoundTrip`) |
| Api.BuildQuery | lib/api.ts:78-83 | the parameters appended one by one are the selected parameters of every key, in the fixed order |
| Api.QueryInOrder | lib/api.ts:78-83 | each parameter carries its filter's truthy value; every truthy filter is present; the keys come in the order categoria, bairro, status, search, vereador_id |
| Api.CreateErrorMessage | lib/api.ts:121-128 | the body's `error`, else its `msg`, else "Failed to create solicitação (status)"; for a non-JSON body the raw text, else "HTTP status: statusText"; never empty |
| Api.Caught | lib/api.ts:133-139 | an error whose message contains "Failed to fetch", or whose name is TypeError, becomes the backend-unavailable error; any other error is rethrown unchanged |
| Api.UnavailableIsFinal | lib/api.ts:135-137 | the backend-unavailable message does not itself contain "Failed to fetch" |
| Api.CaughtIdempotent | lib/api.ts:133-139 | mapping twice is mapping once, and what comes out is never a network failure |
| Api.CreateOutcome | lib/api.ts:112-140 | a rejected fetch ends in the caught error; a failed status ends in the chosen message; success ends in the parsed body, and a success body that is not JSON ends in the parse error, rethrown as it is; no thrown error is a network failure |
| Api.SyntaxErrorRethrown | lib/api.ts:133-139 | the catch passes a JSON parse error through unchanged |
| Api.CreateSolicitacao | lib/api.ts:96-141 | without a token it throws "Authentication required" and sends nothing; otherwise it sends with the auth headers and ends as `CreateOutcome` says |
| Api.UpdateSolicitacao | lib/api.ts:143-167 | the same token guard; a rejected fetch is rethrown as is; a failed status throws the body's `error` or "Failed to update solicitação"; a non-JSON body throws the parse error |
| Auth.GetCurrentUser | lib/auth.ts:15-26 | null outside a browser or when no user text is stored; in a browser with user text stored, exactly what parsing it gives (null when it does not parse) |
| Auth.IsAuthenticated | lib/auth.ts:33-35 | true exactly when a browser holds a non-empty token |
| Auth.Logout | lib/auth.ts:37-43 | in a browser both keys go and the page moves to /entrar; afterwards no token and no user read back, so a second logout changes nothing |
| Auth.MergeHeaders | lib/auth.ts:48-52 | the default headers and the caller's; the caller's win where both set a key |
| Auth.FetchWithAuth | lib/auth.ts:45-65 | the request carries the merged headers; a 401 clears both keys, moves to /entrar and throws "Sessão expirada…"; outside a browser the 401 still throws but leaves storage alone and navigates nowhere; any other response is returned with storage untouched |
| Auth.RefusalMessage | lib/auth.ts:79-82 | the body's `error` when truthy, else the fallback text |
| Auth.Login | lib/auth.ts:67-95 | a rejected fetch is rethrown; a failed status throws the body's `error` or "Falha ao fazer login"; an accepted non-JSON reply throws the parse error; none of these stores anything. An accepted JSON reply always returns `data.user` and, in a browser, stores the token and the user text |
| Auth.Register | lib/auth.ts:97-127 | the same course with "Falha ao criar conta" |
| Auth.SignedInReadsBack | lib/auth.ts:86-91 | after a sign-in that carried a token and a user, the stored token and user read back unchanged |
| Text.Split | app/nova-solicitacao/page.tsx:28-29 | `split` on a character: at least one piece, and no piece holds the separator |
| Text.SplitJoin | app/nova-solicitacao/page.tsx:28-29 | joining the pieces with the separator gives back the text |
| Text.SplitCount | app/nova-solicitacao/page.tsx:28-29 | `split` gives one more piece than there are separators |
| Text.ParseInt | app/nova-solicitacao/page.tsx:74 | `Number.parseInt` gives a number only when the text holds a digit; NaN (None) otherwise. What it reads back is fixed by `Text.ParseDecimal` and `Text.ParseNegative` |
| Text.TrimStart | app/nova-solicitacao/page.tsx:74 | the leading white space `parseInt` skips: a suffix of the text that starts with no space, and the text itself when it starts with none |
| Text.ParseDecimal | app/nova-solicitacao/page.tsx:74 | the decimal text of a natural number, followed by anything that is not a digit, parses back to that number |
| Text.ParseNegative | app/nova-solicitacao/page.tsx:74 | "-" followed by the decimal text of n parses to −n |
| Text.UpperChar | app/dashboard/page.tsx:100 | a–z goes to A–Z, 32 code points lower; every other character is kept |
| Text.Upper | app/vereador/dashboard/page.tsx:121 | `toUpperCase` keeps the length and upper-cases each ASCII letter |
| EmailPattern.EmailTestIff | app/cadastro/page.tsx:39 | the test accepts exactly the strings that contain a substring of the shape non-space+ "@" non-space+ "." non-space+ |
| EmailPattern.PlainAddressPasses | app/entrar/page.tsx:34 | a plain address, "ana@cidade.br", passes |
| EmailPattern.SurroundedAddressPasses | app/entrar/page.tsx:34 | the pattern is not anchored: an address with spaces and text around it passes |
| EmailPattern.NoDotFails | app/entrar/page.tsx:34 | an address with no "." at all, "ana@cidade", fails |
| Common.FirstFailure | app/cadastro/page.tsx:33-55 | the message of the first failing check, and None exactly when every check passes |
| Cadastro.SignupChecks | app/cadastro/page.tsx:33-55 | the four checks in order: required fields (phone optional), e-mail pattern, at least 8 characters, password equals confirmation |
| Cadastro.MissingInputFirst | app/cadastro/page.tsx:33-37 | any empty required field fails first, whatever else is wrong |
| Cadastro.ShortPasswordRejected | app/cadastro/page.tsx:45-49 | a filled form with a valid e-mail and a password under 8 characters fails on the length |
| Cadastro.LongPasswordPassesLength | app/cadastro/page.tsx:45 | a password of 8 or more characters never fails the length check |
| Cadastro.MismatchRejected | app/cadastro/page.tsx:51-55 | differing password and confirmation fail even when both are long enough |
| Cadastro.SignupRequest | app/cadastro/page.tsx:64-69 | the body as written: exactly name, email, phone and password; no confirmPassword and no nome |
| Cadastro.AsWrittenSignupLacksNome | app/cadastro/page.tsx:64-69 | the backend reads that body with email and password present but nome missing, so every valid form is refused; the page then shows "Erro ao criar conta" |
| Cadastro.SignupRequestFixed | app/cadastro/page.tsx:64-69 | the corrected body: exactly nome, email, telefone and password, no confirmPassword |
| Cadastro.FixedSignupHasRequired | backend/auth_routes.py:13-16 | the backend finds every required field in the corrected body of a valid form, with the form's values |
| Cadastro.AsRegisterBody | backend/auth_routes.py:10-16 | the backend's reading of a JSON body: each field is the member of that name |
| Cadastro.RefusalMessage | app/cadastro/page.tsx:74-76 | the body's `message` when truthy, else "Erro ao criar conta"; never empty |
| Cadastro.SignupPage.constructor | app/cadastro/page.tsx:20-21 | no error and not busy |
| Cadastro.SignupPage.HandleSubmit | app/cadastro/page.tsx:27-89 | a failing check shows its message and sends nothing; otherwise the corrected body is sent; a failure shows the fetch error, the parse error or the refusal message and stores nothing; success with a token stores the session and goes to "/", without a token it stores nothing; never busy afterwards |
| Entrar.LoginChecks | app/entrar/page.tsx:28-38 | the two checks in order: both inputs filled, then the e-mail pattern |
| Entrar.EmptyInputFirst | app/entrar/page.tsx:28-32 | an empty input fails first, before the pattern |
| Entrar.PatternDecides | app/entrar/page.tsx:34-38 | with both inputs filled, the pattern alone decides |
| Entrar.RedirectFor | app/entrar/page.tsx:44-50 | /vereador/dashboard exactly for a councilmember, /dashboard exactly for everyone else |
| Entrar.ErrorMessage | app/entrar/page.tsx:53-57 | a TypeError whose message contains "fetch" shows the server-unavailable text; any other error shows its own message |
| Entrar.NetworkFailureShown | app/entrar/page.tsx:53-54 | an unreachable server shows the server-unavailable text |
| Entrar.RefusalShownVerbatim | app/entrar/page.tsx:55-56 | a server refusal is shown as worded |
| Entrar.LoginPage.constructor | app/entrar/page.tsx:17-18 | no error and not busy |
| Entrar.LoginPage.HandleSubmit | app/entrar/page.tsx:20-60 | `login` is called exactly when both checks pass; a failing check shows its message; an accepted JSON reply returns the reply's user and stores the session in the browser, and a non-JSON one throws the parse error; a returned user is redirected by role and the page stays busy; a thrown error is shown as `ErrorMessage` says, and a reply with no user shows the error of reading a field of `undefined`; in both the busy flag goes down |
| NovaSolicitacao.TokenShapeIsTwoDots | app/nova-solicitacao/page.tsx:28-29 | a token has three parts exactly when it holds two dots |
| NovaSolicitacao.EmptyPartsPass | app/nova-solicitacao/page.tsx:28-29 | ".." counts as well formed |
| NovaSolicitacao.BuildPayload | app/nova-solicitacao/page.tsx:72-80 | the seven members: texts as entered, the category parsed as a number, anonimo exactly when the box holds "on"; the contact fields are not sent |
| NovaSolicitacao.CategoriaIdRoundTrip | app/nova-solicitacao/page.tsx:74 | a category option holding the decimal text of an id gives back that id |
| NovaSolicitacao.ExpiredIsSessionError | app/nova-solicitacao/page.tsx:87 | "Token has expired" counts as a lost session through "expired", not through "token" (the match is case-sensitive) |
| NovaSolicitacao.ExpiredTokenEndsSession | app/nova-solicitacao/page.tsx:86-93 | a 401 whose `msg` is the expired-token text makes the create throw that text, which the page treats as a lost session |
| NovaSolicitacao.NovaSolicitacaoPage.constructor | app/nova-solicitacao/page.tsx:16-18 | empty lists, not busy |
| NovaSolicitacao.NovaSolicitacaoPage.OnMount | app/nova-solicitacao/page.tsx:20-45 | no token: alert and go to /entrar, loading nothing; a token without three parts: both keys cleared, alert and go to /entrar; otherwise the lists are loaded, and kept as they were if loading fails |
| NovaSolicitacao.NovaSolicitacaoPage.HandleSubmit | app/nova-solicitacao/page.tsx:47-99 | no token: alert, go to /entrar, nothing sent; the token shape is not checked again; no category: alert, nothing sent; otherwise the payload is sent; success goes to /dashboard; a session error clears both keys and goes to /entrar; other errors are shown; not busy after every path past the token check; the loaded lists are never changed |
| VereadorDashboard.RouteFor | app/vereador/dashboard/page.tsx:23-31 | nobody signed in goes to /entrar, a non-councilmember to /dashboard; only a councilmember stays |
| VereadorDashboard.MineFilter | app/vereador/dashboard/page.tsx:38 | the councilmember's own listing asks only for their `vereador_id` |
| VereadorDashboard.MineUnfilteredWithoutId | app/vereador/dashboard/page.tsx:38 | a councilmember without a councilmember id sends no parameter at all |
| VereadorDashboard.Novas | app/vereador/dashboard/page.tsx:35-36 | at most as many as listed, each one listed and taken on by nobody (`NovasExact` gives the converse) |
| VereadorDashboard.NovasExact | app/vereador/dashboard/page.tsx:36 | a listed request is new exactly when its `vereador_id` is falsy |
| VereadorDashboard.ShownNovas | app/vereador/dashboard/page.tsx:193 | at most five, the first of the new ones, and five whenever there are that many |
| VereadorDashboard.RoundDiv | app/vereador/dashboard/page.tsx:93-95 | `Math.round` of an exact quotient: the nearest integer, halves rounded up |
| VereadorDashboard.PercentBounds | app/vereador/dashboard/page.tsx:91-96 | a part of a whole rounds to a percentage between 0 and 100 |
| VereadorDashboard.RateExamples | app/vereador/dashboard/page.tsx:93-95 | one of two is 50%; one of eight (12.5%) rounds up to 13% |
| VereadorDashboard.Stats | app/vereador/dashboard/page.tsx:87-97 | held = list length; resolved and in-progress counts by status; resolved + in progress ≤ held; rate 0 for an empty list, otherwise the nearest percentage, within [0, 100] |
| VereadorDashboard.AssumirPayload | app/vereador/dashboard/page.tsx:57-60 | the councilmember's `vereador_id` and status "em_andamento", nothing else |
| VereadorDashboard.FirstChars | app/vereador/dashboard/page.tsx:117-120 | at most one character per word, and none when every word is empty |
| VereadorDashboard.Initials | app/vereador/dashboard/page.tsx:117-121 | never empty; "V" when there is no name |
| VereadorDashboard.TwoWordInitials | app/vereador/dashboard/page.tsx:117-121 | a two-word name gives both first letters, upper-cased |
| VereadorDashboard.BlankNameGivesDefault | app/vereador/dashboard/page.tsx:117-121 | an empty name or one of spaces only gives "V" |
| VereadorDashboard.VereadorDashboardPage.constructor | app/vereador/dashboard/page.tsx:13-16 | no user, empty lists, busy |
| VereadorDashboard.VereadorDashboardPage.Reload | app/vereador/dashboard/page.tsx:35-39 | asks for the open requests (status "aberta") and keeps the new ones, then asks for the councilmember's own; a failed first load leaves both lists and skips the second query; a failed second load leaves the own list |
| VereadorDashboard.VereadorDashboardPage.LoadData | app/vereador/dashboard/page.tsx:18-48 | a visitor who is not a councilmember is sent away and nothing loads; a councilmember is kept and both lists reload; never busy afterwards |
| VereadorDashboard.VereadorDashboardPage.HandleAssumir | app/vereador/dashboard/page.tsx:55-70 | sends the take-on payload; a failed update changes nothing, a successful one reloads both lists |
| VereadorDashboard.VereadorDashboardPage.MarkResolved | app/vereador/dashboard/page.tsx:269-273 | sends status "resolvida"; a failed update changes nothing, a successful one reloads only the councilmember's list |
| CidadaoDashboard.RouteFor | app/dashboard/page.tsx:33-41 | nobody signed in goes to /entrar, a councilmember to /vereador/dashboard; everyone else stays |
| CidadaoDashboard.DashboardsPartitionUsers | app/dashboard/page.tsx:33-41 | each signed-in user is kept by exactly one of the two dashboards and sent by the other to it |
| CidadaoDashboard.ListIsUnfiltered | app/dashboard/page.tsx:45 | the list is loaded with no parameter, so it holds everybody's requests |
| CidadaoDashboard.Stats | app/dashboard/page.tsx:77-82 | the total is the list length and each status count counts that status |
| CidadaoDashboard.CountsAddUp | app/dashboard/page.tsx:77-82 | when every status is one of the three allowed by the client type, the three counts add up to the total |
| CidadaoDashboard.StatusLabel | app/dashboard/page.tsx:207-211 | "Resolvida" and "Em Andamento" exactly for those statuses, "Aberta" exactly for every other |
| CidadaoDashboard.AvatarInitial | app/dashboard/page.tsx:100 | one character: "U" when there is no name or it is empty, otherwise the name's first character upper-cased |
| CidadaoDashboard.OneWordAvatarIsInitials | app/dashboard/page.tsx:100 | for a one-word name the avatar letter equals the councilmember dashboard's initials |
| CidadaoDashboard.CidadaoDashboardPage.constructor | app/dashboard/page.tsx:24-26 | no user, empty list, busy |
| CidadaoDashboard.CidadaoDashboardPage.LoadData | app/dashboard/page.tsx:28-55 | a visitor who is not a citizen is sent away and nothing loads; a citizen is kept, one unfiltered listing is made and the first five requests are shown; never busy afterwards |
| Home.StatusLabel | app/page.tsx:144-155 | the three known statuses get their labels; any other status is shown unchanged |
| Home.LabelsAgreeOnKnownStatuses | app/page.tsx:144-155 | the home page and the citizen dashboard agree on the known statuses; an unknown one reads as itself here and as "Aberta" there |
| Home.StatusColor | app/page.tsx:131-142 | one class list per known status, the muted one otherwise |
| Home.ColorsDistinct | app/page.tsx:131-142 | two statuses share a colour only when they are equal or both unknown |
| Home.SearchFilters | app/page.tsx:117-120 | `search` only when non-empty, `categoria` only when non-empty and not "Todas", `bairro` only when non-empty and not "Todos", nothing else; so the query never asks for "Todas" or "Todos" |
| Home.SearchAlert | app/page.tsx:122-128 | the number found, or the failure text |
| Home.OrZero | app/page.tsx:87-90 | a present figure is kept, a missing one shows as 0 |
| Home.ShownStats | app/page.tsx:86-91 | each figure shown is the reply's, or 0 where it is missing |
| Home.ReplyOf | lib/api.ts:199-210 | the statistics reply as the backend writes it: every figure present |
| Home.ShownBackendFigures | app/page.tsx:86-91 | over the backend's own figures the page shows them unchanged, with the rate in [0, 100] and the citizens served at most the total |
| Home.FallbackData | app/page.tsx:29-78 | six categories, four neighbourhoods, two requests with distinct ids and known statuses; the fallback figures are 2, 0, 0, 0 |
| Home.HomePage.constructor | app/page.tsx:15-26 | empty lists, zero figures, connection unknown, busy |
| Home.HomePage.Mount | app/page.tsx:80-113 | success shows what the five calls returned (missing figures as 0, a missing list as empty) and marks the backend connected; any failure shows the sample data with a total of 2 and marks it disconnected; never busy afterwards |

## Left out

- HTTP routing, Flask and SQLAlchemy sessions, CORS and app configuration are not modelled. A route is a method over the database; a commit is a change to it and a rollback is no change.
- JWT creation and checking and bcrypt hashing are parameters. The hash, the token maker, the password checker and the identity read from the token are all passed in.
- The upload route, `get_categorias` and `get_bairros` are left out: the first does file I/O and the other two only list whole tables.
- Floating point is not modelled. Averages and rates use exact rationals with the source's rounding rule, and mean times are kept in tenths of a day. Where a float quotient lands next to a half, the result can differ from the one JavaScript computes: 57 of 200 gives 28.499999999999996% in floats, so `Math.round` gives 28, while the exact rule gives 29.
- Latitude and longitude are copied through as optional reals; nothing computes with them.
- SQL `LIKE` is modelled as plain substring containment. Its wildcards and its case folding are left out.
- Rows that share a `created_at` come out of SQL in an unspecified order. The model only promises newest-first, as a permutation of the matching rows.
- A JSON `null` in a request body is modelled only for `vereador_id`. A null status or description would fail a NOT NULL constraint at commit (500); that case is left out.
- Text.ParseInt: reads decimal text only; `parseInt` without a radix reads a "0x" prefix as hexadecimal, which the model does not (the category options it parses are always decimal ids).
- Text is a sequence of characters. UTF-16 code units, Unicode case mapping beyond ASCII (`Text.Upper` changes only a–z) and URL encoding of query values are left out.
- `fetch` results, `response.json()` and `JSON.parse`/`JSON.stringify` are parameters of the methods that use them. The message of a `SyntaxError` from parsing is a fixed stand-in.
- `alert`, rendering, `console` logging and router navigation are not effects. An alert or a navigation is an output value of the handler.
- The bodies of the sign-in and sign-up requests of `lib/auth.ts` are not modelled, nor is the request id of update calls. The modelled calls take the reply as given.
- The sign-up page's fallback message "Erro ao conectar com o servidor" (for a thrown value that is not an `Error`) cannot occur in the model, because every thrown value in it is an `Error`.
- Cadastro.SignupPage.HandleSubmit: sends the corrected body (`Cadastro.SignupRequestFixed`), not the one the page writes. The body as written is modelled by `Cadastro.SignupRequest`; see Findings.
- The citizen dashboard lists all requests of every user, not the citizen's own: the call carries no filter. This is modelled as written (`CidadaoDashboard.ListIsUnfiltered`).
- SolicitacaoRoutes.GetSolicitacoes: returns the rows themselves, not their `to_dict()` dictionaries; each is `Models.SolicitacaoToDict` of its row without the owner (the default the route uses), whose contract states every field.
- SolicitacaoRoutes.CreateSolicitacao: returns the new row itself, not its `to_dict()` dictionary; that dictionary is `Models.SolicitacaoToDict` of the row without the owner (the default the route uses), whose contract states every field.
- SolicitacaoRoutes.UpdateSolicitacao: returns the updated row itself, not its `to_dict()` dictionary; that dictionary is `Models.SolicitacaoToDict` of the row without the owner (the default the route uses), whose contract states every field.
- SolicitacaoRoutes.GetRecentSolicitacoes: returns the rows themselves, not their `to_dict()` dictionaries; each is `Models.SolicitacaoToDict` of its row without the owner (the default the route uses), whose contract states every field.
- The map component, the status banner's polling, the header, the transparency and about pages, and the seed script are not part of this model.

## Findings

| source | as written | input that shows it | evidently intended | confidence | as-written member | corrected member |
|---|---|---|---|---|---|---|
| app/cadastro/page.tsx:64-69 | the sign-up body sends `name` and `phone`, but the register route requires `nome` (backend/auth_routes.py:13-16) and reads `telefone` | any form that passes the four checks, e.g. name "Ana", e-mail "a@b.c", password and confirmation "12345678": the backend answers 400 "nome is required", and the page shows "Erro ao criar conta" because it reads `message` rather than `error` | send `nome` and `telefone`, so that a valid form creates the account | high (derived from the code; not executed) | Cadastro.AsWrittenSignupLacksNome | Cadastro.FixedSignupHasRequired |
