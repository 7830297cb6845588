# Verified model of the harness cores

This project models the deterministic, stateful parts of the assessment harness and proves what they
keep over every input, every run and every interleaving. The remote model, the browser, the network,
the database and the clock appear only as arbitrary functions, values or event lists.

| module | part of the harness |
|---|---|
| `RoundRobin`, `Captures`, `ReviewFrontier`, `ReviewGuarantees` | the review scheduler: deduplication, grouping, two-level round robin |
| `CircuitBreaker`, `BreakerGuarantees`, `BreakerScopes` | the circuit breaker with overlapping calls, and its scoped restore |
| `Cache` | the exchange and hypothesis caches |
| `Discovery` | surface discovery: probe budget, phase limits, branch pruning |
| `BrowserPolicy` | the browser request policy and the redirect loop that obeys it |
| `Freeze`, `Scorer` | the AR-10 freeze, its seal, crediting and the decision |
| `Accounting`, `AccountingGuarantees`, `Evidence`, `EvidenceOrder` | issue accounting, the L5 criterion on its output, the evidence audit |
| `Profiles` | operating profiles on nested configuration trees |
| `HttpSplit`, `ActivityFeed`, `Chains` | the HTTP message splitter, the activity feed, chains and pivot hints |
| `Text`, `Options`, `Digests` | string operations, an option type, digests |

Code that works by assignment is modelled by classes and methods with loops; each method is proved
against a function or predicate on values, and the guarantees are proved about those. Code made of
expressions is modelled by functions.

## Reading notes

- SHA-256 is a constructor applied to what it digests, so equal digests mean equal contents. Clocks are
  integers passed in as arguments. Rates, medians and values of repeats are exact reals.
- Configuration scalars are compared as Python compares them: booleans and numbers by amount.
- Strings are sequences of characters; case mapping is ASCII, white space is Python's within Latin-1.
- Identifiers in `Accounting` are numbers in the order of the strings they stand for, 0 for a missing
  one. Header names in `Captures` are already lower-cased. URLs in `BrowserPolicy` are already parsed.
- A discovery phase is an arbitrary list of candidates: the budget results hold whatever a phase derives.

## Where the code does not do what is said of it

Each point has a lemma with a witness or an exact condition.

- Half-open trials. `half_open_max_requests` bounds slots, not trials: a call admitted before the
  half-open period gives back a slot it never took. From the first call of a period on, more trials than
  the limit can be in flight if and only if trials are allowed at all, some call was in flight before and
  the counters let a call end without ending the period (`PeriodExceedsIff`). `ExceedsIff` is the exact
  condition for any moment of a period, with fewer, as many or more slots than trials.
- Scoped breaker. Calls end and begin inside a scope while the saved slot counter is put back as it was.
  In a period that began with nothing in flight the counter is exact afterwards if and only if no trial
  ended inside and no call admitted inside is still in flight (`RestoreKeepsSlots`). Every trial that
  ended inside leaves a slot in excess, and every call admitted inside may give one back: the limit can be
  exceeded afterwards if and only if more of those calls are still in flight than trials ended inside, and
  the counters let that many calls, and one more, end without ending the period (`LimitAfterScope`). With
  nothing in flight every later call is refused exactly when all slots were taken (`WedgedIff`).
- Cache counters. With a capacity of zero or less a store into an empty table counts an eviction of
  nothing; the counter is right exactly when the capacity is positive or the table is not empty
  (`CountedIsRemoved`).
- Freeze. A repeat whose id equals the manifest's own file name is accepted by the build, but its
  directory takes the manifest's place (`WriteFreeze`, `FreezeThenCheck`).
- Evidence reasons. A finding's support never depends on the order of the records, but its listed reasons
  can: if and only if its claim gets as far as its evidence, some artifact id the proof leans on has
  records with good and with bad outcomes, and none has bad ones only (`ReasonsFollowOrderIff`).
- Issue grouping. Root causes and cases are named in one space: a claim whose recorded root cause is spelled
  like another claim's case id joins that claim's group although the cases differ (`NamesCanCollide`);
  `TogetherIff` is the exact condition for sharing a group.
- HTTP splitting. An LF print comes back exactly when its start line does not end in CR
  (`LfPrintComesBack`).
- Activity feed. A poll accounts for everything the client has not seen exactly when something is still
  held or nothing is new; a feed that was cleared, or one with no room, loses events without reporting
  them (`PollAccountsWhen`).
- Chain rules. A rule whose two tags are equal neither fires nor hints, whatever the addresses
  (`FiresWhen`, `FiresOrHints`); the shipped table has none (`ShippedRulesAreLive`). A second-order chain
  can fire without any candidate to confirm it, exactly when all its writes and reads share one address
  (`CandidatesBackChains`).

## Model

| member | source | states |
|---|---|---|
| `RoundRobin.ServeIsRounds` | harness/assessment_health.py:185-196 | serving the front queue and moving it to the back is the same as serving whole rounds, one head of every queue at a time |
| `RoundRobin.LeadAtMostOne` | harness/assessment_health.py:186-196 | while two queues are both unfinished the one in front leads by zero or one |
| `RoundRobin.OneTurnEach` | harness/assessment_health.py:186-196 | two consecutive turns of one owner enclose exactly one turn of every other owner still pending |
| `RoundRobin.FairTurn` | harness/assessment_health.py:186-196 | the next turns are one head of each pending queue, of distinct owners, then the first owner again |
| `RoundRobin.ServeKeepsAll` | harness/assessment_health.py:185-196 | the service is a permutation of what was queued |
| `RoundRobin.ServeKeepsOrder` | harness/assessment_health.py:189-196 | one owner's items are served in the order of its queue |
| `Captures.TierMeans` | harness/assessment_health.py:69-75 | each tier in both directions: API call or write with and without an identity header, other non-HTML, HTML |
| `Captures.DeclaredFamily` | harness/assessment_health.py:48-56 | the content family of a declared media type, whatever its parameters, padding and case |
| `Captures.UndeclaredFamily` | harness/assessment_health.py:57-62 | without a declared type, the family shown by the first 200 characters of the body |
| `Captures.GroupKeyFixesTier` | harness/assessment_health.py:112-126 | captures that share a grouping identity have the same review tier |
| `Captures.ContentFixesTier` | harness/assessment_health.py:112-126 | the tier can be computed from the grouping identity alone |
| `Captures.ContentIff` | harness/assessment_health.py:112-126 | two captures may be grouped exactly when caller, verb, host, status, body bytes, family, header names and header summary agree and neither has a query, a request body or an object in its path |
| `Captures.SameRouteIff` | harness/assessment_health.py:180-182 | captures are of one route exactly when verb, host, path and caller agree |
| `Captures.SameFamilyIff` | harness/assessment_health.py:65-81 | captures are of one family exactly when caller and first path segment agree, leading slashes and case aside |
| `ReviewFrontier.AddToFamilyOk` | harness/assessment_health.py:179-182 | filing a capture keeps names distinct and every queue non-empty and of one tier, family and route |
| `ReviewFrontier.AddToFamilyAppends` | harness/assessment_health.py:179-182 | filing a capture appends it to its own route's queue and touches no other |
| `ReviewFrontier.TierOrderIsTwoLevel` | harness/assessment_health.py:185-196 | the nested popping and re-inserting is round robin over families of round robin over routes |
| `ReviewFrontier.Frontier.constructor` | harness/assessment_health.py:157-182 | the filling loop builds the queues, groups and queued set of the specification, marking nothing |
| `ReviewFrontier.Frontier.Next` | harness/assessment_health.py:183-205 | offers the first unmarked capture of the drain order, whatever was marked meanwhile; marks it and its unmarked followers and nothing else |
| `ReviewFrontier.Frontier.Search` | harness/assessment_health.py:183-198 | marked captures are dropped on the way, nothing else is |
| `ReviewFrontier.Frontier.Select` | harness/assessment_health.py:199-205 | the grouped captures reported are the unmarked members of the group, in order |
| `ReviewFrontier.Frontier.Mark` | harness/assessment_health.py:157-157 | the consumer may add to the shared set between selections and changes nothing else |
| `ReviewGuarantees.BuildAgrees` | harness/assessment_health.py:158-182 | representatives, followers and queued keys are those of the distinct unmarked captures |
| `ReviewGuarantees.ExactlyOnce` | harness/assessment_health.py:137-205 | on a full drain the offered and the grouped captures partition the distinct unmarked ones |
| `ReviewGuarantees.SortedByTier` | harness/assessment_health.py:183-184 | a higher-priority tier is drained before the next |
| `ReviewGuarantees.FamiliesBalanced` | harness/assessment_health.py:185-196 | inside a tier two unfinished families never differ by more than one turn |
| `ReviewGuarantees.FamiliesTakeTurns` | harness/assessment_health.py:185-196 | between two consecutive turns of a family every other pending family gets exactly one |
| `ReviewGuarantees.RoutesBalanced` | harness/assessment_health.py:189-196 | inside a family two unfinished routes never differ by more than one turn |
| `ReviewGuarantees.RoutesTakeTurns` | harness/assessment_health.py:189-196 | between two consecutive turns of a route every other pending route of the family gets exactly one |
| `ReviewGuarantees.FirstInFirstOut` | harness/assessment_health.py:181-192 | the captures of one route are offered in the order they were captured |
| `ReviewGuarantees.FollowersShareTier` | harness/assessment_health.py:172-178 | a grouped capture looks like its representative, response body included, has its tier, was not marked before, and neither of the two carries input or an object id |
| `ReviewGuarantees.GroupedIff` | harness/assessment_health.py:112-178 | two distinct unmarked captures end up in one group if and only if grouping is asked for, they look alike and neither carries input or an object id |
| `ReviewGuarantees.NothingSkipped` | harness/assessment_health.py:197-204 | in an undisturbed run no scheduled capture is found marked, and each takes its whole group with it |
| `ReviewGuarantees.Review` | harness/assessment_health.py:137-205 | stopped after any number of selections, the marked set is the initial one plus what was taken and its followers |
| `CircuitBreaker.Breaker.Enter` | harness/circuit_breaker.py:242-265 | admission and the new state, for every state and clock |
| `CircuitBreaker.Breaker.Exit` | harness/circuit_breaker.py:267-317 | the new state after a success, a failure or an excluded exception, with both trip rules and the reset |
| `CircuitBreaker.Breaker.PushOutcome` | harness/circuit_breaker.py:217-222 | the window keeps the most recent outcomes |
| `CircuitBreaker.Breaker.Reset` | harness/circuit_breaker.py:345-352 | closed, with counters, slots and window cleared |
| `CircuitBreaker.Breaker.SetState` | harness/circuit_breaker.py:542-567 | a direct assignment restarts the timer and empties the window |
| `CircuitBreaker.Scope.Open` | harness/circuit_breaker.py:618-636 | remembers the breaker and leaves it closed and fresh |
| `CircuitBreaker.Scope.Close` | harness/circuit_breaker.py:638-652 | state, counters, slots and window come back; the timer does not |
| `BreakerGuarantees.RunsKeepInvariant` | harness/circuit_breaker.py:157-317 | the slot, window, trip and closed-state invariants survive every interleaving |
| `BreakerGuarantees.SlotsInEveryRun` | harness/circuit_breaker.py:242-279 | slots stay within the limit and the calls in flight, and equal the trials in flight when the half-open period began with none |
| `BreakerGuarantees.ExceedsIff` | harness/circuit_breaker.py:258-317 | from any half-open moment the limit can be exceeded exactly when a foreign slot was given back already, or more older calls are in flight than slots in excess of the trials and that many calls, and one more, can end without ending the period |
| `BreakerGuarantees.PeriodExceedsIff` | harness/circuit_breaker.py:242-317 | at the start of a period: exactly when trials are allowed, some call was in flight before and the counters let a call end without ending the period |
| `BreakerGuarantees.SealedKeepsLimit` | harness/circuit_breaker.py:258-317 | otherwise the trials stay within the limit for the whole period |
| `BreakerGuarantees.ExitEndures` | harness/circuit_breaker.py:224-317 | a call that ends without ending the period uses up one of the calls the counters endure |
| `BreakerGuarantees.TrialsCanExceedLimit` | harness/circuit_breaker.py:258-279 | a run from creation in which two trials are in flight under a limit of one |
| `BreakerGuarantees.RateTripsInEveryRun` | harness/circuit_breaker.py:167-222 | every failure-rate trip is at least a window of completed calls after the last one, enough of that window failed, and the window holds the latest outcomes since it was emptied |
| `BreakerGuarantees.TripsAmortised` | harness/circuit_breaker.py:206-215 | the i-th trip needs i windows of completed calls |
| `BreakerGuarantees.OpenHolds` | harness/circuit_breaker.py:183-204 | before the timeout since it was opened a breaker admits nothing, and late exits and repeated openings change neither state nor timer |
| `BreakerGuarantees.OpeningHolds` | harness/circuit_breaker.py:183-204 | after any run: from the very event that takes the breaker to OPEN no call is admitted until the timeout has passed, unless it is reset |
| `BreakerGuarantees.RunsKeepHistory` | harness/circuit_breaker.py:194-240 | in every run the timer counts from the event that entered the present state, and the counters are the streaks of failures and successes since the last reset |
| `BreakerGuarantees.ExitByHistory` | harness/circuit_breaker.py:267-317 | after any run, told by the outcomes alone: when the end of a call opens the breaker, closes it or trips it on its failure rate |
| `BreakerGuarantees.AdmittedByHistory` | harness/circuit_breaker.py:242-265 | after any run: which calls are admitted in each state, and when the breaker goes half-open |
| `BreakerGuarantees.OpenAdmits` | harness/circuit_breaker.py:183-192 | an open breaker admits exactly when enabled, timed out and allowed a trial at all |
| `BreakerGuarantees.SelfHealing` | harness/circuit_breaker.py:242-314 | from any open state past its timeout, sequential successes are never refused and close it after an exact number, at most the success threshold |
| `BreakerGuarantees.TrialsHeal` | harness/circuit_breaker.py:178-181 | in half-open with no slot taken, the exact number of successes still needed |
| `BreakerScopes.RestoreKeepsInvariant` | harness/circuit_breaker.py:618-652 | whatever happened inside a scope, the slot invariant survives it exactly when enough trials are still in flight and, in a clean period, nothing else is |
| `BreakerScopes.RestoreKeepsSlots` | harness/circuit_breaker.py:618-652 | in a clean half-open period: the counter is exact after the scope if and only if no trial ended inside and no call admitted inside is still in flight |
| `BreakerScopes.ExactAfterScope` | harness/circuit_breaker.py:242-279 | an exact counter stays exact for the rest of the period |
| `BreakerScopes.LimitAfterScope` | harness/circuit_breaker.py:258-317 | in a clean half-open period the limit can be exceeded after any scope exactly when more calls admitted inside are still in flight than trials ended there, and that many calls, and one more, can end without ending the period |
| `BreakerScopes.LimitAfterAnyScope` | harness/circuit_breaker.py:258-317 | the exact condition after any scope of any half-open breaker |
| `BreakerScopes.FullHalfOpenRefuses` | harness/circuit_breaker.py:258-262 | with all slots taken every call is refused and nothing changes |
| `BreakerScopes.WedgedIff` | harness/circuit_breaker.py:638-652 | a restored breaker with nothing in flight refuses every later call exactly when all slots were taken |
| `BreakerScopes.RestoreCanWedge` | harness/circuit_breaker.py:618-652 | a run from creation and a scope after which that happens |
| `Cache.SameKeyIff` | harness/cache.py:322-361 | two exchanges share a key exactly when they agree on all but header order and volatile headers |
| `Cache.CountedIsRemoved` | harness/cache.py:718-737 | the eviction counter is exact if and only if the capacity is positive or the table non-empty |
| `Cache.CrowdedOut` | harness/cache.py:718-737 | an evicted row is no newer than every survivor, and enough survivors remain |
| `Cache.Evict` | harness/cache.py:718-737 | below capacity nothing goes; at capacity the oldest rows go, one batch |
| `Cache.HitIsLatest` | harness/cache.py:364-452 | a lookup hits exactly when a store under the key is on record, not removed and without a flaw, and returns the latest one |
| `Cache.HitIff` | harness/cache.py:364-607 | in full, on the rows: the latest store answers exactly while not lost, within its time to live, by the same model and by the same prompt of every agent that had one and has one; as a hypothesis, under the same fingerprint and with nothing in it that claims proof |
| `Cache.StoreKeeps` | harness/cache.py:454-512 | a store keeps the table equal to the map of latest stores less recorded losses, and within its capacity |
| `Cache.ExchangeCache.Get` | harness/cache.py:364-452 | answer, table and statistics of a lookup, disabled, bypassed or not |
| `Cache.ExchangeCache.Put` | harness/cache.py:454-512 | what a store evicts, files and counts |
| `Cache.ExchangeCache.GetHypothesis` | harness/cache.py:516-607 | the same for hypotheses, whatever rows the table holds: a row that carries proof or confirmation authority is removed, counted, and never an answer |
| `Cache.ExchangeCache.PutHypothesis` | harness/cache.py:609-705 | anything with authority is refused, changing nothing; otherwise what is evicted, filed and counted |
| `Cache.ExchangeCache.Clear` | harness/cache.py:765-785 | both tables are emptied and the exchange counter takes the evictions of both |
| `Cache.ExchangeCache.InsertsAreConserved` | harness/cache.py:454-785 | at every point fresh inserts over both tables equal their sizes plus both eviction counters |
| `Discovery.AncestorsDistinct` | harness/api_surface_discovery.py:439-444 | the namespaces above a path are distinct and never the root |
| `Discovery.AncestorsMean` | harness/api_surface_discovery.py:439-444 | the namespaces above a path are its prefixes that end in a slash and are neither the root nor all of it |
| `Discovery.AncestorsIgnoreQuery` | harness/api_surface_discovery.py:439-444 | a query adds no namespaces |
| `Discovery.ParentMeans` | harness/api_surface_discovery.py:388-388 | the parent of a path is what comes before its last segment, its query aside |
| `Discovery.LimitsReserve` | harness/api_surface_discovery.py:531-539 | in numbers: OPTIONS mining keeps a tenth of the probes, at most 200; from 24 probes on query probing keeps another eighth, and adaptive and query probing a quarter between them; limits never shrink |
| `Discovery.SoftNoted` | harness/api_surface_discovery.py:446-451 | a soft-404 answer keeps live and dead apart and the counts exact |
| `Discovery.LiveNoted` | harness/api_surface_discovery.py:453-456 | a recorded route keeps the same invariant |
| `Discovery.SurfaceDiscovery.Raw` | harness/api_surface_discovery.py:361-371 | one probe is sent and charged if the phase has budget, none otherwise |
| `Discovery.SurfaceDiscovery.NoteSoft404` | harness/api_surface_discovery.py:446-451 | exactly the namespaces above the path that reach the threshold without a live route die |
| `Discovery.SurfaceDiscovery.NoteLive` | harness/api_surface_discovery.py:453-456 | exactly the namespaces above the path become live and are no longer dead |
| `Discovery.SurfaceDiscovery.PrefixWildcard` | harness/api_surface_discovery.py:381-408 | a candidate is a wildcard answer exactly when its namespace's controls look like it or could not be afforded; the controls are learnt once |
| `Discovery.SurfaceDiscovery.LearnControl` | harness/api_surface_discovery.py:393-402 | a control signature is kept exactly when both sibling answers have it, nothing when one is missing |
| `Discovery.SurfaceDiscovery.Check` | harness/api_surface_discovery.py:486-523 | a path is sent exactly when it is new, within budget and not a guess under a dead or wildcard namespace; otherwise nothing changes |
| `Discovery.SurfaceDiscovery.Probe` | harness/api_surface_discovery.py:504-523 | which answers are no route, which count as soft-404, and which become a route, after which no namespace above it is dead |
| `Discovery.SurfaceDiscovery.CalibrateNotFound` | harness/api_surface_discovery.py:458-484 | a soft-404 signature is learnt exactly when two random paths get the same answer that is not a not-found one |
| `Discovery.SurfaceDiscovery.LooksMissing` | harness/api_surface_discovery.py:415-484 | when calibration learns a signature, and exactly which later answers are then taken for missing pages |
| `Discovery.SurfaceDiscovery.SameSignatureIff` | harness/api_surface_discovery.py:399-407 | a candidate looks like a control exactly when status, type and fingerprint agree |
| `Discovery.SurfaceDiscovery.ProbeSpecs` | harness/api_surface_discovery.py:559-579 | the contract probe leaves room for one candidate with its controls |
| `Discovery.SurfaceDiscovery.LearnMethods` | harness/api_surface_discovery.py:650-667 | every ambiguous route is asked while there is budget and no other is, with OPTIONS only; each route then has the methods its latest answer listed, or those it had, and is otherwise unchanged |
| `Discovery.SurfaceDiscovery.Discover` | harness/api_surface_discovery.py:525-667 | for any responder and any candidates, in numbers: the sweep, adaptive and query phases stay within their limits, so that query probing and OPTIONS mining start with at least their reserve unsent; every candidate had its turn in its phase unless the phase used up its limit; only GET and then only OPTIONS are sent, and no guess goes under a namespace dead or a wildcard by then |
| `Discovery.SurfaceDiscovery.RunPhase` | harness/api_surface_discovery.py:581-648 | every candidate has its turn: unless the budget is used up a plain probe is sent, and a checked path is seen or tried save for a guess under a wildcard or under a namespace with enough soft-404 answers; every probe is a control or one of the candidates, as the guess or reference it is |
| `Discovery.SurfaceDiscovery.TakeTurn` | harness/api_surface_discovery.py:486-523 | an eligible path, or a plain probe with budget left, is sent first thing in its turn |
| `BrowserPolicy.AllowedIff` | harness/browser_driver.py:92-173 | exactly which requests are allowed, by scheme, type, scope, method, origin and gate, when credentials may go along, and what a reason for blocking says |
| `BrowserPolicy.SendKeepsClean` | harness/browser_driver.py:703-729 | a send by the loop's rules carries exactly the browser's forwardable headers, no content type once the method changed, and the identity's headers and cookies only to the run origin; to any host, the run origin's too, it carries the browser's cookies and no others than those that host set on the way |
| `BrowserPolicy.ReissuedIsIdentity` | harness/browser_driver.py:740-747 | an identity cookie is one the run started from or one its own origin re-issued |
| `BrowserPolicy.ReissuedMeans` | harness/browser_driver.py:740-747 | the identity keeps its names but those its origin deleted, with the values set last |
| `BrowserPolicy.HandedOnMeans` | harness/browser_driver.py:740-749 | a cookie is withheld from the browser exactly while its name is the identity's |
| `BrowserPolicy.FiledMeans` | harness/browser_driver.py:668-674 | in the jar of a host the last cookie of a name decides |
| `BrowserPolicy.NextCookies` | harness/browser_driver.py:668-680 | the cookies of a redirect go into the jar of the host that set them, and to the browser when it asked that host |
| `BrowserPolicy.HopKeepsChain` | harness/browser_driver.py:668-680 | following a redirect files its cookies under the host that set them and keeps the chain clean |
| `BrowserPolicy.HandedFrom` | harness/browser_driver.py:636-640 | every cookie handed to the browser was set by the host it asked |
| `BrowserPolicy.IdentityRouter.Decide` | harness/browser_driver.py:585-590 | the exact decision: a blocked request reserves nothing, an allowed one exactly one unit, and the budget blocks exactly when it is used up |
| `BrowserPolicy.IdentityRouter.Send` | harness/browser_driver.py:703-729 | what one request on the wire carries |
| `BrowserPolicy.IdentityRouter.ResponseCookies` | harness/browser_driver.py:731-749 | cookies the run origin re-issues update the identity and are not handed on |
| `BrowserPolicy.IdentityRouter.Handle` | harness/browser_driver.py:596-618 | every request put on the wire, at whichever hop, was allowed by one accounted decision of its own; a blocked request sends nothing and an allowed one is sent, at most eleven sends form one clean chain whose methods and bodies follow the statuses 301, 302, 303, 307 and 308, and the outcome is what the last answer makes of it: given up only for want of an answer, after eleven sends, or at a redirect that is not allowed, cancelled or beyond the budget |
| `BrowserPolicy.IdentityRouter.SendAndFulfill` | harness/browser_driver.py:620-681 | every further send follows the previous answer's redirect under its own accounted decision, as GET after a 303, and after a 301 or 302 to a POST without its body, otherwise with the same method and body; a navigation sends once |
| `BrowserPolicy.IdentityRouter.Answer` | harness/browser_driver.py:632-645 | an answer that does not redirect reaches the browser with the cookies its host set on the way |
| `BrowserPolicy.IdentityRouter.Follow` | harness/browser_driver.py:646-680 | a redirect goes on exactly when the next hop is allowed, within budget and not cancelled, with the method and body it allows; a navigation is handed its next address exactly when a look-ahead allows it |
| `BrowserPolicy.IdentityRouter.Goto` | harness/browser_driver.py:562-578 | a main-frame load makes at most eleven accounted, in-scope GETs |
| `Freeze.VerifyFreeze` | harness/ar10_scorer.py:116-142 | accepted exactly when every export is exactly what was frozen, and then the bytes are the frozen ones |
| `Freeze.VerifyExport` | harness/ar10_scorer.py:116-142 | the same for one export |
| `Freeze.AcceptedExportsAgree` | harness/ar10_scorer.py:116-142 | two disks that pass hold the same files, whatever names the manifest uses: a missing, changed or added file is refused |
| `Freeze.UpAndDown` | harness/ar10_scorer.py:131-133 | a name that goes up lies inside its directory only if it comes down the way it went up |
| `Freeze.Absolute` | harness/ar10_scorer.py:123-131 | an absolute name does not depend on the directory |
| `Freeze.WalkOn` | harness/ar10_scorer.py:123-131 | names are followed part by part |
| `Freeze.WalkOne` | harness/ar10_scorer.py:123-131 | an empty part and a dot stay, two dots go up as far as the root, any other part goes down |
| `Freeze.LoadManifest` | harness/ar10_scorer.py:84-113 | which manifests are taken |
| `Freeze.ManifestMeans` | harness/ar10_scorer.py:84-113 | the accepted manifests, field by field |
| `Freeze.BuildFreeze` | harness/ar10_freeze.py:31-68 | exactly which repeats are accepted, and the entries and exports made of them |
| `Freeze.RunsMean` | harness/ar10_freeze.py:34-61 | the accepted repeats, one by one |
| `Freeze.ExportMeans` | harness/ar10_freeze.py:52-66 | exactly which three files are frozen of a run |
| `Freeze.BuiltIsOk` | harness/ar10_freeze.py:64-68 | a built manifest is one the scorer takes |
| `Freeze.WriteFreeze` | harness/ar10_freeze.py:71-82 | when writing succeeds, exactly, and what is on the disk then; a refusal changes nothing |
| `Freeze.PlacedIsOk` | harness/ar10_freeze.py:77-80 | an export as written passes the seal |
| `Freeze.FreezeThenCheck` | harness/ar10_freeze.py:31-82 | accepted repeats, once written, are loaded and verified to the very bytes frozen; in a fresh directory this fails only for an id equal to the manifest name |
| `Scorer.ScoreRepeat` | harness/ar10_scorer.py:223-270 | refused exactly when a confirmed claim hits two entries or the denominator is too small; otherwise the counts of each standing |
| `Scorer.ScoreIsSound` | harness/ar10_scorer.py:232-270 | verified mechanisms never exceed confirmed claims, the standings add up to the available entries, recall lies between 0 and 1 |
| `Scorer.CreditedAtMostClaims` | harness/ar10_scorer.py:236-251 | the pigeonhole: with disjoint entries each verified claim credits at most one |
| `Scorer.CreditedCount` | harness/ar10_scorer.py:245-260 | the two credited standings together count the entries some verified claim matches |
| `Scorer.StandingsAddUp` | harness/ar10_scorer.py:243-259 | every available entry has exactly one standing |
| `Scorer.StandingMeans` | harness/ar10_scorer.py:245-259 | what each of the five standings says about the claims that fit the entry, by verdict, validator, class and route, in both directions |
| `Scorer.SameRouteIff` | harness/ar10_scorer.py:182-184 | routes agree exactly when the paths do, slashes at the end aside |
| `Scorer.CountOfMeans` | harness/ar10_scorer.py:243-259 | each count is the number of available entries of that standing |
| `Scorer.MedianHalves` | harness/ar10_scorer.py:353-353 | at least half of the values are at most any bound from the median up, at most half any bound below it |
| `Scorer.MedianIff` | harness/ar10_scorer.py:353-353 | the median is the one middle value of the repeats in order |
| `Scorer.ClearWinIsBetter` | harness/ar10_scorer.py:353-355 | an arm that beats every repeat of the other, and failed nothing hard, is better |
| `Scorer.DecisionMeans` | harness/ar10_scorer.py:345-358 | the pre-registered rule on the repeats: better exactly when the median is higher, no repeat is below the other median and nothing failed hard; worse is the mirror |
| `Scorer.DecisionIsSymmetric` | harness/ar10_scorer.py:345-358 | swapping the arms swaps better and worse |
| `Scorer.BetterIsMonotone` | harness/ar10_scorer.py:353-355 | raising candidate repeats or lowering baseline repeats never loses a better verdict |
| `Scorer.BetterMeans` | harness/ar10_scorer.py:353-355 | a better candidate failed nothing hard, and at least half of the baseline repeats are at most its worst repeat |
| `Scorer.DecisionIgnoresOrder` | harness/ar10_scorer.py:345-358 | the order of the repeats does not matter |
| `Scorer.MedianIsMonotone` | harness/ar10_scorer.py:353-353 | the median of pointwise larger values is larger |
| `Accounting.Resolve` | harness/assessment_health.py:283-323 | the known proofs, the accepted references and the refused pointers with their reasons |
| `Accounting.FindAttempts` | harness/assessment_health.py:328-332 | each pair of artifacts leads to the earliest attempt of the run that carries it |
| `Accounting.GroupProofs` | harness/assessment_health.py:333-394 | every in-run proof is an instance in id order, and each group lists its members in id order with exactly their cases and routes |
| `Accounting.Account` | harness/assessment_health.py:276-418 | the block as a whole, in terms of the resolved findings |
| `AccountingGuarantees.BlocksPass` | harness/ar10_acceptance.py:163-187 | every produced block meets the L5 criterion on proof links |
| `AccountingGuarantees.AccountAndCheck` | harness/assessment_health.py:276-418 | from findings to block: the criterion always passes, no proof is in two groups, two shown proofs share a group if and only if they are one issue, and when ids identify proofs every accepted confirmation is shown in a group |
| `AccountingGuarantees.ConfirmedAreAccounted` | harness/assessment_health.py:296-323 | every confirmed finding is referenced or excluded with its reason, and nothing else is excluded |
| `AccountingGuarantees.RefusalMeans` | harness/assessment_health.py:308-323 | why a pointer is refused, told on the first record it names |
| `AccountingGuarantees.NotFoundMeans` | harness/assessment_health.py:312-314 | not found exactly when no stored proof of the case has the id |
| `AccountingGuarantees.PoliciesMean` | harness/assessment_health.py:289-293 | the first finding that brings a policy for a proof decides |
| `AccountingGuarantees.ReferencedAreInRun` | harness/assessment_health.py:308-322 | when ids identify proofs, the recorded proof of an accepted finding belongs to the run and to its case |
| `AccountingGuarantees.GroupsPartition` | harness/assessment_health.py:333-390 | a proof is shown exactly when referenced and of the run, then in exactly one group, once |
| `AccountingGuarantees.GroupsDoNotMix` | harness/assessment_health.py:379-390 | no group mixes principal, parameter or workflow boundaries, validators or kinds |
| `AccountingGuarantees.TogetherIff` | harness/assessment_health.py:334-388 | two shown proofs are in one group if and only if kind, class, validator, origin and boundary agree and both observe the site, or go by one policy and version, or have one root cause or case |
| `AccountingGuarantees.KindMeans` | harness/assessment_health.py:339-349 | the kind of a proof, by validator and by whether its exchange is kept |
| `AccountingGuarantees.NamesCanCollide` | harness/assessment_health.py:371-378 | a root cause spelled like a case id joins a claim of that case |
| `AccountingGuarantees.VulnerabilitiesMergeOnlyByRoot` | harness/assessment_health.py:371-378 | a vulnerability group over different cases needs a recorded root cause or a known policy of a route-independent mechanism |
| `AccountingGuarantees.CasesMergeOnlyByRoot` | harness/assessment_health.py:371-388 | where no root cause is spelled like a case, claims of different cases share a group only by one root cause or one known policy |
| `AccountingGuarantees.InstanceMeans` | harness/assessment_health.py:348-357 | what an instance shows: its kind, whether its exchange is kept, whether it is referenced, and its policy |
| `AccountingGuarantees.ReusesNeverChain` | harness/assessment_health.py:328-357 | a reuse pointer leads in one step to the earliest attempt with the same artifacts, which points nowhere |
| `AccountingGuarantees.ReusesIff` | harness/assessment_health.py:328-357 | a proof is shown as a reuse exactly when another one attempted its artifacts, before it if it is an attempt itself |
| `Evidence.Index` | evaluation_integrity/evidence_audit.py:8-20 | the first record of each id, and exactly the ids held twice |
| `Evidence.Diagnose` | evaluation_integrity/evidence_audit.py:30-118 | support is the bag-based reference; the reasons, in order |
| `Evidence.AuditFindings` | evaluation_integrity/evidence_audit.py:23-128 | one diagnosis per finding, with the reference's support and the listed reasons, and the counts that follow |
| `Evidence.SupportedMeans` | evaluation_integrity/evidence_audit.py:39-102 | through the indexes: supported exactly when one record, and only one, stands behind every id on the way to good evidence |
| `Evidence.SupportSpelledOut` | evaluation_integrity/evidence_audit.py:39-102 | supported exactly when a sole confirmed, executed, recent, comparing proof of the case stands behind the claim, a sole case names the finding or none, and every artifact leaned on is sole with a good outcome |
| `Evidence.ObjectionsMean` | evaluation_integrity/evidence_audit.py:66-84 | which objections to the proof and its case are listed, on their fields |
| `Evidence.EvidenceObjectionsMean` | evaluation_integrity/evidence_audit.py:86-99 | which objections to the evidence are listed, artifact by artifact |
| `Evidence.PathFaultMeans` | evaluation_integrity/evidence_audit.py:39-64 | which fault on the way to the proof is reported |
| `Evidence.AuditTwice` | evaluation_integrity/evidence_audit.py:25-27 | shuffling proofs, cases or artifacts changes no support |
| `EvidenceOrder.ReasonsFollowOrderIff` | evaluation_integrity/evidence_audit.py:8-102 | a finding's reasons differ for some shuffle if and only if it is claimed, its path has no fault, some artifact id leaned on has good and bad records, and none has only bad ones |
| `EvidenceOrder.ReasonsIgnoreOrder` | evaluation_integrity/evidence_audit.py:39-102 | otherwise every shuffle of proofs, cases and artifacts lists the same reasons |
| `EvidenceOrder.ReasonsCanFollowOrder` | evaluation_integrity/evidence_audit.py:92-99 | where it holds, a shuffle of the artifacts alone changes them |
| `EvidenceOrder.ReasonsByOutcome` | evaluation_integrity/evidence_audit.py:39-102 | nothing but the reported bad outcome can depend on the order |
| `EvidenceOrder.AuditsCanDiffer` | evaluation_integrity/evidence_audit.py:23-128 | two whole audits of shuffled artifacts that list different reasons and the same support |
| `Evidence.OneMoreProof` | evaluation_integrity/evidence_audit.py:43-46 | a further proof costs support exactly when it takes the finding's proof id, and under a used id never gives any |
| `Evidence.OneMoreCase` | evaluation_integrity/evidence_audit.py:57-62 | the same for a further case |
| `Evidence.OneMoreArtifact` | evaluation_integrity/evidence_audit.py:86-99 | the same for a further artifact and the evidence of one proof |
| `Evidence.OneMoreArtifactNeverHelps` | evaluation_integrity/evidence_audit.py:86-102 | an artifact under a used id never makes a finding supported |
| `Evidence.SupportsAddUp` | evaluation_integrity/evidence_audit.py:120-122 | the support counts sum to the number of findings |
| `Profiles.GetOfSet` | harness/config_schema.py:366-401 | a path reads what it was set to |
| `Profiles.SetKeepsUnrelated` | harness/config_schema.py:393-401 | paths neither above nor below the one set read as before |
| `Profiles.SetWhatIsThere` | harness/config_schema.py:393-401 | setting what is there changes nothing |
| `Profiles.SetSucceedsIff` | harness/config_schema.py:393-401 | setting succeeds exactly when nothing above the path is a non-dictionary |
| `Profiles.KnobsUnrelated` | harness/config_schema.py:320-357 | no shipped knob lies above another |
| `Profiles.PassivePresetIsOff` | harness/config_schema.py:424-498 | the switches of the passive preset are exactly those it shares with the forced values, all off |
| `Profiles.ForcedOffMeans` | harness/config_schema.py:320-357 | everything the passive profile forces off, section by section |
| `Profiles.PresetsSize` | harness/config_schema.py:424-498 | how many agents, batches and validations each preset lets run, and its mode |
| `Profiles.PresetsHaveBaselines` | harness/config_schema.py:409-498 | every knob a preset sets has a shipped baseline, and a baseline switch is off |
| `Profiles.PresetsTurnOn` | harness/config_schema.py:424-498 | which presets turn active validation, mutating replay, autonomous discovery and the oracle on |
| `Profiles.ExplicitMeans` | harness/config_schema.py:551-567 | which knobs count as set by the operator, with and without provenance |
| `Profiles.ProfileNames` | harness/config_schema.py:539-539 | a profile name counts without padding and case, none is "none" |
| `Profiles.NumbersAreSwitches` | harness/config_schema.py:558-567 | without provenance a switch written 0 or 1 counts as set exactly as `false` or `true` does |
| `Profiles.ApplyPreset` | harness/config_schema.py:548-571 | succeeds exactly when every knob to be set can be, and sets those and no others |
| `Profiles.ForceOff` | harness/config_schema.py:573-593 | every listed knob is off afterwards, nothing unrelated changes |
| `Profiles.Resolve` | harness/config_schema.py:501-595 | exactly when resolution succeeds; then forced knobs are off, explicit ones keep their value, the others take the preset, unrelated paths are untouched |
| `Profiles.ResolveTwice` | harness/config_schema.py:501-595 | resolving twice is resolving once |
| `HttpSplit.SplitMessage` | harness/burp_sitemap.py:110-136 | the line by line split is the recursive one |
| `HttpSplit.SplitInvertsPrint` | harness/burp_sitemap.py:119-136 | splitting an LF or CRLF print gives back start line and headers, and the body up to CRLF folding |
| `HttpSplit.SplitPrintExactly` | harness/burp_sitemap.py:119-136 | nothing at all is lost exactly when the body has no CRLF and no header name repeats |
| `HttpSplit.LfPrintComesBack` | harness/burp_sitemap.py:122-125 | an LF print comes back exactly when its start line does not end in CR |
| `HttpSplit.TrailingCrIsLost` | harness/burp_sitemap.py:122-122 | otherwise that CR, and nothing else, is lost |
| `HttpSplit.RepeatsFoldInOrder` | harness/burp_sitemap.py:131-135 | each name ends up with its values joined in order |
| `HttpSplit.CookiesComeBack` | harness/burp_sitemap.py:132-134 | splitting the joined Set-Cookie value on LF gives back the list |
| `ActivityFeed.Feed.Publish` | harness/activity_feed.py:54-66 | the event gets the next number, and the buffer stays the end of everything published |
| `ActivityFeed.Feed.Since` | harness/activity_feed.py:68-80 | a page is the end of the log past the cursor as far as held, and accounts for everything unseen exactly when something is held or nothing is new |
| `ActivityFeed.Feed.Snapshot` | harness/activity_feed.py:82-86 | the last events held, all of them for a limit of zero |
| `ActivityFeed.Feed.Clear` | harness/activity_feed.py:88-90 | the buffer is emptied, the numbering goes on |
| `ActivityFeed.NewerIsSuffix` | harness/activity_feed.py:68-79 | the filtered events are a contiguous end of the log |
| `ActivityFeed.PollingConserves` | harness/activity_feed.py:48-90 | over every run of publishing, polling and clearing a client gets real events in order, each once, and delivered plus dropped plus silently missed is its position |
| `ActivityFeed.NothingMissed` | harness/activity_feed.py:48-80 | with room and without clearing, delivered plus dropped is the position |
| `ActivityFeed.PollAccountsWhen` | harness/activity_feed.py:68-80 | after any run, a poll accounts for everything new exactly when the buffer is non-empty or nothing is new |
| `ActivityFeed.ClientsAgree` | harness/activity_feed.py:54-80 | an event number names one event for good |
| `Chains.Detect` | harness/chaining.py:472-521 | the chains of the rules that fire, in rule order |
| `Chains.FiresWhen` | harness/chaining.py:484-491 | a rule fires, whatever the order of the findings, exactly when its tags differ and both are on the host |
| `Chains.ChainIsKept` | harness/chaining.py:484-488 | appended findings never change the two findings a chain rests on |
| `Chains.ChainsGrow` | harness/chaining.py:482-521 | the chains are those of the rules that fire, and a growing host loses none |
| `Chains.ChainIsAsSureAsItsInputs` | harness/chaining.py:464-469 | a chain's basis is its weaker input's, and it is speculative exactly when an unconfirmed input has the lowest rank |
| `Chains.SpeculativeIsLow` | harness/attribution.py:161-167 | a speculative input is an unconfirmed one of the lowest rank |
| `Chains.BasisNormal` | harness/chaining.py:468-468 | a basis counts without padding and case, none is "derived" |
| `Chains.WeakestMeans` | harness/chaining.py:464-469 | the weaker basis: guessed if either is, seen or confirmed only if both are, of equally sure ones the first |
| `Chains.PivotHints` | harness/chaining.py:404-436 | the hints, deduplicated as the code does with its set of pairs |
| `Chains.OfferedWhen` | harness/chaining.py:424-436 | exactly which goals are offered |
| `Chains.HintsDiffer` | harness/chaining.py:422-434 | no goal is offered twice under one signature |
| `Chains.FiresOrHints` | harness/chaining.py:404-491 | for a finding on one side of a rule: the rule fires with it or is hinted at, never both, unless its two tags are equal |
| `Chains.HintCompletes` | harness/chaining.py:404-491 | any later host with the finding and the hinted tag fires a rule of that signature |
| `Chains.ShippedRulesAreLive` | harness/chaining.py:46-334 | every shipped rule has two different tags |
| `Chains.ShippedSecondOrder` | harness/chaining.py:46-334 | the shipped rules over stored writes are the two kinds second-order candidates are made for |
| `Chains.ShippedFiresOrHints` | harness/chaining.py:46-334 | so on the shipped table exactly one of the two always happens |
| `Chains.SecondOrderCandidates` | harness/chaining.py:439-457 | the pairs of the nested loops, for both kinds |
| `Chains.CandidatesMean` | harness/chaining.py:439-457 | exactly the write and read findings at two different addresses |
| `Chains.CandidatesBackChains` | harness/chaining.py:439-491 | a candidate always comes with its chain, and a chain lacks candidates exactly when all its writes and reads share one address |

## Left out

- Calls to the remote model, prompts, agent selection and critique text: their behaviour lives elsewhere.
- Threads, sockets, SQLite faults, Docker and file handles: runs are fault-free sequences of steps.
- Exceptions inside `publish`, which make it return nothing, and the order in which threads take a lock.
- Log messages, statistics copies, time stamps in breaker and feed statistics, and error lists.
- Pattern detectors, content signatures and fast shape checks: tables without results across functions.
- The breaker registry, the process-wide defaults and the context-variable stack of current breakers.
- Which candidates a discovery phase derives, the ffuf fast path, and the sensitive-file verdicts.
- The router's launch arguments, the cross-site submit policy, and the exchanges offered for capture.
- Digest internals, symbolic links, canary files' contents and the criteria of the acceptance record.
- The rounding of recall to four digits, secondary diagnostics and cost figures of the scorer.
- `candidate_cases`, the insertion order of groups and the presentation fields of the accounting block.
- Unicode beyond Latin-1 white space and ASCII case, and non-string identifiers in the evidence audit.
- `flatten_explicit_keys`, keys that contain dots, and the deep copy of the configuration: trees are
  values, so that the input is not mutated is not a separate statement.
- The text of a chain's narrative and the tagging of a vulnerability class: the tagging is any function.
- BrowserPolicy.IdentityRouter.Decide: what other runs hold of the budget is one number fixed at the start.
- Discovery.SurfaceDiscovery.Discover: the phases' own order of candidates is arbitrary rather than
  derived from earlier answers.
- Evidence.Diagnose: the verdict text inside one of the reasons is not modelled, only that it is given.
