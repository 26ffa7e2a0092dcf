# Proofs about the cabinet and the scanner worker

This project models the parts of the repository where an interleaving, a crash or an odd input
decides whether the system keeps its word, and proves what those parts keep. `dafny verify
dfyconfig.toml` checks all of it.

JavaScript runs one piece of code at a time between two awaits, so a protocol here is a state
machine whose one step is that piece of code, one database statement, or the moment a call takes
effect on the other side. A call whose caller gave up may still land later, or never. Methods that
the source writes as loops or as updates in place are methods here: what each answers and leaves is
stated outright or by a specification function, and where a machine covers the same code, that is
one of its runs.

| file | what it models |
|---|---|
| `Orders.dfy` | the order state machine and the rules about its money |
| `KeyRotation.dfy` | replacing a merchant's gateway key at sign-in |
| `WooShops.dfy` | the two stores behind a WooCommerce connection, held to one specification |
| `WooShop.dfy` | reading a shop's catalogue, and what one order call came to |
| `WooWorker.dfy` | filling sales from a shop: claim, call, record, release |
| `ConnectGrants.dfy` | one-time Connect tokens and the callback that spends them |
| `Sessions.dfy` | a cookie header that carries several sessions |
| `PlainText.dfy`, `MinorUnits.dfy`, `Characters.dfy` | escaping and its way back; prices as decimals; white space |
| `OriginSemaphore.dfy`, `SafeFetch.dfy`, `SharedScan.dfy` | the scanner's semaphore, one fetch, and a whole scan of fetches |
| `BodyReader.dfy`, `SitemapCrawl.dfy`, `CheckWrites.dfy` | the truncating reader, the sitemap worklist, the progressive check writes |
| `AnalyticsOutbox.dfy`, `PartnerRateLimiter.dfy` | leased outbox rows, and one partner request every 1100 ms |

## What the results rest on, and what was found

Where the code keeps its word only under a condition, the condition is named here. Five have a
theorem that says it is the exact one (a key lock-out, a second shop order, a late partner request,
starts that bunch, rows that differ from the evaluation); the first four are said of single steps:
from any state the property keeps, a step opens the way to breaking it if and only if it is one of
those named. The others are hypotheses; that the outbox's bounds are lost without theirs, runs show.

**Orders.** No condition. Every order that can be created, sent any events at all, breaks none of the
eight rules about money, and never asks for a second charge, a second hand-over or a second debt.

**Key rotation.** Fresh keys are unique, and rows start on distinct live keys. The comment at
`apps/cabinet/src/server.ts:581-592` argues from the write's answer; but `replaceMerchantKey` also
answers `false` for a write that threw (`apps/cabinet/src/identity.ts:636-639`), and such a write may
have committed already or may still commit. The sign-in then forgets the key that is, or will be, on
the row. `LockOutExactlyWhenAWriteLies`: a lock-out can follow exactly where a write that answers
`false` moves the row, before that answer or after it.

**The order ledger.** An order is of one product, and one POST creates at most one order in the shop.
`SaleIsDoubledExactlyWhen`: a second shop order for a sale can follow exactly from a closing answer (a refusal, a 2xx that is not JSON, a 2xx that names
no order, `apps/cabinet/src/woo-shop.ts:257-281`) where the shop did create one, or from a release
that lands, late or not, between the two statements of a Postgres claim of the same orderable sale
(`apps/cabinet/src/woo-shops.ts:223-239`). Whether a 2xx names the right order does not matter to
that; it matters only to whether the number handed to the buyer is the shop's. A 2xx body that is
JSON `null`, or a body that breaks off, makes `createTheOrderInTheShop` throw rather than answer: the
claim stays and the next delivery of the sale is refused.

**Connect grants.** A token is begun once. The stores differ on a token that is already there:
Postgres refuses the insert, the memory store overwrites.

**The outbox.** One clock that never goes back, and, for the two bounds on deliveries and for
`RequestLeavesLateExactlyWhen`, claims that finish inside their two-minute lease. Where claims do not
finish, the bounds are lost altogether: attempts are
looked at only once a failure is answered (`apps/scanner-worker/src/analytics-outbox.ts:384-434`), so
a row whose workers die after each delivery is delivered again every two minutes, any number of times
to another destination and seven hundred and twenty times to a partner inside its twenty-four hours
(`DeliveriesWithoutPromptness`). In any run the deliverer is never called at or after twenty-four
hours; but it may wait for the advisory lock first. `RequestLeavesLateExactlyWhen`: even of claims
that finish in time, the request can leave at or after them, exactly where the lease was taken inside
them and runs past their end.

**The rate limiter.** `StartsBunchExactlyWhen`: two starts can come closer than 1100 ms exactly after
a session lost before its start is recorded or before its interval is over, or a wait that throws
before its interval is over.

**Check writes.** An early result is never corrected, so the rows equal the evaluation exactly when
every early result is still the evaluation's (`RowsAreTheEvaluation`).

**Plain text.** Text is any sequence of UTF-16 code units, lone surrogates included. The table of named
characters is read as an ordinary object, so `&constructor;` decodes to the text of the inherited
`Object` function; the model does the same.

## Model

| member | source | states |
|---|---|---|
| Orders.NoMoneyRuleIsEverBroken | packages/core/src/orders/money.ts:59-106 | whatever order is created and whatever events reach it, lost, repeated or out of turn, none of the eight rules about money is ever broken |
| Orders.NothingIsSpentTwice | packages/core/src/orders/walk.test.ts:26-32 | over any such life: at most one charge is out unreported and the money arrives at most once; goods and receipt go out at most once, together, and only for money that arrived; at most one debt is written down, behind a charge; a refunded order never handed goods over |
| Orders.StepKeepsRight | packages/core/src/orders/machine.ts:95-143 | every event, in every state, keeps the order in agreement with what it has had charged, reported, handed out and written down |
| Orders.MovesAreBooked | packages/core/src/orders/walk.test.ts:301-349 | what a step does to the order is what its effects do to the books |
| Orders.ReportsAreTakenExactlyWhen | packages/core/src/orders/machine.ts:1246-1277 | a report on a charge is taken if and only if a charge is out unreported, however the order has fared since; money that arrives is then on record as a purchase under way, a success or a debt |
| Orders.NobodyWaitsForEver | packages/core/src/orders/deadlines.ts:8-19 | after any life whatever, an order has a clock if and only if it waits for somebody; that clock running out is always accepted and always leaves strictly fewer waits, two at most, so no order is left hanging |
| Orders.LaterIsAnsweredLater | packages/core/src/orders/machine.ts:82-108 | "come back later" keeps its promise: any report on the charge, either way, is taken, and the very event that was put off is then answered otherwise |
| Orders.FinalForGood | packages/core/src/orders/model.ts:43-58 | delivered, refunded, failed, declined and cancelled are for good: no event moves the order, charges again or hands over again |
| KeyRotation.RowsAlwaysNameLiveKeys | apps/cabinet/src/server.ts:573-599 | in every interleaving of any number of sign-ins with crashes, refusals and late effects, unless a write that answers false moves the row: each account keeps its row, the row names a key the gateway accepts, no two rows share one, and a key a forget call is out for is on no row and in no write that could put it on one |
| KeyRotation.LockOutExactlyWhenAWriteLies | apps/cabinet/src/identity.ts:636-639 | the exact condition: from a state the claim keeps, a step opens the way to a row naming a dead key if and only if it moves the row by a write that answers false, before that answer or after it |
| KeyRotation.LockOutHappens | apps/cabinet/src/identity.ts:636-639 | for any account and any fresh key, a whole run from the start that ends so, its last step a write that threw, was answered false and commits after the fresh key is forgotten |
| KeyRotation.RetiredForGood | apps/cabinet/src/server.ts:586-592 | a key that is on no row and in no write that may still land never gets back onto a row, and once dead stays dead, in every run |
| KeyRotation.EveryLiveKeyIsAccountedFor | apps/cabinet/src/server.ts:594-599 | conservation: the live keys are exactly those on a row, in the charge of a sign-in, or left behind; no row key is either of the other two, no two sign-ins share a charge; at most one leaving is added per interrupted sign-in, and which those are |
| KeyRotation.QuietGatewayHoldsTheRowKeys | apps/cabinet/src/server.ts:640-669 | with no fault, once every sign-in is over the live keys are the row keys and what was left over before, however many raced |
| KeyRotation.StepKeepsInv | apps/cabinet/src/server.ts:640-669 | every step but a move of the row by a write that answers false keeps each responsible key live, in one role and off the rows |
| KeyRotation.RunKeepsInv | apps/cabinet/src/server.ts:640-669 | so does every honest run, and no row appears or goes |
| KeyRotation.Gateway.IssueCabinetKey | apps/cabinet/src/server.ts:641-648 | a key is made exactly where one is answered, and the keys ever made grow by it |
| KeyRotation.Gateway.ForgetCabinetKey | apps/cabinet/src/server.ts:631-638 | exactly the named key goes, and only where the gateway says so |
| KeyRotation.AccountRows.ReplaceMerchantKey | apps/cabinet/src/identity.ts:612-640 | the row moves exactly where it still held what was expected and the write got through; true only where it moved, false also where it moved and the answer was lost |
| KeyRotation.ReplaceTheKeyOf | apps/cabinet/src/server.ts:624-680 | one sign-in is a run of the machine and leaves the rows and the gateway that run leaves, whatever each of the three calls answers: no key made, nothing changed; else the row moves exactly where it still held the old key and the write got through, and the key that goes, exactly where the gateway says so, is the old one if the row is known to have moved and the new one if not; unless the write moved the row and answered false the row names a live key |
| WooShops.MemoryWooShops.BeginGrant | apps/cabinet/src/woo-shops.ts:282-284 | the held grants gain this one under its token, over any that was there |
| WooShops.MemoryWooShops.SpendGrant | apps/cabinet/src/woo-shops.ts:286-295 | the token is gone whatever it was; the grant is handed back exactly where it was held and not at its expiry |
| WooShops.MemoryWooShops.GrantFor | apps/cabinet/src/woo-shops.ts:297-310 | the account's newest grant, and of several begun at one instant the one inserted last; none exactly where the account has none |
| WooShops.MemoryWooShops.SweepGrants | apps/cabinet/src/woo-shops.ts:312-321 | exactly the grants past their expiry go, and the count is how many went |
| WooShops.Sweep | apps/cabinet/src/woo-shops.ts:314-319 | the loop leaves the unexpired entries in their order and counts the others |
| WooShops.MemoryWooShops.ClaimOrder | apps/cabinet/src/woo-shops.ts:339-349 | the one-step claim: ours exactly where there was no row, and then a row of this attempt's |
| WooShops.MemoryWooShops.RecordOrder | apps/cabinet/src/woo-shops.ts:351-356 | the number goes onto the row where there is one, and nothing else changes |
| WooShops.MemoryWooShops.ReleaseOrder | apps/cabinet/src/woo-shops.ts:358-363 | a row goes only where it carries no order |
| WooShops.PostgresWooShops.BeginGrant | apps/cabinet/src/woo-shops.ts:138-146 | an insert that refuses a token already there |
| WooShops.PostgresWooShops.SpendGrant | apps/cabinet/src/woo-shops.ts:148-162 | the same specification as the memory store's spend, from one delete that returns what it deleted |
| WooShops.PostgresWooShops.SweepGrants | apps/cabinet/src/woo-shops.ts:182-185 | the same specification as the memory store's sweep |
| WooShops.PostgresWooShops.InsertClaim | apps/cabinet/src/woo-shops.ts:223-231 | the first statement of a claim: it inserts exactly where there is no row |
| WooShops.PostgresWooShops.SelectClaim | apps/cabinet/src/woo-shops.ts:233-243 | the second: it answers from the row as it is by then |
| WooShops.PostgresWooShops.ClaimOrder | apps/cabinet/src/woo-shops.ts:223-244 | with nothing in between, the two statements answer and leave what the one-step claim does |
| WooShops.PostgresWooShops.RecordOrder | apps/cabinet/src/woo-shops.ts:246-251 | the same specification as the memory store's record, over two nullable columns |
| WooShops.PostgresWooShops.ReleaseOrder | apps/cabinet/src/woo-shops.ts:253-260 | the same specification as the memory store's release, over two nullable columns |
| WooShop.CatalogueOf | apps/cabinet/src/woo-shop.ts:94-173 | whatever the shop answers, the walk ends at the first page that stops it and says what that page says, after at most ceil(atMost / 100) + 1 requests |
| WooShop.WholeCatalogueOrNone | apps/cabinet/src/woo-shop.ts:147-172 | an unchanging catalogue of N products comes back whole and in order exactly when N is within the ceiling, and is refused otherwise; and exactly how many requests that takes |
| WooShop.ServedUpTo | apps/cabinet/src/woo-shop.ts:101-103 | n pages of a hundred are the first n hundred products |
| WooWorker.ShopIsWrittenToOnce | apps/cabinet/src/woo-worker.ts:94-148 | in every run of redeliveries, concurrent attempts and crashes with no harmful step the shop holds at most one order per sale, one attempt at most is past the claim of an orderable sale, and a sale with no row has no order and nobody who could make one |
| WooWorker.SaleIsDoubledExactlyWhen | apps/cabinet/src/woo-shops.ts:233-239 | the exact condition: from a state such runs keep, a step opens the way to a second order if and only if it is a false closing answer, or a release, landing late included, between the statements of a claim of the same orderable sale |
| WooWorker.RacesHappen | apps/cabinet/src/woo-shops.ts:233-239 | both racing releases are reached from the empty store |
| WooWorker.FalseAnswerHappens | apps/cabinet/src/woo-shop.ts:257-281 | so is a false closing answer |
| WooWorker.EveryDeliveryIsTheSame | apps/cabinet/src/woo-worker.ts:96-136 | in every such run all delivered answers for a sale, from any attempts, carry one number, the one on the row, whatever the shop names its orders |
| WooWorker.EveryDeliveryNamesTheOneOrder | apps/cabinet/src/woo-worker.ts:96-136 | and where a 2xx names the order it created, that is the number of the one order the shop holds for the sale |
| WooWorker.PlacedForGood | apps/cabinet/src/woo-shops.ts:253-260 | a row that carries an order is never released, in any run; and no harmless run rewrites it |
| WooWorker.StepKeepsInv | apps/cabinet/src/woo-worker.ts:94-148 | every single harmless step keeps the ledger, the shop and the attempts in agreement |
| WooWorker.PostgresRunIsAMemoryRun | apps/cabinet/src/woo-shops.ts:223-244 | whatever the shop answers, a run of two-statement claims in which no release of the same order falls between the two is a run of one-step claims with the same answers, ledger and shop |
| WooWorker.StepMatches | apps/cabinet/src/woo-shops.ts:223-244 | one step of the two-statement store is at most one step of the one-step store, while each claim between its statements has its row |
| WooWorker.FillFromTheShop | apps/cabinet/src/woo-worker.ts:66-165 | the reply and the ledger one delivery leaves, exactly: refused without write access; the number on the row, or a refusal where the row has none; and otherwise what the shop made of the order, with the number kept, the claim left standing, or the claim gone |
| WooWorker.AnswerTheSale | apps/cabinet/src/woo-worker.ts:123-164 | the second half: the number recorded and handed over, silence with the claim left, a refusal with the claim gone, or a throw with the claim left |
| WooWorker.TurnOnce | apps/cabinet/src/woo-worker.ts:197-237 | the turn comes to exactly what filling the sales drawn one after another comes to, each on the ledger the one before left: how many, what the gateway is told and in which order, the ledger, and where a call that throws ends it |
| WooWorker.TakeOne | apps/cabinet/src/woo-worker.ts:222-235 | one order of a turn: this order, filled on the ledger as it is, and answered unless it stays silent |
| WooWorker.FillIsARun | apps/cabinet/src/woo-worker.ts:66-165 | the reply and the ledger of one delivery are those of one attempt of the machine at that order, in which the shop creates the order it reports and no other |
| WooWorker.TurnIsARun | apps/cabinet/src/woo-worker.ts:197-237 | a turn is one run of the machine: the k-th attempt is at the k-th sale drawn, what the gateway is told is what those attempts reply, and the orders filled are all those drawn, or those up to one that throws |
| ConnectGrants.TokensAreSpentOnce | apps/cabinet/src/server.ts:464-474 | over every run a token yields at most one successful spend, of the grant begun for it, before its expiry |
| ConnectGrants.TokenWorksExactlyWhile | apps/cabinet/src/woo-shops.ts:312-321 | a spend now succeeds if and only if the token was begun, no callback has used it up, and its fifteen minutes are not over: no sweep takes a live grant |
| ConnectGrants.ConnectionsCarryTheirGrants | apps/cabinet/src/server.ts:476-486 | every connection written carries the account and the shop of a grant of its own that was begun and spent |
| ConnectGrants.PostCallback | apps/cabinet/src/server.ts:444-502 | one callback is a run of the machine; 400, 401 and 200 exactly when; a connection is written exactly on 200, with the grant's account and shop and the caller's keys |
| Sessions.ValuesIn | apps/cabinet/src/identity.ts:473-489 | every non-empty value under the cookie's name, trimmed, once each, in the order first met |
| Sessions.ValuesAreTheirs | apps/cabinet/src/identity.ts:478-487 | a value is listed if and only if some pair of the header carries it |
| Sessions.Identity.LiveOnesIn | apps/cabinet/src/identity.ts:503-514 | exactly the live sessions among those values, in order, each with its token and its person |
| Sessions.Identity.EndAll | apps/cabinet/src/identity.ts:659-661 | the loop ends exactly the sessions it was given |
| Sessions.Identity.WhoIs | apps/cabinet/src/identity.ts:642-667 | a person exactly when there are live sessions in the header and all are of one identifier, and then the person of the first; where there are several, exactly the live sessions in the header end, otherwise none |
| Sessions.Identity.SignOut | apps/cabinet/src/identity.ts:669-681 | every live session in the header ends and no other; the answer is how many values carried one |
| Sessions.OnlyLivePairsCount | apps/cabinet/src/identity.ts:463-471 | two headers whose pairs that carry a live session are the same, in the same order, give the same live sessions, the same answer and the same sessions ended, whatever else they hold |
| Sessions.PlantedValuesChangeNothing | apps/cabinet/src/identity.ts:463-471 | so text whose values are not live sessions changes nothing before a header, inside it or after it, and alone is as good as no header |
| Sessions.EndedHeaderIsNobody | apps/cabinet/src/identity.ts:653-658 | once its sessions are ended, the same header carries none and signs in nobody, and nobody else's session is gone |
| Sessions.SplitJoined | apps/cabinet/src/identity.ts:478 | splitting at the semicolons takes joined headers apart where they were joined |
| OriginSemaphore.PermitsAreExact | apps/scanner-worker/src/safe-fetch.ts:261-301 | after every sequence of acquire, abort and release, repeated or not: the count is the permits out and within the limit; anybody waiting means all are out; the queue is everyone still waiting, in order of arrival, and nobody was let past them |
| OriginSemaphore.HandOn | apps/scanner-worker/src/safe-fetch.ts:292-293 | a release with somebody waiting moves the permit to the waiter that came first and leaves the count alone |
| OriginSemaphore.AbortKeepsInv | apps/scanner-worker/src/safe-fetch.ts:273-277 | an abort takes no permit and loses none |
| OriginSemaphore.OverIsOver | apps/scanner-worker/src/safe-fetch.ts:288-291 | a waiter that aborted never gets a permit, and a permit given back is never held again by the same caller |
| OriginSemaphore.Semaphore.AcquireAt | apps/scanner-worker/src/safe-fetch.ts:267-287 | the class does what the specification says, and keeps all of the above |
| OriginSemaphore.Semaphore.AbortTicket | apps/scanner-worker/src/safe-fetch.ts:273-277 | so does the abort listener: exactly this waiter leaves the queue, and the counts stay |
| OriginSemaphore.Semaphore.ReleaseTicket | apps/scanner-worker/src/safe-fetch.ts:288-300 | so does the release closure, and called again it does nothing |
| SafeFetch.DecideMeans | apps/scanner-worker/src/safe-fetch.ts:386-410 | a turn goes on only to the http twin, once and before any redirect, or to where the policy sent a redirecting answer, five times at most, so the loop always comes nearer its end; it throws exactly where the policy does, and changes no artifact but one asked to redirect too often |
| SafeFetch.FetchSendsAtMostSeven | apps/scanner-worker/src/safe-fetch.ts:351-410 | at most seven requests, six where the address named its scheme; each paid for, never past the budget, the first to the address asked for, and each later one to its http twin or to where the redirect policy sent the answer |
| SafeFetch.RedirectingForEver | apps/scanner-worker/src/safe-fetch.ts:405-408 | a shop that redirects for ever is followed five times and then reported as past the limit |
| SafeFetch.SevenIsReached | apps/scanner-worker/src/safe-fetch.ts:388-404 | seven requests do happen |
| SharedScan.ScanStaysWithinItsBudget | apps/scanner-worker/src/scan-runner.ts:154-191 | any number of interleaved fetches on one budget and one semaphore send no more requests than the budget (18 here) and have no more in flight per origin than the limit (2 here), whatever aborts or fails; no fetch sends more than seven |
| SharedScan.EveryPermitComesBack | apps/scanner-worker/src/safe-fetch.ts:360-385 | once every fetch is over, on whichever exit, no permit is out and nobody waits |
| SharedScan.ScanRunKeeps | apps/scanner-worker/src/safe-fetch.ts:351-410 | every run keeps each live ticket in the hands of exactly one fetch, for its own origin, and every request sent paid for |
| SharedScan.RequestBudget.Consume | apps/scanner-worker/src/safe-fetch.ts:318-321 | counts up to the maximum and refuses from there on |
| SharedScan.TakeTurn | apps/scanner-worker/src/safe-fetch.ts:351-385 | one turn on a real semaphore: paid for, the permit taken and given back whether the request answers or throws, or waited for and abandoned |
| SharedScan.OneTurn | apps/scanner-worker/src/safe-fetch.ts:351-410 | and its end: over, or going on strictly nearer the end |
| SharedScan.Fetch | apps/scanner-worker/src/safe-fetch.ts:336-415 | the loop ends, leaving the budget and the semaphore of so many turns of the machine, with the outcome of the last |
| SharedScan.FetchIsAScanRun | apps/scanner-worker/src/safe-fetch.ts:351-410 | those turns are a run of the scan that touches no other fetch; once over, however it ended, the fetch holds no permit and waits for none, and the semaphore lets in what it let in before |
| SharedScan.FetchIsFetchFrom | apps/scanner-worker/src/safe-fetch.ts:351-410 | in them it sends, pays for and comes to exactly what the recursive specification says |
| BodyReader.ReadBody | apps/scanner-worker/src/safe-fetch.ts:206-228 | the body kept is the first bytes of the decoded stream up to the ceiling, its length is what is counted, truncated exactly when the stream is longer, however it is cut into chunks; a failure past the ceiling is not seen |
| SitemapCrawl.Crawl | apps/scanner-worker/src/scan-runner.ts:277-309 | the loop ends although it pushes onto its own worklist, asks for at most three addresses, none twice, in depth-first order |
| SitemapCrawl.WorklistIsDepthFirst | apps/scanner-worker/src/scan-runner.ts:280-308 | the worklist is the recursive depth-first walk, for every site and every ceiling |
| SitemapCrawl.SeenMakesNoDifference | apps/scanner-worker/src/scan-runner.ts:300-307 | leaving out children already seen changes nothing about the walk |
| CheckWrites.Attempt.OnChecksComplete | apps/scanner-worker/src/scan-job.ts:172-183 | what is written on top of what was, and what is said last, are exactly what the repository's answers make of this list; the ids noted are those of the checks that were written |
| CheckWrites.Attempt.EmitChecks | apps/scanner-worker/src/scan-runner.ts:193-204 | the same of the checks a phase completes and no earlier phase did; they count as emitted exactly where all of them are written |
| CheckWrites.Attempt.EmitEachPhase | apps/scanner-worker/src/scan-runner.ts:192-204 | the same of all the phases emit, in order, as one list: nothing is emitted past the first refusal |
| CheckWrites.Attempt.WriteTheRest | apps/scanner-worker/src/scan-job.ts:186-195 | the same of the checks of the evaluation not written yet; a refusal decides the outcome, otherwise the commit does |
| CheckWrites.Attempt.ProcessScanJob | apps/scanner-worker/src/scan-job.ts:168-262 | exactly what is written and what the job comes to: it commits if and only if the runner does not throw, every write is answered as written, and the commit goes through; otherwise the first refusal decides between skipped and failed, with exactly the checks before it written |
| CheckWrites.UpsertedMeans | apps/scanner-worker/src/scan-job.ts:172-195 | whatever the repository answers, what it writes of a list is a first part of it, all of it if and only if nothing is refused, and otherwise up to exactly the check it refuses |
| CheckWrites.EachCheckIsWrittenOnce | apps/scanner-worker/src/scan-job.ts:168-195 | where the phases and the evaluation know the same checks, a run that commits has upserted each exactly once and no other |
| CheckWrites.RowsAreTheEvaluation | apps/scanner-worker/src/scan-job.ts:186-188 | the rows are the evaluation if and only if every early result is still the evaluation's |
| AnalyticsOutbox.Repository.EarliestOf | apps/scanner-worker/src/analytics-outbox.ts:72 | the first row in claim order |
| AnalyticsOutbox.Repository.Claim | apps/scanner-worker/src/analytics-outbox.ts:64-84 | at most the limit, each once, of the rows that are due, of this worker's destinations and locked by nobody; the earliest first, and all of them where there are fewer; exactly those are leased for two minutes with one more attempt |
| AnalyticsOutbox.Repository.Report | apps/scanner-worker/src/analytics-outbox.ts:86-122 | a report changes a row only while it is in process |
| AnalyticsOutbox.Repository.RunRow | apps/scanner-worker/src/analytics-outbox.ts:383-440 | a row past its window is closed undelivered; otherwise the result decides, on the schedule clamped to the window |
| AnalyticsOutbox.ClosedForGood | apps/scanner-worker/src/analytics-outbox.ts:86-122 | delivered and dead letter are absorbing, however late a stale worker reports |
| AnalyticsOutbox.PartnerWindowIsKept | apps/scanner-worker/src/analytics-outbox.ts:384-434 | leases lost or not, no partner delivery begins at or after twenty-four hours, and every retry lies after the clock that was read and inside those hours |
| AnalyticsOutbox.PartnerIsDeliveredAtMostEightTimes | apps/scanner-worker/src/analytics-outbox.ts:421-434 | with claims that finish inside their lease: at most eight deliveries, none sooner than the schedule, none begun late, and no request later than the window by a lease |
| AnalyticsOutbox.RequestLeavesLateExactlyWhen | apps/scanner-worker/src/analytics-outbox.ts:179-186 | the request of a claim can leave at or after the twenty-four hours if and only if its lease was taken inside them and runs past their end |
| AnalyticsOutbox.LateRequestHappens | apps/scanner-worker/src/analytics-outbox.ts:179-186 | a whole prompt run from the insertion that ends in a late request |
| AnalyticsOutbox.EightAreReached | apps/scanner-worker/src/analytics-outbox.ts:16-22 | a partner that fails each time is asked eight times |
| AnalyticsOutbox.NineWouldBeTooLate | apps/scanner-worker/src/analytics-outbox.ts:15-22 | eight calls on the schedule fit the window and nine do not |
| AnalyticsOutbox.AnyRowIsDeliveredAtMostSeventeenTimes | packages/analytics/src/outbox.ts:36-39 | any row, with claims inside their lease, at most seventeen times |
| AnalyticsOutbox.DeliveriesWithoutPromptness | apps/scanner-worker/src/analytics-outbox.ts:384-434 | with workers that die after each delivery neither bound holds: runs from the insertion with any number of deliveries to another destination, and seven hundred and twenty to a partner inside its twenty-four hours |
| AnalyticsOutbox.RunOutboxCycle | apps/scanner-worker/src/analytics-outbox.ts:375-446 | exactly which rows a cycle claims and where each ends: closed undelivered past its window, otherwise handed on once and closed or put back by the result; no other row is touched, and each row goes through its machine, so rows that prompt runs have brought where they are stay such rows |
| AnalyticsOutbox.TimePasses | apps/scanner-worker/src/analytics-outbox.ts:448-460 | and they do between cycles |
| AnalyticsOutbox.LivedIsBounded | apps/scanner-worker/src/analytics-outbox.ts:375-446 | each such row of a repository has had at most seventeen deliveries, a partner's at most eight, all begun inside the window |
| PartnerRateLimiter.DeliverRateLimited | apps/scanner-worker/src/analytics-outbox.ts:167-232 | on every path, throws included: the client goes back exactly once and never with the lock, undestroyed exactly where nothing went wrong, and a finished delivery's result is what is answered |
| PartnerRateLimiter.CallIsARun | apps/scanner-worker/src/analytics-outbox.ts:167-232 | one call with nobody in between is a run of the machine: one start where it delivers and none where it does not, the lock free after it, and nothing harmful in it unless its own wait throws early |
| PartnerRateLimiter.StartsAreSpaced | apps/scanner-worker/src/analytics-outbox.ts:179-197 | across any number of workers, with no harmful step, two recorded starts are at least 1100 ms apart for every start between them; sessions lost and waits broken once the interval is over do no harm |
| PartnerRateLimiter.StartsBunchExactlyWhen | apps/scanner-worker/src/analytics-outbox.ts:179-205 | the exact condition: a step opens the way to two starts closer than that if and only if it loses a session before its start is recorded or before its interval is over, or breaks a wait before its interval is over |
| PartnerRateLimiter.HarmHappens | apps/scanner-worker/src/analytics-outbox.ts:179-205 | each of the three is reached from the start |
| MinorUnits.DecimalIsExact | apps/cabinet/src/woo-catalog.ts:82-94 | for every digit string and scale: the value times ten to the scale is the input, with exactly that many digits after the dot and at least one before, the shop's own digits after zeros |
| MinorUnits.NoPriceOtherwise | apps/cabinet/src/woo-catalog.ts:83-88 | a price comes back if and only if the input is a digit string and the scale a natural number |
| MinorUnits.DecimalTellsPricesApart | apps/cabinet/src/woo-catalog.ts:82-94 | at one scale, equal texts are equal prices |
| PlainText.EscapedIsOneSubstitution | apps/cabinet/src/html.ts:16-22 | the five replacements in sequence are one substitution, character by character, for every text |
| PlainText.EscapedIsInert | apps/cabinet/src/html.ts:16-22 | what comes out has no angle bracket and no quote |
| PlainText.EscapedIsInjective | apps/cabinet/src/html.ts:16-22 | no two texts are escaped alike |
| PlainText.DecodeUndoesEscape | apps/cabinet/src/woo-catalog.ts:191-203 | the entity pass turns an escaped text back into the text |
| PlainText.NormalisedIsItsWords | apps/cabinet/src/woo-catalog.ts:204 | collapsing and trimming white space leaves the words with one space between each two, for every text |
| PlainText.PlainTextUndoesEscaped | apps/cabinet/src/woo-catalog.ts:178-205 | `plainTextOf` of an escaped text is the text's words, for every text |

## Left out

- KeyRotation.ReplaceTheKeyOf: log lines, timeouts as such and the account without a merchant key, which returns at once.
- KeyRotation.RowsAlwaysNameLiveKeys: its condition is exact and named above; registration, a key deleted by an administrator, and the window in which a request already in flight is refused with the key that was just forgotten.
- WooWorker.FillFromTheShop: the reply's words and the log.
- WooWorker.TurnOnce: the account behind the connection and the poll are one parameter, nothing where either fails; a gateway call that throws on an answer, which ends the turn too, and the loop that starts and stops one turning worker per connected shop are left out.
- WooShops.PostgresWooShops.SpendGrant: the other grant and connection queries (`grantFor`, `connect`, `connectionOf`, `forget`, `connections`) are single statements and add nothing.
- Orders.NoMoneyRuleIsEverBroken: an order's identifier and its test flag, which nothing branches on, the words of a refusal, and the interpreter that carries effects out and sends a refused event again.
- WooShop.CatalogueOf: the shop's answer to a page is a parameter, with one outcome per way the code can read it; the default ceiling is not fixed.
- ConnectGrants.PostCallback: is proved on the memory store; the 404 of a deployment with no store is left out, and failures of the store are in the machine only. The checks on the shop's address and the screen before a grant is begun are left out.
- Sessions.Identity.WhoIs: one request is one step, so a session that ends between two reads of the same request is not modelled; the component's signature check is a function. What each session's person is may differ from session to session, even for one identifier.
- Sessions.Identity.SignOut: counts values, as the source does, so two values with one token count twice.
- OriginSemaphore.Semaphore.AcquireAt: a promise that resolves is its ticket becoming a holder at that moment.
- SharedScan.Fetch: runs with nobody in between, so a permit that is not there at once is waited for until the abort; a wait that ends in a permit is in the machine. Addresses are protocol, host and the rest; `canonicalizeTarget`, `validateRedirect`, name resolution, the address policy and the transport are parameters; headers and timeouts are left out.
- SharedScan.ScanStaysWithinItsBudget: which fetches a scan makes is left open, so it holds for any choice of them; mapping an abort or an exhausted budget to an unavailable artifact is left out.
- BodyReader.ReadBody: decompression and the UTF-8 decoding of the kept bytes.
- SitemapCrawl.Crawl: the children of an address are a function of it, since each is asked for once; parsing and the same-site rule are inside that function.
- CheckWrites.Attempt.UpsertCheck: an upsert that throws is taken to have written nothing, which only matters to runs that do not commit. A reused snapshot is a job with no phases. Heartbeats, metrics and the browser observation are left out.
- AnalyticsOutbox.Repository.Report: error codes, payload redaction and metrics.
- AnalyticsOutbox.RunOutboxCycle: runs with nobody in between and no time passing; cycles that overlap and deliveries that take time are in the one-row machine.
- PartnerRateLimiter.DeliverRateLimited: what the pool does with a destroyed connection is that its session, and so its lock, is gone.
- PlainText.PlainTextUndoesEscaped: of `plainTextOf` on text that was not escaped only the white-space pass has a result here; its three patterns are modelled in full.
- The cards made from a catalogue (`cardsFromTheShop`), product candidates, robots and sitemap parsing and check evaluation: branch tables with no property across operations.
- The gateway's store and queue, the browser observation janitor and the observer actor.
- Screens, mail, logging, configuration, SQL grants and wall-clock timing beyond the one clock named above.
