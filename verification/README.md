# Bevoac: a model of its protocols and algorithms

Bevoac scans Azure tenants for its customers. An API accepts scan requests, charges them against
monthly quotas, and hands them to workers through an outbox; an onboarding flow establishes which
Azure subscriptions a tenant may scan; scripts publish bills of materials and check the
infrastructure sources. This project models the parts of that system whose correctness depends on
interleaving, on loops, or on several functions agreeing, and proves what the rest of the system
relies on.

## How it is built

Each concurrent protocol is a state machine: one SQL statement, or one send, is one event, a
transaction's writes stay private until its commit, every statement reads the latest committed
tables, and locks disable events. A run is any list of enabled events, so the theorems hold for any
number of requests, backfills, workers, publishers, callbacks and refreshes in any order. The
services themselves are classes over mutable tables with the loops of the original; each such method
runs alone and is proved to take steps of its machine, or to compute a specified function. A theorem
about such a function, like those of `Scopes`, is about one operation at a time; where operations can
overlap, the machine's theorems say what becomes of it.

| files | subject |
|---|---|
| `Billing`, `Intake*` | plans, usage, ledger and snapshots; scan creation as concurrent transactions: quota, active limit, idempotency, settlement, prices, snapshots; `IntakeStore` holds the services |
| `Outbox`, `OutboxService`, `Delivery` | leases, retries and publication; intake and outbox composed |
| `Lockfile`, `Reachability`, `Sbom`, `SbomAgreement` | dependency resolution, the reachable packages, the bill of materials and its validator |
| `Scopes`, `Refreshes`, `Sessions`, `OnboardingService` | subscription scopes, refreshes at the same time, onboarding sessions, the service |
| `ResourceGraph`, `Tags` | paging and the tag audit |
| `Hcl`, `Braces`, `HclLaws` | the jump-ahead scanner, the brace check, and what vanishes from a text |
| `DbContext`, `Findings`, `FindingsLaws`, `FindingsReports`, `Cidr`, `NetworkGuard` | pooled connections, the findings traversal, address blocks, redirects |
| `CanonicalJson`, `CanonicalOrder`, `JsonText`, `JsonReader`, `Fingerprint` | canonical JSON, its text and a reader for it, and request fingerprints |
| `Tables`, `Text`, `TextLaws`, `Powers`, `Wrappers` | sums over tables, texts and their order, powers of two, results |

`dafny verify dfyconfig.toml` checks everything.

## Where the code falls short of what one would expect

Each of these is a theorem below, with the condition under which the expected property holds.

* The active-scan limit can be exceeded across a month change: the count spans months, the advisory
  lock is per month, and the month is read before the lock is taken (`IntakeLimit`).
* A stored snapshot can miss a settlement that commits between its sums and its commit
  (`IntakeSnapshots`).
* The backfill charges by the unit price of its own environment, which need not be the reserved one
  (`IntakePricing`).
* A publisher that outlives its ten-minute lease can turn a published event back into a failed one
  or spend more tries than allowed, and a payload can be sent again after a send that was not
  recorded (`Outbox`).
* An idempotency key that retention has taken can create a second scan (`IntakeKeys`).
* Two refreshes of one Microsoft tenant that overlap can leave both discoveries active
  (`Refreshes`).
* A completed onboarding session can end in ACTION_REQUIRED when the reply to its last commit is
  lost (`Sessions`).
* A manual scope that one refresh discovers and the next one does not is lost, because discovery
  overwrites its source (`Scopes`).
* The passing tag check can be raised on a truncated inventory, although the status is then never
  SUCCESS (`Tags`).
* A BEGIN that takes effect but fails with an error not recognised as a connection failure returns
  a client with an open transaction to the pool; a tenant id never leaks (`DbContext`).
* A package directory that is itself called node_modules makes resolution skip an enclosing
  directory (`Lockfile`).
* Two checks never fire: `remaining <= 0` in the paging loop, and the fallback at the end of
  guardedHead unless the redirect limit is negative (`ResourceGraph`, `NetworkGuard`).

## Assumptions

* Scan ids, session ids and attempt identities are fresh; a tenant's plan and the API's own
  configuration do not change during a run. Each backfill brings its own configuration.
* Unless a theorem says otherwise, publishers act on a row only inside their own lease. When the
  answer to a publisher's COMMIT is lost, its connection is lost too, so no failure is recorded then.
* SHA-256 and encodeURIComponent are arbitrary functions; where hash collisions matter, the statement
  names the two inputs.

## Model

| member | source | states |
|---|---|---|
| Billing.DeletingScansKeepsFigures | bevoac-api-enterprise/scripts/init-db.js:134 | Deleting scans leaves every month's figures as they were, because the ledger's scan reference is only set to null. |
| Billing.TotalIsSettledMoney | bevoac-api-enterprise/src/services/billing-service.js:84-96 | The month's total is the money of consumption, adjustment, credit and refund rows, whenever no consumption row is negative; reservations are not in it. |
| Billing.FoldIsColumns | bevoac-api-enterprise/src/services/billing-service.js:84-95 | One pass over the ledger gives six sums: units of consumption rows without a charge, units and money of those with a positive one, money of adjustments, of credits and refunds, and units of reservations. |
| Billing.CentsRounds | bevoac-api-enterprise/src/services/billing-service.js:39 | An amount is rounded to the nearest cent, and whole cents stay exact. |
| IntakeQuota.QuotaNeverExceeded | bevoac-api-enterprise/src/services/billing-service.js:119-140 | Over every interleaving of requests, worker steps, backfills, retention and month changes, the counted units of a metered tenant-month never exceed the plan's quota. |
| IntakeQuota.QuotaByPlan | bevoac-api-enterprise/src/services/billing-service.js:9-15 | In the fields of the configuration: over every run a Free, Standard or Business tenant's counted units stay within freeQuota, standardQuota or businessQuota. |
| IntakeQuota.QuotaSafety | bevoac-api-enterprise/src/services/billing-service.js:40-54 | The invariant behind it: who holds the advisory lock still fits after every step, and no two transactions hold the same lock. |
| IntakeQuota.OnlyCommitsAddUsage | bevoac-api-enterprise/src/services/billing-service.js:45-58 | No statement but the commit of a creation can raise a usage sum or an active count. |
| IntakeQuota.CommitFits | bevoac-api-enterprise/src/services/scan-service.js:183-262 | The commit of a draft keeps the quota, and keeps room for what every other transaction has been admitted for. |
| IntakeEffects.FinishingMovesLoad | bevoac-api-enterprise/src/services/billing-service.js:45-58 | A scan that is finished is no longer active; its units stay taken if it is done and are given back, on its side of the quota, if it failed; no other tenant or month moves. |
| IntakeEffects.StartingKeepsLoad | bevoac-api-enterprise/src/services/billing-service.js:45-58 | Starting a scan and putting it back in the queue move neither usage nor the active count. |
| IntakeEffects.CreationAddsLoad | bevoac-api-enterprise/src/services/billing-service.js:45-58 | The commit of a creation takes its units, inside the quota or beside it, and one active scan, from its own tenant and month. |
| IntakeEffects.ActivationDecides | bevoac-api-enterprise/src/services/billing-service.js:119-124 | Deactivating a tenant ends its requests at the tenant check; activating it again lets them pass. |
| IntakeLimit.ActiveLimitHolds | bevoac-api-enterprise/src/services/billing-service.js:119-125 | For a tenant none of whose requests is between its reading of the clock and the end of its transaction when a month begins, active scans never exceed the plan's active limit, whatever other tenants do. |
| IntakeLimit.RolloverAfterAdmission | bevoac-api-enterprise/src/services/billing-service.js:119-125 | Otherwise it fails: from any state with an admitted request, room for one more scan and a request that the new month admits, when nobody is writing, a month change leads to one active scan too many. |
| IntakeLimit.RolloverAfterClock | bevoac-api-enterprise/src/services/billing-service.js:119-125 | The same from any state with a request that has read the clock and holds no lock yet. |
| IntakeLimit.RolloverFromTheStart | bevoac-api-enterprise/src/services/billing-service.js:119-125 | Such states are reached: with a limit of one, two requests of a new tenant suffice. |
| IntakeKeys.IdempotentCreation | bevoac-api-enterprise/src/services/scan-service.js:162-292 | Over every interleaving in which retention spares the key and its scan, including two requests that both miss the lookup and collide on insert, successful answers to one (tenant, key) name one scan and have one fingerprint, and at most one of them is a creation. |
| IntakeKeys.ExpiredKeyCreatesAgain | bevoac-api-enterprise/src/services/scan-service.js:162-292 | Otherwise it fails: from any state in which nobody writes, once retention has taken a key, an admissible request with it creates another scan beside what it had created before. |
| IntakeEffects.RetentionTakesKeys | bevoac-api-enterprise/scripts/init-db.js:176-183 | Deleting scans takes exactly their keys along, and every other key leads where it led. |
| IntakeEffects.ExistingIsBound | bevoac-api-enterprise/src/services/scan-service.js:166-193 | The lookup finds the scan that the key's row names, if it is there and of this tenant, with the fingerprint on the row, or with the scan's own where the row has none. |
| IntakeKeys.AtomicBundle | bevoac-api-enterprise/src/services/scan-service.js:183-262 | Without retention, every scan has exactly one reservation row, exactly one idempotency row and its outbox event, all with its tenant, and no event is without a scan. |
| IntakeKeys.RefusedRequestsWriteNothing | bevoac-api-enterprise/src/services/scan-service.js:263-291 | A request that ends in a replay, a refusal, a conflict or a uniqueness failure changed no table in any of its steps. |
| IntakeKeys.KeysSafety | bevoac-api-enterprise/src/services/scan-service.js:166-193 | The invariant behind both, without retention: keys, scans, ledger and outbox of committed creations stay bound to each other, and given answers stay true. |
| IntakeLedger.SettledOnce | bevoac-api-enterprise/scripts/backfill-final-billing-state.js:152-221 | Whatever creations, workers and concurrent or repeated backfills do, a scan is RESERVED iff it has no final ledger row, CONSUMED iff exactly one consumption and no refund, REFUNDED iff the reverse; and it has one reservation. |
| IntakeLedger.RefusalsAreNeverRecorded | bevoac-api-enterprise/src/services/billing-service.js:132-136 | In every reachable state a refused request sees its own scan_blocked_quota row while no committed ledger holds one, and none of its further steps changes a table: the throw rolls the row back. |
| IntakeLedger.SettledScansAreLeftAlone | bevoac-api-enterprise/scripts/backfill-final-billing-state.js:166-184 | A settled scan is no candidate, and a backfill that still has it on its list passes over it without a write. |
| IntakeLedger.LedgerSafety | bevoac-worker-enterprise/src/services/scan-store.js:199-235 | Billing state and ledger agree after every step of every run, while row locks keep two settlements apart. |
| IntakePricing.ChargedAsReserved | bevoac-api-enterprise/scripts/backfill-final-billing-state.js:103-108 | If every backfill reads the API's unit price, a settlement has the tenant, month and units of its reservation, consumption carries the reserved amount, and a refund nothing or its negative. |
| IntakePricing.BackfillChargesByItsOwnPrice | bevoac-api-enterprise/scripts/backfill-final-billing-state.js:78-108 | Whatever prices backfills read from their environment, a held settlement carries the reserved amount if and only if the two unit prices come to the same cents for its units, or the scan is inside a quota or not on the PAYG plan. |
| IntakePricing.TotalsConserveMoney | bevoac-api-enterprise/src/services/billing-service.js:96-96 | In every reachable state the month's total is exactly the settled money of its ledger. |
| IntakeSnapshots.ClosedStaysClosed | bevoac-api-enterprise/src/services/billing-service.js:97-116 | A CLOSED snapshot is never OPEN again, over every run. |
| IntakeEffects.ClosingAMonth | bevoac-api-enterprise/src/services/billing-service.js:167-178 | Closing a completed month closes each of its snapshots and no other, changes no figure, and cannot happen twice. |
| IntakeSnapshots.SnapshotRefinesLedger | bevoac-api-enterprise/src/services/billing-service.js:80-118 | Over every run, the snapshot that a creation, a backfill or the customer's overview commits equals the fold of that tenant-month's ledger if and only if what others committed there since its sums adds up to nothing. |
| IntakeSnapshots.OnlyFiguresMatter | bevoac-api-enterprise/src/services/billing-service.js:84-95 | Step by step: sums that were right stay right if and only if the step commits no row with figures for that tenant-month. |
| IntakeSnapshots.WorkerFigures | bevoac-worker-enterprise/src/services/scan-store.js:214-228 | A worker's refund moves no figure; its consumption adds the scan's units to the included units if there is no charge, else units and charge to the PAYG columns, in the scan's month and nowhere else. |
| IntakeSnapshots.CreationFigures | bevoac-api-enterprise/src/services/scan-service.js:206-254 | A creation adds its units to the reserved units of its month, and moves no other column. |
| IntakeSnapshots.BackfillFigures | bevoac-api-enterprise/scripts/backfill-final-billing-state.js:166-214 | A backfill's consumption does the same by its own unit price; its refund gives that charge back as a credit. |
| IntakeSnapshots.SettlementCanBeMissed | bevoac-api-enterprise/src/services/billing-service.js:84-97 | From any reachable state with an admitted request and a running scan of its tenant-month, when nobody is writing, a worker's settlement can commit in between, and the stored snapshot then differs from the ledger. |
| IntakeRuns.SoloPublication | bevoac-api-enterprise/src/services/scan-service.js:206-262 | From admission to commit, a request whose key is free can always take its statements when nobody else is writing, and what it leaves is the whole bundle. |
| IntakeStore.BillingUnits | bevoac-api-enterprise/src/services/scan-service.js:157-160 | One unit per subscription for the profiles that scan subscriptions, one unit for the others, never less than one. |
| IntakeStore.SumLedger | bevoac-api-enterprise/src/services/billing-service.js:84-96 | The aggregate loop computes the six column sums of the tenant-month, and its total is the settled money when no charge is negative. |
| IntakeStore.UsageCounts | bevoac-api-enterprise/src/services/billing-service.js:45-54 | The loop computes both usage sums of the tenant-month. |
| IntakeStore.ActiveScans | bevoac-api-enterprise/src/services/billing-service.js:55-58 | The loop counts the tenant's pending and running scans of all months. |
| IntakeStore.Services.RefreshSnapshot | bevoac-api-enterprise/src/services/billing-service.js:80-118 | Each column of that snapshot is the sum over the ledger rows it is about, its total is the settled money when no charge is negative, a closed month stays closed, and no other snapshot changes. |
| IntakeStore.Services.AuthorizeScan | bevoac-api-enterprise/src/services/billing-service.js:119-140 | Past the active limit, usage plus the requested units decides against the quota that the configuration holds for the tenant's plan; PAYG is never refused and carries its charge; only a quota refusal has written, namely its refusal row and that month's snapshot, which the caller rolls back. The answer is what the machine's statements come to. |
| IntakeStore.DecidedByPlan | bevoac-api-enterprise/src/services/billing-service.js:119-140 | Plan by plan: the active limit first, then freeQuota, standardQuota or businessQuota, or the PAYG unit price. |
| IntakeStore.Services.Publish | bevoac-api-enterprise/src/services/scan-service.js:206-262 | The five inserts commit as one bundle, or a taken key leaves every table as it was. |
| IntakeStore.Services.CreateScanRequest | bevoac-api-enterprise/src/services/scan-service.js:162-292 | The answer is determined: refused targets are refused; a key that leads to a scan is replayed or conflicts by the fingerprint bound to it; otherwise the request is refused by the first check that fails, the quota being that of the tenant's plan, or created, or fails on a dangling key. A creation commits exactly its scan, reservation, key, event and snapshot, with the charge of its plan; anything else leaves every table as it was, and all of it is a run of the machine. |
| IntakeStore.Services.Recover | bevoac-api-enterprise/src/services/scan-service.js:263-291 | After a uniqueness failure the request is replayed, refused or failed exactly as the key's scan and fingerprint now say. |
| IntakeStore.KeyAnswers | bevoac-api-enterprise/src/services/scan-service.js:67-74 | A key answers for a request iff it leads to a scan: the same scan for the bound fingerprint, a conflict for any other. |
| IntakeStore.Services.CloseBillingMonth | bevoac-api-enterprise/src/services/billing-service.js:167-178 | Each of the three refusals has its exact cause; otherwise the month's snapshots are closed, as one step of the machine, and counted. |
| IntakeStore.Services.FindCandidates | bevoac-api-enterprise/scripts/backfill-final-billing-state.js:110-150 | Exactly the eligible scans, each once, up to the limit; all of them if the limit was not reached. |
| IntakeStore.CandidateIsRead | bevoac-api-enterprise/scripts/backfill-final-billing-state.js:110-150 | Eligible are exactly the reserved scans that are done, or failed if asked for, without a final ledger row; a candidate shows its scan's columns and its tenant's plan. |
| IntakeStore.Services.ApplyCandidate | bevoac-api-enterprise/scripts/backfill-final-billing-state.js:152-221 | The three writes of a settlement together, or nothing if the row has changed since. |
| IntakeStore.Services.RunBackfill | bevoac-api-enterprise/scripts/backfill-final-billing-state.js:223-260 | The ledger grows by one settlement row per candidate, in order, and its earlier rows stay; only the candidates' billing states and their months' snapshots move, and those snapshots show the ledger; it stops at an unknown plan; below its limit nothing eligible is left. |
| IntakeEffects.UnknownPlanEndsTheRun | bevoac-api-enterprise/scripts/backfill-final-billing-state.js:152-157 | In the machine too, a plan that the backfill does not know ends its run before it has written anything for that scan. |
| IntakeStore.SettlingOneCandidate | bevoac-api-enterprise/scripts/backfill-final-billing-state.js:166-214 | Settling one scan appends its settlement row to the ledger, changes that scan's billing state and its month's snapshot only, and leaves every scan consistent with the ledger. |
| Outbox.Exclusive | bevoac-api-enterprise/src/services/outbox-service.js:37-63 | With publishers that act inside their lease, no event is in the hands of two, and a held row is marked with its holder's claim. |
| Outbox.PublishedWasSent | bevoac-api-enterprise/src/services/outbox-service.js:65-84 | PUBLISHED implies the payload was accepted by the bus before, whether or not leases are kept. |
| Outbox.AttemptsAreBounded | bevoac-api-enterprise/src/services/outbox-service.js:44-51 | With publishers that act inside their lease, attempts never pass the maximum. |
| Outbox.LatePublisherOverspends | bevoac-api-enterprise/src/services/outbox-service.js:44-84 | Without that they can: from any state, two publishers can use up two tries of a row that had one left. |
| Outbox.PublishedIsFinal | bevoac-api-enterprise/src/services/outbox-service.js:20-35 | With publishers that act inside their lease, a row that has become PUBLISHED never changes again, over every run. |
| Outbox.PublishedCanChange | bevoac-api-enterprise/src/services/outbox-service.js:65-84 | In every state, a PUBLISHED row can change along some run if and only if some publisher still has it on its list, inside its lease where leases are kept. |
| Outbox.WorkIsBounded | bevoac-api-enterprise/src/services/outbox-service.js:86-131 | N events need at most N * maxAttempts recorded tries, over any run. |
| Outbox.SendsAreAccountedFor | bevoac-api-enterprise/src/services/outbox-service.js:97-122 | Over any run, sends of a payload and failures recorded without one equal the recorded tries, the sends in flight and the endings left unrecorded. |
| Outbox.SendsAreBounded | bevoac-api-enterprise/src/services/outbox-service.js:97-122 | So a payload is sent at most once per recorded try, send in flight and unrecorded ending. |
| Outbox.BackoffGrowsToCap | bevoac-api-enterprise/src/services/outbox-service.js:79 | The delay of a failed row never shrinks with its attempts, never exceeds 3600 s, and reaches that cap. |
| Outbox.FailedRowWaits | bevoac-api-enterprise/src/services/outbox-service.js:44-80 | A row that failed after k failures can be claimed again exactly from min(3600, base * 2^k) seconds later on, while tries remain. |
| Outbox.TriesLieApart | bevoac-api-enterprise/src/services/outbox-service.js:44-84 | Over every run with publishers inside their lease, after a recorded failure nobody sends that event or records anything of it before its delay is over. |
| Outbox.ClaimExpires | bevoac-api-enterprise/src/services/outbox-service.js:46-51 | A row just claimed can be claimed again exactly after more than ten minutes. |
| Outbox.ClaimKeepsOthersOut | bevoac-api-enterprise/src/services/outbox-service.js:37-63 | Over every run, late publishers and crashes included: while nobody records how a try ended, a claim keeps every other claim away from the row for ten minutes. |
| Outbox.LatePublisherUnpublishes | bevoac-api-enterprise/src/services/outbox-service.js:37-84 | From any state, whatever row can be claimed, a publisher that outlives its lease can turn it from PUBLISHED back into FAILED. |
| Outbox.TriesAreCounted | bevoac-api-enterprise/src/services/outbox-service.js:72-84 | Over any run the recorded tries equal the attempts in the table plus its published rows. |
| OutboxService.OutboxTable.Enqueue | bevoac-api-enterprise/src/services/outbox-service.js:20-35 | A new row starts without attempts; an unpublished one becomes pending again at once and keeps its attempts; a published one is left alone, as are all other rows. |
| OutboxService.OutboxTable.ClaimPending | bevoac-api-enterprise/src/services/outbox-service.js:37-63 | The claimed rows are distinct, were claimable and oldest first, there are no fewer than the limit while one is left, and each is marked with the time of the claim and otherwise as it was. |
| OutboxService.OutboxTable.PublishBatch | bevoac-api-enterprise/src/services/outbox-service.js:97-122 | Every claimed row is tried once, with any of the outcomes of a send and its recording; the bus received exactly the accepted ones, in order, also those whose row was then marked as failed or not at all. |
| OutboxService.OutboxTable.PublishPending | bevoac-api-enterprise/src/services/outbox-service.js:86-131 | The oldest claimable rows up to the limit are claimed and tried, none is left out below it, and the pass is a run of the machine; each row is left as its try ended, column by column, and a failed one is claimable exactly when its delay is over and tries remain; published counts and lists the acknowledged rows only, and every other claimed row counts as failed. |
| Delivery.NoPhantomAndNoLostMessages | bevoac-api-enterprise/src/services/scan-service.js:255-256 | Intake and publishers together, without retention: every message sent belongs to a committed scan, every committed scan has its event with its own tenant and id, and PUBLISHED means sent. |
| Lockfile.CandidatePaths | scripts/ci/generate-cyclonedx-from-lock.js:26-37 | The loop yields the candidates of every directory it cuts to, each shorter than the one before, so none repeats. |
| Lockfile.AllEnclosingTried | scripts/ci/generate-cyclonedx-from-lock.js:26-37 | Every enclosing directory is tried if and only if no directory on the way is itself called node_modules. |
| Lockfile.OnlyEnclosingTried | scripts/ci/generate-cyclonedx-from-lock.js:26-37 | Nothing is tried but the package itself, its enclosing packages and the root. |
| Lockfile.ResolvesDeepest | scripts/ci/generate-cyclonedx-from-lock.js:39-41 | Where every enclosing directory is tried, resolution picks the deepest enclosing node_modules that has the package, and fails iff none has it. |
| Reachability.ReachablePackages | scripts/ci/generate-cyclonedx-from-lock.js:49-78 | The worklist ends with the least set that holds the root and is closed under resolved dependencies; it throws exactly when a reachable package has an unresolvable requirement. |
| Reachability.Follow | scripts/ci/generate-cyclonedx-from-lock.js:53-76 | One pass over the names of a package: strict for dependencies, forgiving for peers; whatever is new is both found and queued. |
| Reachability.OmittingDev | scripts/ci/generate-cyclonedx-from-lock.js:43-48 | Without dev dependencies everything reached is reached with them, and nothing fails that did not fail before. |
| Sbom.Generate | scripts/ci/generate-cyclonedx-from-lock.js:148-206 | One component per reachable package and one graph entry with exactly its edges, both in order, under a root reference made of the project's name and version; and each way of failing has its exact cause. |
| SbomAgreement.RequirementIsPrinted | scripts/ci/generate-cyclonedx-from-lock.js:123-146 | Every requirement called n of a reachable package that resolves appears as a component named n, with the version, package URL, reference and flags of what it resolved to. |
| SbomAgreement.NamedAfterLastDirectory | scripts/ci/generate-cyclonedx-from-lock.js:80-84 | A component whose path ends in node_modules/ and a name without such a directory in it has that name. |
| SbomAgreement.ResolvedIsNamed | scripts/ci/generate-cyclonedx-from-lock.js:26-41 | Whatever path a requirement called n resolves to, the package there is called n. |
| SbomAgreement.PurlOf | scripts/ci/generate-cyclonedx-from-lock.js:86-94 | The package URL encodes scope and local part of @scope/local apart, any other name as a whole, and a name with an @ but no slash as indexOf's -1 cuts it. |
| Sbom.DependsOn | scripts/ci/generate-cyclonedx-from-lock.js:161-176 | The sorted list is exactly the references of the packages that the key's names resolve to. |
| Sbom.Validate | scripts/ci/validate-cyclonedx-sbom.js:13-41 | The loops accept a document if and only if it is structurally valid; accepted components have a reference, a name, a version and a package URL, and the serial number is urn:uuid: with 36 hexadecimal digits and hyphens in either case. |
| Sbom.ValidateAll | scripts/ci/validate-cyclonedx-sbom.js:12-46 | All files pass iff each is valid, and the printed total is the number of their components. |
| SbomAgreement.GeneratedIsValid | scripts/ci/validate-cyclonedx-sbom.js:13-41 | What the generator prints is accepted if and only if every package has a name and a version and no two share a reference; the root's reference never collides. |
| SbomAgreement.ComponentsAreTheClosure | scripts/ci/generate-cyclonedx-from-lock.js:159-177 | Reading only the printed document, its components are exactly what the root reaches through dependsOn. |
| SbomAgreement.RefsDiffer | scripts/ci/generate-cyclonedx-from-lock.js:96-99 | Two packages share a reference if and only if path and version are equal or the hash collides on the two inputs, provided paths hold no NUL. |
| SbomAgreement.SerialIsAUuid | scripts/ci/generate-cyclonedx-from-lock.js:101-107 | The serial number has the layout, version and variant of a name-based UUID. |
| SbomAgreement.UuidShowsTheHash | scripts/ci/generate-cyclonedx-from-lock.js:101-107 | But for the version digit and two variant bits it shows the first sixteen bytes of the hash in order. |
| SbomAgreement.SameContentSameBom | scripts/ci/generate-cyclonedx-from-lock.js:148-206 | Reproducible: lockfiles that differ only in the order of their dependency lists print the same document but for the serial number, which is the same if and only if the texts hash to the same UUID. |
| Scopes.RefreshIsExact | bevoac-api-enterprise/src/services/azure-onboarding-service.js:910-957 | After a refresh that runs alone, the active consented subscriptions of that (tenant, Microsoft tenant) are exactly the discovered ones; other tenants, other Microsoft tenants, the tenant scope and undiscovered manual scopes are as before. |
| Scopes.RefreshIsIdempotent | bevoac-api-enterprise/src/services/azure-onboarding-service.js:910-957 | A second refresh with the same discovery, for whatever session, changes nothing but timestamps and the session noted with what it discovered. |
| Scopes.ReconciledAt | bevoac-api-enterprise/src/services/azure-onboarding-service.js:593-718 | Every row of the table after mark-stale-then-upsert; a subscription listed twice keeps its last mention. |
| Scopes.RefreshThenAuthorize | bevoac-api-enterprise/src/lib/target-authorization.js:42-60 | After a refresh, authorisation for that Microsoft tenant grants the discovered subscriptions and the other verified ones, sorted and without repetition; it refuses iff there are none. |
| Scopes.ManualScopeCanBeLost | bevoac-api-enterprise/src/services/azure-onboarding-service.js:910-957 | A manual registration survives two refreshes if and only if the first did not discover it or the second did. |
| Scopes.AuthorizedSubscriptions | bevoac-api-enterprise/src/lib/target-authorization.js:42-60 | Each error has its exact cause, in the order of the checks, and a grant is all rows of one Microsoft tenant that pass the filters. |
| Scopes.ResolveAuthorizedSubscriptions | bevoac-api-enterprise/src/lib/target-authorization.js:42-60 | Malformed identifiers are refused, and letter case does not matter. |
| Scopes.AnswersByColumns | bevoac-api-enterprise/src/lib/target-authorization.js:46-59 | Column by column: granted are exactly the active VERIFIED rows of the tenant that pass both filters, NoneVerified means that there is none, and the missing identifiers are those without one. |
| Scopes.AuthorizedTenant | bevoac-api-enterprise/src/lib/target-authorization.js:32-41 | One Microsoft tenant with an active, consented or verified scope, or the reason why there is not exactly one. |
| Scopes.TenantRowByColumns | bevoac-api-enterprise/src/lib/target-authorization.js:36-37 | Column by column: an active row without a subscription, CONSENTED or VERIFIED, in the Microsoft tenant asked for. |
| TextLaws.NormalizedForgetsPaddingAndCase | bevoac-api-enterprise/src/lib/target-authorization.js:4-9 | White space around an identifier and its letter case change neither whether it is accepted nor what it becomes. |
| TextLaws.TrimRemovesPadding | bevoac-api-enterprise/src/lib/target-authorization.js:5 | Trimming removes exactly the white space of ECMAScript around a text. |
| TextLaws.UuidByGroups | bevoac-api-enterprise/src/lib/target-authorization.js:6 | Groups of 8, 4, 4, 4 and 12 hexadecimal digits, with version 1 to 5 and variant 8 to b, and nothing else. |
| TextLaws.UuidIsNormal | bevoac-api-enterprise/src/lib/target-authorization.js:4-9 | An identifier in normal form is its own normal form. |
| Refreshes.ExactUnlessOverlooked | bevoac-api-enterprise/src/services/azure-onboarding-service.js:910-957 | Over every interleaving of refreshes and manual registrations, a committing refresh leaves exactly its discovery active if and only if no subscription is active that it neither discovered nor saw when its UPDATE began. |
| Refreshes.ExactUnlessOvertaken | bevoac-api-enterprise/src/services/azure-onboarding-service.js:910-957 | It is exact whenever no other refresh of the same Microsoft tenant commits between its UPDATE and its COMMIT. |
| Refreshes.MixedIsActive | bevoac-api-enterprise/src/services/azure-onboarding-service.js:910-957 | When one refresh commits after the other's UPDATE has begun, what stays active is the second discovery and those of the first whose rows are new. |
| Refreshes.RefreshesMix | bevoac-api-enterprise/src/services/azure-onboarding-service.js:910-957 | Any two refreshes of one Microsoft tenant, from any table, have a run that ends with that mixed table. |
| Refreshes.AloneIsReconciled | bevoac-api-enterprise/src/services/azure-onboarding-service.js:907-957 | The statements of a refresh that runs alone leave the reconciled table. |
| Refreshes.CreationTimesStand | bevoac-api-enterprise/src/services/azure-onboarding-service.js:593-718 | No interleaving loses a row or changes its creation time. |
| Refreshes.AbortReleases | bevoac-api-enterprise/src/services/azure-onboarding-service.js:907-957 | A refresh that is aborted leaves the table as it is and its rows free for everybody. |
| Sessions.OneVerifier | bevoac-api-enterprise/src/services/azure-onboarding-service.js:321-478 | Over every interleaving at most one callback of a session reaches verification, and it lists subscriptions once. |
| Sessions.CompletedMeansFound | bevoac-api-enterprise/src/services/azure-onboarding-service.js:960-1015 | COMPLETED implies a non-empty discovery whose size is the recorded count. |
| Sessions.HistoryIsAPath | bevoac-api-enterprise/scripts/expire-onboarding-sessions.js:12-16 | A session leaves STARTED at most once and follows the documented diagram, but for one detour. |
| Sessions.FollowsTheDiagram | bevoac-api-enterprise/src/services/azure-onboarding-service.js:321-478 | When no storing commit is reported as failed although it took effect, every history is a path of the diagram. |
| Sessions.ExpiredMeansLate | bevoac-api-enterprise/scripts/expire-onboarding-sessions.js:12-16 | Over every run, a session that has become EXPIRED was swept after its time. |
| Sessions.DowngradeNeedsALostReply | bevoac-api-enterprise/src/services/azure-onboarding-service.js:1020-1078 | A completed session changes exactly when its own callback recovers, and then its commit had taken effect. |
| Sessions.LostReplyDowngrades | bevoac-api-enterprise/src/services/azure-onboarding-service.js:1020-1078 | A run in which a lost reply turns COMPLETED into ACTION_REQUIRED, with the count left in place. |
| OnboardingService.ConsentAuthorizesTenant | bevoac-api-enterprise/src/services/azure-onboarding-service.js:436-451 | Consent authorises the Microsoft tenant, and neither that nor any refresh touches the authorisation of another. |
| OnboardingService.IntegrationTellsTheResult | bevoac-api-enterprise/src/services/azure-onboarding-service.js:960-1055 | The integration says ACTIVE, without a failure, exactly for an acknowledged non-empty discovery, and then holds its size; any other result asks for roles; the time of verification is new and that of the first consent stays. |
| OnboardingService.FirstConsentStands | bevoac-api-enterprise/src/services/azure-onboarding-service.js:532-591 | Over any sequence of consents and refresh results an integration keeps the time of its first consent, and results alone create none. |
| OnboardingService.Onboarding.StoreDiscovery | bevoac-api-enterprise/src/services/azure-onboarding-service.js:907-1018 | Scopes, integration and session change together or not at all, as two steps of the session machine. |
| OnboardingService.Onboarding.RecoverSession | bevoac-api-enterprise/src/services/azure-onboarding-service.js:1020-1078 | The catch block's transaction is one step of the session machine. |
| OnboardingService.Onboarding.Reconcile | bevoac-api-enterprise/src/services/azure-onboarding-service.js:910-957 | The update and the loop of upserts leave the reconciled table. |
| OnboardingService.Onboarding.RefreshForSession | bevoac-api-enterprise/src/services/azure-onboarding-service.js:898-1089 | Success or recovery, the tables and the session are those of a run of the session machine. |
| OnboardingService.Onboarding.ReverifyTenant | bevoac-api-enterprise/src/services/azure-onboarding-service.js:1190-1232 | Unknown integrations are refused; otherwise scopes are reconciled, and the integration row says ACTIVE only for a non-empty discovery. |
| OnboardingService.Onboarding.ConsentTransaction | bevoac-api-enterprise/src/services/azure-onboarding-service.js:321-478 | The first transaction of a callback is two steps of the session machine. |
| OnboardingService.Onboarding.HandleCallback | bevoac-api-enterprise/src/services/azure-onboarding-service.js:267-530 | A callback is a run of the session machine; success is reported iff an open session got consent and a non-empty discovery was stored with acknowledgement, and means COMPLETED with that count; action needed iff an empty one was, or the recovery was acknowledged instead. |
| ResourceGraph.LimitsOf | bevoac-worker-enterprise/src/lib/resource-graph.js:26-52 | An option within the service's bounds is used as given, else a configured value within them, else 1000 rows a page, 100000 rows and 250 pages. |
| ResourceGraph.RunQuery | bevoac-worker-enterprise/src/lib/resource-graph.js:53-127 | At most maxPages calls; the rows are the first maxRows of all pages; not truncated iff nothing was cut and the last page had no token; the repeated-token error iff a token came back. |
| ResourceGraph.NoPageTwice | bevoac-worker-enterprise/src/lib/resource-graph.js:108-113 | If a token determines the next token, a result whose last page was not cut holds no page twice. |
| ResourceGraph.NoPageTwiceFromTheStart | bevoac-worker-enterprise/src/lib/resource-graph.js:108-113 | Without an initial token no page is asked for twice, whatever the service does. |
| Tags.ModuleResult.Record | bevoac-worker-enterprise/src/lib/resource-graph-evidence.js:3-19 | A truncated query always leaves a partial error behind. |
| Tags.ModuleResult.Classify | bevoac-worker-enterprise/scanners/azure/tags.js:71-90 | The loop files every resource as untagged, incompletely tagged, or neither. |
| Tags.ModuleResult.Audit | bevoac-worker-enterprise/scanners/azure/tags.js:17-185 | FAILED iff the inputs, the query or an abort fail; otherwise PARTIAL iff truncated, so a truncated query never reports SUCCESS; the checks follow from the rows. |
| Tags.Partition | bevoac-worker-enterprise/scanners/azure/tags.js:71-90 | Every resource is counted exactly once. |
| Tags.CompliantByTags | bevoac-worker-enterprise/scanners/azure/tags.js:74-87 | A resource is compliant iff it has an environment tag and an owner tag, in any letter case. |
| Tags.PassingMeansCompliant | bevoac-worker-enterprise/scanners/azure/tags.js:128-146 | The passing check is raised iff there are rows and all carry the mandatory tags. |
| Tags.SuccessCoversEveryPage | bevoac-worker-enterprise/scanners/azure/tags.js:67-95 | A successful audit that passes vouches for every row of every page, and the service had no more. |
| Tags.TruncatedMayHideResources | bevoac-worker-enterprise/scanners/azure/tags.js:128-146 | When the first page is cut, whatever the limits, the passing check depends on its first maxRows rows alone and can stand beside any other resources. |
| Hcl.Strip | scripts/ci/terraform-static-reference-check.py:29-120 | Always ends, and newlines aside its output is exactly the characters that a one-character-at-a-time lexer leaves in the code state. |
| Hcl.SkipBody | scripts/ci/terraform-static-reference-check.py:40-52 | Jumping over a heredoc line equals reading it character by character. |
| Hcl.SkipBlock | scripts/ci/terraform-static-reference-check.py:54-62 | Jumping to the end of a block comment equals reading up to it. |
| Hcl.SkipLine | scripts/ci/terraform-static-reference-check.py:89-104 | Jumping to the end of a line equals reading up to it. |
| HclLaws.HeredocVanishes | scripts/ci/terraform-static-reference-check.py:40-114 | For every identifier, with or without a dash and white space before it, and all lines none of which is the identifier once stripped: behind a text that ends in code, the header line, those lines and the closing line leave nothing, and the code goes on behind them. |
| HclLaws.HeredocKeepsVerdict | scripts/ci/terraform-static-reference-check.py:156-169 | So the braces in a heredoc never change what the check says of a file, and those behind its closing line do as they would without it. |
| HclLaws.LineCommentVanishes | scripts/ci/terraform-static-reference-check.py:87-102 | A comment after # or // vanishes up to the end of its line. |
| HclLaws.BlockCommentVanishes | scripts/ci/terraform-static-reference-check.py:54-86 | A block comment vanishes, line breaks and all, up to its first closer. |
| HclLaws.StringVanishes | scripts/ci/terraform-static-reference-check.py:67-82 | A string vanishes whatever openers, braces or escaped quotes it holds. |
| HclLaws.CodeIsKept | scripts/ci/terraform-static-reference-check.py:29-120 | A text in which nothing opens stays as it is. |
| HclLaws.SpaceIs | scripts/ci/terraform-static-reference-check.py:48 | White space is what Python's str.isspace takes for it. |
| Braces.CheckBraces | scripts/ci/terraform-static-reference-check.py:158-169 | Accepted iff balanced; an unexpected closing brace iff the depth ever falls below zero; otherwise the reported balance is the depth. |
| Braces.CheckFile | scripts/ci/terraform-static-reference-check.py:156-169 | A file passes iff the braces of its code are balanced. |
| Braces.BalancedIsNested | scripts/ci/terraform-static-reference-check.py:158-169 | Balanced texts are exactly the properly nested ones. |
| DbContext.Client.WithTransaction | bevoac-api-enterprise/src/lib/db-context.js:58-85 | A result only after COMMIT succeeded, else the first failure; one release; the connection is destroyed iff that failure looks like a lost connection or the rollback of a begun transaction failed; no tenant id is left; an open transaction goes back to the pool iff BEGIN took effect but failed with an error not taken for a lost connection, and then it does. |
| DbContext.ConnectionFailures | bevoac-api-enterprise/src/lib/db-context.js:5-15 | Lost connections are exactly the listed codes and everything of class 08, in any letter case. |
| DbContext.Client.WithTenantTransaction | bevoac-api-enterprise/src/lib/db-context.js:94-100 | The same for tenant transactions; an invalid tenant id takes no connection. |
| DbContext.Client.TenantBody | bevoac-api-enterprise/src/lib/db-context.js:24-27 | The tenant id is set inside the transaction only, before the caller's function runs. |
| DbContext.Client.Serve | bevoac-api-enterprise/src/lib/db-context.js:87-100 | One borrower after another finds a clean connection, as long as no BEGIN is lost, up to the first use that destroys it. |
| Findings.CollectFindings | bevoac-api-enterprise/src/lib/findings-collector.js:39-69 | The recursive visits with their shared list and set compute the specified traversal, on every graph. |
| Findings.Collector.VisitValue | bevoac-api-enterprise/src/lib/findings-collector.js:45-67 | One visit is one step of the state-passing traversal. |
| FindingsLaws.CappedIsPrefix | bevoac-api-enterprise/src/lib/findings-collector.js:45-67 | On every graph the capped result is the beginning of the uncapped one. |
| FindingsLaws.TreeIsPreorder | bevoac-api-enterprise/src/lib/findings-collector.js:39-69 | Where no object is met twice, the result is the first maxFindings of the findings-first preorder list within maxDepth. |
| FindingsLaws.EachObjectOnce | bevoac-api-enterprise/src/lib/findings-collector.js:53-59 | On shared and cyclic graphs each object is reported at most once, and only findings are. |
| FindingsReports.FindingsAreWhereTheySay | bevoac-api-enterprise/src/lib/findings-collector.js:45-67 | On every graph, the path of a finding leads from the root through children to an object that looks like a finding, past no other finding and within maxDepth, and the report is that object's. |
| FindingsReports.FindingsByFields | bevoac-api-enterprise/src/lib/findings-collector.js:28-37 | An object is a finding iff it has a severity and a title, controlId, resourceId, recommendation or remediation. |
| FindingsReports.ListedFirst | bevoac-api-enterprise/src/lib/findings-collector.js:48-63 | The i-th element of a findings array is visited i-th, under its index, before all other fields. |
| FindingsReports.FieldInPlace | bevoac-api-enterprise/src/lib/findings-collector.js:65-68 | Every other field that holds an object or array is visited in its place, under its name. |
| FindingsReports.ReportSays | bevoac-api-enterprise/src/lib/findings-collector.js:57 | A report takes severity and status from the fields of these names, and says UNKNOWN where there is none. |
| FindingsReports.LabelsForgetPaddingAndCase | bevoac-api-enterprise/src/lib/findings-collector.js:19-26 | White space around a severity or status and its letter case make no difference. |
| FindingsReports.SeverityIs | bevoac-api-enterprise/src/lib/findings-collector.js:19-22 | A severity is one of the listed ones, and UNKNOWN otherwise. |
| FindingsReports.StatusIs | bevoac-api-enterprise/src/lib/findings-collector.js:24-26 | A status is the trimmed text in capitals, and UNKNOWN iff there is nothing in it. |
| FindingsLaws.SummarizeFindings | bevoac-api-enterprise/src/lib/findings-collector.js:75-85 | Severity counts and status counts are right one by one, and each table adds up to the number of findings. |
| Cidr.Ipv4ToIntIsValue | bevoac-worker-enterprise/src/lib/network-guard.js:30-34 | Under 32-bit shifts the fold over the octets is the base-256 value, also beyond 2^31. |
| Cidr.MaskIs | bevoac-worker-enterprise/src/lib/network-guard.js:36-37 | The shifted mask is 2^32 - 2^(32-prefix), for every prefix from 0 to 32. |
| Cidr.InCidrIsBlock | bevoac-worker-enterprise/src/lib/network-guard.js:36-39 | An address matches iff it lies in the block of 2^(32-prefix) addresses that holds the base. |
| Cidr.BlockedIsUnion | bevoac-worker-enterprise/src/lib/network-guard.js:41-44 | The blocked addresses are a union of intervals and one single address. |
| NetworkGuard.GuardedHead | bevoac-worker-enterprise/src/lib/network-guard.js:270-299 | At most maxRedirects + 1 targets, each validated at its own step for the URL the redirects had led to; the answer is that of HEAD, or of GET if HEAD failed, and no redirect with a location; an error means that both failed or that one redirect too many came; the final fallback is reached iff maxRedirects is negative. |
| NetworkGuard.RedirectsAreFollowed | bevoac-worker-enterprise/src/lib/network-guard.js:278-296 | Each further target is validated for exactly the URL that the answer before it redirects to. |
| CanonicalJson.CanonForgetsOrderOnly | bevoac-api-enterprise/src/lib/canonical-json.js:5-14 | Two values have the same canonical form iff they mean the same with unordered objects. |
| CanonicalJson.CanonIsIdempotent | bevoac-api-enterprise/src/lib/canonical-json.js:5-14 | Canonicalising twice is canonicalising once. |
| CanonicalJson.CanonIsCanonical | bevoac-api-enterprise/src/lib/canonical-json.js:5-14 | The result is ordered throughout, has no undefined left, and means what the value meant. |
| CanonicalOrder.IndicesAre | bevoac-api-enterprise/src/lib/canonical-json.js:8-10 | The names that JavaScript lists first are the decimal forms of 0 to 2^32 - 2. |
| CanonicalOrder.OrderOfNames | bevoac-api-enterprise/src/lib/canonical-json.js:8-10 | These come by value, before all other names, which come by their characters. |
| JsonText.PrintPrefix | bevoac-api-enterprise/src/lib/canonical-json.js:16-22 | Texts of canonical values are self-delimiting: a value and what follows it can be read back. |
| JsonText.StableMeans | bevoac-api-enterprise/src/lib/canonical-json.js:16-22 | stableStringify gives equal texts exactly to values that differ in the order of keys at most. |
| JsonReader.StableReadsBack | bevoac-api-enterprise/src/lib/canonical-json.js:16-18 | A reader written after RFC 8259 reads the stable text back as the canonical value: every text, escape, name, list and literal. |
| Fingerprint.FingerprintsAgree | bevoac-api-enterprise/src/services/scan-service.js:37-52 | Two requests share a fingerprint if and only if they are alike up to order, repetition, case and white space, or the hash collides on their two texts. |
| Fingerprint.SpellingDoesNotMatter | bevoac-api-enterprise/src/services/scan-service.js:37-48 | White space around provider, profile and modules, and capitals there and in the identifiers, leave the fingerprint as it is. |
| Fingerprint.PlainRequestsStand | bevoac-api-enterprise/src/services/scan-service.js:37-48 | A request spelled plainly, with ascending lists and no empty text, is hashed as it stands. |
| Fingerprint.StoredRoundTrip | bevoac-api-enterprise/src/services/scan-service.js:54-65 | The fingerprint recomputed from the stored row is the request's. |
| Fingerprint.TextIsInjective | bevoac-api-enterprise/src/services/scan-service.js:37-52 | Different normalised requests have different canonical texts. |
| Fingerprint.NormalIsNormal | bevoac-api-enterprise/src/services/scan-service.js:37-48 | Normalising twice is normalising once. |

## Left out

- Money is in integer cents with unit prices in millionths of a euro and one explicit rounding function; binary floating point and the overflow of NUMERIC(10,2) are not modelled.
- Months and times are natural numbers; calendar arithmetic, clock skew and the validation of month texts are left out.
- The advisory lock is taken by (tenant, month) itself: hash collisions of hashtext would only make more requests wait.
- resolveIdempotency's trimming and checks, and the generated keys: a request comes with its key.
- The tenant, scan and date filters and the dry-run mode of the backfill: they only shrink the candidate list, in an order that no result depends on.
- The row lock that the snapshot's upsert takes is left out: it only makes later writers of the same row wait, after their sums are taken.
- The worker appears as the status changes and settlements it commits; its attempts, messages, result storage and retries are not part of this model.
- Retention deletes any finished scans and any keys; its batches and cut-off dates are left out, as are result and audit tables.
- IntakeKeys.IdempotentCreation: needs retention to spare the key and its scan, because otherwise it is false, as ExpiredKeyCreatesAgain shows.
- IntakeLimit.ActiveLimitHolds: needs months to begin while no request of the tenant is between its clock and the end of its transaction, because otherwise it is false, as RolloverAfterClock and RolloverAfterAdmission show.
- IntakePricing.ChargedAsReserved: needs backfills to read the API's unit price, because otherwise it is false, as BackfillChargesByItsOwnPrice shows.
- Outbox.Exclusive: needs publishers to act inside their lease, because otherwise it is false, as LatePublisherUnpublishes shows.
- Outbox.AttemptsAreBounded: needs the same, as LatePublisherOverspends shows.
- Outbox.PublishedIsFinal: needs the same; PublishedCanChange says exactly when a row can change without it.
- The outbox payload, its JSON and the Service Bus client; a send either is accepted or fails, and backoff is in whole seconds. The connection that marks a row is not modelled as such.
- Hashes, licences and external references of components, the console output and the files of the bill of materials; an ill-formed surrogate in encodeURIComponent.
- String order is by Unicode code point; JavaScript sorts by UTF-16 code unit, which differs only beyond the basic plane.
- Letter case is changed for ASCII letters only.
- The signed state parameter, the expiry inside it, and the HTTP calls of onboarding; discovery returns a list or fails. The time checks of the sweep and of a callback use the time of that step.
- Scopes.RefreshIsExact: one refresh alone, because it is false of overlapping ones, as Refreshes.RefreshesMix shows; identifiers are compared as texts in lower case, as the discovery normalises them, instead of as UUID values.
- normalizeRows and getSkipToken: a reply is taken after they have read it; the further fields of a resource in the tag audit.
- The dead variable line_start of the scanner, and the regular-expression checks of the same script.
- Dotted-decimal texts are given by their four octets; IPv6, DNS and the TLS request are oracles of the redirect loop.
- Numbers in JSON, which requests do not hold; an ill-formed surrogate in a text.
- Pool exhaustion and a failing connect, which come before any client is taken; a body that itself ends the transaction or sets the tenant id for the session.
- A JavaScript array's String() form in a finding's severity or status is given, not computed.
- Routes, plug-ins, row-level security, migrations, scanners other than the tag audit, reports and release gates.
