# Verified models of the deployment server's stateful kernels

This project models, in Dafny, the parts of the deployment server whose
correctness does not follow from reading one function: the browser's streaming
SHA-256, the redeem / job / token protocol over the shared tables, the issue
quota, the edge agent's blob cache, the event bus inside one process and across
replicas, the vendor-fetch, wake and notification queues, the driver-pack
matcher with the join rows it starts from, the API-collection generator, and two
hand-written encoders. `dafny verify dfyconfig.toml` checks all of it.

**How it is modelled.** Sequential code that changes things in place is
imperative Dafny (`Hasher`, `Store`, `Bus`, `Expander`, and loop methods such as
`EvictFor`, `Select`, `MatchDriverPacks`, `ListOperations`), each method tied by
its `ensures` to a specification. Concurrent code is a state machine: a `Step`
function takes a world and an event, an event that is not enabled changes
nothing, and `Run` folds a whole sequence of events, so a lemma about `Run(w, es)`
for arbitrary `es` holds in every interleaving. One SQL statement (or one
transaction) is one step; the database clock never goes back; the outcome of
every foreign call is a parameter of the event, including "it took effect but
the reply was lost". Go's unordered map iteration is a free choice in the
methods (`:|`), so their contracts hold for every order.

**Where promises do not hold.** Some documented promises are false of the code.
The model follows the code and says exactly what is true instead:

- `services/api/internal/store/store.go:1356-1358` says failed and cancelled can
  be reached from every state that is not terminal; the table has no pending to
  failed and no post_install to cancelled (`FailedAndCancelledFrom`).
- `services/api/internal/store/store.go:423-453` reads the state and then
  updates by id alone. Two overlapping calls can move a completed job to failed
  (`InterleavedIsNotSafe`). Overlapping calls follow the table as long as they
  agree on the target (`AgreeingIsSafe`); if two do not, one order of their writes
  leaves it, in every state (`DisagreeingIsHarmful`, `SafeExactlyIfAgreeing`).
- `services/edge-agent/cmd/edge-agent/cache.go:117-118` promises at most one
  download; `SecondDownload` runs two callers so that the second downloads a file
  that is already cached. A fill starts on a cached path exactly when the file
  was published, and not evicted again, between its caller's look and its lock
  (`RepeatedFillExactly`). Concurrent fills can exceed the size limit
  (`TwoFillsExceedLimit`): eviction passes run without the lock and overlap file
  by file. With at most k fills between the start of their walk and their publish
  the excess is at most k - 1 of the largest objects (`CacheStaysWithinLimit`),
  and that is reached (`LimitBoundIsReached`).
- `services/api/internal/store/store.go:2343-2346` reclaims a row after ten
  minutes without a heartbeat, but the heartbeat of
  `services/api/cmd/api/vendorpacks.go:210-222` starts only when the vendor has
  answered, and is not waited for at the end. A vendor that takes longer gives
  the row two runners, and a completed row is marked failed
  (`LateRunnerBreaksPromises`). A row keeps one live runner exactly as long as it
  is in time while it is worked on (`SingleExactlyInTime`, `OverdueIsOvertaken`);
  a heartbeat may still touch a finished row (`LateBeatMovesFinalRow`). Two jobs whose files have the same name share an
  object, so one overwrites the verified object of the other
  (`SharedKeyBreaksObject`); with different names it stays good
  (`CompletedObjectsAreGood`).
- `services/auth-broker/internal/broker/broker.go:319-341` counts and then
  inserts: k handlers at once can pass the limit by k - 1, and the bound is
  reached (`BoundIsReached`). A failed count skips the quota
  (`FailedCountsIgnoreQuota`).
- `services/api/internal/driverpack/match.go:12` and the comment at lines 167-170
  say that an os-version rule counts only together with a vendor rule; the code stages
  a driver pack on its own (`OsVersionAloneIsEnough`, exact condition in
  `WhenTiersAreAsDocumented`). `services/api/internal/store/migrations/0001_init.sql:96`
  says rules are combined with "and"; the code combines them with "or".
- `services/api/internal/collections/collections.go:2-3` promises identical
  files for the same spec. The operation list is canonical
  (`OperationListIsCanonical`). An example body is canonical when no two
  properties of one object would follow the same reference for the first time
  (`ApartBodiesAreCanonical`); when two properties do refer to the same schema,
  two bodies can come out, different unless the schema expands to an empty
  object (`BodiesDependOnOrder`, a document in `TwoBodies`), and any two
  properties of which one depends on the other show their order
  (`SiblingsShowOrder`).
- `services/api/internal/collections/collections.go:162` resolves parameters
  without the guard against cycles: it returns exactly when the chain of
  references ends (`UnguardedReturnsExactly`).
- `services/api/internal/collections/bruno.go:9-10` promises one file per
  operation; slugs can collide (`SlugsCollide`, exact condition in
  `OneFilePerOperation`).

## Model

| member | source | states |
|---|---|---|
| `StreamingSha256.Hasher.Block` | services/api/internal/ui/assets/app.js:75-99 | the 64 bytes at the offset are compressed into the hash words as in section 6.2.2 of FIPS 180-4 |
| `StreamingSha256.Hasher.Update` | services/api/internal/ui/assets/app.js:100-114 | whatever was fed before and however it was cut, the hasher afterwards stands for the old input followed by the chunk: whole blocks compressed, the rest carried |
| `StreamingSha256.Hasher.Hex` | services/api/internal/ui/assets/app.js:115-128 | the result is the standard's hexadecimal digest of everything fed, for every length below 2^53 |
| `StreamingSha256.Schedule` | services/api/internal/ui/assets/app.js:76-85 | the 64 words are the standard's message schedule of the block |
| `StreamingSha256.Padding` | services/api/internal/ui/assets/app.js:116-125 | the bytes fed last are the padding of section 5.1.1: a one bit, the fewest zeros, the 64-bit length |
| `StreamingSha256.LengthBytes` | services/api/internal/ui/assets/app.js:119-125 | the two 32-bit words written shift by shift are the 64-bit big-endian bit length |
| `StreamingSha256.PaddedHex` | services/api/internal/ui/assets/app.js:127-127 | toString(16) with padStart is fixed-width hexadecimal, leading zeros included |
| `Fips180.FixedHexRoundTrip` | services/api/internal/ui/assets/app.js:127-127 | a word's hexadecimal form reads back as the word |
| `FipsConstants.RoundConstants` | services/api/internal/ui/assets/app.js:66-74 | the 64 round constants are the first 32 bits of the fractional parts of the cube roots of the first 64 primes, entry by entry (section 4.2.2) |
| `FipsConstants.InitialValue` | services/api/internal/ui/assets/app.js:61-61 | the eight initial words are those of the square roots of the first eight primes (section 5.3.3) |
| `FipsConstants.FirstPrimes` | services/api/internal/ui/assets/app.js:66-74 | the list the constants are measured against holds exactly the primes up to 311, in increasing order, and there are 64 |
| `FipsConstants.FractionIsUnique` | services/api/internal/ui/assets/app.js:66-74 | a prime has only one such word, so the table is determined |
| `StreamingSha256.PlusIsAdd` | services/api/internal/ui/assets/app.js:88-98 | adding and keeping 32 bits is the addition of the standard |
| `StreamingSha256.HashPieces` | services/api/internal/ui/assets/app.js:59-129 | every way of cutting the input, empty pieces included, gives the digest of the concatenation |
| `StreamingSha256.Sha256File` | services/api/internal/ui/assets/app.js:131-140 | the 8 MiB loop gives the digest of the file |
| `Redeem.StepKeepsInv` | services/auth-broker/internal/broker/broker.go:92-230 | each statement of each handler, locker, reaper, menu mint and transition keeps the invariant on codes, jobs, tokens, histories and program counters |
| `Redeem.RunKeepsInv` | services/auth-broker/internal/broker/broker.go:92-230 | so does every interleaving of any number of them |
| `Redeem.OneHolder` | services/auth-broker/internal/db/db.go:98-134 | a code is held by at most one handler |
| `RedeemSafety.ConsumedOnceAndProperly` | services/auth-broker/internal/db/db.go:98-152 | in every run a code is consumed at most once, while unredeemed, unlocked and unexpired, from an address inside its binding; a menu code never |
| `RedeemSafety.OneJobOneTokenPerCode` | services/auth-broker/internal/broker/broker.go:92-230 | in every run a code backs at most one job of any origin, and a broker job or broker token exists only for a consumed code, at most one of each |
| `RedeemSafety.RedeemAloneOutcome` | services/auth-broker/internal/broker/broker.go:92-230 | alone and without errors the handler answers 200 exactly when the code is redeemable, and then the rows are exactly the old ones with the code spent, the bootstrapped job and its boot token, which both checks accept; otherwise 401 or 410 with every row untouched but a counted attempt |
| `RedeemSafety.FailedCalls` | services/auth-broker/internal/broker/broker.go:108-220 | what each failing call answers, with nothing written |
| `RedeemSafety.LostReplies` | services/auth-broker/internal/broker/broker.go:160-220 | a call whose reply is lost leaves the rows of success and answers as failure does |
| `Net.ContainsIsBlock` | services/auth-broker/internal/broker/broker.go:150-150 | a binding admits the addresses of its family in the block that starts at its base with the host bits cleared, never a zoned one |
| `Net.ExtremePrefixes` | services/auth-broker/internal/broker/broker.go:150-150 | a full-length prefix is one address, /24 fixes the first three bytes, /0 is the whole family |
| `RedeemSafety.ConsumedForGood` | services/auth-broker/internal/db/db.go:98-152 | a redeemed or locked code is unredeemable in every later state |
| `RedeemSafety.LocksAtCap` | services/auth-broker/internal/db/db.go:137-152 | attempts from a wrong address lock an open code exactly with the one that reaches the cap |
| `RedeemSafety.LockerSparesRedeemable` | services/worker/cmd/worker/main.go:242-251 | the expiry locker takes no redeemable code and leaves open only those that can be consumed |
| `RedeemSafety.LockerIsExact` | services/worker/cmd/worker/main.go:242-251 | it stamps what has just expired unused, and rewrites no row that was locked or redeemed before |
| `RedeemSafety.ReaperSparesLive` | services/worker/cmd/worker/main.go:220-230 | the token reaper changes the verdict of neither token check |
| `RedeemSafety.ReaperIsExact` | services/worker/cmd/worker/main.go:220-230 | it removes exactly the tokens spent or expired for longer than the grace period |
| `RedeemSafety.TokenChecks` | services/api/internal/store/store.go:485-503 | phone-home accepts an unspent, unexpired boot or phone-home token of the job's own code in every state that is not terminal, the installer check the same in two states, and both end at the instant of expiry |
| `RedeemSafety.ReachesIsClosure` | services/api/internal/store/store.go:417-422 | the order used for "never backwards" is exactly the reflexive transitive closure of the transition table |
| `RedeemSafety.RunEvolves` | services/api/internal/store/store.go:416-460 | over any run a job only moves along the table, a terminal job never changes, codes and tokens only change in their one direction |
| `RedeemSafety.TraceIsAPath` | services/api/internal/store/store.go:1359-1397 | in every run, whatever advances and transitions interleave, the states of a job without repeats form a path in the table |
| `RedeemSafety.FinishedExactlyWhenTerminal` | services/api/internal/store/store.go:443-453 | finished_at is set exactly on terminal jobs, in every reachable state |
| `RedeemSafety.TokenForOneJobEver` | services/api/internal/store/store.go:485-503 | a token hash accepted for one job by either check is never accepted for another, then or later |
| `RedeemSafety.TerminalRefusesTokens` | services/api/internal/store/store.go:1330-1349 | once a job is terminal neither check accepts any token for it, however the run goes on |
| `RedeemSafety.RevokedStaysRevoked` | services/api/internal/store/store.go:383-393 | boot tokens revoked at a terminal state are never live again |
| `RedeemSafety.MenuLeavesTerminalJobs` | services/api/internal/store/store.go:2246-2304 | after a job is terminal, any new token on its code was stored by the broker: the menu mint attaches none |
| `RedeemSafety.MenuMintIsUsable` | services/api/internal/store/store.go:2246-2304 | a successful menu mint leaves a token phone-home accepts, on a code nobody can consume |
| `RedeemSafety.MenuMintRows` | services/api/internal/store/store.go:2246-2304 | the rows it writes, and that all others stay: one boot token, and a spent, expired code exactly when the job had none |
| `RedeemSafety.MenuPicksNewest` | services/api/internal/store/store.go:2246-2304 | it attaches to a job exactly when that is active and no later one for the same machine and profile is |
| `JobStore.Store.TransitionJob` | services/api/internal/store/store.go:416-460 | not found, refused or moved exactly as the table says, with finished_at and revocation on terminal states; both token checks answer as before for every other job |
| `JobStore.Store.AdvanceJob` | services/api/internal/store/store.go:1359-1397 | from any happy-path state to any happy-path target it succeeds and ends at the later of the two; failed and cancelled are single transitions; both token checks answer as before for every other job |
| `JobStore.RevocationIsExact` | services/api/internal/store/store.go:383-393 | revoking consumes exactly the unspent boot tokens on the job's own code; tokens of other codes or purposes stay as they are |
| `JobStore.RevocationSparesOthers` | services/api/internal/store/store.go:383-393 | so, codes being held by one job each, it takes no token from any other job |
| `JobStore.EdgeOnPath` | services/api/internal/store/store.go:1352-1352 | every consecutive pair of the happy path is in the table |
| `JobStore.FailedAndCancelledFrom` | services/api/internal/store/store.go:1354-1358 | exactly from which states a job can be failed or cancelled |
| `JobStore.StepsAlongPath` | services/api/internal/store/store.go:417-422 | on the happy path the table allows the next state only, and completed from imaging |
| `SplitTransition.AgreeingIsSafe` | services/api/internal/store/store.go:423-453 | as two statements, transitions follow the table and leave no terminal state in every run in which overlapping calls for a job have the same target, so in particular when they never overlap |
| `SplitTransition.DisagreeingIsHarmful` | services/api/internal/store/store.go:423-453 | in every state two pending calls with different targets have an order of writing that leaves the table |
| `SplitTransition.SafeExactlyIfAgreeing` | services/api/internal/store/store.go:423-453 | a call may join those under way, every order of two writes following the table, exactly if its target is theirs |
| `SplitTransition.InterleavedIsNotSafe` | services/api/internal/store/store.go:423-453 | two overlapping calls take a completed job to failed |
| `IssueQuota.QuotaHolds` | services/auth-broker/internal/broker/broker.go:319-341 | with at most k handlers of an operator between count and insert and counts that succeed, no one-hour window of any history holds more than limit + k - 1 codes |
| `IssueQuota.IssuedInMeaning` | services/auth-broker/internal/db/db.go:212-215 | the count is the number of the operator's codes in the window, its start excluded |
| `IssueQuota.BoundIsReached` | services/auth-broker/internal/db/db.go:210-249 | for every positive limit and k some such run issues exactly limit + k - 1 |
| `IssueQuota.FailedCountsIgnoreQuota` | services/auth-broker/internal/broker/broker.go:319-341 | for every limit and every n, n handlers one at a time whose counts fail issue n codes inside one window |
| `Eviction.Measure` | services/edge-agent/cmd/edge-agent/cache.go:202-211 | the walk's running total is the size of the disk |
| `Eviction.EvictFor` | services/edge-agent/cmd/edge-agent/cache.go:196-229 | a shortest sufficient prefix of the oldest-first order is removed, files that cannot be removed aside, and it succeeds exactly when the rest fits |
| `Eviction.FailsOnlyWhenTooLarge` | services/edge-agent/cmd/edge-agent/cache.go:216-228 | when removals succeed it fails exactly when the object alone exceeds the limit |
| `Eviction.EvictionIsDetermined` | services/edge-agent/cmd/edge-agent/cache.go:212-228 | for one order there is one outcome |
| `Eviction.OldestGo` | services/edge-agent/cmd/edge-agent/cache.go:215-224 | every file that goes is at least as old as every removable file that stays |
| `BlobCache.KeyFormat` | services/edge-agent/cmd/edge-agent/cache.go:184-184 | a path carries a digest exactly when it is /blobs/ and a key of the documented form; without the prefix only a path that does not start with a slash could |
| `BlobCache.UploadsAreVerified` | services/edge-agent/cmd/edge-agent/cache.go:48-48 | /blobs/<2-hex>/<64-hex>-<name> carries that digest, for every shard, digest and name |
| `BlobCache.OneFillAtATime` | services/edge-agent/cmd/edge-agent/cache.go:119-145 | over any number of callers: one fill per path at a time, a path is in the in-flight map exactly while it is being filled, each done channel is closed once if its filler ended and not before |
| `BlobCache.NoWaiterIsStranded` | services/edge-agent/cmd/edge-agent/cache.go:125-133 | a waiter's filler is still running, or the waiter can go on at once; and it can always give up |
| `BlobCache.LockDecides` | services/edge-agent/cmd/edge-agent/cache.go:124-138 | a caller that missed the file becomes its filler exactly when nobody is filling it, and otherwise waits on that filler's channel |
| `BlobCache.AlwaysVerified` | services/edge-agent/cmd/edge-agent/cache.go:147-193 | in every reachable state every file under a content-addressed key hashes to the digest in its key |
| `BlobCache.UploadsOnDiskAreGood` | services/edge-agent/cmd/edge-agent/cache.go:147-193 | so at any time every file on disk under /blobs/<2-hex>/<64-hex>-<name> hashes to that digest |
| `BlobCache.RoomOnlyForBodies` | services/edge-agent/cmd/edge-agent/cache.go:161-165 | in every run a fill makes room exactly for a positive length |
| `BlobCache.ServedGoesLast` | services/edge-agent/cmd/edge-agent/cache.go:110-112 | serving a file makes it the last to be evicted, however ties are sorted |
| `BlobCache.GoodFillSucceeds` | services/edge-agent/cmd/edge-agent/cache.go:138-192 | whatever everybody else does meanwhile, a filler whose body hashes to its key and whose own calls succeed has its file cached and returns success |
| `BlobCache.BadOriginIsNeverServed` | services/edge-agent/cmd/edge-agent/cache.go:119-193 | in every run in which the origin delivers only bytes that do not hash to the digest in a path, the path is never cached and no caller is told that it is |
| `CacheLimit.CacheStaysWithinLimit` | services/edge-agent/cmd/edge-agent/cache.go:147-229 | with known lengths and at most k fills at once between the start of their walk and their publish, passes overlapping in any way, the total stays within limit + (k - 1) largest objects; one at a time, within the limit |
| `CacheLimit.InvBound` | services/edge-agent/cmd/edge-agent/cache.go:196-229 | because what is on the disk was kept by the ended pass whose walk began last, or published since by a fill it counted |
| `CacheLimit.StepKeeps` | services/edge-agent/cmd/edge-agent/cache.go:147-229 | every visit, removal, end of a pass, copy and publish keeps that account |
| `BlobCacheRuns.PassAloneEvicts` | services/edge-agent/cmd/edge-agent/cache.go:196-229 | a pass that nobody disturbs, step by step, has the outcome of the whole call |
| `BlobCacheRuns.TwoFillsExceedLimit` | services/edge-agent/cmd/edge-agent/cache.go:161-192 | from an empty cache, for any two paths and any two bodies that fit alone but not together, two concurrent fills exceed the limit |
| `BlobCacheRuns.LimitBoundIsReached` | services/edge-agent/cmd/edge-agent/cache.go:161-192 | for every limit, object size and k some run with at most k fills holding room reaches limit + (k - 1) largest objects exactly |
| `CacheReuse.RepeatedFillExactly` | services/edge-agent/cmd/edge-agent/cache.go:117-138 | in every run a fill starts on an already cached path exactly when, since its caller looked, the file was published and not evicted again |
| `CacheReuse.CachedExactly` | services/edge-agent/cmd/edge-agent/cache.go:147-229 | from a moment when a file was absent it is there exactly if it was published since and not removed since |
| `BlobCacheRuns.SecondDownload` | services/edge-agent/cmd/edge-agent/cache.go:117-143 | from an empty cache, for any path and good body, two callers who both looked download the file twice |
| `EventBus.Bus.Subscribe` | services/api/internal/eventbus/eventbus.go:48-56 | the new empty open channel joins its job's subscribers; no other job notices |
| `EventBus.Bus.Cancel` | services/api/internal/eventbus/eventbus.go:57-68 | the channel leaves its job and is closed with its buffer readable; a channel is registered exactly while open; a second call changes nothing and panics, and only a second call does |
| `EventBus.Bus.Publish` | services/api/internal/eventbus/eventbus.go:73-83 | exactly the job's subscribers get the event, each appended or dropped at 16, whatever order they are visited in; no send meets a closed channel |
| `EventBus.Bus.SubCount` | services/api/internal/eventbus/eventbus.go:86-90 | the number of the job's subscribers |
| `PgBus.RunOk` | services/api/internal/pgbus/pgbus.go:59-119 | the invariant of every replica in every run: publish order, offers, buffers, nothing missed |
| `PgBus.StreamInOrder` | services/api/internal/pgbus/pgbus.go:59-119 | received plus buffered are events of the job published since subscribing, none twice, notifications in log order |
| `PgBus.DroppedOnlyWhenFull` | services/api/internal/eventbus/eventbus.go:73-83 | only a buffer holding 16 refuses an event, accepted ones are in the stream, and an open subscriber has been offered every event of its job that reached its bus |
| `PgBus.NoSendOnClosed` | services/api/internal/eventbus/eventbus.go:57-83 | no publish under way is about to send on a closed channel |
| `PgBus.ReplicasAgree` | services/api/internal/pgbus/pgbus.go:97-119 | two replicas agree on the order of events both deliver |
| `PgBus.NotificationsArrive` | services/api/internal/pgbus/pgbus.go:75-119 | while a replica stays connected, every notification up to its cursor has been offered to every open subscriber of its job that was there before |
| `PgBus.ListenerGoesOn` | services/api/internal/pgbus/pgbus.go:107-118 | an idle listener that is behind gets on: what it can read is offered to exactly the open subscribers of its job, what it cannot is passed over |
| `PgBus.FailedNotifyIsLocal` | services/api/internal/pgbus/pgbus.go:69-72 | a publish whose notify failed is offered to exactly the open subscribers of its job on its own replica, and nowhere else |
| `PgBus.CancelledHearsNoMore` | services/api/internal/eventbus/eventbus.go:57-68 | a cancelled subscription is never offered anything again, in every run |
| `PgBus.MissedWhileAway` | services/api/internal/pgbus/pgbus.go:15-19 | a notification not delivered before the connection went down and sent before the listener is back is never offered to any subscriber of that replica, whatever follows |
| `VendorFetch.OneLiveHolder` | services/api/internal/store/store.go:2347-2375 | in every run in which no row worked on goes ten minutes without a heartbeat, whoever sent it, no row is held by two live runners |
| `VendorFetch.OverdueIsOvertaken` | services/api/internal/store/store.go:2347-2369 | from every state with a worked row overdue, a new runner can be given it and can make it final under the first |
| `VendorFetch.SingleExactlyInTime` | services/api/internal/store/store.go:2347-2369 | being in time is exactly what no claim can break |
| `VendorFetch.FinalRowsStay` | services/api/internal/store/store.go:2371-2391 | in such runs, from the moment a row is completed or failed, nothing of it changes but its heartbeat |
| `VendorFetch.LateBeatMovesFinalRow` | services/api/cmd/api/vendorpacks.go:209-222 | and that does: in a run on time the heartbeat goroutine of a finished fetch writes a completed row |
| `VendorFetch.CompletedIsVerified` | services/api/cmd/api/vendorpacks.go:162-287 | in every run a completed row was completed with bytes hashing to the expected value |
| `VendorFetch.GoodFetch` | services/api/cmd/api/vendorpacks.go:224-287 | a fetch with the promised digest that goes through leaves a completed row and its object, and nothing else changed |
| `VendorFetch.BadFetch` | services/api/cmd/api/vendorpacks.go:246-257 | one with any other digest leaves a failed row and no object under its key |
| `VendorFetch.VerdictIsFinal` | services/api/cmd/api/vendorpacks.go:246-257 | content that matches is not deleted, content that does not is never taken as verified |
| `VendorFetch.AnswerStartsHeart` | services/api/cmd/api/vendorpacks.go:184-222 | a heartbeat starts exactly when the vendor has answered, for the runner's own row |
| `VendorFetch.DeadStaysDead` | services/api/cmd/api/vendorpacks.go:139-287 | a crashed runner does nothing more, in every run |
| `VendorFetch.AbandonedIsReclaimed` | services/api/internal/store/store.go:2343-2369 | after any events, once ten minutes have passed since its last heartbeat, a running row with no live runner and no heartbeat goroutine was claimed again or can be |
| `VendorFetch.OldestIsClaimed` | services/api/internal/store/store.go:2347-2369 | a claim finds a row exactly when one is runnable, and it is an oldest one |
| `VendorFetch.LateRunnerBreaksPromises` | services/api/cmd/api/vendorpacks.go:139-287 | from the empty queue, with a vendor that takes over ten minutes to answer, a row gets two live runners and a completed row is marked failed |
| `VendorFetch.CompletedObjectsAreGood` | services/api/cmd/api/vendorpacks.go:199-256 | in runs on time in which no two rows share an object key, the stored object of every completed row is there and hashes to its digest |
| `VendorFetch.SharedKeyBreaksObject` | services/api/cmd/api/vendorpacks.go:202-202 | for any shared key, on time: another row's upload replaces the object of a completed row by bytes with another hash |
| `WakeQueue.WakesAreConserved` | services/api/internal/store/store.go:1741-1833 | in every run created = waiting + claimed + reaped, disjointly, and a request has been handed out exactly once if claimed or reaped, never while waiting |
| `WakeQueue.ClaimTakesAllDue` | services/api/internal/store/store.go:1761-1797 | a claim with room takes every due unlocked request of its site and only those |
| `WakeQueue.HandedOutWhenAsked` | services/api/internal/store/store.go:1741-1797 | in every run a request is handed out only after it was asked for, to the site it was asked for, and never before its time |
| `WakeQueue.AskedIsDue` | services/api/internal/store/store.go:1741-1760 | a request that is asked for is due at its site exactly from its time on |
| `WakeQueue.NoneSkipped` | services/api/internal/store/store.go:1761-1797 | a due, free request is left behind only by a full claim (50, or the limit given) of requests scheduled no later |
| `WakeQueue.ClaimMarks` | services/api/internal/store/store.go:1771-1783 | a claim stamps the rows it takes with the time and touches nothing else |
| `WakeQueue.ReapIsExact` | services/worker/cmd/worker/main.go:206-214 | reaping removes exactly the rows handed out longer ago than the grace period |
| `JobNotifications.PostedAtMostOnce` | services/worker/cmd/worker/main.go:99-204 | in every run each job is posted at most once, and only after it finished and was marked |
| `JobNotifications.ClaimIsExact` | services/worker/cmd/worker/main.go:99-115 | a claim takes unmarked jobs finished within the last hour, and leaves a free one only when it took 20 that finished no later |
| `JobNotifications.FinishedIsReady` | services/worker/cmd/worker/main.go:104-108 | a job that finishes is ready to be claimed for one hour |
| `JobNotifications.RowsAreStamped` | services/worker/cmd/worker/main.go:99-115 | finishing and claiming stamp their own rows with the time, and no other |
| `JobNotifications.ClaimedIsPosted` | services/worker/cmd/worker/main.go:99-204 | whatever else happens, a job that a worker claimed and gets round to without stopping is posted exactly once and never ready again |
| `JobNotifications.StoppedWorkerLosesPost` | services/worker/cmd/worker/main.go:99-204 | a worker that stops between marking and posting loses the post in every continuation |
| `Lex.Antisymmetric` | services/api/internal/driverpack/match.go:122-128 | Go's string order distinguishes different strings |
| `Lex.Transitive` | services/api/internal/driverpack/match.go:122-128 | Go's string order is transitive |
| `Lex.FirstDifference` | services/api/internal/driverpack/match.go:115-129 | one string is at most another exactly when it is a prefix of it or smaller where they first differ |
| `StableSort.SortIsStable` | services/api/internal/driverpack/match.go:115-129 | the sort orders the list and keeps elements that tie in their order |
| `StableSort.StableSortUnique` | services/api/internal/driverpack/match.go:115-129 | no other list does |
| `StableSort.SortedIsFixed` | services/api/internal/collections/bruno.go:41-46 | a list in order is left alone |
| `StableSort.SameSorted` | services/api/internal/collections/collections.go:136-145 | where only equal elements tie, two sorted lists of the same elements are equal |
| `StableSort.SortThroughMap` | services/api/internal/driverpack/match.go:131-135 | sorting commutes with a map that keeps the order |
| `DriverPacks.NormalizeForgets` | services/api/internal/driverpack/match.go:188-190 | names compare without regard to case or surrounding white space |
| `DriverPacks.NormalizeIs` | services/api/internal/driverpack/match.go:188-190 | a name is compared by its part between the surrounding white space, in lower case |
| `DriverPacks.TrimSpaceMeaning` | services/api/internal/driverpack/match.go:188-190 | every string is such a part between white space |
| `DriverPacks.LowerMeaning` | services/api/internal/driverpack/match.go:92-92 | lower-casing replaces each Latin capital by its small letter and leaves the rest |
| `DriverPacks.EqualFoldMeaning` | services/api/internal/driverpack/match.go:178-178 | names fold alike exactly when they do so letter by letter |
| `DriverPacks.OsCompatibleMeaning` | services/api/internal/driverpack/match.go:177-186 | a pack fits exactly when the families fold alike and, unless its version is empty or "any", that version begins the machine's |
| `DriverPacks.CoversReleases` | services/api/internal/driverpack/match.go:177-186 | a pack for a version covers its later releases; one for any version or none covers them all |
| `DriverPacks.RuleTierMeaning` | services/api/internal/driverpack/match.go:138-175 | a rule has the tier of its kind exactly when what that kind asks of the machine holds, and no match otherwise |
| `DriverPacks.BestTierByKind` | services/api/internal/driverpack/match.go:103-109 | the best tier is that of the first kind, in order of precedence, with a rule that applies |
| `DriverPacks.BestTierIsLeast` | services/api/internal/driverpack/match.go:103-109 | the best tier is the least tier of any rule, or no match |
| `DriverPacks.BestTierOfSet` | services/api/internal/driverpack/match.go:103-109 | it depends on which rules there are, not on order or repetition |
| `DriverPacks.WantedMeaning` | services/api/internal/driverpack/match.go:99-113 | a version is kept exactly when the families fold alike, its version is empty, "any" or the beginning of the machine's, and some rule applies |
| `DriverPacks.AnswerIsExact` | services/api/internal/driverpack/match.go:89-136 | the answer holds each wanted candidate exactly as often as given and nothing else, stably sorted by tier, vendor, model and tag |
| `DriverPacks.AnswerIsTheOnlyOne` | services/api/internal/driverpack/match.go:115-129 | any stable sort of the kept candidates is that answer |
| `DriverPacks.AnswerForgetsRuleOrder` | services/api/internal/driverpack/match.go:89-136 | order and repetition of rules change nothing the answer shows |
| `DriverPacks.ExtrasOnlyAddOrPromote` | services/api/internal/driverpack/match.go:89-136 | more rules or PCI devices never lose a version, never worsen its tier, and never let an unchanged version overtake it |
| `DriverPacks.WhenTiersAreAsDocumented` | services/api/internal/driverpack/match.go:8-13 | the tiers are the documented ones exactly unless an os-version rule matches with no vendor, product, board or PCI match |
| `DriverPacks.OsVersionAloneIsEnough` | services/api/internal/driverpack/match.go:165-172 | a lone os-version rule stages a pack that the documentation leaves out |
| `DriverPacks.BestRule` | services/api/internal/driverpack/match.go:103-109 | the inner loop computes the best tier |
| `DriverPacks.Select` | services/api/internal/driverpack/match.go:89-136 | the loops and the in-place sort compute the answer |
| `PackStore.RegroupRows` | services/api/internal/store/store.go:1434-1455 | the map-and-order loop is the fold of its rows |
| `PackStore.RegroupRestores` | services/api/internal/store/store.go:1415-1463 | from the left-join rows in any order within a version, every version comes back once, in id order, with its columns, its blob key and its rules as a multiset |
| `PackStore.MatchDriverPacks` | services/api/internal/store/store.go:1414-1473 | the result shows the answer over the regrouped candidates, each with the blob key of its own group |
| `PackStore.MatchIsReference` | services/api/internal/store/store.go:1414-1473 | for every row order the database may choose that is what the table defines |
| `PackStore.ReferenceIsExact` | services/api/internal/store/store.go:1414-1473 | which holds, column by column, exactly the versions whose family and version fit and one of whose rules applies |
| `PackStore.StagedListIsTheTables` | services/api/internal/store/store.go:1414-1473 | end to end over the filtered query, for the families packs and images are created with (services/api/cmd/api/driverpacks.go:51-54), it is what the whole table defines |
| `PackStore.StagedListWhenFamiliesAgree` | services/api/internal/store/store.go:1414-1473 | the same for any families, as long as every wanted version passes the filter |
| `PackStore.FamilyFilterIsRedundant` | services/api/internal/store/store.go:1423-1424 | the WHERE clause leaves the answer alone exactly when every version the matcher wants passes it |
| `Operations.ListOperations` | services/api/internal/collections/collections.go:85-147 | for every order of walking the paths: every operation of the spec once, nothing else, in order of tag, path and method |
| `Operations.OperationListIsCanonical` | services/api/internal/collections/collections.go:83-147 | only one list meets that description |
| `Operations.IndexTags` | services/api/internal/collections/collections.go:132-135 | the index holds exactly the declared tags, each at a position of its own with none later |
| `Operations.TagIndexMeaning` | services/api/internal/collections/collections.go:132-138 | a tag stands at its last declaration, an undeclared one with the first |
| `Operations.OrderMeaning` | services/api/internal/collections/collections.go:136-145 | operations are ordered by tag, then path, then get, post, put, patch, delete |
| `Postman.GroupIntoFolders` | services/api/internal/collections/postman.go:105-120 | the grouping loops give one folder per declared tag with operations |
| `Postman.ShownPerDeclaration` | services/api/internal/collections/postman.go:105-120 | an operation is shown once for every declaration of its tag |
| `Postman.FoldersKeepTheList` | services/api/internal/collections/postman.go:105-120 | the folders in order give back the list exactly when every operation's tag is declared exactly once |
| `Bruno.ResortIsIdentity` | services/api/internal/collections/bruno.go:40-46 | sorting the list again by tag changes nothing |
| `Bruno.WriteFiles` | services/api/internal/collections/bruno.go:14-54 | the loop writes the files of the list, numbering within each tag |
| `Bruno.SameFile` | services/api/internal/collections/bruno.go:50-50 | two operations share a file exactly when they share tag and slug |
| `Bruno.SlugTells` | services/api/internal/collections/bruno.go:143-149 | equal slugs mean the same method and the same squashed path |
| `Bruno.SlugMeaning` | services/api/internal/collections/bruno.go:143-149 | the slug is the method, a dash and the squashed path without /api/v1/ |
| `Bruno.SquashMeaning` | services/api/internal/collections/bruno.go:147-147 | braces go, slashes and dots become dashes, everything else stays, character by character |
| `Bruno.FilesAreAt` | services/api/internal/collections/bruno.go:17-50 | a directory per tag, a file per slug, and the two fixed files, by their full paths |
| `Bruno.FixedFilesAreSafe` | services/api/internal/collections/bruno.go:17-32 | no operation overwrites bruno.json or the environment |
| `Bruno.OneFilePerOperation` | services/api/internal/collections/bruno.go:48-52 | there is one file per operation exactly when slugs differ within every tag, fewer otherwise |
| `Bruno.EveryOperationIsFiled` | services/api/internal/collections/bruno.go:48-52 | then each operation has its file, numbered by its place in its Postman folder |
| `Bruno.SlugsCollide` | services/api/internal/collections/bruno.go:143-149 | /a/b and /a-b share a file |
| `PathSegments.PathSegments` | services/api/internal/collections/postman.go:171-183 | the loop gives the segments of the trimmed path |
| `PathSegments.PathRoundTrip` | services/api/internal/collections/postman.go:171-183 | the path read back from its segments is the original exactly when it has one leading slash, no trailing slash and plain segments |
| `Schemas.Deref` | services/api/internal/collections/collections.go:261-284 | resolving stops at a node without a reference, never forgets a seen one, and follows each step only by using up an unseen reference |
| `Schemas.ReferenceMeaning` | services/api/internal/collections/collections.go:272-284 | a reference written as segments with slashes between, after #/ or not, names an object exactly when it is the end of the chain of nodes that the segments spell, and nothing otherwise |
| `Schemas.WalkOn` | services/api/internal/collections/collections.go:273-279 | walking two lists of segments one after the other is walking both |
| `Schemas.Expander.Resolve` | services/api/internal/collections/collections.go:272-284 | the loop over the segments finds that object |
| `Schemas.KindMeaning` | services/api/internal/collections/collections.go:288-300 | the type is the word written, or the first in a list that is not "null" |
| `Schemas.PlaceholderMeaning` | services/api/internal/collections/collections.go:302-310 | the placeholder tells uuid and date-time formats from every other string |
| `Schemas.Merge` | services/api/internal/collections/collections.go:210-221 | what an allOf merges lies below the schema unless a reference was used up: the measure that makes expansion end |
| `Schemas.Expander.DerefNode` | services/api/internal/collections/collections.go:261-284 | the recursion over the shared set is that resolution, and it ends |
| `Schemas.Expander.Example` | services/api/internal/collections/collections.go:199-246 | expansion ends on every finite document, cyclic references and allOf included, only adds to the shared set, and gives an outcome of the relation |
| `Schemas.Expander.ExampleObject` | services/api/internal/collections/collections.go:248-258 | so does expanding properties in any order |
| `Schemas.RequestBodyExample` | services/api/internal/collections/collections.go:183-195 | a body is an outcome from nothing seen, or nil without a JSON schema |
| `SchemaShapes.CanFits` | services/api/internal/collections/collections.go:197-284 | every outcome has the schema's shape, read without any seen set: all properties and no others, one-item arrays, verbatim examples, and only a reference left as an empty object |
| `SchemaShapes.GuardCutsExactlyLoops` | services/api/internal/collections/collections.go:260-284 | with nothing seen the guard cuts exactly the reference chains that never end, and otherwise finds the end |
| `SchemaShapes.UnguardedReturnsExactly` | services/api/internal/collections/collections.go:162-162 | without a seen set resolution returns exactly when the chain ends, then within as many calls as the document has references and with what the guarded one finds |
| `SchemaOrder.ApartBodiesAreCanonical` | services/api/internal/collections/collections.go:199-284 | if nowhere in the expansion two properties of one object would follow the same reference for the first time, every walk of the maps gives the same body |
| `SchemaOrder.CanIsCanon` | services/api/internal/collections/collections.go:199-284 | namely the one where every property is expanded from what was seen before its object |
| `SchemaOrder.CanonFrame` | services/api/internal/collections/collections.go:261-271 | references an expansion does not follow may have been seen or not: its outcome is the same |
| `SchemaOrder.RefFreeBodiesAreCanonical` | services/api/internal/collections/collections.go:199-258 | in particular a body without references |
| `SchemaOrder.SelfReferenceStaysApart` | services/api/internal/collections/collections.go:199-284 | and a schema that refers to itself in all its properties |
| `SchemaOrder.CanExists` | services/api/internal/collections/collections.go:199-284 | every schema has an outcome, whatever has been seen |
| `SchemaOrder.FirstWalkedWins` | services/api/internal/collections/collections.go:248-271 | of two properties with the same reference, whatever it leads to and whatever the other properties, the one walked first is filled in and the other left empty |
| `SchemaOrder.BodiesDependOnOrder` | services/api/internal/collections/collections.go:210-271 | for the properties of an object or of an allOf, so two bodies come out, equal exactly when the reference expands to an empty object, and the condition above does not hold |
| `SchemaOrder.SiblingsShowOrder` | services/api/internal/collections/collections.go:210-271 | for any two properties there is a body in which the one was expanded first and a body in which the other was, so they differ if either outcome depends on the other property |
| `SchemaOrder.TwoBodies` | services/api/internal/collections/collections.go:1-5 | one document with two different bodies |
| `Utf16.EncodeUtf16le` | services/api/internal/answerfile/unattend.go:114-129 | the loop writes each scalar value as its UTF-16LE units |
| `Utf16.DecodeEncode` | services/api/internal/answerfile/unattend.go:114-129 | decoding as in section 2.2 of RFC 2781 gives back every string |
| `Utf16.EncodingIsExact` | services/api/internal/answerfile/unattend.go:114-129 | encoder and decoder are inverse in both directions |
| `SigV4.SigV4Escape` | services/api/internal/s3sign/s3sign.go:129-142 | the loop escapes byte by byte |
| `SigV4.EscapeMeaning` | services/api/internal/s3sign/s3sign.go:129-142 | letters, digits and -._~ are left as they are; every other byte becomes a percent sign and two upper-case hexadecimal digits |
| `SigV4.EscapeRoundTrip` | services/api/internal/s3sign/s3sign.go:129-142 | unescaping as in section 2.1 of RFC 3986 gives back every byte string, and no slash, ampersand or equals sign is left in the escape |
| `SigV4.EscapeSegments` | services/api/internal/s3sign/s3sign.go:121-127 | the in-place loop escapes each segment |
| `SigV4.PathRoundTrip` | services/api/internal/s3sign/s3sign.go:119-127 | unescaping the path gives it back and its segments are the escapes of the original's |
| `SigV4.PathText` | services/api/internal/s3sign/s3sign.go:119-127 | segment by segment: slashes stay, what is between is escaped |
| `SigV4.KeyListIsUnique` | services/api/internal/s3sign/s3sign.go:107-111 | there is one sorted key list, so enumeration order cannot show |
| `SigV4.KeyOrderMeaning` | services/api/internal/s3sign/s3sign.go:107-111 | keys are ordered by the first byte that differs, a prefix first |
| `SigV4.CanonicalQueryString` | services/api/internal/s3sign/s3sign.go:106-117 | for every enumeration of the map the query is the rendering of that list |
| `SigV4.QueryText` | services/api/internal/s3sign/s3sign.go:106-117 | name=value with & between the pairs |
| `SigV4.FirstMeaning` | services/api/internal/s3sign/s3sign.go:112-112 | the value of a key is its first, or nothing |
| `SigV4.QueryRoundTrip` | services/api/internal/s3sign/s3sign.go:104-117 | it reads back as exactly the keys in order, each with the value Get returns |
| `SigV4.QueryIsInjective` | services/api/internal/s3sign/s3sign.go:104-117 | equal queries come from values that agree on every key |

## Left out

Assumptions and simplifications:

- TransitionJob: is one atomic step in `Redeem` and `RedeemSafety`, although the source reads and then updates; `SplitTransition` shows what that assumption carries.
- The menu mint is a single step, being one transaction.
- Code hashes and token hashes are unique (services/api/internal/store/migrations/0001_init.sql:148-206), so a hash stands for its row.
- A notify that fails is taken as not sent; truncation of long messages in the notify payload and the listener's backoff times are not modelled.
- Temporary files of a fill, panics inside a fill and the HTTP side of serving cached files are not modelled; URL paths are taken as cleaned by the mux.
- Numbers in the hasher are exact: byte counts below 2^53 and 32-bit words are what JavaScript computes there without rounding.
- Go-side SHA-256, HMAC, argon2 and base64 are uninterpreted functions or omitted.
- Letters outside ASCII, other than the Kelvin sign and the long s, are taken to have no case in the matcher.
- An upload to the object store takes effect before its runner is gone, and the object key is a column of the job row; computing it from vendor and URL is not modelled.
- CacheStaysWithinLimit: does not cover responses without a length, because the source makes no room for them.
- PostedAtMostOnce: a post is one HTTP attempt; what the receiver makes of it, and the logging of failed attempts, are outside the model.
- ApartBodiesAreCanonical: a body may also be canonical when siblings share a reference that expands to the same thing either way; the exact converse is proved for properties that refer to the same schema directly (`BodiesDependOnOrder`).
- OperationListIsCanonical: covers tag, method, path, texts and parameters of an operation, not its example body.

Parts of the repository that are not modelled:

- HTTP routing, JSON, YAML, templates, TLS, OIDC, S3 and overlay-network clients: foreign calls, whose outcomes are parameters.
- The per-address redeem limit (`RecordPerIPAttempt`), `VerifyOneShotToken` and `LookupRenderBundleByToken`: single statements without an invariant beyond the ones above.
- Deleting machines and profiles, plain CRUD, reports, catalog parsing, metrics and configuration.
- The texts of Postman items and .bru files beyond their order, grouping, names and paths; the SDKs, the command-line client and the Terraform provider.
- The SSE handler's timers and backfill, the rest of the user interface, and small pure helpers such as `parseSince` and `mirrorRewrite`.
