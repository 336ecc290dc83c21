# A verified model of the website agency's coordination code

The system is a pipeline of Lambda functions that finds businesses, generates preview websites for
them, lets operators approve, rotate passcodes and send mail, and reads the replies. Its workers
share one DynamoDB table and nothing else: conditional writes, expiry sweeps and whole-row puts built
from earlier reads are its only means of coordination. This project models that coordination, and the
parsers and printers around it, in Dafny 4.11 and proves what holds in every run.

Each protocol has three parts:

- the table functions and the step function `Next` of a state machine, folded over a step list by
  `Run`: any number of workers, in any interleaving, with redelivery, crashes, lost answers, stale
  reads and expiry sweeps as steps;
- a class or method in the program's own form (fields updated in place, loops over pages, attempts
  and characters); its `ensures` state answer and stored fields outright, and they, or a lemma about its
  run alone, tie it to those same functions;
- lemmas over every run.

Reads are modelled as weakly as the program asks for them. In Website, ProfileEtags, TunerDecision,
FetchCache and RobotsCache a read may return any version the row ever had; the sender's draft read may
show any status, the budget check may miss part of the day's spend, discovery's check may trail the
table, and the preview store may answer late. Conditional writes see the row as it is, and each scan or
index query sees one instant.

Where a promise of the code or its comments fails, the code is kept as it is, a lemma gives a run that
breaks the promise, and another says exactly when it holds.

| file | what it models |
|---|---|
| `Sender.dfy`, `Idempotency.dfy` | the send-once protocol: a swept 24-hour record over a permanent marker |
| `Website.dfy`, `PasscodeCleanup.dfy` | the Website row under seven writers, and the hourly wipe of sealed passcodes |
| `Throttle.dfy`, `CostLedger.dfy` | the fleet-wide per-host throttle and the daily spend cap |
| `TunerDecision.dfy`, `MergeList.dfy` | tuner deltas applied and dismissed concurrently, and the list merge they rely on |
| `ProfileEtags.dfy`, `Discovery.dfy` | targeting profiles under etag-conditional puts; domain deduplication |
| `FetchCache.dfy`, `RobotsCache.dfy`, `Revocation.dfy` | the ETag cache, the two-layer robots cache, the preview Worker's revocation cache |
| `StatusIndex.dfy`, `ReviewQueue.dfy` | the status index, its writers, the paged counts and the daily roll-up; the review queue's cap |
| `MimeMessage.dfy`, `ReplyAddress.dfy` | the raw message, the plus-addressed Reply-To and the reply's way back |
| `PrioritySortKey.dfy`, `HtmlStripper.dfy`, `CookieDomain.dfy` | the queue's sort key and score, the HTML stripper, the shared cookie domain |
| `Common.dfy` | Option, pages, white space, ASCII case, first and last occurrence |

`dafny verify dfyconfig.toml` checks the whole project.

## Where code and comments disagree

The model follows the code.

- The throttle promises no more than one fetch per floor. It compares whole seconds, so two claims can
  be up to a second closer than the floor (`Throttle.UndercutExactly`).
- The throttle's refusal is meant to carry the row, but the update asks for `ReturnValues` only, which
  a failed condition does not honour; both branches of the wait are modelled, and the sleep of the
  whole floor is the one that happens.
- Style and tone updates check the etag and then put without a condition, so the comment that two
  writes must never share a version does not hold (`TunerDecision.TwoWritesShareAVersion`); it fails
  exactly when a put lands on another guide than was checked (`TunerDecision.VersionsSharedExactly`).
- A dismissed delta may have changed the guide: the put precedes the status flip
  (`TunerDecision.DismissedButMerged`, exactly when: `TunerDecision.ChangedExactlyByAPut`).
- The operator handlers' row type lacks the 24-hour cleanup stamp, so every whole-row put drops it
  (`Website.WholeRowPutDropsCleanupStamp`), and a put from a stale read restores a wiped passcode
  (`Website.StaleApprovalRestoresWipedCipher`) or loses an approval (`Website.StaleRotationLosesApproval`).
  Exactly which puts keep what: `Website.WipeSurvivesPutExactly`, `Website.RotationKeepsStatusExactly`,
  `Website.StampSurvivesExactly`.
- The idempotency record and the marker stay after a failed run: mail goes out at most once, not
  exactly once (`Sender.StillSendableExactly`). A failure after an accepted send, such as the ledger's,
  stops the writes that follow it.
- A worker that dies between an accepted send and its index write leaves a mail whose replies are never
  attributed (`ReplyAddress.ReplyLostAfterCrash`, exactly when: `ReplyAddress.ReplyFindsItsBusiness`).
- The sweep's wipe asks for a cipher, not for a due one: a code rotated between the scan and the wipe
  goes with its seven days before it (`PasscodeCleanup.RotatedCodeIsWiped`, exactly when:
  `PasscodeCleanup.WipedUndueExactly`).
- The review queue's cap is counted before it is taken, so k qualifiers can pass it by k - 1
  (`ReviewQueue.QueueBounded`, reached: `ReviewQueue.QueueBoundReached`).
- robots.txt is promised to be at most 24 hours old; counted from its arrival it is so exactly without a
  delay before the clock is read (`RobotsCache.ArrivalAgeExactly`).
- An origin that sends Last-Modified alone is served stale after a second change within its second
  (`FetchCache.LastModifiedAloneGoesStale`, exactly when: `FetchCache.StaleExactlyWhenRevalidated`).
- Discovery's comment says the conditional write catches a racing writer of the same domain; the
  condition is on the fresh business id and cannot (`Discovery.RaceStoresTwice`, exactly when:
  `Discovery.UniqueExactly`).
- A reclassification updates whatever row the client's reference names; only references as listed,
  which name ReplyTriage rows, leave the status index alone (`StatusIndex.AcceptedRequestBreaksIndex`,
  exactly when: `StatusIndex.StepKeepsIndex` and `StatusIndex.IndexNamesStatus`).
- The cookie comment says an IP gives no domain; two addresses ending alike get their last two numbers
  (`CookieDomain.LastTwoParts`, exactly when: `CookieDomain.DomainExactly`).

## Model

| member | source | states |
|---|---|---|
| Sender.Lambda.ProcessRecord | lambdas/sender/main.go:123-137 | for every pattern of failures: SES is called, with the contact's address, exactly when the event is new and complete, the draft shows approved, the address is not suppressed, the marker was free and the budget allows it; which records an accepted send leaves; what the run answers; and that this is the lone worker of the interleaved model |
| Sender.Lambda.RunOne | lambdas/sender/main.go:139-283 | the same from the draft read on; every short way out answers ok exactly for nothing to send, nobody to send it to, not wanted, or sent already |
| Sender.Lambda.MarkSentOnce | lambdas/sender/main.go:465-488 | a caller is told it is first exactly when the marker was absent and the call is known to have succeeded; the marker is permanent once written |
| Sender.AtMostOneSend | lambdas/sender/main.go:187-195 | over any number of workers, duplicates, crashes, lost answers and swept records, SES is called at most once per business, contact and website |
| Sender.SendFollowsItsGuards | lambdas/sender/main.go:145-205 | every send follows, in the same worker, its approved-draft read, a not-suppressed answer for the very address used, and its own successful marker claim |
| Sender.SendNeedsEveryYes | lambdas/sender/main.go:139-213 | in every run each send comes after the same worker was told yes five times: an approved draft, the contact's own address, not suppressed, a marker nobody had claimed, within budget |
| Sender.HandlerRunsApart | lambdas/pkg/idempotency/idempotency.go:74-125 | two runs of the handler for one event start at least the record's 24 hours apart, sweeps included |
| Sender.StillSendableExactly | lambdas/sender/main.go:187-213 | a mail can still go out if and only if its marker is unclaimed or the claimer is alive between claim and send |
| Sender.DedupKeyInjective | lambdas/sender/main.go:285-288 | with contact ids free of the separator, two pairs share a marker key only if equal |
| Sender.DedupKeyCollides | lambdas/sender/main.go:285-288 | without that, two different pairs share one |
| Sender.DedupKeyCollidesExactly | lambdas/sender/main.go:285-288 | two contacts can share a marker key for some websites if and only if one id with the separator starts the other with it |
| Sender.ReplyRefsNameTheBusiness | lambdas/sender/main.go:246-257 | in every run each reply-index row names the business that owns its draft, and a worker that went on after its index write has one |
| Sender.IndexedExactly | lambdas/sender/main.go:246-257 | in every run a draft has a reply-index row if and only if some worker's index write for it did not fail; a write whose answer was lost counts |
| Sender.SentButNotIndexed | lambdas/sender/main.go:187-257 | wherever a mail can go out, some run sends it, ends its worker before the index write, and leaves it unindexed with a marker nobody can send for again |
| Idempotency.ItemsTable.WithIdempotency | lambdas/pkg/idempotency/idempotency.go:74-125 | empty names and failed puts refuse, an existing record means already processed, otherwise a record with a 24-hour expiry is written before the work runs |
| Idempotency.KeyInjective | lambdas/pkg/idempotency/idempotency.go:57-59 | consumers never share a record |
| Website.WebsiteTable.GeneratorRunOne | lambdas/generator/main.go:126-209 | which outcome in which case: missing business, missing spec, unapproved spec, failing calls before, at and after the put; the whole row is reset exactly for a known business and an approved spec, unless a call up to the put fails |
| Website.WebsiteTable.PublisherRunOne | lambdas/publisher/main.go:143-229 | which outcome in which case: missing business, missing row, row not generated, failing calls before, at and after the put; only a generated version is published, with the drawn eight-character code, its hash, its cipher and its seven-day deadline |
| Website.WebsiteTable.HandleDecision | lambdas/api-website/main.go:192-255 | which answer in which case: 400, 404, 409 unless published, 500 for failing or unheard reads and puts, 502 for a failing event; exactly when the put reached the table, event or not, the version read is stored as approved or rejected, as asked, by the actor, with everything else kept but the cleanup stamp |
| Website.WebsiteTable.HandleRegenerateSite | lambdas/api-website/main.go:266-320 | which answer in which case; the event goes out before the put and stays out when the put fails; the version read is put back as regenerated exactly when the put reached the table |
| Website.WebsiteTable.HandleRegeneratePasscode | lambdas/api-website/main.go:330-405 | which answer in which case: missing row, no code drawn or sealed, edge store or put failing; hash, cipher and deadline are replaced together by those of one new code, and a revocation is cleared, exactly when the put reached the table |
| Website.WebsiteTable.HandleRevealPasscode | lambdas/api-website/main.go:421-460 | which answer in which case; a code is revealed exactly when it is sealed, not revoked, its deadline has not passed and decryption works |
| Website.WebsiteTable.SetScreenshotsRow | lambdas/screenshotter/main.go:277-302 | changes the screenshots only, creating the row when it is missing |
| Website.WebsiteTable.SetCleanupDueRow | lambdas/sender/main.go:588-613 | stamps the cleanup deadline on an existing row only |
| Website.RowsStaySound | lambdas/api-website/main.go:192-405 | in every interleaving of all writers with arbitrarily stale reads, a stored cipher comes with its own hash and a deadline seven days after that code's issue, and published, approved and rejected rows have a hash and a preview address |
| Website.RevealOnlyInWindow | lambdas/api-website/main.go:421-460 | a revealed code, even from a stale read, was issued for that site at most seven days before |
| Website.WipeSurvivesPutExactly | lambdas/api-website/main.go:221-230 | a put keeps a wiped passcode wiped if and only if it was built from a version without one |
| Website.StaleApprovalRestoresWipedCipher | lambdas/api-website/main.go:221-230 | an approval from an earlier read puts a wiped passcode back |
| Website.StaleRotationLosesApproval | lambdas/api-website/main.go:355-387 | a rotation from an earlier read undoes an approval |
| Website.RotationKeepsStatusExactly | lambdas/api-website/main.go:355-387 | a rotation keeps the row's status, an approval among others, if and only if it was built from a read of that status |
| Website.WholeRowPutDropsCleanupStamp | lambdas/api-website/main.go:542-558 | every whole-row put forgets the cleanup stamp |
| Website.StampSurvivesExactly | lambdas/api-website/main.go:542-558 | of all writes that take effect, exactly the screenshots and the stamp itself leave a present stamp in place |
| PasscodeCleanup.ItemsTable.ScanDue | lambdas/passcode-cleanup/main.go:155-202 | for every split into pages, the references returned are those of the due items, in order, with the reason |
| PasscodeCleanup.ItemsTable.Wipe | lambdas/passcode-cleanup/main.go:217-242 | removes cipher and stamp of the addressed item exactly when a cipher is there and the write reaches the table, which it may while reporting an error, and touches nothing else |
| PasscodeCleanup.ItemsTable.Sweep | lambdas/passcode-cleanup/main.go:96-133 | fails exactly when the scan fails, some write reports an error, or an announcement fails after its own wipe; wipes exactly the items some reference's write reached, and announces exactly the references whose own wipe took effect without a fault; over the whole table without faults it succeeds and leaves nothing due |
| PasscodeCleanup.RefRoundTrip | lambdas/passcode-cleanup/main.go:185-215 | the reference taken from an item's keys addresses that item again |
| PasscodeCleanup.DueItemIsReferenced | lambdas/passcode-cleanup/main.go:155-202 | no due item on any page is missed |
| PasscodeCleanup.NothingDueAfterSweep | lambdas/passcode-cleanup/main.go:96-133 | when every reference of a scan over the whole table is wiped, however paged, no item holds a cipher past a deadline; Sweep's contract carries it to runs without faults |
| PasscodeCleanup.SealedCodesAreYoung | lambdas/passcode-cleanup/main.go:96-242 | after any run of the Website writers, an error-free sweep leaves only codes issued less than seven days before it |
| PasscodeCleanup.SweepIsWipes | lambdas/passcode-cleanup/main.go:96-133 | a sweep is a run of wipe steps of the row model: the table afterwards holds that run's rows |
| PasscodeCleanup.SealedCodesAge | lambdas/passcode-cleanup/main.go:96-242 | between sweeps, while nobody acts on a read from before the last one, a code still sealed was issued less than seven days plus the time since that sweep before |
| PasscodeCleanup.WipedUndueExactly | lambdas/passcode-cleanup/main.go:217-242 | after any writes between scan and wipe, what the wipe removes is not due if and only if the row's last rewrite put a code with its deadlines ahead there |
| PasscodeCleanup.RotatedCodeIsWiped | lambdas/passcode-cleanup/main.go:217-242 | a code rotated between the scan and the wipe is wiped with seven days before it |
| Throttle.HostThrottle.TryAcquire | lambdas/pkg/politefetch/throttle.go:59-110 | claims exactly when the row is absent or old enough in whole seconds, writes only then, and otherwise returns the estimated wait |
| Throttle.HostThrottle.Wait | lambdas/pkg/politefetch/throttle.go:38-54 | with the caller's floor, or the default for a non-positive one: every try before the last met a row younger than that and slept what the refusal told, or the whole floor; the claim met no row or an old enough one, and is that floor's step of the fleet |
| Throttle.ClaimsSpacedWhileRowLives | lambdas/pkg/politefetch/throttle.go:59-110 | while the row lives, any two claims store times at least the later caller's floor apart in whole seconds, whatever the clocks read |
| Throttle.RealSpacing | lambdas/pkg/politefetch/throttle.go:59-110 | on a shared clock real spacing exceeds the floor, or the row's lifetime where that is shorter, less one second, expiry sweeps included |
| Throttle.UndercutExactly | lambdas/pkg/politefetch/throttle.go:59-110 | a whole-second floor is undercut in real time exactly when the stored seconds are the floor apart and the later claim falls earlier in its second |
| Throttle.UndercutExactlyAnyFloor | lambdas/pkg/politefetch/throttle.go:59-110 | any floor is undercut exactly when the instant a floor ago falls in the earlier claim's second but before it |
| Throttle.FloorCanBeUndercut | lambdas/pkg/politefetch/throttle.go:59-110 | two claims 4.1 seconds apart both pass a five-second floor |
| Throttle.CarriedRowOpensNextTry | lambdas/pkg/politefetch/throttle.go:115-138 | a refusal that carries the row: sleeping its estimate opens the next try, whatever the clock skew |
| Throttle.BlindSleepOpensNextTry | lambdas/pkg/politefetch/throttle.go:115-118 | a refusal without the row: the next try opens if and only if the stored time is not ahead of the caller's clock |
| Throttle.OneSleepSuffices | lambdas/pkg/politefetch/throttle.go:38-138 | without contention, two tries and one sleep claim, by either branch |
| CostLedger.CostRecords.Assert | lambdas/pkg/cost/cost.go:159-175 | no cap admits all; otherwise exactly the non-negative estimates that fit the spend the read shows; which error in which case |
| CostLedger.CostRecords.Record | lambdas/pkg/cost/cost.go:111-155 | adds the amount and one call to the day, or changes nothing; a write whose answer is lost is reported as failed though it took effect |
| CostLedger.CostRecords.WithCostCap | lambdas/pkg/cost/cost.go:186-207 | the paid call runs exactly when admitted; its cost and one call are on the ledger exactly when the record took effect; alone within a day it does what the interleaved model's caller does |
| CostLedger.SpendBounded | lambdas/pkg/cost/cost.go:111-207 | for a positive cap, with at most k callers between check and record, no day's spend exceeds the cap by more than k - 1 of the largest estimates and what a read may miss, midnight crossings included |
| CostLedger.SequentialCallersKeepCap | lambdas/pkg/cost/cost.go:111-207 | for a positive cap, one caller at a time exceeds it by no more than a read may miss, so never with consistent reads |
| CostLedger.BoundReached | lambdas/pkg/cost/cost.go:111-207 | for every cap, k, largest estimate and lag some run spends exactly that bound |
| CostLedger.NoCapNoBound | lambdas/pkg/cost/cost.go:160-162 | without a positive cap a single caller can spend any amount |
| CostLedger.LedgerIsSumOfRecords | lambdas/pkg/cost/cost.go:111-155 | a day's spend and call count are the sum and the number of what was recorded on it |
| MergeList.MergeLists | lambdas/api-tuners/main.go:311-342 | the loops, the seen map and the in-place compaction give exactly the non-blank trimmed entries that are not removed, once each, in the order of first occurrence, what was there before what is added |
| MergeList.MergedMembers | lambdas/api-tuners/main.go:311-342 | the merged list holds exactly the non-blank trimmed entries of both lists that are not removed, once each |
| MergeList.MergedIsMerge | lambdas/api-tuners/main.go:311-342 | members, uniqueness and order of the merged list, in terms of the trimmed entries alone |
| MergeList.TrimCuts | lambdas/api-tuners/main.go:314-319 | trimming cuts white space only, at both ends, and leaves none there |
| MergeList.MergeKeepsOrder | lambdas/api-tuners/main.go:311-342 | what was there and stays comes first, in its order |
| MergeList.MergeIdempotent | lambdas/api-tuners/main.go:311-342 | merging the same delta into its own result changes nothing |
| TunerDecision.ApplyTwice | lambdas/api-tuners/main.go:257-307 | applying a delta twice is applying it once |
| TunerDecision.ApplyDeltaApplies | lambdas/api-tuners/main.go:268-292 | each list of the result is the merge of the old list with its own edit's additions and removals, and the primary colour changes exactly for a style delta that names one |
| TunerDecision.GuideTable.Update | lambdas/pkg/style/style.go:215-240 | a missing expected etag, a missing row, another etag and a failing validation are told apart and change nothing; otherwise the guide is stored, with the version raised above the one read where it is not already and a new etag, without a further condition; what validates, attribute by attribute |
| TunerDecision.GuideTable.Apply | lambdas/api-tuners/main.go:257-307 | alone, a style or tone delta stores each list merged with its own edit under the next version if they validate; a targeting delta changes nothing; an unknown kind, a missing or an invalid guide is an error |
| TunerDecision.DecisionRows.HandleDecision | lambdas/api-tuners/main.go:172-245 | one request, for every pattern of failures and lost answers: which answer, which status, whether audited, and the guide with each list merged with its own edit exactly when the put reached the table; alone it is the handler of the interleaved model |
| TunerDecision.DecisionRows.SetDeltaStatus | lambdas/api-tuners/main.go:369-401 | flips a pending delta only; the caller learns that it decided exactly when it did and the call is known to have succeeded |
| TunerDecision.OriginalOrOnceMerged | lambdas/api-tuners/main.go:172-307 | however many applies and dismisses race, failing, losing answers or reading stale rows anywhere, the phrase lists are the original ones until a put and the once-merged ones ever after; every put wrote each list merged with its own edit; an applied style or tone delta is merged |
| TunerDecision.OneDecisionOneAudit | lambdas/api-tuners/main.go:369-401 | at most one audit row is written, by the handler whose decision the status shows |
| TunerDecision.DecisionIsFinal | lambdas/api-tuners/main.go:369-401 | a decided delta keeps its decision |
| TunerDecision.TwoWritesShareAVersion | lambdas/pkg/tone/tone.go:208-233 | two updates that checked one etag both write, under one version |
| TunerDecision.VersionsSharedExactly | lambdas/pkg/style/style.go:219-239 | in every run, two writes share a version if and only if some put landed on a stored guide other than the one its handler had checked |
| TunerDecision.DismissedButMerged | lambdas/api-tuners/main.go:172-245 | for every acceptable delta, a run ends dismissed with the merged guide |
| TunerDecision.ChangedExactlyByAPut | lambdas/api-tuners/main.go:172-245 | in every run, whatever was decided, the guide's lists differ from the original if and only if some apply reached its put and the merge changes anything |
| ProfileEtags.Validate | lambdas/pkg/targeting/profile.go:76-97 | accepts exactly non-blank vertical and location with non-negative weights summing to one within a hundredth |
| ProfileEtags.ProfileTable.PutItem | lambdas/pkg/targeting/profile.go:288-322 | writes only where the stored etag is the expected one, unconditionally without one, and indexes enabled profiles only |
| ProfileEtags.ProfileTable.Create | lambdas/pkg/targeting/profile.go:140-154 | a valid body becomes a row with fresh id, etag, times and zero stats, an invalid one nothing |
| ProfileEtags.ProfileTable.Get | lambdas/pkg/targeting/profile.go:158-184 | the row, a missing-row error, or an invalid-id error |
| ProfileEtags.ProfileTable.Update | lambdas/pkg/targeting/profile.go:224-249 | the id, body, missing-row and etag errors told apart; otherwise the row stores what the caller sent, under the stored id, creation time and stats, a new etag and time, and indexed exactly when enabled |
| ProfileEtags.ProfileTable.Delete | lambdas/pkg/targeting/profile.go:252-275 | removes the row and reports a missing one |
| ProfileEtags.UpdatesFormAChain | lambdas/pkg/targeting/profile.go:224-322 | in every interleaving of creates, updates and deletes with stale reads, a successful update replaced exactly the version its caller named, with no other write of that profile between |
| ProfileEtags.UpdatesStoreTheirRequest | lambdas/pkg/targeting/profile.go:234-249 | in every run each update stored the vertical, location, weights and switch its own request sent |
| ProfileEtags.NoLostUpdate | lambdas/pkg/targeting/profile.go:308-313 | two successful updates never name the same etag |
| ProfileEtags.DeletedStaysDeleted | lambdas/pkg/targeting/profile.go:252-322 | nothing is written about a profile after its deletion |
| ProfileEtags.ServerFieldsCarried | lambdas/pkg/targeting/profile.go:238-245 | id, creation time and stats never change over a profile's life |
| ProfileEtags.StoredRowsSound | lambdas/pkg/targeting/profile.go:288-304 | stored profiles are valid and carry index keys exactly when enabled |
| Discovery.Table.PersistOne | lambdas/discover/main.go:198-269 | alone, a business is stored exactly when its trimmed lower-case domain is non-empty and unknown, and domains stay unique |
| Discovery.WriteKeepsUniqueExactly | lambdas/discover/main.go:335-360 | a write keeps domains unique exactly when the domain is still free at that instant |
| Discovery.UniqueExactly | lambdas/discover/main.go:198-269 | in every run domains are unique if and only if no write was raced: its worker's check ran with the domain taken already and unseen, or another worker stored the domain between that check and the write |
| Discovery.RaceStoresTwice | lambdas/discover/main.go:213-249 | two workers that both check before writing store a domain twice |
| FetchCache.EtagCache.Get | lambdas/pkg/politefetch/etag.go:61-92 | an unexpired row, and a miss for everything else |
| FetchCache.EtagCache.Put | lambdas/pkg/politefetch/etag.go:98-136 | stores a response with a validator for 24 hours, nothing otherwise |
| FetchCache.Client.FetchWithRetry | lambdas/pkg/politefetch/politefetch.go:171-220 | at most MaxRetries + 1 requests; each but the last met a network error, a 429 or a server error and slept; the last is answered from the cache on a 304, or with exactly what came, or fails; the loop never runs out |
| FetchCache.Client.Fetch | lambdas/pkg/politefetch/politefetch.go:141-167 | a cached answer is the body of an unexpired row on a 304, any other exactly what the last request brought; only fresh successes with a validator replace the row, and a failed write changes nothing |
| FetchCache.CachedIsPlain | lambdas/pkg/politefetch/politefetch.go:116-220 | against an origin with distinct tags for distinct bodies, every successful response, cached or not, is the origin's body at that instant, over any run of changes, expiries, stale rows and failed writes |
| FetchCache.StaleExactlyWhenRevalidated | lambdas/pkg/politefetch/politefetch.go:180-202 | some run over a history of the content serves a stale body if and only if a later version revalidates the entry of an earlier one with another body |
| FetchCache.LastModifiedAloneGoesStale | lambdas/pkg/politefetch/etag.go:98-103 | an origin with Last-Modified alone is served stale in some run with a second change within its second |
| RobotsCache.Cache.FetchLive | lambdas/pkg/politefetch/robots.go:132-158 | 4xx allows everything, 5xx nothing, otherwise the body |
| RobotsCache.Cache.LoadOrFetch | lambdas/pkg/politefetch/robots.go:109-130 | a fresh row answers with its own expiry; otherwise a live fetch is stored for 24 hours; a failing read, fetch or write is an error that stores nothing |
| RobotsCache.Cache.Lookup | lambdas/pkg/politefetch/robots.go:73-104 | a live memo answers; otherwise the loaded body becomes the memo with the expiry it came with; exactly which failures end in an error, and what they have stored |
| RobotsCache.DecisionsAreFresh | lambdas/pkg/politefetch/robots.go:73-130 | every decision, through both layers and any interleaving of processes, rests on a body of that host stamped less than 24 hours before |
| RobotsCache.ArrivalAgeExactly | lambdas/pkg/politefetch/robots.go:121-125 | over all runs the age counted from a body's arrival stays under 24 hours plus the longest delay before the clock was read, and under no smaller bound |
| RobotsCache.AloneLooks | lambdas/pkg/politefetch/robots.go:73-130 | what Lookup promises of memo, row and answer, for every pattern of failures, is what the steps of one lookup do when nothing else runs |
| Revocation.Isolate.PasscodeStillIssued | worker/src/index.ts:236-246 | a live entry answers unchanged; otherwise the store does, and is remembered for 60 seconds from the request's start |
| Revocation.AloneAsks | worker/src/index.ts:236-246 | what PasscodeStillIssued promises of answer and cache is what the fleet's steps do when one request runs alone |
| Revocation.Isolate.ServeAsset | worker/src/index.ts:81-136 | an asset is shown exactly to a valid operator token or cookie whose site is still issued; a matching query passcode redirects; nobody else consults the cache |
| Revocation.Isolate.ServeScreenshot | worker/src/index.ts:161-184 | the same for screenshots, by cookie only |
| Revocation.VerdictsAreRecent | worker/src/index.ts:236-246 | every verdict, admitting or denying, over any number of isolates and overlapping requests, is what the store said less than 60 seconds (plus its lag) before |
| Revocation.RevokedWithinTheMinute | worker/src/index.ts:126-136 | nothing is authorised from 60 seconds (plus lag) after a deletion on, until the code is reissued |
| Revocation.MinuteIsTight | worker/src/index.ts:219-246 | a warm isolate does authorise for exactly that minute |
| StatusIndex.BusinessTable.WriteBusiness | lambdas/discover/main.go:335-360 | inserts a new business under the new status, never overwriting one |
| StatusIndex.BusinessTable.UpdateBusinessStatus | lambdas/qualifier/main.go:571-606 | status, index keys and backlog flag change together, on existing rows only |
| StatusIndex.BusinessTable.ClearAwaitingPromotion | lambdas/backlog-promoter/main.go:263-293 | clears the backlog flag where set, touching nothing else |
| StatusIndex.BusinessTable.SetStatus | lambdas/reply-detector/main.go:309-342 | status and index key change together, unless the row is missing or converted |
| StatusIndex.BusinessTable.MarkReplied | lambdas/reply-detector/main.go:309-342 | a reply marks the business as responded unless it has converted |
| StatusIndex.BusinessTable.TriageReply | lambdas/reply-triage/main.go:216-240 | an attributed unsubscribe from 0.8 confidence rejects the business, interest from 0.6 marks it responded, unless converted; anything else writes no status |
| StatusIndex.BusinessTable.HandleReclassify | lambdas/api-replies/main.go:232-306 | refuses an unknown category, an undecodable reference and one that does not match the path id; otherwise the business named is rejected for an unsubscribe and marked responded for interest unless converted, the row itself named goes to the reviewed listing, no other row changes, and a missing row is a failure |
| StatusIndex.StepKeepsIndex | lambdas/api-replies/main.go:276-306 | a write keeps the index in step with the statuses exactly unless it reclassifies by a reference to a Business row with a category that does not rewrite the status |
| StatusIndex.AcceptedRequestBreaksIndex | lambdas/api-replies/main.go:232-306 | a reference to any Business row with path id PROFILE and category unknown is accepted and takes the row out of its status's listing |
| StatusIndex.IndexNamesStatus | lambdas/reply-triage/main.go:510-539 | after any run every business is listed under its own status if and only if no reclassification by a reference to a Business row took one out that no later write put back |
| StatusIndex.ListedReferencesKeepIndex | lambdas/api-replies/main.go:276-306 | with references as the API lists them every business stays listed under its own status |
| StatusIndex.ConvertedStays | lambdas/api-replies/main.go:310-339 | reply writers, the promoter and discovery never move a converted business |
| StatusIndex.QualifyMovesConverted | lambdas/qualifier/main.go:571-606 | a qualification does |
| StatusIndex.CountByStatus | lambdas/pkg/queue/queue.go:79-108 | for every split into pages, the count is that of the base table's rows with that status that pass the filter, at the query's instant |
| StatusIndex.CountActiveSlots | lambdas/pkg/queue/queue.go:49-68 | the two queries see their own instants; the count differs from the businesses awaiting review or qualified and not in the backlog, at either instant, by at most the businesses changed in between |
| ReviewQueue.Qualifier.Decide | lambdas/qualifier/main.go:189-268 | a qualified business is parked exactly when the count reaches a positive maximum, announced otherwise; which failures stop it, and that a failing status update does not; alone it does what the interleaved model's count and write do |
| ReviewQueue.QueueBounded | lambdas/qualifier/main.go:193-240 | under a positive maximum, with at most k qualifiers between count and write, the slots in use never pass it by more than k - 1, what counts may miss, and the slot-freed events on their way to the promoter |
| ReviewQueue.QueueBoundReached | lambdas/qualifier/main.go:193-240 | for every maximum, k and lag, k qualifiers that count before any of them writes reach that bound |
| StatusIndex.StatusBreakdown | lambdas/metrics-rollup/main.go:182-218 | total and per-vertical counts are the base table's, businesses without a vertical under the default one, and the counts sum to the total |
| StatusIndex.Rollup | lambdas/metrics-rollup/main.go:99-162 | every funnel figure counts the table at its query's instant and is the sum of its per-vertical cells, each of which counts its vertical; seeded verticals are present; every vertical has its profile versions; the costs sum up; a failing call leaves no snapshot |
| StatusIndex.CostForDate | lambdas/metrics-rollup/main.go:236-262 | per-stage costs are the sums of that stage's rows, unnamed stages left out, and the total is their sum |
| StatusIndex.FunnelIsSumOfCells | lambdas/metrics-rollup/main.go:116-125 | a column that holds a breakdown sums to its total |
| MimeMessage.BuildRawMime | lambdas/sender/main.go:294-317 | for every subject and body, with from, to, id and unsubscribe base free of CR and LF, reading at the first empty line gives sender, recipient, plus-addressed Reply-To, one-line subject, plain text type and both unsubscribe ways, in order, and the body untouched |
| MimeMessage.ReadRendered | lambdas/sender/main.go:294-317 | reading undoes rendering for every list of clean fields and every body |
| ReplyAddress.ReplyTokenRoundTrip | lambdas/sender/main.go:323-330 | reading a plus address gives the sanitised token back if and only if the address has no '+' of its own and its lower-case domain is the reply domain |
| ReplyAddress.PlusAddressForm | lambdas/sender/main.go:323-330 | the sanitised token goes between local part and domain, which both stay |
| ReplyAddress.StrippedNext | lambdas/sender/main.go:328 | sanitising drops exactly CR, LF, '@' and '+', character by character |
| ReplyAddress.ExtractDraftId | lambdas/reply-detector/main.go:198-219 | the first token along all recipients of all headers, unparseable values skipped |
| ReplyAddress.ReplyFindsItsBusiness | lambdas/reply-detector/main.go:153-166 | after any run of the sender, a reply to an indexed message finds the row of that message's own business, as long as no earlier recipient carries a token of the reply domain |
| PrioritySortKey.KeyOrder | lambdas/pkg/queue/queue.go:123-125 | byte order of keys is numeric order of the rounded priorities, then of the ids |
| PrioritySortKey.HigherPrioritySortsHigher | lambdas/pkg/queue/queue.go:118-125 | priorities more than a ten-thousandth apart sort that way for all ids |
| PrioritySortKey.RoundedPriorities | lambdas/pkg/queue/queue.go:118-125 | priorities in [0, 1] fit the fixed width, and rounding never swaps two |
| PrioritySortKey.KeyRoundTrip | lambdas/api-queue/main.go:208-218 | parsing a key gives the rounded priority back, whatever the id |
| PrioritySortKey.ShownIsClose | lambdas/api-queue/main.go:208-218 | the parsed priority is within 0.00005 of the encoded one |
| PrioritySortKey.PriorityScore | lambdas/pkg/qualifier/priority.go:73-90 | the score is in [0, 1] for all inputs and weights |
| PrioritySortKey.ScoreIsWeightedSum | lambdas/pkg/qualifier/priority.go:73-90 | the score is the weighted sum of what each signal scores alone, cut off at 0 and 1 |
| PrioritySortKey.SignalsAlone | lambdas/pkg/qualifier/priority.go:73-113 | what the audit, the vertical, the listing and the contact score alone |
| PrioritySortKey.AgeAlone | lambdas/pkg/qualifier/priority.go:120-132 | what page speed and a contact link score alone |
| PrioritySortKey.NeedRaisesScore | lambdas/pkg/qualifier/priority.go:73-90 | with non-negative weights a worse site, better contact or more confidence never lowers the score |
| PrioritySortKey.WebsiteAgeMonotone | lambdas/pkg/qualifier/priority.go:120-132 | once measured, a slower page or a missing contact link never lowers the age signal, which stays in [0, 1] |
| PrioritySortKey.EqFold | lambdas/pkg/qualifier/priority.go:146-163 | the loop decides equality up to ASCII case |
| HtmlStripper.StripTagBlock | lambdas/audit/main.go:317-332 | terminates by length, leaves no opening of the tag in any case, and is what repeated cutting leaves |
| HtmlStripper.StripToText | lambdas/audit/main.go:290-315 | the text has no angle bracket and no leading, trailing or doubled white space |
| HtmlStripper.OnlyBlocksGo | lambdas/audit/main.go:317-332 | of quiet pieces and whole blocks in any order, exactly the blocks go |
| HtmlStripper.PageText | lambdas/audit/main.go:290-332 | of a page of text, tags and whole script and style blocks, the stripper keeps exactly the text, a blank for each tag, white space collapsed |
| HtmlStripper.UnclosedHidesRest | lambdas/audit/main.go:317-332 | after such a page an unclosed opening, of a block or of any tag whose name merely begins with script or style, hides everything that follows |
| HtmlStripper.TextIdempotent | lambdas/audit/main.go:290-315 | stripping again changes nothing |
| HtmlStripper.PlainPageKept | lambdas/audit/main.go:290-315 | the text holds every visible character of the page in order if and only if the page has no angle bracket |
| HtmlStripper.BareBracketText | lambdas/audit/main.go:296-312 | a bare '<' hides all text after it |
| CookieDomain.CookieScopeDomain | frontend/src/auth.ts:103-116 | the walk from the back finds the longest shared list of labels; the answer is its join when usable, empty for empty or equal hosts |
| CookieDomain.Symmetric | frontend/src/auth.ts:103-116 | the answer does not depend on which host is which |
| CookieDomain.SharedDomain | frontend/src/auth.ts:103-116 | a non-empty answer domain-matches both hosts (section 5.1.3 of RFC 6265), has at least two labels and is no listed suffix |
| CookieDomain.SharedDomainIsLongest | frontend/src/auth.ts:103-116 | every domain that matches both hosts matches the answer |
| CookieDomain.ListedHaveTwoLabels | frontend/src/auth.ts:90-101 | the listed suffixes have two labels each, as SharedDomain needs |
| CookieDomain.LastTwoParts | frontend/src/auth.ts:103-116 | hosts that share their last two parts and no more, addresses included, get those two parts unless listed |
| CookieDomain.DomainExactly | frontend/src/auth.ts:103-116 | two different hosts get a domain if and only if their last two labels agree, and the last three where the last two are listed |

## Left out

- Calls to SES, Bedrock, KMS, R2, Cloudflare, EventBridge and HTTP are steps that succeed, fail or take effect while reporting an error.
- SHA-256 and KMS encryption are taken as injective; random ids, etags and codes as never repeating where a lemma says fresh.
- Website.RowsStaySound: the key-value store and the row are assumed to agree; a crash between the two writes of the publisher or the rotation is not modelled.
- Revocation.VerdictsAreRecent: the store's own propagation delay is the parameter `lag`, and an answer is judged at the instant it is used.
- Revocation.Isolate.ServeAsset: the signatures of cookies and operator tokens and the passcode comparison enter as their verdicts.
- Throttle.RealSpacing: supposes one shared clock; `Throttle.ClaimsSpacedWhileRowLives` supposes none.
- Website.WebsiteTable.PublisherRunOne: the random code is a parameter.
- CostLedger.SpendBounded: amounts are integer micro-dollars instead of floating point, and a write is added once, though a client library may repeat one whose answer was lost.
- TunerDecision.OriginalOrOnceMerged: no other writer of the guide and no same-week rewrite of the delta by the tuner, which can return a decided delta to pending.
- TunerDecision.GuideTable.Update: creation and update times, a tone profile's signature and the colour values of the neutral shades are not modelled.
- Style and tone versions are not claimed to increase under concurrent updates; see TwoWritesShareAVersion.
- FetchCache.CachedIsPlain: bodies are text that survives storage as a string; an origin answers as sections 13.1.2 and 13.1.3 of RFC 9110 say, or fails.
- FetchCache.Client.FetchWithRetry: the length of backoff sleeps is not modelled, only whether they were cut short.
- RobotsCache.DecisionsAreFresh: the robots parser is opaque; age is counted from the clock reading that follows the fetch, see ArrivalAgeExactly.
- ReviewQueue.QueueBounded: slot-freed events follow the design, since no code emits them yet; the count sees the status index in step but for what it may miss.
- ReviewQueue.Qualifier.Decide: the reads before the score; the qualification row's content.
- StatusIndex.CountActiveSlots: all pages of one query see one instant, and the index is up to date.
- StatusIndex.Rollup: the snapshot's date, expiry and write are left out; costs are integer micro-dollars.
- PasscodeCleanup.ItemsTable.ScanDue: all pages of a scan see one instant.
- ReplyAddress.ReplyFindsItsBusiness: a draft row's id is the id in its key, and mail address parsing is given.
- PrioritySortKey.ShownIsClose: scores are reals, ties may round either way, and only plain unsigned decimals are parsed.
- HtmlStripper.StripToText: letter case is ASCII; lowering that changes byte lengths is not modelled, and joining the halves of a tag by cutting a block between them is outside PageText.
- CookieDomain.SharedDomain: host names; RFC 6265 does not let an IP address domain-match a suffix.
- White space beyond U+00FF in trimming and splitting.
- Settings changes and cost rollover, unguarded reads followed by puts.
- The backlog promoter's choice of an entry: its query limits before it filters, so it need not be the highest priority.
- The React pages, API client, routers, logging, prompts, schemas, templates and infrastructure code.
