# Checkgate: models and proofs

Checkgate is a feature-flag service. Writers change flags in PostgreSQL, the server publishes every change through
Redis and streams it to its clients, and each client evaluates flags locally against the copy it holds. This project
models that system in Dafny and proves what its parts promise each other:

- **Replication** (`Revisions`, `Segments`, `Publication`, `ClientSpec`, `NodeClient`, `Replication`, `Streaming`).
  Writers, Redis, the subscriber, the bounded broadcast channel, the stream with its bootstrap, and the Node client
  are one step system. Writes of one flag get increasing revisions in commit order; publications may be late,
  reordered, repeated or lost with the Redis subscription. One inductive invariant says of every client past `ready`
  that what it holds, joined with what is still under way to it, is the database, unless its stream is bound to be
  closed; and once writers and Redis are quiet, every connecting client gets there by itself. The client is modelled
  twice: as a state machine (`ClientSpec`) on which whole runs are proved, and as a class with the fields and handlers
  of the original (`NodeClient`), each handler proved to be its state-machine step. So are the streams of a server
  (`Streaming`): any number of receivers in any interleaving, and the channel, the receive loop and the subscriber.
- **Evaluation** (`Evaluator`, `Variants`). The depth-guarded evaluator against the least-fixpoint meaning of
  prerequisites, over any store, cyclic or not; weighted bucketing over all 32-bit hashes, in saturating arithmetic.
- **Governed writes** (`Governance`, `GovernedWrites`). Scheduler workers and reviewers as concurrent transactions
  with row locks, savepoints and rollback; then the scheduler loop and the request handlers, whose every effect is a
  sequence of those steps, with anything others do between and during their statements.
- **The edge cache** (`EdgeCache`). Calls, responses and continuations in any interleaving; again a state machine and
  the class that implements it.
- **Three algorithms.** The hand-written SHA-256 of the cache key against FIPS 180-4 (`Words`, `Sha256`,
  `Sha256Constants`, `UriEncoding`, `CacheKey`), the escaping of JSON for a script element against RFC 8259
  (`JsonText`, `JsonRoundTrip`, `JsonValues`, `Bootstrap`), and the Rust raw-string printer against Rust's lexical rules
  (`RustLiteral`).

`dafny verify dfyconfig.toml` checks the whole project.

## Where the code does less than its comments say

- **The first Redis subscription sends no RESYNC** (`server/src/main.rs:323-330`). The comment reasons about
  resubscriptions only. A stream that read the database before the first subscription stands misses whatever is
  published in between, and nothing closes it. `Replication.ExposedIsReachable` leads from a fresh server to such a
  stream, `Replication.LostBeforeFirstSubscription` from there to a write that is lost for good, and
  `Replication.FirstSubscriptionSafeIff` says exactly when the first subscription is safe: when no stream is exposed,
  that is, has read the database and is neither broken, nor lagging, nor about to read a RESYNC.
- **A failed publication is not always followed by a RESYNC** (`server/src/api/flags.rs:1047-1076`). Between the moment
  when Redis accepts the RESYNC for one failure and the moment when its loop is marked as finished, another failure
  starts no new loop. `Replication.RelyingIsReachable` leads to that moment with a stream that depends on what comes
  next, `Replication.LostWhileClearing` from there to a write that is lost for good, and
  `Replication.SilentFailuresSafeIff` says exactly when such failures are safe: when no stream of the environment relies
  on them, that is, has read the database and is not bound to be closed.
- The whole-run results on replication assume these two conditions (`Replication.Gapless`) and no others.
- **"`[60, 30, 10]` behaves identically to `[6, 3, 1]`"** (`core/src/evaluator.rs:77-78`) is true of the shares only.
  `Variants.ScalingInModuloBranch` says exactly when multiplying weights whose total fits 32 bits by any factor keeps
  every user's variant: when the factor is one or a single variant has all the weight.
  `Variants.SameRatiosDifferentPick` is the comment's own example. For totals above 32 bits the comment holds, hash by
  hash (`Variants.ScalingKeepsPicks`).
- **Order independence** of change events needs one thing the client does not check: two upserts with the same key and
  the greatest revision must carry the same flag. `Revisions.OrderIndependence` is an if-and-only-if, and
  `Revisions.OrderMatters` two events that show it.
- **`refresh()` of the edge cache** rejects on a body that is not JSON even when a snapshot is loaded
  (`edge/src/checkgate-edge.js:134`), unlike every other failure; the snapshot is kept. `EdgeSpec.RejectsIff`, and
  `EdgeSpec.RejectsWhileLoaded` is such a run.
- **Reconnect delays** are not capped at `maxReconnectDelayMs` as `sdks/nodejs/index.js:285-289` says: the jitter is
  added after the cap. They stay within it whatever the jitter exactly when the capped delay is at most 1/1.3 of it
  (`ClientSpec.WithinMaxIff`).
- **Hydration** puts a stored flag into the cache under its property name and into the evaluation store under its own
  key. The two agree afterwards exactly when these are the same for every stored flag
  (`ClientSpec.HydrationMirrorsIff`; `ClientSpec.HydrationMisplaces` is an instance), as they are in what the client
  writes itself; the whole-run results assume that.
- **A stored snapshot is not taken over as a whole** (`sdks/nodejs/index.js:642-658`). It is laid over what an earlier
  session left, since `disconnect()` keeps the flags. It replaces them exactly when it has a flag for each of them
  (`ClientSpec.HydrationReplacesIff`), and over whole runs a client always serves the last snapshot of any kind, with the
  events accepted since, exactly when every hydration does (`ClientSpec.ServesPromisedIff`). The first `connect()` of a
  client always serves the stored snapshot alone (`ClientSpec.FirstConnectServesStored`);
  `ClientSpec.SecondConnectServesMore` is a run in which a later one does not.
- **Rust literals** read back exactly when the text has no carriage return, no quote followed by 255 hashes and no lone
  surrogate (`RustLiteral.ReadsBackIff`); `RustLiteral.CarriageReturnsAreLost` shows both ways in which a carriage
  return fails.
- **JSON.stringify** drops absent properties and writes null for absent elements and numbers that are not finite: a
  payload comes back whole exactly when it has none of them (`JsonValues.ComesBackIff`; `JsonValues.LostInTransit` shows
  both losses), numbers as they are printed, so that negative zero comes back as zero.

## Assumptions

- A commit precedes its publication, and a patch loads its segments at some moment in between. Revisions increase per
  flag in commit order, as the trigger that bumps them under the row lock ensures. A tombstone is pruned only when
  nothing about its key is under way. A segment write and the new revisions of the flags that use the segment are one
  commit.
- A closed stream delivers nothing; the frames of one stream arrive in order. Every event carries a revision, and
  revisions and lengths are exact as JavaScript numbers.
- The hash and the test of one targeting rule are arbitrary functions (`Flags.Oracle`), and so is merging a patch into
  a flag (`Governance.Merge`): nothing depends on what they compute.

## Model

| member | source | states |
|---|---|---|
| Revisions.StaleMeansBefore | sdks/nodejs/index.js:10-20 | dropping stale events is one total order: by revision, and a delete after the upsert of the same revision |
| Revisions.EveryKeySettles | sdks/nodejs/index.js:270-280 | after any live events each key holds the greatest mark among its own and the events', with the flag that came with it or none after a delete; untouched keys stay |
| Revisions.OrderIndependence | sdks/nodejs/index.js:10-20 | the outcome depends only on which events arrive, in any order and with any repetition, exactly when no two different flags compete for a key's greatest revision |
| Revisions.OrderMatters | sdks/nodejs/index.js:270-280 | of two flags with the same key and revision the one that arrives last stays |
| Segments.ExpansionIgnoresOtherSegments | server/src/api/segments.rs:129-165 | changing a segment changes the expansion only of flags that reference it, so only those must be published again |
| SegmentSemantics.ExpansionKeepsMatches | server/src/api/segments.rs:129-165 | evaluating expanded rules is evaluating the rules with their segments: a rule naming a segment matches when one of its rules does and gives that rule's variant or else its own; an unknown segment matches nobody |
| Publication.WriteKeepsDbOk | server/migrations/20261018000027_flag_tombstones.sql:19-31 | every write keeps tombstones older than a flag that was created again, and all revisions below those to come |
| Publication.RevisionsGrow | server/migrations/20261018000024_flag_revisions.sql:10-21 | a write gives a flag only revisions the flag has not had |
| Publication.SegmentWriteContent | server/src/api/segments.rs:462-510 | a segment write leaves what clients are sent unchanged for every flag that gets no new revision |
| Publication.UntouchedContent | server/src/api/flags.rs:912-964 | a write that publishes nothing for a flag, such as archiving, leaves what clients should serve unchanged while its revision may grow |
| Publication.WriteKeepsPatchedJob | server/src/api/flags.rs:701-708 | a patch that expands its flag only when it publishes, against segments written since, still publishes something right or overtaken |
| Publication.WriteKeepsSlotOk | server/src/api/flags.rs:988-998 | across any write, a client's entry for a flag stays sound and its settling event stays held or under way |
| Publication.DeliveryKeepsSlotOk | sdks/nodejs/index.js:270-280 | delivering any one of the events under way, taken or dropped as stale, keeps every flag of the client sound and settled |
| Publication.ReplaySettles | server/src/stream.rs:86-131 | the replay of a snapshot settles every flag of the environment for a client that holds nothing, deleted flags included |
| ClientSpec.FreshIsConsistent | sdks/nodejs/index.js:60-94 | a new client satisfies the invariant of the connection machine |
| ClientSpec.NextKeepsConsistent | sdks/nodejs/index.js:118-407 | every handler keeps: store and cache equal; exactly one of open stream and reconnect timer while connected, none of them otherwise; polling means no staged replay and enough failed attempts; at most one unanswered poll of the current generation |
| ClientSpec.HydrationMirrorsIff | sdks/nodejs/index.js:642-658 | on any stored snapshot, hydration leaves store and cache equal exactly when every stored flag sits under its own key |
| ClientSpec.HydrationMisplaces | sdks/nodejs/index.js:642-658 | a stored flag under another key is in the cache under that key and in the store under its own |
| ClientSpec.RunKeepsConsistent | sdks/nodejs/index.js:118-407 | the same in every state of every run |
| ClientSpec.GenerationCountsTakeOvers | sdks/nodejs/index.js:341-351 | the generation counts the `connected` events and disconnects of a run, and only they can close the client |
| ClientSpec.PollAppliedIffUninterrupted | sdks/nodejs/index.js:360-407 | a poll response is applied exactly when no `connected` and no disconnect happened since the poll was issued |
| ClientSpec.SnapshotAtomicity | sdks/nodejs/index.js:186-230 | over whole runs flags, revisions and evaluation store are the last complete snapshot of a replay or a poll, followed by the accepted deltas and by the stored flags laid over them at a later connect(); a replay cut off anywhere leaves no trace |
| ClientSpec.HydrationReplacesIff | sdks/nodejs/index.js:642-658 | the stored snapshot replaces what is in the cache exactly when it has a flag for every key there |
| ClientSpec.ServesPromisedIff | sdks/nodejs/index.js:186-283 | in every state of a run the client serves the last complete snapshot, stored ones included, followed by the accepted deltas, exactly when every hydration of the run had a flag for every key in the cache |
| ClientSpec.FirstConnectServesStored | sdks/nodejs/index.js:118-132 | the first connect() of a client serves exactly the stored snapshot |
| ClientSpec.SecondConnectServesMore | sdks/nodejs/index.js:642-700 | connect, replay of flag a, disconnect, and connect with flag b stored serves a and b |
| ClientSpec.BackoffDoubles | sdks/nodejs/index.js:297-298 | without jitter the delay starts at the base and doubles up to the maximum |
| ClientSpec.JitterAddsUpTo30Percent | sdks/nodejs/index.js:299 | jitter adds at most 30 percent |
| ClientSpec.WithinMaxIff | sdks/nodejs/index.js:285-299 | the delay stays within the maximum for every jitter exactly when 1.3 times the capped delay does |
| NodeClient.CheckgateClient.constructor | sdks/nodejs/index.js:42-106 | a new client holds nothing and satisfies the invariant |
| NodeClient.CheckgateClient.ApplySnapshot | sdks/nodejs/index.js:416-445 | cache and store become the snapshot's map and the revisions its revisions; listeners hear exactly the keys whose JSON text changed, once each, after the whole swap, and not before first ready; the cache is saved only if something changed |
| NodeClient.CheckgateClient.UpsertDiffering | sdks/nodejs/index.js:420-428 | the first loop overlays the snapshot and lists exactly the keys that are new or whose JSON text differs |
| NodeClient.CheckgateClient.RemoveOthers | sdks/nodejs/index.js:430-435 | the second loop removes and lists exactly the keys the snapshot lacks |
| NodeClient.CheckgateClient.NotifyAll | sdks/nodejs/index.js:443 | every listed key is announced once, in order, with the flags then in place |
| NodeClient.CheckgateClient.ApplyDelta | sdks/nodejs/index.js:255-283 | during a replay an event is only staged; otherwise it is applied, announced and saved unless stale; unrecognised events do nothing |
| NodeClient.CheckgateClient.ApplyLive | sdks/nodejs/index.js:270-283 | store, cache, revisions, announcements and saved copy after one live event, stale or not |
| NodeClient.CheckgateClient.StageDelta | sdks/nodejs/index.js:263-268 | a staged event changes the staged flags and revisions alone |
| NodeClient.CheckgateClient.OnConnected | sdks/nodejs/index.js:190-196 | opens an empty replay, resets the backoff, ends polling and outdates every poll under way |
| NodeClient.CheckgateClient.OnReady | sdks/nodejs/index.js:211-230 | the staged replay goes live as a whole and is saved; without one nothing happens; listeners hear the differences only on a reconnect |
| NodeClient.CheckgateClient.ScheduleReconnect | sdks/nodejs/index.js:290-318 | closes the stream, drops the replay, starts polling from the threshold on, schedules one retry after the jittered capped delay; no effect when closed or already scheduled |
| NodeClient.CheckgateClient.ReconnectTimerFires | sdks/nodejs/index.js:313-316 | the retry opens a stream unless the client was closed |
| NodeClient.CheckgateClient.StartPollFallback | sdks/nodejs/index.js:329-339 | starts polling once, with an immediate request |
| NodeClient.CheckgateClient.StopPollFallback | sdks/nodejs/index.js:341-351 | stops polling and starts a new generation |
| NodeClient.CheckgateClient.PollSnapshot | sdks/nodejs/index.js:360-374 | shares the request under way, otherwise issues one tagged with the current generation |
| NodeClient.CheckgateClient.FetchSettles | sdks/nodejs/index.js:376-407 | a response is used only in its own generation and before disconnect; failures change no flag and notify nobody |
| NodeClient.CheckgateClient.HydrateFromCache | sdks/nodejs/index.js:642-658 | any stored snapshot overlays the cache under its property names and the store under the flags' own keys; hydrated unless the stream was faster |
| NodeClient.CheckgateClient.Connect | sdks/nodejs/index.js:118-132 | a second call while connecting or ready does nothing; otherwise hydrates from whatever is stored, then opens the stream; the invariant stays if the stored flags sit under their own keys |
| NodeClient.CheckgateClient.Disconnect | sdks/nodejs/index.js:675-700 | nothing keeps running, the replay is dropped, polls under way are outdated, flags stay |
| NodeClient.Values | sdks/nodejs/index.js:219 | the staged replay as a list has distinct keys and stands for the same map |
| Replication.StepKeepsInv | server/src/stream.rs:71-226 | every step of writers, Redis, subscriber, streams and clients keeps the convergence invariant, unless it is a first subscription that finds an exposed stream, or a publication that fails for good, without a RESYNC, while a stream relies on it |
| Replication.RunKeepsInv | server/src/stream.rs:71-226 | the invariant holds in every state of every run without those two gaps |
| Replication.Convergence | sdks/nodejs/index.js:211-283 | in every state of such a run, a client past `ready` on a stream that is not about to be closed serves exactly the database's expanded flags once it takes in everything under way, in any order and with any repetition |
| Replication.Agreement | sdks/nodejs/index.js:211-283 | with nothing under way its evaluation store is exactly the database's expanded flag set, despite reordering, repetition, deletes, re-creation and outages |
| Replication.ReachableConvergence | server/src/stream.rs:71-226 | both from the very beginning: in every state reachable from an empty database without connections |
| Replication.Recovery | sdks/nodejs/index.js:284-318 | once writers and Redis are quiet for its environment and the subscription stands, a connecting client in any reachable state has a finite sequence of its own steps (give up the stream, reconnect, read, take in the replay) to a stream with nothing under way, evaluating against exactly the database |
| Replication.LostBeforeFirstSubscription | server/src/main.rs:323-330 | an exposed stream misses a write for good: a concrete run of writer and Redis steps after which the first subscription breaks convergence |
| Replication.ExposedIsReachable | server/src/main.rs:303-330 | connecting to a server that has not subscribed yet and reading the database exposes the stream |
| Replication.FirstSubscriptionSafeIff | server/src/main.rs:303-330 | the first subscription keeps every stream converging after any such run exactly when no stream was exposed |
| Replication.LostWhileClearing | server/src/api/flags.rs:1047-1076 | a stream that relies on what is published misses for good a write whose publication fails while an earlier RESYNC's loop still counts as running |
| Replication.RelyingIsReachable | server/src/api/flags.rs:1013-1076 | one failed publication, its RESYNC and a client that connects afterwards lead there from the very beginning |
| Replication.SilentFailuresSafeIff | server/src/api/flags.rs:1047-1076 | failures of an environment's publications in that moment keep every stream converging, whatever is written, exactly when no stream of the environment relies on them |
| Streaming.RunIsSound | server/src/stream.rs:193-226 | in every run of broadcasts, subscriptions, loop iterations of any number of streams and clients leaving, each stream has written exactly the allowed-environment filter of a contiguous stretch of the broadcast since its subscription; it ended at the first RESYNC, at an overrun, or with its client, and else met no RESYNC |
| Streaming.EndedStays | server/src/stream.rs:193-226 | a stream that has ended never reads or writes again, whatever happens |
| Streaming.WritesWhatIsDue | server/src/stream.rs:193-226 | in every run a stream has written a prefix of all allowed events from its subscription to the first RESYNC, and all of them if it was resynced or is open with everything read |
| Streaming.ResyncEndsStreams | server/src/main.rs:320-330 | a RESYNC ends every stream that was open when it was broadcast, once its loop runs |
| Streaming.DrainedStops | server/src/stream.rs:193-226 | left to itself the receive loop stops after finitely many iterations, having read everything or ended rightly |
| Streaming.Channel.Send | server/src/main.rs:233-234 | the ring of 256 messages always holds the latest ones, overwritten in place |
| Streaming.Connection.Recv | server/src/stream.rs:194-225 | yields the next message unless it was overwritten, reports an overrun exactly when more than the capacity is unread |
| Streaming.Connection.Forward | server/src/stream.rs:193-226 | the receive loop over the ring is the loop of the step system over the whole history: it stays open only with everything read |
| Streaming.Subscriber.Round | server/src/main.rs:303-390 | one round of the subscriber sends a RESYNC unless it is the first, then every decodable payload in order; a failed connection or subscription sends nothing |
| Streaming.Instance.SubscriberRound | server/src/main.rs:303-390 | such a round is a run of broadcasts of the step system, so every stream stays sound across it |
| Streaming.Instance.Subscribe | server/src/stream.rs:71-72 | a new stream starts at the end of the history |
| Streaming.Instance.Serve | server/src/stream.rs:193-226 | serving one stream among others is a run of its loop iterations alone |
| Streaming.ReceiveIsTurn | server/src/stream.rs:193-226 | for a client of one environment an iteration of the loop is the receive step of the protocol model, at a RESYNC and at an overrun too |
| Streaming.ArrivalIsWritten | server/src/stream.rs:210-211 | a live frame that reaches the client was written by the loop, in order |
| Streaming.RunIsTracked | server/src/stream.rs:71-226 | every run of the protocol model, whatever gaps it has, is a run of the receive loops over what it broadcasts, in which each of its streams is tracked by a receiver of its own |
| Streaming.StreamsHaveNoGap | server/src/stream.rs:193-226 | so in every such run what a stream has forwarded is the filter of a contiguous stretch of the broadcast, what is on its way to the client is the end of that, and a stream breaks only at a RESYNC or at an overrun |
| Streaming.Bootstrap | server/src/stream.rs:72-131 | the replays of the allowed environments one after the other, each with the flags and then the tombstones in the order of the queries; no other environment occurs; the count is the number of flags |
| Streaming.ReplayOf | server/src/stream.rs:86-131 | every stored flag of the environment, expanded, in key order, then every tombstone without a flag in key order, whatever the collation; each key once |
| Stores.FlagStore.Upsert | core/src/store.rs:19-21 | the flag is stored under its key, replacing any other, and nothing else changes |
| Stores.FlagStore.Delete | core/src/store.rs:28-30 | the key is gone and nothing else changes |
| Stores.FlagStore.Clear | core/src/store.rs:37-39 | the store is empty |
| Evaluator.FirstMatch | core/src/evaluator.rs:277-290 | the first matching rule, and none exactly when no rule matches |
| Evaluator.EnabledIff | core/src/evaluator.rs:263-318 | a flag is on exactly when it is switched on, its prerequisites hold, and a rule matches or the rollout admits the user |
| Evaluator.ValueComesFrom | core/src/evaluator.rs:180-318 | which value results: disabled value, first matching rule's variant, weighted variant, default value, default of the type |
| Evaluator.RolloutShare | core/src/evaluator.rs:292-304 | over all 2^32 hashes a rollout of p percent admits exactly p * floor(2^32 / 100) + min(p, 96), none at 0 and all from 100 on |
| Prerequisites.MeaningIsLeastFixpoint | core/src/evaluator.rs:119-126 | the unbounded meaning of prerequisites is the least set of flags closed under them, in any store |
| Prerequisites.DepthIsApproximant | core/src/evaluator.rs:263-352 | evaluation at a depth is exactly that many rounds from below towards the unbounded meaning |
| Prerequisites.EnabledIsStable | core/src/evaluator.rs:249-352 | enabled at depth d + 1 means the same result at depth d and in the unbounded meaning |
| Prerequisites.EnabledIsSound | core/src/evaluator.rs:249-262 | what evaluates to enabled is enabled in the unbounded meaning, with the same value |
| Prerequisites.GuardIsInvisible | core/src/evaluator.rs:249-253 | the depth guard changes nothing unless some chain of prerequisites has more than ten edges |
| Prerequisites.OffIffHeldBack | core/src/evaluator.rs:320-352 | a flag is off in the unbounded meaning exactly when it belongs to a group each of whose members is held back by itself, a missing or wrong prerequisite, or the group |
| Prerequisites.EntangledFailsClosed | core/src/evaluator.rs:320-352 | if every member of a set has a prerequisite that is missing or in the set, every member evaluates to its disabled result for every user at every depth |
| Prerequisites.RaisingNeverDisables | core/src/evaluator.rs:263-352 | switching flags on or raising rollouts anywhere in the store disables no flag for any user through any prerequisite and changes no value that was on |
| Variants.BucketBelowTotal | core/src/evaluator.rs:225-233 | the bucket is below the total in both branches |
| Variants.OwnerIsUnique | core/src/evaluator.rs:235-241 | a bucket lies in the slice of at most one variant |
| Variants.PickIndex | core/src/evaluator.rs:235-241 | the chosen variant owns the bucket and has a positive weight, even if the sum saturates |
| Variants.PickWeightedVariant | core/src/evaluator.rs:205-247 | the saturating loop returns the value of the first variant whose cumulative weight exceeds the bucket, before its fallback whenever the total is not zero; the first variant or null otherwise |
| Variants.ModuloShare | core/src/evaluator.rs:227-228 | over all 2^32 hashes a variant of weight w is chosen between w * floor(2^32 / T) and w * (floor(2^32 / T) + 1) times |
| Variants.ScaledShare | core/src/evaluator.rs:229-233 | in the scaled branch the number of hashes differs from w * 2^32 / T by less than one |
| Variants.ScalingKeepsPicks | core/src/evaluator.rs:76-79 | in the scaled branch multiplying all weights keeps every user's variant |
| Variants.ScalingInModuloBranch | core/src/evaluator.rs:76-79 | when the total of the weights fits 32 bits it does, for any factor, exactly if the factor is one or one variant has all the weight |
| Variants.SameRatiosDifferentPick | core/src/evaluator.rs:76-79 | the weights 60, 30, 10 and 6, 3, 1 choose different variants for one hash |
| Governance.StepKeepsInv | server/src/scheduler.rs:16-106 | every step of any worker, reviewer or other writer keeps: flags are the fold of the history, row locks are exclusive, an open write is still the merge into the committed flag |
| Governance.RunKeepsInv | server/src/scheduler.rs:16-106 | the same in every state of every interleaving |
| Governance.PatchesAreConserved | server/src/scheduler.rs:16-106 | flags equal the fold, in commit order, of exactly the patches committed; each executed job and approved request is in it once with its own patch; attempts are failures plus execution; attempts on a job start at least 60 s apart; nobody approved their own request |
| Governance.CommitsMergeIntoTheCurrentFlag | server/src/api/flags.rs:614-670 | a committed job or approval stores the merge of its patch into the flag committed at that moment; a scheduled one only while its environment requires no approval |
| Governance.GuardedFlagsNeedApproval | server/src/api/flags.rs:120-139 | while an environment requires approval a flag of it changes only by an approval, and not by the requester |
| Governance.GuardedFlagsStay | server/src/api/flags.rs:728-737 | over whole runs a flag of such an environment is untouched unless an approval of a change to it was committed meanwhile |
| GovernedWrites.LocksIsolate | server/src/scheduler.rs:27-45 | no step of anybody else changes the row an open transaction has claimed, the flag it has written, or whether its environment requires approval |
| GovernedWrites.TraceIsRun | server/src/scheduler.rs:16-106 | whatever the methods below do, with whatever others do in between, is a run of the transaction model |
| GovernedWrites.Database.Await | server/src/scheduler.rs:16-106 | between two statements, or while one waits for a lock, others take any steps they can; what an own transaction has locked is as it left it |
| GovernedWrites.Database.ClaimNext | server/src/scheduler.rs:25-39 | locks the first due, unlocked job not attempted within the backoff, and finds none only if there is none |
| GovernedWrites.Database.TryWrite | server/src/scheduler.rs:51-57 | writes exactly if, at a moment of the call, the environment requires no approval, the flag exists and is not locked by others, and the patch merges |
| GovernedWrites.Database.ExecuteNext | server/src/scheduler.rs:18-104 | one iteration among others attempts the job that was first claimable when it claimed: executed exactly when its patch was merged into its flag, committed into the flag of that moment, otherwise only the failure is recorded; every early return commits nothing |
| GovernedWrites.Database.ExecuteDue | server/src/scheduler.rs:17-106 | a run makes at most 50 attempts, found in the history in order with their outcome; if no call failed and the batch is not used up nothing was claimable when it stopped |
| GovernedWrites.Database.Approve | server/src/api/change_requests.rs:162-233 | commits exactly for another person's pending request of the environment, as locked, whose patch merges into the flag of the commit; then flag, request and history change together; each refusal has its status and commits nothing; it fails only if the commit does or a lock is not granted |
| GovernedWrites.Database.Reject | server/src/api/change_requests.rs:236-285 | once the row is free, rejects exactly a pending request of the environment, applies nothing |
| GovernedWrites.Database.Cancel | server/src/api/change_requests.rs:290-335 | once the row is free, removes exactly one's own pending request, or any as an administrator |
| GovernedWrites.Database.PatchFlag | server/src/api/flags.rs:738-802 | applies a patch at once or queues it when approval is required; the one merges into the committed flag, the other merged into the flag that was read; refusals change nothing |
| EdgeSpec.NextKeepsConsistent | edge/src/checkgate-edge.js:107-186 | every call, reply and continuation keeps: one refresh at a time, settled promises, core equal to the loaded snapshot |
| EdgeSpec.RunKeepsConsistent | edge/src/checkgate-edge.js:107-186 | the same over whole runs |
| EdgeSpec.ServesLastGood | edge/src/checkgate-edge.js:107-147 | however calls and failures interleave at most one request is open, and core, snapshot, count and load time are those of the last good reply; before the first the core is untouched, the snapshot empty, count and load time zero |
| EdgeSpec.ReturnsLoaded | edge/src/checkgate-edge.js:158-186 | a call of ensureFresh is explained by the moment it was made: with its age since the last good reply before it, it returned at once within the TTL, at once within the stale window, or waits or waited because nothing was loaded or it was beyond both; every return found a snapshot; it threw only if nothing was loaded and its refresh failed |
| EdgeSpec.StaleAnswerRefreshes | edge/src/checkgate-edge.js:178-182 | a stale answer comes with a refresh under way, a fresh one starts nothing, a blocked call waits for the shared refresh |
| EdgeSpec.RejectsIff | edge/src/checkgate-edge.js:114-137 | refresh rejects exactly on a body that is not JSON, or on any other failure while nothing was ever loaded; no failure changes what is served |
| EdgeSpec.RejectsWhileLoaded | edge/src/checkgate-edge.js:134 | a run in which a refresh rejects with a snapshot loaded |
| EdgeCache.CheckgateEdge.constructor | edge/src/checkgate-edge.js:63-76 | negative TTL and window count as zero, fractions of a second count; nothing is loaded; the core is left alone |
| EdgeCache.CheckgateEdge.Refresh | edge/src/checkgate-edge.js:107-113 | concurrent calls get the same promise and one request |
| EdgeCache.CheckgateEdge.DoRefresh | edge/src/checkgate-edge.js:115-147 | the outcome of each kind of reply, for the caller and for the cache |
| EdgeCache.CheckgateEdge.Reload | edge/src/checkgate-edge.js:140-141 | afterwards the core holds exactly the snapshot's flags |
| EdgeCache.CheckgateEdge.Finally | edge/src/checkgate-edge.js:109-111 | the next call starts a new refresh |
| EdgeCache.CheckgateEdge.EnsureFresh | edge/src/checkgate-edge.js:169-186 | which calls return at once, refresh in the background, or block |
| EdgeCache.CheckgateEdge.Resume | edge/src/checkgate-edge.js:170-186 | a blocked call throws exactly if its refresh rejected and it was the first load |
| Words.RotationIsCircular | sdks/nodejs/cache-key.js:25 | the rotation by shifts is circular: bit i is bit i + n modulo 32 |
| Words.ComplementIsDifference | sdks/nodejs/cache-key.js:41 | the complement of a word as arithmetic |
| Words.OrIsSum | sdks/nodejs/cache-key.js:30 | joining shifted bytes by OR adds them |
| JsNumbers.BitNot | sdks/nodejs/cache-key.js:41 | complement of a signed number stands for the complement of its word |
| Sha256Spec.PaddingIsMinimal | sdks/nodejs/cache-key.js:10-13 | section 5.1.1 of FIPS 180-4: the least number of zero bits, then the length in 64 bits |
| Sha256Constants.FirstPrimes | sdks/nodejs/cache-key.js:14-23 | the table of primes starts with 2 and continues with the next prime each time |
| Sha256Constants.KFromCubeRoots | sdks/nodejs/cache-key.js:14-23 | every constant is the first 32 bits of the fractional part of the cube root of its prime |
| Sha256Constants.InitialFromSquareRoots | sdks/nodejs/cache-key.js:24 | the initial words come from the square roots of the first eight primes |
| CacheKey.JoinIsSum | sdks/nodejs/cache-key.js:28-31 | four bytes joined by signed shifts are the big-endian word |
| CacheKey.ExpandedAgrees | sdks/nodejs/cache-key.js:32-37 | one schedule entry on signed and unsigned numbers agrees with section 6.2.2 modulo 2^32, with exact sums |
| CacheKey.Temp1Agrees | sdks/nodejs/cache-key.js:40-41 | the same for T1 |
| CacheKey.Temp2Agrees | sdks/nodejs/cache-key.js:42-43 | the same for T2 |
| CacheKey.Pad | sdks/nodejs/cache-key.js:10-13 | the padding loops terminate and append exactly the standard's padding |
| CacheKey.PrepareSchedule | sdks/nodejs/cache-key.js:27-37 | the array holds the message schedule of its block |
| CacheKey.Compress | sdks/nodejs/cache-key.js:38-46 | 64 rounds and the final additions in place turn the hash value into that of the next block |
| CacheKey.Hash | sdks/nodejs/cache-key.js:10-47 | for a message of any length and number of blocks the loops compute its SHA-256 |
| CacheKey.CacheNamespace | sdks/nodejs/cache-key.js:3-49 | the key is the SHA-256 of the text's UTF-8 bytes in hexadecimal; refused exactly for a lone surrogate |
| UriEncoding.EncodingCarriesUtf8 | sdks/nodejs/cache-key.js:5-9 | percent-encoding succeeds exactly for texts that have a UTF-8 form, and stands for those bytes |
| UriEncoding.DecodeBytes | sdks/nodejs/cache-key.js:6-9 | the loop recovers the bytes of any percent-encoded text |
| HexText.PadStartIsFixed | sdks/nodejs/cache-key.js:48 | a number in base 16, padded, has exactly its w digits |
| HexText.FixedIsInjective | sdks/nodejs/cache-key.js:48 | different words have different digits |
| JsonRoundTrip.StringifyReadsBack | ssr/src/serialize.js:32-34 | the text printed for any JSON value parses back to the value |
| JsonValues.StringifyReadsProjection | ssr/src/serialize.js:32-34 | JSON.stringify has no text exactly for an absent value; otherwise its text parses to the value without absent properties and with null for absent elements and numbers that are not finite |
| JsonValues.ComesBackIff | ssr/src/serialize.js:32-34 | a JavaScript value comes back whole, numbers as they are printed, exactly when nothing in it is absent or not finite |
| JsonValues.LostInTransit | ssr/src/serialize.js:32-34 | an object comes back without its absent property, a number that is not finite as null |
| Bootstrap.Escape | ssr/src/serialize.js:11-26 | the result has none of the five characters |
| Bootstrap.EscapingKeepsTokens | ssr/src/serialize.js:6-34 | any text that can be read as JSON is read the same after escaping |
| Bootstrap.BootstrapReadsBack | ssr/src/serialize.js:28-34 | the embedded text has none of the five characters and parses to what JSON.stringify keeps of the payload, to all of it exactly when nothing in it is absent or not finite |
| RustLiteral.Fewest | cli/src/util.js:131-132 | there is a fewest number of hashes, at least one, whose terminator the text does not contain |
| RustLiteral.Print | cli/src/util.js:127-133 | the hash-growing loop over the code units ends, with exactly the fewest hashes for the characters that are written |
| RustLiteral.ReadsAs | cli/src/util.js:121-133 | what Rust reads for any text: nothing with a quote followed by 255 hashes or a carriage return not before a line feed, and else the text with every CR LF turned into LF |
| RustLiteral.ReadsBackIff | cli/src/util.js:121-133 | Rust reads the literal back as the text exactly when the text has no carriage return, no quote followed by 255 hashes and no lone surrogate |
| RustLiteral.CarriageReturnsAreLost | cli/src/util.js:121-133 | a lone carriage return makes a literal that Rust rejects, one before a line feed disappears |

## Left out

- The revision race between two inserts of the same new key (`INSERT … ON CONFLICT` draws its default before it waits): revisions are taken to increase in commit order per flag.
- A server that stops between commit and publication, and the fallback of `emit_patch` to unexpanded rules when segments cannot be read.
- Flag documents the core cannot parse: a client mirrors only well-formed flags; the edge model keeps them and shows that the core ignores them.
- NodeClient.CheckgateClient.HydrateFromCache: one atomic step before the stream opens; overlapping `connect` and `disconnect` calls while storage is awaited are not modelled.
- Snapshot responses to polls are arbitrary: the poll endpoint and its queries are not modelled, so nothing is claimed about a client that only polls.
- Connection impressions, event buffers and listeners that throw: they do not touch flags.
- Streaming.Bootstrap: keys are unique per environment, not across the environments of a legacy key.
- The server's own flag store fed by Redis, which is not on the streaming path, and the check for receivers before a send.
- GovernedWrites.Database.ExecuteDue: a statement that waits for a lock in vain, for example as the victim of a deadlock, counts as a failed statement; database errors other than those of `Fault` are left to the step system, where any of them is an abort.
- Governance.PatchesAreConserved: covers flag documents; tags, owners, archiving and segment writes are not part of a patch here, and environments exist throughout.
- EdgeCache.CheckgateEdge.EnsureFresh: without the platform's `waitUntil` a background refresh may be cancelled; the model lets it be answered or never answered. Times are exact, without the rounding of doubles.
- CacheKey.CacheNamespace: number arithmetic is shown exact for the 32-bit sums; the bit length is exact below 2^53, beyond the longest JavaScript string.
- JsonValues.StringifyReadsProjection: numbers are kept as their text, so negative zero is zero; `toJSON` methods, and the values on which JSON.stringify throws (BigInt, cycles), are outside the value type.
- RustLiteral.Print: covers the string and JSON kinds; the boolean and integer kinds of the printer are one-branch facts.
- MurmurHash3, numeric comparison and string operators inside one rule: uninterpreted.
- The web and React Native clients: same protocol, except that the web client rebuilds its core on every connect.
- Identifier deduplication of the code generator, which can collide (`A`, `A`, `A_2`).
- Dashboard, notifications, webhooks, audit log, authentication, rate limiting, other SDK bindings, HTTP, SSE framing, Redis and SQL themselves.
