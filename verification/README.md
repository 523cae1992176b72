# Verified model of an automation service

The service watches a stream of repository commits, matches each against stored *blueprints*, and queues
the blueprints that match for evaluation. Several instances share the work. This project models the parts
of it whose correctness depends on more than one function or more than one process, and proves what they
promise.

| file | models |
|---|---|
| `Leadership.dfy` | the Redis lease that elects one leader: the key, each instance's loop, and the system of both with commands delayed on the network, lost replies, crashes and expiry |
| `Consumer.dfy` | routing of events to instances, the denylist question, and the distribution to consumers in turn |
| `JetstreamEntry.dfy` | the filters and payload of the entry node |
| `Processor.dfy` | loading and grouping of blueprints, and the handling of one commit |
| `Dispatch.dfy` | the three above together: what a fleet of instances submits for a whole stream |
| `Running.dfy` | the instances as they run: queues, workers, reloads and processor |
| `EndToEnd.dfy` | what the fleet is for, in terms of what arrives, what is stored and what is queued |
| `SharedThrottle.dfy` | the fleet and the throttle together: instances that share the counters |
| `Throttle.dfy` | the fixed-window counters, interleaved callers, and the two throttlers |
| `Denylist.dfy` | the table with a Bloom filter in front, its paged loading, and concurrent inserts |
| `Template.dfy` | template evaluation and the rotation of evaluator instances |
| `IdentityCache.dfy` | identity resolution through memory and store |
| `Serialization.dfy` | the compact form of a blueprint |
| `ReloadGate.dfy` | the rate limit on cache reloads |
| `Json.dfy`, `Options.dfy`, `Arith.dfy` | values, result types and division facts |

Code that changes state is modelled by classes whose methods are proved against functions of the old
state; the properties are then proved about those functions over every input, every run or every stream.
Interleavings are modelled by state machines whose steps apply the same functions.

Parameters of the model, arbitrary unless a contract says otherwise: the string hash, the configuration
hash, the expression evaluator, the AT-URI parser, the positions a Bloom filter assigns to an item, the
resolver behind the identity cache, the lower-casing of handles, clock readings and the answers of
storage.

## Findings

Where the code falls short of a promise, the model keeps the code as it is, and what holds instead is proved.

* Renewal reads the key and prolongs it in two commands (src/leadership.rs:345-355). All through any run, leaders
  that renewed within ttl hold the key if and only if no step undercuts one: a pending renewal's EXPIRE finds
  another instance's lease, a release sent before a restart deletes the fresh leader's lease, or the leader learns
  of its acquisition when that is already undone (`FreshLeadersHoldIff`). When restarts leave no release behind,
  the first alone decides (`CleanlyFreshIff`). Whatever the age of the renewals, every flagged leader holds the
  key if and only if no step strands one: its lease runs out while it is flagged, a release of its earlier life
  arrives, or it learns of its acquisition too late (`LeadersHoldIff`). `SplitBrain`, `StaleFlag` and `LateRelease`
  are runs with two leaders: through a late EXPIRE, through a renewal that is merely overdue
  (src/leadership.rs:534-565), and through a release that outlives a restart under a fixed INSTANCE_ID
  (src/leadership.rs:164-166, 389-406).
* The configuration hash leaves the payload out (src/processor.rs:47-59), so a group's first member decides for
  all. Grouping submits the right work for every commit and evaluator if and only if blueprints that share a key
  share the gate, where an event can reach it (`GroupingIsFaithfulIff`; `FleetIsFaithfulIff` for all instances
  together).
* Pruning never drops a blueprint that some commit routed to the instance could match (`PruningIsSound`). It is
  exact if and only if every blueprint it keeps is reachable: the filters admit something, and the key that decides
  about the routing can be one of the instance's own (`PruningIsExactIff`, for every strategy and configuration).
  Among those it keeps in vain are lists with `"*"` (src/processor.rs:175-178, 202-205) but no entry of the
  instance's own, filters that are a single string or malformed, which pruning does not look at (src/processor.rs:172,
  197-199; `PruningByDidIsExactIff`, `PruningByCollectionIsExactIff` give the exact conditions), and blueprints whose
  other filter admits nothing. To the filter itself (src/engine/node_type_jetstream_entry.rs:468-473) the `"*"` is no
  wildcard: it changes the verdict for an author called `*` only (`StarIsNoWildcard`).
* Loading the denylist leaves out one row between two pages (src/denylist/postgres.rs:94-95, 211-224, 242-247);
  it is complete for every filter if and only if there are at most 1000 rows (`InitIsCompleteIff`).
* A throttle counter can vanish, and start again, inside its window. In any run no more than limit calls pass on it
  if and only if no INCR finds it gone after it was created, or no more than limit calls counted in it at all
  (`KeptOnKeyIff`). There are two causes. The expiry is a 32-bit product of minutes and 60 (src/throttle.rs:205):
  in runs whose INCRs are executed before the window named by the caller's clock reading ends, the limit is kept if
  and only if the window is at most 35791394 minutes (`LimitIsKeptIff`); the model takes the wrapped product, as a
  release build computes it. And the clock is read before the caller waits for a connection
  (src/throttle.rs:172-182), so an INCR can come late: `LateIncr` is such a run, with a window of one minute.
* A stored override may be negative (src/throttle.rs:359-374): such a window wraps and switches its check off
  (`NegativeWindowNeverCounts`).
* The identity cache bounds how long a document stays in memory (src/identity_cache.rs:32-37), while the store has
  no such bound (src/identity_cache.rs:99-107). Counted from the moment an answer of the resolver is cached, every
  cached answer is at most the time to live old, whatever the clock readings, if and only if no call can read from
  the store what an earlier call could have written there (`AnswersAreFreshIff`). The time that passes between the
  resolver's own reading and the caching comes on top.
* The compact form of a blueprint (src/serialization.rs:79-106) survives the round trip if and only if the
  blueprint is of the form that `RoundTripIff` names.

The repository's own `README.md` gives the throttle windows in seconds (lines 226 and 228); the code takes minutes
(src/throttle.rs:147-150), and so does the model.

## Model

| member | source | states |
|---|---|---|
| Leadership.RedisKey.SetNxGetEx | src/leadership.rs:295-331 | SET NX GET EX names the caller with a full ttl if the key was absent or expired, else changes nothing and reports the holder |
| Leadership.RedisKey.Read | src/leadership.rs:333-345 | an expired key reads as absent |
| Leadership.RedisKey.SetDeadline | src/leadership.rs:349-355 | EXPIRE moves the deadline of whoever holds the key and never changes the holder |
| Leadership.RedisKey.DeleteIfOwned | src/leadership.rs:389-406 | compare-and-delete vacates the key only for its unexpired holder |
| Leadership.ElectionLoop.RetryTick | src/leadership.rs:510-514 | only an idle non-leader sends an acquisition |
| Leadership.ElectionLoop.HeartbeatTick | src/leadership.rs:534-537 | only an idle leader sends a renewal |
| Leadership.ElectionLoop.Receive | src/leadership.rs:341-387 | a reply of the awaited kind moves the loop on: EXPIRE is sent only after reading the own name, and the flag follows the outcome, as `RenewalKeepsFlagIff` says |
| Leadership.ElectionLoop.Fail | src/leadership.rs:523-562 | an error leaves a follower a follower and makes a leader give up its flag |
| Leadership.Follow | src/leadership.rs:295-582 | the key and one loop object per instance, driven by the actions of any run, end in the state the system has at its end |
| Leadership.StepKeepsInv | src/leadership.rs:295-568 | every step with safe renewals and clean restarts keeps the invariant: a claim younger than ttl is backed by a lease of the claimant's that lasts at least as long |
| Leadership.RenewalKeepsFlagIff | src/leadership.rs:347-385 | whenever a renewal ends, the flag stays set if and only if the news is that EXPIRE has prolonged the lease; another's name, a vacant key, a failed EXPIRE and every error clear it |
| Leadership.LostLeaderStepsDown | src/leadership.rs:534-565 | in any run, a leader whose name is not in the key from its heartbeat until that renewal ends has lowered its flag by then |
| Leadership.ReleaseVacates | src/leadership.rs:389-406 | a release that finds its sender in the key leaves it vacant, and any other leaves it alone |
| Leadership.ShutdownReleases | src/leadership.rs:576-582 | a shutdown sends a release and ends the leadership |
| Leadership.StatusOfKey | src/leadership.rs:430-438 | the status is vacant exactly once the deadline has passed, leader exactly for the holder of an unexpired lease, else follower |
| Leadership.FreshLeadersHoldIff | src/leadership.rs:295-582 | all through any run, every leader that renewed within ttl holds the key if and only if no pending renewal finds another instance's lease, no release of an earlier life deletes a fresh leader's lease, and no fresh acquisition is learned of after it was undone |
| Leadership.CleanlyFreshIff | src/leadership.rs:345-371 | when no restart leaves a release on the way, they hold it if and only if no pending renewal finds another instance's lease |
| Leadership.LeadersHoldIff | src/leadership.rs:295-582 | all through any run, with any timing and restarts, every flagged leader holds the key if and only if no step lets a leader's lease run out, lets a release of its earlier life through, or tells it of its acquisition after the lease has gone |
| Leadership.AtMostOneLeader | src/leadership.rs:295-568 | in every state of every run whose leaders renew within ttl and whose restarts leave no release behind, at most one instance has its flag set, and the unexpired key names it |
| Leadership.SplitBrain | src/leadership.rs:345-371 | a run in which a late EXPIRE prolongs another's lease, and two instances lead |
| Leadership.StaleFlag | src/leadership.rs:534-565 | a run without any EXPIRE in which an overdue leader keeps its flag after another has taken the key |
| Leadership.LateRelease | src/leadership.rs:389-406 | a timely run in which a release from before a restart under the same name lets a second leader in |
| Leadership.HolderChangesThroughVacancy | src/leadership.rs:299-406 | in any run, between two different holders the key was vacant, through the first one's expiry or own release |
| Leadership.BoundedAlongRun | src/leadership.rs:299-355 | in any run no lease reaches further than ttl ahead of the clock |
| Leadership.LeaseRunsOut | src/leadership.rs:299-371 | a key that nobody prolongs or takes for ttl seconds is vacant |
| Leadership.NewLeaderInTime | src/leadership.rs:295-532 | once renewals stop and somebody tries in every retry interval, a new holder is named within ttl + retry seconds |
| Consumer.ExactlyOneInstance | src/consumer.rs:130-184 | every event, under every strategy, is processed by one instance and no other |
| Consumer.SameKeySameInstance | src/consumer.rs:136-178 | events that agree in what the strategy goes by (author, collection, time, field) are processed by the same instances |
| Consumer.DecimalIsInjective | src/consumer.rs:157-165 | different times have different keys |
| Consumer.ForwardedIff | src/consumer.rs:266-407 | an event is forwarded exactly when it is routed here, the denylist did not answer and then say yes, and its collection is wanted; what is forwarded has its fields, each in its place, commits and deletes |
| Consumer.SingleHandler.HandleEvent | src/consumer.rs:266-407 | the queue grows by the translated event exactly when it is routed here, not blocked and not filtered; denylist errors let it pass; counters account for the event |
| Consumer.SingleHandler.HandleAll | src/consumer.rs:266-407 | a stream leaves exactly the forwarded events in the queue, in order |
| Consumer.MultiHandler.NextConsumerIndex | src/consumer.rs:644-651 | the index is the counter modulo the consumers, the counter wraps at 2^64, and nothing moves without consumers |
| Consumer.MultiHandler.HandleEvent | src/consumer.rs:657-821 | exactly what the single handler would forward goes to exactly one consumer, the next in turn |
| Consumer.MultiHandler.HandleAll | src/consumer.rs:657-821 | a stream distributes the same forwarded events as the single handler's queue |
| Consumer.WrapIsSeamlessIff | src/consumer.rs:644-651 | the counter's wrap keeps the turn order if and only if the number of consumers divides 2^64 |
| Consumer.EachConsumerGetsItsShare | src/consumer.rs:644-821 | consumer i holds exactly the forwarded events at positions congruent to i, until the counter wraps or for ever if the wrap is seamless |
| Consumer.ShareByPosition | src/consumer.rs:644-651 | place j of share i is the event at i + j * n, and no such event is missing |
| Consumer.LoadsAreBalanced | src/consumer.rs:644-821 | until the counter wraps, or for ever if the wrap is seamless, any two consumers' loads differ by at most one |
| JetstreamEntry.FiltersDecide | src/engine/node_type_jetstream_entry.rs:447-516 | an input passes if and only if both filters are absent or name its value, and errors exactly for malformed filters that are reached |
| JetstreamEntry.EvaluateDecides | src/engine/node_type_jetstream_entry.rs:527-558 | an input is let through, unchanged, exactly when the filters name it and the payload is true or a true expression; which filters, payloads and results are errors |
| JetstreamEntry.InterchangeableIff | src/engine/node_type_jetstream_entry.rs:527-558 | two nodes of one configuration let the same events through under every evaluator if and only if nothing passes the filters or the payloads are the same gate |
| Processor.BlueprintProcessor.LoadBlueprintsCache | src/processor.rs:246-378 | a storage error leaves cache and groups untouched; otherwise the cache is the prefix, up to the limit, of what an unlimited load keeps, the groups index it exactly, and the counters count |
| Processor.CacheableByPosition | src/processor.rs:264-303 | an unlimited load keeps exactly the enabled, well formed blueprints with a jetstream entry as first stored node that could match, each with that node, in stored order |
| Processor.EligibleIff | src/storage/blueprint.rs:94-119 | a blueprint is well formed exactly with two identifiers and two nodes, one of the four entry types first under the first identifier, and an action under some identifier |
| Processor.CountersMean | src/processor.rs:264-315 | the counters are the numbers of kept, disabled, malformed, and eligible but unmatched blueprints |
| Processor.Scan | src/processor.rs:258-317 | the pass keeps exactly the enabled, valid, jetstream-first blueprints that could match, counts the others by reason, and fails iff the nodes of an enabled one cannot be read |
| Processor.BuildGroups | src/processor.rs:334-349 | the groups index the cache |
| Processor.IndexIsUnique | src/processor.rs:334-349 | there is only one index of a cache |
| Processor.CountersAccountForAll | src/processor.rs:258-331 | the counters and the blueprints with another entry type account for every stored blueprint |
| Processor.BlueprintProcessor.HandleCommit | src/processor.rs:457-617 | for one commit the queue grows by every member of every passing group that is not throttled, each once; every new item's payload has the event's own fields, and its blueprint is a cached one that the throttler let through |
| Processor.SubmitGroups | src/processor.rs:503-605 | what is submitted does not depend on the order in which the groups are visited |
| Processor.HandleGroup | src/processor.rs:512-604 | a group submits nothing on false, none or an error, and otherwise every member that is not throttled |
| Dispatch.PruningIsSound | src/processor.rs:157-233 | for all strategies and filters, an instance keeps every blueprint whose filters accept some event routed to it |
| Dispatch.PruningIsExactIff | src/processor.rs:157-233 | for every strategy and configuration, some commit routed here passes the filters if and only if they admit something with a key of this instance, and pruning is exact if and only if it keeps nothing else |
| Dispatch.PruningByDidIsExactIff | src/processor.rs:170-194 | with a collection filter that admits something, pruning by an author filter is exact if and only if a list with "*" also has an author of this instance, and a single string is one; never for other values |
| Dispatch.PruningByCollectionIsExactIff | src/processor.rs:195-221 | the same for a collection filter, where the instance's own entry must also be a collected one |
| Dispatch.StarIsNoWildcard | src/engine/node_type_jetstream_entry.rs:468-473 | in any list the "*" that keeps a blueprint (src/processor.rs, lines 175 to 178) changes the filter's verdict on commits by an author called "*" only |
| Dispatch.GroupsAreConfigurations | src/processor.rs:334-349 | with a hash that tells configurations apart, two blueprints share a group exactly when they have one configuration |
| Dispatch.GroupingIsFaithfulIff | src/processor.rs:503-520 | with no collisions and nothing throttled, one evaluation per group submits what one per blueprint does, for every commit and every evaluator, if and only if members of a group whose configuration lets some event through have payloads that are the same gate |
| Dispatch.FleetIsFaithfulIff | src/processor.rs:157-617 | the same for all instances together, over every stream, with the partitioning, the pruning and the collection filter |
| Dispatch.UniformIsRepresented | src/processor.rs:46-59 | a group's entry node agrees with every member's own on a commit when members of a group that it can reach have the same gate |
| Dispatch.FirstSpeaksForBoth | src/processor.rs:337-348 | of two blueprints with one key, the second is submitted iff the first's entry node passes |
| Dispatch.ShutPayloadIsIgnored | src/processor.rs:47-59 | whatever the hash, a blueprint whose payload is false is submitted when it shares the configuration of one whose payload is true |
| Dispatch.PrunedSubmitNothing | src/processor.rs:157-331 | on an event routed to an instance, the blueprints it pruned would have submitted nothing |
| Dispatch.OwnerMatchesReference | src/processor.rs:246-617 | for one event, its owner submits exactly what the reference evaluator does |
| Dispatch.OneOwner | src/consumer.rs:130-184 | for one event, all instances together submit exactly what its owner does |
| Dispatch.FleetRefinesReference | src/processor.rs:157-617 | over any stream, the instances together submit, as a multiset, exactly the work of one unpartitioned, unpruned, ungrouped evaluator |
| Running.Reload | src/processor.rs:246-402 | a reload from the same storage, or a failed one, leaves the processor as it was |
| Running.Process | src/processor.rs:415-452 | one received event adds exactly its work to the queue of work items |
| EndToEnd.ReferenceWorkCounts | src/processor.rs:246-617 | the reference evaluator submits each item exactly as often as an arrived commit that is not stopped and of a wanted collection, and an eligible stored blueprint whose throttle, filters and payload let it through, produce it, with a payload of the commit's own fields |
| Running.RunInstance | src/processor.rs:405-617 | an instance with one queue submits its specified work, and each item comes from a commit routed to it, with that commit's fields, and an eligible stored blueprint |
| Running.RunWorkers | src/bin/ifthisthenat.rs:873-1060 | an instance with a queue per worker submits the same work, in whatever order arrivals, workers and reloads take turns |
| Running.RunFleet | src/bin/ifthisthenat.rs:873-1060 | all instances together, with one worker or several, submit exactly the reference's work, each item as often as some arrival and some stored blueprint produce it |
| Throttle.RoundUpIsLeast | src/throttle.rs:147-150 | rounding gives the least multiple of the window at or above the timestamp |
| Throttle.CounterOutlivesWindowIff | src/throttle.rs:191-210 | a counter expired 60 * window seconds after any moment of a window outlives it, for every moment, if and only if the product fits 32 bits |
| Throttle.PassesBoundedByCreations | src/throttle.rs:165-249 | in every run, with any delays, crashes and windows, at most limit calls pass per creation of a counter |
| Throttle.KeptOnKeyIff | src/throttle.rs:165-249 | in every run, no more than limit calls pass on a counter if and only if no INCR finds it gone after it was created, or no more than limit calls counted in it |
| Throttle.ExactlyLimitPasses | src/throttle.rs:212-215 | on a counter that is never created twice, exactly the first limit of its calls pass |
| Throttle.DenialsAreJustAlongRun | src/throttle.rs:212-215 | in any run a call is denied only when it has itself counted to more than the limit of the check that stopped it |
| Throttle.LateIncr | src/throttle.rs:172-200 | a run with a window of one minute in which a late INCR finds the counter expired and two calls are admitted at limit 1 |
| Throttle.InWindowIsKept | src/throttle.rs:185-245 | every step keeps: inside its window a counter that was created is live and expires only after the window |
| Throttle.AtMostLimitPerWindow | src/throttle.rs:165-249 | when each INCR lands in its window, at most limit calls pass on one name in one window |
| Throttle.JustifiedAlongRun | src/throttle.rs:165-249 | in every run, a call that got past a check passed it in the log of executed commands |
| Throttle.AtMostLimitAdmitted | src/throttle.rs:165-249 | when INCRs are on time and windows are safe, at most limit calls on one name are admitted per window, over every interleaving and with callers failing anywhere |
| Throttle.LimitIsKeptIff | src/throttle.rs:147-249 | at most limit calls are admitted on every counter in every run whose INCRs are on time, if and only if the window is at most 35791394 minutes |
| Throttle.NothingBeyondDenial | src/throttle.rs:212-246 | in any run a call counts itself in no check beyond the one that denied it, so a denial by authority takes nothing from the AT-URI's budget |
| Throttle.AtMostTwiceLimit | src/throttle.rs:147-249 | when INCRs are on time and windows are safe, in any stretch as long as the window at most twice the limit pass |
| SharedThrottle.ItemsAreConserved | src/processor.rs:537-582 | every item the groups let through is waiting, asked for or refused exactly as often as it was let through, over any stream and interleaving |
| SharedThrottle.SubmitsReferenceWorkOnly | src/processor.rs:537-582 | what a fleet on shared counters submits is part of the reference's work, nothing added or doubled |
| SharedThrottle.AtMostLimitPerAturi | src/throttle.rs:165-249 | over any stream all instances together submit at most limit items per AT-URI and window, when INCRs are on time, windows are safe and no authority is named like an AT-URI |
| SharedThrottle.AtMostLimitPerAuthority | src/throttle.rs:165-249 | and at most limit items per authority and window, when no AT-URI is named like the authority |
| Throttle.AloneRunsTheChecks | src/throttle.rs:184-248 | the interleaved steps of a caller that nobody interrupts do what the checks in sequence do |
| Throttle.Counters.Increment | src/throttle.rs:198-201 | INCR counts up a live counter and restarts an absent or expired one at 1 without a deadline |
| Throttle.Counters.SetDeadline | src/throttle.rs:206-209 | EXPIRE changes the deadline of a live counter only |
| Throttle.Counters.CountAndCheck | src/throttle.rs:191-215 | one check counts, expires after a first count and compares; it changes no other counter |
| Throttle.Counters.ThrottleStatic | src/throttle.rs:165-249 | the configured checks in order, the second only if the first lets the call pass; without limits nothing is counted |
| Throttle.Counters.ThrottleIdentity | src/throttle.rs:338-465 | the same with the limits stored for the identity where they parse, and defaults elsewhere |
| Throttle.AdmittedIff | src/throttle.rs:165-249 | with both checks configured and safe windows, a call goes ahead exactly when its AT-URI can be parsed and both counters stand below their limits; it counts for its authority always, and for its AT-URI only when the authority's counter had room |
| Throttle.OverridesAreObeyed | src/throttle.rs:338-465 | over the requests of one authority, with any stored overrides, the per-identity throttler gives the answers and leaves the counters of the static one with the numbers in force, field by field |
| Throttle.NegativeWindowNeverCounts | src/throttle.rs:359-374 | a stored window between -35791394 and -1 minutes switches its check off, for any limit above 0 |
| Throttle.IdentityRefinesStatic | src/throttle.rs:338-465 | without overrides both throttlers give the same answers and leave the same counters, over any requests |
| Denylist.ListPage | src/denylist/postgres.rs:208-257 | a page holds the rows after the cursor up to the limit, and the next cursor is the row after them |
| Denylist.PageMeans | src/denylist/postgres.rs:208-257 | a page holds the first rows after the cursor, at most the limit and at most 1000, and the next cursor is the first row left over |
| Denylist.LoadedByIndex | src/denylist/postgres.rs:78-99 | every row whose index is not 1000 modulo 1001 is loaded, in order, and nothing else takes a place |
| Denylist.InitIsCompleteIff | src/denylist/postgres.rs:62-107 | every row is in the filter, for every filter, if and only if there are at most 1000 rows |
| Denylist.DenyListStorage.Init | src/denylist/postgres.rs:62-107 | the walk terminates; it succeeds exactly when every page it needs can be read, and then the filter holds exactly what the walk loads, else the part before the failure |
| Denylist.DenyListStorage.Exists | src/denylist/postgres.rs:112-130 | a member that the filter lacks is not found, whatever the table holds; when every row is in the filter, the answer is table membership |
| Denylist.MissedRowIsNotFound | src/denylist/postgres.rs:112-120 | beyond one page a filter exists with which the row between the pages is not found after init, although it is in the table |
| Denylist.DenyListStorage.Insert | src/denylist/postgres.rs:135-161 | the row is in the table once and in the filter, the table stays sorted |
| Denylist.DenyListStorage.Delete | src/denylist/postgres.rs:163-183 | the row leaves the table but not the filter, and the answer tells whether it was there |
| Denylist.ChangesKeepCover | src/denylist/postgres.rs:135-183 | through any inserts and deletes the table is the set they describe, and stays covered by the filter |
| Denylist.ExistsIsMembership | src/denylist/postgres.rs:62-183 | from at most 1000 rows at init, after any inserts and deletes, asking the storage is asking the set |
| Denylist.AdvanceKeepsInv | src/denylist/postgres.rs:62-183 | with init, inserts and deletes interleaved, every row is in the filter, pending in an inserter, ahead of init, or was one of its cursors |
| Denylist.RowsReachFilter | src/denylist/postgres.rs:62-161 | once init and an insert are done, the row is in the filter unless init used it as a cursor |
| Denylist.OnePageRowsReachFilter | src/denylist/postgres.rs:62-161 | while the table stays within a page there is no such exception |
| Denylist.FilterIsFromSince | src/denylist/postgres.rs:71-76 | init starts from an empty filter: what it holds afterwards was in the table or with an inserter since then |
| Template.ProcessTemplate | src/engine/common.rs:246-300 | terminates and computes the transformation |
| Template.TriedIff | src/engine/common.rs:200-260 | exactly the objects with one key, an operator's name, are tried as expressions |
| Template.ProcessObject | src/engine/common.rs:279-287 | rebuilds every key, in whatever order the keys come |
| Template.ProcessArray | src/engine/common.rs:289-296 | rebuilds every item in place |
| Template.ProcessByPosition | src/engine/common.rs:246-300 | at every position outside an evaluated expression, the result holds the evaluator's answer on the untouched expression, or the same keys, length or literal |
| Template.CorrespondenceIsUnique | src/engine/common.rs:246-300 | only one transformation does that |
| Template.UnchangedIff | src/engine/common.rs:246-300 | a template comes back unchanged if and only if each expression tried is rejected or evaluates to itself |
| Template.InstanceCache.UseTimes | src/engine/common.rs:75-124 | over any number of uses, number k is served by instance k / 10000 |
| IdentityCache.ResolvedAgrees | src/identity_cache.rs:86-123 | one resolution answers what the resolver would and keeps both caches in agreement with it |
| IdentityCache.CacheIsTransparent | src/identity_cache.rs:86-123 | after any requests, with any store failures, evictions and expiry, every answer is the resolver's own, failures included |
| IdentityCache.MemoryAnswers | src/identity_cache.rs:89-116 | a request is answered from memory if its subject was put there at most the time to live before, memory has answered for it since, and fewer than capacity others were answered since the last of those |
| IdentityCache.AnswersAreFreshIff | src/identity_cache.rs:99-121 | for any sequence of calls, every cached answer was put into a cache by the resolver's answer at most the time to live before it is asked for, at all clock readings, if and only if no readable call looks for a document that an earlier call could have written to the store |
| IdentityCache.InterleavedCallsAreHonest | src/identity_cache.rs:86-123 | however concurrent calls interleave, every finished one was answered as the resolver would, and the caches fit and agree |
| IdentityCache.CachingResolver.LookupMemory | src/identity_cache.rs:89-97 | a live entry is returned and becomes the most recent; an expired one is removed |
| IdentityCache.CachingResolver.Remember | src/identity_cache.rs:104-116 | the entry replaces one with its key, and otherwise evicts the least recent when full |
| IdentityCache.CachingResolver.Resolve | src/identity_cache.rs:86-123 | the new contents and the answer are those of one resolution, and those of the sections of an interleaved call that nobody interrupts; agreement is kept |
| Serialization.AturiSurvivesIff | src/serialization.rs:175-190 | an AT-URI survives if and only if it has the prefix exactly once at its start |
| Serialization.DidSurvivesIff | src/serialization.rs:193-214 | a DID survives if and only if it starts with did: |
| Serialization.NodeOrderSurvivesIff | src/serialization.rs:83-101 | a node order survives if and only if no element has a comma and it is not the single empty string |
| Serialization.RoundTripIff | src/serialization.rs:79-106 | compacting and restoring gives the blueprint back, to the second, if and only if all three survive |
| Serialization.CompactFormIs | src/serialization.rs:175-201 | the compact form keeps one letter of the two common kinds of DID and drops an AT-URI's prefix |
| Serialization.CompactIsFaithful | src/serialization.rs:79-106 | expressible blueprints have equal compact forms if and only if they are equal to the second |
| ReloadGate.Gate.Trigger | src/processor.rs:382-402 | a call is accepted exactly when the interval has passed since the last accepted one, and then replaces it |
| ReloadGate.Gate.TriggerAll | src/processor.rs:382-402 | the accepted readings of a sequence of calls |
| ReloadGate.AcceptedWhenDue | src/processor.rs:387-396 | after any calls, a reading is accepted exactly when it is at least the interval after the last accepted one |
| ReloadGate.AcceptedAreApart | src/processor.rs:382-402 | accepted reloads are the interval apart, even when readings reach the lock out of order |
| ReloadGate.AtMostPerStretch | src/processor.rs:382-402 | a stretch of length L holds at most L / interval + 1 of them |

## Left out

- Leadership.AtMostOneLeader: assumes that each leader completes its renewals less than ttl apart and that no release is on the way when an instance restarts under its name; `LeadersHoldIff` says exactly what holds otherwise. No two live instances have one name.
- Leadership.NewLeaderInTime: that somebody attempts acquisition in every retry interval is a hypothesis; timers and scheduling are not modelled.
- Leadership configuration from the environment and its lower bounds; the ttl is only assumed positive, which validation guarantees.
- Dispatch.FleetRefinesReference: assumes that the size limit cuts nothing off, that blueprints with one key have one configuration, and the uniform gates that `FleetIsFaithfulIff` shows to be needed; the throttler answers per blueprint and equally on all instances; counters that the instances share are in `SharedThrottle.dfy`.
- Consumer.SingleHandler.HandleEvent: sending always succeeds; a closed channel, which the code only logs, is not modelled. The two denylist questions are two independent answers.
- Running.RunWorkers: reloads find the same stored blueprints; what a change of storage does to events in flight is not modelled.
- Processor.BlueprintProcessor.HandleCommit: submitting always succeeds; trace identifiers are left out.
- Throttle.AtMostLimitAdmitted: assumes that window end and name determine the Redis key, one clock, and INCRs that land in the window their clock reading names.
- Throttle.Counters.ThrottleIdentity: an override of 0 minutes is an error value where the code divides by zero; negative ones wrap as in a release build. Counts and timestamps do not overflow.
- SharedThrottle.SubmitsReferenceWorkOnly: the static throttler only, and items ask in any order, where the code asks for the members of a group one after the other.
- Throttle.LimitIsKeptIff: a debug build stops at the overflow instead of wrapping.
- Denylist.InitIsCompleteIff: complete loading beyond one page is not what the code does; `RowsReachFilter` names the rows it misses.
- Denylist.DenyListStorage.Insert: notes and creation times are left out, and rows are ordered by character, not by a database collation.
- Denylist.AdvanceKeepsInv: one init at a time, each after the last one has finished; the false-positive rate of the filter is not modelled.
- IdentityCache.AnswersAreFreshIff: the time between the resolver's own reading and the caching of its answer is not part of a document's age.
- IdentityCache.CachingResolver.Resolve: the method itself is a call that nobody interrupts; `InterleavedCallsAreHonest` covers the others on values. Storage holds documents under their own identifier.
- Serialization.RoundTripIff: the numbering of node types in compact nodes is left out, as it maps several types to 0; binary encoding and leap seconds are library matters.
- Template.ProcessTemplate: what expressions mean, and the limits of the evaluator's library, are a parameter.
- The order of keys in a JSON object, and numbers other than integers, in the model of values.
- Network nodes, authentication, the scheduler, queue adapters, small node evaluators, validation of configuration, tracing and metrics.
