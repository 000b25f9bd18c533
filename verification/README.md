# BrokerBridge domain services: a verified model

This project models the domain services of BrokerBridge and proves properties of them in Dafny 4.11.
Everything here is about the code's own tables, locks and logs; the environment (broker replies, the
infrastructure provider, clocks, crashes, the order in which the database returns rows) is an arbitrary
input everywhere.

`dafny verify dfyconfig.toml` checks all of it.

## Components

- **Static IPs.** `IpTables` holds the tables and what each transaction writes, `UsageHistory` what the
  usage rows mean. `IpService` says what a whole call does and `IpManager` is the service as classes over
  tables updated in place, under the in-process lock of `Locks`, including allocation retries, the drain
  loop, the abort and the two clean-ups; `IpReplies` and `RotationReplies` tell its answers and writes by the
  rows and polls that it finds. `IpProtocol` is the same calls cut at their awaits and interleaved
  with orders that are routed and submitted, in one step or with one read of an IP for each broker before
  the submission; `IpSafety` proves the invariants of
  every interleaving, `DrainSafety` what draining protects and `DrainBreaks` where that ends, `IpOverlap` when a release
  may overlap a rotation, `IpSolo` that every outcome of the service's calls is a run of that machine.
  `Cooldown` proves the reuse policy for calls that run one after the other, `IpCooldown` for interleaved
  ones.
- **Orders.** `OrderEngine` is the failover walk with a budget of commits, so that running out of budget
  is a crash at any chosen commit. `OrderRuns` runs place, cancel, recovery and the external in-doubt
  mark; `OrderFacts` tells a walk by the replies and the columns. `OrderService` has the same as methods, and
  `ReplayScan` tells which orders a scan lists and how they end; `Placement` interleaves concurrent calls of place.
  `OrderRaces` cuts placements and recoveries at their commits and interleaves them, each call writing only
  the columns that it changed; `OrderSolo` proves that the serialized runs are runs of that machine.
- **Rate limiters.** `MemoryRateLimit` compares the pruned list with the log of all admissions.
  `RedisRateLimit` splits consumers and checks into their steps and proves the overshoot bound and that it
  is tight.
- **Events.** `BusBuffer` is the bounded ring, `EventProvider` the in-process provider that feeds it,
  `Outbox` the drain, once with one drainer and once with overlapping and crashing ones; `OutboxMessages`
  says what each message and ring row carries.
- **Routing.** `Health` and `Routing` score, filter, sort and pin; `RoutingFacts` tells the decision by the
  facts about the brokers; `RoutingIps` ties the IPs of a route to
  the assignment table.
- **Subscriptions.** `Subscriptions` is the service, `SubscriptionRuns` one enforcement, `TradingHistory`
  whole runs.
- **Providers.** `ProviderCache` is the versioned event and infrastructure provider cache, `ProviderRaces`
  the same under activations that interleave.

Some properties that a reader might expect are false of the code. For each the project gives a failing run
and the condition under which the property holds: exact for each step, and for whole runs as stated here.

- **Redis overshoot.** One limiter object that adds twice at one clock reading overwrites its own hit, and
  then a window can exceed the bound (`CollidingMembersBreakTheBound`). In every run the different members
  of a window stay within the bound, so its hits exceed it by at most the repeats (`OvershootBound`);
  members are distinct exactly if no limiter object adds two hits under one clock reading
  (`DistinctIffReadingsDiffer`).
- **Drain safety.** An unforced rotation can cut over with an order in flight if the IP is shared
  (`SharedIpBreaksDrain`) or if an order is submitted during the drain on a chain that was routed before the
  draining commit (`SplitRoutingBreaksDrain`). `DrainGrowsIff` says which steps let the orders in flight
  grow; alone on its IP, exactly submissions do whose IP routing read before that commit
  (`DrainGrowsIffRoutedBefore`).
- **Ended assignments stay ended.** A release picks assignments and commits later. If it has picked one that
  a rotation is working on, from the rotation's read to its end, and commits, the rotation brings the
  assignment back when it marks it draining or gives up (`EndedReturnsIff`, `OverlapUndoesRelease`,
  `ReleaseDuringRotationIsUndone`). If no release that has picked overlaps a rotation of the same IP, an
  ended assignment stays ended and every live one keeps an open usage row, in every interleaving
  (`EndedStaysEnded`, `LiveStaysTracked`), and then the reuse cooldown holds in every interleaving too
  (`NoEarlyReuse`).
- **No double submission.** A broker that accepts an order without naming it leaves nothing to adopt, and
  recovery submits the order again (`UnnamedOrderIsSubmittedTwice`). A step keeps every record sound exactly
  if it does not record such an acceptance (`StepIsSoundIff`); over serialized runs an order has at most one
  submitted attempt exactly if no recovery resubmits what such an acceptance left (`AtMostOneTakenIff`).
- **No double submission by overlap.** The recovery scan lists orders that a placement is still working on,
  and nothing keeps the two apart: both can be accepted, with names (`OverlapSubmitsTwice`,
  `ReplaySubmitsLiveOrder`). From any reachable state, without further calls, the submitted attempts of an
  order can reach a number exactly if it is at most those that there are plus the calls that can still submit
  the order (`TakenAsOftenAs`), so there is at most one if a recovery reads an order only while no other
  call works on it (`SubmittedOnce`).
- **The publish log is what was sent.** A handler that raises does so after the event has reached the log,
  and the row is marked as an error (`RaisingHandlerLeavesTheLog`). The log carries exactly the rows whose publish reached it
  (`PublishLogFollowsCreation`), which are the sent ones exactly if no publish raised after that
  (`LogIsSentIff`).
- **Cached provider.** Activations that read the same latest version insert it twice, and a process keeps
  serving the older settings (`RacingActivationsServeStale`). Versions are unique exactly if every
  activation commits a version that is still the next one (`UniqueIffFresh`), and a get disagrees with
  rebuilding exactly if the active row's version is cached from another row with other settings
  (`GetAgreesIff`).
- **Expiry.** Enforcement changes a client's answer at a time exactly if all its windows over that time have
  ended by the time of enforcement: for past times, and for the moment itself at which a window ends
  (`EnforcementChangesTradingIff`, `LastMomentIsTakenAway`).

Where documentation and code differ, the model follows the code: a drain reports `pending: 0` whatever is
left (`app/events/outbox.py:75-116`), and force-expiring a subscription that is not active changes the
returned row but never commits it (`app/subscriptions/service.py:248-256`).

## Model

| member | source | states |
|---|---|---|
| IpTables.HoldingPicks | app/ip_manager/service.py:372-378 | the release query picks exactly the active assignments of the IP |
| IpTables.EndsPickedAssignments | app/ip_manager/service.py:378-380 | the release loop ends the picked assignments and no other |
| IpTables.ClosesPickedUsage | app/ip_manager/service.py:378-390 | it stamps exactly the open usage rows of that IP by the brokers of the picked assignments, although it goes assignment by assignment |
| Locks.MemoryLock.Acquire | app/providers/memory.py:24-28 | succeeds iff the key is free or held by the same token; the new table in either case |
| Locks.MemoryLock.Release | app/providers/memory.py:30-34 | removes the entry iff the token holds it |
| Locks.RedisLock.Acquire | app/providers/redis_adapters.py:42-46 | sets the key only if no unexpired lease is there, with a lifetime of at least one millisecond |
| Locks.RedisLock.Release | app/providers/redis_adapters.py:48-57 | deletes the key only if the unexpired lease carries the token |
| Locks.OnlyOwnerOrTimeEndsLease | app/providers/redis_adapters.py:36-57 | a Redis lease ends only by its own token's release or by its expiry; a holder that lost its lease cannot drop its successor's |
| IpService.FailedRotationChangesNothing | app/ip_manager/rotation.py:203-219 | a rotation that does not cut over leaves every assignment, usage row and older IP as it was; a new IP, if allocated, is retired and assigned to nobody |
| IpService.SuccessfulRotationMovesOneBroker | app/ip_manager/rotation.py:221-279 | after a cutover the new IP is the broker's only active assignment, the old one is ended, the old IP retired, the open usage stamped with the cooldown, a new usage row open, and nobody else touched |
| IpService.OldPairIsClosed | app/ip_manager/rotation.py:227-236 | after a cutover no usage row of the old pair is open |
| IpManager.NoneInflight | app/ip_manager/rotation.py:69-78 | the drain's count is zero iff every order on the IP is terminal |
| IpManager.Manager.Assign | app/ip_manager/service.py:253-312 | its reply, by the two locks and the checks in order, and exactly that commit on success; locks are as before on every path |
| IpManager.Manager.Attach | app/ip_manager/service.py:314-337 | its reply, by the lock, the rows, the instance and the provider in order; a failure changes nothing |
| IpManager.Manager.Detach | app/ip_manager/service.py:339-355 | likewise for detach |
| IpManager.Manager.EndHolding | app/ip_manager/service.py:372-390 | the loop over the active assignments computes the function that IpTables characterizes row by row |
| IpManager.Manager.Release | app/ip_manager/service.py:357-409 | its reply, by the lock, the row, its status and the provider in order; a failed deletion leaves the tables unchanged; the provider is asked exactly when nothing else fails first |
| IpManager.Manager.Allocate | app/ip_manager/service.py:147-197 | the retry loop computes the allocation that AllocatesIff characterizes, with exactly that row and event |
| IpManager.AllocatesIff | app/ip_manager/service.py:147-197 | an allocation succeeds iff one of the eight tries yields a new address and all before it collide |
| IpManager.Manager.Drain | app/ip_manager/rotation.py:192-201 | the loop terminates when each poll advances the clock, and answers what the first poll sees that finds no order in flight or reaches the deadline |
| IpManager.AnswerIsSettled | app/ip_manager/rotation.py:192-201 | that answer is settled by what the polls see |
| IpManager.Manager.CleanUp | app/ip_manager/rotation.py:104-113 | the new IP is retired whatever the provider does; it is deleted unless its detach fails |
| IpManager.Manager.Rotate | app/ip_manager/rotation.py:115-314 | reply, tables and deletions are exactly those of the outcome that the tables, the locks held and the environment determine; the broker lock is freed on every path |
| IpManager.RotationOutcomes | app/ip_manager/rotation.py:115-314 | a rotation is refused iff the lock is held, the broker unknown or without an active assignment, or the allocation fails; it succeeds iff it cuts over; a rotation that reaches the drain has attached the new IP to the instance of the old one unless that is gone |
| RotationReplies.AnswersBy | app/ip_manager/rotation.py:181-219 | a rotation that begins, and whose due attach does not fail, replies with the old and new IP iff it is forced, the policy forces, or some poll sees no unfinished order on the old IP while all polls before it see one and come before the start plus max(0, timeout); otherwise with a drain timeout |
| RotationReplies.TimeoutKeepsAssignments | app/ip_manager/rotation.py:203-219 | after a drain timeout every assignment, usage row and older IP is as it was found |
| RotationReplies.SuccessMovesTheBroker | app/ip_manager/rotation.py:221-279 | after a success the old assignment is ended, the new one active, exactly the open usage of the pair stamped with the time and the cooldown, and a usage row open |
| RotationReplies.SuccessMovesTheIps | app/ip_manager/rotation.py:148-250 | the new IP has the region of the old one and its instance unless that is gone; the old one is retired, and off its instance if it was attached |
| RotationReplies.AttachFailureReverts | app/ip_manager/rotation.py:159-314 | a failing attach leaves only the new IP, retired, its deletion asked for, and tells why |
| RotationReplies.DeletionsAre | app/ip_manager/rotation.py:104-113 | a cutover deletes nothing; a timeout deletes the new IP unless its detach is due and fails |
| RotationReplies.RefusedBy | app/ip_manager/rotation.py:122-151 | the refusals in the order of the checks, each leaving the tables as they were |
| IpReplies.AssignAnswers | app/ip_manager/service.py:260-290 | each answer of an assignment, as an iff over the rows |
| IpReplies.AssignWrites | app/ip_manager/service.py:291-309 | a success adds an active assignment and an open usage row, and makes a retired IP allocated |
| IpReplies.AttachAnswers | app/ip_manager/service.py:321-349 | each answer of an attach and of a detach, as an iff |
| IpReplies.AttachWrites | app/ip_manager/service.py:329-351 | attach and detach write the IP's status and instance and nothing else; attaching before a detach makes no difference |
| IpReplies.ReleaseAnswers | app/ip_manager/service.py:364-395 | each answer of a release, as an iff |
| IpReplies.ReleaseWrites | app/ip_manager/service.py:372-405 | a success ends exactly the active assignments of the IP and stamps exactly the open usage rows of the IP by their brokers |
| IpProtocol.LockInvStep | app/providers/memory.py:20-34 | every step of every call keeps the lock table equal to who is inside which critical section |
| IpSafety.InvStep | app/ip_manager/rotation.py:115-314 | every step of allocate, assign, attach, detach, release, rotate and of orders keeps the assignment invariants, in any interleaving |
| IpSafety.AtMostOneActive | app/ip_manager/service.py:279-312 | in every reachable state of any interleaving a broker has at most one active assignment, and none while one of its rotations drains, without relying on the unique index |
| IpSafety.LocksMatchSections | app/ip_manager/rotation.py:122-126 | in every reachable state a lock is held by a call iff the call is inside that critical section; once all calls are done no lock is held |
| DrainSafety.GrowsIffSubmitted | app/orders/service.py:274-290 | the orders in flight on an IP gain a member iff an unfinished order that was not there is submitted on it |
| DrainSafety.DrainGrowsIff | app/routing/engine.py:57-69 | while a rotation drains, they grow iff an unfinished order that was not there is submitted for another broker on the same IP, or with a broker for which routing read it |
| DrainSafety.DrainGrowsIffRoutedBefore | app/routing/engine.py:57-69 | from the draining commit on, alone on its IP, they grow iff an order is submitted with a broker for which routing read the IP before that commit, and not afresh since |
| DrainSafety.RoutedBeforeDrain | app/routing/engine.py:57-69 | what routing read for a broker of an order is the draining IP iff it was when the drain began and the order was not routed afresh |
| DrainSafety.DrainNeverGrows | app/ip_manager/rotation.py:181-201 | alone on its IP, a draining rotation never sees the set of orders in flight grow, over any run |
| DrainSafety.UnforcedCutoverIsDrained | app/ip_manager/rotation.py:194-279 | in every interleaving an unforced cutover commits only when no order is in flight on the old IP |
| DrainBreaks.SharedIpBreaksDrain | app/ip_manager/service.py:279-291 | a run in which another broker holds the IP and the cutover is announced with an order in flight |
| DrainBreaks.SplitRoutingBreaksDrain | app/orders/service.py:274-290 | a run in which an order is routed before the draining commit and submitted on that chain during the drain, with the same end on an IP that nobody shares |
| DrainBreaks.ReleaseDuringRotationIsUndone | app/ip_manager/rotation.py:181-206 | a run in which a release ends the old assignment and the rotation that gives up makes it active again |
| IpOverlap.EndedReturnsIff | app/ip_manager/rotation.py:181-206 | in every reachable state a step makes an ended assignment live again iff a rotation of it marks it draining or gives up unforced |
| IpOverlap.OverlapUndoesRelease | app/ip_manager/rotation.py:203-206 | wherever a release that picked the assignment commits while its rotation is about to give up, the abort leaves it active with no open usage row |
| IpOverlap.CalmStep | app/ip_manager/service.py:372-405 | without overlap every step keeps picked assignments active, rotated ones live, and live ones tracked by an open usage row |
| IpOverlap.EndedStaysEnded | app/ip_manager/rotation.py:181-206 | over any interleaving in which no release that has picked overlaps a rotation of the same IP, an ended assignment stays ended |
| IpOverlap.LiveStaysTracked | app/ip_manager/service.py:291-304 | and every active or draining assignment has an open usage row |
| IpCooldown.NoEarlyReuse | app/ip_manager/service.py:222-244 | and no pair is activated again before the cooldown in force at any release or cutover that freed it has elapsed |
| IpSolo.AllocateIsARun | app/ip_manager/service.py:147-197 | an allocation run alone takes the interleaved machine to the tables with the new IP, or leaves them |
| IpSolo.AssignIsARun | app/ip_manager/service.py:246-312 | an assign run alone takes the interleaved machine to exactly the service's result and gives back both locks |
| IpSolo.AttachIsARun | app/ip_manager/service.py:314-355 | the same for attach and detach |
| IpSolo.ReleaseIsARun | app/ip_manager/service.py:357-409 | the same for release |
| IpSolo.RotationIsARun | app/ip_manager/rotation.py:115-314 | the same for every rotation: refused, reverted, timed out, cut over once the orders on the old IP are finished, or cut over by force with orders in flight |
| IpSolo.ServiceRotationIsARun | app/ip_manager/rotation.py:115-314 | the tables that the service object's rotation leaves are those of a run of the machine, for every environment whose first poll sees the machine's orders |
| Cooldown.StepKeeps | app/ip_manager/service.py:246-409 | every call keeps an open usage row for every active assignment and a closed, stamped row for every pair that was freed |
| Cooldown.NoReuseBeforeCooldown | app/ip_manager/service.py:222-244 | over any run, no broker gets an IP again before the cooldown in force at any of its releases of that IP has elapsed |
| Cooldown.ReleaseIsOnRecord | app/ip_manager/service.py:368-390 | whoever loses an assignment by release is on that record with the cooldown in force |
| Cooldown.OnlyReleaseAndCutoverEnd | app/ip_manager/rotation.py:225-261 | a cutover puts its broker on record, and no other call ends an assignment |
| OrderEngine.WalkTells | app/orders/service.py:223-367 | the walk submits at the first position whose broker accepts, stops at a hard reject or a rejecting rate limit, fails at the end of the chain, and leaves exactly the attempts, failover events, outbox row and order that this reading prescribes |
| OrderEngine.HopsCount | app/orders/service.py:328-357 | one failover event for each consecutive pair of positions passed |
| OrderEngine.FailoversCounted | app/orders/service.py:240-367 | stopping at k leaves k failover events; exhausting n brokers leaves n - 1 |
| OrderFacts.WalkSettlesOrder | app/orders/service.py:240-367 | status, error code, broker order id, broker and IP of the order, and the end that the caller sees, by the first reply that does not pass on to the next broker; no other order changes |
| OrderFacts.WalkPointsToLast | app/orders/service.py:274-287 | the order names the last broker that the walk reached and its IP |
| OrderFacts.FailoverTells | app/orders/service.py:253-357 | the i-th failover event leads from the i-th broker to the next for the reason that its reply gives |
| OrderFacts.AttemptTells | app/orders/service.py:262-326 | one attempt for each broker reached, in chain order, numbered by position, taken with the broker's id iff it accepted |
| OrderFacts.EventTells | app/orders/service.py:291-315 | one announcement iff a broker accepted, with its data |
| OrderFacts.PlacesIff | app/orders/service.py:144-206 | a placement stores a new order iff its client has none of that key, whatever other clients have |
| OrderFacts.OneOrderForEachKey | app/orders/service.py:144-206 | over any serialized run with crashes a client has at most one order of a key |
| OrderFacts.ClientsDoNotReplayEachOther | app/orders/service.py:144-151 | two clients that use the same key each get an order of their own |
| OrderFacts.AdoptsHighest | app/replay/service.py:112-121 | the adopted attempt is taken, named, of the order, and has the highest number of those |
| OrderFacts.RecoveryAdopts | app/replay/service.py:118-132 | a recovery of an unfinished order with such an attempt takes over its broker, IP and id and writes nothing else |
| OrderRuns.WalkIsSound | app/orders/service.py:274-315 | a walk cut short at any commit leaves every order's records sound, unless it has recorded an acceptance without a broker order id, and then not |
| OrderRuns.PlaceIsSound | app/orders/service.py:144-221 | so does a placement, under the same exact condition |
| OrderRuns.CancelIsSound | app/orders/service.py:369-428 | so does a cancellation |
| OrderRuns.RecoverIsSound | app/replay/service.py:106-162 | so does a recovery, whether it adopts or resubmits, under the same exact condition |
| OrderRuns.DoubtIsSound | app/replay/service.py:134-137 | so does the external in-doubt mark |
| OrderRuns.StepIsSoundIff | app/orders/service.py:291-315 | from sound records a step reaches sound records iff the walk that it makes, cut off where its commits run out, does not record an unnamed acceptance |
| OrderRuns.NoRecordedDoubleSubmission | app/orders/service.py:291-315 | every state of a run, with crashes at any commit, has at most one submitted attempt per order, exactly that many submitted announcements, one cancelled announcement iff cancelled, and agreement of a submitted order with its attempt, iff no step of the run records an unnamed acceptance |
| OrderRuns.TakenGrowsIff | app/orders/service.py:291-315 | from any tables, a step adds to an order's submitted attempts exactly the one that its walk of that order gets as far as recording |
| OrderRuns.SecondTakenIff | app/replay/service.py:112-145 | a step adds a further one iff it is a recovery that finds only unnamed ones, walks and records an acceptance |
| OrderRuns.AtMostOneTakenIff | app/replay/service.py:112-145 | over any serialized run an order has at most one submitted attempt iff no step is such a recovery |
| OrderRuns.UnnamedOrderIsSubmittedTwice | app/replay/service.py:118-132 | the run place, mark in doubt, recover, whose first acceptance is unnamed, ends with two submitted attempts and two announcements of one order |
| OrderRuns.AttemptsUseAssignedIps | app/orders/service.py:274-287 | if an assigned IP is required, every attempt of a walk over a selected chain carries the IP that routing read for its broker |
| OrderRaces.InvStep | app/orders/service.py:223-367 | every step of every interleaving keeps each call on a stored order and waiting for an attempt in flight of its own |
| OrderRaces.UnchangedColumnsStay | app/orders/service.py:274-287 | a call does not overwrite a column that it has not changed since it read the order, whatever others wrote meanwhile |
| OrderRaces.PotentialStep | app/replay/service.py:106-145 | a step can add to an order's submitted attempts plus the calls that can still submit it only by bringing in a call |
| OrderRaces.TakenAsOftenAs | app/replay/service.py:51-145 | from any such state, without further calls and with named acceptances, an order can get m submitted attempts iff m is at most that sum |
| OrderRaces.SubmittedOnce | app/replay/service.py:51-145 | over any interleaving with crashes, cancellations and in-doubt marks an order has at most one submitted attempt, if a recovery reads it only while no other call works on it and acceptances are named |
| OrderRaces.OverlapSubmitsTwice | app/replay/service.py:51-58 | a recovery that reads an unfinished order while a call can still submit it makes two named submissions possible |
| OrderRaces.ReplaySubmitsLiveOrder | app/replay/service.py:51-58 | the shortest such run: a placement stores its order and a scan picks it up |
| OrderSolo.RunIsARun | app/orders/service.py:223-367 | every serialized run, with crashes at any commit, is a run of the interleaved machine with the same tables |
| OrderService.RecoverySettles | app/replay/service.py:106-162 | a recovery that finds a route and a session leaves its order submitted, failed or cancelled, never stuck |
| OrderService.Tally | app/replay/service.py:63-86 | every scanned order is under exactly one heading; retries lie between the recovered and the recovered plus failed |
| ReplayScan.ListedIff | app/replay/service.py:51-58 | an order is listed iff it is created, submitting or in doubt and fewer than the limit before it are |
| ReplayScan.ListedByAge | app/replay/service.py:51-58 | the list holds only such orders, in the order of age |
| ReplayScan.EndTells | app/replay/service.py:106-162 | an order counts as skipped iff it was finished, as recovered iff it becomes submitted, and as raised iff nothing is adoptable and no route is found |
| ReplayScan.RaisedOnlyResets | app/replay/service.py:134-143 | without a route only the in-doubt status is reset |
| ReplayScan.SummaryCounts | app/replay/service.py:69-94 | the summary counts the orders by how they end; recovered and not recovered ones are retries |
| ReplayScan.ScanLeavesNoneStuck | app/replay/service.py:60-104 | a scan with room for the unfinished orders, and a route and sessions for each, leaves none of them created, submitting or in doubt |
| OrderService.Service.SubmitInline | app/orders/service.py:223-367 | the loop over the chain computes the walk that WalkTells characterizes |
| OrderService.Service.PlaceOrder | app/orders/service.py:144-221 | a replay returns the stored order iff the key was taken; otherwise the order is stored, and the reply is the new order iff the walk was accepted, and the error that the caller sees iff no route was found or the walk raised |
| OrderService.Service.CancelOrder | app/orders/service.py:369-428 | cancels iff the status allows it and the broker, when it knows the order, agrees |
| OrderService.Service.RecoverOne | app/replay/service.py:106-162 | computes the recovery whose ends the run lemmas describe |
| OrderService.Service.RunReplay | app/replay/service.py:51-104 | recovers the oldest stuck orders one by one, a failure of one not stopping the rest, and reports and remembers the exact counts |
| Placement.CountInvStep | app/orders/service.py:162-221 | every step keeps the counter equal to the permits held |
| Placement.ClampNeverFires | app/orders/service.py:217-221 | a call that leaves finds the counter above zero |
| Placement.CallInvStep | app/orders/service.py:144-206 | every step keeps the link between calls and stored rows |
| Placement.PlacementIsIdempotent | app/orders/service.py:124-221 | in every interleaving one key has one row, every call that returns yields it, and at most one reports that it created it |
| Placement.CounterMatchesPermits | app/orders/service.py:162-221 | the counter equals the permits held and never exceeds the maximum, and a conflict always finds the row it collided with |
| MemoryRateLimit.StoredHitsStandForLog | app/providers/memory.py:116-119 | from the latest call on, the pruned list and the full log have the same recent hits |
| MemoryRateLimit.PrunedListIsRecentLog | app/providers/memory.py:116-161 | the pruned list is exactly the log's current window iff the window is positive or the last call admitted nothing |
| MemoryRateLimit.AdmitsIffLogHasRoom | app/providers/memory.py:136-161 | consume admits iff fewer than the limit of logged hits lie in the current window |
| MemoryRateLimit.EveryWindowWithinCapacity | app/providers/memory.py:136-161 | every window ending at any time holds at most the limit, rounded up, of admitted hits |
| MemoryRateLimit.CapacityIsReached | app/providers/memory.py:136-161 | an idle limiter does admit that many at once |
| MemoryRateLimit.PressureReadsRemaining | app/providers/memory.py:121-134 | the reported pressure lies in [0, 20] and is 20 exactly when nothing remains |
| MemoryRateLimit.PressureIsShare | app/providers/memory.py:121-134 | pressure is twenty times the used share of the limit, capped; remaining is the rest |
| MemoryRateLimit.RecentHolds | app/providers/memory.py:116-119 | pruning keeps exactly the hits younger than the window |
| MemoryRateLimit.WindowHolds | app/providers/memory.py:136-161 | the window of a log holds exactly its hits inside (end - window, end] |
| MemoryRateLimit.Limiter.Consume | app/providers/memory.py:136-161 | the in-place lists follow the specification, key by key |
| MemoryRateLimit.Limiter.Check | app/providers/memory.py:121-134 | reports on the pruned list and admits nothing |
| RedisRateLimit.LiveInvStep | app/providers/redis_adapters.py:96-118 | no step of a consume or a check removes a hit from the sorted set that could still count |
| RedisRateLimit.RoomInvStep | app/providers/redis_adapters.py:120-141 | every step keeps room for the consumers that hold an allowing snapshot, counted by different members |
| RedisRateLimit.OvershootBound | app/providers/redis_adapters.py:96-141 | with at most k consumers between snapshot and add, every window holds at most the limit, rounded up, plus k - 1 different members, so its hits exceed that by at most those that repeat a member |
| RedisRateLimit.DistinctIffReadingsDiffer | app/providers/redis_adapters.py:124-127 | members are distinct iff no limiter object adds two hits under one clock reading |
| RedisRateLimit.StampReadsClock | app/providers/redis_adapters.py:124-125 | a stamp is the clock at an earlier step of its consumer |
| RedisRateLimit.ReadingsDifferBound | app/providers/redis_adapters.py:96-141 | without such a pair the bound holds for the hits themselves |
| RedisRateLimit.BoundIsReached | app/providers/redis_adapters.py:96-141 | some run reaches the bound |
| RedisRateLimit.CollidingMembersBreakTheBound | app/providers/redis_adapters.py:124-130 | a run with equal members that exceeds it |
| RedisRateLimit.ConsumedInSteps | app/providers/redis_adapters.py:120-141 | an uninterrupted consume is the steps of one consumer in a row |
| RedisRateLimit.CheckedInSteps | app/providers/redis_adapters.py:96-118 | an uninterrupted check prunes what has left the window |
| RedisRateLimit.LifetimeIs | app/providers/redis_adapters.py:128-128 | the key lives a second more than the whole seconds of the window, and at least one |
| RedisRateLimit.Limiter.Check | app/providers/redis_adapters.py:96-118 | prunes the scores up to the start of the window, adds nothing, and reports on the rest |
| RedisRateLimit.Limiter.Consume | app/providers/redis_adapters.py:120-141 | the method leaves what those steps leave |
| BusBuffer.RingRefinesLog | app/events/bus_buffer.py:14-86 | after any run the ring holds the newest min(n, maxlen) accepted events, newest first; counts by type sum to the total |
| BusBuffer.AcceptedIffAbsent | app/events/bus_buffer.py:30-64 | an event with an id is accepted iff the window has no event with that id |
| BusBuffer.NearbyIdsDiffer | app/events/bus_buffer.py:30-64 | any maxlen + 1 consecutive accepted events have distinct ids |
| BusBuffer.DecimalReads | app/events/bus_buffer.py:37-40 | generated ids count the accepted events in decimal |
| BusBuffer.Buffer.Append | app/events/bus_buffer.py:30-64 | the in-place update follows the specification |
| BusBuffer.StatsTellLog | app/events/bus_buffer.py:78-86 | over any run the statistics count the accepted events, altogether and by type, and report the length, the time and the source that follow from them |
| BusBuffer.Buffer.GetStats | app/events/bus_buffer.py:78-86 | reports those statistics of the fields |
| BusBuffer.Buffer.Clear | app/events/bus_buffer.py:22-28 | empties the ring, the counts and the last time |
| EventProvider.ReplayKeepsRows | app/providers/memory.py:72-88 | re-delivering the whole published log leaves the rows and their order unchanged for every length and capacity; the accepted total grows by n iff n exceeds the capacity |
| EventProvider.FeedShowsOnce | app/events/outbox.py:98-109 | a drained row shows once, whether or not a handler saw it first |
| EventProvider.ReplaysWanted | app/providers/memory.py:83-88 | a replay to a handler of some topics is a replay of exactly the messages of those topics |
| EventProvider.PublishShowsWanted | app/providers/memory.py:64-70 | a publish shows in the ring iff its handler wants the topic |
| EventProvider.RingShowsNewestPublished | app/providers/memory.py:64-88 | over any run of drained rows, re-subscriptions and closings the ring shows the newest published events |
| EventProvider.ClosedForGood | app/providers/memory.py:64-108 | once closed, nothing is published and no handler is registered in any continuation |
| EventProvider.MemoryEventProvider.Publish | app/providers/memory.py:64-70 | refuses when closed, otherwise logs the event and hands it to the handler if it wants its topic; a handler that raises leaves the log entry |
| EventProvider.MemoryEventProvider.Close | app/providers/memory.py:104-108 | marks the provider closed and drops the handler, which is the closing step of those runs |
| EventProvider.MemoryEventProvider.Subscribe | app/providers/memory.py:72-88 | replays the log to the new handler and registers it |
| Outbox.DrainSettlesOldest | app/events/outbox.py:61-116 | one crash-free drain attempts the oldest min(limit, pending) rows in order, settles each, and changes no other |
| Outbox.AttemptsFollowCreation | app/events/outbox.py:69-100 | over any run of a single drainer the attempts carry the ids of the settled rows in creation order, each once |
| Outbox.DrainLogsReached | app/events/outbox.py:85-115 | a drain attempts the oldest pending rows and adds to the log exactly those whose publish reaches it, in creation order |
| Outbox.DrainReportsSent | app/events/outbox.py:99-116 | it turns as many rows to sent as it reports |
| Outbox.PublishLogFollowsCreation | app/events/outbox.py:69-115 | over any run of a single drainer, with faults before and after the log, subscriptions and closing, the publish log carries exactly the rows whose publish reached it, in creation order |
| Outbox.LogIsSentIff | app/providers/memory.py:64-70 | these are exactly the sent rows iff no publish raised after it had reached the log |
| OutboxMessages.MessageCarriesRow | app/events/outbox.py:85-100 | over any run of a single drainer the log has one message for each row whose publish reached it, in the order of the rows, with that row's topic, id, kind and payload |
| OutboxMessages.RowsAreStaged | app/events/outbox.py:18-36 | the rows are those that were staged, in that order; only their statuses change |
| OutboxMessages.StatusTells | app/events/outbox.py:98-114 | a row is pending until its attempt, and then sent iff its publish did not raise |
| OutboxMessages.DrainShowsRows | app/events/outbox.py:98-109 | a drain of rows with fresh distinct ids adds one ring row for each row it delivers, with its id, kind, topic and payload, the newest first |
| OutboxMessages.OutcomesAre | app/providers/memory.py:64-70 | a publish is delivered iff the provider is open and neither it nor a handler of the topic raises |
| Outbox.RaisingHandlerLeavesTheLog | app/providers/memory.py:64-70 | the run in which a handler raises ends with an error row in the log |
| Outbox.DrainsEmptyTheOutbox | app/events/outbox.py:61-116 | with no new rows, j drains settle min(j times limit, pending) rows |
| Outbox.EmptyAfterIff | app/events/outbox.py:61-116 | after j drains no row is pending iff j times the limit is at least what was pending |
| Outbox.OutboxLosesNothing | app/events/outbox.py:85-115 | with overlapping and crashing drainers a row leaves pending only after an attempt with its own id, and a sent row was published |
| Outbox.CommitSettles | app/events/outbox.py:98-115 | a drainer that has attempted its batch settles each row of it by its last outcome, and no other row |
| Outbox.OverlapRepeatsAndCrashKeepsPending | app/events/outbox.py:68-115 | overlap publishes twice and a crash before the commit keeps the row pending |
| Outbox.OutboxTable.Enqueue | app/events/outbox.py:18-36 | adds one pending row |
| Outbox.OutboxTable.PublishRow | app/events/outbox.py:98-114 | one turn of the loop: sent iff the publish did not raise before or after the log, the log and the ring as that outcome leaves them, the attempt carrying the row's id |
| Outbox.OutboxTable.Drain | app/events/outbox.py:61-116 | the drain against the in-process provider: rows, log and ring, with exact counts and a reported pending of zero |
| Health.HealthierNeverScoresLower | app/health/service.py:20-60 | improving any input never lowers the score nor the status read off it, for non-negative weights and any thresholds |
| Health.BestScore | app/health/service.py:30-48 | at best a broker scores 100 times the weights together |
| Health.MeasurementsCount | app/health/service.py:30-48 | success, timeouts, connectivity and IP health count in proportion to their own weights |
| Health.LatencyCounts | app/health/service.py:30-48 | latency counts down linearly to nothing at the budget |
| Health.StatusFollows | app/health/service.py:51-60 | the status follows from the two thresholds |
| Routing.Filter | app/routing/engine.py:98-187 | the loop fills the two lists with the verdicts in broker order |
| Routing.SelectRoute | app/routing/engine.py:71-213 | the imperative selection equals the specified one |
| Routing.DecisionIsRight | app/routing/engine.py:71-213 | the chain is exactly the client's enabled eligible brokers, each once, the excluded are exactly the others with their reasons, each once, and the head of the chain is the primary, the preferred broker if eligible |
| RoutingFacts.PlacedBy | app/routing/engine.py:98-167 | an enabled broker of the client is in the chain iff it passes the five checks, and is excluded for a reason iff that is the first check that it fails |
| RoutingFacts.OnlyAskedAreNamed | app/routing/engine.py:86-92 | nobody else is named in the decision |
| RoutingFacts.GoesFirst | app/routing/engine.py:169-206 | one broker precedes another iff it is preferred, or neither is and it has more of health + 2 priority - pressure + 15 if preferred + 10 if a region is asked, or as much and is listed first; pressure is at least 20 for a broker over its rate |
| RoutingFacts.CandidateTells | app/routing/engine.py:169-187 | health, pressure, score, IP and tags of a broker in the chain |
| Routing.CandidatesAndExclusionsPartition | app/routing/engine.py:98-187 | every judged broker is exactly once a candidate or excluded |
| Routing.AskedExactly | app/routing/engine.py:86-92 | the brokers judged are exactly the client's enabled ones |
| Routing.SortedIsRanked | app/routing/engine.py:189-189 | the sort is a stable descending order of the candidates |
| Routing.ChainPermutesCandidates | app/routing/engine.py:191-206 | the chain is a permutation of the candidates headed by the primary |
| Routing.PreferredLeads | app/routing/engine.py:191-206 | an eligible preferred broker is first |
| Routing.ChainOrder | app/routing/engine.py:189-206 | one eligible broker precedes another iff it is preferred, scores higher, or ties and was listed first |
| Routing.RaisingHealthNeverHurts | app/routing/engine.py:135-206 | raising one broker's health never excludes it and lets nobody overtake it |
| Routing.HealthierInputsAreHealthier | app/health/service.py:24-60 | better raw measurements are such a rise |
| Routing.ChainUsesAssignedIps | app/routing/engine.py:57-69 | when an assigned IP is required every candidate carries the IP that routing read for its broker |
| RoutingIps.ChainUsesActiveAssignments | app/routing/engine.py:57-69 | and that is the IP of the broker's active assignment in the table |
| RoutingIps.AttemptsUseActiveAssignments | app/orders/service.py:274-287 | so is the IP of every attempt of a walk over the chain |
| Subscriptions.Service.Create | app/subscriptions/service.py:46-83 | the two errors and, otherwise, the new open window; a covering one lifts a suspension |
| Subscriptions.Service.AssertTradingAllowed | app/subscriptions/service.py:149-182 | passes iff trading is allowed, clearing a stale suspension only then |
| Subscriptions.Service.TearDown | app/subscriptions/service.py:206-228 | the inner loop rewrites exactly the client's living instances as the provider answers, and counts those torn down |
| Subscriptions.Service.EnforceExpiry | app/subscriptions/service.py:184-246 | the two loops compute the specified world and the exact counts |
| Subscriptions.Service.ExpireNow | app/subscriptions/service.py:248-256 | an open subscription is shortened and expired; any other stays as stored |
| SubscriptionRuns.ExpiresListedRows | app/subscriptions/service.py:200-232 | enforcement closes exactly the due rows |
| SubscriptionRuns.EnforcementWrites | app/subscriptions/service.py:184-242 | enforcement closes and announces exactly the active rows not torn down that have ended, and suspends exactly their clients |
| SubscriptionRuns.ExpireNowCloses | app/subscriptions/service.py:248-256 | expiring an active subscription ends its window then and closes it for good |
| SubscriptionRuns.CountsTorn | app/subscriptions/service.py:206-221 | the count of one subscription is the number of its client's running, pending or suspended instances whose teardown works |
| SubscriptionRuns.EnforcementChangesTradingIff | app/subscriptions/service.py:116-147 | enforcement changes a client's answer at t iff every window of the client over t has ended by then, so never for a later time |
| SubscriptionRuns.LastMomentIsTakenAway | app/subscriptions/service.py:116-126 | at the moment a window ends it still covers, and enforcement takes it away |
| SubscriptionRuns.SecondRunFindsNothing | app/subscriptions/service.py:186-194 | a second run at the same time finds no due row and changes nothing |
| SubscriptionRuns.TeardownIgnoresOrder | app/subscriptions/service.py:206-221 | when provider calls succeed, an instance ends destroyed iff some due subscription of its client says so, otherwise suspended |
| SubscriptionRuns.EnforcementIsConfluent | app/subscriptions/service.py:184-246 | rows, clients and instances do not depend on the order of the due rows |
| SubscriptionRuns.CountDependsOnOrder | app/subscriptions/service.py:222-246 | the reported number of torn-down instances does |
| TradingHistory.AgreesStep | app/subscriptions/service.py:46-256 | every operation keeps the rows in agreement with a record of windows in which enforcement does nothing |
| TradingHistory.TradingFollowsWindows | app/subscriptions/service.py:128-147 | after any run, who may trade at a later time follows from the windows alone, or from the initial status of a client without any |
| TradingHistory.DestroyedIsForever | app/ip_manager/service.py:78-129 | no start, suspend, destroy or enforcement brings a destroyed instance back, whatever the provider answers |
| ProviderCache.Registry.Activate | app/api/routes/admin_providers.py:349-390 | retires the active row of the kind and inserts the next version |
| ProviderCache.Manager.Invalidate | app/providers/manager.py:45-68 | sets the event provider aside and forgets the versions of the named kind, or of all |
| ProviderCache.Manager.CloseAll | app/providers/manager.py:70-78 | closes every stale provider, from the end of the list |
| ProviderCache.Manager.GetEventProvider | app/providers/manager.py:374-402 | returns the cached provider or closes it and builds another |
| ProviderCache.Manager.GetInfrastructureProvider | app/providers/manager.py:188-219 | the same for infrastructure, without closing |
| ProviderCache.VersionsIncrease | app/api/routes/admin_providers.py:349-390 | over any run of activations versions of a kind strictly increase and at most one row is active |
| ProviderCache.GetAgreesWithRebuilding | app/providers/manager.py:374-402 | after any run a get yields a provider built from the current active global row, or the environment, even if nothing was invalidated here |
| ProviderCache.GetYields | app/providers/manager.py:374-402 | after any run a get yields what the active row without a client says, and the environment's provider if there is none |
| ProviderCache.GetBuildsIff | app/providers/manager.py:374-402 | it builds iff that row's version is not the cached one |
| ProviderCache.ForgottenIsRebuilt | app/providers/manager.py:45-57 | after the event provider is forgotten the next get builds another and the old one is closed |
| ProviderCache.ExactlyOnePlace | app/providers/manager.py:45-78 | every event provider ever built is exactly one of cached, stale and closed |
| ProviderCache.OneOpenAfterGet | app/providers/manager.py:374-402 | after a get exactly one is open, the one returned; every other one is closed exactly once |
| ProviderRaces.UniqueIffFresh | app/api/routes/admin_providers.py:349-390 | over any run of activations whose reads and commits interleave, versions are unique iff every commit inserts a version that is still the next one |
| ProviderRaces.GetAgreesIff | app/providers/manager.py:374-402 | after any such run a get agrees with rebuilding iff the active row's version is not cached from another row with other settings |
| ProviderRaces.FreshRunsAgree | app/providers/manager.py:374-402 | so it always does when every commit is fresh |
| ProviderRaces.RacingActivationsServeStale | app/api/routes/admin_providers.py:349-390 | the run in which two activations read the same version serves the first settings while the second are active |

## Left out

- HTTP routes other than activation, schemas, the Admin user interface, the WebSocket feed, workers' loops and compose scripts: plumbing.
- The Kafka, Vultr and Docker adapters, whitelist synchronization and XML or JSON parsing: their outcomes are arbitrary inputs.
- Encryption, tokens, hashing and id generation: ids and tokens are distinct inputs.
- Trading-mode and execution-mode checks before a placement, simulator faults, pagination, region aliases, config storage, session details: each would add only easy members.
- Database failures and ORM session behaviour: a committed transaction is one step, and later queries of a transaction see its earlier writes. Creation order stands for `created_at` order.
- Time zones and datetime precision: times are integers or reals.
- Failures between the draining commit and the cutover other than a drain timeout: the code has no recovery there, so nothing is claimed.
- Redis lock expiry as a source of mutual exclusion: the exclusion theorems are about the in-process lock. Dropping the lock provider from the provider cache in the middle of a call (`app/providers/manager.py:45-55`) would replace the lock table and is excluded too.
- One broker per IP: assignment does not enforce it, and the drain theorems state it as a condition.
- A release that overlaps a rotation of the same IP: the code does not prevent it, and the theorems on ended assignments and on the cooldown state its absence as a condition.
- A recovery that overlaps another call on the same order: the code does not prevent it, and the theorem on single submissions in every interleaving states its absence as a condition.
- A broker that was reached although the process died before the commit: only recorded submissions are claimed to be unique.
- Concurrent calls of the provider cache within one process, and broker, cache, lock and session providers: only the event and infrastructure entries, one call at a time.
- Instance creation and renewal flags outside enforcement; starting, suspending and destroying an instance appear only as the status they leave.
- Subscriptions.Service.AssertTradingAllowed: does not model the wording of the hint in the error.
- Outbox.OutboxTable.Drain: does not model topic prefixes, topic maps or the JSON form of payloads.
