# Virtual queue: a verified model

A waiting room admits visitors to protected origins. Queue-API handlers, scheduler instances and origin guards share no
memory: they meet only in single Redis commands and in signed tokens with an expiry. This project models that protocol
and proves what it guarantees in every run, whatever the interleaving, with commands that fail, replies that are lost,
processes that crash and a clock that moves.

## How it is built

There are two layers, tied to each other.

**The transition layer.** `Machine` has one step for each Redis command of the scheduler's tick, of `createTicket` and of
`POST /queue/exit`; each tick and each join has its own program counter and local variables. `Origin` does the same for
`QueueGuard` with its call to `ValidateAdmission`, `Delivery` for SSE streams and pollers, and `Site` puts them together.
Every step has an outcome: it took effect, it was refused, or it took effect and its reply was lost. A process may stop
between any two steps. `Site.Run` runs any sequence of actions; an action that cannot happen changes nothing, so a lemma
over all action sequences is a lemma over all runs. `History` is a ghost record that no process reads.

**The executable layer.** `World` is a class whose fields are the two Redis servers, updated in place by command methods
that may fail. `Scheduler`, `Handlers` and `QueueGuard` are the source's code as classes and methods over it. Before each
command the code calls `Yield`, after which the other processes may have done anything. A ghost copy of the machine moves
along, one recorded step for each command, and `World.Valid` says that the servers hold exactly what the machine says.
The code may record no crash but that of a lost reply to SETNX, and every step only with the outcome that its own last
command had. So every execution of the code is a run of the machine, and the run-level lemmas speak about the code.
`World.calls` logs what a caller sends: the outcome of its last command, how many commands gave no answer, its SETNXs and
SCANs, and every command that changes a key. Contracts say by it which commands a call sends, and what it achieves if all
of them are answered. What a call read is stated at the instant of the run at which it was read.

| modules | contents |
|---|---|
| `Config`, `Tokens`, `SortedSet`, `Redis` | lifetimes and int64, idealised tokens, the sorted set, the data set and its commands |
| `Machine`, `Origin`, `Delivery`, `Site` | the processes, command by command, and runs of all of them |
| `Conservation`, `Fifo`, `Locks`, `Capacity`, `Ceiling`, `Accounting`, `Tickets`, `Redemption`, `Visits`, `Runs` | invariants and their preservation by every step |
| `Batches`, `Turns`, `Verdicts` | what one tick, one stream and one guard achieve, told as properties of the run |
| `Guarantees`, `Visitors`, `Pace`, `Views`, `Service` | the main theorems |
| `Witnesses` | runs in which a promise fails, from a new deployment on |
| `Keys`, `Flat` | the key constructors, and the string-keyed store in step with the model |
| `World`, `Store`, `Scheduler`, `Handlers`, `QueueGuard` | the code, verified under interference |

## Assumptions

- Every service reads one clock, in milliseconds. A Redis key with a deadline is alive exactly while `now` is before it.
- A signature verifies exactly under the key that made it and cannot be forged; the digest of the status secret is taken
  as the secret. `uuid.New` never repeats a value, nor do two processes draw the same, and reading the random source succeeds.
- SUBSCRIBE is in force when the call returns, although the client library does not wait for the confirmation, and a
  subscription's buffer never overflows: it is the channel log from the subscription on.
- A ticket id is a number; `Keys.HexOrder` proves that its text sorts the same way. The dashes of a UUID stand at fixed
  places and are left out.
- Each command is sent once: automatic retries in the Redis client are not modelled.
- The injected `issueToken` is `IssueAdmission`, and it may fail.

## What the code does and the design document does not say

The model follows the code. The scheduler performs the INCR (`internal/scheduler/admission.go:147`); `DESIGN.md:220-225`
puts it in QueueGuard. Nothing sweeps `active`, and `POST /queue/exit` decrements without looking. The lock's DEL does
not look at its owner. A ticket whose hash write fails answers 404 on its status, although
`internal/api/handler_join.go:143` says otherwise. The rate is used per tick; the drain estimate takes a tick for
a minute (`Views.EstimateAgainstTicks`).

Where a promise does not hold as it stands, the project shows a run in which it fails and proves when it does hold:

- *One token, one session.* `Witnesses.TwiceRedeemed` is a run that redeems a token twice: a guard pauses between its last
  expiry check and its SETNX until the marker has run out. `Guarantees.RedeemedOnceIff` gives the exact condition on a
  run. Two conditions are enough: each guard sends its SETNX only while its own token is unexpired, which it can see to
  by itself (`Guarantees.PromptGuardsRedeemOnce`), or its pause is at most the token's age at its first redemption, plus
  the fraction of a second that `NewNumericDate` drops (`Guarantees.RedeemedOnce`).
- *SSE delivers the admission.* An admission published before the subscription is never delivered:
  `Visitors.StreamDeliversIff` is an equivalence, and `Witnesses.WaitsForEver` a run with such a stream. Once a position
  was shown, none is lost (`StreamLosesNoAdmission`).
- *A ticket without its hash fields still has a status.* It answers 404, as in `Witnesses.NoSuchTicket`:
  `Visitors.NotFoundIff`.
- *A token is redeemable for its lifetime.* It is not when the ticket's hash expires first: `Visitors.RedeemableIff`,
  `RedeemableForLife`, and the run `Witnesses.OutlivesHash`.
- *The counter stays within the capacity.* A read without an answer can break the ceiling (`Witnesses.CeilingBroken`).
  `Guarantees.CeilingIff` says exactly when: if such a read makes its tick ask for more than is left.
- *At most `capacity` sessions.* Tokens whose INCR failed, or whose scheduler crashed between the issue and the INCR, are
  outstanding without being counted (`Capacity.CrashFreesIssuedPlace`). `Guarantees.Occupancy` has them as a term, and
  `Witnesses.OneMoreThanCapacity` is a run that attains the bound above the capacity.
- *One scheduler at a time.* `Guarantees.LockExclusion` is an equivalence: exclusion holds in a run if and only if nobody
  asks for a lock while a tick that outlived it is still running. `Witnesses.LockOverrun` is a run that does.
- *Key constructors are disjoint.* As plain strings they are not: channels and keys can share a name
  (`Keys.ChannelsCollideIff`). Keys among themselves cannot.
- *`constrained` means no headroom.* The int64 subtraction can wrap: `Views.ConstrainedMeansNoHeadroom`, and the run
  `Witnesses.ConstrainedWhileEmpty`.

## Model

| member | source | states |
|---|---|---|
| Guarantees.TicketsConserved | internal/scheduler/admission.go:104-158 | in every reachable state a ticket ever added to an event's queue is waiting, held by exactly one tick, admitted or dropped, and only one of these; a ticket never added is none. Dropped means that its tick ended before announcing it; with a token stored before a crash it may still be let in |
| Guarantees.PoppedOnce | internal/scheduler/admission.go:105-109 | no ticket is popped twice by any schedulers, and a ticket is still queued exactly if it was never popped |
| Guarantees.BooksBalance | internal/api/handler_exit.go:22 | the active counter is its initial value plus the INCRs minus the DECRs that took effect; tokens issued are counted, about to be counted, or lost to the counter |
| Guarantees.NobodyOvertakes | internal/scheduler/admission.go:105 | whoever was in line when b was popped and has a smaller (score, id) was popped before b, over whole runs |
| Guarantees.PopLogInScoreOrder | internal/api/handler_join.go:134-139 | if ZADDs arrive in score order, the whole pop log is in score order, across batches and schedulers |
| Guarantees.LockExclusion | internal/scheduler/leader_lock.go:15-22 | two ticks of an event never run at the same time in a run, crashes and expiries included, if and only if nobody asks for a lock while a tick that outlived it is still running |
| Guarantees.OnlyOwnLocksDeleted | internal/scheduler/leader_lock.go:20-22 | and then the ownerless DEL only ever removes the lock its own tick set |
| Guarantees.OverlapBound | internal/scheduler/admission.go:76-101 | with at most k ticks of an event in flight at rates up to r, active plus all INCRs to come stays within max(initial, cap + (k - 1) * r) |
| Guarantees.CeilingIff | internal/scheduler/admission.go:84-101 | under the lock, with capacities of at most cap and any rates, active plus all INCRs to come stays within m >= max(initial, cap) in all states of a run if and only if no read of the counter or the capacity goes unanswered while its tick would then ask for more than m leaves |
| Guarantees.ExactCeiling | internal/scheduler/admission.go:84-101 | in particular it never exceeds max(initial, cap) if all reads are answered |
| Guarantees.Occupancy | internal/scheduler/admission.go:114-153 | while the ceiling holds, from any initial counter, sessions ever granted minus exits whose DECR took effect never exceed the places free at the start plus the issued tokens whose INCR was lost |
| Guarantees.OccupancyIs | internal/scheduler/admission.go:114-153 | with or without the ceiling, sessions granted minus exits that took effect equal the growth of the counter plus the tokens about to be counted and those lost to it, minus the tokens no session was granted for |
| Guarantees.RedeemedOnce | pkg/middleware/queue_guard.go:55-98 | if guards are timely, no jti is redeemed twice, by any number of guards and for all time, although the markers expire |
| Guarantees.RedeemedOnceIff | pkg/middleware/queue_guard.go:93-98 | a run redeems no jti twice if and only if no SETNX takes effect a full marker lifetime after its jti was redeemed |
| Guarantees.PromptGuardsRedeemOnce | pkg/middleware/queue_guard.go:56-98 | so it does if every SETNX takes effect while the guard's own token is unexpired |
| Guarantees.OneRequestPasses | pkg/middleware/queue_guard.go:36-111 | then no two requests are let in on one token |
| Guarantees.AdmittedOnce | pkg/middleware/queue_guard.go:36-111 | nor is a later request, once an earlier one was let in |
| Guarantees.SessionProvenance | pkg/middleware/queue_guard.go:93-107 | every session goes back to one redemption, one admission token, the join that bound its ticket to its event, and a pop from that event's queue |
| Guarantees.SessionsInjectIntoPops | pkg/middleware/queue_guard.go:93-107 | under the same condition different sessions have different tokens and different tickets |
| Visitors.StreamLosesNoAdmission | internal/api/handler_status.go:91-101 | once a stream has shown a position, an admission published at any time is delivered by it or still in its buffer |
| Visitors.StreamShape | internal/api/handler_status.go:98-134 | a stream writes positions and then at most one admission, which comes last |
| Visitors.StreamDeliversIff | internal/api/handler_status.go:92-134 | a drained stream has delivered the admission exactly if it was published after the subscription |
| Visitors.LateStreamNeverEnds | internal/api/handler_status.go:92-134 | a stream that subscribed after its ticket's admission never ends, however the run goes on |
| Visitors.PollsMoveForward | internal/api/handler_status.go:34-47 | successive answers go from 404 to positions to pending to admitted, never back, and always with the one token issued to the ticket |
| Visitors.PositionsNeverRise | internal/api/handler_status.go:42-61 | if later tickets are added behind, the positions shown never go up, whichever reads fail |
| Visitors.StreamPositionsNeverRise | internal/api/handler_status.go:98-124 | nor do the positions a stream writes, whichever of its reads fail |
| Turns.BatchIsAnnounced | internal/scheduler/admission.go:112-157 | in every run a tick that was working on popped members, did not die, was refused no command and is done with them has published the tick of its event since |
| Turns.TickMakesStreamRead | internal/api/handler_status.go:107-117 | in every run a tick of its event at the head of its buffer makes a waiting stream read its rank |
| Turns.ReadIsShown | internal/api/handler_status.go:98-124 | and an answered read of a ticket that still waits is written as its position |
| Turns.DeliveredWithinTurns | internal/api/handler_status.go:106-134 | in every run an admission in a stream's buffer is the stream's last output once it has taken as many turns as there are messages up to it, unless the client leaves |
| Turns.ReachedIsLast | internal/api/handler_status.go:126-134 | an admission that a stream has passed in its buffer is its last output, in every run |
| Visitors.NotFoundIff | internal/api/handler_status.go:24-28 | in every reachable state an answered first read says 404 exactly if the join fields were never written or the hash has expired |
| Visitors.TransportsAgree | internal/api/handler_status.go:126-133 | in every run any stream and any poller of a ticket deliver the same token, stored and after its INCR was attempted |
| Visitors.PollsDeliverOneToken | internal/api/handler_status.go:37-40 | in every run a poll that answers admitted delivers the one token issued to the ticket, whatever its reads gave before and whether or not the hash has expired |
| Visitors.PollersHoldSecret | internal/api/handler_status.go:29-32 | in every run positions, pending and tokens are told only to a client with the secret of the ticket's join |
| Visitors.StreamsHoldSecret | internal/api/handler_status.go:76-79 | and nothing is written to a stream or subscribed for it unless its client has that secret |
| Visitors.AnswersMoveForward | internal/api/handler_status.go:34-47 | answers move forward per ticket: a request that starts after some client's answer gets no earlier one, and after a token the same token |
| Visitors.PublishedIsStored | internal/scheduler/admission.go:127-150 | when an admission is on the channel its INCR has been attempted and, if the HSET took effect and the hash is alive, HGET returns that very token |
| Visitors.StoredBeforePublished | internal/scheduler/admission.go:127-150 | a token that is ever stored was stored before its admission was published |
| Visitors.HashIndependentOfOrder | internal/api/handler_join.go:136-150 | however the join's HSET and EXPIRE interleave with the scheduler's HSET, an unexpired hash holds exactly the fields, token and deadline whose writes took effect |
| Visitors.RedeemableIff | internal/api/handler_validate.go:29-39 | an issued token passes validation exactly while it is unexpired and its ticket's hash fields are written and alive |
| Visitors.RedeemableForLife | internal/config/config.go:15-20 | a token issued at most 90 minutes after its hash got its TTL is redeemable as long as it lives; one that outlives its hash is not |
| Views.ViewsAgreeWithScheduler | internal/api/handler_admin.go:76-80 | in every reachable state the rate GetConfig reports is the one a tick uses, and constrained holds exactly when a tick that reads now skips its ZPOPMIN |
| Views.ConstrainedMeansNoHeadroom | internal/api/handler_status.go:49-54 | constrained holds exactly if a capacity is set and is used up, or the int64 subtraction overflows |
| Views.EstimateCountsTicks | internal/api/handler_admin.go:85-88 | the drain estimate is 60 times the ticks the queue needs, less 60 if the depth is no multiple of the rate |
| Views.EstimateAgainstTicks | internal/api/handler_admin.go:85-88 | an uncapped queue without joins is empty exactly when its ticks have used up the estimate at 60 for each tick, whatever the tick interval |
| Views.ConfigShows | internal/api/handler_admin.go:73-96 | in every reachable state the active users are the initial counter plus the INCRs minus the DECRs, the capacity is the one written last, or zero, and the rate is the one written last, or the default |
| Pace.PoppedOnExactTick | internal/scheduler/admission.go:96-105 | without a ceiling, at a fixed rate and with joins only behind it, the ticket of rank r is popped by exactly the (floor(r / rate) + 1)-th effective ZPOPMIN of its queue, in every run; each takes rate off its rank |
| Pace.DrainTime | internal/scheduler/admission.go:96-112 | without joins a queue of depth d loses rate members to each effective ZPOPMIN and is empty exactly after ceil(d / rate) of them, in every run |
| Pace.OneBatchPerTick | internal/scheduler/admission.go:101-105 | a tick pops at most one batch |
| Pace.TicksArePops | internal/scheduler/admission.go:76-105 | if ticks do not die before their ZPOPMIN and it takes effect, the effective ZPOPMINs of an event are exactly as many as its ticks past that point |
| Pace.PoppedOnTick | internal/scheduler/admission.go:76-105 | then the ticket of rank r is popped on tick floor(r / rate) + 1 |
| Pace.DrainedOnTick | internal/scheduler/admission.go:76-112 | and a queue of depth d without joins is empty exactly after ceil(d / rate) ticks |
| Witnesses.TwiceRedeemed | pkg/middleware/queue_guard.go:63-98 | from any new deployment with a positive default rate, a run in which two requests redeem one jti |
| Witnesses.OneMoreThanCapacity | internal/scheduler/admission.go:121-147 | a run that meets all of Occupancy's premises and ends with two sessions on a capacity of one, the bound exactly attained |
| Witnesses.CeilingBroken | internal/scheduler/admission.go:87-100 | a run in which one failed read of the capacity takes the counter to two on a capacity of one |
| Witnesses.LockOverrun | internal/scheduler/leader_lock.go:15-22 | from any positive default rate, a run in which a tick is overlapped and its DEL frees the other tick's lock |
| Witnesses.WaitsForEver | internal/api/handler_status.go:91-101 | a run that leaves a stream waiting, with nothing left to receive, for an admission published before it subscribed; no continuation ends it |
| Witnesses.NoSuchTicket | internal/api/handler_join.go:143-149 | a run in which the hash write fails, the ticket waits in the queue and its poll says 404 |
| Witnesses.OutlivesHash | internal/config/config.go:15-20 | a run with an issued, unexpired token that is not redeemable any more |
| Witnesses.ConstrainedWhileEmpty | internal/api/handler_status.go:49-54 | a run of a new, empty event that ends constrained with a negative counter |
| Service.ServedAloneIff | pkg/middleware/queue_guard.go:55-107 | a request served alone gets a session exactly if its token was issued, is redeemable and is not marked as used |
| SortedSet.Insert | internal/api/handler_join.go:136-139 | ZADD of a new member adds that member and keeps all others |
| SortedSet.InsertSplits | internal/api/handler_join.go:134-139 | it lands after everything with a smaller (score, id) and before the rest |
| SortedSet.InsertKeeps | internal/api/handler_join.go:136-139 | the set stays sorted, without repeated members, and contains exactly the newcomer and the old members |
| SortedSet.Rank | internal/store/redis.go:37-43 | the index of the member, and -1 exactly if it is not in the set |
| SortedSet.RankCountsSmaller | internal/store/redis.go:35-43 | the position shown is the number of members ordered before |
| SortedSet.PopShiftsRanks | internal/scheduler/admission.go:105 | a batch of n takes exactly the members of rank below n, and every survivor moves up by exactly n |
| SortedSet.InsertShiftsRank | internal/api/handler_join.go:136-139 | a join moves a waiting ticket back by one exactly if it is ordered ahead of it |
| Machine.NextQueue | internal/scheduler/admission.go:105 | a step of any process pops a batch off an event's queue, adds one ticket to it, or leaves it alone, and which of these |
| Conservation.ConservedNext | internal/scheduler/admission.go:104-158 | every step of every process keeps each ticket where exactly one queue, tick or final stage has it |
| Fifo.FifoNext | internal/scheduler/admission.go:105 | every step keeps the pop and join logs consistent with the queue and in order |
| Locks.LocksNext | internal/scheduler/leader_lock.go:15-22 | every step keeps each running tick the owner of its event's lock, unless it asks for the lock of a tick that outlived it |
| Locks.DelRemovesOwnLock | internal/scheduler/leader_lock.go:20-22 | a lock disappears only by the DEL of the tick that owns it |
| Locks.OverlappedIff | internal/scheduler/leader_lock.go:15-17 | asking for the lock of a running tick starts a second one exactly if the first has outlived its lock |
| Locks.OverrunDeletesForeignLock | internal/scheduler/leader_lock.go:20-22 | an overlapped tick's DEL removes the lock of the tick that overlapped it |
| Capacity.HeadroomExact | internal/scheduler/admission.go:92-96 | the int64 headroom is the true headroom whenever it is positive |
| Capacity.BatchPays | internal/scheduler/admission.go:84-101 | a tick pops nothing or at most min(rate, headroom) of what it read |
| Capacity.LoadNext | internal/scheduler/admission.go:84-153 | one step of any process raises active plus all INCRs to come at most to cap + r for each other running tick |
| Ceiling.CeilingStepIff | internal/scheduler/admission.go:85-100 | one step leaves the load within m exactly if it is not a read without an answer whose tick then asks for too much |
| Capacity.CrashFreesIssuedPlace | internal/scheduler/admission.go:121-147 | a crash between issue and INCR frees the token's place, and those of its batch, while the token stays valid |
| Accounting.CountsNext | internal/scheduler/admission.go:121-147 | every step keeps the counter equal to INCRs minus DECRs, and tokens equal to counted, pending and lost |
| Tickets.TokensNext | internal/scheduler/admission.go:121-125 | every step keeps at most one token for each ticket, for the event of its hash |
| Tickets.HashesNext | internal/api/handler_join.go:143-150 | every step keeps each ticket hash equal to what the writes so far amount to |
| Tickets.ChannelNext | internal/scheduler/admission.go:149-152 | every step keeps each admission announced once, with the ticket's token, after its INCR |
| Redemption.IssuedShape | internal/token/jwt.go:25-37 | every issued token names one ticket and the event of its join, and expires 30 minutes after its issue |
| Redemption.TimelyFindsMarker | pkg/middleware/queue_guard.go:93-98 | a timely SETNX of a redeemed jti finds its marker alive |
| Redemption.PromptFindsMarker | pkg/middleware/queue_guard.go:93-98 | so does a SETNX sent before the token expires: no marker runs out before its token |
| Redemption.SetNxRepeatsIff | pkg/middleware/queue_guard.go:93-98 | with no jti redeemed twice so far, a SETNX redeems one again exactly if it takes effect a full marker lifetime after that jti's redemption |
| Redemption.LateMeansPaused | pkg/middleware/queue_guard.go:56-98 | such a guard has paused since its last expiry check for more than the slack of the first redemption; with a check in the token's last instant the two are equivalent |
| Visits.NoAdmissionLost | internal/api/handler_status.go:91-101 | a stream that has shown a position has skipped no admission, for any channel log |
| Visits.PollStepOk | internal/api/handler_status.go:34-47 | a poll never contradicts an earlier answer, for any interleaving of its reads |
| Visits.RankNeverGrows | internal/store/redis.go:37-43 | no step raises the rank of a ticket unless a join is ordered ahead of it |
| Runs.AlwaysOk | internal/scheduler/admission.go:54-158 | all invariants hold in every state of every run |
| Runs.SettledStays | internal/scheduler/admission.go:104-158 | a ticket that was admitted or dropped stays so in every continuation |
| Tokens.NumericDate | internal/token/jwt.go:32-33 | a date claim is the instant cut to whole seconds |
| Tokens.TokenKindsNeverCross | internal/token/session.go:21-58 | an admission token verifies exactly until its expiry, never as a session, and a session never as an admission; a session verifies under its own key exactly until its expiry, which is 30 minutes after its issue, cut to the second |
| Keys.HexOrder | internal/api/handler_join.go:127 | ticket ids as fixed-width hexadecimal text sort and differ exactly as the numbers do |
| Keys.KeysDistinct | internal/store/keys.go:12-19 | the key constructors are injective and pairwise disjoint, for event ids with any characters |
| Keys.ChannelsCollideIff | internal/store/keys.go:12-19 | of all keys and channels exactly a queue's tick channel can have the name of a key, namely of the queue of an event whose id starts with tick: |
| Flat.ExecEffect | internal/store/keys.go:12-19 | every command changes the value under its own key, as a function of that value alone, and no other key |
| Flat.FlatSimulates | internal/store/keys.go:12-19 | a command on the string-keyed store does exactly what it does on the per-event maps |
| Flat.FlatRunRepresents | internal/store/keys.go:9-19 | over every run the string-keyed store holds exactly what the per-event maps hold |
| Flat.EventsAreIndependent | internal/store/keys.go:12-19 | a step on one event leaves queue, counter, rate, capacity and lock of every other event, and the hashes of its tickets, unchanged |
| Store.GetAllEventIDs | internal/store/keys.go:23-44 | names the event of every key of one whole SCAN iteration, in order and with repetitions, and fails exactly if a SCAN call does |
| Store.PassCoversQueues | internal/scheduler/admission.go:54-63 | under SCAN's promise an iteration names every event whose queue stays nonempty during it, and only events seen nonempty |
| Scheduler.Scheduler.TickAllEvents | internal/scheduler/admission.go:54-63 | one pass: a SCAN iteration and then the lock of every event found is asked for; under SCAN's promise no queue that stays nonempty is passed over and none is ticked that was never seen nonempty; a failed SCAN ticks nothing |
| Scheduler.Scheduler.TickEach | internal/scheduler/admission.go:60-62 | asks for the lock of every id, once each, in order |
| Scheduler.Scheduler.Tick | internal/scheduler/admission.go:65-102 | one SETNX, and if it is granted a complete run of a new tick of the machine, which does not die on the way, sends only commands of this event's tick, and takes a step without an answer exactly where a command of this call got none; if all its commands are answered, the lock is gone at the end, exactly the first min(rate, headroom) of the queue at its ZPOPMIN are admitted, by the rate, counter and capacity it read, and the tick message is out if there were any |
| Scheduler.Scheduler.TickLocked | internal/scheduler/admission.go:74-102 | the same from the first read to the deferred DEL |
| Scheduler.Scheduler.AcquireLock | internal/scheduler/leader_lock.go:15-17 | granted exactly if the key was free and the reply arrived, and then a new tick stands before its first read; a lost reply leaves the lock set |
| Scheduler.Scheduler.ReleaseLock | internal/scheduler/leader_lock.go:20-22 | the DEL, whoever holds the lock by now; answered, it leaves the event unlocked |
| Scheduler.Scheduler.DecideAndAdmit | internal/scheduler/admission.go:76-101 | if all commands are answered, the rate is the stored one or the default, and the tick acts on it, nothing at rate zero |
| Scheduler.Scheduler.AdmitAtRate | internal/scheduler/admission.go:84-101 | and so for the counter and the capacity, each as it was when it was read |
| Scheduler.Scheduler.AdmitWithin | internal/scheduler/admission.go:90-101 | no ceiling at capacity zero; otherwise at most the headroom is popped, and nothing without headroom |
| Batches.DueIsBatch | internal/scheduler/admission.go:90-101 | the batch size that the code computes in int64 is the true min(rate, headroom), for every int64 counter and capacity |
| Scheduler.Scheduler.GetRate | internal/scheduler/admission.go:76-82 | a failed read or a missing key gives the default; zero ends the tick |
| Scheduler.Scheduler.GetActive | internal/scheduler/admission.go:85-86 | a failed read or a missing key gives zero |
| Scheduler.Scheduler.GetCapacity | internal/scheduler/admission.go:87-100 | a failed read or a missing key gives zero, and the batch size follows from the three reads |
| Scheduler.Scheduler.AdmitBatch | internal/scheduler/admission.go:104-158 | every member popped is announced or, for want of a token, dropped; if all commands are answered the members are the first n of the queue at the ZPOPMIN, all are admitted, and then the tick message is published; an empty batch announces nothing |
| Scheduler.Scheduler.AdmitAll | internal/scheduler/admission.go:114-153 | the loop settles every member, in order, and admits all of them if every command is answered |
| Scheduler.Scheduler.PopMembers | internal/scheduler/admission.go:105-112 | the members returned are the ones the tick now holds, and if answered the first n of the queue at that instant |
| Scheduler.Scheduler.Admit | internal/scheduler/admission.go:114-153 | one member leaves the tick's hands, announced through issue, HSET, INCR and PUBLISH in this order, or dropped through a failed issue |
| Scheduler.Scheduler.IssueJwt | internal/scheduler/admission.go:121-125 | on success the tick holds the token just issued; on failure, which is counted, the member is skipped |
| Scheduler.Scheduler.StoreJwt | internal/scheduler/admission.go:127-128 | a failed HSET does not stop the admission |
| Scheduler.Scheduler.CountSession | internal/scheduler/admission.go:147 | the INCR, whose failure is ignored |
| Scheduler.Scheduler.PublishAdmitted | internal/scheduler/admission.go:149-152 | the admission of this member with this token, whose failure is ignored; the ticket now counts as admitted |
| Scheduler.Scheduler.NotifyQueue | internal/scheduler/admission.go:157 | the tick message of this event, the last one on the channel if it is answered |
| Handlers.Handler.JoinQueue | internal/api/handler_join.go:46-70 | resumes the cookie's ticket if it has a rank and a secret, exactly so when no command fails, and then writes nothing; otherwise sends the ZADD with a score read during the call, and HSET and EXPIRE exactly if it is answered, and then the ticket is bound to this event |
| Handlers.Handler.CreateTicket | internal/api/handler_join.go:126-153 | these three commands and no others; created exactly if the ZADD was answered |
| Handlers.Handler.WriteTicket | internal/api/handler_join.go:134-150 | score, ZADD, HSET and EXPIRE, the last two exactly if the ZADD was answered |
| Handlers.Handler.AddToQueue | internal/api/handler_join.go:134-141 | one ZADD; fails exactly if it gives no answer |
| Handlers.Handler.FillHash | internal/api/handler_join.go:144-149 | one HSET of the four join fields; a failure is ignored |
| Handlers.Handler.ExpireHash | internal/api/handler_join.go:150 | one EXPIRE; a failure is ignored, and what the join wrote stays on record |
| Handlers.Handler.QueueStatusPoll | internal/api/handler_status.go:20-62 | each request is answered as the machine's poller is, with no other effect; a position comes with the SSE switch for its rank, and with constrained for the capacity and the counter of its event's queue |
| Handlers.Handler.PollFlags | internal/api/handler_status.go:49-61 | both flags, from a capacity and a counter read at two instants |
| Handlers.Handler.PollBinding | internal/api/handler_status.go:24-28 | no event is found exactly where the machine answers 404 |
| Handlers.Handler.StatusAuthorized | internal/api/handler_status.go:146-159 | allowed exactly if the read is answered and the stored digest matches the secret this cookie gives for this ticket |
| Handlers.Handler.PollAuthorized | internal/api/handler_status.go:29-32 | allowed exactly where the machine's poller is |
| Handlers.Handler.PollToken | internal/api/handler_status.go:37-40 | the stored token, answered at once |
| Handlers.Handler.PollRank | internal/api/handler_status.go:42-47 | the rank, or pending |
| Handlers.Handler.QueueStatusSSE | internal/api/handler_status.go:67-144 | the stream is served until the admission or through every turn; if every command is answered it is refused exactly for an unknown ticket or a wrong secret, a ticket that still waits is first told its rank, and in any case an admission reached in the buffer is the last output; what is written is what the machine's stream writes |
| Handlers.Handler.OpenStream | internal/api/handler_status.go:71-75 | the event is read first, and, if that is answered, exactly an unknown ticket ends the request |
| Handlers.Handler.AuthorizeStream | internal/api/handler_status.go:76-79 | if the read is answered, exactly a wrong secret ends the request, before anything is written |
| Handlers.Handler.SubscribeStream | internal/api/handler_status.go:92-95 | the buffer starts at the channel log's present end |
| Handlers.Handler.SendRank | internal/api/handler_status.go:98-101 | if the read is answered, the position of a ticket that still waits is appended, and nothing otherwise |
| Handlers.Handler.ReceiveMessage | internal/api/handler_status.go:106-134 | a tick makes the stream read its rank, an admission is written and ends it, and nothing else is written |
| Handlers.Handler.FollowStream | internal/api/handler_status.go:91-144 | subscribes, reads and writes the rank, and then takes every turn of the select loop until the admission |
| Handlers.Handler.QueueExit | internal/api/handler_exit.go:14-24 | without an event nothing is sent; otherwise one DECR of this event and nothing else, whose failure is ignored |
| Handlers.Handler.UpdateRate | internal/api/handler_admin.go:37-63 | sends the rate's SET if it is positive, then the capacity's SET if that is, each to its own key, and nothing else; what the last one wrote is there on return |
| Handlers.Handler.WriteNumber | internal/api/handler_admin.go:50-55 | one SET and nothing else, whose failure is ignored; a value written is there on return |
| QueueGuard.Middleware.Handle | pkg/middleware/queue_guard.go:36-111 | a session passes exactly until its expiry, without a command; an admission passes exactly as the guard process of this request does, on a new session that rests on this request's own SETNX and is valid for the next 30 minutes; 401 is answered exactly for a missing, expired or foreign token, and if every command is answered a request is let in exactly if all four checks hold, each at its instant |
| QueueGuard.Middleware.CheckAdmission | pkg/middleware/queue_guard.go:55-107 | 401 exactly for an expired or foreign token; if every command is answered, admitted exactly if the token is good at both looks, bound to the ticket's event and unmarked; a session is granted on this guard's redemption, and anything else is a refused process |
| QueueGuard.Middleware.VerifyJwt | pkg/middleware/queue_guard.go:56-61 | goes on exactly if the token carries the admission key and is unexpired |
| QueueGuard.Middleware.Introspect | pkg/middleware/queue_guard.go:65-87 | if the call is answered, an event is returned exactly if the token is unexpired, names its ticket and has the event of the ticket's hash |
| QueueGuard.Middleware.CheckToken | internal/api/handler_validate.go:29-33 | the second expiry check, and the ticket named by the token; both decide if the call succeeds |
| QueueGuard.Middleware.CheckBinding | internal/api/handler_validate.go:35-39 | if the read is answered, an event is returned exactly if the ticket's hash has the token's event |
| QueueGuard.Middleware.CompareEvent | pkg/middleware/queue_guard.go:88-91 | the reply must name the token's event |
| QueueGuard.Middleware.Redeem | pkg/middleware/queue_guard.go:93-98 | if it is answered, goes on exactly if no marker of the jti is in force |
| QueueGuard.Middleware.GrantSession | pkg/middleware/queue_guard.go:100-107 | the session granted is for the token's ticket and event, on this guard's redemption, and is valid from now on for 30 minutes |

## Left out

- DynamoDB and SQS writes: their outcomes are only logged.
- HTTP routing, CORS, cookie attributes, HTML pages, S3 lookups and presigned URLs, logging, configuration from the environment: plumbing.
- Token encoding, HMAC and SHA-256: tokens are claims tagged with the signing key.
- The internal API token of `ValidateAdmission`, request bodies that do not parse, and the rewriting of the target URL.
- Heartbeats: they are written between the messages and change nothing; disconnects are a step of the machine.
- Overflow of a subscription's buffer, and automatic retries of the Redis client, which can repeat an INCR or a ZPOPMIN.
- Clocks that differ between services.
- The TTL sweep of `active` and the read-once delivery of tokens: described in `DESIGN.md`, not in the code.
- Guarantees.Occupancy: the bound has the tokens whose INCR was lost as a term, because the code hands out a token before it counts it; with no such token and an empty counter at the start the bound is the capacity.
- Handlers.Handler.QueueStatusPoll: the two reads behind constrained are commands of the code only; the machine's poller, whose answer is the position, has no steps for them.
- Handlers.Handler.QueueStatusSSE: `turns` bounds how long the select loop is followed before the client disconnects; every number of turns is covered.
- Handlers.Handler.ReadConfig: its four reads are taken at one instant and succeed, because the reply is only a display.
- Handlers.Handler.UpdateRate: after the second write the contract speaks of the rate's SET in the run and in the log, not of the value it left, which another request may have overwritten.
- Store.GetAllEventIDs: a SCAN iteration is taken to end, after a number of pages of the server's choice, and to return only keys that match its pattern.
- Pace.PoppedOnExactTick: counts the ZPOPMINs that take effect; a tick whose ZPOPMIN fails, or that crashes before it, takes no part.
- QueueGuard.Middleware.Introspect: the request to the queue API and its reply are one call that may fail as a whole.
