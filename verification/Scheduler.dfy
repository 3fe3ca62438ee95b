/** internal/scheduler/admission.go as code, verified under interference: every command is a step of the machine. */
module Scheduler {
  import opened Config
  import opened Tokens
  import opened SortedSet
  import opened Redis
  import opened Machine
  import opened Batches
  import opened Site
  import opened Runs
  import opened World
  import opened Store

  class Scheduler {
    const world: World

    constructor (world: World)
      ensures this.world == world
    {
      this.world := world;
    }

    /** Tick i of the machine is this call, standing at pc. */
    ghost predicate StandsAt(i: nat, e: EventId, pc: TickPc)
      reads world
    {
      && world.Valid() && i < |world.site.core.ticks|
      && world.site.core.ticks[i].event == e && world.site.core.ticks[i].pc == pc
    }

    /** Nothing is undone: the world's run so far is kept, and so is the number of failures. */
    twostate predicate Extends()
      reads world
    {
      && world.start == old(world.start) && old(world.trace) <= world.trace
      && world.calls.failures >= old(world.calls).failures
    }

    /** Every command of this call was answered. */
    twostate predicate AllAnswered()
      reads world
    {
      world.calls.failures == old(world.calls).failures
    }

    /** And no lock is asked for, and no SCAN sent. */
    twostate predicate Continues()
      reads world
    {
      Extends() && world.calls.attempts == old(world.calls).attempts && world.calls.pages == old(world.calls).pages
    }

    /** A command that a tick of e may send once it has the lock. */
    predicate OfTick(c: Command, e: EventId) {
      match c
      case TakeMembers(x, _) => x == e
      case WriteToken(_, _) => true
      case AddCount(x, d) => x == e && d == 1
      case DropLock(x) => x == e
      case _ => false
    }

    /**
     Nothing but commands of e's tick has been sent since, and those that gave no answer are the steps of tick i that
     the machine took without an answer.
     */
    twostate predicate Drives(e: EventId, i: nat)
      reads world
    {
      && Continues() && old(world.calls).sent <= world.calls.sent
      && world.calls.failures - old(world.calls).failures ==
         Unanswered(world.trace, i) - Unanswered(old(world.trace), i)
      && forall k :: |old(world.calls).sent| <= k < |world.calls.sent| ==> OfTick(world.calls.sent[k].command, e)
    }

    /** The lock of e is asked for once. */
    twostate predicate Asks(e: EventId, granted: bool)
      reads world
    {
      && world.calls.attempts == old(world.calls).attempts + [Attempt(e, granted)]
      && world.calls.pages == old(world.calls).pages
    }

    /**
     One pass of the scheduler: a SCAN, and a tick for each event it names. A SCAN that fails ticks nothing; otherwise
     no event whose queue stays nonempty during the SCAN is passed over.
     */
    method TickAllEvents() returns (ghost asked: seq<Page>)
      requires world.Valid()
      modifies world
      ensures world.Valid() && Extends()
      ensures old(world.calls).pages + asked == world.calls.pages && old(world.calls).attempts <= world.calls.attempts
      ensures asked != [] && Within(asked, |old(world.trace)|, |world.trace|)
      ensures Iteration(asked) || Broken(asked)
      ensures Broken(asked) ==> world.calls.attempts == old(world.calls).attempts
      ensures var made := world.calls.attempts[|old(world.calls).attempts|..];
              Iteration(asked) ==> PassCovers(world.start, world.trace, asked, made)
    {
      var ids := GetAllEventIDs(world);
      asked := Asked(old(world.calls), world.calls);
      if ids.None? {
        return;
      }
      TickEach(ids.value);
      ghost var made := world.calls.attempts[|old(world.calls).attempts|..];
      PassCoversQueues(world.start, world.trace, asked, ids.value, made);
    }

    method TickEach(ids: seq<EventId>)
      requires world.Valid()
      modifies world
      ensures world.Valid() && Extends() && world.calls.pages == old(world.calls).pages
      ensures old(world.calls).attempts <= world.calls.attempts
      ensures AttemptsOf(world.calls.attempts[|old(world.calls).attempts|..], ids)
    {
      for k := 0 to |ids|
        invariant world.Valid() && Extends() && world.calls.pages == old(world.calls).pages
        invariant old(world.calls).attempts <= world.calls.attempts
        invariant AttemptsOf(world.calls.attempts[|old(world.calls).attempts|..], ids[..k])
      {
        var _, _, _, _ := Tick(ids[k]);
      }
    }

    /** One SETNX of e's lock, and with the lock, only commands of e's tick. */
    twostate predicate SendsTick(e: EventId, acquired: bool)
      reads world
    {
      var n := |old(world.calls).sent|;
      && old(world.calls).sent <= world.calls.sent
      && |world.calls.sent| > n && world.calls.sent[n].command == TakeLock(e)
      && (!acquired ==> |world.calls.sent| == n + 1)
      && forall k :: n < k < |world.calls.sent| ==> OfTick(world.calls.sent[k].command, e)
    }

    /**
     A tick is a run of a new tick process of the machine, from its SETNX to its DEL, whatever else runs in between; a
     call that does not acquire the lock ticks nothing. The tick does not die on the way, and if all its commands are
     answered its lock is gone at the end and exactly the tickets due by what it read are admitted.
     */
    method Tick(e: EventId) returns (acquired: bool, ghost i: nat, ghost r: Report, ghost n: nat)
      requires world.Valid()
      modifies world
      ensures world.Valid() && Extends() && Asks(e, acquired) && SendsTick(e, acquired)
      ensures acquired ==> |old(world.site.core.ticks)| <= i && StandsAt(i, e, Done)
      ensures acquired && AllAnswered() ==> e !in world.locks
      ensures acquired && AllAnswered() ==> ActedOn(world.start, world.trace, r, e, |old(world.trace)|)
      ensures acquired ==> |old(world.trace)| <= n < |world.trace| && world.trace[n] == Queue(StartTick(e))
      ensures acquired ==> Lived(world.trace, n, i)
      ensures acquired ==> world.calls.failures - old(world.calls).failures ==
                           Unanswered(world.trace, i) - Unanswered(world.trace[..n + 1], i)
    {
      ghost var o;
      acquired, i, n, o := AwaitLock(e);
      r := Report(0, 0, 0, [], [], 0, 0, 0, 0);
      if acquired {
        ghost var started := world.trace;
        r := TickLocked(e, i, n);
        assert world.trace[n] == started[n] && world.trace[..n + 1] == started;
      }
    }

    /** The SETNX, whenever it is sent. */
    method AwaitLock(e: EventId) returns (acquired: bool, ghost i: nat, ghost n: nat, ghost o: Outcome)
      requires world.Valid()
      modifies world
      ensures world.Valid() && Extends() && Asks(e, acquired) && |old(world.site.core.ticks)| <= i
      ensures world.calls.sent == old(world.calls).sent + [Sent(TakeLock(e), o)]
      ensures acquired ==>
                && StandsAt(i, e, ReadRate) && world.site.core.ticks[i].todo == [] && AllAnswered()
                && |old(world.trace)| <= n && |world.trace| == n + 1 && world.trace[n] == Queue(StartTick(e))
    {
      AwaitTurn();
      n := |world.trace|;
      acquired, i, o := AcquireLock(e);
    }

    /** With the lock, up to the deferred DEL. */
    method TickLocked(e: EventId, ghost i: nat, ghost since: nat) returns (ghost r: Report)
      requires StandsAt(i, e, ReadRate) && world.site.core.ticks[i].todo == []
      requires since < |world.trace| && Lived(world.trace, since, i)
      modifies world
      ensures StandsAt(i, e, Done) && Drives(e, i) && Lived(world.trace, since, i)
      ensures AllAnswered() ==> e !in world.locks && ActedOn(world.start, world.trace, r, e, |old(world.trace)|)
    {
      r := DecideAndAdmit(e, i);
      ghost var admitted := world.trace;
      RunningHasLived(world.start, old(world.trace), admitted, i);
      LivedOn(old(world.trace), admitted, since, i);
      ReleaseLock(e, i);
      LivedOn(admitted, world.trace, since, i);
      ActedStays(world.start, admitted, world.trace, r, e, |old(world.trace)|);
    }

    /** Whatever happens before the SETNX, ticks are not forgotten. */
    method AwaitTurn()
      requires world.Valid()
      modifies world
      ensures world.Valid() && Continues() && AllAnswered() && world.calls.sent == old(world.calls).sent
      ensures |old(world.site.core.ticks)| <= |world.site.core.ticks|
    {
      world.Yield(Nobody);
      RunGrows(world.start, old(world.trace), world.trace);
    }

    /**
     SETNX: the lock is acquired exactly if it is free and the reply arrives, and then a new tick stands before its
     first read. A reply lost after the SETNX took effect leaves the lock to expire, as a crash would.
     */
    method AcquireLock(e: EventId) returns (acquired: bool, ghost i: nat, ghost o: Outcome)
      requires world.Valid()
      modifies world
      ensures world.Valid() && Extends() && Asks(e, acquired)
      ensures acquired <==> o == Ok && !Locked(old(world.Snapshot()), e)
      ensures o == Ok ==> AllAnswered()
      ensures i == |old(world.site.core.ticks)|
      ensures acquired ==> StandsAt(i, e, ReadRate) && world.site.core.ticks[i].todo == []
      ensures acquired ==> world.trace == old(world.trace) + [Queue(StartTick(e))]
      ensures world.calls.sent == old(world.calls).sent + [Sent(TakeLock(e), o)]
      ensures world.Snapshot() ==
              if o == Failed then old(world.Snapshot()) else Redis.SetNxLock(old(world.Snapshot()), e)
    {
      i := |world.site.core.ticks|;
      var reply, free := world.SetNxLock(e);
      o := reply;
      if reply != Failed {
        world.RecordStart(e);
      }
      if reply == Lost {
        world.RecordCrash(i);
      }
      acquired := reply == Ok && free;
    }

    /** Others run, and the tick still stands where it was. */
    method Resume(e: EventId, ghost pc: TickPc, ghost i: nat)
      requires StandsAt(i, e, pc) && pc != Done
      modifies world
      ensures StandsAt(i, e, pc) && world.site.core.ticks[i] == old(world.site.core.ticks[i])
      ensures Drives(e, i) && AllAnswered() && world.calls.reply == Ok && Lived(world.trace, |old(world.trace)|, i)
    {
      world.Yield(TheTick(i));
      RunningHasLived(world.start, old(world.trace), world.trace, i);
    }

    /** DEL, whoever holds the lock by now. */
    method ReleaseLock(e: EventId, ghost i: nat)
      requires StandsAt(i, e, Release)
      modifies world
      ensures StandsAt(i, e, Done) && Drives(e, i) && (AllAnswered() ==> e !in world.locks)
      ensures Lived(world.trace, |old(world.trace)|, i)
    {
      Resume(e, Release, i);
      ghost var resumed := world.trace;
      ghost var o := SendDel(e, i);
      LivedOn(resumed, world.trace, |old(world.trace)|, i);
    }

    method SendDel(e: EventId, ghost i: nat) returns (ghost o: Outcome)
      requires StandsAt(i, e, Release)
      modifies world
      ensures StandsAt(i, e, Done) && Drives(e, i) && (AllAnswered() ==> e !in world.locks)
      ensures world.trace == old(world.trace) + [Queue(TickStep(i, o))]
    {
      ghost var c := world.site.core;
      assert TickDb(c.db, c.ticks[i]) == Redis.DelLock(world.Snapshot(), e);
      var reply := world.DelLock(e);
      o := reply;
      assert OfTick(DropLock(e), e) && (o == Ok ==> e !in world.locks);
      world.RecordTick(i, o);
    }

    /** The three reads, the headroom, and the batch. */
    method DecideAndAdmit(e: EventId, ghost i: nat) returns (ghost r: Report)
      requires StandsAt(i, e, ReadRate) && world.site.core.ticks[i].todo == []
      modifies world
      ensures StandsAt(i, e, Release) && Drives(e, i)
      ensures AllAnswered() ==> ActedOn(world.start, world.trace, r, e, |old(world.trace)|)
    {
      var rate := GetRate(e, i);
      ghost var rated, at := world.trace, |world.trace|;
      CoreNow(world.start, rated);
      if rate == 0 {
        ghost var db := world.Snapshot();
        r := Report(0, Number(db.active, e), Number(db.capacity, e), ListAt(db.queues, e), [], at, at, at, at);
        return;
      }
      r := AdmitAtRate(e, rate, i);
      CoreStays(world.start, rated, world.trace, at);
      r := r.(rate := rate, rateAt := at);
    }

    /** The other two reads, and the batch. */
    method AdmitAtRate(e: EventId, rate: int, ghost i: nat) returns (ghost r: Report)
      requires StandsAt(i, e, ReadActive(rate)) && world.site.core.ticks[i].todo == []
      modifies world
      ensures StandsAt(i, e, Release) && Drives(e, i)
      ensures AllAnswered() ==> ActedAtRate(world.start, world.trace, r, e, rate, |old(world.trace)|)
    {
      var active := GetActive(e, i, rate);
      ghost var counted := world.trace;
      CoreNow(world.start, counted);
      NumbersAt(world.start, counted, e, |counted|);
      var capacity := GetCapacity(e, i, rate, active);
      ghost var capped := world.trace;
      CoreNow(world.start, capped);
      NumbersAt(world.start, capped, e, |capped|);
      ghost var queue, members, poppedAt;
      queue, members, poppedAt := AdmitWithin(e, rate, active, capacity, i);
      CoreStays(world.start, counted, world.trace, |counted|);
      CoreStays(world.start, capped, world.trace, |capped|);
      r := Report(rate, active, capacity, queue, members, |counted|, |counted|, |capped|, poppedAt);
    }

    /** Nothing without headroom, and otherwise a batch of at most the headroom. */
    method AdmitWithin(e: EventId, rate: int, active: int, capacity: int, ghost i: nat)
      returns (ghost queue: seq<Entry>, ghost members: seq<Entry>, ghost at: nat)
      requires StandsAt(i, e, BatchPc(rate, active, capacity)) && world.site.core.ticks[i].todo == []
      modifies world
      ensures StandsAt(i, e, Release) && Drives(e, i) && |old(world.trace)| <= at <= |world.trace|
      ensures AllAnswered() && capacity <= INT64_MAX && Int64(active) ==>
                TookFirst(world.start, world.trace, queue, members, e, Due(rate, active, capacity, |queue|), at)
    {
      var n := rate;
      if capacity > 0 {
        var headroom := Wrap64(capacity - active);
        if headroom <= 0 {
          queue, members, at := ListAt(world.queues, e), [], |world.trace|;
          CoreNow(world.start, world.trace);
          if capacity <= INT64_MAX && Int64(active) {
            DueIsBatch(rate, active, capacity, |queue|);
          }
          return;
        }
        n := Min(rate, headroom);
      }
      queue, members, at := AdmitBatch(e, n, i);
      if capacity <= INT64_MAX && Int64(active) {
        DueIsBatch(rate, active, capacity, |queue|);
      }
    }

    /** The number read from a map, unless the read gave no answer or there is no key. */
    twostate predicate IsRead(n: int, m: map<EventId, int>, e: EventId, default: int)
      reads world
    {
      n == if world.calls.failures == old(world.calls).failures && e in m then m[e] else default
    }

    method GetRate(e: EventId, ghost i: nat) returns (rate: int)
      requires StandsAt(i, e, ReadRate) && world.site.core.ticks[i].todo == []
      modifies world
      ensures StandsAt(i, e, if rate == 0 then Release else ReadActive(rate)) && Drives(e, i)
      ensures world.site.core.ticks[i].todo == [] && IsRead(rate, world.rate, e, world.defaultRate)
    {
      Resume(e, ReadRate, i);
      var o, stored := world.GetNumber(world.rate, e);
      world.RecordTick(i, o);
      rate := if stored.Some? then stored.value else world.defaultRate;
    }

    method GetActive(e: EventId, ghost i: nat, ghost rate: int) returns (active: int)
      requires StandsAt(i, e, ReadActive(rate)) && world.site.core.ticks[i].todo == []
      modifies world
      ensures StandsAt(i, e, ReadCapacity(rate, active)) && Drives(e, i)
      ensures world.site.core.ticks[i].todo == [] && IsRead(active, world.active, e, 0)
    {
      Resume(e, ReadActive(rate), i);
      var o, stored := world.GetNumber(world.active, e);
      world.RecordTick(i, o);
      active := if stored.Some? then stored.value else 0;
    }

    method GetCapacity(e: EventId, ghost i: nat, ghost rate: int, ghost active: int) returns (capacity: int)
      requires StandsAt(i, e, ReadCapacity(rate, active)) && world.site.core.ticks[i].todo == []
      modifies world
      ensures StandsAt(i, e, BatchPc(rate, active, capacity)) && Drives(e, i)
      ensures world.site.core.ticks[i].todo == [] && IsRead(capacity, world.capacity, e, 0)
    {
      Resume(e, ReadCapacity(rate, active), i);
      var o, stored := world.GetNumber(world.capacity, e);
      world.RecordTick(i, o);
      capacity := if stored.Some? then stored.value else 0;
    }

    /** Pops up to n members, admits each, and announces the batch. */
    method AdmitBatch(e: EventId, n: int, ghost i: nat)
      returns (ghost queue: seq<Entry>, ghost taken: seq<Entry>, ghost at: nat)
      requires StandsAt(i, e, Pop(n)) && world.site.core.ticks[i].todo == []
      modifies world
      ensures StandsAt(i, e, Release) && Drives(e, i) && |old(world.trace)| <= at <= |world.trace|
      ensures AllSettled(world.start, world.trace, e, taken)
      ensures AllAnswered() ==> TookFirst(world.start, world.trace, queue, taken, e, Batched(n, |queue|), at)
    {
      var members;
      members, queue, at := PopMembers(e, n, i);
      taken := members;
      if |members| == 0 {
        return;
      }
      ghost var popped := world.trace;
      AdmitAndTell(e, members, at, i);
      CoreStays(world.start, popped, world.trace, at);
    }

    /** All members, and then the tick message. */
    method AdmitAndTell(e: EventId, members: seq<Entry>, ghost at: nat, ghost i: nat)
      requires StandsAt(i, e, Issue) && world.site.core.ticks[i].todo == members != [] && at <= |world.trace|
      modifies world
      ensures StandsAt(i, e, Release) && Drives(e, i) && AllSettled(world.start, world.trace, e, members)
      ensures AllAnswered() ==> AllAdmitted(world.start, world.trace, e, members)
      ensures AllAnswered() ==> Notified(world.start, world.trace, e, at)
    {
      AdmitAll(e, members, i);
      ghost var admitted := world.trace;
      Tell(e, at, i);
      AllStay(world.start, admitted, world.trace, e, members);
    }

    /** The tick message. */
    method Tell(e: EventId, ghost at: nat, ghost i: nat)
      requires StandsAt(i, e, Notify) && at <= |world.trace|
      modifies world
      ensures StandsAt(i, e, Release) && Drives(e, i)
      ensures AllAnswered() ==> Notified(world.start, world.trace, e, at)
    {
      ghost var told := NotifyQueue(e, i);
      if told {
        NotifiedNow(world.start, old(world.trace), world.trace, e, at);
      }
    }

    /** The loop over the members. */
    method AdmitAll(e: EventId, members: seq<Entry>, ghost i: nat)
      requires StandsAt(i, e, Issue) && world.site.core.ticks[i].todo == members != []
      modifies world
      ensures StandsAt(i, e, Notify) && Drives(e, i) && AllSettled(world.start, world.trace, e, members)
      ensures AllAnswered() ==> AllAdmitted(world.start, world.trace, e, members)
    {
      for k := 0 to |members|
        invariant StandsAt(i, e, if k < |members| then Issue else Notify)
        invariant world.site.core.ticks[i].todo == members[k..]
        invariant Drives(e, i) && AllSettled(world.start, world.trace, e, members[..k])
        invariant AllAnswered() ==> AllAdmitted(world.start, world.trace, e, members[..k])
      {
        ghost var before := world.trace;
        Admit(e, members[k], i);
        AllStay(world.start, before, world.trace, e, members[..k]);
        AllAppend(world.start, world.trace, e, members, k);
      }
      assert members[..|members|] == members;
    }

    method PopMembers(e: EventId, n: int, ghost i: nat)
      returns (members: seq<Entry>, ghost queue: seq<Entry>, ghost at: nat)
      requires StandsAt(i, e, Pop(n)) && world.site.core.ticks[i].todo == []
      modifies world
      ensures StandsAt(i, e, if members == [] then Release else Issue) && Drives(e, i)
      ensures world.site.core.ticks[i].todo == members
      ensures |old(world.trace)| <= at <= |world.trace|
      ensures queue == ListAt(CoreAt(world.start, world.trace, at).db.queues, e)
      ensures AllAnswered() ==> members == queue[..Batched(n, |queue|)]
    {
      Resume(e, Pop(n), i);
      ghost var resumed := world.trace;
      queue, at := ListAt(world.queues, e), |resumed|;
      CoreNow(world.start, resumed);
      members := SendPop(e, n, i);
      CoreStays(world.start, resumed, world.trace, at);
    }

    method SendPop(e: EventId, n: int, ghost i: nat) returns (members: seq<Entry>)
      requires StandsAt(i, e, Pop(n)) && world.site.core.ticks[i].todo == []
      modifies world
      ensures StandsAt(i, e, if members == [] then Release else Issue) && Drives(e, i)
      ensures world.site.core.ticks[i].todo == members
      ensures var queue := ListAt(old(world.queues), e);
              AllAnswered() ==> members == queue[..Batched(n, |queue|)]
    {
      ghost var c := world.site.core;
      assert TickDb(c.db, c.ticks[i]) == Redis.ZPopMin(world.Snapshot(), e, n);
      var o;
      o, members := world.ZPopMin(e, n);
      assert members == if o == Ok then Batch(c.db, c.ticks[i]) else [];
      world.RecordTick(i, o);
    }

    /** The loop body of admitBatch: issue, HSET, INCR and PUBLISH, in this order. */
    method Admit(e: EventId, z: Entry, ghost i: nat)
      requires StandsAt(i, e, Issue) && world.site.core.ticks[i].todo != [] && world.site.core.ticks[i].todo[0] == z
      modifies world
      ensures var rest := old(world.site.core.ticks[i].todo)[1..];
              StandsAt(i, e, if rest == [] then Notify else Issue) && world.site.core.ticks[i].todo == rest
      ensures Drives(e, i) && IsSettled(world.start, world.trace, e, z.id)
      ensures AllAnswered() ==> IsAdmitted(world.start, world.trace, e, z.id)
    {
      ghost var todo := world.site.core.ticks[i].todo;
      var jwt := IssueJwt(e, z, todo, i);
      if jwt.None? {
        return;
      }
      Deliver(e, z, jwt.value, todo, i);
    }

    method Deliver(e: EventId, z: Entry, jwt: Token, ghost todo: seq<Entry>, ghost i: nat)
      requires StandsAt(i, e, Store(jwt)) && todo != [] && todo[0] == z && world.site.core.ticks[i].todo == todo
      modifies world
      ensures StandsAt(i, e, if |todo| == 1 then Notify else Issue) && world.site.core.ticks[i].todo == todo[1..]
              && Drives(e, i) && IsSettled(world.start, world.trace, e, z.id)
              && IsAdmitted(world.start, world.trace, e, z.id)
    {
      StoreJwt(e, z, jwt, todo, i);
      CountSession(e, jwt, todo, i);
      PublishAdmitted(e, z, jwt, todo, i);
    }

    /** A token, or the end of this member. */
    method IssueJwt(e: EventId, z: Entry, ghost todo: seq<Entry>, ghost i: nat) returns (jwt: Option<Token>)
      requires StandsAt(i, e, Issue) && todo != [] && todo[0] == z && world.site.core.ticks[i].todo == todo
      modifies world
      ensures Drives(e, i)
      ensures jwt.Some? ==> StandsAt(i, e, Store(jwt.value)) && world.site.core.ticks[i].todo == todo
      ensures jwt.None? ==>
              && StandsAt(i, e, if |todo| == 1 then Notify else Issue) && world.site.core.ticks[i].todo == todo[1..]
              && IsSettled(world.start, world.trace, e, z.id) && !AllAnswered()
    {
      Resume(e, Issue, i);
      ghost var trace := world.trace;
      ghost var o;
      jwt, o := CallIssuer(e, z, todo, i);
      if jwt.None? {
        HeadSettlesThen(world.start, trace, i, o);
      }
    }

    method CallIssuer(e: EventId, z: Entry, ghost todo: seq<Entry>, ghost i: nat)
      returns (jwt: Option<Token>, ghost o: Outcome)
      requires StandsAt(i, e, Issue) && todo != [] && todo[0] == z && world.site.core.ticks[i].todo == todo
      modifies world
      ensures Drives(e, i) && world.trace == old(world.trace) + [Queue(TickStep(i, o))] && (jwt.Some? <==> o == Ok)
      ensures jwt.Some? ==> StandsAt(i, e, Store(jwt.value)) && world.site.core.ticks[i].todo == todo
      ensures jwt.None? ==>
              && StandsAt(i, e, if |todo| == 1 then Notify else Issue) && world.site.core.ticks[i].todo == todo[1..]
              && !AllAnswered()
    {
      ghost var c := world.site.core;
      ghost var t := c.ticks[i];
      assert NewToken(c.db, c.hist, t) == IssueAdmission(z.id, e, world.nextJti, world.now);
      var reply, token := world.IssueToken(z.id, e);
      o := reply;
      assert TickAfter(c.db, c.hist, c.defaultRate, t, o) == if o == Ok then t.(pc := Store(token)) else NextMember(t);
      world.RecordTick(i, o);
      jwt := if reply == Ok then Some(token) else None;
    }

    method StoreJwt(e: EventId, z: Entry, jwt: Token, ghost todo: seq<Entry>, ghost i: nat)
      requires StandsAt(i, e, Store(jwt)) && todo != [] && todo[0] == z && world.site.core.ticks[i].todo == todo
      modifies world
      ensures StandsAt(i, e, Count(jwt)) && world.site.core.ticks[i].todo == todo && Drives(e, i)
    {
      Resume(e, Store(jwt), i);
      ghost var c := world.site.core;
      assert TickDb(c.db, c.ticks[i]) == Redis.HSetToken(world.Snapshot(), z.id, jwt);
      var o := world.HSetToken(z.id, jwt);
      world.RecordTick(i, o);
    }

    method CountSession(e: EventId, ghost jwt: Token, ghost todo: seq<Entry>, ghost i: nat)
      requires StandsAt(i, e, Count(jwt)) && world.site.core.ticks[i].todo == todo
      modifies world
      ensures StandsAt(i, e, Announce(jwt)) && world.site.core.ticks[i].todo == todo && Drives(e, i)
    {
      Resume(e, Count(jwt), i);
      SendIncr(e, jwt, todo, i);
    }

    method SendIncr(e: EventId, ghost jwt: Token, ghost todo: seq<Entry>, ghost i: nat)
      requires StandsAt(i, e, Count(jwt)) && world.site.core.ticks[i].todo == todo
      modifies world
      ensures StandsAt(i, e, Announce(jwt)) && world.site.core.ticks[i].todo == todo && Drives(e, i)
    {
      ghost var c := world.site.core;
      assert TickDb(c.db, c.ticks[i]) == Redis.AddActive(world.Snapshot(), e, 1);
      var o := world.AddActive(e, 1);
      world.RecordTick(i, o);
    }

    method PublishAdmitted(e: EventId, z: Entry, jwt: Token, ghost todo: seq<Entry>, ghost i: nat)
      requires StandsAt(i, e, Announce(jwt)) && todo != [] && todo[0] == z && world.site.core.ticks[i].todo == todo
      modifies world
      ensures StandsAt(i, e, if |todo| == 1 then Notify else Issue) && world.site.core.ticks[i].todo == todo[1..]
              && Drives(e, i) && IsAdmitted(world.start, world.trace, e, z.id)
    {
      Resume(e, Announce(jwt), i);
      ghost var trace := world.trace;
      var o := world.Publish(AdmittedMsg(z.id, jwt));
      world.RecordTick(i, o);
      HeadSettlesThen(world.start, trace, i, o);
    }

    method NotifyQueue(e: EventId, ghost i: nat) returns (ghost told: bool)
      requires StandsAt(i, e, Notify)
      modifies world
      ensures StandsAt(i, e, Release) && Drives(e, i) && (AllAnswered() ==> told)
      ensures told ==> |world.published| > |old(world.published)|
                       && world.published[|world.published| - 1] == TickMsg(e)
    {
      Resume(e, Notify, i);
      RunGrows(world.start, old(world.trace), world.trace);
      told := SendTick(e, i);
    }

    method SendTick(e: EventId, ghost i: nat) returns (ghost told: bool)
      requires StandsAt(i, e, Notify)
      modifies world
      ensures StandsAt(i, e, Release) && Drives(e, i) && (AllAnswered() ==> told)
      ensures told ==> world.published == old(world.published) + [TickMsg(e)]
    {
      var o := world.Publish(TickMsg(e));
      world.RecordTick(i, o);
      told := o == Ok;
    }
  }
}
