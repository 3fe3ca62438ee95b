/** The scheduler's lock: SETNX with a TTL, and a DEL that does not look at who set it. */
module Locks {
  import opened Config
  import opened Tokens
  import opened Redis
  import opened Machine

  /** Nobody asks for an event's lock while a tick of the event that has outlived its lock is still running. */
  ghost predicate Punctual(c: Core, a: Action) {
    a.StartTick? ==> forall i :: 0 <= i < |c.ticks| && InFlight(c.ticks[i], a.event) ==> InTime(c, c.ticks[i])
  }

  predicate InTime(c: Core, t: Tick) {
    c.db.now < t.acquiredAt + SCHEDULER_LOCK_TTL
  }

  /** No two running ticks have the same event. */
  ghost predicate Exclusive(c: Core) {
    forall i, j :: 0 <= i < j < |c.ticks| && c.ticks[i].pc != Done && c.ticks[j].pc != Done ==>
      c.ticks[i].event != c.ticks[j].event
  }

  /** The lock of the tick's event is the one it set. */
  ghost predicate Owns(c: Core, i: nat)
    requires i < |c.ticks|
  {
    var t := c.ticks[i];
    && t.event in c.db.locks && c.db.locks[t.event] == t.acquiredAt + SCHEDULER_LOCK_TTL
    && t.event in c.hist.holder && c.hist.holder[t.event] == i
  }

  ghost predicate LocksOk(c: Core) {
    forall i :: 0 <= i < |c.ticks| && c.ticks[i].pc != Done ==> Owns(c, i)
  }

  lemma LocksInit(c: Core)
    requires Init(c)
    ensures LocksOk(c)
  {
  }

  lemma LocksNext(c: Core, a: Action)
    requires LocksOk(c) && Punctual(c, a)
    ensures LocksOk(Next(c, a))
  {
    match a
    case StartTick(e) => LocksStart(c, e);
    case TickStep(i, o) => if i < |c.ticks| { LocksTick(c, i, o); }
    case CrashTick(i) => if i < |c.ticks| { LocksCrash(c, i); }
    case JoinStep(i, o) => if i < |c.joins| { LocksSame(c, StepJoin(c, i, o)); }
    case _ => LocksSame(c, Quiet(c, a));
  }

  lemma LocksStart(c: Core, e: EventId)
    requires LocksOk(c) && Punctual(c, StartTick(e))
    ensures LocksOk(Acquire(c, e))
  {
    var d := Acquire(c, e);
    forall i | 0 <= i < |d.ticks| && d.ticks[i].pc != Done ensures Owns(d, i) {
      if i < |c.ticks| {
        assert Owns(c, i);
      }
    }
  }

  lemma LocksCrash(c: Core, i: nat)
    requires LocksOk(c) && i < |c.ticks|
    ensures LocksOk(Crash(c, i))
  {
    forall j | 0 <= j < |c.ticks| && j != i && c.ticks[j].pc != Done ensures Owns(Crash(c, i), j) {
      assert Owns(c, j);
    }
  }

  lemma LocksSame(c: Core, d: Core)
    requires LocksOk(c) && d.ticks == c.ticks && d.db.locks == c.db.locks && d.hist.holder == c.hist.holder
    ensures LocksOk(d)
  {
    forall j | 0 <= j < |d.ticks| && d.ticks[j].pc != Done ensures Owns(d, j) {
      assert Owns(c, j);
    }
  }

  lemma LocksTick(c: Core, i: nat, o: Outcome)
    requires LocksOk(c) && i < |c.ticks|
    ensures LocksOk(StepTick(c, i, o))
  {
    var d := StepTick(c, i, o);
    forall j | 0 <= j < |d.ticks| && d.ticks[j].pc != Done ensures Owns(d, j) {
      assert Owns(c, j);
      assert c.ticks[i].pc != Done ==> Owns(c, i);
    }
  }

  /** At most one scheduler is between acquire and release of an event. */
  lemma AtMostOneTick(c: Core, i: nat, j: nat)
    requires LocksOk(c) && i < |c.ticks| && j < |c.ticks| && i != j && c.ticks[j].pc != Done
    ensures !InFlight(c.ticks[i], c.ticks[j].event)
  {
    assert c.ticks[i].pc != Done ==> Owns(c, i);
    assert Owns(c, j);
  }

  lemma OwnersAreExclusive(c: Core)
    requires LocksOk(c)
    ensures Exclusive(c)
  {
    forall i, j | 0 <= i < j < |c.ticks| && c.ticks[i].pc != Done && c.ticks[j].pc != Done
      ensures c.ticks[i].event != c.ticks[j].event
    {
      AtMostOneTick(c, i, j);
    }
  }

  /** Exactly when a tick is overlapped: its lock has run out when the event's lock is asked for. */
  lemma OverlappedIff(c: Core, e: EventId, i: nat)
    requires LocksOk(c) && i < |c.ticks| && InFlight(c.ticks[i], e)
    ensures |Next(c, StartTick(e)).ticks| > |c.ticks| <==> !InTime(c, c.ticks[i])
    ensures !Exclusive(Next(c, StartTick(e))) <==> !InTime(c, c.ticks[i])
  {
    var d := Next(c, StartTick(e));
    assert Owns(c, i);
    OwnersAreExclusive(c);
    assert d.ticks == c.ticks || (d.ticks[i] == c.ticks[i] && InFlight(d.ticks[|c.ticks|], e));
  }

  /** While ticks are punctual, a lock disappears only by its own tick's DEL; a running tick never loses it. */
  lemma DelRemovesOwnLock(c: Core, a: Action, e: EventId)
    requires LocksOk(c) && e in c.db.locks && e !in Next(c, a).db.locks
    ensures a.TickStep? && a.tick < |c.ticks| && c.ticks[a.tick].pc == Release && c.ticks[a.tick].event == e
            && Owns(c, a.tick)
  {
    match a
    case TickStep(i, o) =>
      if i < |c.ticks| {
        DelTick(c, i, o, e);
      }
    case StartTick(_) =>
    case JoinStep(i, o) =>
    case CrashTick(_) =>
    case _ =>
  }

  lemma DelTick(c: Core, i: nat, o: Outcome, e: EventId)
    requires i < |c.ticks| && e in c.db.locks && e !in StepTick(c, i, o).db.locks
    ensures c.ticks[i].pc == Release && c.ticks[i].event == e
  {
  }

  /** And an overlapped tick goes on to delete the lock of the tick that overlapped it. */
  lemma OverrunDeletesForeignLock(c: Core, e: EventId, i: nat, o: Outcome)
    requires LocksOk(c) && i < |c.ticks| && InFlight(c.ticks[i], e) && c.ticks[i].pc == Release
             && !InTime(c, c.ticks[i])
    ensures var d := Next(c, StartTick(e));
            && e in d.hist.holder && d.hist.holder[e] == |c.ticks| && Locked(d.db, e)
            && (o != Failed ==> !Locked(Next(d, TickStep(i, o)).db, e))
  {
    assert Owns(c, i);
    assert Next(c, StartTick(e)).ticks[i] == c.ticks[i];
  }
}
