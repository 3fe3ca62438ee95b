/** Exactly when the concurrency ceiling holds: what an unanswered read does to it. */
module Ceiling {
  import opened Config
  import opened Tokens
  import opened Redis
  import opened Machine
  import opened Conservation
  import opened Locks
  import opened Capacity

  /** An answered read of e's capacity sees a capacity in 1..cap. */
  ghost predicate Seen(c: Core, a: Action, e: EventId, cap: int) {
    a.TickStep? && a.tick < |c.ticks| && a.outcome == Ok ==>
      c.ticks[a.tick].event == e && c.ticks[a.tick].pc.ReadCapacity? ==>
        0 < Number(c.db.capacity, e) <= cap
  }

  /** A read without an answer, by a tick that then asks for more than m leaves free. */
  predicate Excess(c: Core, a: Action, e: EventId, cap: int, m: int) {
    && a.TickStep? && a.tick < |c.ticks| && c.ticks[a.tick].event == e && a.outcome != Ok
    && var pc := c.ticks[a.tick].pc;
    || (pc.ReadCapacity? && Number(c.db.active, e) + Max(0, pc.rate) > m)
    || (pc.ReadActive? && Number(c.db.active, e) + Max(0, Min(pc.rate, cap)) > m)
  }

  lemma {:induction false} SumOfNone(ticks: seq<Tick>, w: Tick -> int)
    requires forall j :: 0 <= j < |ticks| ==> w(ticks[j]) == 0
    ensures Sum(ticks, w) == 0
  {
    if ticks != [] {
      SumOfNone(ticks[..|ticks| - 1], w);
    }
  }

  lemma {:induction false} SumOfOne(ticks: seq<Tick>, w: Tick -> int, i: nat)
    requires i < |ticks| && forall j :: 0 <= j < |ticks| && j != i ==> w(ticks[j]) == 0
    ensures Sum(ticks, w) == w(ticks[i])
  {
    var n := |ticks| - 1;
    if i == n {
      SumOfNone(ticks[..n], w);
    } else {
      SumOfOne(ticks[..n], w, i);
    }
  }

  /** Under the lock all reservations of an event are those of its one running tick. */
  lemma OwnReserve(c: Core, e: EventId, cap: int, i: nat)
    requires LocksOk(c) && i < |c.ticks| && InFlight(c.ticks[i], e)
    ensures Reserved(c, e, cap) == Reserve(c.ticks[i], e, cap)
  {
    forall j | 0 <= j < |c.ticks| && j != i ensures ReserveOf(e, cap)(c.ticks[j]) == 0 {
      AtMostOneTick(c, j, i);
    }
    SumOfOne(c.ticks, ReserveOf(e, cap), i);
  }

  /** One step leaves the load within m, unless it is a read without an answer that asks for too much. */
  lemma CeilingStepIff(c: Core, a: Action, e: EventId, cap: int, m: int)
    requires LocksOk(c) && NumbersOk(c) && TicksOk(c) && Seen(c, a, e, cap) && cap <= m && Load(c, e, cap) <= m
    ensures Load(Next(c, a), e, cap) <= m <==> !Excess(c, a, e, cap, m)
  {
    match a
    case TickStep(i, o) => if i < |c.ticks| { CeilingTick(c, i, o, e, cap, m); }
    case CrashTick(i) => if i < |c.ticks| && c.ticks[i].pc != Done { CrashPays(c, i, e, cap); }
    case StartTick(f) => StartPays(c, f, e, cap);
    case JoinStep(i, o) => if i < |c.joins| { LoadSame(c, StepJoin(c, i, o), e, cap); }
    case _ => LoadQuiet(c, a, e, cap);
  }

  lemma CeilingTick(c: Core, i: nat, o: Outcome, e: EventId, cap: int, m: int)
    requires LocksOk(c) && NumbersOk(c) && TicksOk(c) && i < |c.ticks| && Seen(c, TickStep(i, o), e, cap)
    requires cap <= m && Load(c, e, cap) <= m
    ensures Load(StepTick(c, i, o), e, cap) <= m <==> !Excess(c, TickStep(i, o), e, cap, m)
  {
    if c.ticks[i].event != e || !Reading(c.ticks[i].pc) {
      PlainTick(c, i, o, e, cap);
    } else if c.ticks[i].pc.ReadCapacity? && o == Ok {
      CapacityReadPays(c, i, e, cap);
    } else {
      OwnRead(c, i, o, e, cap);
    }
  }

  /** The load after a read that is the counter's, or has no answer. */
  lemma OwnRead(c: Core, i: nat, o: Outcome, e: EventId, cap: int)
    requires LocksOk(c) && i < |c.ticks| && c.ticks[i].event == e && Reading(c.ticks[i].pc)
    requires c.ticks[i].pc.ReadCapacity? ==> o != Ok
    ensures var active, rate := Number(c.db.active, e), c.ticks[i].pc.rate;
            Load(StepTick(c, i, o), e, cap) == active +
            if c.ticks[i].pc.ReadCapacity? then Max(0, rate) else Max(0, Min(rate, cap - if o == Ok then active else 0))
    ensures c.ticks[i].pc.ReadActive? ==> Load(c, e, cap) == Number(c.db.active, e)
  {
    var d := StepTick(c, i, o);
    OwnReserve(c, e, cap, i);
    SumUpdate(c.ticks, ReserveOf(e, cap), i, d.ticks[i]);
  }
}
