/** The concurrency ceiling: what min(rate, headroom) guarantees when reads, pops and INCRs are separate steps. */
module Capacity {
  import opened Config
  import opened Tokens
  import opened Redis
  import opened Machine

  /** Counters stay in int64, and a configured rate or capacity is always positive. */
  ghost predicate NumbersOk(c: Core) {
    && (forall e :: e in c.db.active ==> Int64(c.db.active[e]))
    && (forall e :: e in c.db.rate ==> 0 < c.db.rate[e] <= INT64_MAX)
    && (forall e :: e in c.db.capacity ==> 0 < c.db.capacity[e] <= INT64_MAX)
    && (forall i :: 0 <= i < |c.ticks| && c.ticks[i].pc.ReadCapacity? ==> Int64(c.ticks[i].pc.active))
  }

  lemma NumbersInit(c: Core)
    requires Init(c)
    ensures NumbersOk(c)
  {
  }

  lemma NumbersNext(c: Core, a: Action)
    requires NumbersOk(c)
    ensures NumbersOk(Next(c, a))
  {
    match a
    case TickStep(i, o) => if i < |c.ticks| { NumbersTick(c, i, o); }
    case JoinStep(i, o) => if i < |c.joins| { NumbersJoin(c, i, o); }
    case CrashTick(i) =>
    case StartTick(_) =>
    case _ => NumbersQuiet(c, a);
  }

  lemma NumbersQuiet(c: Core, a: Action)
    requires NumbersOk(c)
    ensures NumbersOk(Quiet(c, a))
  {
    match a
    case Exit(e, o) => assert StepExit(c, e, o).ticks == c.ticks;
    case _ => assert Quiet(c, a).ticks == c.ticks;
  }

  lemma NumbersJoin(c: Core, i: nat, o: Outcome)
    requires NumbersOk(c) && i < |c.joins|
    ensures NumbersOk(StepJoin(c, i, o))
  {
  }

  lemma NumbersTick(c: Core, i: nat, o: Outcome)
    requires NumbersOk(c) && i < |c.ticks|
    ensures NumbersOk(StepTick(c, i, o))
  {
  }

  function Sum(ticks: seq<Tick>, w: Tick -> int): int {
    if ticks == [] then 0 else Sum(ticks[..|ticks| - 1], w) + w(ticks[|ticks| - 1])
  }

  lemma {:induction false} SumUpdate(ticks: seq<Tick>, w: Tick -> int, i: nat, t: Tick)
    requires i < |ticks|
    ensures Sum(ticks[i := t], w) == Sum(ticks, w) - w(ticks[i]) + w(t)
  {
    var n := |ticks| - 1;
    if i < n {
      SumUpdate(ticks[..n], w, i, t);
      assert ticks[i := t][..n] == ticks[..n][i := t];
    } else {
      assert ticks[i := t][..n] == ticks[..n];
    }
  }

  lemma SumAppend(ticks: seq<Tick>, w: Tick -> int, t: Tick)
    ensures Sum(ticks + [t], w) == Sum(ticks, w) + w(t)
  {
    assert (ticks + [t])[..|ticks|] == ticks;
  }

  /** How many INCRs a tick of event e may still perform, when capacities are at most cap. */
  function Reserve(t: Tick, e: EventId, cap: int): int {
    if t.event != e then 0
    else
      match t.pc
      case ReadCapacity(rate, active) => Max(0, Min(rate, cap - active))
      case Pop(n) => Max(0, n)
      case Issue => |t.todo|
      case Store(_) => |t.todo|
      case Count(_) => |t.todo|
      case Announce(_) => |t.todo| - 1
      case _ => 0
  }

  function ReserveOf(e: EventId, cap: int): Tick -> int {
    (t: Tick) => Reserve(t, e, cap)
  }

  function RunningOf(e: EventId): Tick -> int {
    (t: Tick) => if InFlight(t, e) then 1 else 0
  }

  /** The ticks of an event that are between acquire and release. */
  function Running(c: Core, e: EventId): int {
    Sum(c.ticks, RunningOf(e))
  }

  /** The INCRs the running ticks of an event may still perform. */
  function Reserved(c: Core, e: EventId, cap: int): int {
    Sum(c.ticks, ReserveOf(e, cap))
  }

  /** No tick of e works with a rate above r. */
  ghost predicate Rated(t: Tick, e: EventId, r: int) {
    t.event == e ==>
      && (t.pc.ReadActive? ==> t.pc.rate <= r)
      && (t.pc.ReadCapacity? ==> t.pc.rate <= r)
      && (t.pc.Pop? ==> t.pc.n <= r)
      && |t.todo| <= r
      && (InLoop(t.pc) <==> t.todo != [])
  }

  ghost predicate AllRated(c: Core, e: EventId, r: int) {
    forall i :: 0 <= i < |c.ticks| ==> Rated(c.ticks[i], e, r)
  }

  /** What is asked of a step: rates at most r, and the reads of a tick succeed and see a capacity in 1..cap. */
  ghost predicate Calm(c: Core, a: Action, e: EventId, cap: int, r: int) {
    && c.defaultRate <= r && (e in c.db.rate ==> c.db.rate[e] <= r)
    && (a.TickStep? && a.tick < |c.ticks| && c.ticks[a.tick].event == e && Reading(c.ticks[a.tick].pc) ==>
          a.outcome == Ok && 0 < Number(c.db.capacity, e) <= cap)
  }

  predicate Reading(pc: TickPc) {
    pc.ReadActive? || pc.ReadCapacity?
  }

  /** Go's int64 headroom is the true headroom whenever it is positive. */
  lemma HeadroomExact(cap: int, active: int)
    requires 0 < cap <= INT64_MAX && Int64(active)
    ensures Wrap64(cap - active) > 0 ==> Wrap64(cap - active) == cap - active
    ensures cap - active <= 0 ==> Wrap64(cap - active) <= 0
  {
    if cap - active > INT64_MAX {
      assert cap - active - 0x1_0000_0000_0000_0000 < 0;
      assert INT64_MIN <= cap - active - 0x1_0000_0000_0000_0000;
    }
  }

  lemma RatedNext(c: Core, a: Action, e: EventId, cap: int, r: int)
    requires AllRated(c, e, r) && Calm(c, a, e, cap, r) && r >= 0
    ensures AllRated(Next(c, a), e, r)
  {
    match a
    case TickStep(i, o) => if i < |c.ticks| { RatedTick(c, i, o, e, cap, r); }
    case CrashTick(i) =>
    case StartTick(_) =>
    case JoinStep(i, o) => if i < |c.joins| { assert StepJoin(c, i, o).ticks == c.ticks; }
    case _ => assert Quiet(c, a).ticks == c.ticks;
  }

  lemma RatedTick(c: Core, i: nat, o: Outcome, e: EventId, cap: int, r: int)
    requires AllRated(c, e, r) && i < |c.ticks| && Calm(c, TickStep(i, o), e, cap, r) && r >= 0
    ensures AllRated(StepTick(c, i, o), e, r)
  {
    assert Rated(c.ticks[i], e, r);
    if c.ticks[i].event == e {
      RatedAfter(c, i, o, e, r);
    }
    forall j | 0 <= j < |c.ticks| && j != i ensures Rated(StepTick(c, i, o).ticks[j], e, r) {
      assert Rated(c.ticks[j], e, r);
    }
  }

  lemma RatedAfter(c: Core, i: nat, o: Outcome, e: EventId, r: int)
    requires i < |c.ticks| && c.ticks[i].event == e && Rated(c.ticks[i], e, r) && r >= 0
    requires c.defaultRate <= r && (e in c.db.rate ==> c.db.rate[e] <= r)
    ensures Rated(TickAfter(c.db, c.hist, c.defaultRate, c.ticks[i], o), e, r)
  {
  }

  /** Every running tick reserves at most r. */
  lemma {:induction false} ReservedAtMost(ticks: seq<Tick>, e: EventId, cap: int, r: int)
    requires r >= 0 && forall i :: 0 <= i < |ticks| ==> Rated(ticks[i], e, r)
    ensures Sum(ticks, ReserveOf(e, cap)) <= r * Sum(ticks, RunningOf(e))
  {
    if ticks != [] {
      var n := |ticks| - 1;
      ReservedAtMost(ticks[..n], e, cap, r);
      assert Rated(ticks[n], e, r);
      var s := Sum(ticks[..n], RunningOf(e));
      assert r * (s + 1) == r * s + r;
    }
  }

  /** The others' share at the moment tick i reads the counter. */
  lemma OthersReserve(c: Core, e: EventId, cap: int, r: int, i: nat)
    requires AllRated(c, e, r) && r >= 0 && i < |c.ticks| && InFlight(c.ticks[i], e) && Reserve(c.ticks[i], e, cap) == 0
    ensures Reserved(c, e, cap) <= r * (Running(c, e) - 1)
  {
    var gone := c.ticks[i].(pc := Done, todo := []);
    SumUpdate(c.ticks, ReserveOf(e, cap), i, gone);
    SumUpdate(c.ticks, RunningOf(e), i, gone);
    ReservedAtMost(c.ticks[i := gone], e, cap, r);
  }

  /** What the overlap bound allows: active plus everything reserved. */
  function Load(c: Core, e: EventId, cap: int): int {
    Number(c.db.active, e) + Reserved(c, e, cap)
  }

  /** One step raises the load above its old value only up to cap + (k - 1) * r, where k ticks are running. */
  lemma LoadNext(c: Core, a: Action, e: EventId, cap: int, r: int)
    requires NumbersOk(c) && AllRated(c, e, r) && Calm(c, a, e, cap, r) && r >= 0
    ensures Load(Next(c, a), e, cap) <= Max(Load(c, e, cap), cap + r * Max(0, Running(c, e) - 1))
  {
    match a
    case TickStep(i, o) => if i < |c.ticks| { LoadStep(c, i, o, e, cap, r); }
    case CrashTick(i) =>
      if i < |c.ticks| {
        assert Rated(c.ticks[i], e, r);
        CrashPays(c, i, e, cap);
      }
    case StartTick(f) => StartPays(c, f, e, cap);
    case JoinStep(i, o) => if i < |c.joins| { LoadSame(c, StepJoin(c, i, o), e, cap); }
    case _ => LoadQuiet(c, a, e, cap);
  }

  lemma StartPays(c: Core, f: EventId, e: EventId, cap: int)
    ensures Load(Acquire(c, f), e, cap) == Load(c, e, cap)
  {
    SumAppend(c.ticks, ReserveOf(e, cap), Tick(f, c.db.now, [], ReadRate));
  }

  lemma CrashPays(c: Core, i: nat, e: EventId, cap: int)
    requires i < |c.ticks| && (c.ticks[i].event == e ==> (InLoop(c.ticks[i].pc) <==> c.ticks[i].todo != []))
    ensures Load(Crash(c, i), e, cap) <= Load(c, e, cap)
  {
    SumUpdate(c.ticks, ReserveOf(e, cap), i, c.ticks[i].(todo := [], pc := Done));
  }

  lemma LoadSame(c: Core, d: Core, e: EventId, cap: int)
    requires d.ticks == c.ticks && Number(d.db.active, e) <= Number(c.db.active, e)
    ensures Load(d, e, cap) <= Load(c, e, cap)
  {
  }

  lemma LoadQuiet(c: Core, a: Action, e: EventId, cap: int)
    ensures Load(Quiet(c, a), e, cap) <= Load(c, e, cap)
  {
    LoadSame(c, Quiet(c, a), e, cap);
  }

  lemma LoadStep(c: Core, i: nat, o: Outcome, e: EventId, cap: int, r: int)
    requires NumbersOk(c) && AllRated(c, e, r) && i < |c.ticks| && Calm(c, TickStep(i, o), e, cap, r) && r >= 0
    ensures Load(StepTick(c, i, o), e, cap) <= Max(Load(c, e, cap), cap + r * Max(0, Running(c, e) - 1))
  {
    if c.ticks[i].event == e && c.ticks[i].pc.ReadActive? {
      LoadRead(c, i, o, e, cap, r);
    } else {
      LoadTick(c, i, o, e, cap, r);
    }
  }

  lemma LoadRead(c: Core, i: nat, o: Outcome, e: EventId, cap: int, r: int)
    requires AllRated(c, e, r) && i < |c.ticks| && Calm(c, TickStep(i, o), e, cap, r) && r >= 0
    requires c.ticks[i].event == e && c.ticks[i].pc.ReadActive?
    ensures Load(StepTick(c, i, o), e, cap) <= Max(Load(c, e, cap), cap + r * Max(0, Running(c, e) - 1))
  {
    var active := Number(c.db.active, e);
    OthersReserve(c, e, cap, r, i);
    RunningPositive(c.ticks, e, i);
    SumUpdate(c.ticks, ReserveOf(e, cap), i, c.ticks[i].(pc := ReadCapacity(c.ticks[i].pc.rate, active)));
  }

  lemma {:induction false} RunningPositive(ticks: seq<Tick>, e: EventId, i: nat)
    requires i < |ticks| && InFlight(ticks[i], e)
    ensures Sum(ticks, RunningOf(e)) >= 1
  {
    var n := |ticks| - 1;
    if i < n {
      RunningPositive(ticks[..n], e, i);
    } else {
      RunningNonNegative(ticks[..n], e);
    }
  }

  lemma {:induction false} RunningNonNegative(ticks: seq<Tick>, e: EventId)
    ensures Sum(ticks, RunningOf(e)) >= 0
  {
    if ticks != [] {
      RunningNonNegative(ticks[..|ticks| - 1], e);
    }
  }

  /** Every other command of a tick keeps or lowers the load. */
  lemma LoadTick(c: Core, i: nat, o: Outcome, e: EventId, cap: int, r: int)
    requires NumbersOk(c) && AllRated(c, e, r) && i < |c.ticks| && Calm(c, TickStep(i, o), e, cap, r)
    requires !(c.ticks[i].event == e && c.ticks[i].pc.ReadActive?)
    ensures Load(StepTick(c, i, o), e, cap) <= Load(c, e, cap)
  {
    assert Rated(c.ticks[i], e, r);
    if c.ticks[i].event == e && c.ticks[i].pc.ReadCapacity? {
      CapacityReadPays(c, i, e, cap);
    } else {
      PlainTick(c, i, o, e, cap);
    }
  }

  /** An answered read of the capacity. */
  lemma CapacityReadPays(c: Core, i: nat, e: EventId, cap: int)
    requires NumbersOk(c) && i < |c.ticks| && c.ticks[i].event == e && c.ticks[i].pc.ReadCapacity?
    requires 0 < Number(c.db.capacity, e) <= cap
    ensures Load(StepTick(c, i, Ok), e, cap) <= Load(c, e, cap)
  {
    SumUpdate(c.ticks, ReserveOf(e, cap), i, StepTick(c, i, Ok).ticks[i]);
    BatchPays(c.ticks[i].pc.rate, c.ticks[i].pc.active, Number(c.db.capacity, e), cap);
  }

  /** A command that is not one of the event's two reads. */
  lemma PlainTick(c: Core, i: nat, o: Outcome, e: EventId, cap: int)
    requires i < |c.ticks|
    requires c.ticks[i].event == e ==> !Reading(c.ticks[i].pc) && (InLoop(c.ticks[i].pc) <==> c.ticks[i].todo != [])
    ensures Load(StepTick(c, i, o), e, cap) <= Load(c, e, cap)
  {
    var t := c.ticks[i];
    SumUpdate(c.ticks, ReserveOf(e, cap), i, StepTick(c, i, o).ticks[i]);
    CountedByTick(c.db, t, e);
    if t.event == e {
      ReservePays(c.db, c.hist, c.defaultRate, t, o, e, cap);
    }
  }

  lemma CountedByTick(db: Db, t: Tick, e: EventId)
    ensures Number(TickDb(db, t).active, e) <= Number(db.active, e) + if t.event == e && t.pc.Count? then 1 else 0
  {
  }

  /** An INCR uses up one reservation, and no command but the reads adds any. */
  lemma ReservePays(db: Db, h: History, defaultRate: int, t: Tick, o: Outcome, e: EventId, cap: int)
    requires t.event == e && !Reading(t.pc) && (InLoop(t.pc) <==> t.todo != [])
    ensures Reserve(TickAfter(db, h, defaultRate, t, o), e, cap) + (if t.pc.Count? then 1 else 0) <= Reserve(t, e, cap)
  {
    match t.pc
    case Pop(n) => assert |Batch(db, t)| <= Max(0, n);
    case _ =>
  }

  /** The batch size tick settles on is within what its reads reserved. */
  lemma BatchPays(rate: int, active: int, capacity: int, cap: int)
    requires 0 < capacity <= cap && capacity <= INT64_MAX && Int64(active)
    ensures var pc := BatchPc(rate, active, capacity);
            pc == Release || (pc.Pop? && Max(0, pc.n) <= Max(0, Min(rate, cap - active)))
  {
    HeadroomExact(capacity, active);
  }

  /**
   A scheduler that dies after it issued a token and before the INCR frees that token's place, and those of the rest of
   its batch, while the token stays valid: the ceiling is on counted tokens only.
   */
  lemma CrashFreesIssuedPlace(c: Core, i: nat, cap: int)
    requires i < |c.ticks| && Uncounted(c.ticks[i].pc) && c.ticks[i].todo != []
    ensures var d, e := Crash(c, i), c.ticks[i].event;
            && d.db == c.db && d.hist.issued == c.hist.issued
            && Load(d, e, cap) == Load(c, e, cap) - |c.ticks[i].todo| < Load(c, e, cap)
            && Times(d.hist.uncounted, e) == Times(c.hist.uncounted, e) + 1
  {
    SumUpdate(c.ticks, ReserveOf(c.ticks[i].event, cap), i, c.ticks[i].(todo := [], pc := Done));
  }
}
