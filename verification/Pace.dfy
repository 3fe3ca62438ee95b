/** How fast an uncapped queue moves: rate tickets for each ZPOPMIN, whatever else runs in between. */
module Pace {
  import opened Config
  import opened Tokens
  import opened SortedSet
  import opened Redis
  import opened Machine
  import opened Capacity
  import opened Conservation
  import opened Visits
  import opened Site
  import opened Runs

  /** A ZPOPMIN of e. */
  predicate PopsNow(s: Site, a: Act, e: EventId) {
    a.Queue? && Pops(s.core, a.action, e)
  }

  /** How many ZPOPMINs of e take effect in a run. */
  function PopCount(s: Site, acts: seq<Act>, e: EventId): nat {
    if acts == [] then 0
    else
      var n := |acts| - 1;
      PopCount(s, acts[..n], e) + if PopsNow(Run(s, acts[..n]), acts[n], e) then 1 else 0
  }

  /** A tick of e in flight has read this rate and no capacity. */
  ghost predicate AtRate(t: Tick, e: EventId, rate: int) {
    t.event == e ==>
      && (t.pc.ReadActive? ==> t.pc.rate == rate)
      && (t.pc.ReadCapacity? ==> t.pc.rate == rate)
      && (t.pc.Pop? ==> t.pc.n == rate)
  }

  ghost predicate AllAtRate(c: Core, e: EventId, rate: int) {
    forall i :: 0 <= i < |c.ticks| ==> AtRate(c.ticks[i], e, rate)
  }

  /** A tick of e that reads the rate now gets this one, and one that reads the capacity gets none. */
  ghost predicate Uncapped(c: Core, a: Action, e: EventId, rate: int) {
    a.TickStep? && a.tick < |c.ticks| && c.ticks[a.tick].event == e ==>
      && (c.ticks[a.tick].pc == ReadRate ==>
         (if a.outcome == Ok && e in c.db.rate then c.db.rate[e] else c.defaultRate) == rate)
      && (c.ticks[a.tick].pc.ReadCapacity? ==> a.outcome != Ok || Number(c.db.capacity, e) <= 0)
  }

  ghost predicate UncappedStep(s: Site, a: Act, e: EventId, rate: int) {
    a.Queue? ==> Uncapped(s.core, a.action, e, rate)
  }

  lemma {:induction false} RateKept(s: Site, acts: seq<Act>, e: EventId, rate: int)
    requires AllAtRate(s.core, e, rate) && Along(s, acts, (x: Site, a: Act) => UncappedStep(x, a, e, rate))
    ensures AllAtRate(Run(s, acts).core, e, rate)
  {
    if acts != [] {
      var n := |acts| - 1;
      RateKept(s, acts[..n], e, rate);
      if acts[n].Queue? {
        RateNext(Run(s, acts[..n]).core, acts[n].action, e, rate);
      }
    }
  }

  lemma RateNext(c: Core, a: Action, e: EventId, rate: int)
    requires AllAtRate(c, e, rate) && Uncapped(c, a, e, rate)
    ensures AllAtRate(Next(c, a), e, rate)
  {
    match a
    case TickStep(i, o) =>
      if i < |c.ticks| {
        assert AtRate(c.ticks[i], e, rate);
        RateTick(c, i, o, e, rate);
      }
    case CrashTick(_) =>
    case StartTick(_) =>
    case JoinStep(i, o) => if i < |c.joins| { assert StepJoin(c, i, o).ticks == c.ticks; }
    case _ => assert Quiet(c, a).ticks == c.ticks;
  }

  lemma RateTick(c: Core, i: nat, o: Outcome, e: EventId, rate: int)
    requires i < |c.ticks| && AtRate(c.ticks[i], e, rate) && Uncapped(c, TickStep(i, o), e, rate)
    ensures AtRate(TickAfter(c.db, c.hist, c.defaultRate, c.ticks[i], o), e, rate)
  {
  }

  // ------------------------------------------------------------------ one ticket

  /** The rank left of r after m batches, or -1 once it is used up. */
  function Remaining(r: int, rate: nat, m: nat): int {
    if r - m * rate >= 0 then r - m * rate else -1
  }

  /** The ticket's event has this rate and no ceiling, and tickets are only added behind it. */
  ghost predicate PacedStep(s: Site, a: Act, e: EventId, t: TicketId, rate: int) {
    UncappedStep(s, a, e, rate) && (a.Queue? ==> AddsBehind(s.core, a.action, t))
  }

  /** Each effective ZPOPMIN takes rate ranks off a waiting ticket, and nothing else changes its rank. */
  lemma RankStep(c: Core, a: Action, e: EventId, t: TicketId, rate: nat)
    requires Conserved(c) && t in c.hist.place && AllAtRate(c, e, rate) && AddsBehind(c, a, t)
    ensures var before, after := Rank(ListAt(c.db.queues, e), t), Rank(ListAt(Next(c, a).db.queues, e), t);
            after == if Pops(c, a, e) then Remaining(before, rate, 1) else before
  {
    NextQueue(c, a, e);
    if Pops(c, a, e) {
      assert AtRate(c.ticks[a.tick], e, rate);
      RankAfterPop(c, e, rate, t);
    } else if Adds(c, a, e) {
      RankAfterAdd(c, a.join, e, t);
    }
  }

  lemma RemainingStep(r: int, rate: nat, m: nat)
    requires r >= -1 && rate > 0
    ensures Remaining(Remaining(r, rate, m), rate, 1) == Remaining(r, rate, m + 1)
  {
    assert (m + 1) * rate == m * rate + rate;
  }

  function RankOf(e: EventId, t: TicketId): Site -> int {
    (s: Site) => Rank(ListAt(s.core.db.queues, e), t)
  }

  lemma RankSiteStep(s: Site, a: Act, e: EventId, t: TicketId, rate: nat)
    requires CoreOk(s.core) && t in s.core.hist.place && AllAtRate(s.core, e, rate) && PacedStep(s, a, e, t, rate)
    ensures t in Step(s, a).core.hist.place
    ensures TakesRate(s, a, e, RankOf(e, t), rate)
  {
    if a.Queue? {
      OnwardNext(s.core, a.action);
      RankStep(s.core, a.action, e, t, rate);
    }
  }

  /** A step that takes rate off the measure if it pops, and leaves it alone otherwise. */
  ghost predicate TakesRate(s: Site, a: Act, e: EventId, measure: Site -> int, rate: nat) {
    measure(Step(s, a)) == if PopsNow(s, a, e) then Remaining(measure(s), rate, 1) else measure(s)
  }

  lemma {:induction false} PacedTakesRate(s: Site, acts: seq<Act>, e: EventId, t: TicketId, rate: nat)
    requires SiteOk(s) && t in s.core.hist.place && AllAtRate(s.core, e, rate)
    requires Along(s, acts, (x: Site, a: Act) => PacedStep(x, a, e, t, rate))
    ensures Along(s, acts, (x: Site, a: Act) => TakesRate(x, a, e, RankOf(e, t), rate))
    ensures t in Run(s, acts).core.hist.place && AllAtRate(Run(s, acts).core, e, rate)
  {
    if acts != [] {
      var n := |acts| - 1;
      var before := Run(s, acts[..n]);
      PacedTakesRate(s, acts[..n], e, t, rate);
      StaysOk(s, acts[..n]);
      RankSiteStep(before, acts[n], e, t, rate);
      if acts[n].Queue? {
        RateNext(before.core, acts[n].action, e, rate);
      }
    }
  }

  /** After any run a measure has lost rate for each ZPOPMIN. */
  lemma {:induction false} MeasureAfterPops(s: Site, acts: seq<Act>, e: EventId, measure: Site -> int, rate: nat)
    requires rate > 0 && measure(s) >= -1 && Along(s, acts, (x: Site, a: Act) => TakesRate(x, a, e, measure, rate))
    ensures measure(Run(s, acts)) == Remaining(measure(s), rate, PopCount(s, acts, e))
  {
    if acts != [] {
      var n := |acts| - 1;
      MeasureAfterPops(s, acts[..n], e, measure, rate);
      assert TakesRate(Run(s, acts[..n]), acts[n], e, measure, rate);
      RemainingStep(measure(s), rate, PopCount(s, acts[..n], e));
    }
  }

  lemma DivBound(r: nat, rate: nat, m: nat)
    requires rate > 0
    ensures m <= r / rate <==> m * rate <= r
  {
    var d := r / rate;
    assert d * rate <= r < d * rate + rate;
    if m <= d {
      assert m * rate <= d * rate;
    } else {
      assert m * rate >= (d + 1) * rate == d * rate + rate;
    }
  }

  /**
   Without a ceiling, at a fixed rate and with joins only behind it, a ticket of rank r is popped by exactly the
   (floor(r / rate) + 1)-th ZPOPMIN of its queue that takes effect, in every run: ticks may overlap, fail, lose replies
   and crash.
   */
  lemma PoppedOnExactTick(s: Site, acts: seq<Act>, more: seq<Act>, e: EventId, t: TicketId, rate: nat)
    requires Start(s) && rate > 0 && AllAtRate(Run(s, acts).core, e, rate)
    requires Along(Run(s, acts), more, (x: Site, a: Act) => PacedStep(x, a, e, t, rate))
    requires Has(ListAt(Run(s, acts).core.db.queues, e), t)
    ensures var before, after := Run(s, acts), Run(Run(s, acts), more);
            var rank, pops := Rank(ListAt(before.core.db.queues, e), t), PopCount(before, more, e);
            && Rank(ListAt(after.core.db.queues, e), t) == Remaining(rank, rate, pops)
            && (Has(ListAt(after.core.db.queues, e), t) <==> pops <= rank / rate)
  {
    AlwaysOk(s, acts);
    var before := Run(s, acts);
    assert QueueOk(before.core.db.queues, before.core.hist.place, e);
    PacedTakesRate(before, more, e, t, rate);
    MeasureAfterPops(before, more, e, RankOf(e, t), rate);
    DivBound(Rank(ListAt(before.core.db.queues, e), t), rate, PopCount(before, more, e));
  }

  // ------------------------------------------------------------------ the whole queue

  /** Nobody is added to e's queue. */
  ghost predicate NoneJoins(c: Core, a: Action, e: EventId) {
    a.JoinStep? && a.join < |c.joins| && c.joins[a.join].event == e && c.joins[a.join].pc == Add ==> a.outcome == Failed
  }

  ghost predicate DrainingStep(s: Site, a: Act, e: EventId, rate: int) {
    UncappedStep(s, a, e, rate) && (a.Queue? ==> NoneJoins(s.core, a.action, e))
  }

  lemma DepthStep(c: Core, a: Action, e: EventId, rate: nat)
    requires AllAtRate(c, e, rate) && NoneJoins(c, a, e)
    ensures var before, after := |ListAt(c.db.queues, e)|, |ListAt(Next(c, a).db.queues, e)|;
            after == if Pops(c, a, e) then Max(0, before - rate) else before
  {
    NextQueue(c, a, e);
    if Pops(c, a, e) {
      assert AtRate(c.ticks[a.tick], e, rate);
    }
  }

  lemma {:induction false} DrainingIsUncapped(s: Site, acts: seq<Act>, e: EventId, rate: nat)
    requires Along(s, acts, (x: Site, a: Act) => DrainingStep(x, a, e, rate))
    ensures Along(s, acts, (x: Site, a: Act) => UncappedStep(x, a, e, rate))
  {
    if acts != [] {
      DrainingIsUncapped(s, acts[..|acts| - 1], e, rate);
    }
  }

  lemma DepthSiteStep(s: Site, a: Act, e: EventId, rate: nat)
    requires AllAtRate(s.core, e, rate) && DrainingStep(s, a, e, rate)
    ensures var before, after := |ListAt(s.core.db.queues, e)|, |ListAt(Step(s, a).core.db.queues, e)|;
            after == if PopsNow(s, a, e) then Max(0, before - rate) else before
  {
    if a.Queue? {
      DepthStep(s.core, a.action, e, rate);
    }
  }

  /** What m batches leave of d members. */
  function Left(d: nat, rate: nat, m: nat): nat {
    Max(0, d - m * rate)
  }

  lemma LeftStep(d: nat, rate: nat, m: nat)
    ensures Left(d, rate, m + 1) == Max(0, Left(d, rate, m) - rate)
  {
    assert (m + 1) * rate == m * rate + rate;
  }

  lemma {:induction false} DepthAfterPops(s: Site, acts: seq<Act>, e: EventId, rate: nat)
    requires AllAtRate(s.core, e, rate) && Along(s, acts, (x: Site, a: Act) => DrainingStep(x, a, e, rate))
    ensures |ListAt(Run(s, acts).core.db.queues, e)| == Left(|ListAt(s.core.db.queues, e)|, rate, PopCount(s, acts, e))
  {
    if acts != [] {
      var n := |acts| - 1;
      DepthAfterPops(s, acts[..n], e, rate);
      DrainingIsUncapped(s, acts[..n], e, rate);
      RateKept(s, acts[..n], e, rate);
      DepthSiteStep(Run(s, acts[..n]), acts[n], e, rate);
      LeftStep(|ListAt(s.core.db.queues, e)|, rate, PopCount(s, acts[..n], e));
    } else {
      assert PopCount(s, acts, e) == 0;
    }
  }

  lemma CeilBound(d: nat, rate: nat, m: nat)
    requires rate > 0
    ensures Left(d, rate, m) == 0 <==> m >= (d + rate - 1) / rate
  {
    DivBound(d + rate - 1, rate, m + 1);
    assert (m + 1) * rate == m * rate + rate;
  }

  /**
   Without a ceiling and without joins, a queue of depth d is empty exactly after ceil(d / rate) effective ZPOPMINs,
   and until then each of them takes rate tickets.
   */
  lemma DrainTime(s: Site, acts: seq<Act>, more: seq<Act>, e: EventId, rate: nat)
    requires Start(s) && rate > 0 && AllAtRate(Run(s, acts).core, e, rate)
    requires Along(Run(s, acts), more, (x: Site, a: Act) => DrainingStep(x, a, e, rate))
    ensures var before, after := Run(s, acts), Run(Run(s, acts), more);
            var depth, pops := |ListAt(before.core.db.queues, e)|, PopCount(before, more, e);
            && |ListAt(after.core.db.queues, e)| == Left(depth, rate, pops)
            && (ListAt(after.core.db.queues, e) == [] <==> pops >= (depth + rate - 1) / rate)
  {
    DepthAfterPops(Run(s, acts), more, e, rate);
    CeilBound(|ListAt(Run(s, acts).core.db.queues, e)|, rate, PopCount(Run(s, acts), more, e));
  }

  // ------------------------------------------------------------------ ticks

  /** ZPOPMINs of tick i that take effect. */
  function PopsOfTick(s: Site, acts: seq<Act>, i: nat): nat {
    if acts == [] then 0
    else
      var n, a := |acts| - 1, acts[|acts| - 1];
      var c := Run(s, acts[..n]).core;
      PopsOfTick(s, acts[..n], i)
      + if i < |c.ticks| && PopsNow(Run(s, acts[..n]), a, c.ticks[i].event) && a.action.tick == i then 1 else 0
  }

  predicate Unpopped(pc: TickPc) {
    pc == ReadRate || pc.ReadActive? || pc.ReadCapacity? || pc.Pop?
  }

  /** A tick pops at most one batch, so the m-th effective ZPOPMIN takes at least m ticks. */
  lemma {:induction false} OneBatchPerTick(s: Site, acts: seq<Act>, i: nat)
    requires Start(s)
    ensures var ticks := Run(s, acts).core.ticks;
            PopsOfTick(s, acts, i) <= if i < |ticks| && !Unpopped(ticks[i].pc) then 1 else 0
  {
    if acts != [] {
      var n := |acts| - 1;
      var before := Run(s, acts[..n]);
      OneBatchPerTick(s, acts[..n], i);
      if acts[n].Queue? && i < |before.core.ticks| {
        PoppedStays(before.core, acts[n].action, i);
      }
    } else {
      assert PopsOfTick(s, acts, i) == 0;
    }
  }

  lemma PoppedStays(c: Core, a: Action, i: nat)
    requires i < |c.ticks|
    ensures i < |Next(c, a).ticks| && (!Unpopped(c.ticks[i].pc) ==> !Unpopped(Next(c, a).ticks[i].pc))
    ensures a.TickStep? && a.tick == i && c.ticks[i].pc.Pop? ==> !Unpopped(Next(c, a).ticks[i].pc)
  {
    match a
    case TickStep(_, _) =>
    case CrashTick(_) =>
    case StartTick(_) =>
    case JoinStep(k, o) => if k < |c.joins| { assert StepJoin(c, k, o).ticks == c.ticks; }
    case _ => assert Quiet(c, a).ticks == c.ticks;
  }

  /** No tick of e dies before its ZPOPMIN, and its ZPOPMIN takes effect. */
  ghost predicate Pulls(c: Core, a: Action, e: EventId) {
    && (a.CrashTick? && a.tick < |c.ticks| && c.ticks[a.tick].event == e ==> !Unpopped(c.ticks[a.tick].pc))
    && (a.TickStep? && a.tick < |c.ticks| && c.ticks[a.tick].event == e && c.ticks[a.tick].pc.Pop? ==>
          a.outcome != Failed)
  }

  ghost predicate PullingStep(s: Site, a: Act, e: EventId, rate: int) {
    UncappedStep(s, a, e, rate) && (a.Queue? ==> Pulls(s.core, a.action, e))
  }

  function PastOf(e: EventId): Tick -> int {
    (t: Tick) => if t.event == e && !Unpopped(t.pc) then 1 else 0
  }

  /** How many ticks of e are past their ZPOPMIN. */
  function TicksOf(c: Core, e: EventId): int {
    Sum(c.ticks, PastOf(e))
  }

  lemma TicksStep(c: Core, a: Action, e: EventId, rate: int)
    requires rate > 0 && AllAtRate(c, e, rate) && Uncapped(c, a, e, rate) && Pulls(c, a, e)
    ensures TicksOf(Next(c, a), e) == TicksOf(c, e) + if Pops(c, a, e) then 1 else 0
  {
    match a
    case TickStep(i, o) =>
      if i < |c.ticks| {
        SumUpdate(c.ticks, PastOf(e), i, StepTick(c, i, o).ticks[i]);
        assert AtRate(c.ticks[i], e, rate);
        PastAfter(c, i, o, e, rate);
      }
    case CrashTick(i) =>
      if i < |c.ticks| {
        SumUpdate(c.ticks, PastOf(e), i, c.ticks[i].(todo := [], pc := Done));
      }
    case StartTick(f) => SumAppend(c.ticks, PastOf(e), Tick(f, c.db.now, [], ReadRate));
    case JoinStep(i, o) => if i < |c.joins| { assert StepJoin(c, i, o).ticks == c.ticks; }
    case _ => assert Quiet(c, a).ticks == c.ticks;
  }

  lemma PastAfter(c: Core, i: nat, o: Outcome, e: EventId, rate: int)
    requires rate > 0 && i < |c.ticks| && AtRate(c.ticks[i], e, rate)
    requires Uncapped(c, TickStep(i, o), e, rate) && Pulls(c, TickStep(i, o), e)
    ensures PastOf(e)(TickAfter(c.db, c.hist, c.defaultRate, c.ticks[i], o)) ==
            PastOf(e)(c.ticks[i]) + if Pops(c, TickStep(i, o), e) then 1 else 0
  {
  }

  lemma {:induction false} PullingIsUncapped(s: Site, acts: seq<Act>, e: EventId, rate: int)
    requires Along(s, acts, (x: Site, a: Act) => PullingStep(x, a, e, rate))
    ensures Along(s, acts, (x: Site, a: Act) => UncappedStep(x, a, e, rate))
  {
    if acts != [] {
      PullingIsUncapped(s, acts[..|acts| - 1], e, rate);
    }
  }

  /** Then the effective ZPOPMINs are exactly the ticks: each tick of e pops one batch. */
  lemma {:induction false} TicksArePops(s: Site, acts: seq<Act>, e: EventId, rate: int)
    requires rate > 0 && AllAtRate(s.core, e, rate) && Along(s, acts, (x: Site, a: Act) => PullingStep(x, a, e, rate))
    ensures PopCount(s, acts, e) == TicksOf(Run(s, acts).core, e) - TicksOf(s.core, e)
  {
    if acts != [] {
      var n := |acts| - 1;
      TicksArePops(s, acts[..n], e, rate);
      PullingIsUncapped(s, acts[..n], e, rate);
      RateKept(s, acts[..n], e, rate);
      assert PullingStep(Run(s, acts[..n]), acts[n], e, rate);
      if acts[n].Queue? {
        TicksStep(Run(s, acts[..n]).core, acts[n].action, e, rate);
      }
    } else {
      assert PopCount(s, acts, e) == 0;
    }
  }

  /** In ticks: the ticket of rank r is popped by tick floor(r / rate) + 1. */
  lemma PoppedOnTick(s: Site, acts: seq<Act>, more: seq<Act>, e: EventId, t: TicketId, rate: nat)
    requires Start(s) && rate > 0 && AllAtRate(Run(s, acts).core, e, rate)
    requires Along(Run(s, acts), more, (x: Site, a: Act) => PacedStep(x, a, e, t, rate))
    requires Along(Run(s, acts), more, (x: Site, a: Act) => PullingStep(x, a, e, rate))
    requires Has(ListAt(Run(s, acts).core.db.queues, e), t)
    ensures var before, after := Run(s, acts), Run(Run(s, acts), more);
            var rank := Rank(ListAt(before.core.db.queues, e), t);
            var ticks := TicksOf(after.core, e) - TicksOf(before.core, e);
            Has(ListAt(after.core.db.queues, e), t) <==> ticks <= rank / rate
  {
    PoppedOnExactTick(s, acts, more, e, t, rate);
    TicksArePops(Run(s, acts), more, e, rate);
  }

  /** And a queue of depth d without joins is empty exactly after ceil(d / rate) ticks. */
  lemma DrainedOnTick(s: Site, acts: seq<Act>, more: seq<Act>, e: EventId, rate: nat)
    requires Start(s) && rate > 0 && AllAtRate(Run(s, acts).core, e, rate)
    requires Along(Run(s, acts), more, (x: Site, a: Act) => DrainingStep(x, a, e, rate))
    requires Along(Run(s, acts), more, (x: Site, a: Act) => PullingStep(x, a, e, rate))
    ensures var before, after := Run(s, acts), Run(Run(s, acts), more);
            var depth, ticks := |ListAt(before.core.db.queues, e)|, TicksOf(after.core, e) - TicksOf(before.core, e);
            ListAt(after.core.db.queues, e) == [] <==> ticks >= (depth + rate - 1) / rate
  {
    DrainTime(s, acts, more, e, rate);
    TicksArePops(Run(s, acts), more, e, rate);
  }
}
