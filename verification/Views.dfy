/** What the admin endpoints and the status endpoint report, against what the scheduler does. */
module Views {
  import opened Config
  import opened Tokens
  import opened Redis
  import opened Machine
  import opened Capacity
  import opened Site
  import opened Runs
  import opened Pace
  import opened Guarantees

  /** GetConfig's reply, its reads taken at one instant. */
  datatype ConfigView = ConfigView(queueDepth: nat, activeUsers: int, admitRate: int, capacity: int,
    estimatedDrainSec: int)

  /** A missing or zero rate is reported as the default. */
  function ReportedRate(db: Db, e: EventId, defaultRate: int): int {
    if Number(db.rate, e) == 0 then defaultRate else Number(db.rate, e)
  }

  /** Go's arithmetic wraps; a depth is never negative, so its division truncates downwards. */
  function GetConfig(db: Db, e: EventId, defaultRate: int): ConfigView {
    var depth, rate := |ListAt(db.queues, e)|, ReportedRate(db, e, defaultRate);
    ConfigView(depth, Number(db.active, e), rate, Number(db.capacity, e),
               if rate > 0 then Wrap64(depth / rate * 60) else -1)
  }

  // ------------------------------------------------------------------ where the numbers come from

  /** What a step writes to e's rate or capacity; UpdateRate sends no number that is not positive. */
  function Writes(a: Act, e: EventId, isRate: bool): Option<int> {
    match a
    case Queue(SetRate(x, n)) => if isRate && x == e && 0 < n <= INT64_MAX then Some(n) else None
    case Queue(SetCapacity(x, n)) => if !isRate && x == e && 0 < n <= INT64_MAX then Some(n) else None
    case _ => None
  }

  /** The number that the run wrote last. */
  function LastWritten(acts: seq<Act>, e: EventId, isRate: bool): Option<int> {
    if acts == [] then None
    else
      var written := Writes(acts[|acts| - 1], e, isRate);
      if written.Some? then written else LastWritten(acts[..|acts| - 1], e, isRate)
  }

  function Stored(db: Db, e: EventId, isRate: bool): Option<int> {
    var m := if isRate then db.rate else db.capacity;
    if e in m then Some(m[e]) else None
  }

  lemma WritesOfStep(x: Site, a: Act, e: EventId, isRate: bool)
    ensures var written := Writes(a, e, isRate);
            Stored(Step(x, a).core.db, e, isRate) == if written.Some? then written else Stored(x.core.db, e, isRate)
  {
  }

  lemma {:induction false} LastIsStored(s: Site, acts: seq<Act>, e: EventId, isRate: bool)
    requires Start(s)
    ensures Stored(Run(s, acts).core.db, e, isRate) == LastWritten(acts, e, isRate)
    ensures Run(s, acts).core.defaultRate == s.core.defaultRate
  {
    if acts != [] {
      var n := |acts| - 1;
      LastIsStored(s, acts[..n], e, isRate);
      WritesOfStep(Run(s, acts[..n]), acts[n], e, isRate);
    }
  }

  /**
   Each number of GetConfig is the one it is named for: the active users are the initial counter plus the INCRs minus
   the DECRs of the run, the capacity is the one written last, or none, and the rate is the one written last, or the
   default.
   */
  lemma ConfigShows(s: Site, acts: seq<Act>, e: EventId)
    requires Start(s)
    ensures var c, base := Run(s, acts).core, Number(s.core.db.active, e);
            var view := GetConfig(c.db, e, c.defaultRate);
            var rate, capacity := LastWritten(acts, e, true), LastWritten(acts, e, false);
            && view.activeUsers == base + Times(c.hist.incrs, e) - Times(c.hist.decrs, e)
            && view.capacity == (if capacity.Some? then capacity.value else 0)
            && view.admitRate == (if rate.Some? then rate.value else s.core.defaultRate)
  {
    BooksBalance(s, acts, e);
    LastIsStored(s, acts, e, true);
    LastIsStored(s, acts, e, false);
    LastIsPositive(acts, e, true);
  }

  lemma {:induction false} LastIsPositive(acts: seq<Act>, e: EventId, isRate: bool)
    ensures LastWritten(acts, e, isRate).Some? ==> LastWritten(acts, e, isRate).value > 0
  {
    if acts != [] {
      LastIsPositive(acts[..|acts| - 1], e, isRate);
    }
  }

  /** The flag of QueueStatusPoll. */
  predicate Constrained(db: Db, e: EventId) {
    NoHeadroom(Number(db.capacity, e), Number(db.active, e))
  }

  predicate NoHeadroom(capacity: int, active: int) {
    capacity > 0 && Wrap64(capacity - active) <= 0
  }

  /** The three reads of tick i, none of them failing and nothing in between. */
  function AfterReads(c: Core, i: nat): Core
    requires i < |c.ticks|
  {
    StepTick(StepTick(StepTick(c, i, Ok), i, Ok), i, Ok)
  }

  /** The reported rate is the one tick i uses, and the flag is up exactly if a tick that reads now pops nothing. */
  ghost predicate Agree(c: Core, e: EventId, i: nat)
    requires i < |c.ticks|
  {
    var rate := GetConfig(c.db, e, c.defaultRate).admitRate;
    var headroom := Number(c.db.capacity, e) - Number(c.db.active, e);
    && StepTick(c, i, Ok).ticks[i].pc == (if rate == 0 then Release else ReadActive(rate))
    && (rate != 0 ==>
          && (Constrained(c.db, e) <==> AfterReads(c, i).ticks[i].pc == Release)
          && (!Constrained(c.db, e) ==>
                AfterReads(c, i).ticks[i].pc ==
                Pop(if Number(c.db.capacity, e) > 0 then Min(rate, headroom) else rate)))
  }

  /**
   In every reachable state the reported rate is the one a tick uses, and, for a nonzero rate, the constrained flag is
   up exactly when a tick that reads now skips its ZPOPMIN; otherwise it asks for min(rate, headroom).
   */
  lemma ViewsAgreeWithScheduler(s: Site, acts: seq<Act>, e: EventId, i: nat)
    requires Start(s) && i < |Run(s, acts).core.ticks| && Run(s, acts).core.ticks[i].pc == ReadRate
    requires Run(s, acts).core.ticks[i].event == e
    ensures Agree(Run(s, acts).core, e, i)
  {
    AlwaysOk(s, acts);
    ViewsAgree(Run(s, acts).core, e, i);
  }

  lemma ViewsAgree(c: Core, e: EventId, i: nat)
    requires NumbersOk(c) && i < |c.ticks| && c.ticks[i].pc == ReadRate && c.ticks[i].event == e
    ensures Agree(c, e, i)
  {
    if ReportedRate(c.db, e, c.defaultRate) != 0 {
      ReadsSettle(c, e, i);
    }
    if Number(c.db.capacity, e) > 0 {
      HeadroomExact(Number(c.db.capacity, e), Number(c.db.active, e));
    }
  }

  lemma ReadsSettle(c: Core, e: EventId, i: nat)
    requires i < |c.ticks| && c.ticks[i].pc == ReadRate && c.ticks[i].event == e
    requires ReportedRate(c.db, e, c.defaultRate) != 0 && (e in c.db.rate ==> c.db.rate[e] != 0)
    ensures |AfterReads(c, i).ticks| == |c.ticks| && AfterReads(c, i).db == c.db
    ensures AfterReads(c, i).ticks[i] ==
            var rate := ReportedRate(c.db, e, c.defaultRate);
            c.ticks[i].(pc := BatchPc(rate, Number(c.db.active, e), Number(c.db.capacity, e)))
  {
    var rate := ReportedRate(c.db, e, c.defaultRate);
    var c1 := StepTick(c, i, Ok);
    assert c1.ticks[i] == c.ticks[i].(pc := ReadActive(rate)) && c1.db == c.db;
    var c2 := StepTick(c1, i, Ok);
    assert c2.ticks[i] == c.ticks[i].(pc := ReadCapacity(rate, Number(c.db.active, e))) && c2.db == c.db;
  }

  /**
   While the counter stays within int64 of the capacity the flag means what it says: no headroom. Below that, the
   subtraction wraps, and the event counts as constrained although it is empty.
   */
  lemma ConstrainedMeansNoHeadroom(s: Site, acts: seq<Act>, e: EventId)
    requires Start(s)
    ensures var db := Run(s, acts).core.db;
            var capacity, active := Number(db.capacity, e), Number(db.active, e);
            Constrained(db, e) <==> capacity > 0 && (active >= capacity || capacity - active > INT64_MAX)
  {
    AlwaysOk(s, acts);
    ConstrainedIff(Run(s, acts).core, e);
  }

  lemma ConstrainedIff(c: Core, e: EventId)
    requires NumbersOk(c)
    ensures var capacity, active := Number(c.db.capacity, e), Number(c.db.active, e);
            Constrained(c.db, e) <==> capacity > 0 && (active >= capacity || capacity - active > INT64_MAX)
  {
    if Number(c.db.capacity, e) > 0 {
      HeadroomExact(Number(c.db.capacity, e), Number(c.db.active, e));
    }
  }

  /** The ticks that a queue of this depth needs, by the scheduler's reckoning of the rate. */
  function TicksToDrain(depth: nat, rate: nat): nat
    requires rate > 0
  {
    (depth + rate - 1) / rate
  }

  /** The drain estimate is sixty for each tick, rounded down: seconds, if a tick came once a minute. */
  lemma EstimateCountsTicks(db: Db, e: EventId, defaultRate: int)
    requires ReportedRate(db, e, defaultRate) > 0
    requires Int64(|ListAt(db.queues, e)| / ReportedRate(db, e, defaultRate) * 60)
    ensures var view := GetConfig(db, e, defaultRate);
            var exact := view.queueDepth % view.admitRate == 0;
            view.estimatedDrainSec == 60 * (TicksToDrain(view.queueDepth, view.admitRate) - if exact then 0 else 1)
  {
    CeilOrFloor(|ListAt(db.queues, e)|, ReportedRate(db, e, defaultRate));
  }

  lemma CeilOrFloor(depth: nat, rate: nat)
    requires rate > 0
    ensures TicksToDrain(depth, rate) == depth / rate + if depth % rate == 0 then 0 else 1
  {
    var q, t := depth / rate, TicksToDrain(depth, rate);
    assert depth == q * rate + depth % rate;
    DivBound(depth + rate - 1, rate, q);
    DivBound(depth + rate - 1, rate, q + 1);
    DivBound(depth + rate - 1, rate, q + 2);
    assert (q + 1) * rate == q * rate + rate && (q + 2) * rate == q * rate + 2 * rate;
  }

  /** So many ticks have used up the estimate, at sixty for each tick and one tick more if it was rounded down. */
  predicate EstimateOver(view: ConfigView, ticks: int)
    requires view.admitRate > 0
  {
    60 * ticks >= view.estimatedDrainSec + if view.queueDepth % view.admitRate == 0 then 0 else 60
  }

  lemma EstimateReached(db: Db, e: EventId, defaultRate: int, ticks: int)
    requires ReportedRate(db, e, defaultRate) > 0
    requires Int64(|ListAt(db.queues, e)| / ReportedRate(db, e, defaultRate) * 60)
    ensures var view := GetConfig(db, e, defaultRate);
            EstimateOver(view, ticks) <==> ticks >= TicksToDrain(view.queueDepth, view.admitRate)
  {
    EstimateCountsTicks(db, e, defaultRate);
  }

  /** The queue is empty exactly if enough ticks have passed for the depth it had before. */
  ghost predicate EmptyOnceTicked(before: Core, after: Core, e: EventId, rate: nat)
    requires rate > 0
  {
    var ticks := TicksOf(after, e) - TicksOf(before, e);
    ListAt(after.db.queues, e) == [] <==> ticks >= TicksToDrain(|ListAt(before.db.queues, e)|, rate)
  }

  /** The queue is empty exactly if so many ticks have passed that they used up the estimate shown before. */
  ghost predicate EmptyAsEstimated(before: Core, after: Core, e: EventId, defaultRate: int) {
    var view, ticks := GetConfig(before.db, e, defaultRate), TicksOf(after, e) - TicksOf(before, e);
    view.admitRate > 0 && (ListAt(after.db.queues, e) == [] <==> EstimateOver(view, ticks))
  }

  lemma EstimateMeansEmpty(before: Core, after: Core, e: EventId, defaultRate: int, rate: nat)
    requires rate > 0 && ReportedRate(before.db, e, defaultRate) == rate
    requires Int64(|ListAt(before.db.queues, e)| / rate * 60)
    requires EmptyOnceTicked(before, after, e, rate)
    ensures EmptyAsEstimated(before, after, e, defaultRate)
  {
    EstimateReached(before.db, e, defaultRate, TicksOf(after, e) - TicksOf(before, e));
  }

  lemma DrainedOnceTicked(s: Site, acts: seq<Act>, more: seq<Act>, e: EventId, rate: nat)
    requires Start(s) && rate > 0 && AllAtRate(Run(s, acts).core, e, rate)
    requires Along(Run(s, acts), more, (x: Site, a: Act) => DrainingStep(x, a, e, rate))
    requires Along(Run(s, acts), more, (x: Site, a: Act) => PullingStep(x, a, e, rate))
    ensures EmptyOnceTicked(Run(s, acts).core, Run(Run(s, acts), more).core, e, rate)
  {
    DrainedOnTick(s, acts, more, e, rate);
  }

  /**
   The estimate against the scheduler: an uncapped queue without joins, at the reported rate, is empty exactly when its
   ticks have used up the estimate. The tick interval does not enter the estimate.
   */
  lemma EstimateAgainstTicks(s: Site, acts: seq<Act>, more: seq<Act>, e: EventId, rate: nat)
    requires Start(s) && rate > 0 && AllAtRate(Run(s, acts).core, e, rate)
    requires Along(Run(s, acts), more, (x: Site, a: Act) => DrainingStep(x, a, e, rate))
    requires Along(Run(s, acts), more, (x: Site, a: Act) => PullingStep(x, a, e, rate))
    requires ReportedRate(Run(s, acts).core.db, e, s.core.defaultRate) == rate
    requires Int64(|ListAt(Run(s, acts).core.db.queues, e)| / rate * 60)
    ensures EmptyAsEstimated(Run(s, acts).core, Run(Run(s, acts), more).core, e, s.core.defaultRate)
  {
    DrainedOnceTicked(s, acts, more, e, rate);
    EstimateMeansEmpty(Run(s, acts).core, Run(Run(s, acts), more).core, e, s.core.defaultRate, rate);
  }
}
