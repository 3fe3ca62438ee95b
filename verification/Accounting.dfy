/** What the active counter counts, and how many admission tokens it may be missing. */
module Accounting {
  import opened Config
  import opened Tokens
  import opened Redis
  import opened Machine
  import opened Capacity

  /** Admission tokens issued for an event. */
  function IssuedFor(issued: seq<Token>, e: EventId): nat {
    if issued == [] then 0
    else IssuedFor(issued[..|issued| - 1], e) + if issued[|issued| - 1].claims.eventId == e then 1 else 0
  }

  /** Ticks of e that hold a token whose INCR is still to come. */
  function PendingOf(e: EventId): Tick -> int {
    (t: Tick) => if t.event == e && Uncounted(t.pc) then 1 else 0
  }

  /** The counter is exactly the INCRs minus the DECRs that took effect. */
  ghost predicate ActiveOk(c: Core, e: EventId) {
    && Balanced(Number(c.db.active, e), Number(c.hist.base, e), Times(c.hist.incrs, e), Times(c.hist.decrs, e))
    && Times(c.hist.decrs, e) <= Times(c.hist.exits, e)
  }

  predicate Balanced(active: int, base: int, incrs: nat, decrs: nat) {
    active == base + incrs - decrs
  }

  /** Every token issued was counted, is about to be, or was lost to a failed INCR or a crash. */
  ghost predicate IssuedOk(c: Core, e: EventId) {
    IssuedFor(c.hist.issued, e) == Times(c.hist.incrs, e) + Times(c.hist.uncounted, e) + Sum(c.ticks, PendingOf(e))
  }

  ghost predicate CountsOk(c: Core, e: EventId) {
    ActiveOk(c, e) && IssuedOk(c, e)
  }

  lemma CountsInit(c: Core, e: EventId)
    requires Init(c)
    ensures CountsOk(c, e)
  {
  }

  ghost predicate TodoOk(t: Tick) {
    InLoop(t.pc) <==> t.todo != []
  }

  lemma CountsNext(c: Core, a: Action, e: EventId)
    requires CountsOk(c, e) && NumbersOk(c) && forall i :: 0 <= i < |c.ticks| ==> TodoOk(c.ticks[i])
    ensures CountsOk(Next(c, a), e)
  {
    match a
    case StartTick(f) => CountsStart(c, f, e);
    case TickStep(i, o) => if i < |c.ticks| { CountsTick(c, i, o, e); }
    case CrashTick(i) => if i < |c.ticks| { CountsCrash(c, i, e); }
    case JoinStep(i, o) => if i < |c.joins| { CountsSame(c, StepJoin(c, i, o), e); }
    case Exit(f, o) => if f.name != "" { CountsExit(c, f, o, e); }
    case _ => CountsSame(c, Quiet(c, a), e);
  }

  lemma CountsStart(c: Core, f: EventId, e: EventId)
    requires CountsOk(c, e)
    ensures CountsOk(Acquire(c, f), e)
  {
    SumAppend(c.ticks, PendingOf(e), Tick(f, c.db.now, [], ReadRate));
  }

  lemma CountsTick(c: Core, i: nat, o: Outcome, e: EventId)
    requires CountsOk(c, e) && NumbersOk(c) && i < |c.ticks| && TodoOk(c.ticks[i])
    ensures CountsOk(StepTick(c, i, o), e)
  {
    ActiveTick(c, i, o, e);
    IssuedTick(c, i, o, e);
  }

  lemma CountsSame(c: Core, d: Core, e: EventId)
    requires CountsOk(c, e) && d.ticks == c.ticks && d.db.active == c.db.active && d.hist.base == c.hist.base
    requires d.hist.incrs == c.hist.incrs && d.hist.decrs == c.hist.decrs && d.hist.exits == c.hist.exits
    requires d.hist.uncounted == c.hist.uncounted && d.hist.issued == c.hist.issued
    ensures CountsOk(d, e)
  {
  }

  lemma CountsCrash(c: Core, i: nat, e: EventId)
    requires CountsOk(c, e) && i < |c.ticks|
    ensures CountsOk(Crash(c, i), e)
  {
    SumUpdate(c.ticks, PendingOf(e), i, c.ticks[i].(todo := [], pc := Done));
  }

  lemma CountsExit(c: Core, f: EventId, o: Outcome, e: EventId)
    requires CountsOk(c, e) && NumbersOk(c)
    ensures CountsOk(StepExit(c, f, o), e)
  {
    var d := StepExit(c, f, o);
    assert d.ticks == c.ticks && d.hist.issued == c.hist.issued && d.hist.incrs == c.hist.incrs
           && d.hist.uncounted == c.hist.uncounted;
    ActiveExit(c, f, o, e);
  }

  lemma ActiveExit(c: Core, f: EventId, o: Outcome, e: EventId)
    requires ActiveOk(c, e) && Int64(Number(c.db.active, f))
    ensures ActiveOk(StepExit(c, f, o), e)
  {
    Bumped(c.hist.exits, f, e);
    if o != Failed && Number(c.db.active, f) > INT64_MIN {
      ExitCounted(c, f, o);
      Bumped(c.hist.decrs, f, e);
      NumberAdded(c.db, f, -1, e);
    }
  }

  lemma ExitCounted(c: Core, f: EventId, o: Outcome)
    requires o != Failed && INT64_MIN < Number(c.db.active, f) <= INT64_MAX
    ensures var d := StepExit(c, f, o);
            && d.db.active == AddActive(c.db, f, -1).active && d.hist.decrs == Bump(c.hist.decrs, f)
            && d.hist.exits == Bump(c.hist.exits, f) && d.hist.base == c.hist.base && d.hist.incrs == c.hist.incrs
  {
  }

  lemma Bumped(m: map<EventId, nat>, f: EventId, e: EventId)
    ensures Times(Bump(m, f), e) == Times(m, e) + if e == f then 1 else 0
  {
  }

  lemma NumberAdded(db: Db, f: EventId, d: int, e: EventId)
    ensures Number(AddActive(db, f, d).active, e) == Number(db.active, e)
            + if e == f && Int64(Number(db.active, f) + d) then d else 0
  {
  }

  lemma ActiveTick(c: Core, i: nat, o: Outcome, e: EventId)
    requires ActiveOk(c, e) && NumbersOk(c) && i < |c.ticks|
    ensures ActiveOk(StepTick(c, i, o), e)
  {
    var t, d := c.ticks[i], StepTick(c, i, o);
    if t.pc.Count? {
      CountGrows(c.db, c.hist, i, t, o, e);
    } else {
      assert d.db.active == c.db.active && d.hist.incrs == c.hist.incrs;
    }
  }

  /** The counter grows exactly when the INCR is recorded as done. */
  lemma CountGrows(db: Db, h: History, i: nat, t: Tick, o: Outcome, e: EventId)
    requires t.pc.Count? && forall f :: f in db.active ==> Int64(db.active[f])
    ensures var r := TickHist(db, h, i, t, o);
            && Number(if o == Failed then db.active else TickDb(db, t).active, e) - Number(db.active, e)
               == Times(r.incrs, e) - Times(h.incrs, e)
            && (t.event == e ==>
               Times(r.incrs, e) + Times(r.uncounted, e) == Times(h.incrs, e) + Times(h.uncounted, e) + 1)
            && (t.event != e ==>
               Times(r.incrs, e) == Times(h.incrs, e) && Times(r.uncounted, e) == Times(h.uncounted, e))
  {
    Bumped(h.incrs, t.event, e);
    Bumped(h.uncounted, t.event, e);
    NumberAdded(db, t.event, 1, e);
  }

  lemma IssuedTick(c: Core, i: nat, o: Outcome, e: EventId)
    requires IssuedOk(c, e) && NumbersOk(c) && i < |c.ticks| && TodoOk(c.ticks[i])
    ensures IssuedOk(StepTick(c, i, o), e)
  {
    var t := c.ticks[i];
    var after := TickAfter(c.db, c.hist, c.defaultRate, t, o);
    SumUpdate(c.ticks, PendingOf(e), i, after);
    PendingAfter(c.db, c.hist, c.defaultRate, t, o);
    IssuedGrows(c.db, c.hist, i, t, o, e);
    if t.pc.Count? {
      CountGrows(c.db, c.hist, i, t, o, e);
    }
  }

  lemma IssuedGrows(db: Db, h: History, i: nat, t: Tick, o: Outcome, e: EventId)
    requires TodoOk(t)
    ensures IssuedFor(TickHist(db, h, i, t, o).issued, e) == IssuedFor(h.issued, e)
            + if t.pc.Issue? && o == Ok && t.event == e then 1 else 0
  {
    if t.pc.Issue? && o == Ok {
      assert TickHist(db, h, i, t, o).issued == h.issued + [NewToken(db, h, t)];
      IssuedAppend(h.issued, NewToken(db, h, t), e);
    }
  }

  lemma IssuedAppend(issued: seq<Token>, token: Token, e: EventId)
    ensures IssuedFor(issued + [token], e) == IssuedFor(issued, e) + if token.claims.eventId == e then 1 else 0
  {
    assert (issued + [token])[..|issued|] == issued;
  }

  /** A tick starts to owe an INCR when it issues a token and stops when it attempts the INCR. */
  lemma PendingAfter(db: Db, h: History, defaultRate: int, t: Tick, o: Outcome)
    requires TodoOk(t)
    ensures Uncounted(TickAfter(db, h, defaultRate, t, o).pc) <==> t.pc.Store? || (t.pc.Issue? && o == Ok)
  {
  }

  /** Tokens waiting for their INCR are among the INCRs the running ticks may still perform. */
  lemma {:induction false} PendingIsReserved(ticks: seq<Tick>, e: EventId, cap: int)
    requires forall i :: 0 <= i < |ticks| ==> TodoOk(ticks[i])
    ensures Sum(ticks, PendingOf(e)) <= Sum(ticks, ReserveOf(e, cap))
  {
    if ticks != [] {
      assert TodoOk(ticks[|ticks| - 1]);
      PendingIsReserved(ticks[..|ticks| - 1], e, cap);
    }
  }
}
