/** The invariants that hold in every state of every run, without any premise. */
module Runs {
  import opened Tokens
  import opened Redis
  import opened Machine
  import opened Conservation
  import opened Fifo
  import opened Capacity
  import opened Accounting
  import opened Tickets
  import opened Origin
  import opened Redemption
  import opened Visits
  import opened Site

  ghost predicate CoreOk(c: Core) {
    && Conserved(c) && AllFifo(c) && TokensOk(c) && HashesOk(c) && ChannelOk(c) && NumbersOk(c)
    && forall e :: CountsOk(c, e)
  }

  ghost predicate SiteOk(s: Site) {
    && CoreOk(s.core) && OriginOk(s.core, s.origin)
    && forall i :: 0 <= i < |s.streams| ==> StreamOk(s.core.db.published, s.streams[i])
  }

  lemma CoreOkInit(c: Core)
    requires Init(c)
    ensures CoreOk(c)
  {
    ConservedInit(c);
    FifoInit(c);
    TokensInit(c);
    HashesInit(c);
    NumbersInit(c);
    forall e ensures CountsOk(c, e) {
      CountsInit(c, e);
    }
  }

  lemma CoreOkNext(c: Core, a: Action)
    requires CoreOk(c)
    ensures CoreOk(Next(c, a))
  {
    ConservedNext(c, a);
    FifoNext(c, a);
    TokensNext(c, a);
    HashesNext(c, a);
    ChannelNext(c, a);
    NumbersNext(c, a);
    forall e ensures CountsOk(Next(c, a), e) {
      forall i | 0 <= i < |c.ticks| ensures TodoOk(c.ticks[i]) {
        assert TicksOk(c);
      }
      CountsNext(c, a, e);
    }
  }

  /** Logs that are only ever appended to. */
  ghost predicate LogsGrow(c: Core, d: Core) {
    && d.db.now >= c.db.now
    && |c.hist.issued| <= |d.hist.issued| && d.hist.issued[..|c.hist.issued|] == c.hist.issued
    && |c.hist.issuedAt| <= |d.hist.issuedAt| && d.hist.issuedAt[..|c.hist.issuedAt|] == c.hist.issuedAt
    && |c.db.published| <= |d.db.published| && d.db.published[..|c.db.published|] == c.db.published
  }

  lemma LogsGrowNext(c: Core, a: Action)
    ensures LogsGrow(c, Next(c, a))
  {
    match a
    case StartTick(e) => assert LogsGrow(c, Acquire(c, e));
    case TickStep(i, o) => if i < |c.ticks| { LogsGrowTick(c, i, o); }
    case CrashTick(i) => if i < |c.ticks| { assert LogsGrow(c, Crash(c, i)); }
    case JoinStep(i, o) => if i < |c.joins| { assert LogsGrow(c, StepJoin(c, i, o)); }
    case _ => assert LogsGrow(c, Quiet(c, a));
  }

  lemma LogsGrowTick(c: Core, i: nat, o: Outcome)
    requires i < |c.ticks|
    ensures LogsGrow(c, StepTick(c, i, o))
  {
    IssuedOnlyGrows(c.db, c.hist, i, c.ticks[i], o);
    PublishedGrows(c.db, c.ticks[i]);
  }

  lemma IssuedOnlyGrows(db: Db, h: History, i: nat, t: Tick, o: Outcome)
    ensures var r := TickHist(db, h, i, t, o);
            && |h.issued| <= |r.issued| && r.issued[..|h.issued|] == h.issued
            && |h.issuedAt| <= |r.issuedAt| && r.issuedAt[..|h.issuedAt|] == h.issuedAt
  {
  }

  lemma PublishedGrows(db: Db, t: Tick)
    ensures var r := TickDb(db, t);
            |db.published| <= |r.published| && r.published[..|db.published|] == db.published
  {
  }

  lemma SiteOkStart(s: Site)
    requires Start(s)
    ensures SiteOk(s)
  {
    CoreOkInit(s.core);
  }

  lemma OriginOkStep(s: Site, a: Act)
    requires SiteOk(s)
    ensures OriginOk(Step(s, a).core, Step(s, a).origin)
  {
    match a
    case Queue(b) =>
      CoreOkNext(s.core, b);
      LogsGrowNext(s.core, b);
      OriginKept(s.core, Next(s.core, b), s.origin);
    case Arrive(cookie) => OriginArrive(s.core, s.origin, cookie);
    case GuardStep(i, o) => if i < |s.origin.guards| { OriginStep(s.core, s.origin, i, o); }
    case LoseGuard(i) =>
      if i < |s.origin.guards| {
        assert GuardOk(s.core, s.origin, i);
        if s.origin.guards[i].pc != Passed {
          OriginMoved(s.core, s.origin, CrashGuard(s.origin, i), i);
        }
      }
    case _ =>
  }

  lemma StreamsOkStep(s: Site, a: Act)
    requires SiteOk(s)
    ensures var d := Step(s, a);
            forall i :: 0 <= i < |d.streams| ==> StreamOk(d.core.db.published, d.streams[i])
  {
    var d := Step(s, a);
    if a.Queue? {
      LogsGrowNext(s.core, a.action);
    }
    forall i | 0 <= i < |d.streams| ensures StreamOk(d.core.db.published, d.streams[i]) {
      if i < |s.streams| {
        assert StreamOk(s.core.db.published, s.streams[i]);
        match a
        case Queue(b) => StreamLater(s.core.db.published, d.core.db.published, s.streams[i]);
        case StreamStep(j, o) => StreamStepOk(s.core, s.streams[i], o);
        case _ =>
      }
    }
  }

  lemma SiteOkStep(s: Site, a: Act)
    requires SiteOk(s)
    ensures SiteOk(Step(s, a))
  {
    if a.Queue? {
      CoreOkNext(s.core, a.action);
    }
    OriginOkStep(s, a);
    StreamsOkStep(s, a);
  }

  lemma {:induction false} StaysOk(s: Site, acts: seq<Act>)
    requires SiteOk(s)
    ensures SiteOk(Run(s, acts))
  {
    if acts != [] {
      StaysOk(s, acts[..|acts| - 1]);
      SiteOkStep(Run(s, acts[..|acts| - 1]), acts[|acts| - 1]);
    }
  }

  /** Every reachable state, with overlapping schedulers, failures, crashes and any number of visitors. */
  lemma AlwaysOk(s: Site, acts: seq<Act>)
    requires Start(s)
    ensures SiteOk(Run(s, acts))
  {
    SiteOkStart(s);
    StaysOk(s, acts);
  }

  /** Every step of the run, taken in the state it starts from, satisfies p. */
  ghost predicate Along(s: Site, acts: seq<Act>, p: (Site, Act) -> bool) {
    acts != [] ==> Along(s, acts[..|acts| - 1], p) && p(Run(s, acts[..|acts| - 1]), acts[|acts| - 1])
  }

  // ------------------------------------------------------------------ what a longer run keeps

  ghost predicate GuardStays(g: Guard, h: Guard) {
    h.cookie == g.cookie && (g.pc == Passed ==> h.pc == Passed)
  }

  /** A later state of the origin: no guard, redemption or session goes away. */
  ghost predicate OriginGrows(o: Origin, p: Origin) {
    && |o.guards| <= |p.guards| && (forall i :: 0 <= i < |o.guards| ==> GuardStays(o.guards[i], p.guards[i]))
    && |o.redeemed| <= |p.redeemed| && (forall k :: 0 <= k < |o.redeemed| ==> p.redeemed[k] == o.redeemed[k])
    && |o.sessions| <= |p.sessions| && (forall k :: 0 <= k < |o.sessions| ==> p.sessions[k] == o.sessions[k])
  }

  ghost predicate Grows(s: Site, t: Site) {
    && |s.core.ticks| <= |t.core.ticks| && s.core.db.now <= t.core.db.now && OriginGrows(s.origin, t.origin)
    && s.core.db.published <= t.core.db.published
  }

  lemma GrowsStep(s: Site, a: Act)
    ensures Grows(s, Step(s, a))
  {
    if a.Queue? {
      TicksOnlyGrow(s.core, a.action);
      LogsGrowNext(s.core, a.action);
    } else if a.GuardStep? && a.guard < |s.origin.guards| {
      GuardGrows(s.core, s.origin, a.guard, a.outcome);
    }
  }

  lemma TicksOnlyGrow(c: Core, a: Action)
    ensures |c.ticks| <= |Next(c, a).ticks|
  {
    match a
    case JoinStep(i, o) => if i < |c.joins| { assert StepJoin(c, i, o).ticks == c.ticks; }
    case StartTick(_) =>
    case TickStep(_, _) =>
    case CrashTick(_) =>
    case _ => assert Quiet(c, a).ticks == c.ticks;
  }

  lemma GuardGrows(c: Core, o: Origin, i: nat, outcome: Outcome)
    requires i < |o.guards|
    ensures OriginGrows(o, StepGuard(c, o, i, outcome))
  {
  }

  lemma GrowsOn(s: Site, t: Site, u: Site)
    requires Grows(s, t) && Grows(t, u)
    ensures Grows(s, u)
  {
  }

  /** A run that goes on only adds. */
  lemma {:induction false} RunGrows(s: Site, acts: seq<Act>, more: seq<Act>)
    requires acts <= more
    ensures Grows(Run(s, acts), Run(s, more))
    decreases |more|
  {
    if |acts| < |more| {
      var n := |more| - 1;
      RunGrows(s, acts, more[..n]);
      var next := Step(Run(s, more[..n]), more[n]);
      GrowsStep(Run(s, more[..n]), more[n]);
      GrowsOn(Run(s, acts), Run(s, more[..n]), next);
      assert Run(s, more) == next;
    } else {
      assert acts == more;
    }
  }

  /** A ticket that was admitted or dropped stays so. */
  lemma {:induction false} SettledStays(s: Site, acts: seq<Act>, more: seq<Act>, t: TicketId)
    requires Start(s) && acts <= more && Settled(Run(s, acts).core.hist.place, t)
    ensures Settled(Run(s, more).core.hist.place, t)
    ensures Run(s, more).core.hist.place[t] == Run(s, acts).core.hist.place[t]
    decreases |more|
  {
    if |acts| < |more| {
      var n := |more| - 1;
      SettledStays(s, acts, more[..n], t);
      if more[n].Queue? {
        assert Conserved(Run(s, more[..n]).core) by {
          AlwaysOk(s, more[..n]);
        }
        SettledNext(Run(s, more[..n]).core, more[n].action, t);
      }
    } else {
      assert acts == more;
    }
  }

  /** A tick that is still running has not crashed. */
  lemma {:induction false} RunningNeverCrashed(s: Site, acts: seq<Act>, more: seq<Act>, i: nat, k: nat)
    requires acts <= more && |acts| <= k < |more| && more[k] == Queue(CrashTick(i)) && i < |Run(s, acts).core.ticks|
    ensures i < |Run(s, more).core.ticks| && Run(s, more).core.ticks[i].pc == Done
    decreases |more|
  {
    var n := |more| - 1;
    var before := Run(s, more[..n]);
    assert Run(s, more) == Step(before, more[n]);
    RunGrows(s, acts, more[..n]);
    if k < n {
      RunningNeverCrashed(s, acts, more[..n], i, k);
      if more[n].Queue? {
        DoneStays(before.core, more[n].action, i);
      }
    }
  }

  lemma DoneStays(c: Core, a: Action, i: nat)
    requires i < |c.ticks| && c.ticks[i].pc == Done
    ensures i < |Next(c, a).ticks| && Next(c, a).ticks[i].pc == Done
  {
    match a
    case JoinStep(k, o) => if k < |c.joins| { assert StepJoin(c, k, o).ticks == c.ticks; }
    case StartTick(_) =>
    case TickStep(_, _) =>
    case CrashTick(_) =>
    case _ => assert Quiet(c, a).ticks == c.ticks;
  }
}
