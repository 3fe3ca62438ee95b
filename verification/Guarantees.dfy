/** The guarantees of the protocol, each over every run of the whole deployment. */
module Guarantees {
  import opened Config
  import opened Tokens
  import opened SortedSet
  import opened Redis
  import opened Machine
  import opened Conservation
  import opened Fifo
  import opened Locks
  import opened Capacity
  import opened Ceiling
  import opened Accounting
  import opened Tickets
  import opened Origin
  import opened Redemption
  import opened Site
  import opened Runs

  // ------------------------------------------------------------------ conservation and order

  ghost predicate Holds(c: Core, i: nat, e: EventId, t: TicketId) {
    i < |c.ticks| && c.ticks[i].event == e && Has(c.ticks[i].todo, t)
  }

  /**
   A ticket added to e is waiting, with one tick, admitted or dropped, and just one of these. A dropped ticket is not
   announced, but if its token was stored before its scheduler died, polling delivers it.
   */
  ghost predicate InOnePlace(c: Core, e: EventId, t: TicketId) {
    var waiting := Has(ListAt(c.db.queues, e), t);
    var held := exists i :: Holds(c, i, e, t);
    var admitted := t in c.hist.place && c.hist.place[t] == Place(e, Admitted);
    var dropped := t in c.hist.place && c.hist.place[t] == Place(e, Dropped);
    && (Has(ListAt(c.hist.joined, e), t) <==> waiting || held || admitted || dropped)
    && !(waiting && held) && !(waiting && admitted) && !(waiting && dropped)
    && !(held && admitted) && !(held && dropped) && !(admitted && dropped)
    && (forall i, j :: Holds(c, i, e, t) && Holds(c, j, e, t) ==> i == j)
  }

  /** Conservation, in every reachable state: nothing is lost, duplicated or in two places. */
  lemma TicketsConserved(s: Site, acts: seq<Act>, e: EventId, t: TicketId)
    requires Start(s)
    ensures InOnePlace(Run(s, acts).core, e, t)
  {
    AlwaysOk(s, acts);
    TicketPlaced(Run(s, acts).core, e, t);
  }

  lemma TicketPlaced(c: Core, e: EventId, t: TicketId)
    requires CoreOk(c)
    ensures InOnePlace(c, e, t)
  {
    assert QueueOk(c.db.queues, c.hist.place, e) && EventOk(c, e) && BoundOk(c.hist.place, c.hist.fieldsOf);
    forall i: nat ensures Holds(c, i, e, t) <==>
      i < |c.ticks| && c.ticks[i].event == e && At(c.hist.place, t, Place(e, Held(i))) {
      if i < |c.ticks| {
        assert HeldBy(c.hist.place, i, c.ticks[i]);
      }
    }
    if t in c.hist.place && c.hist.place[t].event == e && c.hist.place[t].stage.Held? {
      assert Holds(c, c.hist.place[t].stage.tick, e, t);
    }
  }

  /** Each ticket is popped at most once, and exactly the tickets that have left the queue were popped. */
  lemma PoppedOnce(s: Site, acts: seq<Act>, e: EventId)
    requires Start(s)
    ensures var c := Run(s, acts).core;
            var popped := ListAt(c.hist.popped, e);
            && (forall i, j :: 0 <= i < j < |popped| ==> popped[i].entry.id != popped[j].entry.id)
            && (forall x :: x in ListAt(c.hist.joined, e) ==> (x in ListAt(c.db.queues, e) <==> !WasPopped(popped, x)))
  {
    AlwaysOk(s, acts);
    var c := Run(s, acts).core;
    assert EventOk(c, e);
    forall x | x in ListAt(c.hist.joined, e) && x in ListAt(c.db.queues, e)
      ensures !WasPopped(ListAt(c.hist.popped, e), x)
    {
      HasIffIn(ListAt(c.db.queues, e), x.id);
    }
  }

  lemma NobodyOvertakes(s: Site, acts: seq<Act>, e: EventId, i: nat, a: Entry)
    requires Start(s) && i < |ListAt(Run(s, acts).core.hist.popped, e)|
    requires var h := Run(s, acts).core.hist;
             var b := ListAt(h.popped, e)[i];
             b.joinsBefore <= |ListAt(h.joined, e)| && a in ListAt(h.joined, e)[..b.joinsBefore] && Less(a, b.entry)
    ensures var popped := ListAt(Run(s, acts).core.hist.popped, e);
            exists j :: 0 <= j < i && popped[j].entry == a
  {
    AlwaysOk(s, acts);
    var c := Run(s, acts).core;
    assert EventOk(c, e);
    NoOvertaking(ListAt(c.db.queues, e), ListAt(c.hist.joined, e), ListAt(c.hist.popped, e), i, a);
  }

  lemma PopLogInScoreOrder(s: Site, acts: seq<Act>, e: EventId)
    requires Start(s)
    requires ScoresAscend(ListAt(Run(s, acts).core.hist.joined, e))
    ensures var popped := ListAt(Run(s, acts).core.hist.popped, e);
            forall i, j :: 0 <= i < j < |popped| ==> popped[i].entry.score <= popped[j].entry.score
  {
    AlwaysOk(s, acts);
    var c := Run(s, acts).core;
    assert EventOk(c, e);
    PopsInScoreOrder(ListAt(c.db.queues, e), ListAt(c.hist.joined, e), ListAt(c.hist.popped, e));
  }

  // ------------------------------------------------------------------ the lock and the ceiling

  ghost predicate PunctualStep(s: Site, a: Act) {
    a.Queue? ==> Punctual(s.core, a.action)
  }

  lemma {:induction false} LocksAlwaysOk(s: Site, acts: seq<Act>)
    requires Start(s) && Along(s, acts, PunctualStep)
    ensures LocksOk(Run(s, acts).core)
  {
    if acts == [] {
      LocksInit(s.core);
    } else {
      var n := |acts| - 1;
      LocksAlwaysOk(s, acts[..n]);
      if acts[n].Queue? {
        LocksNext(Run(s, acts[..n]).core, acts[n].action);
      }
    }
  }

  /** No two ticks of an event run at the same time, in any state of the run. */
  ghost predicate AlwaysExclusive(s: Site, acts: seq<Act>) {
    Exclusive(Run(s, acts).core) && (acts != [] ==> AlwaysExclusive(s, acts[..|acts| - 1]))
  }

  /**
   Lock exclusion, and exactly when it holds: two ticks of one event never run at the same time if and only if
   nobody asks for a lock while a tick that outlived it is still running.
   */
  lemma {:induction false} LockExclusion(s: Site, acts: seq<Act>)
    requires Start(s)
    ensures AlwaysExclusive(s, acts) <==> Along(s, acts, PunctualStep)
  {
    if acts == [] {
      LocksInit(s.core);
      OwnersAreExclusive(s.core);
    } else {
      var n := |acts| - 1;
      LockExclusion(s, acts[..n]);
      assert Run(s, acts) == Step(Run(s, acts[..n]), acts[n]);
      if Along(s, acts[..n], PunctualStep) {
        LocksAlwaysOk(s, acts[..n]);
        ExclusiveStepIff(Run(s, acts[..n]), acts[n]);
      }
    }
  }

  lemma ExclusiveStepIff(s: Site, a: Act)
    requires LocksOk(s.core)
    ensures Exclusive(Step(s, a).core) <==> PunctualStep(s, a)
  {
    if PunctualStep(s, a) {
      if a.Queue? {
        LocksNext(s.core, a.action);
      }
      OwnersAreExclusive(Step(s, a).core);
    } else {
      var i :| 0 <= i < |s.core.ticks| && InFlight(s.core.ticks[i], a.action.event) && !InTime(s.core, s.core.ticks[i]);
      OverlappedIff(s.core, a.action.event, i);
    }
  }

  /** And then every lock that disappears is removed by the DEL of the very tick that set it. */
  lemma OnlyOwnLocksDeleted(s: Site, acts: seq<Act>, a: Action, e: EventId)
    requires Start(s) && Along(s, acts, PunctualStep)
    requires e in Run(s, acts).core.db.locks && e !in Next(Run(s, acts).core, a).db.locks
    ensures var c := Run(s, acts).core;
            a.TickStep? && a.tick < |c.ticks| && c.ticks[a.tick].pc == Release && c.ticks[a.tick].event == e
            && e in c.hist.holder && c.hist.holder[e] == a.tick
            && c.db.locks[e] == c.ticks[a.tick].acquiredAt + SCHEDULER_LOCK_TTL
  {
    LocksAlwaysOk(s, acts);
    DelRemovesOwnLock(Run(s, acts).core, a, e);
  }

  /** At most k ticks of e run, at rates of at most r, and their reads succeed and see a capacity in 1..cap. */
  ghost predicate Bounded(s: Site, a: Act, e: EventId, cap: int, r: int, k: int) {
    Running(s.core, e) <= k && (a.Queue? ==> Calm(s.core, a.action, e, cap, r))
  }

  /**
   The overlap bound: with at most k ticks of an event in flight, the active counter plus every INCR still
   to come stays within the larger of its initial value and cap + (k - 1) * r.
   */
  lemma {:induction false} OverlapBound(s: Site, acts: seq<Act>, e: EventId, cap: int, r: nat, k: nat)
    requires Start(s) && k > 0
    requires Along(s, acts, (x: Site, a: Act) => Bounded(x, a, e, cap, r, k))
    ensures AllRated(Run(s, acts).core, e, r)
    ensures Load(Run(s, acts).core, e, cap) <= Max(Number(s.core.db.active, e), cap + r * (k - 1))
  {
    if acts != [] {
      var n := |acts| - 1;
      var before := Run(s, acts[..n]);
      OverlapBound(s, acts[..n], e, cap, r, k);
      AlwaysOk(s, acts[..n]);
      assert Bounded(before, acts[n], e, cap, r, k);
      if acts[n].Queue? {
        RatedNext(before.core, acts[n].action, e, cap, r);
        LoadBounded(before.core, acts[n].action, e, cap, r, k);
      }
    }
  }

  lemma LoadBounded(c: Core, a: Action, e: EventId, cap: int, r: nat, k: nat)
    requires NumbersOk(c) && AllRated(c, e, r) && Calm(c, a, e, cap, r) && Running(c, e) <= k && k > 0
    ensures Load(Next(c, a), e, cap) <= Max(Load(c, e, cap), cap + r * (k - 1))
  {
    LoadNext(c, a, e, cap, r);
    ProductGrows(r, Max(0, Running(c, e) - 1), k - 1);
  }

  lemma ProductGrows(r: nat, a: int, b: int)
    requires a <= b
    ensures r * a <= r * b
  {
  }

  /** The lock allows one tick of an event at a time. */
  lemma {:induction false} RunningAtMostOne(c: Core, n: nat, e: EventId)
    requires LocksOk(c) && n <= |c.ticks|
    ensures Sum(c.ticks[..n], RunningOf(e)) <= 1
    ensures Sum(c.ticks[..n], RunningOf(e)) == 1 ==> exists i :: 0 <= i < n && InFlight(c.ticks[i], e)
  {
    if n > 0 {
      RunningAtMostOne(c, n - 1, e);
      RunningNonNegative(c.ticks[..n - 1], e);
      assert c.ticks[..n][..n - 1] == c.ticks[..n - 1];
      if InFlight(c.ticks[n - 1], e) {
        forall i | 0 <= i < n - 1 ensures !InFlight(c.ticks[i], e) {
          AtMostOneTick(c, i, n - 1);
        }
      }
    }
  }

  /** Ticks are punctual, at rates of at most r, and their reads succeed and see a capacity in 1..cap. */
  ghost predicate Orderly(s: Site, a: Act, e: EventId, cap: int, r: int) {
    PunctualStep(s, a) && (a.Queue? ==> Calm(s.core, a.action, e, cap, r))
  }

  lemma {:induction false} OrderlyIsBounded(s: Site, acts: seq<Act>, e: EventId, cap: int, r: int)
    requires Start(s) && Along(s, acts, (x: Site, a: Act) => Orderly(x, a, e, cap, r))
    ensures Along(s, acts, PunctualStep)
    ensures Along(s, acts, (x: Site, a: Act) => Bounded(x, a, e, cap, r, 1))
  {
    if acts != [] {
      var n := |acts| - 1;
      var c := Run(s, acts[..n]).core;
      OrderlyIsBounded(s, acts[..n], e, cap, r);
      LocksAlwaysOk(s, acts[..n]);
      RunningAtMostOne(c, |c.ticks|, e);
      assert c.ticks[..|c.ticks|] == c.ticks;
    }
  }

  /** The ceiling: under the lock, active plus every INCR still to come never exceeds the capacity if reads succeed. */
  lemma ExactCeiling(s: Site, acts: seq<Act>, e: EventId, cap: int, r: nat)
    requires Start(s) && Along(s, acts, (x: Site, a: Act) => Orderly(x, a, e, cap, r))
    ensures Load(Run(s, acts).core, e, cap) <= Max(Number(s.core.db.active, e), cap)
  {
    OrderlyIsBounded(s, acts, e, cap, r);
    OverlapBound(s, acts, e, cap, r, 1);
  }

  /** Ticks are punctual, and a read of e's capacity that is answered sees a capacity in 1..cap. */
  ghost predicate SeenStep(s: Site, a: Act, e: EventId, cap: int) {
    PunctualStep(s, a) && (a.Queue? ==> Seen(s.core, a.action, e, cap))
  }

  /** No read of e goes unanswered while its tick would then ask for more than m leaves free. */
  ghost predicate WithinStep(s: Site, a: Act, e: EventId, cap: int, m: int) {
    a.Queue? ==> !Excess(s.core, a.action, e, cap, m)
  }

  /** Active plus every INCR still to come is at most m, in every state of the run. */
  ghost predicate AlwaysWithin(s: Site, acts: seq<Act>, e: EventId, cap: int, m: int) {
    Load(Run(s, acts).core, e, cap) <= m && (acts != [] ==> AlwaysWithin(s, acts[..|acts| - 1], e, cap, m))
  }

  lemma {:induction false} SeenIsPunctual(s: Site, acts: seq<Act>, e: EventId, cap: int)
    requires Along(s, acts, (x: Site, a: Act) => SeenStep(x, a, e, cap))
    ensures Along(s, acts, PunctualStep)
  {
    if acts != [] {
      SeenIsPunctual(s, acts[..|acts| - 1], e, cap);
    }
  }

  /**
   Exactly when the ceiling holds: under the lock, the load stays within m in all states of a run if and only if no
   read goes unanswered while its tick would then ask for more than m leaves free. The rates may be any.
   */
  lemma {:induction false} CeilingIff(s: Site, acts: seq<Act>, e: EventId, cap: int, m: int)
    requires Start(s) && Along(s, acts, (x: Site, a: Act) => SeenStep(x, a, e, cap))
    requires m >= Max(Number(s.core.db.active, e), cap)
    ensures AlwaysWithin(s, acts, e, cap, m) <==> Along(s, acts, (x: Site, a: Act) => WithinStep(x, a, e, cap, m))
  {
    if acts != [] {
      var n := |acts| - 1;
      assert Run(s, acts) == Step(Run(s, acts[..n]), acts[n]);
      CeilingIff(s, acts[..n], e, cap, m);
      if AlwaysWithin(s, acts[..n], e, cap, m) && acts[n].Queue? {
        assert LocksOk(Run(s, acts[..n]).core) by {
          SeenIsPunctual(s, acts[..n], e, cap);
          LocksAlwaysOk(s, acts[..n]);
        }
        assert NumbersOk(Run(s, acts[..n]).core) && TicksOk(Run(s, acts[..n]).core) by {
          AlwaysOk(s, acts[..n]);
        }
        CeilingStepIff(Run(s, acts[..n]).core, acts[n].action, e, cap, m);
      }
    }
  }

  // ------------------------------------------------------------------ one-time redemption

  ghost predicate TimelyStep(s: Site, a: Act) {
    a.GuardStep? ==> Timely(s.core, s.origin, a.guard)
  }

  /** No SETNX takes effect a full marker lifetime after its jti was redeemed. */
  ghost predicate NoLateSetNx(s: Site, a: Act) {
    a.GuardStep? && a.guard < |s.origin.guards| && s.origin.guards[a.guard].pc == Redeem && a.outcome != Failed ==>
      forall k :: 0 <= k < |s.origin.redeemed| ==> !Late(s.core, s.origin, a.guard, k)
  }

  /** Exactly when a run redeems no jti twice. */
  lemma {:induction false} RedeemedOnceIff(s: Site, acts: seq<Act>)
    requires Start(s)
    ensures OneTime(Run(s, acts).origin) <==> Along(s, acts, NoLateSetNx)
  {
    if acts != [] {
      var n := |acts| - 1;
      var before := Run(s, acts[..n]);
      assert Run(s, acts) == Step(before, acts[n]);
      RedeemedOnceIff(s, acts[..n]);
      AlwaysOk(s, acts[..n]);
      OneTimeStepIff(before, acts[n]);
    }
  }

  lemma OneTimeStepIff(s: Site, a: Act)
    requires OriginOk(s.core, s.origin)
    ensures OneTime(Step(s, a).origin) <==> OneTime(s.origin) && NoLateSetNx(s, a)
  {
    GrowsStep(s, a);
    match a
    case GuardStep(i, o) =>
      if i < |s.origin.guards| && s.origin.guards[i].pc == Redeem && OneTime(s.origin) {
        SetNxRepeatsIff(s.core, s.origin, i, o);
      }
    case _ =>
  }

  /** No jti is ever redeemed twice, for any number of guards, although the markers expire, if all guards are timely. */
  lemma {:induction false} RedeemedOnce(s: Site, acts: seq<Act>)
    requires Start(s) && Along(s, acts, TimelyStep)
    ensures Along(s, acts, NoLateSetNx) && OneTime(Run(s, acts).origin)
  {
    if acts != [] {
      var n := |acts| - 1;
      RedeemedOnce(s, acts[..n]);
      AlwaysOk(s, acts[..n]);
      TimelyIsNotLate(Run(s, acts[..n]), acts[n]);
    }
    RedeemedOnceIff(s, acts);
  }

  lemma TimelyIsNotLate(s: Site, a: Act)
    requires CoreOk(s.core) && OriginOk(s.core, s.origin) && TimelyStep(s, a)
    ensures NoLateSetNx(s, a)
  {
    if a.GuardStep? && a.guard < |s.origin.guards| && s.origin.guards[a.guard].pc == Redeem {
      TimelyFindsMarker(s.core, s.origin, a.guard);
    }
  }

  /** A SETNX takes effect only while the guard's own token is unexpired. */
  ghost predicate PromptStep(s: Site, a: Act) {
    a.GuardStep? && a.guard < |s.origin.guards| && s.origin.guards[a.guard].pc == Redeem && a.outcome != Failed ==>
      s.core.db.now < s.origin.guards[a.guard].cookie.claims.expiresAt
  }

  /** A condition that each guard can see to by itself: to redeem no token that has expired in the meantime. */
  lemma {:induction false} PromptGuardsRedeemOnce(s: Site, acts: seq<Act>)
    requires Start(s) && Along(s, acts, PromptStep)
    ensures Along(s, acts, NoLateSetNx) && OneTime(Run(s, acts).origin)
  {
    if acts != [] {
      var n := |acts| - 1;
      PromptGuardsRedeemOnce(s, acts[..n]);
      AlwaysOk(s, acts[..n]);
      PromptIsNotLate(Run(s, acts[..n]), acts[n]);
    }
    RedeemedOnceIff(s, acts);
  }

  lemma PromptIsNotLate(s: Site, a: Act)
    requires CoreOk(s.core) && OriginOk(s.core, s.origin) && PromptStep(s, a)
    ensures NoLateSetNx(s, a)
  {
    if a.GuardStep? && a.guard < |s.origin.guards| && s.origin.guards[a.guard].pc == Redeem && a.outcome != Failed {
      PromptFindsMarker(s.core, s.origin, a.guard);
    }
  }

  /** Then one token lets at most one request in. */
  lemma OneRequestPasses(s: Site, acts: seq<Act>, i: nat, j: nat)
    requires Start(s) && Along(s, acts, NoLateSetNx)
    requires i < |Run(s, acts).origin.guards| && j < |Run(s, acts).origin.guards| && i != j
    requires Run(s, acts).origin.guards[i].pc == Passed && Run(s, acts).origin.guards[j].pc == Passed
    ensures var guards := Run(s, acts).origin.guards;
            guards[i].cookie.claims.jti != guards[j].cookie.claims.jti
  {
    AlwaysOk(s, acts);
    RedeemedOnceIff(s, acts);
    PassedGuardsDiffer(Run(s, acts).core, Run(s, acts).origin, i, j);
  }

  lemma PassedGuardsDiffer(c: Core, o: Origin, i: nat, j: nat)
    requires OriginOk(c, o) && OneTime(o) && i < |o.guards| && j < |o.guards| && i != j
    requires o.guards[i].pc == Passed && o.guards[j].pc == Passed
    ensures o.guards[i].cookie.claims.jti != o.guards[j].cookie.claims.jti
  {
    assert GuardOk(c, o, i) && GuardOk(c, o, j);
    var k :| 0 <= k < |o.redeemed| && o.redeemed[k].guard == i && o.redeemed[k].jti == o.guards[i].cookie.claims.jti;
    var l :| 0 <= l < |o.redeemed| && o.redeemed[l].guard == j && o.redeemed[l].jti == o.guards[j].cookie.claims.jti;
    assert k != l;
  }

  /** One token lets in at most one of any two requests that arrive one after the other, whatever else happens. */
  lemma AdmittedOnce(s: Site, acts: seq<Act>, more: seq<Act>, i: nat, j: nat)
    requires Start(s) && acts <= more && Along(s, more, NoLateSetNx)
    requires i < |Run(s, acts).origin.guards| <= j < |Run(s, more).origin.guards|
    requires Run(s, acts).origin.guards[i].pc == Passed && Run(s, more).origin.guards[j].pc == Passed
    ensures Run(s, acts).origin.guards[i].cookie.claims.jti != Run(s, more).origin.guards[j].cookie.claims.jti
  {
    RunGrows(s, acts, more);
    assert GuardStays(Run(s, acts).origin.guards[i], Run(s, more).origin.guards[i]);
    OneRequestPasses(s, more, i, j);
  }

  // ------------------------------------------------------------------ provenance and occupancy

  /** The token a session was granted for. */
  function JtiOf(o: Origin, k: nat): nat
    requires k < |o.sessions| && o.sessions[k].redemption < |o.redeemed|
  {
    o.redeemed[o.sessions[k].redemption].jti
  }

  /**
   Every session goes back to one redemption of one admission token, issued to its ticket for its event, to
   the join that bound the ticket to that event, and to a pop of the ticket from that event's queue.
   */
  lemma SessionProvenance(s: Site, acts: seq<Act>, k: nat)
    requires Start(s) && k < |Run(s, acts).origin.sessions|
    ensures var c, o := Run(s, acts).core, Run(s, acts).origin;
            var session := o.sessions[k].token.claims;
            && o.sessions[k].redemption < |o.redeemed| && JtiOf(o, k) < |c.hist.issued| == |c.hist.issuedAt|
            && c.hist.issued[JtiOf(o, k)] ==
               IssueAdmission(session.subject, session.eventId, JtiOf(o, k), c.hist.issuedAt[JtiOf(o, k)])
            && session.subject in c.hist.fieldsOf && c.hist.fieldsOf[session.subject].eventId == session.eventId
            && exists i :: 0 <= i < |ListAt(c.hist.popped, session.eventId)|
                           && ListAt(c.hist.popped, session.eventId)[i].entry.id == session.subject
  {
    AlwaysOk(s, acts);
    var c, o := Run(s, acts).core, Run(s, acts).origin;
    assert SessionOk(c, o, o.sessions[k]) && RedemptionOk(c, o, o.redeemed[o.sessions[k].redemption]);
    IssuedShape(c, JtiOf(o, k));
    TokenMeansPopped(c, o.sessions[k].token.claims.subject, o.sessions[k].token.claims.eventId);
  }

  lemma TokenMeansPopped(c: Core, t: TicketId, e: EventId)
    requires CoreOk(c) && t in c.hist.tokenOf && t in c.hist.fieldsOf && c.hist.fieldsOf[t].eventId == e
    ensures exists i :: 0 <= i < |ListAt(c.hist.popped, e)| && ListAt(c.hist.popped, e)[i].entry.id == t
  {
    assert EventOk(c, e) && QueueOk(c.db.queues, c.hist.place, e) && TokenAt(c.hist, c.db.now, t);
    HasIffIn(ListAt(c.hist.joined, e), t);
    var x :| x in ListAt(c.hist.joined, e) && x.id == t;
    HasIffIn(ListAt(c.db.queues, e), t);
    assert !Has(ListAt(c.db.queues, e), t);
    assert WasPopped(ListAt(c.hist.popped, e), x);
  }

  /** Under one-time redemption different sessions belong to different tokens and to different tickets. */
  lemma SessionsInjectIntoPops(s: Site, acts: seq<Act>, k: nat, l: nat)
    requires Start(s) && Along(s, acts, NoLateSetNx) && k < |Run(s, acts).origin.sessions|
             && l < |Run(s, acts).origin.sessions| && k != l
    ensures var o := Run(s, acts).origin;
            && o.sessions[k].redemption < |o.redeemed| && o.sessions[l].redemption < |o.redeemed|
            && JtiOf(o, k) != JtiOf(o, l)
            && o.sessions[k].token.claims.subject != o.sessions[l].token.claims.subject
  {
    AlwaysOk(s, acts);
    RedeemedOnceIff(s, acts);
    var c, o := Run(s, acts).core, Run(s, acts).origin;
    assert SessionOk(c, o, o.sessions[k]) && SessionOk(c, o, o.sessions[l]);
    if k < l {
      assert o.sessions[k].redemption != o.sessions[l].redemption;
    } else {
      assert o.sessions[l].redemption != o.sessions[k].redemption;
    }
    IssuedShape(c, JtiOf(o, k));
    IssuedShape(c, JtiOf(o, l));
  }

  /** Sessions granted for an event. */
  function SessionsFor(sessions: seq<Session>, e: EventId): nat {
    if sessions == [] then 0
    else
      var last := sessions[|sessions| - 1].token;
      SessionsFor(sessions[..|sessions| - 1], e) + if last.claims.eventId == e then 1 else 0
  }

  /** The tokens of an event, by jti. */
  ghost function TokenSet(issued: seq<Token>, e: EventId): set<nat> {
    set j | 0 <= j < |issued| && issued[j].claims.eventId == e
  }

  lemma {:induction false} TokenSetSize(issued: seq<Token>, e: EventId)
    ensures |TokenSet(issued, e)| == IssuedFor(issued, e)
  {
    if issued != [] {
      var n := |issued| - 1;
      TokenSetSize(issued[..n], e);
      assert TokenSet(issued, e) == TokenSet(issued[..n], e) + if issued[n].claims.eventId == e then {n} else {};
    }
  }

  /** j is the jti of one of the first n sessions. */
  ghost predicate AmongJtis(o: Origin, n: nat, j: nat)
    requires n <= |o.sessions|
  {
    exists k :: 0 <= k < n && o.sessions[k].redemption < |o.redeemed| && JtiOf(o, k) == j
  }

  /** Session k of event e has one of the tokens issued for e, and none of the sessions before it has the same. */
  ghost predicate OwnToken(issued: seq<Token>, o: Origin, e: EventId, k: nat)
    requires k < |o.sessions|
  {
    o.sessions[k].token.claims.eventId == e ==>
      && o.sessions[k].redemption < |o.redeemed| && JtiOf(o, k) in TokenSet(issued, e) && !AmongJtis(o, k, JtiOf(o, k))
  }

  lemma SessionOwnsToken(c: Core, o: Origin, e: EventId, k: nat)
    requires OriginOk(c, o) && OneTime(o) && k < |o.sessions|
    ensures OwnToken(c.hist.issued, o, e, k)
  {
    assert SessionOk(c, o, o.sessions[k]);
    forall l | 0 <= l < k && o.sessions[l].redemption < |o.redeemed| ensures JtiOf(o, l) != JtiOf(o, k) {
      assert o.sessions[l].redemption != o.sessions[k].redemption;
    }
  }

  lemma AmongGrows(o: Origin, n: nat, j: nat)
    requires 0 < n <= |o.sessions| && AmongJtis(o, n - 1, j)
    ensures AmongJtis(o, n, j)
  {
  }

  lemma NewJti(issued: seq<Token>, o: Origin, n: nat, e: EventId, jtis: set<nat>)
    requires 0 < n <= |o.sessions| && OwnToken(issued, o, e, n - 1)
    requires o.sessions[n - 1].token.claims.eventId == e && forall j :: j in jtis ==> AmongJtis(o, n - 1, j)
    ensures o.sessions[n - 1].redemption < |o.redeemed|
    ensures var j := JtiOf(o, n - 1);
            j !in jtis && j in TokenSet(issued, e) && AmongJtis(o, n, j)
  {
  }

  /** The jtis behind the first n sessions of an event are as many as those sessions. */
  lemma {:induction false} SessionJtis(issued: seq<Token>, o: Origin, n: nat, e: EventId) returns (jtis: set<nat>)
    requires n <= |o.sessions| && forall k :: 0 <= k < |o.sessions| ==> OwnToken(issued, o, e, k)
    ensures |jtis| == SessionsFor(o.sessions[..n], e)
    ensures jtis <= TokenSet(issued, e) && forall j :: j in jtis ==> AmongJtis(o, n, j)
    ensures forall k :: 0 <= k < n && o.sessions[k].token.claims.eventId == e ==>
              o.sessions[k].redemption < |o.redeemed| && JtiOf(o, k) in jtis
  {
    jtis := {};
    if n > 0 {
      var before := SessionJtis(issued, o, n - 1, e);
      jtis := before;
      assert o.sessions[..n][..n - 1] == o.sessions[..n - 1];
      forall j | j in jtis ensures AmongJtis(o, n, j) {
        AmongGrows(o, n, j);
      }
      if o.sessions[n - 1].token.claims.eventId == e {
        NewJti(issued, o, n, e, before);
        jtis := before + {JtiOf(o, n - 1)};
      }
    }
  }

  /**
   End-to-end occupancy. While the ceiling holds and no SETNX comes after its marker ran out, the sessions granted for
   an event minus the exits whose DECR took effect never exceed the places free at the start plus the issued tokens
   whose INCR was lost to a failure or a crash.
   */
  lemma Occupancy(s: Site, acts: seq<Act>, e: EventId, cap: nat)
    requires Start(s) && Along(s, acts, NoLateSetNx)
    requires Along(s, acts, (x: Site, a: Act) => SeenStep(x, a, e, cap))
    requires var m := Max(Number(s.core.db.active, e), cap);
             Along(s, acts, (x: Site, a: Act) => WithinStep(x, a, e, cap, m))
    ensures var d := Run(s, acts);
            SessionsFor(d.origin.sessions, e) - Times(d.core.hist.decrs, e) <=
            Max(0, cap - Number(s.core.db.active, e)) + Times(d.core.hist.uncounted, e)
  {
    CeilingIff(s, acts, e, cap, Max(Number(s.core.db.active, e), cap));
    OccupancyIs(s, acts, e);
    PendingWithinLoad(s, acts, e, cap);
  }

  /** The tokens issued for an event that no session was granted for. */
  ghost function Unused(issued: seq<Token>, o: Origin, e: EventId): set<nat> {
    set j | j in TokenSet(issued, e) && !AmongJtis(o, |o.sessions|, j)
  }

  /** Every session of an event has an issued token of its own, and the other tokens are unused. */
  lemma SessionsAreTokens(s: Site, acts: seq<Act>, e: EventId)
    requires Start(s) && Along(s, acts, NoLateSetNx)
    ensures var c, o := Run(s, acts).core, Run(s, acts).origin;
            SessionsFor(o.sessions, e) + |Unused(c.hist.issued, o, e)| == |TokenSet(c.hist.issued, e)|
  {
    AlwaysOk(s, acts);
    RedeemedOnceIff(s, acts);
    SessionsSplitTokens(Run(s, acts).core, Run(s, acts).origin, e);
  }

  lemma SessionsSplitTokens(c: Core, o: Origin, e: EventId)
    requires OriginOk(c, o) && OneTime(o) && TokensOk(c)
    ensures SessionsFor(o.sessions, e) + |Unused(c.hist.issued, o, e)| == |TokenSet(c.hist.issued, e)|
  {
    forall k | 0 <= k < |o.sessions| ensures OwnToken(c.hist.issued, o, e, k) {
      SessionOwnsToken(c, o, e, k);
    }
    var jtis := SessionJtis(c.hist.issued, o, |o.sessions|, e);
    assert o.sessions[..|o.sessions|] == o.sessions;
    forall j | j in TokenSet(c.hist.issued, e) && AmongJtis(o, |o.sessions|, j) ensures j in jtis {
      var k := SessionOfToken(c, o, e, j);
    }
    assert Unused(c.hist.issued, o, e) == TokenSet(c.hist.issued, e) - jtis;
  }

  /** A session on a token is for the token's event. */
  lemma SessionOfToken(c: Core, o: Origin, e: EventId, j: nat) returns (k: nat)
    requires OriginOk(c, o) && j in TokenSet(c.hist.issued, e) && AmongJtis(o, |o.sessions|, j)
    ensures k < |o.sessions| && o.sessions[k].redemption < |o.redeemed| && JtiOf(o, k) == j
    ensures o.sessions[k].token.claims.eventId == e
  {
    k :| 0 <= k < |o.sessions| && o.sessions[k].redemption < |o.redeemed| && JtiOf(o, k) == j;
    assert SessionOk(c, o, o.sessions[k]);
  }

  /**
   What the occupancy is, exactly, with no premise on reads or locks: the sessions granted minus the exits that took
   effect are what the counter has grown by, plus the tokens about to be counted and those lost to the counter, minus
   the tokens nobody has used. It exceeds a capacity exactly when this sum does.
   */
  lemma OccupancyIs(s: Site, acts: seq<Act>, e: EventId)
    requires Start(s) && Along(s, acts, NoLateSetNx)
    ensures var c, o := Run(s, acts).core, Run(s, acts).origin;
            SessionsFor(o.sessions, e) - Times(c.hist.decrs, e) ==
            Number(c.db.active, e) - Number(s.core.db.active, e) + Sum(c.ticks, PendingOf(e))
            + Times(c.hist.uncounted, e) - |Unused(c.hist.issued, o, e)|
  {
    BooksBalance(s, acts, e);
    SessionsAreTokens(s, acts, e);
  }

  lemma PendingWithinLoad(s: Site, acts: seq<Act>, e: EventId, cap: int)
    requires Start(s)
    ensures var c := Run(s, acts).core;
            Number(c.db.active, e) + Sum(c.ticks, PendingOf(e)) <= Load(c, e, cap)
  {
    var c := Run(s, acts).core;
    AlwaysOk(s, acts);
    forall i | 0 <= i < |c.ticks| ensures TodoOk(c.ticks[i]) {
      assert TicksOk(c);
    }
    PendingIsReserved(c.ticks, e, cap);
  }

  /**
   The books balance in every reachable state: the counter is its initial value plus the INCRs minus the DECRs, no DECR
   without an exit request, and every token was counted, is with a tick that has yet to count it, or was lost to the
   counter.
   */
  lemma BooksBalance(s: Site, acts: seq<Act>, e: EventId)
    requires Start(s)
    ensures var c := Run(s, acts).core;
            && Number(c.db.active, e) == Number(s.core.db.active, e) + Times(c.hist.incrs, e) - Times(c.hist.decrs, e)
            && Times(c.hist.decrs, e) <= Times(c.hist.exits, e)
            && |TokenSet(c.hist.issued, e)| ==
               Times(c.hist.incrs, e) + Times(c.hist.uncounted, e) + Sum(c.ticks, PendingOf(e))
  {
    AlwaysOk(s, acts);
    BaseStays(s, acts);
    TokenSetSize(Run(s, acts).core.hist.issued, e);
    assert CountsOk(Run(s, acts).core, e);
  }

  lemma {:induction false} BaseStays(s: Site, acts: seq<Act>)
    ensures Run(s, acts).core.hist.base == s.core.hist.base
  {
    if acts != [] {
      var n := |acts| - 1;
      BaseStays(s, acts[..n]);
      if acts[n].Queue? {
        BaseNext(Run(s, acts[..n]).core, acts[n].action);
      }
    }
  }

  lemma BaseNext(c: Core, a: Action)
    ensures Next(c, a).hist.base == c.hist.base
  {
    match a
    case StartTick(e) => assert Acquire(c, e).hist.base == c.hist.base;
    case TickStep(i, o) => if i < |c.ticks| { assert StepTick(c, i, o).hist.base == c.hist.base; }
    case CrashTick(i) => if i < |c.ticks| { assert Crash(c, i).hist.base == c.hist.base; }
    case JoinStep(i, o) => if i < |c.joins| { assert StepJoin(c, i, o).hist.base == c.hist.base; }
    case _ => assert Quiet(c, a).hist.base == c.hist.base;
  }
}
