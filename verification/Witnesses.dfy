/** Runs that show which premises of the guarantees are needed, from any new deployment with a positive default rate. */
module Witnesses {
  import opened Config
  import opened Tokens
  import opened SortedSet
  import opened Redis
  import opened Machine
  import opened Origin
  import opened Site
  import opened Runs
  import opened Delivery
  import opened Visits
  import opened Visitors
  import opened Views
  import opened Guarantees

  /** All that Occupancy asks of a step, for a capacity of one. */
  ghost predicate Well(s: Site, a: Act, e: EventId, r: int) {
    Orderly(s, a, e, 1, r) && NoLateSetNx(s, a)
  }

  ghost predicate AllWell(s: Site, acts: seq<Act>, e: EventId, r: int) {
    Along(s, acts, (x: Site, a: Act) => Well(x, a, e, r))
  }

  /** The event e runs at the default rate with a capacity of one. */
  ghost predicate Tight(c: Core, e: EventId, r: int) {
    e.name != "" && c.defaultRate == r > 0 && e !in c.db.rate && e in c.db.capacity && c.db.capacity[e] == 1
  }

  /** The books the witnesses look at. */
  ghost predicate SameBooks(h: History, k: History) {
    k.issued == h.issued && k.issuedAt == h.issuedAt && k.uncounted == h.uncounted && k.decrs == h.decrs
  }

  /** Only the queue side has changed. */
  ghost predicate OnlyCore(x: Site, y: Site) {
    y == x.(core := y.core)
  }

  lemma Extend(s: Site, acts: seq<Act>, a: Act, e: EventId, r: int) returns (more: seq<Act>)
    requires AllWell(s, acts, e, r) && Well(Run(s, acts), a, e, r)
    ensures AllWell(s, more, e, r) && Run(s, more) == Step(Run(s, acts), a)
  {
    more := acts + [a];
    assert more[..|acts|] == acts;
  }

  lemma ExtendQueue(s: Site, acts: seq<Act>, a: Action, e: EventId, r: int) returns (more: seq<Act>)
    requires AllWell(s, acts, e, r) && Tight(Run(s, acts).core, e, r)
    requires a.TickStep? ==> a.outcome == Ok
    requires a.StartTick? ==> forall i :: 0 <= i < |Run(s, acts).core.ticks| ==> Run(s, acts).core.ticks[i].pc == Done
    ensures AllWell(s, more, e, r)
    ensures Run(s, more) == Run(s, acts).(core := Next(Run(s, acts).core, a))
  {
    more := Extend(s, acts, Queue(a), e, r);
  }

  // ------------------------------------------------------------------ a ticket joins

  lemma JoinCore(c: Core, e: EventId, id: TicketId)
    requires e.name != "" && id !in c.hist.ids && id !in c.db.hashes
    ensures var i := |c.joins|;
            var c1 := Next(c, StartJoin(e, id, 0));
            var c2 := Next(c1, JoinStep(i, Ok));
            var d := Next(c2, JoinStep(i, Ok));
            && c1.db == c.db && c1.defaultRate == c.defaultRate == c2.defaultRate == d.defaultRate
            && c2.db.rate == c.db.rate && c2.db.capacity == c.db.capacity
            && d.db == c.db.(queues := c.db.queues[e := Insert(ListAt(c.db.queues, e), Entry(c.db.now, id))],
                             hashes := c.db.hashes[id := Hash(Some(JoinFields(id, e, c.db.now, 0)), None, None)])
            && d.ticks == c.ticks && d.hist.ids == c.hist.ids + {id} && SameBooks(c.hist, d.hist)
            && d.joins == c.joins + [Join(e, id, c.db.now, 0, SetExpiry)]
  {
    var i := |c.joins|;
    var c1 := Next(c, StartJoin(e, id, 0));
    assert c1.joins[i] == Join(e, id, c.db.now, 0, Add) && c1.db == c.db;
    var c2 := Next(c1, JoinStep(i, Ok));
    assert c2.joins[i] == Join(e, id, c.db.now, 0, Fill) && c2.db.hashes == c.db.hashes;
  }

  lemma AddTicket(s: Site, acts: seq<Act>, e: EventId, r: int, id: TicketId) returns (more: seq<Act>)
    requires AllWell(s, acts, e, r) && Tight(Run(s, acts).core, e, r)
    requires id !in Run(s, acts).core.hist.ids && id !in Run(s, acts).core.db.hashes
    ensures AllWell(s, more, e, r) && Tight(Run(s, more).core, e, r) && OnlyCore(Run(s, acts), Run(s, more))
    ensures var c, d := Run(s, acts).core, Run(s, more).core;
            && d.db == c.db.(queues := c.db.queues[e := Insert(ListAt(c.db.queues, e), Entry(c.db.now, id))],
                             hashes := c.db.hashes[id := Hash(Some(JoinFields(id, e, c.db.now, 0)), None, None)])
            && d.ticks == c.ticks && d.hist.ids == c.hist.ids + {id} && SameBooks(c.hist, d.hist)
            && d.joins == c.joins + [Join(e, id, c.db.now, 0, SetExpiry)]
  {
    var i := |Run(s, acts).core.joins|;
    JoinCore(Run(s, acts).core, e, id);
    more := ExtendQueue(s, acts, StartJoin(e, id, 0), e, r);
    more := ExtendQueue(s, more, JoinStep(i, Ok), e, r);
    more := ExtendQueue(s, more, JoinStep(i, Ok), e, r);
  }

  // ------------------------------------------------------------------ a tick issues a token

  lemma ReadCore(c: Core, e: EventId, r: int)
    requires Tight(c, e, r) && !Locked(c.db, e) && Number(c.db.active, e) == 0
    ensures var i := |c.ticks|;
            var c1 := Next(c, StartTick(e));
            var c2 := Next(c1, TickStep(i, Ok));
            var c3 := Next(c2, TickStep(i, Ok));
            var d := Next(c3, TickStep(i, Ok));
            && Tight(c1, e, r) && Tight(c2, e, r) && Tight(c3, e, r) && Tight(d, e, r)
            && d.ticks == c.ticks + [Tick(e, c.db.now, [], Pop(1))] && d.db == SetNxLock(c.db, e)
            && d.hist.ids == c.hist.ids && SameBooks(c.hist, d.hist)
  {
    var i := |c.ticks|;
    var c1 := Next(c, StartTick(e));
    assert c1.ticks[i] == Tick(e, c.db.now, [], ReadRate);
    var c2 := Next(c1, TickStep(i, Ok));
    assert c2.ticks[i] == Tick(e, c.db.now, [], ReadActive(r)) && c2.db == c1.db;
    var c3 := Next(c2, TickStep(i, Ok));
    assert c3.ticks[i] == Tick(e, c.db.now, [], ReadCapacity(r, 0)) && c3.db == c1.db;
    var d := Next(c3, TickStep(i, Ok));
    assert d.ticks[i] == Tick(e, c.db.now, [], Pop(1)) && d.db == c1.db;
    assert d.ticks == c.ticks + [Tick(e, c.db.now, [], Pop(1))];
  }

  lemma PopCore(c: Core, e: EventId, r: int, i: nat)
    requires Tight(c, e, r) && i < |c.ticks| && c.ticks[i].pc == Pop(1) && c.ticks[i].event == e
    requires ListAt(c.db.queues, e) != []
    ensures var c1 := Next(c, TickStep(i, Ok));
            var d := Next(c1, TickStep(i, Ok));
            var x := ListAt(c.db.queues, e)[0];
            var token := IssueAdmission(x.id, e, |c.hist.issued|, c.db.now);
            && Tight(c1, e, r) && Tight(d, e, r)
            && d.ticks == c.ticks[i := c.ticks[i].(todo := [x], pc := Store(token))]
            && d.db == c.db.(queues := c.db.queues[e := ListAt(c.db.queues, e)[1..]])
            && d.hist.issued == c.hist.issued + [token] && d.hist.issuedAt == c.hist.issuedAt + [c.db.now]
            && d.hist.ids == c.hist.ids && d.hist.uncounted == c.hist.uncounted && d.hist.decrs == c.hist.decrs
  {
    var c1 := Next(c, TickStep(i, Ok));
    assert Batch(c.db, c.ticks[i]) == [ListAt(c.db.queues, e)[0]];
    assert c1.ticks[i] == c.ticks[i].(todo := [ListAt(c.db.queues, e)[0]], pc := Issue);
  }

  /** With one place free, a tick issues a token to the first in line and stands before its HSET. */
  lemma IssueOne(s: Site, acts: seq<Act>, e: EventId, r: int) returns (more: seq<Act>)
    requires AllWell(s, acts, e, r) && Tight(Run(s, acts).core, e, r)
    requires !Locked(Run(s, acts).core.db, e) && Number(Run(s, acts).core.db.active, e) == 0
    requires forall i :: 0 <= i < |Run(s, acts).core.ticks| ==> Run(s, acts).core.ticks[i].pc == Done
    requires ListAt(Run(s, acts).core.db.queues, e) != []
    ensures AllWell(s, more, e, r) && Tight(Run(s, more).core, e, r) && OnlyCore(Run(s, acts), Run(s, more))
    ensures var c, d := Run(s, acts).core, Run(s, more).core;
            var x := ListAt(c.db.queues, e)[0];
            var token := IssueAdmission(x.id, e, |c.hist.issued|, c.db.now);
            && d.ticks == c.ticks + [Tick(e, c.db.now, [x], Store(token))]
            && d.db == SetNxLock(c.db, e).(queues := c.db.queues[e := ListAt(c.db.queues, e)[1..]])
            && d.hist.issued == c.hist.issued + [token] && d.hist.issuedAt == c.hist.issuedAt + [c.db.now]
            && d.hist.ids == c.hist.ids && d.hist.uncounted == c.hist.uncounted && d.hist.decrs == c.hist.decrs
  {
    more := AskForOne(s, acts, e, r);
    var i := |Run(s, acts).core.ticks|;
    PopCore(Run(s, more).core, e, r, i);
    more := ExtendQueue(s, more, TickStep(i, Ok), e, r);
    more := ExtendQueue(s, more, TickStep(i, Ok), e, r);
  }

  lemma AskForOne(s: Site, acts: seq<Act>, e: EventId, r: int) returns (more: seq<Act>)
    requires AllWell(s, acts, e, r) && Tight(Run(s, acts).core, e, r)
    requires !Locked(Run(s, acts).core.db, e) && Number(Run(s, acts).core.db.active, e) == 0
    requires forall i :: 0 <= i < |Run(s, acts).core.ticks| ==> Run(s, acts).core.ticks[i].pc == Done
    ensures AllWell(s, more, e, r) && Tight(Run(s, more).core, e, r) && OnlyCore(Run(s, acts), Run(s, more))
    ensures var c, d := Run(s, acts).core, Run(s, more).core;
            && d.ticks == c.ticks + [Tick(e, c.db.now, [], Pop(1))] && d.db == SetNxLock(c.db, e)
            && d.hist.ids == c.hist.ids && SameBooks(c.hist, d.hist)
  {
    ReadCore(Run(s, acts).core, e, r);
    var i := |Run(s, acts).core.ticks|;
    more := ExtendQueue(s, acts, StartTick(e), e, r);
    more := ExtendQueue(s, more, TickStep(i, Ok), e, r);
    more := ExtendQueue(s, more, TickStep(i, Ok), e, r);
    more := ExtendQueue(s, more, TickStep(i, Ok), e, r);
  }

  // ------------------------------------------------------------------ a request is checked and let in

  /** The token passes every check of QueueGuard and ValidateAdmission now. */
  ghost predicate Passes(c: Core, token: Token) {
    && token in c.hist.issued && token.key == AdmissionKey && WellBound(token.claims)
    && c.db.now < token.claims.expiresAt && HGetEventId(c.db, token.claims.subject) == Some(token.claims.eventId)
  }

  lemma CheckOrigin(c: Core, o: Origin, token: Token)
    requires Passes(c, token)
    ensures var i, o1 := |o.guards|, ArriveAt(c, o, token);
            && |o1.guards| == i + 1 && o1.guards[i].pc == Verify
            && var o2 := StepGuard(c, o1, i, Ok);
            && |o2.guards| == i + 1 && o2.guards[i].pc == RemoteVerify
            && var o3 := StepGuard(c, o2, i, Ok);
            && |o3.guards| == i + 1 && o3.guards[i].pc == RemoteBinding
            && var o4 := StepGuard(c, o3, i, Ok);
            && |o4.guards| == i + 1 && o4.guards[i].pc == Compare(token.claims.eventId)
            && StepGuard(c, o4, i, Ok) == o.(guards := o.guards + [Guard(token, Redeem, c.db.now)])
  {
  }

  lemma ExtendGuard(s: Site, acts: seq<Act>, a: Act, e: EventId, r: int) returns (more: seq<Act>)
    requires AllWell(s, acts, e, r) && (a.Arrive? || a.GuardStep?) && NoLateSetNx(Run(s, acts), a)
    ensures AllWell(s, more, e, r) && Run(s, more).core == Run(s, acts).core
    ensures Run(s, more).origin == StepOrigin(Run(s, acts), a)
  {
    more := Extend(s, acts, a, e, r);
  }

  /** A request with a good token stands before its SETNX. */
  lemma Check(s: Site, acts: seq<Act>, e: EventId, r: int, token: Token) returns (more: seq<Act>)
    requires AllWell(s, acts, e, r) && Passes(Run(s, acts).core, token)
    ensures AllWell(s, more, e, r) && Run(s, more).core == Run(s, acts).core
    ensures var c, o := Run(s, acts).core, Run(s, acts).origin;
            Run(s, more).origin == o.(guards := o.guards + [Guard(token, Redeem, c.db.now)])
  {
    var i := |Run(s, acts).origin.guards|;
    CheckOrigin(Run(s, acts).core, Run(s, acts).origin, token);
    more := ExtendGuard(s, acts, Arrive(token), e, r);
    more := ExtendGuard(s, more, GuardStep(i, Ok), e, r);
    more := ExtendGuard(s, more, GuardStep(i, Ok), e, r);
    more := ExtendGuard(s, more, GuardStep(i, Ok), e, r);
    more := ExtendGuard(s, more, GuardStep(i, Ok), e, r);
  }

  ghost predicate Unredeemed(o: Origin, jti: nat) {
    jti !in o.used && forall k :: 0 <= k < |o.redeemed| ==> o.redeemed[k].jti != jti
  }

  /** A good token that was not redeemed gets a session. */
  lemma LetIn(s: Site, acts: seq<Act>, e: EventId, r: int, token: Token) returns (more: seq<Act>)
    requires AllWell(s, acts, e, r) && Passes(Run(s, acts).core, token)
    requires Unredeemed(Run(s, acts).origin, token.claims.jti)
    ensures AllWell(s, more, e, r) && Run(s, more).core == Run(s, acts).core
    ensures var o, p, now := Run(s, acts).origin, Run(s, more).origin, Run(s, acts).core.db.now;
            && (forall j :: j != token.claims.jti && Unredeemed(o, j) ==> Unredeemed(p, j))
            && SessionsFor(p.sessions, token.claims.eventId) == SessionsFor(o.sessions, token.claims.eventId) + 1
  {
    var x, i := Run(s, acts), |Run(s, acts).origin.guards|;
    more := Check(s, acts, e, r, token);
    more := ExtendGuard(s, more, GuardStep(i, Ok), e, r);
    var q := Run(s, more).origin;
    assert q.guards[i].pc == Grant(|x.origin.redeemed|) && q.guards[i].cookie == token;
    assert q.redeemed == x.origin.redeemed + [Redemption(token.claims.jti, x.core.db.now, i)];
    more := ExtendGuard(s, more, GuardStep(i, Ok), e, r);
    assert Run(s, more).origin.sessions[..|x.origin.sessions|] == x.origin.sessions;
  }

  // ------------------------------------------------------------------ the witnesses

  /** A new deployment with an empty counter, and e's capacity set to one. */
  lemma Open(s: Site, e: EventId) returns (acts: seq<Act>)
    requires Start(s) && e.name != "" && s.core.defaultRate > 0 && Number(s.core.db.active, e) == 0
    ensures AllWell(s, acts, e, s.core.defaultRate) && Tight(Run(s, acts).core, e, s.core.defaultRate)
    ensures Run(s, acts).core == s.core.(db := s.core.db.(capacity := map[e := 1])) && OnlyCore(s, Run(s, acts))
  {
    assert AllWell(s, [], e, s.core.defaultRate) && Run(s, []) == s;
    acts := Extend(s, [], Queue(SetCapacity(e, 1)), e, s.core.defaultRate);
  }

  /**
   One token can be redeemed twice: two requests pass all checks, the first sets the marker, and the second comes to
   its SETNX when the marker has run out.
   */
  lemma TwiceRedeemed(s: Site, e: EventId) returns (acts: seq<Act>)
    requires Start(s) && e.name != "" && s.core.defaultRate > 0 && Number(s.core.db.active, e) == 0
    ensures var o := Run(s, acts).origin;
            |o.redeemed| == 2 && o.redeemed[0].jti == o.redeemed[1].jti && o.redeemed[0].guard != o.redeemed[1].guard
  {
    var r := s.core.defaultRate;
    acts := Open(s, e);
    acts := AddTicket(s, acts, e, r, 0);
    acts := IssueOne(s, acts, e, r);
    var token := IssueAdmission(0, e, 0, s.core.db.now);
    assert Run(s, acts).core.hist.issued == [token];
    acts := Check(s, acts, e, r, token);
    acts := Check(s, acts, e, r, token);
    var x := Run(s, acts);
    assert x.origin.guards == [Guard(token, Redeem, x.core.db.now), Guard(token, Redeem, x.core.db.now)];
    RedeemTwice(x);
    RunAppend(s, acts, GuardStep(0, Ok));
    RunAppend(s, acts + [GuardStep(0, Ok)], Queue(Advance(ADMISSION_USED_TTL)));
    RunAppend(s, acts + [GuardStep(0, Ok)] + [Queue(Advance(ADMISSION_USED_TTL))], GuardStep(1, Ok));
    acts := acts + [GuardStep(0, Ok)] + [Queue(Advance(ADMISSION_USED_TTL))] + [GuardStep(1, Ok)];
  }

  lemma RedeemTwice(x: Site)
    requires |x.origin.guards| == 2 && x.origin.guards[0] == x.origin.guards[1] && x.origin.guards[0].pc == Redeem
    requires x.origin.redeemed == [] && x.origin.used == map[]
    ensures var y := Step(x, GuardStep(0, Ok));
            var z := Step(Step(y, Queue(Advance(ADMISSION_USED_TTL))), GuardStep(1, Ok));
            var jti, now := x.origin.guards[0].cookie.claims.jti, x.core.db.now;
            z.origin.redeemed == [Redemption(jti, now, 0), Redemption(jti, now + ADMISSION_USED_TTL, 1)]
  {
    var y := Step(x, GuardStep(0, Ok));
    assert y.origin.redeemed == [Redemption(x.origin.guards[0].cookie.claims.jti, x.core.db.now, 0)];
    assert Step(y, Queue(Advance(ADMISSION_USED_TTL))).core.db.now == x.core.db.now + ADMISSION_USED_TTL;
  }

  /**
   Occupancy's bound is attained, above the capacity: a scheduler dies between a token's issue and its INCR, the place
   is given away again, and both visitors get in. All of Occupancy's premises hold.
   */
  lemma OneMoreThanCapacity(s: Site, e: EventId) returns (acts: seq<Act>)
    requires Start(s) && e.name != "" && s.core.defaultRate > 0 && Number(s.core.db.active, e) == 0
    ensures Along(s, acts, NoLateSetNx) && Along(s, acts, (x: Site, a: Act) => SeenStep(x, a, e, 1))
    ensures Along(s, acts, (x: Site, a: Act) => WithinStep(x, a, e, 1, 1))
    ensures var d := Run(s, acts);
            && SessionsFor(d.origin.sessions, e) == 2 && Times(d.core.hist.uncounted, e) == 1
            && SessionsFor(d.origin.sessions, e) - Times(d.core.hist.decrs, e) == 1 + Times(d.core.hist.uncounted, e)
  {
    var r := s.core.defaultRate;
    var first, second;
    acts, first, second := TwoTokens(s, e);
    acts := LetIn(s, acts, e, r, first);
    acts := LetIn(s, acts, e, r, second);
    WellIsWithin(s, acts, e, r);
  }

  lemma {:induction false} WellIsWithin(s: Site, acts: seq<Act>, e: EventId, r: int)
    requires AllWell(s, acts, e, r)
    ensures Along(s, acts, NoLateSetNx) && Along(s, acts, (x: Site, a: Act) => SeenStep(x, a, e, 1))
    ensures Along(s, acts, (x: Site, a: Act) => WithinStep(x, a, e, 1, 1))
  {
    if acts != [] {
      WellIsWithin(s, acts[..|acts| - 1], e, r);
    }
  }

  /** Two visitors wait for the one place. */
  lemma TwoWait(s: Site, e: EventId) returns (acts: seq<Act>)
    requires Start(s) && e.name != "" && s.core.defaultRate > 0 && Number(s.core.db.active, e) == 0
    ensures AllWell(s, acts, e, s.core.defaultRate) && Tight(Run(s, acts).core, e, s.core.defaultRate)
    ensures OnlyCore(s, Run(s, acts))
    ensures var c, now := Run(s, acts).core, s.core.db.now;
            && c.db.now == now && c.db.locks == map[] && c.db.active == s.core.db.active && c.ticks == []
            && ListAt(c.db.queues, e) == [Entry(now, 0), Entry(now, 1)]
            && c.db.hashes == map[0 := Hash(Some(JoinFields(0, e, now, 0)), None, None),
                                  1 := Hash(Some(JoinFields(1, e, now, 0)), None, None)]
            && SameBooks(s.core.hist, c.hist)
  {
    var r := s.core.defaultRate;
    acts := Open(s, e);
    acts := AddTicket(s, acts, e, r, 0);
    acts := AddTicket(s, acts, e, r, 1);
  }

  /** The first token is issued and lost to the counter, so the second one is issued as well. */
  lemma TwoTokens(s: Site, e: EventId) returns (acts: seq<Act>, first: Token, second: Token)
    requires Start(s) && e.name != "" && s.core.defaultRate > 0 && Number(s.core.db.active, e) == 0
    ensures AllWell(s, acts, e, s.core.defaultRate) && OnlyCore(s, Run(s, acts))
    ensures Passes(Run(s, acts).core, first) && Passes(Run(s, acts).core, second)
    ensures first.claims.jti != second.claims.jti && first.claims.eventId == e == second.claims.eventId
    ensures Times(Run(s, acts).core.hist.uncounted, e) == 1 && Times(Run(s, acts).core.hist.decrs, e) == 0
  {
    var r, now := s.core.defaultRate, s.core.db.now;
    acts := OneLost(s, e);
    first, second := IssueAdmission(0, e, 0, now), IssueAdmission(1, e, 1, now + SCHEDULER_LOCK_TTL);
    acts := IssueOne(s, acts, e, r);
    assert Run(s, acts).core.hist.issued == [first, second];
  }

  lemma OneLost(s: Site, e: EventId) returns (acts: seq<Act>)
    requires Start(s) && e.name != "" && s.core.defaultRate > 0 && Number(s.core.db.active, e) == 0
    ensures AllWell(s, acts, e, s.core.defaultRate) && Tight(Run(s, acts).core, e, s.core.defaultRate)
    ensures OnlyCore(s, Run(s, acts))
    ensures var c, now := Run(s, acts).core, s.core.db.now;
            && !Locked(c.db, e) && c.db.now == now + SCHEDULER_LOCK_TTL && Number(c.db.active, e) == 0
            && ListAt(c.db.queues, e) == [Entry(now, 1)]
            && c.db.hashes == map[0 := Hash(Some(JoinFields(0, e, now, 0)), None, None),
                                  1 := Hash(Some(JoinFields(1, e, now, 0)), None, None)]
            && (forall i :: 0 <= i < |c.ticks| ==> c.ticks[i].pc == Done)
            && c.hist.issued == [IssueAdmission(0, e, 0, now)]
            && Times(c.hist.uncounted, e) == 1 && Times(c.hist.decrs, e) == 0
  {
    acts := TwoWait(s, e);
    acts := LoseOne(s, acts, e, s.core.defaultRate);
  }

  /** A tick issues a token and dies; then its lock runs out. */
  lemma LoseOne(s: Site, acts: seq<Act>, e: EventId, r: int) returns (more: seq<Act>)
    requires AllWell(s, acts, e, r) && Tight(Run(s, acts).core, e, r)
    requires !Locked(Run(s, acts).core.db, e) && Number(Run(s, acts).core.db.active, e) == 0
    requires forall i :: 0 <= i < |Run(s, acts).core.ticks| ==> Run(s, acts).core.ticks[i].pc == Done
    requires ListAt(Run(s, acts).core.db.queues, e) != []
    ensures AllWell(s, more, e, r) && Tight(Run(s, more).core, e, r) && OnlyCore(Run(s, acts), Run(s, more))
    ensures var c, d := Run(s, acts).core, Run(s, more).core;
            && !Locked(d.db, e) && d.db.now == c.db.now + SCHEDULER_LOCK_TTL && d.db.active == c.db.active
            && d.db.hashes == c.db.hashes && d.db.queues == c.db.queues[e := ListAt(c.db.queues, e)[1..]]
            && (forall i :: 0 <= i < |d.ticks| ==> d.ticks[i].pc == Done)
            && d.hist.issued ==
               c.hist.issued + [IssueAdmission(ListAt(c.db.queues, e)[0].id, e, |c.hist.issued|, c.db.now)]
            && Times(d.hist.uncounted, e) == Times(c.hist.uncounted, e) + 1 && d.hist.decrs == c.hist.decrs
  {
    more := IssueOne(s, acts, e, r);
    more := LoseTick(s, more, e, r, |Run(s, acts).core.ticks|);
  }

  /** A tick dies before its HSET, and its lock runs out. */
  lemma LoseTick(s: Site, acts: seq<Act>, e: EventId, r: int, i: nat) returns (more: seq<Act>)
    requires AllWell(s, acts, e, r) && Tight(Run(s, acts).core, e, r)
    requires i < |Run(s, acts).core.ticks| && Run(s, acts).core.ticks[i].event == e
    requires Run(s, acts).core.ticks[i].pc.Store?
    ensures AllWell(s, more, e, r) && Tight(Run(s, more).core, e, r) && OnlyCore(Run(s, acts), Run(s, more))
    ensures var c, d := Run(s, acts).core, Run(s, more).core;
            && d.db == c.db.(now := c.db.now + SCHEDULER_LOCK_TTL)
            && d.ticks == c.ticks[i := c.ticks[i].(todo := [], pc := Done)]
            && d.hist.issued == c.hist.issued && d.hist.decrs == c.hist.decrs
            && Times(d.hist.uncounted, e) == Times(c.hist.uncounted, e) + 1
  {
    CrashCore(Run(s, acts).core, e, i);
    more := ExtendQueue(s, acts, CrashTick(i), e, r);
    more := ExtendQueue(s, more, Advance(SCHEDULER_LOCK_TTL), e, r);
  }

  lemma CrashCore(c: Core, e: EventId, i: nat)
    requires i < |c.ticks| && c.ticks[i].event == e && c.ticks[i].pc.Store?
    ensures var d := Next(c, CrashTick(i));
            && d.db == c.db && d.defaultRate == c.defaultRate
            && d.ticks == c.ticks[i := c.ticks[i].(todo := [], pc := Done)]
            && d.hist.issued == c.hist.issued && d.hist.decrs == c.hist.decrs
            && Times(d.hist.uncounted, e) == Times(c.hist.uncounted, e) + 1
  {
  }

  /**
   A failed read breaks the ceiling: with a capacity of one and a rate of at least two, a tick whose read of the
   capacity fails admits both visitors.
   */
  lemma CeilingBroken(s: Site, e: EventId) returns (acts: seq<Act>)
    requires Start(s) && e.name != "" && s.core.defaultRate > 1 && Number(s.core.db.active, e) == 0
    ensures Number(Run(s, acts).core.db.active, e) == 2 && Number(Run(s, acts).core.db.capacity, e) == 1
  {
    acts := AskForAll(s, e);
    acts := Admit(s, acts, e);
    acts := Admit(s, acts, e);
  }

  lemma Go(s: Site, acts: seq<Act>, a: Action) returns (more: seq<Act>)
    ensures Run(s, more) == Run(s, acts).(core := Next(Run(s, acts).core, a))
  {
    RunAppend(s, acts, Queue(a));
    more := acts + [Queue(a)];
  }

  lemma FailedReadCore(c: Core, e: EventId)
    requires Tight(c, e, c.defaultRate) && !Locked(c.db, e) && Number(c.db.active, e) == 0 && c.ticks == []
    ensures var c1 := Next(c, StartTick(e));
            var c2 := Next(c1, TickStep(0, Ok));
            var c3 := Next(c2, TickStep(0, Ok));
            var d := Next(c3, TickStep(0, Failed));
            d.ticks == [Tick(e, c.db.now, [], Pop(c.defaultRate))] && d.db == SetNxLock(c.db, e)
  {
    var r, now := c.defaultRate, c.db.now;
    var c1 := Next(c, StartTick(e));
    assert c1.ticks == [Tick(e, now, [], ReadRate)];
    var c2 := Next(c1, TickStep(0, Ok));
    assert c2.ticks == [Tick(e, now, [], ReadActive(r))] && c2.db == c1.db;
    var c3 := Next(c2, TickStep(0, Ok));
    assert c3.ticks == [Tick(e, now, [], ReadCapacity(r, 0))] && c3.db == c1.db;
    var d := Next(c3, TickStep(0, Failed));
    assert d.ticks == [Tick(e, now, [], Pop(r))] && d.db == c1.db;
  }

  lemma AskForAll(s: Site, e: EventId) returns (acts: seq<Act>)
    requires Start(s) && e.name != "" && s.core.defaultRate > 1 && Number(s.core.db.active, e) == 0
    ensures var c, now := Run(s, acts).core, s.core.db.now;
            && c.ticks == [Tick(e, now, [Entry(now, 0), Entry(now, 1)], Issue)]
            && Number(c.db.active, e) == 0 && Number(c.db.capacity, e) == 1
  {
    acts := TwoWait(s, e);
    FailedReadCore(Run(s, acts).core, e);
    acts := Go(s, acts, StartTick(e));
    acts := Go(s, acts, TickStep(0, Ok));
    acts := Go(s, acts, TickStep(0, Ok));
    acts := Go(s, acts, TickStep(0, Failed));
    PopTwoCore(Run(s, acts).core);
    acts := Go(s, acts, TickStep(0, Ok));
  }

  lemma PopTwoCore(c: Core)
    requires |c.ticks| == 1 && c.ticks[0].pc.Pop? && c.ticks[0].pc.n > 1 && |ListAt(c.db.queues, c.ticks[0].event)| == 2
    ensures var d := Next(c, TickStep(0, Ok));
            && d.ticks == [c.ticks[0].(todo := ListAt(c.db.queues, c.ticks[0].event), pc := Issue)]
            && d.db.active == c.db.active && d.db.capacity == c.db.capacity
  {
    assert Batch(c.db, c.ticks[0]) == ListAt(c.db.queues, c.ticks[0].event);
  }

  lemma AdmitCore(c: Core, e: EventId)
    requires |c.ticks| == 1 && c.ticks[0].event == e && c.ticks[0].pc == Issue && c.ticks[0].todo != []
    requires 0 <= Number(c.db.active, e) < 10
    ensures var c1 := Next(c, TickStep(0, Ok));
            var c2 := Next(c1, TickStep(0, Ok));
            var c3 := Next(c2, TickStep(0, Ok));
            var d := Next(c3, TickStep(0, Ok));
            && d.ticks == [NextMember(c.ticks[0])] && d.db.capacity == c.db.capacity
            && Number(d.db.active, e) == Number(c.db.active, e) + 1
  {
    StoreCore(c);
    CountCore(Next(Next(c, TickStep(0, Ok)), TickStep(0, Ok)), e, c.ticks[0]);
  }

  lemma StoreCore(c: Core)
    requires |c.ticks| == 1 && c.ticks[0].pc == Issue && c.ticks[0].todo != []
    ensures var d := Next(Next(c, TickStep(0, Ok)), TickStep(0, Ok));
            && d.ticks == [c.ticks[0].(pc := Count(NewToken(c.db, c.hist, c.ticks[0])))]
            && d.db.active == c.db.active && d.db.capacity == c.db.capacity
  {
    var c1 := Next(c, TickStep(0, Ok));
    assert c1.ticks == [c.ticks[0].(pc := Store(NewToken(c.db, c.hist, c.ticks[0])))] && c1.db == c.db;
  }

  lemma CountCore(c: Core, e: EventId, t: Tick)
    requires |c.ticks| == 1 && c.ticks[0].pc.Count? && c.ticks[0] == t.(pc := c.ticks[0].pc) && t.pc == Issue
    requires t.event == e && t.todo != [] && 0 <= Number(c.db.active, e) < 10
    ensures var d := Next(Next(c, TickStep(0, Ok)), TickStep(0, Ok));
            && d.ticks == [NextMember(t)] && d.db.capacity == c.db.capacity
            && Number(d.db.active, e) == Number(c.db.active, e) + 1
  {
    var c1 := Next(c, TickStep(0, Ok));
    assert c1.ticks == [c.ticks[0].(pc := Announce(c.ticks[0].pc.token))];
    assert Number(c1.db.active, e) == Number(c.db.active, e) + 1;
  }

  /** The loop's next member gets its token and is counted. */
  lemma Admit(s: Site, acts: seq<Act>, e: EventId) returns (more: seq<Act>)
    requires |Run(s, acts).core.ticks| == 1 && Run(s, acts).core.ticks[0].event == e
    requires Run(s, acts).core.ticks[0].pc == Issue && Run(s, acts).core.ticks[0].todo != []
    requires 0 <= Number(Run(s, acts).core.db.active, e) < 10
    ensures var c, d := Run(s, acts).core, Run(s, more).core;
            && d.ticks == [NextMember(c.ticks[0])] && d.db.capacity == c.db.capacity
            && Number(d.db.active, e) == Number(c.db.active, e) + 1
  {
    AdmitCore(Run(s, acts).core, e);
    more := Go(s, acts, TickStep(0, Ok));
    more := Go(s, more, TickStep(0, Ok));
    more := Go(s, more, TickStep(0, Ok));
    more := Go(s, more, TickStep(0, Ok));
  }

  /** The flag `constrained` is up although nobody is in and nobody waits: the counter went below zero. */
  lemma ConstrainedWhileEmpty(s: Site, e: EventId) returns (acts: seq<Act>)
    requires Start(s) && e.name != "" && Number(s.core.db.active, e) == 0
    ensures var db := Run(s, acts).core.db;
            Constrained(db, e) && Number(db.active, e) < 0 && ListAt(db.queues, e) == []
  {
    acts := [];
    acts := Go(s, acts, SetCapacity(e, INT64_MAX));
    acts := Go(s, acts, Exit(e, Ok));
    BelowZeroCore(s.core, e);
  }

  lemma BelowZeroCore(c: Core, e: EventId)
    requires e.name != "" && Number(c.db.active, e) == 0
    ensures var d := Next(Next(c, SetCapacity(e, INT64_MAX)), Exit(e, Ok));
            && Number(d.db.active, e) == -1 && Constrained(d.db, e) && ListAt(d.db.queues, e) == ListAt(c.db.queues, e)
  {
    var d := Next(Next(c, SetCapacity(e, INT64_MAX)), Exit(e, Ok));
    assert Number(d.db.active, e) == -1 && Number(d.db.capacity, e) == INT64_MAX;
    assert Wrap64(INT64_MAX - -1) == INT64_MIN;
  }

  /** A tick that outlives its lock is overlapped, and its DEL frees the event for a third. */
  lemma LockOverrun(s: Site, e: EventId) returns (acts: seq<Act>)
    requires Start(s) && e.name != "" && s.core.defaultRate > 0 && Number(s.core.db.active, e) == 0
    ensures var c := Run(s, acts).core;
            && |c.ticks| == 2 && InFlight(c.ticks[0], e) && InFlight(c.ticks[1], e)
            && Locked(c.db, e) && e in c.hist.holder && c.hist.holder[e] == 1
            && !Locked(Next(c, TickStep(0, Ok)).db, e)
  {
    var r := s.core.defaultRate;
    acts := Open(s, e);
    acts := AskForOne(s, acts, e, r);
    assert Batch(Run(s, acts).core.db, Run(s, acts).core.ticks[0]) == [];
    acts := ExtendQueue(s, acts, TickStep(0, Ok), e, r);
    assert Run(s, acts).core.ticks == [Tick(e, s.core.db.now, [], Release)];
    OverrunCore(Run(s, acts).core, e);
    acts := Go(s, acts, Advance(SCHEDULER_LOCK_TTL));
    acts := Go(s, acts, StartTick(e));
  }

  lemma OverrunCore(c: Core, e: EventId)
    requires |c.ticks| == 1 && c.ticks[0].event == e && c.ticks[0].pc == Release
    requires e in c.db.locks && c.db.locks[e] <= c.db.now + SCHEDULER_LOCK_TTL
    ensures var d := Next(Next(c, Advance(SCHEDULER_LOCK_TTL)), StartTick(e));
            && |d.ticks| == 2 && InFlight(d.ticks[0], e) && InFlight(d.ticks[1], e)
            && Locked(d.db, e) && e in d.hist.holder && d.hist.holder[e] == 1
            && !Locked(Next(d, TickStep(0, Ok)).db, e)
  {
  }

  // ------------------------------------------------------------------ tickets that outlive their hash, or have none

  lemma ExpireCore(c: Core, e: EventId, r: int, i: nat, id: TicketId)
    requires Tight(c, e, r) && i < |c.joins| && c.joins[i].pc == SetExpiry && c.joins[i].id == id
    ensures var d := Next(c, JoinStep(i, Ok));
            && Tight(d, e, r) && d.db == Redis.Expire(c.db, id, TICKET_KEY_TTL)
            && d.ticks == c.ticks && SameBooks(c.hist, d.hist)
  {
  }

  lemma ExpireTicket(s: Site, acts: seq<Act>, e: EventId, r: int, i: nat, id: TicketId) returns (more: seq<Act>)
    requires AllWell(s, acts, e, r) && Tight(Run(s, acts).core, e, r)
    requires i < |Run(s, acts).core.joins| && Run(s, acts).core.joins[i].pc == SetExpiry
    requires Run(s, acts).core.joins[i].id == id
    ensures AllWell(s, more, e, r) && Tight(Run(s, more).core, e, r) && OnlyCore(Run(s, acts), Run(s, more))
    ensures var c, d := Run(s, acts).core, Run(s, more).core;
            d.db == Redis.Expire(c.db, id, TICKET_KEY_TTL) && d.ticks == c.ticks && SameBooks(c.hist, d.hist)
  {
    ExpireCore(Run(s, acts).core, e, r, i, id);
    more := ExtendQueue(s, acts, JoinStep(i, Ok), e, r);
  }

  /** A ticket with a complete hash. */
  lemma AddWholeTicket(s: Site, acts: seq<Act>, e: EventId, r: int, id: TicketId) returns (more: seq<Act>)
    requires AllWell(s, acts, e, r) && Tight(Run(s, acts).core, e, r)
    requires id !in Run(s, acts).core.hist.ids && id !in Run(s, acts).core.db.hashes
    ensures AllWell(s, more, e, r) && Tight(Run(s, more).core, e, r) && OnlyCore(Run(s, acts), Run(s, more))
    ensures var c, d := Run(s, acts).core, Run(s, more).core;
            && d.db == c.db.(queues := c.db.queues[e := Insert(ListAt(c.db.queues, e), Entry(c.db.now, id))],
                             hashes := d.db.hashes)
            && HasWholeHash(d.db, id, e, c.db.now) && d.ticks == c.ticks && SameBooks(c.hist, d.hist)
  {
    var i := |Run(s, acts).core.joins|;
    more := AddTicket(s, acts, e, r, id);
    HashCompleted(Run(s, more).core.db, id, e, Run(s, acts).core.db.now);
    more := ExpireTicket(s, more, e, r, i, id);
  }

  ghost predicate HasWholeHash(db: Db, id: TicketId, e: EventId, joined: Time) {
    id in db.hashes && db.hashes[id] == Hash(Some(JoinFields(id, e, joined, 0)), None, Some(joined + TICKET_KEY_TTL))
  }

  lemma HashCompleted(db: Db, id: TicketId, e: EventId, joined: Time)
    requires id in db.hashes && db.hashes[id] == Hash(Some(JoinFields(id, e, joined, 0)), None, None)
    requires db.now == joined
    ensures var d := Redis.Expire(db, id, TICKET_KEY_TTL);
            HasWholeHash(d, id, e, joined) && d == db.(hashes := d.hashes)
  {
  }

  /** A visitor waits with a complete hash. */
  lemma OneWaits(s: Site, e: EventId) returns (acts: seq<Act>)
    requires Start(s) && e.name != "" && s.core.defaultRate > 0 && Number(s.core.db.active, e) == 0
    ensures AllWell(s, acts, e, s.core.defaultRate) && Tight(Run(s, acts).core, e, s.core.defaultRate)
    ensures OnlyCore(s, Run(s, acts))
    ensures var c, now := Run(s, acts).core, s.core.db.now;
            && c.db.now == now && c.db.locks == map[] && c.db.active == s.core.db.active && c.db.published == []
            && c.ticks == [] && ListAt(c.db.queues, e) == [Entry(now, 0)] && SameBooks(s.core.hist, c.hist)
            && HasWholeHash(c.db, 0, e, now)
  {
    acts := Open(s, e);
    acts := AddWholeTicket(s, acts, e, s.core.defaultRate, 0);
  }

  /** A token issued more than 90 minutes after its ticket joined cannot be redeemed at the end of its life. */
  lemma OutlivesHash(s: Site, e: EventId) returns (acts: seq<Act>)
    requires Start(s) && e.name != "" && s.core.defaultRate > 0 && Number(s.core.db.active, e) == 0
    ensures var c := Run(s, acts).core;
            && |c.hist.issued| == 1 && c.db.now < c.hist.issued[0].claims.expiresAt
            && !Redeemable(c.db, c.hist.issued[0])
  {
    var r := s.core.defaultRate;
    acts := OneWaits(s, e);
    acts := ExtendQueue(s, acts, Advance(5_402_000), e, r);
    acts := IssueOne(s, acts, e, r);
    acts := ExtendQueue(s, acts, Advance(1_798_000), e, r);
    assert !Live(Run(s, acts).core.db, 0);
  }

  lemma LostFillCore(c: Core, e: EventId)
    requires Init(c) && e.name != ""
    ensures var c1 := Next(c, StartJoin(e, 0, 0));
            var c2 := Next(c1, JoinStep(0, Ok));
            var d := Next(c2, JoinStep(0, Failed));
            ListAt(d.db.queues, e) == [Entry(c.db.now, 0)] && d.db.hashes == map[]
  {
    var c1 := Next(c, StartJoin(e, 0, 0));
    assert c1.joins == [Join(e, 0, c.db.now, 0, Add)] && c1.db == c.db;
    var c2 := Next(c1, JoinStep(0, Ok));
    assert c2.joins == [Join(e, 0, c.db.now, 0, Fill)] && c2.db.hashes == map[];
  }

  /** A ticket whose hash write failed waits in the queue, and its status says 404. */
  lemma NoSuchTicket(s: Site, e: EventId) returns (acts: seq<Act>)
    requires Start(s) && e.name != ""
    ensures var x := Run(s, acts);
            && ListAt(x.core.db.queues, e) == [Entry(s.core.db.now, 0)]
            && |x.pollers| == 1 && x.pollers[0].seen == [NotFound]
  {
    LostFillCore(s.core, e);
    acts := [];
    acts := Go(s, acts, StartJoin(e, 0, 0));
    acts := Go(s, acts, JoinStep(0, Ok));
    acts := Go(s, acts, JoinStep(0, Failed));
    assert Run(s, acts).core.db.hashes == map[];
    PollOnce(Run(s, acts));
    RunAppend(s, acts, Watch(0, Some(0)));
    RunAppend(s, acts + [Watch(0, Some(0))], PollStep(0, Ok));
    acts := acts + [Watch(0, Some(0))] + [PollStep(0, Ok)];
  }

  lemma PollOnce(x: Site)
    requires x.pollers == [] && x.core.db.hashes == map[]
    ensures var y := Step(Step(x, Watch(0, Some(0))), PollStep(0, Ok));
            y.core == x.core && |y.pollers| == 1 && y.pollers[0].seen == [NotFound]
  {
  }

  // ------------------------------------------------------------------ a stream that comes too late

  lemma ExtendStream(s: Site, acts: seq<Act>, a: Act, e: EventId, r: int) returns (more: seq<Act>)
    requires AllWell(s, acts, e, r) && (a.Connect? || a.StreamStep?)
    ensures AllWell(s, more, e, r) && Run(s, more) == Run(s, acts).(streams := StepStreams(Run(s, acts), a))
  {
    more := Extend(s, acts, a, e, r);
  }

  lemma StoreTokenCore(c: Core, e: EventId, r: int, x: Entry, token: Token, at: Time)
    requires Tight(c, e, r) && c.ticks == [Tick(e, at, [x], Store(token))]
    ensures var d := Next(c, TickStep(0, Ok));
            && Tight(d, e, r) && d.ticks == [Tick(e, at, [x], Count(token))]
            && d.db.published == c.db.published && d.db.queues == c.db.queues
  {
  }

  lemma CountTokenCore(c: Core, e: EventId, r: int, x: Entry, token: Token, at: Time)
    requires Tight(c, e, r) && c.ticks == [Tick(e, at, [x], Count(token))]
    ensures var d := Next(c, TickStep(0, Ok));
            && Tight(d, e, r) && d.ticks == [Tick(e, at, [x], Announce(token))]
            && d.db.published == c.db.published && d.db.queues == c.db.queues
  {
  }

  lemma AnnounceTokenCore(c: Core, e: EventId, x: Entry, token: Token, at: Time)
    requires c.ticks == [Tick(e, at, [x], Announce(token))]
    ensures var d := Next(c, TickStep(0, Ok));
            d.db.published == c.db.published + [AdmittedMsg(x.id, token)] && d.db.queues == c.db.queues
  {
  }

  /** The one member of a batch is admitted and announced. */
  lemma AnnounceOne(s: Site, acts: seq<Act>, e: EventId, r: int, x: Entry, token: Token, at: Time)
    returns (more: seq<Act>)
    requires AllWell(s, acts, e, r) && Tight(Run(s, acts).core, e, r)
    requires Run(s, acts).core.ticks == [Tick(e, at, [x], Store(token))]
    ensures AllWell(s, more, e, r) && OnlyCore(Run(s, acts), Run(s, more))
    ensures var c, d := Run(s, acts).core, Run(s, more).core;
            d.db.published == c.db.published + [AdmittedMsg(x.id, token)] && d.db.queues == c.db.queues
  {
    StoreTokenCore(Run(s, acts).core, e, r, x, token, at);
    more := ExtendQueue(s, acts, TickStep(0, Ok), e, r);
    CountTokenCore(Run(s, more).core, e, r, x, token, at);
    more := ExtendQueue(s, more, TickStep(0, Ok), e, r);
    AnnounceTokenCore(Run(s, more).core, e, x, token, at);
    more := ExtendQueue(s, more, TickStep(0, Ok), e, r);
  }

  /** The stream of a live ticket stands before its SUBSCRIBE. */
  lemma StandBy(s: Site, acts: seq<Act>, e: EventId, r: int) returns (more: seq<Act>)
    requires AllWell(s, acts, e, r) && Run(s, acts).streams == []
    requires HGetFields(Run(s, acts).core.db, 0).Some?
    requires HGetFields(Run(s, acts).core.db, 0).value.eventId == e
    requires HGetFields(Run(s, acts).core.db, 0).value.secret == 0
    ensures AllWell(s, more, e, r)
    ensures Run(s, more) == Run(s, acts).(streams := [Stream(0, Some(0), e, Subscribe, 0, 0, [])])
  {
    more := ExtendStream(s, acts, Connect(0, Some(0)), e, r);
    assert Run(s, more).streams == [Stream(0, Some(0), EventId(""), Binding, 0, 0, [])];
    more := ExtendStream(s, more, StreamStep(0, Ok), e, r);
    assert Run(s, more).streams == [Stream(0, Some(0), e, Authorize, 0, 0, [])];
    more := ExtendStream(s, more, StreamStep(0, Ok), e, r);
  }

  /** The stream of a waiting ticket is let in, and the ticket is admitted before it subscribes. */
  lemma AdmittedUnheard(s: Site, e: EventId) returns (acts: seq<Act>, token: Token)
    requires Start(s) && e.name != "" && s.core.defaultRate > 0 && Number(s.core.db.active, e) == 0
    ensures AllWell(s, acts, e, s.core.defaultRate)
    ensures var x := Run(s, acts);
            && x.core.db.published == [AdmittedMsg(0, token)] && ListAt(x.core.db.queues, e) == []
            && x.streams == [Stream(0, Some(0), e, Subscribe, 0, 0, [])]
  {
    var r, now := s.core.defaultRate, s.core.db.now;
    acts := OneWaits(s, e);
    acts := StandBy(s, acts, e, r);
    acts := IssueOne(s, acts, e, r);
    token := IssueAdmission(0, e, 0, now);
    acts := AnnounceOne(s, acts, e, r, Entry(now, 0), token, now);
  }

  /** A stream that waits for ever for an admission that was published before it subscribed. */
  lemma WaitsForEver(s: Site, e: EventId) returns (acts: seq<Act>)
    requires Start(s) && e.name != "" && s.core.defaultRate > 0 && Number(s.core.db.active, e) == 0
    ensures var x := Run(s, acts);
            && |x.streams| == 1 && x.streams[0].pc == Wait && x.streams[0].cursor == |x.core.db.published| == 1
            && IsAdmission(x.core.db.published[0], x.streams[0].ticket)
    ensures forall more :: |Run(Run(s, acts), more).streams| > 0 && Run(Run(s, acts), more).streams[0].pc != Ended
  {
    var r, token := s.core.defaultRate, Token(AdmissionKey, Claims(e, None, 0, 0, 0, 0));
    acts, token := AdmittedUnheard(s, e);
    acts := ExtendStream(s, acts, StreamStep(0, Ok), e, r);
    acts := ExtendStream(s, acts, StreamStep(0, Ok), e, r);
    forall more ensures |Run(Run(s, acts), more).streams| > 0 && Run(Run(s, acts), more).streams[0].pc != Ended {
      LateStreamNeverEnds(s, acts, more, 0, 0, AdmittedMsg(0, token));
    }
  }
}
