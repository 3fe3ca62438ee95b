/**
 The queue side as a state machine: one Redis, any number of scheduler ticks
 (internal/scheduler/admission.go) and ticket creations (internal/api/handler_join.go), each with
 its own program counter. Every Redis command is one step; a step may fail, and a process may crash
 between two of its steps. Steps are total: one that cannot happen changes nothing.
 */
module Machine {
  import opened Config
  import opened Tokens
  import opened SortedSet
  import opened Redis

  /** A command took effect, was refused, or took effect while its reply was lost. */
  datatype Outcome = Ok | Failed | Lost

  /** Where a tick stands between tick's SETNX and its deferred DEL; todo's head is the loop's current member. */
  datatype TickPc =
    | ReadRate
    | ReadActive(rate: int)
    | ReadCapacity(rate: int, active: int)
    | Pop(n: int)
    | Issue
    | Store(token: Token)
    | Count(token: Token)
    | Announce(token: Token)
    | Notify
    | Release
    | Done

  datatype Tick = Tick(event: EventId, acquiredAt: Time, todo: seq<Entry>, pc: TickPc)

  datatype JoinPc = Add | Fill | SetExpiry | Left

  datatype Join = Join(event: EventId, id: TicketId, score: nat, secret: nat, pc: JoinPc)

  /** Admitted is the end of the loop body; a ticket is Dropped if its tick ends before that. */
  datatype Stage = Waiting | Held(tick: nat) | Admitted | Dropped

  datatype Place = Place(event: EventId, stage: Stage)

  /** A pop, with how many ZADDs its queue had seen before it. */
  datatype Popped = Popped(entry: Entry, joinsBefore: nat)

  /** What happened so far; no process reads it. */
  datatype History = History(ids: set<TicketId>,                  // ticket ids drawn
                             joined: map<EventId, seq<Entry>>,    // ZADDs, in order
                             popped: map<EventId, seq<Popped>>,   // ZPOPMINs, in order
                             place: map<TicketId, Place>,         // where each added ticket is now
                             fieldsOf: map<TicketId, JoinFields>, // what its join writes
                             filled: set<TicketId>,               // its join fields were written
                             expirySet: map<TicketId, Time>,      // when its hash got its TTL
                             issued: seq<Token>,                  // admission tokens, by jti
                             issuedAt: seq<Time>,
                             tokenOf: map<TicketId, nat>,         // a ticket's jti
                             stored: set<TicketId>,               // its token was written to its hash
                             tried: set<TicketId>,                // its INCR was attempted
                             base: map<EventId, int>,             // active counters at the start
                             incrs: map<EventId, nat>,
                             decrs: map<EventId, nat>,
                             exits: map<EventId, nat>,            // POST /queue/exit requests
                             uncounted: map<EventId, nat>,        // issued tokens whose INCR never took effect
                             holder: map<EventId, nat>)           // the tick that set the lock last

  datatype Core = Core(db: Db, defaultRate: int, ticks: seq<Tick>, joins: seq<Join>, hist: History)

  datatype Action =
    | Advance(d: nat)
    | StartTick(event: EventId)
    | TickStep(tick: nat, outcome: Outcome)
    | CrashTick(tick: nat)
    | StartJoin(event: EventId, id: TicketId, secret: nat)
    | JoinStep(join: nat, outcome: Outcome)
    | CrashJoin(join: nat)
    | Exit(event: EventId, outcome: Outcome)
    | SetRate(event: EventId, rate: int)
    | SetCapacity(event: EventId, capacity: int)

  function Times(m: map<EventId, nat>, e: EventId): nat {
    if e in m then m[e] else 0
  }

  function Bump(m: map<EventId, nat>, e: EventId): map<EventId, nat> {
    m[e := Times(m, e) + 1]
  }

  predicate InLoop(pc: TickPc) {
    pc.Issue? || pc.Store? || pc.Count? || pc.Announce?
  }

  /** The token a tick has issued and not yet counted. */
  predicate Uncounted(pc: TickPc) {
    pc.Store? || pc.Count?
  }

  /** The steps that pop a batch, issue a token, or finish a member. */
  predicate Moves(pc: TickPc) {
    pc.Pop? || pc.Issue? || pc.Announce?
  }

  predicate InFlight(t: Tick, e: EventId) {
    t.event == e && t.pc != Done
  }

  /** Every ticket of a batch moves to a stage. */
  function Mark(place: map<TicketId, Place>, batch: seq<Entry>, stage: Stage): map<TicketId, Place> {
    map t | t in place :: if Has(batch, t) then place[t].(stage := stage) else place[t]
  }

  /** The batch size tick computes from its reads. */
  function BatchPc(rate: int, active: int, capacity: int): TickPc {
    if capacity > 0 then
      var headroom := Wrap64(capacity - active);
      if headroom <= 0 then Release else Pop(Min(rate, headroom))
    else
      Pop(rate)
  }

  /** The members a tick's ZPOPMIN takes. */
  function Batch(db: Db, t: Tick): seq<Entry>
    requires t.pc.Pop?
  {
    ListAt(db.queues, t.event)[..PopSize(db, t.event, t.pc.n)]
  }

  /** The end of one iteration of admitBatch's loop. */
  function NextMember(t: Tick): Tick {
    if |t.todo| <= 1 then t.(todo := [], pc := Notify) else t.(todo := t.todo[1..], pc := Issue)
  }

  function NewToken(db: Db, h: History, t: Tick): Token
    requires t.todo != []
  {
    IssueAdmission(t.todo[0].id, t.event, |h.issued|, db.now)
  }

  /** Where the tick stands after its current command. */
  function TickAfter(db: Db, h: History, defaultRate: int, t: Tick, o: Outcome): (r: Tick)
    ensures r.event == t.event && r.acquiredAt == t.acquiredAt
    ensures !Moves(t.pc) ==> r.todo == t.todo
  {
    var e := t.event;
    match t.pc
    case ReadRate =>
      var rate := if o == Ok && e in db.rate then db.rate[e] else defaultRate;
      t.(pc := if rate == 0 then Release else ReadActive(rate))
    case ReadActive(rate) => t.(pc := ReadCapacity(rate, if o == Ok then Number(db.active, e) else 0))
    case ReadCapacity(rate, active) => t.(pc := BatchPc(rate, active, if o == Ok then Number(db.capacity, e) else 0))
    case Pop(_) => if o == Ok && Batch(db, t) != [] then t.(todo := Batch(db, t), pc := Issue) else t.(pc := Release)
    case Issue => if o == Ok && t.todo != [] then t.(pc := Store(NewToken(db, h, t))) else NextMember(t)
    case Store(token) => t.(pc := Count(token))
    case Count(token) => t.(pc := Announce(token))
    case Announce(_) => NextMember(t)
    case Notify => t.(pc := Release)
    case Release => t.(pc := Done)
    case Done => t
  }

  /** What the tick's current command does to Redis, when it takes effect. */
  function TickDb(db: Db, t: Tick): (r: Db)
    ensures r.now == db.now && r.rate == db.rate && r.capacity == db.capacity
    ensures !t.pc.Pop? ==> r.queues == db.queues
    ensures !t.pc.Store? ==> r.hashes == db.hashes
    ensures !t.pc.Count? ==> r.active == db.active
    ensures !t.pc.Announce? && !t.pc.Notify? ==> r.published == db.published
    ensures !t.pc.Release? ==> r.locks == db.locks
  {
    match t.pc
    case Pop(n) => ZPopMin(db, t.event, n)
    case Store(token) => if t.todo == [] then db else HSetToken(db, t.todo[0].id, token)
    case Count(_) => AddActive(db, t.event, 1)
    case Announce(token) => if t.todo == [] then db else Publish(db, AdmittedMsg(t.todo[0].id, token))
    case Notify => Publish(db, TickMsg(t.event))
    case Release => DelLock(db, t.event)
    case _ => db
  }

  /** What the command adds to the history. */
  function TickHist(db: Db, h: History, i: nat, t: Tick, o: Outcome): (r: History)
    ensures r.ids == h.ids && r.joined == h.joined && r.fieldsOf == h.fieldsOf && r.filled == h.filled
    ensures r.expirySet == h.expirySet && r.base == h.base && r.decrs == h.decrs && r.exits == h.exits
            && r.holder == h.holder
    ensures !t.pc.Pop? ==> r.popped == h.popped
    ensures !Moves(t.pc) ==> r.place == h.place
    ensures !t.pc.Issue? ==> r.tokenOf == h.tokenOf
    ensures if t.pc.Issue? && o == Ok && t.todo != []
            then r.issued == h.issued + [NewToken(db, h, t)] && r.issuedAt == h.issuedAt + [db.now]
            else r.issued == h.issued && r.issuedAt == h.issuedAt
    ensures !t.pc.Store? ==> r.stored == h.stored
    ensures !t.pc.Count? ==> r.tried == h.tried && r.incrs == h.incrs && r.uncounted == h.uncounted
  {
    var e := t.event;
    match t.pc
    case Pop(_) =>
      if o == Failed then h
      else
        h.(popped := h.popped[e := Extended(ListAt(h.popped, e), Batch(db, t), |ListAt(h.joined, e)|)],
           place := Mark(h.place, Batch(db, t), if o == Ok then Held(i) else Dropped))
    case Issue =>
      if o == Ok && t.todo != [] then
        h.(issued := h.issued + [NewToken(db, h, t)], issuedAt := h.issuedAt + [db.now],
           tokenOf := h.tokenOf[t.todo[0].id := |h.issued|])
      else
        h.(place := Mark(h.place, t.todo[..Min(1, |t.todo|)], Dropped))
    case Store(_) =>
      if o == Failed || t.todo == [] then h else h.(stored := h.stored + {t.todo[0].id})
    case Count(_) =>
      var counted := o != Failed && Number(db.active, e) < INT64_MAX;
      h.(tried := h.tried + IdsOf(t.todo[..Min(1, |t.todo|)]),
         incrs := if counted then Bump(h.incrs, e) else h.incrs,
         uncounted := if counted then h.uncounted else Bump(h.uncounted, e))
    case Announce(_) => h.(place := Mark(h.place, t.todo[..Min(1, |t.todo|)], Admitted))
    case _ => h
  }

  function IdsOf(q: seq<Entry>): set<TicketId> {
    set x | x in q :: x.id
  }

  /** The pop log after a batch. */
  function Extended(popped: seq<Popped>, batch: seq<Entry>, joins: nat): seq<Popped> {
    popped + seq(|batch|, j requires 0 <= j < |batch| => Popped(batch[j], joins))
  }

  /** One command of tick i. */
  function StepTick(c: Core, i: nat, o: Outcome): Core
    requires i < |c.ticks|
  {
    var t := c.ticks[i];
    c.(ticks := c.ticks[i := TickAfter(c.db, c.hist, c.defaultRate, t, o)],
       db := if o == Failed then c.db else TickDb(c.db, t),
       hist := TickHist(c.db, c.hist, i, t, o))
  }

  /**
   A scheduler dies in the middle of a tick: nobody works on the rest of its batch any more, and its lock stays behind.
   Of its dropped tickets one may have its token already, and then its visitor can still poll it and be let in.
   */
  function Crash(c: Core, i: nat): Core
    requires i < |c.ticks|
  {
    var t, h := c.ticks[i], c.hist;
    c.(ticks := c.ticks[i := t.(todo := [], pc := Done)],
       hist := h.(place := Mark(h.place, t.todo, Dropped),
                  uncounted := if Uncounted(t.pc) then Bump(h.uncounted, t.event) else h.uncounted))
  }

  function FieldsOf(j: Join): JoinFields {
    JoinFields(j.id, j.event, j.score, j.secret)
  }

  /** One command of createTicket. */
  function StepJoin(c: Core, i: nat, o: Outcome): (d: Core)
    requires i < |c.joins|
    ensures d.ticks == c.ticks && d.defaultRate == c.defaultRate
    ensures d.db == c.db.(queues := d.db.queues, hashes := d.db.hashes)
    ensures c.joins[i].pc != Add ==>
              && d.db.queues == c.db.queues && d.hist.joined == c.hist.joined
              && d.hist.place == c.hist.place && d.hist.fieldsOf == c.hist.fieldsOf
    ensures d.hist == c.hist.(joined := d.hist.joined, place := d.hist.place, fieldsOf := d.hist.fieldsOf,
                              filled := d.hist.filled, expirySet := d.hist.expirySet)
  {
    var j, h := c.joins[i], c.hist;
    match j.pc
    case Add =>
      if o == Failed then c.(joins := c.joins[i := j.(pc := Left)])
      else
        var x := Entry(j.score, j.id);
        c.(joins := c.joins[i := j.(pc := if o == Ok then Fill else Left)],
           db := ZAdd(c.db, j.event, x),
           hist := h.(joined := h.joined[j.event := ListAt(h.joined, j.event) + [x]],
                      place := h.place[j.id := Place(j.event, Waiting)],
                      fieldsOf := h.fieldsOf[j.id := FieldsOf(j)]))
    case Fill =>
      c.(joins := c.joins[i := j.(pc := SetExpiry)],
         db := if o != Failed then HSetFields(c.db, j.id, FieldsOf(j)) else c.db,
         hist := if o != Failed then h.(filled := h.filled + {j.id}) else h)
    case SetExpiry =>
      var applied := o != Failed && Live(c.db, j.id);
      c.(joins := c.joins[i := j.(pc := Left)],
         db := if o != Failed then Expire(c.db, j.id, TICKET_KEY_TTL) else c.db,
         hist := if applied then h.(expirySet := h.expirySet[j.id := c.db.now]) else h)
    case Left => c
  }

  function StepExit(c: Core, e: EventId, o: Outcome): Core {
    var h := c.hist.(exits := Bump(c.hist.exits, e));
    if o != Failed && Number(c.db.active, e) > INT64_MIN then
      c.(db := AddActive(c.db, e, -1), hist := h.(decrs := Bump(h.decrs, e)))
    else
      c.(hist := h)
  }

  /** AcquireLock and the start of a tick; nothing happens when the lock is held. */
  function Acquire(c: Core, e: EventId): Core {
    if Locked(c.db, e) then c
    else
      c.(db := SetNxLock(c.db, e),
         ticks := c.ticks + [Tick(e, c.db.now, [], ReadRate)],
         hist := c.hist.(holder := c.hist.holder[e := |c.ticks|]))
  }

  /** Actions that move no ticket and write no hash, channel or lock. */
  function Quiet(c: Core, a: Action): (d: Core)
    ensures d.ticks == c.ticks && d.db.queues == c.db.queues && d.db.hashes == c.db.hashes
    ensures d.db.published == c.db.published && d.db.locks == c.db.locks && d.db.now >= c.db.now
    ensures d.hist == c.hist.(ids := d.hist.ids, decrs := d.hist.decrs, exits := d.hist.exits)
    ensures !a.Exit? ==> d.db.active == c.db.active && d.hist.decrs == c.hist.decrs && d.hist.exits == c.hist.exits
    ensures !a.StartJoin? && !a.CrashJoin? ==> d.joins == c.joins && d.hist.ids == c.hist.ids
  {
    match a
    case Advance(d) => c.(db := c.db.(now := c.db.now + d))
    case StartJoin(e, id, secret) =>
      if e.name == "" || id in c.hist.ids then c
      else
        c.(joins := c.joins + [Join(e, id, c.db.now, secret, Add)], hist := c.hist.(ids := c.hist.ids + {id}))
    case CrashJoin(i) => if i < |c.joins| then c.(joins := c.joins[i := c.joins[i].(pc := Left)]) else c
    case Exit(e, o) => if e.name == "" then c else StepExit(c, e, o)
    case SetRate(e, r) => if 0 < r <= INT64_MAX then c.(db := c.db.(rate := c.db.rate[e := r])) else c
    case SetCapacity(e, n) => if 0 < n <= INT64_MAX then c.(db := c.db.(capacity := c.db.capacity[e := n])) else c
    case _ => c
  }

  function Next(c: Core, a: Action): Core {
    match a
    case StartTick(e) => Acquire(c, e)
    case TickStep(i, o) => if i < |c.ticks| then StepTick(c, i, o) else c
    case CrashTick(i) => if i < |c.ticks| && c.ticks[i].pc != Done then Crash(c, i) else c
    case JoinStep(i, o) => if i < |c.joins| then StepJoin(c, i, o) else c
    case _ => Quiet(c, a)
  }

  /** A ZPOPMIN of e that takes effect, whether or not its reply arrives. */
  predicate Pops(c: Core, a: Action, e: EventId) {
    && a.TickStep? && a.tick < |c.ticks| && a.outcome != Failed
    && c.ticks[a.tick].event == e && c.ticks[a.tick].pc.Pop?
  }

  /** A ZADD to e's queue that takes effect. */
  predicate Adds(c: Core, a: Action, e: EventId) {
    && a.JoinStep? && a.join < |c.joins| && a.outcome != Failed
    && c.joins[a.join].event == e && c.joins[a.join].pc == Add
  }

  /** What an action does to e's queue: it pops a batch, adds one ticket, or leaves it alone. */
  function QueueAfter(c: Core, a: Action, e: EventId): seq<Entry> {
    var q := ListAt(c.db.queues, e);
    if Pops(c, a, e) then q[PopSize(c.db, e, c.ticks[a.tick].pc.n)..]
    else if Adds(c, a, e) then Insert(q, Entry(c.joins[a.join].score, c.joins[a.join].id))
    else q
  }

  lemma TickQueue(db: Db, t: Tick, e: EventId)
    ensures var q := ListAt(db.queues, e);
            ListAt(TickDb(db, t).queues, e) == if t.event == e && t.pc.Pop? then q[PopSize(db, e, t.pc.n)..] else q
  {
  }

  lemma NextQueue(c: Core, a: Action, e: EventId)
    ensures ListAt(Next(c, a).db.queues, e) == QueueAfter(c, a, e)
  {
    match a
    case StartTick(f) => assert Acquire(c, f).db.queues == c.db.queues;
    case TickStep(i, o) =>
      if i < |c.ticks| {
        assert StepTick(c, i, o).db == if o == Failed then c.db else TickDb(c.db, c.ticks[i]);
        TickQueue(c.db, c.ticks[i], e);
      }
    case CrashTick(i) => if i < |c.ticks| { assert Crash(c, i).db.queues == c.db.queues; }
    case JoinStep(i, o) =>
      if i < |c.joins| && (c.joins[i].pc != Add || o == Failed) {
        assert StepJoin(c, i, o).db.queues == c.db.queues;
      }
    case _ => assert Quiet(c, a).db.queues == c.db.queues;
  }

  /** A new deployment; the active counters may hold whatever an earlier one left. */
  ghost predicate Init(c: Core) {
    && c.db.queues == map[] && c.db.hashes == map[] && c.db.rate == map[] && c.db.capacity == map[]
    && c.db.locks == map[] && c.db.published == []
    && (forall e :: e in c.db.active ==> Int64(c.db.active[e]))
    && c.ticks == [] && c.joins == []
    && c.hist == History({}, map[], map[], map[], map[], {}, map[], [], [], map[], {}, {},
                         c.db.active, map[], map[], map[], map[], map[])
  }
}
