/**
 The two Redis servers as the handlers' code sees them: commands that change fields in place and may fail. A ghost
 copy of the state machine runs alongside, one step for each command, and Yield lets every other process of the
 deployment run in between: methods verified against this class are verified under all interleavings.
 */
module World {
  import opened Config
  import opened Tokens
  import opened SortedSet
  import opened Redis
  import opened Machine
  import opened Origin
  import opened Delivery
  import opened Site

  /** The process whose local variables no other process can touch. */
  datatype Who =
    | Nobody
    | TheTick(i: nat)
    | TheJoin(i: nat)
    | TheGuard(i: nat)
    | TheStream(i: nat)
    | ThePoller(i: nat)
    | TheDrawer(id: TicketId) // of an id that no other process draws as well

  ghost predicate Undisturbed(s: Site, t: Site, who: Who) {
    match who
    case Nobody => true
    case TheDrawer(id) => id !in s.core.hist.ids ==> id !in t.core.hist.ids
    case TheTick(i) => i < |s.core.ticks| ==> i < |t.core.ticks| && t.core.ticks[i] == s.core.ticks[i]
    case TheJoin(i) => i < |s.core.joins| ==> i < |t.core.joins| && t.core.joins[i] == s.core.joins[i]
    case TheGuard(i) => i < |s.origin.guards| ==> i < |t.origin.guards| && t.origin.guards[i] == s.origin.guards[i]
    case TheStream(i) => i < |s.streams| ==>
      i < |t.streams| && t.streams[i] == s.streams[i] && s.core.db.published <= t.core.db.published
    case ThePoller(i) => i < |s.pollers| ==> i < |t.pollers| && t.pollers[i] == s.pollers[i]
  }

  /** One SETNX on an event's lock, and whether it was granted. */
  datatype Attempt = Attempt(event: EventId, granted: bool)

  /** One SCAN cursor MATCH queue:*, its reply, and how long the run was then. */
  datatype Page = Page(cursor: nat, keys: seq<string>, next: nat, answered: bool, at: nat)

  /** A command that changes a key, and what became of it. */
  datatype Sent = Sent(command: Command, outcome: Outcome)

  /**
   The caller's commands: the outcome of the last one, until the machine's step is recorded, the number that gave no
   answer, the attempts to take a lock, the SCANs, and all commands that change a key of the queue's Redis.
   */
  datatype Calls = Calls(reply: Outcome, failures: nat, attempts: seq<Attempt>, pages: seq<Page>, sent: seq<Sent>)

  /** A step that the code may record: its outcome is the one its last command had, and only a lost reply is a crash. */
  predicate Reported(a: Act, reply: Outcome) {
    match a
    case Queue(b) => ReportedAction(b, reply)
    case GuardStep(_, o) => o == reply
    case StreamStep(_, o) => o == reply
    case PollStep(_, o) => o == reply
    case LoseGuard(_) => false
    case Disconnect(_) => false
    case _ => true
  }

  predicate ReportedAction(a: Action, reply: Outcome) {
    match a
    case StartTick(_) => reply != Failed
    case TickStep(_, o) => o == reply
    case CrashTick(_) => reply == Lost
    case StartJoin(_, _, _) => true
    case JoinStep(_, o) => o == reply
    case Exit(_, o) => o == reply
    case SetRate(_, _) => reply != Failed
    case SetCapacity(_, _) => reply != Failed
    case CrashJoin(_) => false
    case Advance(_) => false
  }

  const QUEUE_PREFIX: string := "queue:"

  predicate Matching(keys: seq<string>) {
    forall k :: 0 <= k < |keys| ==> QUEUE_PREFIX <= keys[k]
  }

  class World {
    const defaultRate: int
    var now: Time
    var queues: map<EventId, seq<Entry>>
    var hashes: map<TicketId, Hash>
    var active: map<EventId, int>
    var rate: map<EventId, int>
    var capacity: map<EventId, int>
    var locks: map<EventId, Time>
    var published: seq<Message>
    var used: map<nat, Time>
    var nextJti: nat
    var nextSession: nat

    ghost var start: Site
    ghost var trace: seq<Act>
    ghost var site: Site
    ghost var calls: Calls

    function Snapshot(): Db
      reads this
    {
      Db(now, queues, hashes, active, rate, capacity, locks, published)
    }

    ghost predicate Recorded()
      reads this
    {
      Start(start) && site == Run(start, trace)
    }

    /** The machine has run the trace, and the servers hold this: the two data sets and the numbers of ids drawn. */
    ghost predicate Serves(db: Db, issued: nat, marks: map<nat, Time>, sessions: nat)
      reads this
    {
      && Recorded() && site.core.defaultRate == defaultRate
      && Snapshot() == db && nextJti == issued && used == marks && nextSession == sessions
    }

    /** The machine has run the trace, and the servers hold what it says. */
    ghost predicate Valid()
      reads this
    {
      Serves(site.core.db, |site.core.hist.issued|, site.origin.used, |site.origin.sessions|)
    }

    /** The outcome of the caller's command. */
    twostate predicate Replied(o: Outcome)
      reads this
    {
      calls == old(calls).(reply := o, failures := old(calls).failures + if o == Ok then 0 else 1)
    }

    /** The outcome of a command that changes a key. */
    twostate predicate Sends(command: Command, o: Outcome)
      reads this
    {
      calls == old(calls).(reply := o, failures := old(calls).failures + (if o == Ok then 0 else 1),
                           sent := old(calls).sent + [Sent(command, o)])
    }

    constructor (defaultRate: int, now: Time)
      ensures Valid() && trace == [] && this.defaultRate == defaultRate && this.now == now
    {
      this.defaultRate, this.now := defaultRate, now;
      queues, hashes, active, rate, capacity, locks, published := map[], map[], map[], map[], map[], map[], [];
      used, nextJti, nextSession, trace := map[], 0, 0, [];
      calls := Calls(Ok, 0, [], [], []);
      start := Site(Core(Db(now, map[], map[], map[], map[], map[], map[], []), defaultRate, [], [],
                         History({}, map[], map[], map[], map[], {}, map[], [], [], map[], {}, {},
                                 map[], map[], map[], map[], map[], map[])),
                    Origin(map[], [], [], []), [], []);
      new;
      site := start;
    }

    /** The machine takes the step that the command just executed stands for. */
    ghost method Record(a: Act)
      requires Recorded() && Reported(a, calls.reply)
      modifies this`site, this`trace
      ensures Recorded() && site == Step(old(site), a) && trace == old(trace) + [a]
    {
      RunAppend(start, trace, a);
      trace := trace + [a];
      site := Step(site, a);
    }

    /** The start of a tick, when the event's lock is free; nothing when it is held. */
    ghost method RecordStart(e: EventId)
      requires Recorded() && calls.reply != Failed
      modifies this`site, this`trace
      ensures Recorded() && trace == old(trace) + [Queue(StartTick(e))]
      ensures var c := old(site.core);
              && site.core.db == Redis.SetNxLock(c.db, e) && site.origin == old(site.origin)
              && site.core.defaultRate == c.defaultRate && |site.core.hist.issued| == |c.hist.issued|
              && site.core.ticks == if Locked(c.db, e) then c.ticks else c.ticks + [Tick(e, c.db.now, [], ReadRate)]
    {
      Record(Queue(StartTick(e)));
    }

    ghost method RecordCrash(i: nat)
      requires Recorded() && calls.reply == Lost
      modifies this`site, this`trace
      ensures Recorded() && trace == old(trace) + [Queue(CrashTick(i))]
      ensures site.core.db == old(site.core.db) && site.origin == old(site.origin)
      ensures site.core.defaultRate == old(site.core.defaultRate)
              && |site.core.hist.issued| == |old(site.core.hist.issued)|
    {
      Record(Queue(CrashTick(i)));
    }

    /** The step of a tick, when the servers hold what its command makes of them. */
    ghost method RecordTick(i: nat, o: Outcome)
      requires o == calls.reply && i < |site.core.ticks|
      requires var c, t := site.core, site.core.ticks[i];
               Serves(if o == Failed then c.db else TickDb(c.db, t),
                      |c.hist.issued| + (if t.pc.Issue? && o == Ok && t.todo != [] then 1 else 0),
                      site.origin.used, |site.origin.sessions|)
      modifies this`site, this`trace, this`calls
      ensures Valid() && calls == old(calls).(reply := Ok) && trace == old(trace) + [Queue(TickStep(i, o))]
      ensures var c, t := old(site.core), old(site.core.ticks[i]);
              |site.core.ticks| == |c.ticks| && site.core.ticks[i] == TickAfter(c.db, c.hist, c.defaultRate, t, o)
      ensures Unanswered(trace, i) == old(Unanswered(trace, i)) + if o == Ok then 0 else 1
    {
      Record(Queue(TickStep(i, o)));
      assert trace[..|trace| - 1] == old(trace);
      calls := calls.(reply := Ok);
    }

    /** A handler draws a ticket id and a score. */
    ghost method RecordStartJoin(e: EventId, id: TicketId, secret: nat)
      requires Valid() && e.name != "" && id !in site.core.hist.ids
      modifies this`site, this`trace
      ensures Valid() && trace == old(trace) + [Queue(StartJoin(e, id, secret))]
      ensures site.core.joins == old(site.core.joins) + [Join(e, id, now, secret, Add)]
    {
      Record(Queue(StartJoin(e, id, secret)));
    }

    /** The step of a ticket creation. */
    ghost method RecordJoin(i: nat, o: Outcome)
      requires o == calls.reply && i < |site.core.joins|
      requires Serves(StepJoin(site.core, i, o).db, |site.core.hist.issued|, site.origin.used, |site.origin.sessions|)
      modifies this`site, this`trace, this`calls
      ensures Valid() && calls == old(calls).(reply := Ok) && trace == old(trace) + [Queue(JoinStep(i, o))]
      ensures site.core == StepJoin(old(site.core), i, o)
    {
      Record(Queue(JoinStep(i, o)));
      calls := calls.(reply := Ok);
    }

    ghost method RecordPoll(i: nat, o: Outcome)
      requires Valid() && o == calls.reply && i < |site.pollers|
      modifies this`site, this`trace, this`calls
      ensures Valid() && calls == old(calls).(reply := Ok) && trace == old(trace) + [PollStep(i, o)]
      ensures |site.pollers| == |old(site.pollers)|
      ensures site.pollers[i] == StepPoller(old(site.core.db), old(site.pollers[i]), o)
    {
      Record(PollStep(i, o));
      calls := calls.(reply := Ok);
    }

    ghost method RecordStream(i: nat, o: Outcome)
      requires Valid() && o == calls.reply && i < |site.streams|
      modifies this`site, this`trace, this`calls
      ensures Valid() && calls == old(calls).(reply := Ok) && trace == old(trace) + [StreamStep(i, o)]
      ensures |site.streams| == |old(site.streams)|
      ensures site.streams[i] == StepStream(old(site.core.db), old(site.streams[i]), o)
    {
      Record(StreamStep(i, o));
      calls := calls.(reply := Ok);
    }

    ghost method RecordArrive(cookie: Token)
      requires Valid() && Presentable(site.core, cookie)
      modifies this`site, this`trace
      ensures Valid() && trace == old(trace) + [Arrive(cookie)]
      ensures site.origin.guards == old(site.origin.guards) + [Guard(cookie, Verify, 0)]
    {
      Record(Arrive(cookie));
    }

    ghost method RecordExit(e: EventId, o: Outcome)
      requires o == calls.reply && e.name != ""
      requires Serves(StepExit(site.core, e, o).db, |site.core.hist.issued|, site.origin.used, |site.origin.sessions|)
      modifies this`site, this`trace, this`calls
      ensures Valid() && calls == old(calls).(reply := Ok) && trace == old(trace) + [Queue(Exit(e, o))]
    {
      Record(Queue(Exit(e, o)));
      calls := calls.(reply := Ok);
    }

    ghost method RecordNumber(e: EventId, newRate: bool, n: int)
      requires calls.reply != Failed && 0 < n <= INT64_MAX
      requires var db := site.core.db;
               Serves(if newRate then db.(rate := db.rate[e := n]) else db.(capacity := db.capacity[e := n]),
                      |site.core.hist.issued|, site.origin.used, |site.origin.sessions|)
      modifies this`site, this`trace
      ensures Valid() && trace == old(trace) + [Queue(if newRate then SetRate(e, n) else SetCapacity(e, n))]
    {
      Record(Queue(if newRate then SetRate(e, n) else SetCapacity(e, n)));
    }

    ghost method RecordConnect(t: TicketId, secret: Option<nat>)
      requires Valid()
      modifies this`site, this`trace
      ensures Valid() && trace == old(trace) + [Connect(t, secret)]
      ensures site.streams == old(site.streams) + [Stream(t, secret, EventId(""), Binding, 0, 0, [])]
    {
      Record(Connect(t, secret));
    }

    /** The step of a guard. */
    ghost method RecordGuard(i: nat, o: Outcome)
      requires o == calls.reply && i < |site.origin.guards|
      requires var p := StepGuard(site.core, site.origin, i, o);
               Serves(site.core.db, |site.core.hist.issued|, p.used, |p.sessions|)
      modifies this`site, this`trace, this`calls
      ensures Valid() && calls == old(calls).(reply := Ok) && trace == old(trace) + [GuardStep(i, o)]
      ensures site.core == old(site.core)
      ensures site.origin == StepGuard(old(site.core), old(site.origin), i, o)
    {
      Record(GuardStep(i, o));
      calls := calls.(reply := Ok);
    }

    /** Any number of steps of other processes, failures, crashes and clock advances may happen here. */
    method Yield(ghost who: Who)
      requires Valid()
      modifies this
      ensures Valid() && start == old(start) && old(trace) <= trace && Undisturbed(old(site), site, who)
      ensures who.TheStream? ==> Untouched(trace, |old(trace)|, who.i)
      ensures who.TheTick? ==> Unanswered(trace, who.i) == old(Unanswered(trace, who.i))
      ensures calls == old(calls).(reply := Ok)
    {
      calls := calls.(reply := Ok);
    }

    /** A command goes out; whether it takes effect and is answered is not the caller's to say. */
    method Ask() returns (o: Outcome)
      modifies this`calls
      ensures Replied(o)
    {
      o := *;
      calls := calls.(reply := o, failures := calls.failures + if o == Ok then 0 else 1);
    }

    /** A command that changes a key goes out. */
    method Send(ghost command: Command) returns (o: Outcome)
      modifies this`calls
      ensures Sends(command, o)
    {
      o := Ask();
      calls := calls.(sent := calls.sent + [Sent(command, o)]);
    }

    method SetNxLock(e: EventId) returns (o: Outcome, acquired: bool)
      modifies this`calls, this`locks
      ensures Snapshot() == if o == Failed then old(Snapshot()) else Redis.SetNxLock(old(Snapshot()), e)
      ensures calls.reply == o && calls.attempts == old(calls).attempts + [Attempt(e, o == Ok && acquired)]
      ensures calls.failures == (old(calls).failures + if o == Ok then 0 else 1) && calls.pages == old(calls).pages
      ensures calls.sent == old(calls).sent + [Sent(TakeLock(e), o)]
      ensures o == Ok ==> acquired == !Locked(old(Snapshot()), e)
    {
      o := Send(TakeLock(e));
      acquired := !(e in locks && now < locks[e]);
      if o != Failed && acquired {
        locks := locks[e := now + SCHEDULER_LOCK_TTL];
      }
      calls := calls.(attempts := calls.attempts + [Attempt(e, o == Ok && acquired)]);
    }

    /** SCAN cursor MATCH queue:*. The server ends an iteration after a number of pages of its own choice. */
    method Scan(cursor: nat, pagesLeft: nat) returns (o: Outcome, keys: seq<string>, next: nat)
      modifies this`calls
      ensures Matching(keys) && (pagesLeft == 0 ==> next == 0)
      ensures calls.reply == o && calls.pages == old(calls).pages + [Page(cursor, keys, next, o == Ok, |trace|)]
      ensures calls.failures == (old(calls).failures + if o == Ok then 0 else 1)
              && calls.attempts == old(calls).attempts && calls.sent == old(calls).sent
    {
      o := Ask();
      keys, next := *, *;
      if !Matching(keys) {
        keys := [];
      }
      if pagesLeft == 0 {
        next := 0;
      }
      calls := calls.(pages := calls.pages + [Page(cursor, keys, next, o == Ok, |trace|)]);
    }

    method DelLock(e: EventId) returns (o: Outcome)
      modifies this`calls, this`locks
      ensures Snapshot() == if o == Failed then old(Snapshot()) else Redis.DelLock(old(Snapshot()), e)
      ensures Sends(DropLock(e), o)
    {
      o := Send(DropLock(e));
      if o != Failed {
        locks := locks - {e};
      }
    }

    /** GET of a number; None is a missing key. */
    method GetNumber(m: map<EventId, int>, e: EventId) returns (o: Outcome, n: Option<int>)
      modifies this`calls
      ensures o == Ok ==> n == if e in m then Some(m[e]) else None
      ensures o != Ok ==> n == None
      ensures Replied(o)
    {
      o := Ask();
      n := if o == Ok && e in m then Some(m[e]) else None;
    }

    method AddActive(e: EventId, d: int) returns (o: Outcome)
      modifies this`calls, this`active
      ensures Snapshot() == if o == Failed then old(Snapshot()) else Redis.AddActive(old(Snapshot()), e, d)
      ensures Sends(AddCount(e, d), o)
    {
      o := Send(AddCount(e, d));
      var n := (if e in active then active[e] else 0) + d;
      if o != Failed && Int64(n) {
        active := active[e := n];
      }
    }

    /** SET of the rate or of the capacity. */
    method SetNumber(e: EventId, isRate: bool, n: int) returns (o: Outcome)
      modifies this`calls, this`rate, this`capacity
      ensures rate == if isRate && o != Failed then old(rate)[e := n] else old(rate)
      ensures capacity == if !isRate && o != Failed then old(capacity)[e := n] else old(capacity)
      ensures Sends(if isRate then WriteRate(e, n) else WriteCapacity(e, n), o)
    {
      o := Send(if isRate then WriteRate(e, n) else WriteCapacity(e, n));
      if o != Failed {
        if isRate {
          rate := rate[e := n];
        } else {
          capacity := capacity[e := n];
        }
      }
    }

    method ZAdd(e: EventId, x: Entry) returns (o: Outcome)
      modifies this`calls, this`queues
      ensures Snapshot() == if o == Failed then old(Snapshot()) else Redis.ZAdd(old(Snapshot()), e, x)
      ensures Sends(AddMember(e, x), o)
    {
      o := Send(AddMember(e, x));
      if o != Failed {
        queues := queues[e := Insert(if e in queues then queues[e] else [], x)];
      }
    }

    method ZPopMin(e: EventId, n: int) returns (o: Outcome, members: seq<Entry>)
      modifies this`calls, this`queues
      ensures Snapshot() == if o == Failed then old(Snapshot()) else Redis.ZPopMin(old(Snapshot()), e, n)
      ensures members == if o == Ok then ListAt(old(queues), e)[..PopSize(old(Snapshot()), e, n)] else []
      ensures Sends(TakeMembers(e, n), o)
    {
      o := Send(TakeMembers(e, n));
      var q := ListAt(queues, e);
      var k := if n <= 0 then 0 else Min(n, |q|);
      members := [];
      if o != Failed {
        queues := queues[e := q[k..]];
      }
      if o == Ok {
        members := q[..k];
      }
    }

    /** GetPosition: the rank, or -1 for a member that is not in the set. */
    method ZRank(e: EventId, t: TicketId) returns (o: Outcome, rank: int)
      modifies this`calls
      ensures o == Ok ==> rank == Rank(ListAt(queues, e), t)
      ensures Replied(o)
    {
      o := Ask();
      rank := Rank(ListAt(queues, e), t);
    }

    method HSetToken(t: TicketId, token: Token) returns (o: Outcome)
      modifies this`calls, this`hashes
      ensures Snapshot() == if o == Failed then old(Snapshot()) else Redis.HSetToken(old(Snapshot()), t, token)
      ensures Sends(WriteToken(t, token), o)
    {
      o := Send(WriteToken(t, token));
      if o != Failed {
        hashes := hashes[t := HashToWrite(Snapshot(), t).(token := Some(token))];
      }
    }

    method HSetFields(t: TicketId, f: JoinFields) returns (o: Outcome)
      modifies this`calls, this`hashes
      ensures Snapshot() == if o == Failed then old(Snapshot()) else Redis.HSetFields(old(Snapshot()), t, f)
      ensures Sends(WriteFields(t, f), o)
    {
      o := Send(WriteFields(t, f));
      if o != Failed {
        hashes := hashes[t := HashToWrite(Snapshot(), t).(fields := Some(f))];
      }
    }

    method Expire(t: TicketId, ttl: nat) returns (o: Outcome)
      modifies this`calls, this`hashes
      ensures Snapshot() == if o == Failed then old(Snapshot()) else Redis.Expire(old(Snapshot()), t, ttl)
      ensures Sends(SetDeadline(t, ttl), o)
    {
      o := Send(SetDeadline(t, ttl));
      if o != Failed && Live(Snapshot(), t) {
        hashes := hashes[t := hashes[t].(deadline := Some(now + ttl))];
      }
    }

    method HGetEventId(t: TicketId) returns (o: Outcome, event: Option<EventId>)
      modifies this`calls
      ensures o == Ok ==> event == Redis.HGetEventId(Snapshot(), t)
      ensures o != Ok ==> event == None
      ensures Replied(o)
    {
      o := Ask();
      event := if o == Ok then Redis.HGetEventId(Snapshot(), t) else None;
    }

    method HGetSecret(t: TicketId) returns (o: Outcome, secret: Option<nat>)
      modifies this`calls
      ensures o == Ok ==>
              secret == if HGetFields(Snapshot(), t).Some? then Some(HGetFields(Snapshot(), t).value.secret) else None
      ensures o != Ok ==> secret == None
      ensures Replied(o)
    {
      o := Ask();
      var f := HGetFields(Snapshot(), t);
      secret := if o == Ok && f.Some? then Some(f.value.secret) else None;
    }

    method HGetToken(t: TicketId) returns (o: Outcome, token: Option<Token>)
      modifies this`calls
      ensures o == Ok ==> token == Redis.HGetToken(Snapshot(), t)
      ensures o != Ok ==> token == None
      ensures Replied(o)
    {
      o := Ask();
      token := if o == Ok then Redis.HGetToken(Snapshot(), t) else None;
    }

    method Publish(m: Message) returns (o: Outcome)
      modifies this`calls, this`published
      ensures Snapshot() == if o == Failed then old(Snapshot()) else Redis.Publish(old(Snapshot()), m)
      ensures Replied(o)
    {
      o := Ask();
      if o != Failed {
        published := published + [m];
      }
    }

    /** SETNX token:{jti} in the origin's Redis. */
    method SetNxUsed(jti: nat) returns (o: Outcome, first: bool)
      modifies this`calls, this`used
      ensures first == !(jti in old(used) && now < old(used)[jti])
      ensures used == if o != Failed && first then old(used)[jti := now + ADMISSION_USED_TTL] else old(used)
      ensures Replied(o)
    {
      o := Ask();
      first := !(jti in used && now < used[jti]);
      if o != Failed && first {
        used := used[jti := now + ADMISSION_USED_TTL];
      }
    }

    /** The scheduler's injected issueToken, which may fail; uuid.New never repeats a jti. */
    method IssueToken(t: TicketId, e: EventId) returns (o: Outcome, jwt: Token)
      modifies this`calls, this`nextJti
      ensures jwt == IssueAdmission(t, e, old(nextJti), now)
      ensures nextJti == if o == Ok then old(nextJti) + 1 else old(nextJti)
      ensures Replied(o)
    {
      o := Ask();
      jwt := IssueAdmission(t, e, nextJti, now);
      if o == Ok {
        nextJti := nextJti + 1;
      }
    }
  }
}
