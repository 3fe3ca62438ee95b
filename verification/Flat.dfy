/** The string-keyed store of internal/store/keys.go runs in step with the per-event maps of the model. */
module Flat {
  import opened Config
  import opened Tokens
  import opened SortedSet
  import opened Redis
  import opened Machine
  import opened Site
  import opened Conservation
  import opened Capacity
  import opened Runs
  import opened Keys

  // ------------------------------------------------------------------ the store as one map

  datatype Value = ZSet(entries: seq<Entry>) | Num(n: int) | HashValue(h: Hash) | Marker(deadline: Time)

  /** The per-event view of a key; an empty sorted set is a missing key. */
  function Read(db: Db, k: RedisKey): Option<Value> {
    match k
    case QueueKey(e) => if ListAt(db.queues, e) == [] then None else Some(ZSet(ListAt(db.queues, e)))
    case RateKey(e) => if e in db.rate then Some(Num(db.rate[e])) else None
    case ActiveKey(e) => if e in db.active then Some(Num(db.active[e])) else None
    case CapacityKey(e) => if e in db.capacity then Some(Num(db.capacity[e])) else None
    case TicketKey(t) => if t in db.hashes then Some(HashValue(db.hashes[t])) else None
    case LockKey(e) => if e in db.locks then Some(Marker(db.locks[e])) else None
  }

  function Lookup(flat: map<string, Value>, name: string): Option<Value> {
    if name in flat then Some(flat[name]) else None
  }

  /** The flat store holds exactly what the maps hold. */
  ghost predicate Represents(flat: map<string, Value>, db: Db) {
    forall k :: IsKey(k) ==> Lookup(flat, Text(k)) == Read(db, k)
  }

  // ------------------------------------------------------------------ commands

  function KeyOf(command: Command): RedisKey {
    match command
    case AddMember(e, _) => QueueKey(e)
    case TakeMembers(e, _) => QueueKey(e)
    case WriteFields(t, _) => TicketKey(t)
    case WriteToken(t, _) => TicketKey(t)
    case SetDeadline(t, _) => TicketKey(t)
    case AddCount(e, _) => ActiveKey(e)
    case TakeLock(e) => LockKey(e)
    case DropLock(e) => LockKey(e)
    case WriteRate(e, _) => RateKey(e)
    case WriteCapacity(e, _) => CapacityKey(e)
  }

  function Members(v: Option<Value>): seq<Entry> {
    if v.Some? && v.value.ZSet? then v.value.entries else []
  }

  /** The hash under a key, unless it has expired. */
  function LiveHash(v: Option<Value>, now: Time): Option<Hash> {
    if v.Some? && v.value.HashValue?
      && (v.value.h.deadline.Some? ==> now < v.value.h.deadline.value) then Some(v.value.h)
    else None
  }

  function HashOrNew(v: Option<Value>, now: Time): Hash {
    if LiveHash(v, now).Some? then LiveHash(v, now).value else Hash(None, None, None)
  }

  function Counted(v: Option<Value>): int {
    if v.Some? && v.value.Num? then v.value.n else 0
  }

  /** What a command makes of the value under its key; None is a missing key. */
  function Effect(command: Command, v: Option<Value>, now: Time): Option<Value> {
    match command
    case AddMember(_, x) => Some(ZSet(Insert(Members(v), x)))
    case TakeMembers(_, n) =>
      var rest := Members(v)[if n <= 0 then 0 else Min(n, |Members(v)|)..];
      if rest == [] then None else Some(ZSet(rest))
    case WriteFields(_, f) => Some(HashValue(HashOrNew(v, now).(fields := Some(f))))
    case WriteToken(_, token) => Some(HashValue(HashOrNew(v, now).(token := Some(token))))
    case SetDeadline(_, ttl) =>
      if LiveHash(v, now).None? then v else Some(HashValue(LiveHash(v, now).value.(deadline := Some(now + ttl))))
    case AddCount(_, d) => if Int64(Counted(v) + d) then Some(Num(Counted(v) + d)) else v
    case TakeLock(_) =>
      if v.Some? && v.value.Marker? && now < v.value.deadline then v else Some(Marker(now + SCHEDULER_LOCK_TTL))
    case DropLock(_) => None
    case WriteRate(_, n) => Some(Num(n))
    case WriteCapacity(_, n) => Some(Num(n))
  }

  /** The same command on the per-event maps. */
  function Exec(db: Db, command: Command): Db {
    match command
    case AddMember(e, x) => ZAdd(db, e, x)
    case TakeMembers(e, n) => ZPopMin(db, e, n)
    case WriteFields(t, f) => HSetFields(db, t, f)
    case WriteToken(t, token) => HSetToken(db, t, token)
    case SetDeadline(t, ttl) => Expire(db, t, ttl)
    case AddCount(e, d) => AddActive(db, e, d)
    case TakeLock(e) => SetNxLock(db, e)
    case DropLock(e) => DelLock(db, e)
    case WriteRate(e, n) => db.(rate := db.rate[e := n])
    case WriteCapacity(e, n) => db.(capacity := db.capacity[e := n])
  }

  /** A command changes its own key as stated, and no other. */
  lemma ExecEffect(db: Db, command: Command, k: RedisKey)
    ensures Read(Exec(db, command), k) ==
            if k == KeyOf(command) then Effect(command, Read(db, k), db.now) else Read(db, k)
  {
    match command
    case AddMember(e, x) => QueueEffect(db, command, k);
    case TakeMembers(e, n) => QueueEffect(db, command, k);
    case WriteFields(_, _) => HashEffect(db, command, k);
    case WriteToken(_, _) => HashEffect(db, command, k);
    case SetDeadline(_, _) => HashEffect(db, command, k);
    case _ => NumberEffect(db, command, k);
  }

  lemma QueueEffect(db: Db, command: Command, k: RedisKey)
    requires command.AddMember? || command.TakeMembers?
    ensures Read(Exec(db, command), k) ==
            if k == KeyOf(command) then Effect(command, Read(db, k), db.now) else Read(db, k)
  {
    var q := ListAt(db.queues, command.event);
    assert Members(Read(db, QueueKey(command.event))) == q;
    if command.TakeMembers? {
      assert ListAt(Exec(db, command).queues, command.event) == q[PopSize(db, command.event, command.n)..];
    } else {
      assert ListAt(Exec(db, command).queues, command.event) == Insert(q, command.entry);
    }
  }

  lemma NumberEffect(db: Db, command: Command, k: RedisKey)
    requires command.AddCount? || command.TakeLock? || command.DropLock? || command.WriteRate? || command.WriteCapacity?
    ensures Read(Exec(db, command), k) ==
            if k == KeyOf(command) then Effect(command, Read(db, k), db.now) else Read(db, k)
  {
  }

  lemma HashEffect(db: Db, command: Command, k: RedisKey)
    requires command.WriteFields? || command.WriteToken? || command.SetDeadline?
    ensures Read(Exec(db, command), k) ==
            if k == KeyOf(command) then Effect(command, Read(db, k), db.now) else Read(db, k)
  {
    assert LiveHash(Read(db, TicketKey(command.ticket)), db.now).Some? <==> Live(db, command.ticket);
  }

  /** SET of a string key, or its removal. */
  function Put(flat: map<string, Value>, name: string, v: Option<Value>): map<string, Value> {
    if v.Some? then flat[name := v.value] else flat - {name}
  }

  lemma LookupPut(flat: map<string, Value>, name: string, v: Option<Value>, other: string)
    ensures Lookup(Put(flat, name, v), other) == if other == name then v else Lookup(flat, other)
  {
  }

  /** A command on the flat store, which looks at nothing but the string under its key. */
  function FlatExec(flat: map<string, Value>, now: Time, command: Command): map<string, Value>
    requires IsKey(KeyOf(command))
  {
    var name := Text(KeyOf(command));
    Put(flat, name, Effect(command, Lookup(flat, name), now))
  }

  /** One command on strings does what it does on the per-event maps, and touches no other event's or ticket's keys. */
  lemma FlatSimulates(flat: map<string, Value>, db: Db, command: Command)
    requires Represents(flat, db) && IsKey(KeyOf(command))
    ensures Represents(FlatExec(flat, db.now, command), Exec(db, command))
  {
    var name := Text(KeyOf(command));
    var v := Effect(command, Lookup(flat, name), db.now);
    forall j | IsKey(j) ensures Lookup(Put(flat, name, v), Text(j)) == Read(Exec(db, command), j) {
      LookupPut(flat, name, v, Text(j));
      ExecEffect(db, command, j);
      if Text(j) == name {
        KeysDistinct(j, KeyOf(command));
      }
    }
  }

  // ------------------------------------------------------------------ runs

  /** The command of a tick's step. */
  function TickCommand(t: Tick): Option<Command> {
    match t.pc
    case Pop(n) => Some(TakeMembers(t.event, n))
    case Store(token) => if t.todo == [] then None else Some(WriteToken(t.todo[0].id, token))
    case Count(_) => Some(AddCount(t.event, 1))
    case Release => Some(DropLock(t.event))
    case _ => None
  }

  function JoinCommand(j: Join): Option<Command> {
    match j.pc
    case Add => Some(AddMember(j.event, Entry(j.score, j.id)))
    case Fill => Some(WriteFields(j.id, FieldsOf(j)))
    case SetExpiry => Some(SetDeadline(j.id, TICKET_KEY_TTL))
    case Left => None
  }

  /** The command by which an action changes a key, if any. */
  function CommandOf(c: Core, a: Action): Option<Command> {
    match a
    case StartTick(e) => Some(TakeLock(e))
    case TickStep(i, o) => if i < |c.ticks| && o != Failed then TickCommand(c.ticks[i]) else None
    case JoinStep(i, o) => if i < |c.joins| && o != Failed then JoinCommand(c.joins[i]) else None
    case Exit(e, o) => if e.name != "" && o != Failed then Some(AddCount(e, -1)) else None
    case SetRate(e, n) => if 0 < n <= INT64_MAX then Some(WriteRate(e, n)) else None
    case SetCapacity(e, n) => if 0 < n <= INT64_MAX then Some(WriteCapacity(e, n)) else None
    case _ => None
  }

  function ExecAll(db: Db, command: Option<Command>): Db {
    if command.Some? then Exec(db, command.value) else db
  }

  /** An action's only effect on keys is its command. */
  lemma NextExec(c: Core, a: Action, k: RedisKey)
    requires forall e :: e in c.db.active ==> Int64(c.db.active[e])
    ensures Read(Next(c, a).db, k) == Read(ExecAll(c.db, CommandOf(c, a)), k)
  {
    match a
    case TickStep(i, o) =>
      if i < |c.ticks| {
        TickExec(c, i, o);
        SameReads(Next(c, a).db, ExecAll(c.db, CommandOf(c, a)), k);
      }
    case JoinStep(i, o) =>
      if i < |c.joins| {
        JoinExec(c, i, o);
      }
    case StartTick(_) =>
    case CrashTick(_) =>
    case _ =>
      QuietExec(c, a);
      SameReads(Quiet(c, a).db, ExecAll(c.db, CommandOf(c, a)), k);
  }

  /** Neither the clock nor the channels are keys. */
  ghost predicate SameKeys(d: Db, f: Db) {
    d == f.(now := d.now, published := d.published)
  }

  lemma SameReads(d: Db, f: Db, k: RedisKey)
    requires SameKeys(d, f)
    ensures Read(d, k) == Read(f, k)
  {
  }

  lemma TickExec(c: Core, i: nat, o: Outcome)
    requires i < |c.ticks|
    ensures SameKeys(Next(c, TickStep(i, o)).db, ExecAll(c.db, CommandOf(c, TickStep(i, o))))
  {
    TickDbExec(c.db, c.ticks[i]);
    assert Next(c, TickStep(i, o)).db == if o == Failed then c.db else TickDb(c.db, c.ticks[i]);
  }

  lemma TickDbExec(db: Db, t: Tick)
    ensures SameKeys(TickDb(db, t), ExecAll(db, TickCommand(t)))
  {
  }

  lemma JoinExec(c: Core, i: nat, o: Outcome)
    requires i < |c.joins|
    ensures Next(c, JoinStep(i, o)).db == ExecAll(c.db, CommandOf(c, JoinStep(i, o)))
  {
  }

  lemma QuietExec(c: Core, a: Action)
    requires !a.StartTick? && !a.TickStep? && !a.CrashTick? && !a.JoinStep?
    requires forall e :: e in c.db.active ==> Int64(c.db.active[e])
    ensures SameKeys(Quiet(c, a).db, ExecAll(c.db, CommandOf(c, a)))
  {
    match a
    case Exit(e, o) =>
      assert Int64(Number(c.db.active, e) - 1) <==> Number(c.db.active, e) > INT64_MIN;
      assert StepExit(c, e, o).db == if o != Failed then AddActive(c.db, e, -1) else c.db;
    case _ =>
  }

  function FlatNext(flat: map<string, Value>, c: Core, a: Action): map<string, Value> {
    var command := CommandOf(c, a);
    if command.Some? && IsKey(KeyOf(command.value)) then FlatExec(flat, c.db.now, command.value) else flat
  }

  lemma FlatNextSimulates(flat: map<string, Value>, c: Core, a: Action)
    requires Represents(flat, c.db) && forall e :: e in c.db.active ==> Int64(c.db.active[e])
    ensures Represents(FlatNext(flat, c, a), Next(c, a).db)
  {
    var command := CommandOf(c, a);
    if command.Some? && IsKey(KeyOf(command.value)) {
      FlatSimulates(flat, c.db, command.value);
    }
    forall k | IsKey(k) ensures Lookup(FlatNext(flat, c, a), Text(k)) == Read(Next(c, a).db, k) {
      assert Lookup(flat, Text(k)) == Read(c.db, k);
      NextExec(c, a, k);
      if command.Some? {
        ExecEffect(c.db, command.value, k);
      }
    }
  }

  /** The flat store after a run. */
  function FlatRun(flat: map<string, Value>, s: Site, acts: seq<Act>): map<string, Value> {
    if acts == [] then flat
    else
      var n := |acts| - 1;
      var before := FlatRun(flat, s, acts[..n]);
      if acts[n].Queue? then FlatNext(before, Run(s, acts[..n]).core, acts[n].action) else before
  }

  /** Over every run the string-keyed store holds exactly what the per-event maps hold. */
  lemma {:induction false} FlatRunRepresents(flat: map<string, Value>, s: Site, acts: seq<Act>)
    requires Start(s) && Represents(flat, s.core.db)
    ensures Represents(FlatRun(flat, s, acts), Run(s, acts).core.db)
  {
    if acts != [] {
      var n := |acts| - 1;
      FlatRunRepresents(flat, s, acts[..n]);
      assert NumbersOk(Run(s, acts[..n]).core) by {
        AlwaysOk(s, acts[..n]);
      }
      if acts[n].Queue? {
        FlatNextSimulates(FlatRun(flat, s, acts[..n]), Run(s, acts[..n]).core, acts[n].action);
      }
    }
  }

  // ------------------------------------------------------------------ one event at a time

  /** The event an action works on. */
  function EventOf(c: Core, a: Action): Option<EventId> {
    match a
    case StartTick(e) => Some(e)
    case TickStep(i, _) => if i < |c.ticks| then Some(c.ticks[i].event) else None
    case CrashTick(i) => if i < |c.ticks| then Some(c.ticks[i].event) else None
    case StartJoin(e, _, _) => Some(e)
    case JoinStep(i, _) => if i < |c.joins| then Some(c.joins[i].event) else None
    case CrashJoin(i) => if i < |c.joins| then Some(c.joins[i].event) else None
    case Exit(e, _) => Some(e)
    case SetRate(e, _) => Some(e)
    case SetCapacity(e, _) => Some(e)
    case Advance(_) => None
  }

  /** The keys of an event: its queue, numbers and lock, and the hashes of the tickets that joined it. */
  predicate BelongsTo(h: History, k: RedisKey, f: EventId) {
    if k.TicketKey? then k.ticket in h.fieldsOf && h.fieldsOf[k.ticket].eventId == f else k.event == f
  }

  /**
   What happens for one event leaves everything of every other alone: its queue, counter, configuration and lock, and
   its tickets' hashes.
   */
  lemma EventsAreIndependent(c: Core, a: Action, f: EventId, k: RedisKey)
    requires Conserved(c) && NumbersOk(c) && EventOf(c, a) != Some(f) && BelongsTo(c.hist, k, f)
    ensures Read(Next(c, a).db, k) == Read(c.db, k)
  {
    NextExec(c, a, k);
    if CommandOf(c, a).Some? {
      CommandOfEvent(c, a);
      ExecEffect(c.db, CommandOf(c, a).value, k);
    }
  }

  /** A command's key belongs to the event it is sent for, if the key is a hash or not. */
  lemma CommandOfEvent(c: Core, a: Action)
    requires Conserved(c) && CommandOf(c, a).Some?
    ensures EventOf(c, a).Some? && BelongsTo(c.hist, KeyOf(CommandOf(c, a).value), EventOf(c, a).value)
  {
    match a
    case TickStep(i, o) => HeldBelongs(c, i);
    case JoinStep(i, o) => assert JoinOk(c.hist, c.joins[i]);
    case _ =>
  }

  lemma HeldBelongs(c: Core, i: nat)
    requires Conserved(c) && i < |c.ticks| && TickCommand(c.ticks[i]).Some?
    ensures BelongsTo(c.hist, KeyOf(TickCommand(c.ticks[i]).value), c.ticks[i].event)
  {
    var t := c.ticks[i];
    if t.pc.Store? {
      assert HeldBy(c.hist.place, i, t) && Has(t.todo, t.todo[0].id);
      assert At(c.hist.place, t.todo[0].id, Place(t.event, Held(i)));
    }
  }
}
