/**
 The data set of the queue's Redis, one map per key family, and the effect of each command on it.
 Keys shows that the flat, string-keyed store of internal/store/keys.go behaves like these maps.
 */
module Redis {
  import opened Config
  import opened Tokens
  import opened SortedSet

  /** The four fields createTicket writes with one HSET; the secret's digest is idealised as the secret. */
  datatype JoinFields = JoinFields(ticketId: TicketId, eventId: EventId, joinTime: nat, secret: nat)

  datatype Hash = Hash(fields: Option<JoinFields>, token: Option<Token>, deadline: Option<Time>)

  datatype Message = AdmittedMsg(ticket: TicketId, token: Token) | TickMsg(event: EventId)

  /** The commands that change a key. */
  datatype Command =
    | AddMember(event: EventId, entry: Entry)
    | TakeMembers(event: EventId, n: int)
    | WriteFields(ticket: TicketId, fields: JoinFields)
    | WriteToken(ticket: TicketId, token: Token)
    | SetDeadline(ticket: TicketId, ttl: nat)
    | AddCount(event: EventId, d: int)
    | TakeLock(event: EventId)
    | DropLock(event: EventId)
    | WriteRate(event: EventId, n: int)
    | WriteCapacity(event: EventId, n: int)

  datatype Db = Db(now: Time,
                   queues: map<EventId, seq<Entry>>,
                   hashes: map<TicketId, Hash>,
                   active: map<EventId, int>,
                   rate: map<EventId, int>,
                   capacity: map<EventId, int>,
                   locks: map<EventId, Time>,
                   published: seq<Message>)

  /** A missing sorted set is an empty one. */
  function ListAt<T>(m: map<EventId, seq<T>>, e: EventId): seq<T> {
    if e in m then m[e] else []
  }

  /** strconv.ParseInt of a missing key's empty reply is 0, with the error ignored. */
  function Number(m: map<EventId, int>, e: EventId): int {
    if e in m then m[e] else 0
  }

  predicate Live(db: Db, t: TicketId) {
    t in db.hashes && (db.hashes[t].deadline.Some? ==> db.now < db.hashes[t].deadline.value)
  }

  function HGetFields(db: Db, t: TicketId): Option<JoinFields> {
    if Live(db, t) then db.hashes[t].fields else None
  }

  function HGetEventId(db: Db, t: TicketId): Option<EventId> {
    match HGetFields(db, t)
    case None => None
    case Some(f) => Some(f.eventId)
  }

  function HGetToken(db: Db, t: TicketId): Option<Token> {
    if Live(db, t) then db.hashes[t].token else None
  }

  predicate Locked(db: Db, e: EventId) {
    e in db.locks && db.now < db.locks[e]
  }

  function ZAdd(db: Db, e: EventId, x: Entry): Db {
    db.(queues := db.queues[e := Insert(ListAt(db.queues, e), x)])
  }

  /** How many members ZPOPMIN n takes; Redis refuses a count below zero. */
  function PopSize(db: Db, e: EventId, n: int): nat {
    if n <= 0 then 0 else Min(n, |ListAt(db.queues, e)|)
  }

  function ZPopMin(db: Db, e: EventId, n: int): Db {
    db.(queues := db.queues[e := ListAt(db.queues, e)[PopSize(db, e, n)..]])
  }

  /** HSET on a key that has expired starts a new hash, without its old fields and without a deadline. */
  function HashToWrite(db: Db, t: TicketId): Hash {
    if Live(db, t) then db.hashes[t] else Hash(None, None, None)
  }

  function HSetFields(db: Db, t: TicketId, f: JoinFields): Db {
    db.(hashes := db.hashes[t := HashToWrite(db, t).(fields := Some(f))])
  }

  function HSetToken(db: Db, t: TicketId, token: Token): Db {
    db.(hashes := db.hashes[t := HashToWrite(db, t).(token := Some(token))])
  }

  function Expire(db: Db, t: TicketId, ttl: nat): Db {
    if Live(db, t) then db.(hashes := db.hashes[t := db.hashes[t].(deadline := Some(db.now + ttl))]) else db
  }

  /** INCR and DECR refuse to leave the int64 range. */
  function AddActive(db: Db, e: EventId, d: int): Db {
    var n := Number(db.active, e) + d;
    if Int64(n) then db.(active := db.active[e := n]) else db
  }

  function SetNxLock(db: Db, e: EventId): Db {
    if Locked(db, e) then db else db.(locks := db.locks[e := db.now + SCHEDULER_LOCK_TTL])
  }

  function DelLock(db: Db, e: EventId): Db {
    db.(locks := db.locks - {e})
  }

  function Publish(db: Db, m: Message): Db {
    db.(published := db.published + [m])
  }
}
