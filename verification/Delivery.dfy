/**
 How a visitor learns of the admission (internal/api/handler_status.go): SSE streams, which subscribe
 before they read a rank, and pollers, which read the ticket hash. Both only read the queue's Redis.
 A subscription's buffer is the channel log from the moment of the subscription on.
 */
module Delivery {
  import opened Tokens
  import opened SortedSet
  import opened Redis
  import opened Machine

  datatype StreamPc = Binding | Authorize | Subscribe | FirstRank | Wait | TickRank | Ended | Gone

  datatype Output = PositionEvent(rank: nat) | AdmittedEvent(token: Token)

  datatype Stream = Stream(ticket: TicketId, secret: Option<nat>, event: EventId, pc: StreamPc,
                           start: nat, cursor: nat, out: seq<Output>)

  /**
   statusAuthorized: the digest stored by the join matches the secret in the q_ticket cookie. A client without a
   secret for this very ticket is refused.
   */
  predicate Authorized(db: Db, t: TicketId, secret: Option<nat>) {
    HGetFields(db, t).Some? && secret == Some(HGetFields(db, t).value.secret)
  }

  function ShowRank(db: Db, s: Stream, outcome: Outcome): Stream {
    var rank := Rank(ListAt(db.queues, s.event), s.ticket);
    s.(pc := Wait, out := if outcome == Ok && rank >= 0 then s.out + [PositionEvent(rank)] else s.out)
  }

  /** The next buffered message; messages on other channels never reach the buffer. */
  function Receive(db: Db, s: Stream): Stream {
    if s.cursor >= |db.published| then s
    else
      var t := s.(cursor := s.cursor + 1);
      match db.published[s.cursor]
      case TickMsg(e) => if e == s.event then t.(pc := TickRank) else t
      case AdmittedMsg(ticket, token) =>
        if ticket == s.ticket then t.(pc := Ended, out := s.out + [AdmittedEvent(token)]) else t
  }

  function StepStream(db: Db, s: Stream, outcome: Outcome): Stream {
    match s.pc
    case Binding =>
      var event := HGetEventId(db, s.ticket);
      if outcome == Ok && event.Some? then s.(pc := Authorize, event := event.value) else s.(pc := Gone)
    case Authorize => s.(pc := if outcome == Ok && Authorized(db, s.ticket, s.secret) then Subscribe else Gone)
    case Subscribe => s.(pc := FirstRank, start := |db.published|, cursor := |db.published|)
    case FirstRank => ShowRank(db, s, outcome)
    case Wait => Receive(db, s)
    case TickRank => ShowRank(db, s, outcome)
    case Ended => s
    case Gone => s
  }

  datatype PollPc = Idle | CheckSecret(event: EventId) | ReadToken(event: EventId) | ReadRank(event: EventId)

  datatype Answer = NotFound | Forbidden | Position(rank: nat) | Pending | AdmittedAnswer(token: Token)

  /** A client that polls again and again, one request at a time. */
  datatype Poller = Poller(ticket: TicketId, secret: Option<nat>, pc: PollPc, seen: seq<Answer>)

  function Reply(p: Poller, a: Answer): Poller {
    p.(pc := Idle, seen := p.seen + [a])
  }

  function StepPoller(db: Db, p: Poller, outcome: Outcome): Poller {
    match p.pc
    case Idle =>
      var event := HGetEventId(db, p.ticket);
      if outcome == Ok && event.Some? then p.(pc := CheckSecret(event.value)) else Reply(p, NotFound)
    case CheckSecret(event) =>
      if outcome == Ok && Authorized(db, p.ticket, p.secret) then p.(pc := ReadToken(event)) else Reply(p, Forbidden)
    case ReadToken(event) =>
      var token := HGetToken(db, p.ticket);
      if outcome == Ok && token.Some? then Reply(p, AdmittedAnswer(token.value)) else p.(pc := ReadRank(event))
    case ReadRank(event) =>
      var rank := Rank(ListAt(db.queues, event), p.ticket);
      Reply(p, if outcome == Ok && rank >= 0 then Position(rank) else Pending)
  }
}
