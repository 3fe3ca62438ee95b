/** The queue API's handlers (internal/api) as code, verified under interference against the machine's processes. */
module Handlers {
  import opened Config
  import opened Tokens
  import opened SortedSet
  import opened Redis
  import opened Machine
  import opened Conservation
  import opened Delivery
  import opened Views
  import opened Site
  import opened Runs
  import opened Visits
  import opened Visitors
  import opened Batches
  import opened Turns
  import opened World

  /** The q_ticket cookie ticketID.secret; a cookie without a dot has no secret. */
  datatype Cookie = Cookie(ticket: TicketId, secret: Option<nat>)

  /** The secret a cookie gives for ticket t: none if it is missing, another ticket's, or without a dot. */
  function SecretFor(cookie: Option<Cookie>, t: TicketId): Option<nat> {
    if cookie.Some? && cookie.value.ticket == t then cookie.value.secret else None
  }

  /** The cookie's ticket still has a place in e's queue, and the cookie has a secret. */
  predicate Resumable(db: Db, e: EventId, cookie: Option<Cookie>) {
    cookie.Some? && cookie.value.secret.Some? && Has(ListAt(db.queues, e), cookie.value.ticket)
  }

  /** The two flags of a position answer: switch to SSE, and no headroom. */
  datatype Flags = Flags(upgrade: bool, constrained: bool)

  function OrZero(n: Option<int>): int {
    if n.Some? then n.value else 0
  }

  /** When a stream's first three reads were made: an instant is the length of the run then. */
  datatype Opening = Opening(bindingAt: nat, secretAt: nat, rankAt: nat)

  ghost function EventThen(s: Site, acts: seq<Act>, k: nat, t: TicketId): Option<EventId>
    requires k <= |acts|
  {
    HGetEventId(CoreAt(s, acts, k).db, t)
  }

  /** The ticket has an event, and the client its secret. */
  ghost predicate Welcome(s: Site, acts: seq<Act>, k: Opening, t: TicketId, secret: Option<nat>)
    requires k.bindingAt <= |acts| && k.secretAt <= |acts|
  {
    EventThen(s, acts, k.bindingAt, t).Some? && Authorized(CoreAt(s, acts, k.secretAt).db, t, secret)
  }

  lemma WelcomeStays(s: Site, acts: seq<Act>, more: seq<Act>, k: Opening, t: TicketId, secret: Option<nat>)
    requires acts <= more && k.bindingAt <= |acts| && k.secretAt <= |acts|
    ensures Welcome(s, more, k, t, secret) == Welcome(s, acts, k, t, secret)
    ensures EventThen(s, more, k.bindingAt, t) == EventThen(s, acts, k.bindingAt, t)
  {
    CoreStays(s, acts, more, k.bindingAt);
    CoreStays(s, acts, more, k.secretAt);
  }

  /** The position event for a rank, if there is one. */
  function Shown(rank: int): seq<Output> {
    if rank >= 0 then [PositionEvent(rank)] else []
  }

  /** The first thing written is the rank that the ticket had then, if it was still waiting. */
  ghost predicate FirstTold(s: Site, acts: seq<Act>, k: nat, e: EventId, t: TicketId, out: seq<Output>)
    requires k <= |acts|
  {
    Shown(Rank(ListAt(CoreAt(s, acts, k).db.queues, e), t)) <= out
  }

  /** Refused with no output, ended by the admission, or left by the client after all its turns. */
  predicate ServedFor(s: Stream, taken: nat, turns: nat) {
    (s.pc == Gone && s.out == [] && taken == 0) || (s.pc == Ended && taken <= turns) || (s.pc == Wait && taken == turns)
  }

  /** What a join sends: the ZADD, and if that is answered, the hash and its lifetime. */
  function JoinCommands(e: EventId, id: TicketId, score: Time, secret: nat, added: bool): seq<Command> {
    [AddMember(e, Entry(score, id))] + if added then HashCommands(Join(e, id, score, secret, Fill)) else []
  }

  function HashCommands(j: Join): seq<Command> {
    [WriteFields(j.id, JoinFields(j.id, j.event, j.score, j.secret)), SetDeadline(j.id, TICKET_KEY_TTL)]
  }

  /** The log has grown by these commands. */
  predicate Lengthened(before: seq<Sent>, after: seq<Sent>, commands: seq<Command>) {
    && before <= after && |after| == |before| + |commands|
    && forall k :: 0 <= k < |commands| ==> after[|before| + k].command == commands[k]
  }

  lemma LengthenedTwice(a: seq<Sent>, b: seq<Sent>, c: seq<Sent>, first: seq<Command>, rest: seq<Command>)
    requires Lengthened(a, b, first) && Lengthened(b, c, rest)
    ensures Lengthened(a, c, first + rest)
  {
    forall k | 0 <= k < |first + rest| ensures c[|a| + k].command == (first + rest)[k] {
      if k < |first| {
        assert c[|a| + k] == b[|a| + k];
      } else {
        assert c[|b| + (k - |first|)].command == rest[k - |first|];
      }
    }
  }

  datatype JoinReply = BadRequest | Unavailable | Resumed(ticket: TicketId) | Created(ticket: TicketId, secret: nat)

  class Handler {
    const world: World

    constructor (world: World)
      ensures this.world == world
    {
      this.world := world;
    }

    twostate predicate Continues()
      reads world
    {
      && world.start == old(world.start) && old(world.trace) <= world.trace
      && world.calls.failures >= old(world.calls).failures
    }

    /** Nothing has been written since. */
    twostate predicate OnlyReads()
      reads world
    {
      Continues() && world.calls.sent == old(world.calls).sent
    }

    /** What the caller has sent since is exactly this. */
    twostate predicate SentOnly(more: seq<Sent>)
      reads world
    {
      world.calls.sent == old(world.calls).sent + more
    }

    /** These commands have been sent since, in this order, and no others. */
    twostate predicate SentCommands(commands: seq<Command>)
      reads world
    {
      Lengthened(old(world.calls).sent, world.calls.sent, commands)
    }

    /** The first of the commands sent since was answered. */
    twostate predicate FirstAnswered()
      reads world
    {
      |world.calls.sent| > |old(world.calls).sent| && world.calls.sent[|old(world.calls).sent|].outcome == Ok
    }

    /** Every command of this call was answered. */
    twostate predicate AllAnswered()
      reads world
    {
      world.calls.failures == old(world.calls).failures
    }

    // ---------------------------------------------------------------- joining

    ghost predicate JoinStands(i: nat, j: Join)
      reads world
    {
      world.Valid() && i < |world.site.core.joins| && world.site.core.joins[i] == j
    }

    /** uuid.New never repeats an id; reading the random source is taken to succeed. */
    ghost predicate NewId(id: TicketId)
      reads world
    {
      world.Valid() && id !in world.site.core.hist.ids
    }

    /**
     Join resumes the cookie's ticket if it has a rank in this event's queue, and otherwise creates one. A created
     ticket is bound to the event it joined, and what its hash will say is fixed; its score was read during the call.
     */
    method JoinQueue(e: EventId, cookie: Option<Cookie>, id: TicketId, secret: nat)
      returns (reply: JoinReply, ghost score: Time)
      requires NewId(id)
      modifies world
      ensures world.Valid() && Continues()
      ensures reply == BadRequest <==> e.name == ""
      ensures reply.Resumed? ==> Resumable(old(world.Snapshot()), e, cookie) && reply.ticket == cookie.value.ticket
      ensures world.calls.failures == old(world.calls).failures ==>
                !reply.Unavailable? && (reply.Resumed? <==> e.name != "" && Resumable(old(world.Snapshot()), e, cookie))
      ensures reply.Created? ==> reply == Created(id, secret) && Joined(e, id, score, secret)
      ensures reply.Created? || reply.Unavailable? ==>
                && old(world.now) <= score <= world.now
                && SentCommands(JoinCommands(e, id, score, secret, reply.Created?))
                && (reply.Created? <==> FirstAnswered())
      ensures reply.BadRequest? || reply.Resumed? ==> SentCommands([])
    {
      score := world.now;
      if e.name == "" {
        return BadRequest, score;
      }
      if cookie.Some? {
        var o, rank := world.ZRank(e, cookie.value.ticket);
        if o == Ok && rank >= 0 && cookie.value.secret.Some? {
          return Resumed(cookie.value.ticket), score;
        }
      }
      var created;
      created, score := CreateTicket(e, id, secret);
      reply := if created then Created(id, secret) else Unavailable;
    }

    /** createTicket: ZADD, whose failure is fatal, then HSET and EXPIRE, whose failures are ignored. */
    method CreateTicket(e: EventId, id: TicketId, secret: nat) returns (created: bool, ghost score: Time)
      requires NewId(id) && e.name != ""
      modifies world
      ensures world.Valid() && Continues()
      ensures world.calls.failures >= old(world.calls).failures + if created then 0 else 1
      ensures created ==> Joined(e, id, score, secret)
      ensures old(world.now) <= score <= world.now && (created <==> FirstAnswered())
      ensures SentCommands(JoinCommands(e, id, score, secret, created))
    {
      world.Yield(TheDrawer(id));
      RunGrows(world.start, old(world.trace), world.trace);
      score := world.now;
      created := WriteTicket(e, id, secret);
    }

    /** What the ticket's join writes is on record. */
    ghost predicate Joined(e: EventId, id: TicketId, score: Time, secret: nat)
      reads world
    {
      && id in world.site.core.hist.fieldsOf
      && world.site.core.hist.fieldsOf[id] == JoinFields(id, e, score, secret)
    }

    /** The score is read, and then the three commands are sent. */
    method WriteTicket(e: EventId, id: TicketId, secret: nat) returns (created: bool)
      requires NewId(id) && e.name != ""
      modifies world
      ensures world.Valid() && Continues()
      ensures world.calls.failures >= old(world.calls).failures + if created then 0 else 1
      ensures created ==> Joined(e, id, old(world.now), secret)
      ensures old(world.now) <= world.now && (created <==> FirstAnswered())
      ensures SentCommands(JoinCommands(e, id, old(world.now), secret, created))
    {
      var score := world.now;
      ghost var i := |world.site.core.joins|;
      world.RecordStartJoin(e, id, secret);
      var j := Join(e, id, score, secret, Add);
      created := AddToQueue(j, i);
      ghost var added := world.calls.sent;
      if created {
        WriteHash(j, i);
        LengthenedTwice(old(world.calls).sent, added, world.calls.sent, JoinCommands(e, id, score, secret, false),
                        HashCommands(j));
      }
      RunGrows(world.start, old(world.trace), world.trace);
    }

    method AddToQueue(j: Join, ghost i: nat) returns (added: bool)
      requires JoinStands(i, j) && j.pc == Add
      modifies world
      ensures world.Valid() && Continues()
      ensures added ==> JoinStands(i, j.(pc := Fill))
      ensures world.calls.failures == old(world.calls).failures + if added then 0 else 1
      ensures SentCommands([AddMember(j.event, Entry(j.score, j.id))]) && (added <==> FirstAnswered())
    {
      world.Yield(TheJoin(i));
      var o := world.ZAdd(j.event, Entry(j.score, j.id));
      world.RecordJoin(i, o);
      added := o == Ok;
    }

    /** HSET and EXPIRE; failures are ignored. */
    method WriteHash(j: Join, ghost i: nat)
      requires JoinStands(i, j.(pc := Fill))
      modifies world
      ensures world.Valid() && Continues() && Joined(j.event, j.id, j.score, j.secret) && SentCommands(HashCommands(j))
    {
      FillHash(j, i);
      ghost var filled := world.calls.sent;
      ExpireHash(j, i);
      LengthenedTwice(old(world.calls).sent, filled, world.calls.sent, HashCommands(j)[..1], HashCommands(j)[1..]);
    }

    method FillHash(j: Join, ghost i: nat)
      requires JoinStands(i, j.(pc := Fill))
      modifies world
      ensures JoinStands(i, j.(pc := SetExpiry)) && Continues()
      ensures SentCommands([WriteFields(j.id, JoinFields(j.id, j.event, j.score, j.secret))])
    {
      world.Yield(TheJoin(i));
      var o := world.HSetFields(j.id, JoinFields(j.id, j.event, j.score, j.secret));
      world.RecordJoin(i, o);
    }

    method ExpireHash(j: Join, ghost i: nat)
      requires JoinStands(i, j.(pc := SetExpiry))
      modifies world
      ensures JoinStands(i, j.(pc := Left)) && Continues() && SentCommands([SetDeadline(j.id, TICKET_KEY_TTL)])
      ensures Joined(j.event, j.id, j.score, j.secret)
    {
      world.Yield(TheJoin(i));
      ghost var c := world.site.core;
      assert JoinOk(c.hist, c.joins[i]) by {
        AlwaysOk(world.start, world.trace);
      }
      var o := world.Expire(j.id, TICKET_KEY_TTL);
      world.RecordJoin(i, o);
    }

    // ---------------------------------------------------------------- polling

    ghost predicate PollStands(i: nat, p: Poller)
      reads world
    {
      world.Valid() && i < |world.site.pollers| && world.site.pollers[i] == p
    }

    /** The queue's Redis as it was when the run was k steps long. */
    ghost function At(k: nat): Db
      reads world
      requires k <= |world.trace|
    {
      Run(world.start, world.trace[..k]).core.db
    }

    /** The rank was read in this event's queue at instant k, the capacity at instant m, and the counter just now. */
    ghost predicate ShownAt(t: TicketId, rank: nat, flags: Flags, event: EventId, k: nat, m: nat, failed: bool)
      reads world
    {
      && k <= m <= |world.trace| && Rank(ListAt(At(k).queues, event), t) == rank
      && (!failed ==> flags.constrained == NoHeadroom(Number(At(m).capacity, event), Number(world.active, event)))
    }

    /** The capacity and the counter are read one after the other; a position answer carries both flags. */
    method PollFlags(t: TicketId, event: EventId, rank: nat, threshold: int, ghost p: Poller, ghost i: nat,
                     ghost k: nat)
      returns (flags: Flags, ghost m: nat)
      requires PollStands(i, p) && k <= |world.trace| && Rank(ListAt(At(k).queues, event), t) == rank
      modifies world
      ensures PollStands(i, p) && OnlyReads() && flags.upgrade == (rank < threshold)
      ensures world.calls.failures >= old(world.calls).failures
      ensures ShownAt(t, rank, flags, event, k, m, world.calls.failures > old(world.calls).failures)
    {
      var capacity;
      capacity, m := PollCapacity(event, p, i);
      AtStays(k);
      label read:
      var active := PollActive(event, p, i);
      AtStays(k);
      AtStays@read(m);
      flags := Flags(rank < threshold, NoHeadroom(capacity, active));
    }

    /** A run that goes on does not change what was. */
    twostate lemma AtStays(k: nat)
      requires Continues() && k <= |old(world.trace)|
      ensures k <= |world.trace| && At(k) == old(At(k))
    {
      assert world.trace[..k] == old(world.trace)[..k];
    }

    method PollActive(event: EventId, ghost p: Poller, ghost i: nat) returns (active: int)
      requires PollStands(i, p)
      modifies world
      ensures PollStands(i, p) && OnlyReads() && world.calls.failures >= old(world.calls).failures
      ensures world.calls.failures == old(world.calls).failures ==> active == Number(world.active, event)
    {
      world.Yield(ThePoller(i));
      var _, stored := world.GetNumber(world.active, event);
      active := OrZero(stored);
    }

    method PollCapacity(event: EventId, ghost p: Poller, ghost i: nat) returns (capacity: int, ghost m: nat)
      requires PollStands(i, p)
      modifies world
      ensures PollStands(i, p) && OnlyReads() && world.calls.failures >= old(world.calls).failures
      ensures |old(world.trace)| <= m == |world.trace|
      ensures world.calls.failures == old(world.calls).failures ==> capacity == Number(At(m).capacity, event)
    {
      world.Yield(ThePoller(i));
      m := |world.trace|;
      assert world.trace[..m] == world.trace;
      var _, stored := world.GetNumber(world.capacity, event);
      capacity := OrZero(stored);
    }

    /**
     One request of poller i is answered exactly as the machine's poller is, with no other effect on it. A position
     comes with its flags.
     */
    method QueueStatusPoll(t: TicketId, cookie: Option<Cookie>, threshold: int, ghost p: Poller, ghost i: nat)
      returns (a: Answer, flags: Flags, ghost event: EventId, ghost k: nat, ghost m: nat)
      requires PollStands(i, p) && p.pc == Idle && p.ticket == t && p.secret == SecretFor(cookie, t)
      modifies world
      ensures PollStands(i, Reply(p, a)) && OnlyReads()
      ensures a.Position? ==> flags.upgrade == (a.rank < threshold)
      ensures a.Position? ==> ShownAt(t, a.rank, flags, event, k, m, world.calls.failures > old(world.calls).failures)
    {
      flags, event, k, m := Flags(false, false), EventId(""), 0, 0;
      var found;
      a, found := Answered(t, cookie, p, i);
      if a.Position? {
        event, k := found, |world.trace|;
        assert world.trace[..k] == world.trace;
        flags, m := PollFlags(t, found, a.rank, threshold, Reply(p, a), i, k);
      }
    }

    method Answered(t: TicketId, cookie: Option<Cookie>, ghost p: Poller, ghost i: nat)
      returns (a: Answer, found: EventId)
      requires PollStands(i, p) && p.pc == Idle && p.ticket == t && p.secret == SecretFor(cookie, t)
      modifies world
      ensures PollStands(i, Reply(p, a)) && OnlyReads() && world.calls.failures >= old(world.calls).failures
      ensures a.Position? ==> Rank(ListAt(world.queues, found), t) == a.rank
    {
      found := EventId("");
      var event := PollBinding(t, p, i);
      if event.None? {
        return NotFound, found;
      }
      found := event.value;
      var allowed := PollAuthorized(t, cookie, event.value, p, i);
      if !allowed {
        return Forbidden, found;
      }
      var token := PollToken(t, event.value, p, i);
      if token.Some? {
        return AdmittedAnswer(token.value), found;
      }
      a := PollRank(t, event.value, p, i);
    }

    method PollBinding(t: TicketId, ghost p: Poller, ghost i: nat) returns (event: Option<EventId>)
      requires PollStands(i, p) && p.pc == Idle && p.ticket == t
      modifies world
      ensures world.calls.failures >= old(world.calls).failures
      ensures PollStands(i, if event.Some? then p.(pc := CheckSecret(event.value)) else Reply(p, NotFound))
              && OnlyReads()
    {
      world.Yield(ThePoller(i));
      var o;
      o, event := world.HGetEventId(t);
      world.RecordPoll(i, o);
    }

    /** statusAuthorized: a missing cookie, another ticket's cookie, or a cookie without a secret is refused unread. */
    method PollAuthorized(t: TicketId, cookie: Option<Cookie>, event: EventId, ghost p: Poller, ghost i: nat)
      returns (allowed: bool)
      requires PollStands(i, p.(pc := CheckSecret(event))) && p.ticket == t && p.secret == SecretFor(cookie, t)
      modifies world
      ensures world.calls.failures >= old(world.calls).failures
      ensures PollStands(i, if allowed then p.(pc := ReadToken(event)) else Reply(p, Forbidden)) && OnlyReads()
    {
      world.Yield(ThePoller(i));
      var o;
      o, allowed := StatusAuthorized(t, cookie);
      ghost var q := p.(pc := CheckSecret(event));
      assert StepPoller(world.Snapshot(), q, o) == if allowed then p.(pc := ReadToken(event)) else Reply(p, Forbidden);
      world.RecordPoll(i, o);
    }

    /** A cookie that cannot match is refused without a command. */
    method StatusAuthorized(t: TicketId, cookie: Option<Cookie>) returns (o: Outcome, allowed: bool)
      requires world.calls.reply == Ok
      modifies world`calls
      ensures world.Replied(o)
      ensures allowed <==> o == Ok && Authorized(world.Snapshot(), t, SecretFor(cookie, t))
    {
      if cookie.None? || cookie.value.secret.None? || cookie.value.ticket != t {
        return Ok, false;
      }
      var stored;
      o, stored := world.HGetSecret(t);
      allowed := stored == Some(cookie.value.secret.value);
    }

    method PollToken(t: TicketId, event: EventId, ghost p: Poller, ghost i: nat) returns (token: Option<Token>)
      requires PollStands(i, p.(pc := ReadToken(event))) && p.ticket == t
      modifies world
      ensures world.calls.failures >= old(world.calls).failures
      ensures PollStands(i, if token.Some? then Reply(p, AdmittedAnswer(token.value)) else p.(pc := ReadRank(event)))
              && OnlyReads()
    {
      world.Yield(ThePoller(i));
      var o;
      o, token := world.HGetToken(t);
      world.RecordPoll(i, o);
    }

    method PollRank(t: TicketId, event: EventId, ghost p: Poller, ghost i: nat) returns (a: Answer)
      requires PollStands(i, p.(pc := ReadRank(event))) && p.ticket == t
      modifies world
      ensures a.Position? ==> Rank(ListAt(world.queues, event), t) == a.rank
      ensures world.calls.failures >= old(world.calls).failures
      ensures PollStands(i, Reply(p, a)) && OnlyReads()
    {
      world.Yield(ThePoller(i));
      var o;
      o, a := GetPosition(t, event);
      assert Reply(p, a) == StepPoller(world.Snapshot(), p.(pc := ReadRank(event)), o);
      world.RecordPoll(i, o);
    }

    /** The position, or pending if there is none or no answer. */
    method GetPosition(t: TicketId, event: EventId) returns (o: Outcome, a: Answer)
      modifies world`calls
      ensures world.Replied(o)
      ensures var rank := Rank(ListAt(world.queues, event), t);
              a == if o == Ok && rank >= 0 then Position(rank) else Pending
    {
      var rank;
      o, rank := world.ZRank(event, t);
      a := if o == Ok && rank >= 0 then Position(rank) else Pending;
    }

    // ---------------------------------------------------------------- streaming

    ghost predicate StreamStands(i: nat, s: Stream)
      reads world
    {
      world.Valid() && i < |world.site.streams| && world.site.streams[i] == s && s.cursor <= |world.published|
    }

    predicate SameClient(r: Stream, s: Stream) {
      r.ticket == s.ticket && r.secret == s.secret
    }

    /** How many turns stream i has taken. */
    ghost function TurnsOf(i: nat): nat
      reads world
    {
      TurnsTaken(world.start, world.trace, i)
    }

    /**
     QueueStatusSSE writes exactly what the machine's stream writes, and serves it to the end: until the admission, or
     until the client leaves after so many turns of the select loop. If every command is answered, it is refused exactly
     for want of an event or of the right secret, a ticket that still waits is first told its rank, and an admission
     that the turns have reached in the buffer is the last output.
     */
    method QueueStatusSSE(t: TicketId, cookie: Option<Cookie>, turns: nat)
      returns (out: seq<Output>, ghost i: nat, ghost k: Opening)
      requires world.Valid()
      modifies world
      ensures world.Valid() && OnlyReads()
      ensures i == |old(world.site.streams)| < |world.site.streams|
      ensures world.site.streams[i].ticket == t && world.site.streams[i].secret == SecretFor(cookie, t)
              && world.site.streams[i].out == out
      ensures forall k :: 0 <= k < |out| ==> out[k].PositionEvent? || k == |out| - 1
      ensures ServedFor(world.site.streams[i], TurnsOf(i), turns)
      ensures |old(world.trace)| <= k.bindingAt <= k.secretAt <= k.rankAt <= |world.trace|
      ensures AllAnswered() ==>
                (world.site.streams[i].pc == Gone <==> !Welcome(world.start, world.trace, k, t, SecretFor(cookie, t)))
      ensures AllAnswered() && world.site.streams[i].pc != Gone ==>
                && EventThen(world.start, world.trace, k.bindingAt, t) == Some(world.site.streams[i].event)
                && FirstTold(world.start, world.trace, k.rankAt, world.site.streams[i].event, t, out)
      ensures forall m :: world.site.streams[i].start <= m < world.site.streams[i].cursor && m < |world.published|
                          && IsAdmission(world.published[m], t) && world.site.streams[i].pc != Gone ==>
                out != [] && out[|out| - 1] == AdmittedEvent(world.published[m].token)
    {
      var s;
      s, i, k := OpenAndFollow(t, cookie, turns);
      out := s.out;
      StreamShape(world.start, world.trace, i);
      ghost var st := world.site.streams[i];
      forall m | st.start <= m < st.cursor && m < |world.published| && IsAdmission(world.published[m], t)
                 && st.pc != Gone
        ensures out != [] && out[|out| - 1] == AdmittedEvent(world.published[m].token)
      {
        ReachedIsLast(world.start, world.trace, i, m);
      }
    }

    method OpenAndFollow(t: TicketId, cookie: Option<Cookie>, turns: nat)
      returns (s: Stream, ghost i: nat, ghost k: Opening)
      requires world.Valid()
      modifies world
      ensures StreamStands(i, s) && OnlyReads() && i == |old(world.site.streams)|
      ensures s.ticket == t && s.secret == SecretFor(cookie, t) && ServedFor(s, TurnsOf(i), turns)
      ensures |old(world.trace)| <= k.bindingAt <= k.secretAt <= k.rankAt <= |world.trace|
      ensures AllAnswered() ==> (s.pc == Gone <==> !Welcome(world.start, world.trace, k, t, SecretFor(cookie, t)))
      ensures AllAnswered() && s.pc != Gone ==>
                && EventThen(world.start, world.trace, k.bindingAt, t) == Some(s.event)
                && FirstTold(world.start, world.trace, k.rankAt, s.event, t, s.out)
    {
      s, i := ConnectStream(t, SecretFor(cookie, t));
      s, k := BeginStream(s, cookie, i);
      if s.pc == Subscribe {
        ghost var begun, taken, n := world.trace, 0, 0;
        s, taken, n := FollowStream(s, turns, i);
        WelcomeStays(world.start, begun, world.trace, k, t, SecretFor(cookie, t));
        k := k.(rankAt := n);
      }
    }

    method ConnectStream(t: TicketId, secret: Option<nat>) returns (s: Stream, ghost i: nat)
      requires world.Valid()
      modifies world
      ensures StreamStands(i, s) && OnlyReads() && i == |old(world.site.streams)| && AllAnswered()
      ensures s == Stream(t, secret, EventId(""), Binding, 0, 0, []) && TurnsOf(i) == 0
    {
      i := |world.site.streams|;
      NoTurnsYet(world.start, world.trace, i);
      s := Stream(t, secret, EventId(""), Binding, 0, 0, []);
      world.RecordConnect(t, secret);
      TurnsKept(world.start, old(world.trace), world.trace, i);
    }

    method BeginStream(s: Stream, cookie: Option<Cookie>, ghost i: nat) returns (r: Stream, ghost k: Opening)
      requires StreamStands(i, s) && s.pc == Binding && s.secret == SecretFor(cookie, s.ticket)
      modifies world
      ensures StreamStands(i, r) && OnlyReads() && SameClient(r, s) && r.out == s.out && TurnsOf(i) == old(TurnsOf(i))
      ensures r.pc == Subscribe || r.pc == Gone
      ensures |old(world.trace)| <= k.bindingAt <= k.secretAt <= k.rankAt <= |world.trace|
      ensures AllAnswered() ==> (r.pc == Subscribe <==> Welcome(world.start, world.trace, k, s.ticket, s.secret))
      ensures r.pc == Subscribe ==> EventThen(world.start, world.trace, k.bindingAt, s.ticket) == Some(r.event)
    {
      r := OpenStream(s, i);
      ghost var bound, n := world.trace, |world.trace|;
      CoreNow(world.start, bound);
      k := Opening(n, n, n);
      if r.pc == Authorize {
        r := AuthorizeStream(r, cookie, i);
        CoreStays(world.start, bound, world.trace, n);
        CoreNow(world.start, world.trace);
        k := Opening(n, |world.trace|, |world.trace|);
      }
    }

    /** Subscribes, reads the rank, and serves the select loop until the admission ends it or the client leaves. */
    method FollowStream(s: Stream, turns: nat, ghost i: nat) returns (r: Stream, ghost taken: nat, ghost n: nat)
      requires StreamStands(i, s) && s.pc == Subscribe && s.out == []
      modifies world
      ensures StreamStands(i, r) && OnlyReads() && SameClient(r, s) && r.event == s.event
      ensures taken <= turns && (r.pc == Ended || (r.pc == Wait && taken == turns))
      ensures TurnsOf(i) == old(TurnsOf(i)) + taken
      ensures |old(world.trace)| <= n <= |world.trace|
      ensures AllAnswered() ==> FirstTold(world.start, world.trace, n, s.event, s.ticket, r.out)
    {
      r := SubscribeStream(s, i);
      r := SendRank(r, i);
      ghost var first, told := world.trace, r.out;
      n := |first|;
      CoreNow(world.start, first);
      r, taken := ServeStream(r, turns, i);
      CoreStays(world.start, first, world.trace, n);
    }

    /** The select loop. */
    method ServeStream(s: Stream, turns: nat, ghost i: nat) returns (r: Stream, ghost taken: nat)
      requires StreamStands(i, s) && s.pc == Wait
      modifies world
      ensures StreamStands(i, r) && OnlyReads() && SameClient(r, s) && r.event == s.event && s.out <= r.out
      ensures taken <= turns && (r.pc == Ended || (r.pc == Wait && taken == turns))
      ensures TurnsOf(i) == old(TurnsOf(i)) + taken
    {
      r := s;
      var turn := 0;
      while turn < turns && r.pc != Ended
        invariant turn <= turns && StreamStands(i, r) && (r.pc == Wait || r.pc == Ended) && SameClient(r, s)
        invariant OnlyReads() && r.event == s.event && s.out <= r.out && TurnsOf(i) == old(TurnsOf(i)) + turn
      {
        r := TakeTurn(r, i);
        turn := turn + 1;
      }
      taken := turn;
    }

    method TakeTurn(s: Stream, ghost i: nat) returns (r: Stream)
      requires StreamStands(i, s) && s.pc == Wait
      modifies world
      ensures StreamStands(i, r) && OnlyReads() && SameClient(r, s) && (r.pc == Wait || r.pc == Ended)
      ensures r.event == s.event && s.out <= r.out && TurnsOf(i) == old(TurnsOf(i)) + 1
    {
      r := ReceiveMessage(s, i);
      if r.pc == TickRank {
        r := SendRank(r, i);
      }
    }

    /** The step of a stream; since then it has taken no other. */
    ghost method RecordServed(s: Stream, r: Stream, i: nat, o: Outcome, before: seq<Act>)
      requires StreamStands(i, s) && o == world.calls.reply && r == StepStream(world.Snapshot(), s, o)
      requires before <= world.trace && Untouched(world.trace, |before|, i)
      modifies world`site, world`trace, world`calls
      ensures StreamStands(i, r) && old(world.trace) <= world.trace && world.calls == old(world.calls).(reply := Ok)
      ensures TurnsOf(i) == TurnsTaken(world.start, before, i) + if s.pc == Wait then 1 else 0
    {
      world.RecordStream(i, o);
      TurnsAfterStep(world.start, before, old(world.trace), i, o);
    }

    method OpenStream(s: Stream, ghost i: nat) returns (r: Stream)
      requires StreamStands(i, s) && s.pc == Binding
      modifies world
      ensures StreamStands(i, r) && OnlyReads() && SameClient(r, s) && r.out == s.out
              && (r.pc == Authorize || r.pc == Gone) && TurnsOf(i) == old(TurnsOf(i))
      ensures AllAnswered() ==> (r.pc == Authorize <==> HGetEventId(world.Snapshot(), s.ticket).Some?)
      ensures r.pc == Authorize ==> HGetEventId(world.Snapshot(), s.ticket) == Some(r.event)
    {
      world.Yield(TheStream(i));
      var o, event := world.HGetEventId(s.ticket);
      r := if event.Some? then s.(pc := Authorize, event := event.value) else s.(pc := Gone);
      RecordServed(s, r, i, o, old(world.trace));
    }

    method AuthorizeStream(s: Stream, cookie: Option<Cookie>, ghost i: nat) returns (r: Stream)
      requires StreamStands(i, s) && s.pc == Authorize && s.secret == SecretFor(cookie, s.ticket)
      modifies world
      ensures StreamStands(i, r) && OnlyReads() && SameClient(r, s) && r.out == s.out && r.event == s.event
              && (r.pc == Subscribe || r.pc == Gone) && TurnsOf(i) == old(TurnsOf(i))
      ensures AllAnswered() ==> (r.pc == Subscribe <==> Authorized(world.Snapshot(), s.ticket, s.secret))
    {
      world.Yield(TheStream(i));
      var o, allowed := StatusAuthorized(s.ticket, cookie);
      r := s.(pc := if allowed then Subscribe else Gone);
      ghost var known := Authorized(world.Snapshot(), s.ticket, s.secret);
      RecordServed(s, r, i, o, old(world.trace));
      assert known == Authorized(world.Snapshot(), s.ticket, s.secret);
    }

    /** SUBSCRIBE, taken to be in force when the call returns: from here on the channels' messages are buffered. */
    method SubscribeStream(s: Stream, ghost i: nat) returns (r: Stream)
      requires StreamStands(i, s) && s.pc == Subscribe
      modifies world
      ensures StreamStands(i, r) && OnlyReads() && SameClient(r, s) && r.out == s.out && r.pc == FirstRank
      ensures r.event == s.event && TurnsOf(i) == old(TurnsOf(i)) && AllAnswered()
      ensures r.start == |world.published| == r.cursor
    {
      world.Yield(TheStream(i));
      r := s.(pc := FirstRank, start := |world.published|, cursor := |world.published|);
      RecordServed(s, r, i, Ok, old(world.trace));
    }

    /** Reads the rank and writes a position event if the ticket is still in the queue. */
    method SendRank(s: Stream, ghost i: nat) returns (r: Stream)
      requires StreamStands(i, s) && (s.pc == FirstRank || s.pc == TickRank)
      modifies world
      ensures StreamStands(i, r) && OnlyReads() && SameClient(r, s) && r.pc == Wait && r.event == s.event
      ensures s.out <= r.out && TurnsOf(i) == old(TurnsOf(i))
      ensures AllAnswered() ==> r.out == s.out + Shown(Rank(ListAt(world.queues, s.event), s.ticket))
    {
      world.Yield(TheStream(i));
      var o;
      o, r := WritePosition(s);
      RecordServed(s, r, i, o, old(world.trace));
    }

    method WritePosition(s: Stream) returns (o: Outcome, r: Stream)
      requires s.pc == FirstRank || s.pc == TickRank
      modifies world`calls
      ensures world.Replied(o) && r == StepStream(world.Snapshot(), s, o)
      ensures SameClient(r, s) && r.pc == Wait && r.cursor == s.cursor && r.event == s.event && s.out <= r.out
      ensures o == Ok ==> r.out == s.out + Shown(Rank(ListAt(world.queues, s.event), s.ticket))
    {
      var rank;
      o, rank := world.ZRank(s.event, s.ticket);
      r := s.(pc := Wait);
      if o == Ok && rank >= 0 {
        r := r.(out := s.out + [PositionEvent(rank)]);
      }
    }

    /** One turn of the select loop: nothing has arrived, a tick, or the admission, which ends the stream. */
    method ReceiveMessage(s: Stream, ghost i: nat) returns (r: Stream)
      requires StreamStands(i, s) && s.pc == Wait
      modifies world
      ensures StreamStands(i, r) && OnlyReads() && SameClient(r, s) && r.event == s.event
      ensures r.pc == Wait || r.pc == TickRank || r.pc == Ended
      ensures r.pc != Ended ==> r.out == s.out
      ensures r.pc == Ended ==> |r.out| == |s.out| + 1 && s.out <= r.out && r.out[|s.out|].AdmittedEvent?
      ensures TurnsOf(i) == old(TurnsOf(i)) + 1 && AllAnswered()
    {
      world.Yield(TheStream(i));
      r := s;
      if s.cursor < |world.published| {
        var m := world.published[s.cursor];
        r := s.(cursor := s.cursor + 1);
        match m
        case TickMsg(e) =>
          if e == s.event {
            r := r.(pc := TickRank);
          }
        case AdmittedMsg(ticket, token) =>
          if ticket == s.ticket {
            r := r.(pc := Ended, out := s.out + [AdmittedEvent(token)]);
          }
      }
      RecordServed(s, r, i, Ok, old(world.trace));
    }

    // ---------------------------------------------------------------- exits and configuration

    /** QueueExit: one DECR, without looking, so the counter may go below zero; a failure is ignored. */
    method QueueExit(e: EventId) returns (accepted: bool, ghost o: Outcome)
      requires world.Valid()
      modifies world
      ensures world.Valid() && Continues() && accepted == (e.name != "")
      ensures !accepted ==> world.trace == old(world.trace) && SentOnly([])
      ensures accepted ==> SentOnly([Sent(AddCount(e, -1), o)])
      ensures accepted ==> |world.trace| > |old(world.trace)| && world.trace[|world.trace| - 1] == Queue(Exit(e, o))
      ensures accepted ==> world.calls.failures == old(world.calls).failures + if o == Ok then 0 else 1
    {
      if e.name == "" {
        return false, Ok;
      }
      world.Yield(Nobody);
      var reply := world.AddActive(e, -1);
      world.RecordExit(e, reply);
      accepted, o := true, reply;
    }

    /** A SET, if its value is positive. */
    function SetIf(n: int, command: Command, o: Outcome): seq<Sent> {
      if n > 0 then [Sent(command, o)] else []
    }

    /**
     UpdateRate: each positive value is written to its own key, the rate first, and nothing else is sent; failures are
     ignored. What the last SET wrote is there on return.
     */
    method UpdateRate(e: EventId, newRate: int, newCapacity: int) returns (ghost ro: Outcome, ghost co: Outcome)
      requires world.Valid() && Int64(newRate) && Int64(newCapacity)
      modifies world
      ensures world.Valid() && Continues()
      ensures newRate <= 0 && newCapacity <= 0 ==> world.trace == old(world.trace)
      ensures SentOnly(SetIf(newRate, WriteRate(e, newRate), ro) +
                       SetIf(newCapacity, WriteCapacity(e, newCapacity), co))
      ensures world.calls.failures == old(world.calls).failures ==>
                (newRate > 0 ==> ro == Ok) && (newCapacity > 0 ==> co == Ok)
      ensures newCapacity > 0 && co != Failed ==> e in world.capacity && world.capacity[e] == newCapacity
      ensures newRate > 0 && newCapacity <= 0 && ro != Failed ==> e in world.rate && world.rate[e] == newRate
      ensures newRate > 0 && ro != Failed ==> Queue(SetRate(e, newRate)) in world.trace[|old(world.trace)|..]
      ensures newCapacity > 0 && co != Failed ==>
                Queue(SetCapacity(e, newCapacity)) in world.trace[|old(world.trace)|..]
    {
      ro, co := Ok, Ok;
      if newRate > 0 {
        ro := WriteNumber(e, true, newRate);
      }
      ghost var m, before := |world.trace|, world.trace;
      if newCapacity > 0 {
        co := WriteNumber(e, false, newCapacity);
      }
      if newRate > 0 && ro != Failed {
        assert world.trace[m - 1] == before[m - 1];
        LastIsIn(world.trace, |old(world.trace)|, m - 1);
      }
      if newCapacity > 0 && co != Failed {
        LastIsIn(world.trace, |old(world.trace)|, |world.trace| - 1);
      }
    }

    lemma LastIsIn(acts: seq<Act>, n: nat, k: nat)
      requires n <= k < |acts|
      ensures acts[k] in acts[n..]
    {
      assert acts[n..][k - n] == acts[k];
    }

    method WriteNumber(e: EventId, isRate: bool, n: int) returns (ghost o: Outcome)
      requires world.Valid() && 0 < n <= INT64_MAX
      modifies world
      ensures world.Valid() && Continues()
      ensures SentOnly([Sent(if isRate then WriteRate(e, n) else WriteCapacity(e, n), o)])
      ensures world.calls.failures == old(world.calls).failures + if o == Ok then 0 else 1
      ensures o != Failed ==>
              && |world.trace| > |old(world.trace)|
              && world.trace[|world.trace| - 1] == Queue(if isRate then SetRate(e, n) else SetCapacity(e, n))
              && (isRate ==> e in world.rate && world.rate[e] == n)
              && (!isRate ==> e in world.capacity && world.capacity[e] == n)
    {
      world.Yield(Nobody);
      o := SendNumber(e, isRate, n);
    }

    method SendNumber(e: EventId, isRate: bool, n: int) returns (ghost o: Outcome)
      requires world.Valid() && 0 < n <= INT64_MAX
      modifies world
      ensures world.Valid() && Continues()
      ensures SentOnly([Sent(if isRate then WriteRate(e, n) else WriteCapacity(e, n), o)])
      ensures world.calls.failures == old(world.calls).failures + if o == Ok then 0 else 1
      ensures o != Failed ==>
              && world.trace == old(world.trace) + [Queue(if isRate then SetRate(e, n) else SetCapacity(e, n))]
              && (isRate ==> e in world.rate && world.rate[e] == n)
              && (!isRate ==> e in world.capacity && world.capacity[e] == n)
    {
      var reply := world.SetNumber(e, isRate, n);
      o := reply;
      if reply != Failed {
        world.RecordNumber(e, isRate, n);
      }
    }

    /** GetConfig, its reads succeeding and taken at one instant. */
    method ReadConfig(e: EventId) returns (view: ConfigView)
      ensures view == Views.GetConfig(world.Snapshot(), e, world.defaultRate)
    {
      var depth := |ListAt(world.queues, e)|;
      var active := if e in world.active then world.active[e] else 0;
      var rate := if e in world.rate then world.rate[e] else 0;
      if rate == 0 {
        rate := world.defaultRate;
      }
      var capacity := if e in world.capacity then world.capacity[e] else 0;
      var estimated := -1;
      if rate > 0 {
        estimated := Wrap64(depth / rate * 60);
      }
      view := ConfigView(depth, active, rate, capacity, estimated);
    }
  }
}
