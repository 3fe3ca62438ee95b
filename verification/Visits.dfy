/** What visitors are told: positions, then a wait, then the one admission, on either transport. */
module Visits {
  import opened Tokens
  import opened SortedSet
  import opened Redis
  import opened Machine
  import opened Conservation
  import opened Tickets
  import opened Delivery

  // ------------------------------------------------------------------ SSE streams

  predicate IsAdmission(m: Message, t: TicketId) {
    m.AdmittedMsg? && m.ticket == t
  }

  ghost predicate Subscribed(s: Stream) {
    s.pc == FirstRank || s.pc == Wait || s.pc == TickRank || s.pc == Ended
  }

  /** Positions only, and then, if the stream has ended, the admission announced just before its cursor. */
  ghost predicate OutputOk(published: seq<Message>, s: Stream) {
    && (forall k :: 0 <= k < |s.out| && (k < |s.out| - 1 || s.pc != Ended) ==> s.out[k].PositionEvent?)
    && (s.pc == Ended ==>
          && s.out != [] && s.out[|s.out| - 1].AdmittedEvent?
          && s.start < s.cursor <= |published| && IsAdmission(published[s.cursor - 1], s.ticket)
          && s.out[|s.out| - 1].token == published[s.cursor - 1].token)
  }

  /** Between the subscription and the cursor the stream has skipped no admission of its ticket. */
  ghost predicate BufferOk(published: seq<Message>, s: Stream) {
    && s.start <= s.cursor <= |published|
    && (Subscribed(s) ==>
          forall m :: s.start <= m < s.cursor && IsAdmission(published[m], s.ticket) ==>
            s.pc == Ended && m == s.cursor - 1)
    && (s.out != [] && s.out[0].PositionEvent? ==>
          forall m :: 0 <= m < s.start ==> !IsAdmission(published[m], s.ticket))
    && (s.out != [] ==> s.pc == Wait || s.pc == TickRank || s.pc == Ended || s.pc == Gone)
  }

  ghost predicate StreamOk(published: seq<Message>, s: Stream) {
    OutputOk(published, s) && BufferOk(published, s)
  }

  /** New messages only lengthen the buffers. */
  lemma StreamLater(published: seq<Message>, more: seq<Message>, s: Stream)
    requires StreamOk(published, s) && |published| <= |more| && more[..|published|] == published
    ensures StreamOk(more, s)
  {
    assert forall m :: 0 <= m < |published| ==> more[m] == more[..|published|][m];
  }

  lemma StreamStepOk(c: Core, s: Stream, o: Outcome)
    requires Conserved(c) && ChannelOk(c) && StreamOk(c.db.published, s)
    ensures StreamOk(c.db.published, StepStream(c.db, s, o))
  {
    if s.pc == FirstRank || s.pc == TickRank {
      RankMeansUnannounced(c, s.event, s.ticket);
    }
  }

  /** A ticket that still has a rank has not been announced to anyone. */
  lemma RankMeansUnannounced(c: Core, e: EventId, t: TicketId)
    requires Conserved(c) && ChannelOk(c)
    ensures Rank(ListAt(c.db.queues, e), t) >= 0 ==>
              forall m :: 0 <= m < |c.db.published| ==> !IsAdmission(c.db.published[m], t)
  {
    assert QueueOk(c.db.queues, c.hist.place, e);
    if Rank(ListAt(c.db.queues, e), t) >= 0 {
      assert At(c.hist.place, t, Place(e, Waiting));
      forall m | 0 <= m < |c.db.published| ensures !IsAdmission(c.db.published[m], t) {
        assert Announced(c.hist, c.db.published[m]);
      }
    }
  }

  /** Once a stream has shown a position, an admission announced at any time is delivered or still in its buffer. */
  lemma NoAdmissionLost(published: seq<Message>, s: Stream, m: nat)
    requires StreamOk(published, s) && s.out != [] && s.out[0].PositionEvent? && s.pc != Gone
    requires m < |published| && IsAdmission(published[m], s.ticket)
    ensures m >= s.cursor || (s.pc == Ended && s.out[|s.out| - 1] == AdmittedEvent(published[m].token))
  {
  }

  /** A stream that has drained its buffer has ended exactly if the admission was announced after it subscribed. */
  lemma DeliveredIffAnnouncedAfterSubscribe(published: seq<Message>, s: Stream)
    requires StreamOk(published, s) && Subscribed(s) && s.cursor == |published|
    ensures s.pc == Ended <==> exists m :: s.start <= m < |published| && IsAdmission(published[m], s.ticket)
  {
  }

  // ------------------------------------------------------------------ pollers

  function Phase(a: Answer): nat {
    match a
    case NotFound => 0
    case Forbidden => 0
    case Position(_) => 1
    case Pending => 2
    case AdmittedAnswer(_) => 3
  }

  /** What the answers so far say about the ticket, now and from now on. */
  ghost predicate Backed(h: History, t: TicketId, a: Answer) {
    && a != Forbidden
    && (Phase(a) >= 1 ==> t in h.filled && t in h.place)
    && (Phase(a) >= 2 ==> h.place[t].stage != Waiting)
    && (a.AdmittedAnswer? ==>
       t in h.stored && t in h.tokenOf && h.tokenOf[t] < |h.issued| && a.token == h.issued[h.tokenOf[t]])
  }

  ghost predicate Ascending(seen: seq<Answer>) {
    forall m, n :: 0 <= m < n < |seen| ==> Phase(seen[m]) <= Phase(seen[n])
  }

  ghost predicate PollerOk(h: History, p: Poller) {
    && Ascending(p.seen)
    && (forall k :: 0 <= k < |p.seen| ==> Backed(h, p.ticket, p.seen[k]))
    && (p.pc != Idle ==> p.ticket in h.filled && p.ticket in h.fieldsOf && p.ticket in h.place
                         && p.pc.event == h.fieldsOf[p.ticket].eventId)
    && (p.pc.ReadRank? ==> forall k :: 0 <= k < |p.seen| ==> !p.seen[k].AdmittedAnswer?)
  }

  /** What is asked of a poll: its reads succeed, the hash has not expired, and the client holds the right secret. */
  ghost predicate Served(c: Core, p: Poller, o: Outcome) {
    && o == Ok && !HashExpired(c.hist, c.db.now, p.ticket)
    && (p.ticket in c.hist.fieldsOf ==> p.secret == Some(c.hist.fieldsOf[p.ticket].secret))
  }

  lemma PollStepOk(c: Core, p: Poller, o: Outcome)
    requires Conserved(c) && TokensOk(c) && HashesOk(c) && PollerOk(c.hist, p) && Served(c, p, o)
    ensures PollerOk(c.hist, StepPoller(c.db, p, o))
  {
    var t := p.ticket;
    FieldsReadable(c, t);
    match p.pc
    case Idle =>
      if HGetEventId(c.db, t) == None {
        SeenGrows(c.hist, p, NotFound);
      }
    case CheckSecret(_) =>
    case ReadToken(_) =>
      TokenReadable(c, t);
      assert TokenAt(c.hist, c.db.now, t);
      if HGetToken(c.db, t).Some? {
        SeenGrows(c.hist, p, AdmittedAnswer(HGetToken(c.db, t).value));
      } else {
        forall k | 0 <= k < |p.seen| ensures !p.seen[k].AdmittedAnswer? {
          assert Backed(c.hist, t, p.seen[k]);
        }
      }
    case ReadRank(event) =>
      var rank := Rank(ListAt(c.db.queues, event), t);
      assert QueueOk(c.db.queues, c.hist.place, event);
      SeenGrows(c.hist, p, if rank >= 0 then Position(rank) else Pending);
  }

  /** A backed answer that contradicts no earlier one. */
  lemma SeenGrows(h: History, p: Poller, a: Answer)
    requires PollerOk(h, p) && Backed(h, p.ticket, a)
    requires a == NotFound ==> p.ticket !in h.filled
    requires a.Position? ==> h.place[p.ticket].stage == Waiting
    requires a.Position? || a.Pending? ==> p.pc.ReadRank?
    ensures PollerOk(h, Reply(p, a))
  {
    forall k | 0 <= k < |p.seen| ensures Phase(p.seen[k]) <= Phase(a) {
      assert Backed(h, p.ticket, p.seen[k]);
    }
  }

  /** The poller as if it had been given answer a itself, just before its own answer number n. */
  function Told(p: Poller, a: Answer, n: nat): Poller
    requires n <= |p.seen|
  {
    p.(seen := [a] + p.seen[n..])
  }

  lemma ToldSteps(db: Db, p: Poller, o: Outcome, a: Answer, n: nat)
    requires n <= |p.seen|
    ensures n <= |StepPoller(db, p, o).seen|
    ensures StepPoller(db, Told(p, a, n), o) == Told(StepPoller(db, p, o), a, n)
  {
    var r := StepPoller(db, p, o);
    if r.seen != p.seen {
      assert r.seen == p.seen + [r.seen[|p.seen|]];
      assert [a] + p.seen[n..] + [r.seen[|p.seen|]] == [a] + r.seen[n..];
    }
  }

  /** Nothing a visitor has been told is ever taken back. */
  ghost predicate Onward(h: History, k: History) {
    && h.filled <= k.filled && h.stored <= k.stored
    && (forall t :: t in h.fieldsOf ==> t in k.fieldsOf && k.fieldsOf[t] == h.fieldsOf[t])
    && (forall t :: t in h.place ==> t in k.place && (h.place[t].stage != Waiting ==> k.place[t].stage != Waiting))
    && (forall t :: t in h.tokenOf ==> t in k.tokenOf && k.tokenOf[t] == h.tokenOf[t])
    && |h.issued| <= |k.issued| && (forall j :: 0 <= j < |h.issued| ==> k.issued[j] == h.issued[j])
  }

  lemma PollerKept(h: History, k: History, p: Poller)
    requires PollerOk(h, p) && Onward(h, k)
    ensures PollerOk(k, p)
  {
    forall m | 0 <= m < |p.seen| ensures Backed(k, p.ticket, p.seen[m]) {
      assert Backed(h, p.ticket, p.seen[m]);
    }
  }

  lemma OnwardNext(c: Core, a: Action)
    requires Conserved(c) && TokensOk(c)
    ensures Onward(c.hist, Next(c, a).hist)
  {
    match a
    case TickStep(i, o) => if i < |c.ticks| { OnwardTick(c, i, o); }
    case JoinStep(i, o) => if i < |c.joins| { OnwardJoin(c, i, o); }
    case CrashTick(i) => if i < |c.ticks| { OnwardCrash(c, i); }
    case StartTick(e) => OnwardSame(c.hist, Acquire(c, e).hist);
    case _ => OnwardSame(c.hist, Quiet(c, a).hist);
  }

  lemma OnwardSame(h: History, k: History)
    requires k.filled == h.filled && k.stored == h.stored && k.fieldsOf == h.fieldsOf && k.place == h.place
    requires k.tokenOf == h.tokenOf && k.issued == h.issued
    ensures Onward(h, k)
  {
  }

  lemma OnwardCrash(c: Core, i: nat)
    requires i < |c.ticks|
    ensures Onward(c.hist, Crash(c, i).hist)
  {
  }

  lemma OnwardTick(c: Core, i: nat, o: Outcome)
    requires TokensOk(c) && i < |c.ticks|
    ensures Onward(c.hist, StepTick(c, i, o).hist)
  {
    assert TokenHeld(c.hist, c.ticks[i]);
  }

  lemma OnwardJoin(c: Core, i: nat, o: Outcome)
    requires Conserved(c) && i < |c.joins|
    ensures Onward(c.hist, StepJoin(c, i, o).hist)
  {
    assert JoinOk(c.hist, c.joins[i]);
  }

  // ------------------------------------------------------------------ what holds for every visitor

  /** The secret that the ticket's join handed out. */
  ghost predicate HasSecret(h: History, t: TicketId, secret: Option<nat>) {
    t in h.fieldsOf && secret == Some(h.fieldsOf[t].secret)
  }

  /** The one token issued to the ticket, which was stored. */
  ghost predicate IsToken(h: History, t: TicketId, token: Token) {
    t in h.stored && t in h.tokenOf && h.tokenOf[t] < |h.issued| && token == h.issued[h.tokenOf[t]]
  }

  /** An answer about a ticket goes to the holder of its secret, and a token is the ticket's own. */
  ghost predicate SoundAnswer(h: History, p: Poller, a: Answer) {
    && (Phase(a) >= 1 ==> HasSecret(h, p.ticket, p.secret))
    && (a.AdmittedAnswer? ==> IsToken(h, p.ticket, a.token))
  }

  /** What is true of a poller whatever its reads give, with a live hash or an expired one, and with any secret. */
  ghost predicate PollerSound(h: History, p: Poller) {
    && (p.pc != Idle ==> p.ticket in h.fieldsOf && p.pc.event == h.fieldsOf[p.ticket].eventId)
    && (p.pc.ReadToken? || p.pc.ReadRank? ==> HasSecret(h, p.ticket, p.secret))
    && (forall k :: 0 <= k < |p.seen| ==> SoundAnswer(h, p, p.seen[k]))
  }

  lemma PollerStaysSound(c: Core, p: Poller, o: Outcome)
    requires HashesOk(c) && PollerSound(c.hist, p)
    ensures PollerSound(c.hist, StepPoller(c.db, p, o))
  {
    var r := StepPoller(c.db, p, o);
    FieldsReadable(c, p.ticket);
    TokenRead(c, p.ticket);
    forall k | 0 <= k < |r.seen| ensures SoundAnswer(c.hist, r, r.seen[k]) {
      assert k < |p.seen| ==> SoundAnswer(c.hist, p, p.seen[k]);
    }
  }

  /** A token that is read is the ticket's, even from a hash that the scheduler's HSET started again after its TTL. */
  lemma TokenRead(c: Core, t: TicketId)
    requires HashesOk(c)
    ensures HGetToken(c.db, t).Some? ==> IsToken(c.hist, t, HGetToken(c.db, t).value)
  {
    assert HashAt(c.hist, c.db.now, c.db.hashes, t);
  }

  /** A stream past its check, or with any output, is held by the holder of the ticket's secret. */
  ghost predicate StreamSound(h: History, s: Stream) {
    Subscribed(s) || s.pc == Subscribe || s.out != [] ==> HasSecret(h, s.ticket, s.secret)
  }

  lemma StreamStaysSound(c: Core, s: Stream, o: Outcome)
    requires HashesOk(c) && StreamSound(c.hist, s)
    ensures StreamSound(c.hist, StepStream(c.db, s, o))
  {
    FieldsReadable(c, s.ticket);
  }

  lemma SoundOnward(h: History, k: History, p: Poller)
    requires PollerSound(h, p) && Onward(h, k)
    ensures PollerSound(k, p)
  {
    forall m | 0 <= m < |p.seen| ensures SoundAnswer(k, p, p.seen[m]) {
      assert SoundAnswer(h, p, p.seen[m]);
    }
  }

  /** Whichever transport delivers the admission, it is the one token stored for the ticket. */
  lemma ChannelsAgree(c: Core, s: Stream, p: Poller, k: nat)
    requires ChannelOk(c) && StreamOk(c.db.published, s) && PollerSound(c.hist, p) && s.ticket == p.ticket
    requires s.pc == Ended && k < |p.seen| && p.seen[k].AdmittedAnswer?
    ensures s.out[|s.out| - 1].token == p.seen[k].token
    ensures s.ticket in c.hist.tried && s.ticket in c.hist.stored
  {
    assert Announced(c.hist, c.db.published[s.cursor - 1]);
    assert SoundAnswer(c.hist, p, p.seen[k]);
  }

  // ------------------------------------------------------------------ positions

  /** Tickets added to t's queue while it waits are ordered behind it. */
  ghost predicate AddsBehind(c: Core, a: Action, t: TicketId) {
    a.JoinStep? && a.join < |c.joins| && c.joins[a.join].pc == Add ==>
      var j := c.joins[a.join];
      var q := ListAt(c.db.queues, j.event);
      Rank(q, t) >= 0 ==> Less(q[Rank(q, t)], Entry(j.score, j.id))
  }

  /** A waiting ticket's rank never grows then, and a ticket that left the queue never comes back. */
  lemma RankNeverGrows(c: Core, a: Action, e: EventId, t: TicketId)
    requires Conserved(c) && AddsBehind(c, a, t) && t in c.hist.place
    ensures Rank(ListAt(Next(c, a).db.queues, e), t) <= Rank(ListAt(c.db.queues, e), t)
  {
    NextQueue(c, a, e);
    if Pops(c, a, e) {
      RankAfterPop(c, e, c.ticks[a.tick].pc.n, t);
    } else if Adds(c, a, e) {
      RankAfterAdd(c, a.join, e, t);
    }
  }

  lemma RankAfterPop(c: Core, e: EventId, n: int, t: TicketId)
    requires QueuesOk(c)
    ensures var q, k := ListAt(c.db.queues, e), PopSize(c.db, e, n);
            Rank(q[k..], t) == if Rank(q, t) >= k then Rank(q, t) - k else -1
  {
    assert QueueOk(c.db.queues, c.hist.place, e);
    PopShiftsRanks(ListAt(c.db.queues, e), PopSize(c.db, e, n), t);
  }

  lemma RankAfterAdd(c: Core, i: nat, e: EventId, t: TicketId)
    requires Conserved(c) && i < |c.joins| && c.joins[i].pc == Add && c.joins[i].event == e && t in c.hist.place
    requires AddsBehind(c, JoinStep(i, Ok), t)
    ensures var x := Entry(c.joins[i].score, c.joins[i].id);
            Rank(Insert(ListAt(c.db.queues, e), x), t) == Rank(ListAt(c.db.queues, e), t)
  {
    var q, x := ListAt(c.db.queues, e), Entry(c.joins[i].score, c.joins[i].id);
    assert JoinOk(c.hist, c.joins[i]) && QueueOk(c.db.queues, c.hist.place, e)
           && BoundOk(c.hist.place, c.hist.fieldsOf);
    InsertKeeps(q, x);
    if Rank(q, t) >= 0 {
      InsertShiftsRank(q, x, t);
    }
  }

  /** Positions shown never increase, and the ticket's rank is at most the last one shown. */
  ghost predicate PositionsOk(c: Core, p: Poller) {
    && (forall m, n :: 0 <= m < n < |p.seen| && p.seen[m].Position? && p.seen[n].Position? ==>
       p.seen[n].rank <= p.seen[m].rank)
    && (forall m :: 0 <= m < |p.seen| && p.seen[m].Position? ==>
          p.ticket in c.hist.place
          && Rank(ListAt(c.db.queues, c.hist.place[p.ticket].event), p.ticket) <= p.seen[m].rank)
  }

  lemma PositionsPoll(c: Core, p: Poller, o: Outcome)
    requires BoundOk(c.hist.place, c.hist.fieldsOf) && PollerSound(c.hist, p) && PositionsOk(c, p)
    ensures PositionsOk(c, StepPoller(c.db, p, o))
  {
  }

  /** The same for the positions a stream has written. */
  ghost predicate StreamPositionsOk(c: Core, s: Stream) {
    && (forall m, n :: 0 <= m < n < |s.out| && s.out[m].PositionEvent? && s.out[n].PositionEvent? ==>
          s.out[n].rank <= s.out[m].rank)
    && (forall m :: 0 <= m < |s.out| && s.out[m].PositionEvent? ==>
          s.ticket in c.hist.place && Rank(ListAt(c.db.queues, s.event), s.ticket) <= s.out[m].rank)
    && (s.out != [] ==> s.pc != Binding)
  }

  lemma StreamPositionsShow(c: Core, s: Stream, o: Outcome)
    requires QueuesOk(c) && StreamPositionsOk(c, s)
    ensures StreamPositionsOk(c, StepStream(c.db, s, o))
  {
    match s.pc
    case FirstRank => RankShown(c, s, o);
    case TickRank => RankShown(c, s, o);
    case Wait => MessageTaken(c, s);
    case _ =>
  }

  lemma MessageTaken(c: Core, s: Stream)
    requires StreamPositionsOk(c, s) && s.pc == Wait
    ensures StreamPositionsOk(c, Receive(c.db, s))
  {
    var r := Receive(c.db, s);
    assert r.ticket == s.ticket && r.event == s.event && s.out <= r.out;
    assert forall k :: 0 <= k < |r.out| && r.out[k].PositionEvent? ==> k < |s.out| && r.out[k] == s.out[k];
  }

  lemma RankShown(c: Core, s: Stream, o: Outcome)
    requires QueuesOk(c) && StreamPositionsOk(c, s) && s.pc != Binding
    ensures StreamPositionsOk(c, ShowRank(c.db, s, o))
  {
    var rank, r := Rank(ListAt(c.db.queues, s.event), s.ticket), ShowRank(c.db, s, o);
    assert r.out == if o == Ok && rank >= 0 then s.out + [PositionEvent(rank)] else s.out;
    assert rank >= 0 ==> s.ticket in c.hist.place by {
      assert QueueOk(c.db.queues, c.hist.place, s.event);
    }
  }
}
