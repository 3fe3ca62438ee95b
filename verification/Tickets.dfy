/** What becomes of a ticket: its one token, its hash, and the one message that announces it. */
module Tickets {
  import opened Config
  import opened Tokens
  import opened SortedSet
  import opened Redis
  import opened Machine
  import opened Conservation

  // ------------------------------------------------------------------ one token per ticket

  ghost predicate TokenAt(h: History, now: Time, t: TicketId) {
    && (t in h.tokenOf ==>
          && t in h.place && t in h.fieldsOf && h.tokenOf[t] < |h.issued| == |h.issuedAt|
          && h.issuedAt[h.tokenOf[t]] <= now
          && h.issued[h.tokenOf[t]] == IssueAdmission(t, h.fieldsOf[t].eventId, h.tokenOf[t], h.issuedAt[h.tokenOf[t]]))
    && (t in h.place && h.place[t].stage == Waiting ==> t !in h.tokenOf)
    && (t in h.place && h.place[t].stage == Admitted ==> t in h.tokenOf)
  }

  /** The member a tick is working on has its token from Issue on; the rest of the batch has none. */
  ghost predicate TokenHeld(h: History, t: Tick) {
    && (forall k :: 0 <= k < |t.todo| && (k > 0 || t.pc.Issue?) ==> t.todo[k].id !in h.tokenOf)
    && (t.todo != [] && (t.pc.Store? || t.pc.Count? || t.pc.Announce?) ==>
          && t.todo[0].id in h.tokenOf && h.tokenOf[t.todo[0].id] < |h.issued|
          && t.pc.token == h.issued[h.tokenOf[t.todo[0].id]]
          && (t.pc.Announce? ==> t.todo[0].id in h.tried))
  }

  ghost predicate TokensOk(c: Core) {
    && |c.hist.issuedAt| == |c.hist.issued|
    && (forall t :: TokenAt(c.hist, c.db.now, t))
    && (forall j :: 0 <= j < |c.hist.issued| ==>
          c.hist.issued[j].claims.subject in c.hist.tokenOf && c.hist.tokenOf[c.hist.issued[j].claims.subject] == j)
    && (forall i :: 0 <= i < |c.ticks| ==> TokenHeld(c.hist, c.ticks[i]))
  }

  lemma TokensInit(c: Core)
    requires Init(c)
    ensures TokensOk(c)
  {
  }

  lemma TokensNext(c: Core, a: Action)
    requires Conserved(c) && TokensOk(c)
    ensures TokensOk(Next(c, a))
  {
    match a
    case StartTick(e) => TokensStart(c, e);
    case TickStep(i, o) => if i < |c.ticks| { TokensTick(c, i, o); }
    case CrashTick(i) => if i < |c.ticks| { TokensCrash(c, i); }
    case JoinStep(i, o) => if i < |c.joins| { TokensJoin(c, i, o); }
    case _ => TokensQuiet(c, a);
  }

  lemma TokensStart(c: Core, e: EventId)
    requires TokensOk(c)
    ensures TokensOk(Acquire(c, e))
  {
    TokensSame(c, Acquire(c, e));
  }

  lemma TokensQuiet(c: Core, a: Action)
    requires TokensOk(c)
    ensures TokensOk(Quiet(c, a))
  {
    TokensSame(c, Quiet(c, a));
  }

  lemma TokensSame(c: Core, d: Core)
    requires TokensOk(c) && d.db.now >= c.db.now
    requires d.hist.issued == c.hist.issued && d.hist.issuedAt == c.hist.issuedAt && d.hist.tokenOf == c.hist.tokenOf
    requires d.hist.place == c.hist.place && d.hist.fieldsOf == c.hist.fieldsOf && d.hist.tried == c.hist.tried
    requires |d.ticks| >= |c.ticks| && d.ticks[..|c.ticks|] == c.ticks
    requires forall i :: |c.ticks| <= i < |d.ticks| ==> d.ticks[i].todo == []
    ensures TokensOk(d)
  {
    forall t ensures TokenAt(d.hist, d.db.now, t) {
      assert TokenAt(c.hist, c.db.now, t);
    }
    forall i | 0 <= i < |d.ticks| ensures TokenHeld(d.hist, d.ticks[i]) {
      if i < |c.ticks| {
        assert TokenHeld(c.hist, c.ticks[i]) && d.ticks[..|c.ticks|][i] == c.ticks[i];
      }
    }
  }

  lemma TokensJoin(c: Core, i: nat, o: Outcome)
    requires Conserved(c) && TokensOk(c) && i < |c.joins|
    ensures TokensOk(StepJoin(c, i, o))
  {
    var j, d := c.joins[i], StepJoin(c, i, o);
    assert JoinOk(c.hist, j);
    forall t ensures TokenAt(d.hist, d.db.now, t) {
      assert TokenAt(c.hist, c.db.now, t);
    }
    forall k | 0 <= k < |d.ticks| ensures TokenHeld(d.hist, d.ticks[k]) {
      assert TokenHeld(c.hist, c.ticks[k]);
    }
  }

  /** Moving a tick's tickets to a final stage, or out of the queue, issues nothing. */
  lemma TokensMark(c: Core, d: Core, i: nat, batch: seq<Entry>, stage: Stage)
    requires TokensOk(c) && i < |c.ticks| && d.db.now == c.db.now && stage != Waiting
    requires d.hist.issued == c.hist.issued && d.hist.issuedAt == c.hist.issuedAt && d.hist.tokenOf == c.hist.tokenOf
    requires d.hist.place == Mark(c.hist.place, batch, stage) && d.hist.fieldsOf == c.hist.fieldsOf
             && d.hist.tried == c.hist.tried
    requires stage == Admitted ==> forall t :: Has(batch, t) ==> t in c.hist.tokenOf
    requires |d.ticks| == |c.ticks| && d.ticks == c.ticks[i := d.ticks[i]] && TokenHeld(d.hist, d.ticks[i])
    ensures TokensOk(d)
  {
    forall t ensures TokenAt(d.hist, d.db.now, t) {
      assert TokenAt(c.hist, c.db.now, t);
    }
    forall k | 0 <= k < |d.ticks| && k != i ensures TokenHeld(d.hist, d.ticks[k]) {
      assert TokenHeld(c.hist, c.ticks[k]);
    }
  }

  lemma TokensCrash(c: Core, i: nat)
    requires TokensOk(c) && i < |c.ticks|
    ensures TokensOk(Crash(c, i))
  {
    TokensMark(c, Crash(c, i), i, c.ticks[i].todo, Dropped);
  }

  lemma TokensTick(c: Core, i: nat, o: Outcome)
    requires Conserved(c) && TokensOk(c) && i < |c.ticks|
    ensures TokensOk(StepTick(c, i, o))
  {
    var t := c.ticks[i];
    assert TokenHeld(c.hist, t);
    match t.pc
    case Pop(_) => TokensPop(c, i, o);
    case Issue =>
      if o == Ok && t.todo != [] {
        TokensIssue(c, i);
      } else {
        TokensMark(c, StepTick(c, i, o), i, t.todo[..Min(1, |t.todo|)], Dropped);
      }
    case Announce(_) => TokensMark(c, StepTick(c, i, o), i, t.todo[..Min(1, |t.todo|)], Admitted);
    case _ => TokensPlain(c, i, o);
  }

  lemma TokensPlain(c: Core, i: nat, o: Outcome)
    requires TokensOk(c) && i < |c.ticks| && !Moves(c.ticks[i].pc) && (InLoop(c.ticks[i].pc) <==> c.ticks[i].todo != [])
    ensures TokensOk(StepTick(c, i, o))
  {
    var d := StepTick(c, i, o);
    forall t ensures TokenAt(d.hist, d.db.now, t) {
      assert TokenAt(c.hist, c.db.now, t);
    }
    forall k | 0 <= k < |d.ticks| ensures TokenHeld(d.hist, d.ticks[k]) {
      assert TokenHeld(c.hist, c.ticks[k]);
    }
  }

  lemma TokensPop(c: Core, i: nat, o: Outcome)
    requires Conserved(c) && TokensOk(c) && i < |c.ticks| && c.ticks[i].pc.Pop?
    ensures TokensOk(StepTick(c, i, o))
  {
    var t, d := c.ticks[i], StepTick(c, i, o);
    var q := ListAt(c.db.queues, t.event);
    assert QueueOk(c.db.queues, c.hist.place, t.event);
    forall k | 0 <= k < |q| ensures q[k].id !in c.hist.tokenOf {
      assert Has(q, q[k].id);
      assert TokenAt(c.hist, c.db.now, q[k].id);
    }
    if o == Failed {
      TokensPlainPop(c, d, i);
    } else {
      TokensMark(c, d, i, Batch(c.db, t), if o == Ok then Held(i) else Dropped);
    }
  }

  lemma TokensPlainPop(c: Core, d: Core, i: nat)
    requires TokensOk(c) && i < |c.ticks| && d.hist == c.hist && d.db.now == c.db.now
    requires d.ticks == c.ticks[i := c.ticks[i].(pc := Release)] && c.ticks[i].todo == []
    ensures TokensOk(d)
  {
    forall t ensures TokenAt(d.hist, d.db.now, t) {
      assert TokenAt(c.hist, c.db.now, t);
    }
    forall k | 0 <= k < |d.ticks| && k != i ensures TokenHeld(d.hist, d.ticks[k]) {
      assert TokenHeld(c.hist, c.ticks[k]);
    }
  }

  lemma TokensIssue(c: Core, i: nat)
    requires Conserved(c) && TokensOk(c) && i < |c.ticks| && c.ticks[i].pc.Issue? && c.ticks[i].todo != []
    ensures TokensOk(StepTick(c, i, Ok))
  {
    var t, d := c.ticks[i], StepTick(c, i, Ok);
    var id := t.todo[0].id;
    assert HeldBy(c.hist.place, i, t) && Has(t.todo, id) && At(c.hist.place, id, Place(t.event, Held(i)));
    assert TokenHeld(c.hist, t);
    forall x ensures TokenAt(d.hist, d.db.now, x) {
      assert TokenAt(c.hist, c.db.now, x);
    }
    forall k | 0 <= k < |d.ticks| ensures TokenHeld(d.hist, d.ticks[k]) {
      assert TokenHeld(c.hist, c.ticks[k]);
      if k != i {
        assert HeldBy(c.hist.place, k, c.ticks[k]);
        assert !Has(c.ticks[k].todo, id);
      }
    }
  }

  // ------------------------------------------------------------------ the ticket hash

  predicate HashExpired(h: History, now: Time, t: TicketId) {
    t in h.expirySet && now >= h.expirySet[t] + TICKET_KEY_TTL
  }

  /** The hash that createTicket's writes and the scheduler's write amount to, in whatever order they came. */
  ghost function Expected(h: History, t: TicketId): Hash
    requires t in h.filled ==> t in h.fieldsOf
    requires t in h.stored ==> t in h.tokenOf && h.tokenOf[t] < |h.issued|
  {
    Hash(if t in h.filled then Some(h.fieldsOf[t]) else None,
         if t in h.stored then Some(h.issued[h.tokenOf[t]]) else None,
         if t in h.expirySet then Some(h.expirySet[t] + TICKET_KEY_TTL) else None)
  }

  ghost predicate HashAt(h: History, now: Time, hashes: map<TicketId, Hash>, t: TicketId) {
    && (t in h.filled ==> t in h.fieldsOf)
    && (t in h.stored ==> t in h.fieldsOf && t in h.tokenOf && h.tokenOf[t] < |h.issued|)
    && (t in hashes <==> t in h.filled || t in h.stored)
    && (t in h.expirySet ==> t in hashes)
    && (t in hashes && !HashExpired(h, now, t) ==> hashes[t] == Expected(h, t))
    && (t in hashes && HashExpired(h, now, t) ==>
          && (hashes[t].fields == None || hashes[t].deadline == Some(h.expirySet[t] + TICKET_KEY_TTL))
          && (hashes[t].token.Some? ==> t in h.stored && hashes[t].token == Some(h.issued[h.tokenOf[t]])))
  }

  ghost predicate HashesOk(c: Core) {
    && (forall t :: HashAt(c.hist, c.db.now, c.db.hashes, t))
    && JoinsUnderway(c)
  }

  lemma HashesInit(c: Core)
    requires Init(c)
    ensures HashesOk(c)
  {
  }

  lemma HashesNext(c: Core, a: Action)
    requires Conserved(c) && TokensOk(c) && HashesOk(c)
    ensures HashesOk(Next(c, a))
  {
    match a
    case StartTick(e) => HashesSame(c, Acquire(c, e));
    case TickStep(i, o) => if i < |c.ticks| { HashesStep(c, i, o); }
    case CrashTick(i) => if i < |c.ticks| { HashesSame(c, Crash(c, i)); }
    case JoinStep(i, o) => if i < |c.joins| { HashesJoin(c, i, o); }
    case _ => HashesQuiet(c, a);
  }

  lemma HashesStep(c: Core, i: nat, o: Outcome)
    requires Conserved(c) && TokensOk(c) && HashesOk(c) && i < |c.ticks|
    ensures HashesOk(StepTick(c, i, o))
  {
    if c.ticks[i].pc.Store? {
      HashesStore(c, i, o);
    } else {
      HashesTick(c, i, o);
    }
  }

  lemma HashesQuiet(c: Core, a: Action)
    requires Conserved(c) && HashesOk(c)
    ensures HashesOk(Quiet(c, a))
  {
    if a.StartJoin? {
      HashesStart(c, a.event, a.id, a.secret);
    } else {
      HashesLater(c, Quiet(c, a));
    }
  }

  /** Time only turns live hashes into expired ones. */
  lemma HashesLater(c: Core, d: Core)
    requires HashesOk(c) && d.db.now >= c.db.now && d.db.hashes == c.db.hashes
    requires d.hist.filled == c.hist.filled && d.hist.stored == c.hist.stored && d.hist.expirySet == c.hist.expirySet
    requires d.hist.fieldsOf == c.hist.fieldsOf && d.hist.tokenOf == c.hist.tokenOf && d.hist.issued == c.hist.issued
    requires |d.joins| == |c.joins|
    requires forall i :: 0 <= i < |d.joins| ==> d.joins[i] == c.joins[i] || d.joins[i] == c.joins[i].(pc := Left)
    ensures HashesOk(d)
  {
    forall t ensures HashAt(d.hist, d.db.now, d.db.hashes, t) {
      assert HashAt(c.hist, c.db.now, c.db.hashes, t);
    }
  }

  lemma HashesSame(c: Core, d: Core)
    requires HashesOk(c) && d.db.now == c.db.now && d.db.hashes == c.db.hashes && d.joins == c.joins
    requires d.hist.filled == c.hist.filled && d.hist.stored == c.hist.stored && d.hist.expirySet == c.hist.expirySet
    requires d.hist.fieldsOf == c.hist.fieldsOf && d.hist.tokenOf == c.hist.tokenOf && d.hist.issued == c.hist.issued
    ensures HashesOk(d)
  {
    HashesLater(c, d);
  }

  lemma HashesStart(c: Core, e: EventId, id: TicketId, secret: nat)
    requires Conserved(c) && HashesOk(c)
    ensures HashesOk(Quiet(c, StartJoin(e, id, secret)))
  {
    var d := Quiet(c, StartJoin(e, id, secret));
    forall t ensures HashAt(d.hist, d.db.now, d.db.hashes, t) {
      assert HashAt(c.hist, c.db.now, c.db.hashes, t);
    }
    assert HashAt(c.hist, c.db.now, c.db.hashes, id);
    assert id !in c.hist.ids ==> id !in c.hist.fieldsOf;
  }

  lemma HashesTick(c: Core, i: nat, o: Outcome)
    requires TokensOk(c) && HashesOk(c) && i < |c.ticks| && !c.ticks[i].pc.Store?
    ensures HashesOk(StepTick(c, i, o))
  {
    if c.ticks[i].pc.Issue? && o == Ok && c.ticks[i].todo != [] {
      HashesIssue(c, i);
    } else {
      HashesSame(c, StepTick(c, i, o));
    }
  }

  /** A new token changes no hash yet. */
  lemma HashesIssue(c: Core, i: nat)
    requires TokensOk(c) && HashesOk(c) && i < |c.ticks| && c.ticks[i].pc.Issue? && c.ticks[i].todo != []
    ensures HashesOk(StepTick(c, i, Ok))
  {
    var d := StepTick(c, i, Ok);
    assert TokenHeld(c.hist, c.ticks[i]);
    forall t ensures HashAt(d.hist, d.db.now, d.db.hashes, t) {
      assert HashAt(c.hist, c.db.now, c.db.hashes, t);
    }
  }

  lemma HashesStore(c: Core, i: nat, o: Outcome)
    requires TokensOk(c) && HashesOk(c) && i < |c.ticks| && c.ticks[i].pc.Store?
    ensures HashesOk(StepTick(c, i, o))
  {
    var d := StepTick(c, i, o);
    assert TokenHeld(c.hist, c.ticks[i]);
    forall t ensures HashAt(d.hist, d.db.now, d.db.hashes, t) {
      assert HashAt(c.hist, c.db.now, c.db.hashes, t) && TokenAt(c.hist, c.db.now, t);
    }
  }

  lemma HashesJoin(c: Core, i: nat, o: Outcome)
    requires Conserved(c) && HashesOk(c) && i < |c.joins|
    ensures HashesOk(StepJoin(c, i, o))
  {
    var d := StepJoin(c, i, o);
    assert JoinOk(c.hist, c.joins[i]);
    forall t ensures HashAt(d.hist, d.db.now, d.db.hashes, t) {
      if t == c.joins[i].id {
        HashJoined(c, i, o);
      } else {
        HashUntouched(c, i, o, t);
      }
    }
    UnderwayAfter(c, i, o);
  }

  /** The record says the same about t. */
  ghost predicate SameRecord(h: History, k: History, t: TicketId) {
    && (t in k.filled <==> t in h.filled) && k.stored == h.stored && k.tokenOf == h.tokenOf && k.issued == h.issued
    && (t in k.fieldsOf <==> t in h.fieldsOf) && (t in h.fieldsOf ==> k.fieldsOf[t] == h.fieldsOf[t])
    && (t in k.expirySet <==> t in h.expirySet) && (t in h.expirySet ==> k.expirySet[t] == h.expirySet[t])
  }

  lemma HashUntouched(c: Core, i: nat, o: Outcome, t: TicketId)
    requires HashAt(c.hist, c.db.now, c.db.hashes, t) && i < |c.joins| && t != c.joins[i].id
    ensures var d := StepJoin(c, i, o);
            HashAt(d.hist, d.db.now, d.db.hashes, t)
  {
    RecordUntouched(c, i, o, t);
    HashAsBefore(c.hist, StepJoin(c, i, o).hist, c.db.now, c.db.hashes, StepJoin(c, i, o).db.hashes, t);
  }

  lemma RecordUntouched(c: Core, i: nat, o: Outcome, t: TicketId)
    requires i < |c.joins| && t != c.joins[i].id
    ensures var d := StepJoin(c, i, o);
            && SameRecord(c.hist, d.hist, t) && d.db.now == c.db.now
            && (t in d.db.hashes <==> t in c.db.hashes) && (t in c.db.hashes ==> d.db.hashes[t] == c.db.hashes[t])
  {
  }

  lemma HashAsBefore(h: History, k: History, now: Time, before: map<TicketId, Hash>, after: map<TicketId, Hash>,
                     t: TicketId)
    requires HashAt(h, now, before, t) && SameRecord(h, k, t)
    requires (t in after <==> t in before) && (t in before ==> after[t] == before[t])
    ensures HashAt(k, now, after, t)
  {
  }

  /** A join under way has set no TTL yet, and before its last command no fields. */
  ghost predicate JoinsUnderway(c: Core) {
    forall i :: 0 <= i < |c.joins| && c.joins[i].pc != Left ==>
      c.joins[i].id !in c.hist.expirySet && (c.joins[i].pc != SetExpiry ==> c.joins[i].id !in c.hist.filled)
  }

  lemma UnderwayAfter(c: Core, i: nat, o: Outcome)
    requires JoinsOk(c) && JoinsUnderway(c) && i < |c.joins|
    ensures JoinsUnderway(StepJoin(c, i, o))
  {
    var d := StepJoin(c, i, o);
    forall k | 0 <= k < |d.joins| && d.joins[k].pc != Left
      ensures d.joins[k].id !in d.hist.expirySet && (d.joins[k].pc != SetExpiry ==> d.joins[k].id !in d.hist.filled)
    {
      assert k != i ==> d.joins[k].id != c.joins[i].id;
    }
  }

  lemma HashJoined(c: Core, i: nat, o: Outcome)
    requires JoinsOk(c) && HashesOk(c) && i < |c.joins|
    ensures var d := StepJoin(c, i, o);
            HashAt(d.hist, d.db.now, d.db.hashes, c.joins[i].id)
  {
    var j, d := c.joins[i], StepJoin(c, i, o);
    assert HashAt(c.hist, c.db.now, c.db.hashes, j.id) && JoinOk(c.hist, j);
    if o != Failed {
      match j.pc
      case Fill =>
        assert HashToWrite(c.db, j.id) ==
               if j.id in c.db.hashes then Expected(c.hist, j.id) else Hash(None, None, None);
        assert d.db.hashes[j.id] == Expected(d.hist, j.id);
      case SetExpiry => assert j.id in c.db.hashes ==> Live(c.db, j.id);
      case _ =>
    }
  }

  /** The join fields are readable exactly if they were written and their TTL has not run out. */
  lemma FieldsReadable(c: Core, t: TicketId)
    requires HashesOk(c)
    ensures t in c.hist.filled ==> t in c.hist.fieldsOf
    ensures HGetFields(c.db, t) ==
            if t in c.hist.filled && !HashExpired(c.hist, c.db.now, t) then Some(c.hist.fieldsOf[t]) else None
  {
    assert HashAt(c.hist, c.db.now, c.db.hashes, t);
  }

  /** Before the hash expires, the token is readable exactly if it was stored. */
  lemma TokenReadable(c: Core, t: TicketId)
    requires HashesOk(c) && !HashExpired(c.hist, c.db.now, t)
    ensures t in c.hist.stored ==> t in c.hist.tokenOf && c.hist.tokenOf[t] < |c.hist.issued|
    ensures HGetToken(c.db, t) == if t in c.hist.stored then Some(c.hist.issued[c.hist.tokenOf[t]]) else None
  {
    assert HashAt(c.hist, c.db.now, c.db.hashes, t);
  }

  // ------------------------------------------------------------------ the admitted message

  ghost predicate Announced(h: History, m: Message) {
    m.AdmittedMsg? ==>
      && m.ticket in h.place && h.place[m.ticket].stage == Admitted && m.ticket in h.tried
      && m.ticket in h.tokenOf && h.tokenOf[m.ticket] < |h.issued| && m.token == h.issued[h.tokenOf[m.ticket]]
  }

  /** Every admission announced is final, counted or tried, carries the ticket's token, and is announced once. */
  ghost predicate ChannelOk(c: Core) {
    && (forall n :: 0 <= n < |c.db.published| ==> Announced(c.hist, c.db.published[n]))
    && (forall m, n ::
          0 <= m < n < |c.db.published| && c.db.published[m].AdmittedMsg? && c.db.published[n].AdmittedMsg? ==>
          c.db.published[m].ticket != c.db.published[n].ticket)
  }

  lemma ChannelNext(c: Core, a: Action)
    requires Conserved(c) && TokensOk(c) && ChannelOk(c)
    ensures ChannelOk(Next(c, a))
  {
    match a
    case StartTick(e) => ChannelSame(c, Acquire(c, e));
    case TickStep(i, o) => if i < |c.ticks| { ChannelTick(c, i, o); }
    case CrashTick(i) =>
      if i < |c.ticks| {
        assert HeldBy(c.hist.place, i, c.ticks[i]);
        ChannelMark(c, Crash(c, i), i, c.ticks[i].todo, Dropped);
      }
    case JoinStep(i, o) => if i < |c.joins| { ChannelJoin(c, i, o); }
    case _ => ChannelSame(c, Quiet(c, a));
  }

  lemma ChannelSame(c: Core, d: Core)
    requires ChannelOk(c) && d.db.published == c.db.published
    requires d.hist.place == c.hist.place && d.hist.tried >= c.hist.tried
    requires d.hist.tokenOf == c.hist.tokenOf && d.hist.issued == c.hist.issued
    ensures ChannelOk(d)
  {
    forall n | 0 <= n < |d.db.published| ensures Announced(d.hist, d.db.published[n]) {
      assert Announced(c.hist, c.db.published[n]);
    }
  }

  lemma ChannelJoin(c: Core, i: nat, o: Outcome)
    requires Conserved(c) && ChannelOk(c) && i < |c.joins|
    ensures ChannelOk(StepJoin(c, i, o))
  {
    var d := StepJoin(c, i, o);
    assert JoinOk(c.hist, c.joins[i]);
    forall n | 0 <= n < |d.db.published| ensures Announced(d.hist, d.db.published[n]) {
      assert Announced(c.hist, c.db.published[n]);
    }
  }

  /** Tickets that were waiting or held when they moved had not been announced. */
  lemma ChannelMark(c: Core, d: Core, i: nat, batch: seq<Entry>, stage: Stage)
    requires Conserved(c) && ChannelOk(c) && i < |c.ticks| && d.db.published == c.db.published
    requires forall t :: Has(batch, t) ==> t in c.hist.place && c.hist.place[t].stage != Admitted
    requires d.hist.place == Mark(c.hist.place, batch, stage) && d.hist.tried == c.hist.tried
    requires d.hist.tokenOf == c.hist.tokenOf && d.hist.issued == c.hist.issued
    ensures ChannelOk(d)
  {
    forall n | 0 <= n < |d.db.published| ensures Announced(d.hist, d.db.published[n]) {
      assert Announced(c.hist, c.db.published[n]);
    }
  }

  lemma ChannelTick(c: Core, i: nat, o: Outcome)
    requires Conserved(c) && TokensOk(c) && ChannelOk(c) && i < |c.ticks|
    ensures ChannelOk(StepTick(c, i, o))
  {
    var t, d := c.ticks[i], StepTick(c, i, o);
    assert HeldBy(c.hist.place, i, t) && TokenHeld(c.hist, t);
    match t.pc
    case Pop(_) =>
      if o == Failed {
        ChannelSame(c, d);
      } else {
        PopQueues(c, i, if o == Ok then Held(i) else Dropped);
        ChannelMark(c, d, i, Batch(c.db, t), if o == Ok then Held(i) else Dropped);
      }
    case Issue =>
      if o == Ok && t.todo != [] {
        ChannelIssue(c, i);
      } else {
        if t.todo != [] {
          TailIds(t.todo);
        }
        ChannelMark(c, d, i, t.todo[..Min(1, |t.todo|)], Dropped);
      }
    case Announce(_) => ChannelAnnounce(c, i, o);
    case Notify =>
      forall n | 0 <= n < |d.db.published| ensures Announced(d.hist, d.db.published[n]) {
        assert n < |c.db.published| ==> Announced(c.hist, c.db.published[n]);
      }
    case _ => ChannelSame(c, d);
  }

  lemma ChannelIssue(c: Core, i: nat)
    requires TokensOk(c) && ChannelOk(c) && i < |c.ticks| && c.ticks[i].pc.Issue? && c.ticks[i].todo != []
    ensures ChannelOk(StepTick(c, i, Ok))
  {
    var d := StepTick(c, i, Ok);
    assert TokenHeld(c.hist, c.ticks[i]);
    forall n | 0 <= n < |d.db.published| ensures Announced(d.hist, d.db.published[n]) {
      assert Announced(c.hist, c.db.published[n]);
    }
  }

  lemma ChannelAnnounce(c: Core, i: nat, o: Outcome)
    requires Conserved(c) && TokensOk(c) && ChannelOk(c) && i < |c.ticks| && c.ticks[i].pc.Announce?
    ensures ChannelOk(StepTick(c, i, o))
  {
    var t, d := c.ticks[i], StepTick(c, i, o);
    assert HeldBy(c.hist.place, i, t) && TokenHeld(c.hist, t);
    assert Has(t.todo, t.todo[0].id) && Has(t.todo[..1], t.todo[0].id) by { assert t.todo[..1][0] == t.todo[0]; }
    assert forall x :: Has(t.todo[..1], x) ==> x == t.todo[0].id;
    forall n | 0 <= n < |c.db.published|
      ensures Announced(d.hist, c.db.published[n])
      ensures c.db.published[n].AdmittedMsg? ==> c.db.published[n].ticket != t.todo[0].id
    {
      assert Announced(c.hist, c.db.published[n]);
    }
  }
}
