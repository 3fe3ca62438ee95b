/** Where every ticket is, in every reachable state: overlapping ticks, failures and crashes included. */
module Conservation {
  import opened Config
  import opened Tokens
  import opened SortedSet
  import opened Redis
  import opened Machine

  ghost predicate TicksOk(c: Core) {
    forall i :: 0 <= i < |c.ticks| ==> (InLoop(c.ticks[i].pc) <==> c.ticks[i].todo != [])
  }

  /** What a join knows about its ticket id: not added yet, or added to its event with its fields. */
  ghost predicate JoinOk(h: History, j: Join) {
    && j.id in h.ids && j.event.name != ""
    && (j.pc == Add ==> j.id !in h.fieldsOf)
    && (j.pc == Fill || j.pc == SetExpiry ==> j.id in h.fieldsOf && h.fieldsOf[j.id] == FieldsOf(j))
  }

  ghost predicate JoinsOk(c: Core) {
    && (forall t :: t in c.hist.fieldsOf ==> t in c.hist.ids && c.hist.fieldsOf[t].ticketId == t)
    && (forall i :: 0 <= i < |c.joins| ==> JoinOk(c.hist, c.joins[i]))
    && (forall i, j :: 0 <= i < j < |c.joins| ==> c.joins[i].id != c.joins[j].id)
  }

  /** Every added ticket is placed with the event its hash names. */
  ghost predicate BoundOk(place: map<TicketId, Place>, fieldsOf: map<TicketId, JoinFields>) {
    && (forall t :: t in place <==> t in fieldsOf)
    && (forall t :: t in place ==> place[t].event == fieldsOf[t].eventId)
  }

  ghost predicate At(place: map<TicketId, Place>, t: TicketId, p: Place) {
    t in place && place[t] == p
  }

  /** A queue holds exactly the tickets placed in it. */
  ghost predicate QueueOk(queues: map<EventId, seq<Entry>>, place: map<TicketId, Place>, e: EventId) {
    var q := ListAt(queues, e);
    && Sorted(q) && DistinctIds(q)
    && forall t :: Has(q, t) <==> At(place, t, Place(e, Waiting))
  }

  ghost predicate QueuesOk(c: Core) {
    forall e :: QueueOk(c.db.queues, c.hist.place, e)
  }

  /** A tick holds exactly the tickets placed with it. */
  ghost predicate HeldBy(place: map<TicketId, Place>, i: nat, t: Tick) {
    && DistinctIds(t.todo)
    && forall x :: Has(t.todo, x) <==> At(place, x, Place(t.event, Held(i)))
  }

  ghost predicate HeldOk(c: Core) {
    && (forall i :: 0 <= i < |c.ticks| ==> HeldBy(c.hist.place, i, c.ticks[i]))
    && (forall t :: t in c.hist.place && c.hist.place[t].stage.Held? ==>
          c.hist.place[t].stage.tick < |c.ticks| && c.ticks[c.hist.place[t].stage.tick].event == c.hist.place[t].event)
  }

  ghost predicate PlacesOk(c: Core) {
    QueuesOk(c) && HeldOk(c) && BoundOk(c.hist.place, c.hist.fieldsOf)
  }

  ghost predicate Conserved(c: Core) {
    TicksOk(c) && JoinsOk(c) && PlacesOk(c)
  }

  lemma ConservedInit(c: Core)
    requires Init(c)
    ensures Conserved(c)
  {
  }

  lemma TailIds(q: seq<Entry>)
    requires DistinctIds(q) && q != []
    ensures DistinctIds(q[1..])
    ensures forall t :: Has(q, t) <==> Has(q[1..], t) || t == q[0].id
    ensures forall t :: Has(q[..1], t) <==> t == q[0].id
    ensures !Has(q[1..], q[0].id)
  {
    forall t | Has(q, t)
      ensures Has(q[1..], t) || t == q[0].id
    {
      var i :| 0 <= i < |q| && q[i].id == t;
      if i > 0 {
        assert q[1..][i - 1].id == t;
      }
    }
    forall t | Has(q[1..], t)
      ensures Has(q, t)
    {
      var i :| 0 <= i < |q[1..]| && q[1..][i].id == t;
      assert q[i + 1].id == t;
    }
  }

  lemma PrefixIds(q: seq<Entry>, k: nat)
    requires Sorted(q) && DistinctIds(q) && k <= |q|
    ensures Sorted(q[k..]) && DistinctIds(q[k..]) && DistinctIds(q[..k])
    ensures forall t :: Has(q, t) <==> Has(q[..k], t) || Has(q[k..], t)
    ensures forall t :: !(Has(q[..k], t) && Has(q[k..], t))
  {
    forall t
      ensures Has(q, t) <==> Has(q[..k], t) || Has(q[k..], t)
      ensures !(Has(q[..k], t) && Has(q[k..], t))
    {
      PopShiftsRanks(q, k, t);
    }
  }

  lemma TicksOkNext(c: Core, a: Action)
    requires TicksOk(c)
    ensures TicksOk(Next(c, a))
  {
  }

  lemma JoinsOkNext(c: Core, a: Action)
    requires JoinsOk(c)
    ensures JoinsOk(Next(c, a))
  {
    match a
    case StartTick(e) => JoinsOkSame(c, Acquire(c, e));
    case TickStep(i, o) => if i < |c.ticks| { JoinsOkSame(c, StepTick(c, i, o)); }
    case CrashTick(i) => if i < |c.ticks| { JoinsOkSame(c, Crash(c, i)); }
    case JoinStep(i, o) => if i < |c.joins| { JoinsOkJoin(c, i, o); }
    case _ => JoinsOkQuiet(c, a);
  }

  lemma JoinsOkSame(c: Core, d: Core)
    requires JoinsOk(c) && d.joins == c.joins && d.hist.ids == c.hist.ids && d.hist.fieldsOf == c.hist.fieldsOf
    ensures JoinsOk(d)
  {
    forall j | 0 <= j < |d.joins| ensures JoinOk(d.hist, d.joins[j]) {
      assert JoinOk(c.hist, c.joins[j]);
    }
  }

  lemma JoinsOkJoin(c: Core, i: nat, o: Outcome)
    requires JoinsOk(c) && i < |c.joins|
    ensures JoinsOk(StepJoin(c, i, o))
  {
    var d := StepJoin(c, i, o);
    forall j | 0 <= j < |d.joins| ensures JoinOk(d.hist, d.joins[j]) {
      assert JoinOk(c.hist, c.joins[j]) && JoinOk(c.hist, c.joins[i]);
    }
  }

  lemma JoinsOkQuiet(c: Core, a: Action)
    requires JoinsOk(c)
    ensures JoinsOk(Quiet(c, a))
  {
    match a
    case StartJoin(e, id, secret) => JoinsOkStart(c, e, id, secret);
    case CrashJoin(i) => if i < |c.joins| { assert JoinOk(c.hist, c.joins[i].(pc := Left)); }
    case _ => JoinsOkSame(c, Quiet(c, a));
  }

  lemma JoinsOkStart(c: Core, e: EventId, id: TicketId, secret: nat)
    requires JoinsOk(c)
    ensures JoinsOk(Quiet(c, StartJoin(e, id, secret)))
  {
    var d := Quiet(c, StartJoin(e, id, secret));
    if d != c {
      var mine := Join(e, id, c.db.now, secret, Add);
      assert d.joins == c.joins + [mine] && d.hist.ids == c.hist.ids + {id} && d.hist.fieldsOf == c.hist.fieldsOf;
      assert JoinOk(d.hist, mine);
      forall j | 0 <= j < |c.joins| ensures JoinOk(d.hist, c.joins[j]) && c.joins[j].id != id {
        assert JoinOk(c.hist, c.joins[j]);
      }
    }
  }

  /** Tickets held by tick i may leave it for good without disturbing any queue or other tick. */
  lemma StageMoves(c: Core, d: Core, batch: seq<Entry>, i: nat, stage: Stage)
    requires PlacesOk(c) && i < |c.ticks| == |d.ticks| && (stage == Admitted || stage == Dropped)
    requires forall x :: Has(batch, x) ==> At(c.hist.place, x, Place(c.ticks[i].event, Held(i)))
    requires d.hist.place == Mark(c.hist.place, batch, stage) && d.hist.fieldsOf == c.hist.fieldsOf
             && d.db.queues == c.db.queues
    requires d.ticks[i].event == c.ticks[i].event && d.ticks == c.ticks[i := d.ticks[i]]
    requires HeldBy(d.hist.place, i, d.ticks[i])
    ensures PlacesOk(d)
  {
    forall e ensures QueueOk(d.db.queues, d.hist.place, e) {
      assert QueueOk(c.db.queues, c.hist.place, e);
    }
    forall j | 0 <= j < |c.ticks| ensures HeldBy(d.hist.place, j, d.ticks[j]) {
      assert HeldBy(c.hist.place, j, c.ticks[j]);
    }
  }

  /** Moving a tick's head to its final stage. */
  lemma NextMemberPlaces(c: Core, d: Core, i: nat, stage: Stage)
    requires PlacesOk(c) && i < |c.ticks| && (stage == Admitted || stage == Dropped)
    requires d.ticks == c.ticks[i := NextMember(c.ticks[i])] && d.db.queues == c.db.queues
    requires d.hist.fieldsOf == c.hist.fieldsOf
    requires d.hist.place == Mark(c.hist.place, c.ticks[i].todo[..Min(1, |c.ticks[i].todo|)], stage)
    ensures PlacesOk(d)
  {
    var t := c.ticks[i];
    assert HeldBy(c.hist.place, i, t);
    if t.todo != [] {
      TailIds(t.todo);
    }
    StageMoves(c, d, t.todo[..Min(1, |t.todo|)], i, stage);
  }

  lemma CrashPlaces(c: Core, i: nat)
    requires PlacesOk(c) && i < |c.ticks|
    ensures PlacesOk(Crash(c, i))
  {
    var t := c.ticks[i];
    assert HeldBy(c.hist.place, i, t);
    StageMoves(c, Crash(c, i), t.todo, i, Dropped);
  }

  lemma PopPlaces(c: Core, i: nat, o: Outcome)
    requires TicksOk(c) && PlacesOk(c) && i < |c.ticks| && c.ticks[i].pc.Pop?
    ensures PlacesOk(StepTick(c, i, o))
  {
    if o == Failed {
      SameTodo(c, StepTick(c, i, o), i);
    } else {
      PopEffective(c, i, o);
    }
  }

  lemma PopEffective(c: Core, i: nat, o: Outcome)
    requires TicksOk(c) && PlacesOk(c) && i < |c.ticks| && c.ticks[i].pc.Pop? && o != Failed
    ensures PlacesOk(StepTick(c, i, o))
  {
    var t, d := c.ticks[i], StepTick(c, i, o);
    var batch := Batch(c.db, t);
    PopQueues(c, i, if o == Ok then Held(i) else Dropped);
    PopHeld(c, i, o, batch);
    assert d.hist.place == Mark(c.hist.place, batch, if o == Ok then Held(i) else Dropped);
    assert d.db == ZPopMin(c.db, t.event, t.pc.n) && d.hist.fieldsOf == c.hist.fieldsOf;
    assert d.ticks == c.ticks[i := d.ticks[i]] && d.ticks[i].todo == if o == Ok then batch else [];
  }

  lemma PopQueues(c: Core, i: nat, stage: Stage)
    requires QueuesOk(c) && i < |c.ticks| && c.ticks[i].pc.Pop? && stage != Waiting
    ensures var t := c.ticks[i];
            && DistinctIds(Batch(c.db, t))
            && (forall x :: Has(Batch(c.db, t), x) ==> At(c.hist.place, x, Place(t.event, Waiting)))
            && forall e :: QueueOk(ZPopMin(c.db, t.event, t.pc.n).queues, Mark(c.hist.place, Batch(c.db, t), stage), e)
  {
    var t := c.ticks[i];
    assert QueueOk(c.db.queues, c.hist.place, t.event);
    PrefixIds(ListAt(c.db.queues, t.event), PopSize(c.db, t.event, t.pc.n));
    forall e ensures QueueOk(ZPopMin(c.db, t.event, t.pc.n).queues, Mark(c.hist.place, Batch(c.db, t), stage), e) {
      assert QueueOk(c.db.queues, c.hist.place, e);
    }
  }

  lemma PopHeld(c: Core, i: nat, o: Outcome, batch: seq<Entry>)
    requires TicksOk(c) && HeldOk(c) && i < |c.ticks| && c.ticks[i].pc.Pop? && o != Failed && DistinctIds(batch)
    requires forall x :: Has(batch, x) ==> At(c.hist.place, x, Place(c.ticks[i].event, Waiting))
    ensures var place := Mark(c.hist.place, batch, if o == Ok then Held(i) else Dropped);
            var todo := if o == Ok then batch else [];
            && HeldBy(place, i, c.ticks[i].(todo := todo))
            && forall j :: 0 <= j < |c.ticks| && j != i ==> HeldBy(place, j, c.ticks[j])
  {
    var t := c.ticks[i];
    assert HeldBy(c.hist.place, i, t) && t.todo == [];
    var place := Mark(c.hist.place, batch, if o == Ok then Held(i) else Dropped);
    var todo := if o == Ok then batch else [];
    forall x ensures Has(todo, x) <==> At(place, x, Place(t.event, Held(i))) {
      assert !At(c.hist.place, x, Place(t.event, Held(i)));
    }
    forall j | 0 <= j < |c.ticks| && j != i
      ensures HeldBy(Mark(c.hist.place, batch, if o == Ok then Held(i) else Dropped), j, c.ticks[j])
    {
      assert HeldBy(c.hist.place, j, c.ticks[j]);
    }
  }

  lemma JoinPlaces(c: Core, i: nat, o: Outcome)
    requires JoinsOk(c) && PlacesOk(c) && i < |c.joins|
    ensures PlacesOk(StepJoin(c, i, o))
  {
    var j, d := c.joins[i], StepJoin(c, i, o);
    assert JoinOk(c.hist, j);
    if j.pc == Add && o != Failed {
      forall e ensures QueueOk(d.db.queues, d.hist.place, e) {
        assert QueueOk(c.db.queues, c.hist.place, e);
        if e == j.event {
          InsertKeeps(ListAt(c.db.queues, e), Entry(j.score, j.id));
        }
      }
      forall k | 0 <= k < |c.ticks| ensures HeldBy(d.hist.place, k, d.ticks[k]) {
        assert HeldBy(c.hist.place, k, c.ticks[k]);
      }
    }
  }

  lemma TickPlaces(c: Core, i: nat, o: Outcome)
    requires TicksOk(c) && PlacesOk(c) && i < |c.ticks|
    ensures PlacesOk(StepTick(c, i, o))
  {
    match c.ticks[i].pc
    case Pop(_) => PopPlaces(c, i, o);
    case Issue =>
      if o == Ok && c.ticks[i].todo != [] {
        SameTodo(c, StepTick(c, i, o), i);
      } else {
        NextMemberPlaces(c, StepTick(c, i, o), i, Dropped);
      }
    case Announce(_) => NextMemberPlaces(c, StepTick(c, i, o), i, Admitted);
    case _ => SameTodo(c, StepTick(c, i, o), i);
  }

  /** A step that moves no ticket. */
  lemma SameTodo(c: Core, d: Core, i: nat)
    requires PlacesOk(c) && i < |c.ticks| == |d.ticks|
    requires d.ticks == c.ticks[i := d.ticks[i]] && d.ticks[i].event == c.ticks[i].event
             && d.ticks[i].todo == c.ticks[i].todo
    requires d.hist.place == c.hist.place && d.hist.fieldsOf == c.hist.fieldsOf && d.db.queues == c.db.queues
    ensures PlacesOk(d)
  {
    assert HeldBy(c.hist.place, i, c.ticks[i]);
  }

  lemma StartPlaces(c: Core, e: EventId)
    requires PlacesOk(c)
    ensures PlacesOk(Acquire(c, e))
  {
    var d := Acquire(c, e);
    forall j | 0 <= j < |d.ticks| ensures HeldBy(d.hist.place, j, d.ticks[j]) {
      if j < |c.ticks| {
        assert HeldBy(c.hist.place, j, c.ticks[j]);
      } else {
        assert forall t :: !At(c.hist.place, t, Place(e, Held(j)));
      }
    }
  }

  lemma PlacesNext(c: Core, a: Action)
    requires Conserved(c)
    ensures PlacesOk(Next(c, a))
  {
    match a
    case StartTick(e) => StartPlaces(c, e);
    case TickStep(i, o) => if i < |c.ticks| { TickPlaces(c, i, o); }
    case CrashTick(i) => if i < |c.ticks| { CrashPlaces(c, i); }
    case JoinStep(i, o) => if i < |c.joins| { JoinPlaces(c, i, o); }
    case _ => QuietPlaces(c, Quiet(c, a));
  }

  lemma QuietPlaces(c: Core, d: Core)
    requires PlacesOk(c) && d.ticks == c.ticks && d.db.queues == c.db.queues
    requires d.hist.place == c.hist.place && d.hist.fieldsOf == c.hist.fieldsOf
    ensures PlacesOk(d)
  {
  }

  lemma ConservedNext(c: Core, a: Action)
    requires Conserved(c)
    ensures Conserved(Next(c, a))
  {
    TicksOkNext(c, a);
    JoinsOkNext(c, a);
    PlacesNext(c, a);
  }

  // ------------------------------------------------------------------ final stages

  /** The ticket's scheduler has finished with it. */
  ghost predicate Settled(place: map<TicketId, Place>, t: TicketId) {
    t in place && (place[t].stage == Admitted || place[t].stage == Dropped)
  }

  /** What is settled stays so: later marks are of tickets that wait or are held. */
  lemma SettledNext(c: Core, a: Action, t: TicketId)
    requires Conserved(c) && Settled(c.hist.place, t)
    ensures Settled(Next(c, a).hist.place, t) && Next(c, a).hist.place[t] == c.hist.place[t]
  {
    if a.TickStep? && a.tick < |c.ticks| {
      SettledTick(c, a.tick, a.outcome, t);
    } else if a.CrashTick? && a.tick < |c.ticks| {
      NotHeld(c, a.tick, t);
      SettledCrash(c, a.tick, t);
    } else if a.JoinStep? && a.join < |c.joins| {
      AddedIsNew(c, a.join, t);
      SettledJoin(c, a.join, a.outcome, t);
    } else {
      OthersPlaceNone(c, a);
    }
  }

  lemma OthersPlaceNone(c: Core, a: Action)
    requires a.TickStep? || a.CrashTick? || a.JoinStep? ==> Next(c, a) == c
    ensures Next(c, a).hist.place == c.hist.place
  {
    if a.StartTick? {
      assert Next(c, a) == Acquire(c, a.event);
    } else if !a.TickStep? && !a.CrashTick? && !a.JoinStep? {
      assert Next(c, a) == Quiet(c, a);
    }
  }

  lemma NotHeld(c: Core, i: nat, t: TicketId)
    requires HeldOk(c) && i < |c.ticks| && Settled(c.hist.place, t)
    ensures !Has(c.ticks[i].todo, t) && !Has(c.ticks[i].todo[..Min(1, |c.ticks[i].todo|)], t)
  {
    assert HeldBy(c.hist.place, i, c.ticks[i]);
    if c.ticks[i].todo != [] {
      TailIds(c.ticks[i].todo);
    }
  }

  lemma SettledCrash(c: Core, i: nat, t: TicketId)
    requires i < |c.ticks| && t in c.hist.place && !Has(c.ticks[i].todo, t)
    ensures t in Next(c, CrashTick(i)).hist.place && Next(c, CrashTick(i)).hist.place[t] == c.hist.place[t]
  {
  }

  lemma AddedIsNew(c: Core, i: nat, t: TicketId)
    requires JoinsOk(c) && BoundOk(c.hist.place, c.hist.fieldsOf) && i < |c.joins| && t in c.hist.place
    ensures c.joins[i].pc == Add ==> c.joins[i].id != t
  {
    assert JoinOk(c.hist, c.joins[i]);
  }

  lemma SettledJoin(c: Core, i: nat, o: Outcome, t: TicketId)
    requires i < |c.joins| && t in c.hist.place && (c.joins[i].pc == Add ==> c.joins[i].id != t)
    ensures t in StepJoin(c, i, o).hist.place && StepJoin(c, i, o).hist.place[t] == c.hist.place[t]
  {
  }

  lemma SettledTick(c: Core, i: nat, o: Outcome, t: TicketId)
    requires Conserved(c) && i < |c.ticks| && Settled(c.hist.place, t)
    ensures Settled(StepTick(c, i, o).hist.place, t) && StepTick(c, i, o).hist.place[t] == c.hist.place[t]
  {
    if c.ticks[i].pc.Pop? {
      NotPopped(c, i, t);
      PlaceAfterPop(c.db, c.hist, i, c.ticks[i], o, t);
    } else {
      NotHeld(c, i, t);
      PlaceAfterOther(c.db, c.hist, i, c.ticks[i], o, t);
    }
  }

  lemma PlaceAfterPop(db: Db, h: History, i: nat, k: Tick, o: Outcome, t: TicketId)
    requires k.pc.Pop? && t in h.place && !Has(Batch(db, k), t)
    ensures t in TickHist(db, h, i, k, o).place && TickHist(db, h, i, k, o).place[t] == h.place[t]
  {
  }

  lemma PlaceAfterOther(db: Db, h: History, i: nat, k: Tick, o: Outcome, t: TicketId)
    requires !k.pc.Pop? && t in h.place && !Has(k.todo[..Min(1, |k.todo|)], t)
    ensures t in TickHist(db, h, i, k, o).place && TickHist(db, h, i, k, o).place[t] == h.place[t]
  {
    if k.pc.Issue? {
      PlaceAfterIssue(db, h, i, k, o, t);
    } else if k.pc.Announce? {
      PlaceAfterAnnounce(db, h, i, k, o, t);
    } else {
      assert !Moves(k.pc);
    }
  }

  lemma PlaceAfterIssue(db: Db, h: History, i: nat, k: Tick, o: Outcome, t: TicketId)
    requires k.pc.Issue? && t in h.place && !Has(k.todo[..Min(1, |k.todo|)], t)
    ensures t in TickHist(db, h, i, k, o).place && TickHist(db, h, i, k, o).place[t] == h.place[t]
  {
  }

  lemma PlaceAfterAnnounce(db: Db, h: History, i: nat, k: Tick, o: Outcome, t: TicketId)
    requires k.pc.Announce? && t in h.place && !Has(k.todo[..Min(1, |k.todo|)], t)
    ensures t in TickHist(db, h, i, k, o).place && TickHist(db, h, i, k, o).place[t] == h.place[t]
  {
  }

  lemma NotPopped(c: Core, i: nat, t: TicketId)
    requires QueuesOk(c) && i < |c.ticks| && c.ticks[i].pc.Pop? && Settled(c.hist.place, t)
    ensures !Has(Batch(c.db, c.ticks[i]), t)
  {
    var k := c.ticks[i];
    assert QueueOk(c.db.queues, c.hist.place, k.event);
    PrefixIds(ListAt(c.db.queues, k.event), PopSize(c.db, k.event, k.pc.n));
  }

  /** The end of a tick's work on its first member: announced, or given up because no token was issued. */
  lemma HeadSettles(c: Core, i: nat, o: Outcome)
    requires Conserved(c) && i < |c.ticks| && c.ticks[i].todo != []
    requires c.ticks[i].pc.Announce? || (c.ticks[i].pc.Issue? && o != Ok)
    ensures var t, place := c.ticks[i], StepTick(c, i, o).hist.place;
            t.todo[0].id in place && place[t.todo[0].id] == Place(t.event, if t.pc.Announce? then Admitted else Dropped)
  {
    var t := c.ticks[i];
    assert HeldBy(c.hist.place, i, t) && Has(t.todo, t.todo[0].id);
    assert At(c.hist.place, t.todo[0].id, Place(t.event, Held(i)));
    TailIds(t.todo);
  }
}
