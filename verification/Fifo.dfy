/** First in, first out: what ZPOPMIN batches and late ZADDs do to the order of one event's queue. */
module Fifo {
  import opened Tokens
  import opened SortedSet
  import opened Redis
  import opened Machine
  import opened Conservation

  ghost predicate WasPopped(popped: seq<Popped>, x: Entry) {
    exists j :: 0 <= j < |popped| && popped[j].entry == x
  }

  /** Every ticket added is in the queue or in the pop log, never in both and never twice. */
  ghost predicate LogsOk(q: seq<Entry>, joined: seq<Entry>, popped: seq<Popped>) {
    && DistinctIds(joined)
    && (forall x :: x in joined <==> x in q || WasPopped(popped, x))
    && (forall i, j :: 0 <= i < j < |popped| ==> popped[i].entry.id != popped[j].entry.id)
    && (forall i :: 0 <= i < |popped| ==> !Has(q, popped[i].entry.id))
  }

  /** Whoever was in line at a pop and was not taken is ordered behind the one who was. */
  ghost predicate OrderOk(q: seq<Entry>, joined: seq<Entry>, popped: seq<Popped>) {
    && (forall i :: 0 <= i < |popped| ==>
       popped[i].joinsBefore <= |joined| && popped[i].entry in joined[..popped[i].joinsBefore])
    && (forall i, x :: 0 <= i < |popped| && x in joined[..popped[i].joinsBefore] && x in q ==> Less(popped[i].entry, x))
    && (forall i, j :: 0 <= i < j < |popped| && popped[j].entry in joined[..popped[i].joinsBefore] ==>
          Less(popped[i].entry, popped[j].entry))
  }

  ghost predicate FifoOk(q: seq<Entry>, joined: seq<Entry>, popped: seq<Popped>) {
    Sorted(q) && DistinctIds(q) && LogsOk(q, joined, popped) && OrderOk(q, joined, popped)
  }

  lemma JoinKeepsFifo(q: seq<Entry>, joined: seq<Entry>, popped: seq<Popped>, x: Entry)
    requires FifoOk(q, joined, popped) && !Has(joined, x.id)
    ensures FifoOk(Insert(q, x), joined + [x], popped)
  {
    assert !Has(q, x.id) by {
      if i :| 0 <= i < |q| && q[i].id == x.id {
        assert q[i] in q && q[i] in joined;
        HasIffIn(joined, x.id);
      }
    }
    InsertKeeps(q, x);
    var all := joined + [x];
    forall i | 0 <= i < |popped|
      ensures all[..popped[i].joinsBefore] == joined[..popped[i].joinsBefore] && !Has(Insert(q, x), popped[i].entry.id)
    {
      assert popped[i].entry in joined;
      HasIffIn(joined, popped[i].entry.id);
    }
    forall i, y | 0 <= i < |popped| && y in all[..popped[i].joinsBefore] && y in Insert(q, x)
      ensures Less(popped[i].entry, y)
    {
      assert y in joined;
      HasIffIn(joined, y.id);
    }
    forall y ensures y in all <==> y in Insert(q, x) || WasPopped(popped, y) {
      assert y in all <==> y in joined || y == x;
    }
  }

  lemma PopKeepsLogs(q: seq<Entry>, joined: seq<Entry>, popped: seq<Popped>, k: nat)
    requires FifoOk(q, joined, popped) && k <= |q|
    ensures LogsOk(q[k..], joined, Extended(popped, q[..k], |joined|))
  {
    var log := Extended(popped, q[..k], |joined|);
    PrefixIds(q, k);
    forall i | 0 <= i < |log| ensures !Has(q[k..], log[i].entry.id) {
      if i >= |popped| {
        assert q[..k][i - |popped|] == log[i].entry;
        assert Has(q[..k], log[i].entry.id);
      }
    }
    forall i, j | 0 <= i < j < |log| ensures log[i].entry.id != log[j].entry.id {
      if i < |popped| <= j {
        assert q[j - |popped|] == log[j].entry;
        assert Has(q, log[j].entry.id);
      } else if |popped| <= i {
        assert q[i - |popped|] == log[i].entry && q[j - |popped|] == log[j].entry;
      }
    }
    forall x ensures x in joined <==> x in q[k..] || WasPopped(log, x) {
      assert x in q <==> x in q[..k] || x in q[k..] by { assert q == q[..k] + q[k..]; }
      if x in q[..k] {
        var i :| 0 <= i < k && q[..k][i] == x;
        assert log[|popped| + i].entry == x;
      }
      if i :| 0 <= i < |popped| && popped[i].entry == x {
        assert log[i].entry == x;
      }
      if i :| 0 <= i < |log| && log[i].entry == x {
        assert i < |popped| ==> popped[i].entry == x;
        assert i >= |popped| ==> x in q;
      }
    }
  }

  lemma PopKeepsOrder(q: seq<Entry>, joined: seq<Entry>, popped: seq<Popped>, k: nat)
    requires FifoOk(q, joined, popped) && k <= |q|
    ensures OrderOk(q[k..], joined, Extended(popped, q[..k], |joined|))
  {
    var log := Extended(popped, q[..k], |joined|);
    assert joined[..|joined|] == joined;
    forall i | 0 <= i < |log| ensures log[i].joinsBefore <= |joined| && log[i].entry in joined[..log[i].joinsBefore] {
      if i >= |popped| {
        assert q[i - |popped|] == log[i].entry && log[i].entry in q;
      }
    }
    forall i, x | 0 <= i < |log| && x in joined[..log[i].joinsBefore] && x in q[k..] ensures Less(log[i].entry, x) {
      var m :| 0 <= m < |q[k..]| && q[k..][m] == x;
      assert q[k + m] == x && x in q;
      if i >= |popped| {
        assert q[i - |popped|] == log[i].entry;
      }
    }
    forall i, j | 0 <= i < j < |log| && log[j].entry in joined[..log[i].joinsBefore]
      ensures Less(log[i].entry, log[j].entry)
    {
      if j >= |popped| {
        assert q[j - |popped|] == log[j].entry && log[j].entry in q;
        if i >= |popped| {
          assert q[i - |popped|] == log[i].entry;
        }
      }
    }
  }

  /**
   No overtaking: if a was already in line when b was popped and a's (score, id) is smaller,
   then a was popped before b.
   */
  lemma NoOvertaking(q: seq<Entry>, joined: seq<Entry>, popped: seq<Popped>, i: nat, a: Entry)
    requires FifoOk(q, joined, popped) && i < |popped|
    requires a in joined[..popped[i].joinsBefore] && Less(a, popped[i].entry)
    ensures exists j :: 0 <= j < i && popped[j].entry == a
  {
    assert a in joined;
    assert a !in q;
    var j :| 0 <= j < |popped| && popped[j].entry == a;
    assert j < i;
  }

  ghost predicate ScoresAscend(q: seq<Entry>) {
    forall m, n :: 0 <= m < n < |q| ==> q[m].score <= q[n].score
  }

  /** If ZADDs arrive in score order, the whole pop log is in score order, across all batches and schedulers. */
  lemma PopsInScoreOrder(q: seq<Entry>, joined: seq<Entry>, popped: seq<Popped>)
    requires FifoOk(q, joined, popped)
    requires ScoresAscend(joined)
    ensures forall i, j :: 0 <= i < j < |popped| ==> popped[i].entry.score <= popped[j].entry.score
  {
    forall i, j | 0 <= i < j < |popped| ensures popped[i].entry.score <= popped[j].entry.score {
      var m :| 0 <= m < popped[i].joinsBefore && joined[..popped[i].joinsBefore][m] == popped[i].entry;
      var n :| 0 <= n < popped[j].joinsBefore && joined[..popped[j].joinsBefore][n] == popped[j].entry;
      if n < popped[i].joinsBefore {
        assert joined[..popped[i].joinsBefore][n] == popped[j].entry;
      } else {
        assert joined[m].score <= joined[n].score;
      }
    }
  }

  /** One event's queue and logs, and what they say about where its tickets are. */
  ghost predicate EventOk(c: Core, e: EventId) {
    && FifoOk(ListAt(c.db.queues, e), ListAt(c.hist.joined, e), ListAt(c.hist.popped, e))
    && forall t :: Has(ListAt(c.hist.joined, e), t) <==> t in c.hist.fieldsOf && c.hist.fieldsOf[t].eventId == e
  }

  ghost predicate AllFifo(c: Core) {
    forall e :: EventOk(c, e)
  }

  lemma FifoInit(c: Core)
    requires Init(c)
    ensures AllFifo(c)
  {
  }

  lemma FifoNext(c: Core, a: Action)
    requires Conserved(c) && AllFifo(c)
    ensures AllFifo(Next(c, a))
  {
    forall e ensures EventOk(Next(c, a), e) {
      assert EventOk(c, e);
      EventNext(c, a, e);
    }
  }

  lemma EventNext(c: Core, a: Action, e: EventId)
    requires Conserved(c) && EventOk(c, e)
    ensures EventOk(Next(c, a), e)
  {
    match a
    case TickStep(i, o) => if i < |c.ticks| { FifoTick(c, i, o, e); }
    case JoinStep(i, o) => if i < |c.joins| { FifoJoin(c, i, o, e); }
    case _ =>
      OthersKeepLogs(c, a);
      FifoSame(c, Next(c, a), e);
  }

  lemma OthersKeepLogs(c: Core, a: Action)
    requires !a.TickStep? && !a.JoinStep?
    ensures var d := Next(c, a);
            && d.db.queues == c.db.queues && d.hist.joined == c.hist.joined && d.hist.popped == c.hist.popped
            && d.hist.fieldsOf == c.hist.fieldsOf
  {
    if a.StartTick? {
      assert Next(c, a) == Acquire(c, a.event);
    } else if !a.CrashTick? {
      assert Next(c, a) == Quiet(c, a);
    }
  }

  /** Steps that leave the queue, its logs and its tickets' events alone. */
  lemma FifoSame(c: Core, d: Core, e: EventId)
    requires EventOk(c, e)
    requires ListAt(d.db.queues, e) == ListAt(c.db.queues, e) && ListAt(d.hist.joined, e) == ListAt(c.hist.joined, e)
    requires ListAt(d.hist.popped, e) == ListAt(c.hist.popped, e)
    requires d.hist.fieldsOf == c.hist.fieldsOf
    ensures EventOk(d, e)
  {
  }

  lemma FifoTick(c: Core, i: nat, o: Outcome, e: EventId)
    requires EventOk(c, e) && i < |c.ticks|
    ensures EventOk(StepTick(c, i, o), e)
  {
    var t := c.ticks[i];
    if t.pc.Pop? {
      FifoPop(c, i, o, e);
    } else {
      FifoSame(c, StepTick(c, i, o), e);
    }
  }

  lemma FifoPop(c: Core, i: nat, o: Outcome, e: EventId)
    requires EventOk(c, e) && i < |c.ticks| && c.ticks[i].pc.Pop?
    ensures EventOk(StepTick(c, i, o), e)
  {
    var d, k := StepTick(c, i, o), PopSize(c.db, e, c.ticks[i].pc.n);
    if c.ticks[i].event != e || o == Failed {
      FifoSame(c, d, e);
    } else {
      var q, joined, popped := ListAt(c.db.queues, e), ListAt(c.hist.joined, e), ListAt(c.hist.popped, e);
      PopKeepsLogs(q, joined, popped, k);
      PopKeepsOrder(q, joined, popped, k);
      PrefixIds(q, k);
      assert ListAt(d.hist.popped, e) == Extended(popped, q[..k], |joined|);
    }
  }

  lemma FifoJoin(c: Core, i: nat, o: Outcome, e: EventId)
    requires Conserved(c) && EventOk(c, e) && i < |c.joins|
    ensures EventOk(StepJoin(c, i, o), e)
  {
    var j := c.joins[i];
    assert JoinOk(c.hist, j);
    if j.pc != Add || o == Failed {
      FifoSame(c, StepJoin(c, i, o), e);
    } else {
      FifoAdd(c, i, o, e);
    }
  }

  lemma FifoAdd(c: Core, i: nat, o: Outcome, e: EventId)
    requires EventOk(c, e) && i < |c.joins| && c.joins[i].pc == Add && o != Failed && c.joins[i].id !in c.hist.fieldsOf
    ensures EventOk(StepJoin(c, i, o), e)
  {
    var j, d := c.joins[i], StepJoin(c, i, o);
    if j.event == e {
      var x := Entry(j.score, j.id);
      JoinKeepsFifo(ListAt(c.db.queues, e), ListAt(c.hist.joined, e), ListAt(c.hist.popped, e), x);
      forall t ensures Has(ListAt(d.hist.joined, e), t) <==> Has(ListAt(c.hist.joined, e), t) || t == j.id {
        HasAppend(ListAt(c.hist.joined, e), x, t);
      }
    }
  }

  lemma HasAppend(q: seq<Entry>, x: Entry, t: TicketId)
    ensures Has(q + [x], t) <==> Has(q, t) || t == x.id
  {
    if i :| 0 <= i < |q| && q[i].id == t {
      assert (q + [x])[i].id == t;
    }
    assert (q + [x])[|q|] == x;
  }
}
