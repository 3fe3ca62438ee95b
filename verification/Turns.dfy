/** How a stream works off its buffer, and how a batch reaches the streams of those who still wait. */
module Turns {
  import opened Tokens
  import opened SortedSet
  import opened Redis
  import opened Machine
  import opened Delivery
  import opened Visits
  import opened Site
  import opened Runs
  import opened Batches

  /** A turn of stream i's select loop. */
  predicate TakesTurn(s: Site, a: Act, i: nat) {
    a.StreamStep? && a.stream == i < |s.streams| && s.streams[i].pc == Wait
  }

  function TurnsTaken(s: Site, acts: seq<Act>, i: nat): nat {
    if acts == [] then 0
    else
      var n := |acts| - 1;
      TurnsTaken(s, acts[..n], i) + if TakesTurn(Run(s, acts[..n]), acts[n], i) then 1 else 0
  }

  lemma {:induction false} TurnsKept(s: Site, acts: seq<Act>, more: seq<Act>, i: nat)
    requires acts <= more && Untouched(more, |acts|, i)
    ensures TurnsTaken(s, more, i) == TurnsTaken(s, acts, i)
    decreases |more|
  {
    if |acts| < |more| {
      TurnsKept(s, acts, more[..|more| - 1], i);
    } else {
      assert acts == more;
    }
  }

  /** Others' steps, and then one of stream i. */
  lemma TurnsAfterStep(s: Site, acts: seq<Act>, mid: seq<Act>, i: nat, o: Outcome)
    requires acts <= mid && Untouched(mid, |acts|, i)
    ensures TurnsTaken(s, mid + [StreamStep(i, o)], i) ==
            TurnsTaken(s, acts, i) + if i < |Run(s, mid).streams| && Run(s, mid).streams[i].pc == Wait then 1 else 0
  {
    var more, a := mid + [StreamStep(i, o)], StreamStep(i, o);
    TurnsKept(s, acts, mid, i);
    assert more[..|more| - 1] == mid && more[|more| - 1] == a;
    assert TurnsTaken(s, more, i) == TurnsTaken(s, mid, i) + if TakesTurn(Run(s, mid), a, i) then 1 else 0;
  }

  /** A stream that is not there yet has taken no turn. */
  lemma {:induction false} NoTurnsYet(s: Site, acts: seq<Act>, i: nat)
    requires i >= |Run(s, acts).streams|
    ensures TurnsTaken(s, acts, i) == 0
  {
    if acts != [] {
      var n := |acts| - 1;
      assert |Run(s, acts[..n]).streams| <= |Run(s, acts).streams|;
      NoTurnsYet(s, acts[..n], i);
    }
  }

  // ------------------------------------------------------------------ the buffer

  /** Stream i, subscribed as it was, has worked off a message for each turn, or is past message m. */
  ghost predicate WorkedOff(x: Site, y: Site, i: nat, m: nat, turns: int)
    requires i < |x.streams|
  {
    && i < |y.streams| && x.core.db.published <= y.core.db.published
    && (y.streams[i].pc == Gone ||
        (Subscribed(y.streams[i]) && y.streams[i].ticket == x.streams[i].ticket
         && y.streams[i].start == x.streams[i].start
         && (y.streams[i].cursor > m || y.streams[i].cursor == x.streams[i].cursor + turns)))
  }

  lemma WorkedOffStep(x: Site, y: Site, a: Act, i: nat, m: nat, turns: nat)
    requires i < |x.streams| && WorkedOff(x, y, i, m, turns) && m < |x.core.db.published|
    ensures WorkedOff(x, Step(y, a), i, m, turns + if TakesTurn(y, a, i) then 1 else 0)
  {
    if a.Queue? {
      LogsGrowNext(y.core, a.action);
    }
  }

  lemma {:induction false} AlwaysWorkedOff(s: Site, acts: seq<Act>, more: seq<Act>, i: nat, m: nat)
    requires acts <= more && i < |Run(s, acts).streams| && Subscribed(Run(s, acts).streams[i])
    requires m < |Run(s, acts).core.db.published|
    ensures TurnsTaken(s, more, i) >= TurnsTaken(s, acts, i)
    ensures WorkedOff(Run(s, acts), Run(s, more), i, m, TurnsTaken(s, more, i) - TurnsTaken(s, acts, i))
    decreases |more|
  {
    if |acts| < |more| {
      var n := |more| - 1;
      AlwaysWorkedOff(s, acts, more[..n], i, m);
      var turns := TurnsTaken(s, more[..n], i) - TurnsTaken(s, acts, i);
      WorkedOffStep(Run(s, acts), Run(s, more[..n]), more[n], i, m, turns);
    } else {
      assert acts == more;
    }
  }

  /** What a subscribed stream has passed in its buffer it has told: an admission it has reached is its last output. */
  lemma ReachedIsLast(s: Site, acts: seq<Act>, i: nat, m: nat)
    requires Start(s) && i < |Run(s, acts).streams| && Subscribed(Run(s, acts).streams[i])
    requires Run(s, acts).streams[i].start <= m < Run(s, acts).streams[i].cursor && m < |Run(s, acts).core.db.published|
    requires IsAdmission(Run(s, acts).core.db.published[m], Run(s, acts).streams[i].ticket)
    ensures var st, published := Run(s, acts).streams[i], Run(s, acts).core.db.published;
            st.pc == Ended && st.out != [] && st.out[|st.out| - 1] == AdmittedEvent(published[m].token)
  {
    AlwaysOk(s, acts);
    assert StreamOk(Run(s, acts).core.db.published, Run(s, acts).streams[i]);
  }

  /**
   An admission in the buffer of a subscribed stream is delivered within as many turns as there are messages up to it,
   unless the client leaves.
   */
  lemma DeliveredWithinTurns(s: Site, acts: seq<Act>, more: seq<Act>, i: nat, m: nat)
    requires Start(s) && acts <= more && i < |Run(s, acts).streams| && Subscribed(Run(s, acts).streams[i])
    requires Run(s, acts).streams[i].cursor <= m < |Run(s, acts).core.db.published|
    requires IsAdmission(Run(s, acts).core.db.published[m], Run(s, acts).streams[i].ticket)
    requires TurnsTaken(s, more, i) - TurnsTaken(s, acts, i) > m - Run(s, acts).streams[i].cursor
    ensures i < |Run(s, more).streams|
    ensures var st := Run(s, more).streams[i];
            st.pc == Gone ||
            (st.pc == Ended && st.out != []
             && st.out[|st.out| - 1] == AdmittedEvent(Run(s, acts).core.db.published[m].token))
  {
    AlwaysWorkedOff(s, acts, more, i, m);
    if Run(s, more).streams[i].pc != Gone {
      StartBeforeCursor(s, acts, i);
      assert Run(s, more).core.db.published[m] == Run(s, acts).core.db.published[m];
      ReachedIsLast(s, more, i, m);
    }
  }

  lemma StartBeforeCursor(s: Site, acts: seq<Act>, i: nat)
    requires Start(s) && i < |Run(s, acts).streams|
    ensures Run(s, acts).streams[i].start <= Run(s, acts).streams[i].cursor
  {
    AlwaysOk(s, acts);
    assert StreamOk(Run(s, acts).core.db.published, Run(s, acts).streams[i]);
  }

  // ------------------------------------------------------------------ the tick message

  /** A buffered tick of the stream's event makes it read its rank. */
  lemma TickMakesStreamRead(s: Site, acts: seq<Act>, i: nat, o: Outcome)
    requires i < |Run(s, acts).streams| && Run(s, acts).streams[i].pc == Wait
    requires var st, published := Run(s, acts).streams[i], Run(s, acts).core.db.published;
             st.cursor < |published| && published[st.cursor] == TickMsg(st.event)
    ensures var y := Run(s, acts + [StreamStep(i, o)]);
            i < |y.streams| && y.streams[i] == Run(s, acts).streams[i].(cursor := y.streams[i].cursor, pc := TickRank)
  {
    RunAppend(s, acts, StreamStep(i, o));
  }

  /** And when the read is answered, a ticket that still waits is told its rank, whatever happened in between. */
  lemma ReadIsShown(s: Site, acts: seq<Act>, i: nat)
    requires i < |Run(s, acts).streams|
    requires Run(s, acts).streams[i].pc == TickRank || Run(s, acts).streams[i].pc == FirstRank
    ensures var st := Run(s, acts).streams[i];
            var rank := Rank(ListAt(Run(s, acts).core.db.queues, st.event), st.ticket);
            var y := Run(s, acts + [StreamStep(i, Ok)]);
            && i < |y.streams| && y.streams[i].pc == Wait
            && y.streams[i].out == if rank >= 0 then st.out + [PositionEvent(rank)] else st.out
  {
    RunAppend(s, acts, StreamStep(i, Ok));
  }

  /** No step of tick i is refused. */
  ghost predicate NoneRefused(acts: seq<Act>, since: nat, i: nat) {
    forall k :: since <= k < |acts| ==> acts[k] != Queue(TickStep(i, Failed))
  }

  /** A tick that got all its answers was refused nothing. */
  lemma {:induction false} AnsweredNotRefused(acts: seq<Act>, more: seq<Act>, i: nat)
    requires acts <= more
    ensures Unanswered(more, i) >= Unanswered(acts, i)
    ensures Unanswered(more, i) == Unanswered(acts, i) ==> NoneRefused(more, |acts|, i)
    decreases |more|
  {
    if |acts| < |more| {
      AnsweredNotRefused(acts, more[..|more| - 1], i);
    } else {
      assert acts == more;
    }
  }

  /** Tick i of e has yet to announce its batch, or it was announced since. */
  ghost predicate Telling(s: Site, acts: seq<Act>, i: nat, e: EventId, since: nat)
    requires since <= |acts|
  {
    var ticks := Run(s, acts).core.ticks;
    && i < |ticks| && ticks[i].event == e
    && (InLoop(ticks[i].pc) || ticks[i].pc == Notify || Notified(s, acts, e, since))
  }

  /**
   A batch is announced to the waiting: a tick that was working on its members, did not die, was refused nothing and is
   done with them has published the tick of its event.
   */
  lemma {:induction false} BatchIsAnnounced(s: Site, acts: seq<Act>, more: seq<Act>, i: nat)
    requires Start(s) && acts <= more && i < |Run(s, acts).core.ticks|
    requires InLoop(Run(s, acts).core.ticks[i].pc) || Run(s, acts).core.ticks[i].pc == Notify
    requires Lived(more, |acts|, i) && NoneRefused(more, |acts|, i)
    ensures Telling(s, more, i, Run(s, acts).core.ticks[i].event, |acts|)
    decreases |more|
  {
    if |acts| < |more| {
      var n := |more| - 1;
      BatchIsAnnounced(s, acts, more[..n], i);
      TellingStep(s, more, i, Run(s, acts).core.ticks[i].event, |acts|);
    } else {
      assert acts == more;
    }
  }

  lemma TellingStep(s: Site, acts: seq<Act>, i: nat, e: EventId, since: nat)
    requires since < |acts| && Telling(s, acts[..|acts| - 1], i, e, since)
    requires acts[|acts| - 1] != Queue(CrashTick(i)) && acts[|acts| - 1] != Queue(TickStep(i, Failed))
    ensures Telling(s, acts, i, e, since)
  {
    var n := |acts| - 1;
    var before, a := Run(s, acts[..n]), acts[n];
    assert Run(s, acts) == Step(before, a);
    if Notified(s, acts[..n], e, since) {
      NotifiedStays(s, acts[..n], acts, e, since);
    }
    if a.Queue? {
      AnnouncingStep(before.core, a.action, i);
      if before.core.ticks[i].pc == Notify && a.action.TickStep? && a.action.tick == i {
        NotifiedNow(s, acts[..n], acts, e, since);
      }
    }
  }

  lemma AnnouncingStep(c: Core, a: Action, i: nat)
    requires i < |c.ticks| && a != CrashTick(i) && a != TickStep(i, Failed)
    ensures i < |Next(c, a).ticks| && Next(c, a).ticks[i].event == c.ticks[i].event
    ensures InLoop(c.ticks[i].pc) ==> InLoop(Next(c, a).ticks[i].pc) || Next(c, a).ticks[i].pc == Notify
    ensures c.ticks[i].pc == Notify ==>
              if a.TickStep? && a.tick == i then Next(c, a).db.published == c.db.published + [TickMsg(c.ticks[i].event)]
              else Next(c, a).ticks[i].pc == Notify
  {
    match a
    case JoinStep(k, o) => if k < |c.joins| { assert StepJoin(c, k, o).ticks == c.ticks; }
    case StartTick(_) =>
    case TickStep(_, _) =>
    case CrashTick(_) =>
    case _ => assert Quiet(c, a).ticks == c.ticks;
  }
}
