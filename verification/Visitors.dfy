/** What a visitor can rely on, over every run of the whole deployment. */
module Visitors {
  import opened Config
  import opened Tokens
  import opened SortedSet
  import opened Redis
  import opened Machine
  import opened Conservation
  import opened Tickets
  import opened Origin
  import opened Redemption
  import opened Delivery
  import opened Visits
  import opened Site
  import opened Runs

  // ------------------------------------------------------------------ streams

  /** Once a stream has shown a position, no later admission of its ticket is lost: it is delivered or buffered. */
  lemma StreamLosesNoAdmission(s: Site, acts: seq<Act>, i: nat, m: nat)
    requires Start(s) && i < |Run(s, acts).streams| && m < |Run(s, acts).core.db.published|
    requires var st := Run(s, acts).streams[i];
             st.out != [] && st.out[0].PositionEvent? && st.pc != Gone
               && IsAdmission(Run(s, acts).core.db.published[m], st.ticket)
    ensures var st := Run(s, acts).streams[i];
            m >= st.cursor || (st.out[|st.out| - 1] == AdmittedEvent(Run(s, acts).core.db.published[m].token)
              && st.pc == Ended)
  {
    AlwaysOk(s, acts);
    NoAdmissionLost(Run(s, acts).core.db.published, Run(s, acts).streams[i], m);
  }

  /** A stream writes positions, and then at most one admission, which is the last thing it writes. */
  lemma StreamShape(s: Site, acts: seq<Act>, i: nat)
    requires Start(s) && i < |Run(s, acts).streams|
    ensures var out := Run(s, acts).streams[i].out;
            forall k :: 0 <= k < |out| ==> out[k].PositionEvent? || k == |out| - 1
  {
    AlwaysOk(s, acts);
    assert StreamOk(Run(s, acts).core.db.published, Run(s, acts).streams[i]);
  }

  /**
   Without a position the promise fails, and exactly when: a drained stream has delivered the admission if and only
   if it was published after the subscription; one published before is never delivered.
   */
  lemma StreamDeliversIff(s: Site, acts: seq<Act>, i: nat)
    requires Start(s) && i < |Run(s, acts).streams|
    requires Subscribed(Run(s, acts).streams[i]) && Run(s, acts).streams[i].cursor == |Run(s, acts).core.db.published|
    ensures var st, published := Run(s, acts).streams[i], Run(s, acts).core.db.published;
            st.pc == Ended <==> exists m :: st.start <= m < |published| && IsAdmission(published[m], st.ticket)
  {
    AlwaysOk(s, acts);
    DeliveredIffAnnouncedAfterSubscribe(Run(s, acts).core.db.published, Run(s, acts).streams[i]);
  }

  /** Stream i subscribed after message m, the admission of its ticket. */
  ghost predicate Missed(s: Site, i: nat, m: nat, message: Message) {
    && i < |s.streams| && (Subscribed(s.streams[i]) || s.streams[i].pc == Gone) && m < s.streams[i].start
    && m < |s.core.db.published| && s.core.db.published[m] == message && IsAdmission(message, s.streams[i].ticket)
  }

  lemma MissedStays(s: Site, a: Act, i: nat, m: nat, message: Message)
    requires Missed(s, i, m, message)
    ensures Missed(Step(s, a), i, m, message)
  {
    if a.Queue? {
      LogsGrowNext(s.core, a.action);
      assert Next(s.core, a.action).db.published[..|s.core.db.published|][m] == message;
    }
  }

  lemma {:induction false} AlwaysMissed(s: Site, acts: seq<Act>, i: nat, m: nat, message: Message)
    requires Missed(s, i, m, message)
    ensures Missed(Run(s, acts), i, m, message)
  {
    if acts != [] {
      AlwaysMissed(s, acts[..|acts| - 1], i, m, message);
      MissedStays(Run(s, acts[..|acts| - 1]), acts[|acts| - 1], i, m, message);
    }
  }

  /** A stream that subscribed after its ticket's admission was published never ends, however the run goes on. */
  lemma LateStreamNeverEnds(s: Site, acts: seq<Act>, more: seq<Act>, i: nat, m: nat, message: Message)
    requires Start(s) && Missed(Run(s, acts), i, m, message)
    ensures var y := Run(Run(s, acts), more);
            i < |y.streams| && y.streams[i].pc != Ended
  {
    AlwaysMissed(Run(s, acts), more, i, m, message);
    var y := Run(Run(s, acts), more);
    assert SiteOk(y) by {
      AlwaysOk(s, acts);
      StaysOk(Run(s, acts), more);
    }
    assert StreamOk(y.core.db.published, y.streams[i]) && ChannelOk(y.core);
  }

  // ------------------------------------------------------------------ pollers

  /** Poller i is answered with working reads, an unexpired hash and its own secret, one request at a time. */
  ghost predicate PolledWell(s: Site, a: Act, i: nat) {
    a.PollStep? && a.poller == i && i < |s.pollers| ==> Served(s.core, s.pollers[i], a.outcome)
  }

  lemma {:induction false} PollerAlwaysOk(s: Site, acts: seq<Act>, i: nat)
    requires Start(s) && Along(s, acts, (x: Site, a: Act) => PolledWell(x, a, i))
    ensures i < |Run(s, acts).pollers| ==> PollerOk(Run(s, acts).core.hist, Run(s, acts).pollers[i])
  {
    if acts != [] {
      var n := |acts| - 1;
      PollerAlwaysOk(s, acts[..n], i);
      AlwaysOk(s, acts[..n]);
      PollerStepOk(Run(s, acts[..n]), acts[n], i);
    }
  }

  lemma PollerStepOk(s: Site, a: Act, i: nat)
    requires SiteOk(s) && PolledWell(s, a, i)
    requires i < |s.pollers| ==> PollerOk(s.core.hist, s.pollers[i])
    ensures i < |Step(s, a).pollers| ==> PollerOk(Step(s, a).core.hist, Step(s, a).pollers[i])
  {
    if i < |s.pollers| {
      match a
      case Queue(b) =>
        OnwardNext(s.core, b);
        PollerKept(s.core.hist, Next(s.core, b).hist, s.pollers[i]);
      case PollStep(j, o) => if j == i { PollStepOk(s.core, s.pollers[i], o); }
      case _ =>
    }
  }

  /** An answered first read of a poll says 404 exactly if the join fields were never written or have expired. */
  lemma NotFoundIff(s: Site, acts: seq<Act>, i: nat)
    requires Start(s) && i < |Run(s, acts).pollers| && Run(s, acts).pollers[i].pc == Idle
    ensures var c, p := Run(s, acts).core, Run(s, acts).pollers[i];
            StepPoller(c.db, p, Ok) == Reply(p, NotFound) <==>
              p.ticket !in c.hist.filled || HashExpired(c.hist, c.db.now, p.ticket)
  {
    AlwaysOk(s, acts);
    FieldsReadable(Run(s, acts).core, Run(s, acts).pollers[i].ticket);
  }

  /**
   Successive polls of a ticket answer 404, then positions, then pending, then admitted for good, and always with the
   same token, which is the one issued to that ticket.
   */
  lemma PollsMoveForward(s: Site, acts: seq<Act>, i: nat, m: nat, n: nat)
    requires Start(s) && Along(s, acts, (x: Site, a: Act) => PolledWell(x, a, i))
    requires i < |Run(s, acts).pollers| && m < n < |Run(s, acts).pollers[i].seen|
    ensures var p, h := Run(s, acts).pollers[i], Run(s, acts).core.hist;
            && Phase(p.seen[m]) <= Phase(p.seen[n])
            && (p.seen[n].AdmittedAnswer? ==>
                  p.ticket in h.tokenOf && h.tokenOf[p.ticket] < |h.issued|
                    && p.seen[n].token == h.issued[h.tokenOf[p.ticket]])
            && (p.seen[m].AdmittedAnswer? ==> p.seen[n] == p.seen[m])
  {
    PollerAlwaysOk(s, acts, i);
    var p := Run(s, acts).pollers[i];
    assert Backed(Run(s, acts).core.hist, p.ticket, p.seen[m]) && Backed(Run(s, acts).core.hist, p.ticket, p.seen[n]);
  }

  // ------------------------------------------------------------------ any visitor, in any run

  ghost predicate AllSound(s: Site) {
    && (forall i :: 0 <= i < |s.pollers| ==> PollerSound(s.core.hist, s.pollers[i]))
    && (forall i :: 0 <= i < |s.streams| ==> StreamSound(s.core.hist, s.streams[i]))
  }

  lemma {:induction false} AlwaysSound(s: Site, acts: seq<Act>)
    requires Start(s)
    ensures AllSound(Run(s, acts))
  {
    if acts != [] {
      var n := |acts| - 1;
      AlwaysSound(s, acts[..n]);
      assert CoreOk(Run(s, acts[..n]).core) by {
        AlwaysOk(s, acts[..n]);
      }
      SoundStep(Run(s, acts[..n]), acts[n]);
    }
  }

  lemma SoundStep(s: Site, a: Act)
    requires CoreOk(s.core) && AllSound(s)
    ensures AllSound(Step(s, a))
  {
    var d := Step(s, a);
    if a.Queue? {
      OnwardNext(s.core, a.action);
    }
    forall i | 0 <= i < |d.pollers| ensures PollerSound(d.core.hist, d.pollers[i]) {
      if i < |s.pollers| {
        assert PollerSound(s.core.hist, s.pollers[i]);
        PollerSoundStep(s, a, i);
      }
    }
    forall i | 0 <= i < |d.streams| ensures StreamSound(d.core.hist, d.streams[i]) {
      if i < |s.streams| {
        assert StreamSound(s.core.hist, s.streams[i]);
        StreamSoundStep(s, a, i);
      }
    }
  }

  lemma PollerSoundStep(s: Site, a: Act, i: nat)
    requires HashesOk(s.core) && i < |s.pollers| && PollerSound(s.core.hist, s.pollers[i])
    requires a.Queue? ==> Onward(s.core.hist, Next(s.core, a.action).hist)
    ensures PollerSound(Step(s, a).core.hist, Step(s, a).pollers[i])
  {
    match a
    case Queue(b) => SoundOnward(s.core.hist, Next(s.core, b).hist, s.pollers[i]);
    case PollStep(j, o) => if j == i { PollerStaysSound(s.core, s.pollers[i], o); }
    case _ =>
  }

  lemma StreamSoundStep(s: Site, a: Act, i: nat)
    requires HashesOk(s.core) && i < |s.streams| && StreamSound(s.core.hist, s.streams[i])
    requires a.Queue? ==> Onward(s.core.hist, Next(s.core, a.action).hist)
    ensures StreamSound(Step(s, a).core.hist, Step(s, a).streams[i])
  {
    match a
    case StreamStep(j, o) => if j == i { StreamStaysSound(s.core, s.streams[i], o); }
    case _ =>
  }

  /** Every poll that answers admitted delivers the one token issued to the ticket, which was stored. */
  lemma PollsDeliverOneToken(s: Site, acts: seq<Act>, i: nat, m: nat)
    requires Start(s) && i < |Run(s, acts).pollers| && m < |Run(s, acts).pollers[i].seen|
    requires Run(s, acts).pollers[i].seen[m].AdmittedAnswer?
    ensures IsToken(Run(s, acts).core.hist, Run(s, acts).pollers[i].ticket, Run(s, acts).pollers[i].seen[m].token)
  {
    AlwaysSound(s, acts);
    var p := Run(s, acts).pollers[i];
    assert PollerSound(Run(s, acts).core.hist, p) && SoundAnswer(Run(s, acts).core.hist, p, p.seen[m]);
  }

  /** Positions, pending and tokens are told only to a client that holds the secret of the ticket's join. */
  lemma PollersHoldSecret(s: Site, acts: seq<Act>, i: nat, m: nat)
    requires Start(s) && i < |Run(s, acts).pollers| && m < |Run(s, acts).pollers[i].seen|
    requires Run(s, acts).pollers[i].seen[m] != NotFound && Run(s, acts).pollers[i].seen[m] != Forbidden
    ensures HasSecret(Run(s, acts).core.hist, Run(s, acts).pollers[i].ticket, Run(s, acts).pollers[i].secret)
  {
    AlwaysSound(s, acts);
    var p := Run(s, acts).pollers[i];
    assert PollerSound(Run(s, acts).core.hist, p) && SoundAnswer(Run(s, acts).core.hist, p, p.seen[m]);
  }

  /** And nothing is written to a stream, nor a subscription made for it, unless its client holds that secret. */
  lemma StreamsHoldSecret(s: Site, acts: seq<Act>, i: nat)
    requires Start(s) && i < |Run(s, acts).streams|
    requires Run(s, acts).streams[i].out != [] || Subscribed(Run(s, acts).streams[i])
    ensures HasSecret(Run(s, acts).core.hist, Run(s, acts).streams[i].ticket, Run(s, acts).streams[i].secret)
  {
    AlwaysSound(s, acts);
    assert StreamSound(Run(s, acts).core.hist, Run(s, acts).streams[i]);
  }

  // ------------------------------------------------------------------ answers to different clients

  /** Poller j's answers from number n on, with answer a before them, are in order. */
  ghost predicate InOrderAfter(s: Site, j: nat, a: Answer, n: nat) {
    j < |s.pollers| && n <= |s.pollers[j].seen| && PollerOk(s.core.hist, Told(s.pollers[j], a, n))
  }

  lemma InOrderStep(s: Site, b: Act, j: nat, a: Answer, n: nat)
    requires SiteOk(s) && InOrderAfter(s, j, a, n) && PolledWell(s, b, j)
    ensures InOrderAfter(Step(s, b), j, a, n)
  {
    match b
    case Queue(q) =>
      OnwardNext(s.core, q);
      PollerKept(s.core.hist, Next(s.core, q).hist, Told(s.pollers[j], a, n));
    case PollStep(k, o) =>
      if k == j {
        ToldSteps(s.core.db, s.pollers[j], o, a, n);
        PollStepOk(s.core, Told(s.pollers[j], a, n), o);
      }
    case _ =>
  }

  lemma {:induction false} InOrderAlways(s: Site, acts: seq<Act>, j: nat, a: Answer, n: nat)
    requires SiteOk(s) && InOrderAfter(s, j, a, n)
    requires Along(s, acts, (x: Site, b: Act) => PolledWell(x, b, j))
    ensures InOrderAfter(Run(s, acts), j, a, n)
  {
    if acts != [] {
      var k := |acts| - 1;
      InOrderAlways(s, acts[..k], j, a, n);
      StaysOk(s, acts[..k]);
      InOrderStep(Run(s, acts[..k]), acts[k], j, a, n);
    }
  }

  /**
   Answers move forward per ticket, not only per client: a request that starts after some client was given an answer
   is not given an earlier one, and after a token it is given the same token.
   */
  lemma AnswersMoveForward(s: Site, acts: seq<Act>, more: seq<Act>, i: nat, m: nat, j: nat, k: nat)
    requires Start(s) && i < |Run(s, acts).pollers| && j < |Run(s, acts).pollers|
    requires m < |Run(s, acts).pollers[i].seen| && Run(s, acts).pollers[j].pc == Idle
    requires Run(s, acts).pollers[i].ticket == Run(s, acts).pollers[j].ticket
    requires Along(s, acts, (x: Site, a: Act) => PolledWell(x, a, i))
    requires Along(Run(s, acts), more, (x: Site, a: Act) => PolledWell(x, a, j))
    requires j < |Run(Run(s, acts), more).pollers|
    requires |Run(s, acts).pollers[j].seen| <= k < |Run(Run(s, acts), more).pollers[j].seen|
    ensures var a, b := Run(s, acts).pollers[i].seen[m], Run(Run(s, acts), more).pollers[j].seen[k];
            Phase(a) <= Phase(b) && (a.AdmittedAnswer? ==> b == a)
  {
    var x, y := Run(s, acts), Run(Run(s, acts), more);
    var a, n := x.pollers[i].seen[m], |x.pollers[j].seen|;
    PollerAlwaysOk(s, acts, i);
    assert Backed(x.core.hist, x.pollers[i].ticket, a);
    AlwaysOk(s, acts);
    assert InOrderAfter(x, j, a, n);
    InOrderAlways(x, more, j, a, n);
    AfterTold(y.core.hist, y.pollers[j], a, n, k);
  }

  lemma AfterTold(h: History, p: Poller, a: Answer, n: nat, k: nat)
    requires n <= k < |p.seen| && PollerOk(h, Told(p, a, n))
    ensures Phase(a) <= Phase(p.seen[k]) && (a.AdmittedAnswer? ==> p.seen[k] == a)
  {
    var seen := Told(p, a, n).seen;
    assert seen[0] == a && seen[1 + (k - n)] == p.seen[k];
    assert Backed(h, p.ticket, seen[0]) && Backed(h, p.ticket, seen[1 + (k - n)]);
  }

  // ------------------------------------------------------------------ positions

  /** Every later ticket is added behind the poller's. */
  ghost predicate PolledInOrder(s: Site, a: Act, i: nat) {
    a.Queue? && i < |s.pollers| ==> AddsBehind(s.core, a.action, s.pollers[i].ticket)
  }

  lemma {:induction false} PositionsAlwaysOk(s: Site, acts: seq<Act>, i: nat)
    requires Start(s) && Along(s, acts, (x: Site, a: Act) => PolledInOrder(x, a, i))
    ensures i < |Run(s, acts).pollers| ==> PositionsOk(Run(s, acts).core, Run(s, acts).pollers[i])
  {
    if acts != [] {
      var n := |acts| - 1;
      PositionsAlwaysOk(s, acts[..n], i);
      AlwaysOk(s, acts[..n]);
      AlwaysSound(s, acts[..n]);
      PositionsStep(Run(s, acts[..n]), acts[n], i);
    }
  }

  lemma PositionsStep(s: Site, a: Act, i: nat)
    requires CoreOk(s.core) && PolledInOrder(s, a, i)
    requires i < |s.pollers| ==> PollerSound(s.core.hist, s.pollers[i]) && PositionsOk(s.core, s.pollers[i])
    ensures i < |Step(s, a).pollers| ==> PositionsOk(Step(s, a).core, Step(s, a).pollers[i])
  {
    if i < |s.pollers| {
      match a
      case Queue(b) => PositionsKept(s.core, b, s.pollers[i]);
      case PollStep(j, o) => if j == i { PositionsPoll(s.core, s.pollers[i], o); }
      case _ =>
    }
  }

  lemma PositionsKept(c: Core, a: Action, p: Poller)
    requires CoreOk(c) && PositionsOk(c, p) && AddsBehind(c, a, p.ticket)
    ensures PositionsOk(Next(c, a), p)
  {
    if p.ticket in c.hist.place {
      EventStays(c, a, p.ticket);
      RankNeverGrows(c, a, c.hist.place[p.ticket].event, p.ticket);
    }
  }

  /** A ticket keeps the event it joined. */
  lemma EventStays(c: Core, a: Action, t: TicketId)
    requires CoreOk(c) && t in c.hist.place
    ensures t in Next(c, a).hist.place && Next(c, a).hist.place[t].event == c.hist.place[t].event
  {
    OnwardNext(c, a);
    ConservedNext(c, a);
    assert BoundOk(c.hist.place, c.hist.fieldsOf) && BoundOk(Next(c, a).hist.place, Next(c, a).hist.fieldsOf);
  }

  /**
   The positions a visitor is shown never go up, although the token read and the rank read are separate steps, and
   whichever reads fail.
   */
  lemma PositionsNeverRise(s: Site, acts: seq<Act>, i: nat, m: nat, n: nat)
    requires Start(s) && Along(s, acts, (x: Site, a: Act) => PolledInOrder(x, a, i))
    requires i < |Run(s, acts).pollers| && m < n < |Run(s, acts).pollers[i].seen|
    requires Run(s, acts).pollers[i].seen[m].Position? && Run(s, acts).pollers[i].seen[n].Position?
    ensures Run(s, acts).pollers[i].seen[n].rank <= Run(s, acts).pollers[i].seen[m].rank
  {
    PositionsAlwaysOk(s, acts, i);
  }

  /** While stream i lives, every later ticket is added behind its own. */
  ghost predicate StreamedInOrder(s: Site, a: Act, i: nat) {
    a.Queue? && i < |s.streams| ==> AddsBehind(s.core, a.action, s.streams[i].ticket)
  }

  lemma {:induction false} StreamPositionsAlwaysOk(s: Site, acts: seq<Act>, i: nat)
    requires Start(s) && Along(s, acts, (x: Site, a: Act) => StreamedInOrder(x, a, i))
    ensures i < |Run(s, acts).streams| ==> StreamPositionsOk(Run(s, acts).core, Run(s, acts).streams[i])
  {
    if acts != [] {
      var n := |acts| - 1;
      StreamPositionsAlwaysOk(s, acts[..n], i);
      AlwaysOk(s, acts[..n]);
      StreamPositionsStep(Run(s, acts[..n]), acts[n], i);
    }
  }

  lemma StreamPositionsStep(s: Site, a: Act, i: nat)
    requires SiteOk(s) && StreamedInOrder(s, a, i)
    requires i < |s.streams| ==> StreamPositionsOk(s.core, s.streams[i])
    ensures i < |Step(s, a).streams| ==> StreamPositionsOk(Step(s, a).core, Step(s, a).streams[i])
  {
    if i < |s.streams| {
      match a
      case Queue(b) => StreamPositionsKept(s.core, b, s.streams[i]);
      case StreamStep(j, o) => if j == i { StreamPositionsShow(s.core, s.streams[i], o); }
      case _ =>
    }
  }

  lemma StreamPositionsKept(c: Core, a: Action, s: Stream)
    requires CoreOk(c) && StreamPositionsOk(c, s) && AddsBehind(c, a, s.ticket)
    ensures StreamPositionsOk(Next(c, a), s)
  {
    if s.ticket in c.hist.place {
      EventStays(c, a, s.ticket);
      RankNeverGrows(c, a, s.event, s.ticket);
    }
  }

  /** Nor do the positions a stream writes, whichever of its reads fail. */
  lemma StreamPositionsNeverRise(s: Site, acts: seq<Act>, i: nat, m: nat, n: nat)
    requires Start(s) && Along(s, acts, (x: Site, a: Act) => StreamedInOrder(x, a, i))
    requires i < |Run(s, acts).streams| && m < n < |Run(s, acts).streams[i].out|
    requires Run(s, acts).streams[i].out[m].PositionEvent? && Run(s, acts).streams[i].out[n].PositionEvent?
    ensures Run(s, acts).streams[i].out[n].rank <= Run(s, acts).streams[i].out[m].rank
  {
    StreamPositionsAlwaysOk(s, acts, i);
  }

  /** Any stream and any poller of the same ticket deliver the same token, stored and past its INCR. */
  lemma TransportsAgree(s: Site, acts: seq<Act>, i: nat, j: nat, k: nat)
    requires Start(s) && i < |Run(s, acts).streams| && Run(s, acts).streams[i].pc == Ended
    requires j < |Run(s, acts).pollers| && k < |Run(s, acts).pollers[j].seen|
             && Run(s, acts).pollers[j].seen[k].AdmittedAnswer?
    requires Run(s, acts).streams[i].ticket == Run(s, acts).pollers[j].ticket
    ensures var st, h := Run(s, acts).streams[i], Run(s, acts).core.hist;
            && st.out != [] && st.out[|st.out| - 1] == AdmittedEvent(Run(s, acts).pollers[j].seen[k].token)
            && st.ticket in h.tried && st.ticket in h.stored
  {
    AlwaysOk(s, acts);
    AlwaysSound(s, acts);
    ChannelsAgree(Run(s, acts).core, Run(s, acts).streams[i], Run(s, acts).pollers[j], k);
  }

  /**
   When an admission is published, its INCR has been attempted, and its token, if its HSET took effect, is readable
   until the hash expires.
   */
  lemma PublishedIsStored(s: Site, acts: seq<Act>, m: nat)
    requires Start(s) && m < |Run(s, acts).core.db.published| && Run(s, acts).core.db.published[m].AdmittedMsg?
    ensures var c := Run(s, acts).core;
            var AdmittedMsg(t, token) := c.db.published[m];
            && t in c.hist.tried
            && (t in c.hist.stored && !HashExpired(c.hist, c.db.now, t) ==> HGetToken(c.db, t) == Some(token))
  {
    AlwaysOk(s, acts);
    var c := Run(s, acts).core;
    assert Announced(c.hist, c.db.published[m]);
    if !HashExpired(c.hist, c.db.now, c.db.published[m].ticket) {
      TokenReadable(c, c.db.published[m].ticket);
    }
  }

  /** Nothing stores a token after its admission is on the channel, whatever the run goes on to do. */
  lemma {:induction false} StoredBeforePublished(s: Site, acts: seq<Act>, more: seq<Act>, m: nat)
    requires Start(s) && m < |Run(s, acts).core.db.published| && Run(s, acts).core.db.published[m].AdmittedMsg?
    ensures var before, after := Run(s, acts).core, Run(Run(s, acts), more).core;
            && m < |after.db.published| && after.db.published[m] == before.db.published[m]
            && (before.db.published[m].ticket in after.hist.stored <==>
               before.db.published[m].ticket in before.hist.stored)
  {
    AlwaysOk(s, acts);
    if more != [] {
      var n := |more| - 1;
      StoredBeforePublished(s, acts, more[..n], m);
      StaysOk(Run(s, acts), more[..n]);
      if more[n].Queue? {
        PublishedSettles(Run(Run(s, acts), more[..n]).core, more[n].action, m);
      }
    }
  }

  lemma PublishedSettles(c: Core, a: Action, m: nat)
    requires CoreOk(c) && m < |c.db.published| && c.db.published[m].AdmittedMsg?
    ensures m < |Next(c, a).db.published| && Next(c, a).db.published[m] == c.db.published[m]
    ensures c.db.published[m].ticket in Next(c, a).hist.stored <==> c.db.published[m].ticket in c.hist.stored
  {
    LogsGrowNext(c, a);
    assert Announced(c.hist, c.db.published[m]);
    assert Next(c, a).db.published[..|c.db.published|][m] == c.db.published[m];
    OnlyHeldIsStored(c, a, c.db.published[m].ticket);
  }

  /** A token is stored only while its ticket is held by a tick. */
  lemma OnlyHeldIsStored(c: Core, a: Action, t: TicketId)
    requires HeldOk(c) && t in c.hist.place && c.hist.place[t].stage == Admitted
    ensures t in Next(c, a).hist.stored <==> t in c.hist.stored
  {
    if a.TickStep? && a.tick < |c.ticks| {
      if c.ticks[a.tick].todo != [] {
        HeadIsHeld(c, a.tick, t);
      }
      StoredByTick(c, a.tick, a.outcome, t);
    } else {
      OthersStoreNone(c, a);
    }
  }

  lemma OthersStoreNone(c: Core, a: Action)
    requires a.TickStep? ==> a.tick >= |c.ticks|
    ensures Next(c, a).hist.stored == c.hist.stored
  {
    match a
    case StartTick(e) => assert Acquire(c, e).hist.stored == c.hist.stored;
    case CrashTick(i) => if i < |c.ticks| { assert Crash(c, i).hist.stored == c.hist.stored; }
    case JoinStep(i, o) => if i < |c.joins| { assert StepJoin(c, i, o).hist.stored == c.hist.stored; }
    case TickStep(_, _) =>
    case _ => assert Quiet(c, a).hist.stored == c.hist.stored;
  }

  lemma StoredByTick(c: Core, i: nat, o: Outcome, t: TicketId)
    requires i < |c.ticks| && (c.ticks[i].todo != [] ==> c.ticks[i].todo[0].id != t)
    ensures t in StepTick(c, i, o).hist.stored <==> t in c.hist.stored
  {
    StoredAfter(c.db, c.hist, i, c.ticks[i], o, t);
  }

  lemma StoredAfter(db: Db, h: History, i: nat, k: Tick, o: Outcome, t: TicketId)
    requires k.todo != [] ==> k.todo[0].id != t
    ensures t in TickHist(db, h, i, k, o).stored <==> t in h.stored
  {
  }

  /** No tick works on a ticket that was admitted. */
  lemma HeadIsHeld(c: Core, i: nat, t: TicketId)
    requires HeldOk(c) && i < |c.ticks| && c.ticks[i].todo != []
    requires t in c.hist.place && c.hist.place[t].stage == Admitted
    ensures c.ticks[i].todo[0].id != t
  {
    assert HeldBy(c.hist.place, i, c.ticks[i]) && Has(c.ticks[i].todo, c.ticks[i].todo[0].id);
  }

  // ------------------------------------------------------------------ the ticket hash

  /**
   Join and scheduler commute: however createTicket's HSET and EXPIRE interleave with the scheduler's HSET of the
   token, an unexpired hash holds exactly the fields and the deadline whose writes took effect.
   */
  lemma HashIndependentOfOrder(s: Site, acts: seq<Act>, t: TicketId)
    requires Start(s) && !HashExpired(Run(s, acts).core.hist, Run(s, acts).core.db.now, t)
    ensures var c := Run(s, acts).core;
            && (t in c.hist.filled ==> t in c.hist.fieldsOf)
            && (t in c.hist.stored ==> t in c.hist.tokenOf && c.hist.tokenOf[t] < |c.hist.issued|)
            && (t in c.db.hashes <==> t in c.hist.filled || t in c.hist.stored)
            && (t in c.db.hashes ==>
                  c.db.hashes[t] == Hash(if t in c.hist.filled then Some(c.hist.fieldsOf[t]) else None,
                                         if t in c.hist.stored then Some(c.hist.issued[c.hist.tokenOf[t]]) else None,
                                         if t !in c.hist.expirySet then None
                                         else Some(c.hist.expirySet[t] + TICKET_KEY_TTL)))
  {
    AlwaysOk(s, acts);
    assert HashAt(Run(s, acts).core.hist, Run(s, acts).core.db.now, Run(s, acts).core.db.hashes, t);
  }

  /** ValidateAdmission's verdict on a token, all its commands succeeding and taken at one instant. */
  predicate Redeemable(db: Db, token: Token) {
    && Validate(token, AdmissionKey, db.now).Some?
    && WellBound(token.claims)
    && HGetEventId(db, token.claims.subject) == Some(token.claims.eventId)
  }

  /** An issued token is redeemable exactly while it is unexpired and its ticket's join fields are written and alive. */
  lemma RedeemableIff(s: Site, acts: seq<Act>, j: nat)
    requires Start(s) && j < |Run(s, acts).core.hist.issued|
    ensures var c := Run(s, acts).core;
            var claims := c.hist.issued[j].claims;
            Redeemable(c.db, c.hist.issued[j]) <==>
              c.db.now < claims.expiresAt && claims.subject in c.hist.filled
                && !HashExpired(c.hist, c.db.now, claims.subject)
  {
    AlwaysOk(s, acts);
    var c := Run(s, acts).core;
    IssuedShape(c, j);
    FieldsReadable(c, c.hist.issued[j].claims.subject);
  }

  /**
   A token issued at most 90 minutes after its ticket's hash got its TTL is redeemable at every instant of its life.
   Beyond that it is not: if it outlives the hash, it is unexpired and unredeemable when the hash expires.
   */
  lemma RedeemableForLife(s: Site, acts: seq<Act>, j: nat)
    requires Start(s) && j < |Run(s, acts).core.hist.issued| == |Run(s, acts).core.hist.issuedAt|
    requires Run(s, acts).core.hist.issued[j].claims.subject in Run(s, acts).core.hist.filled
    requires Run(s, acts).core.hist.issued[j].claims.subject in Run(s, acts).core.hist.expirySet
    ensures var c := Run(s, acts).core;
            var claims := c.hist.issued[j].claims;
            var deadline := c.hist.expirySet[claims.subject] + TICKET_KEY_TTL;
            && (c.hist.issuedAt[j] <= c.hist.expirySet[claims.subject] + TICKET_KEY_TTL - ADMISSION_JWT_TTL ==>
               claims.expiresAt <= deadline)
            && (claims.expiresAt <= deadline && c.db.now < claims.expiresAt ==> Redeemable(c.db, c.hist.issued[j]))
            && (deadline <= c.db.now < claims.expiresAt ==> !Redeemable(c.db, c.hist.issued[j]))
  {
    RedeemableIff(s, acts, j);
    AlwaysOk(s, acts);
    IssuedShape(Run(s, acts).core, j);
  }
}
