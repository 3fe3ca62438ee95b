/** The whole deployment: the queue side, the origin, and the visitors' streams and pollers. */
module Site {
  import opened Tokens
  import opened Machine
  import opened Origin
  import opened Delivery

  datatype Site = Site(core: Core, origin: Origin, streams: seq<Stream>, pollers: seq<Poller>)

  datatype Act =
    | Queue(action: Action)
    | Arrive(cookie: Token)
    | GuardStep(guard: nat, outcome: Outcome)
    | LoseGuard(guard: nat)
    | Connect(ticket: TicketId, secret: Option<nat>)
    | StreamStep(stream: nat, outcome: Outcome)
    | Disconnect(stream: nat)
    | Watch(ticket: TicketId, secret: Option<nat>)
    | PollStep(poller: nat, outcome: Outcome)

  function StepOrigin(s: Site, a: Act): Origin {
    match a
    case Arrive(cookie) => ArriveAt(s.core, s.origin, cookie)
    case GuardStep(i, o) => if i < |s.origin.guards| then StepGuard(s.core, s.origin, i, o) else s.origin
    case LoseGuard(i) => if i < |s.origin.guards| then CrashGuard(s.origin, i) else s.origin
    case _ => s.origin
  }

  function StepStreams(s: Site, a: Act): seq<Stream> {
    match a
    case Connect(t, secret) => s.streams + [Stream(t, secret, EventId(""), Binding, 0, 0, [])]
    case StreamStep(i, o) =>
      if i < |s.streams| then s.streams[i := StepStream(s.core.db, s.streams[i], o)] else s.streams
    case Disconnect(i) =>
      if i < |s.streams| && s.streams[i].pc != Ended then s.streams[i := s.streams[i].(pc := Gone)] else s.streams
    case _ => s.streams
  }

  function StepPollers(s: Site, a: Act): seq<Poller> {
    match a
    case Watch(t, secret) => s.pollers + [Poller(t, secret, Idle, [])]
    case PollStep(i, o) =>
      if i < |s.pollers| then s.pollers[i := StepPoller(s.core.db, s.pollers[i], o)] else s.pollers
    case _ => s.pollers
  }

  function Step(s: Site, a: Act): Site {
    Site(if a.Queue? then Next(s.core, a.action) else s.core, StepOrigin(s, a), StepStreams(s, a), StepPollers(s, a))
  }

  /** Any sequence of actions is a run; an action that cannot happen changes nothing. */
  function Run(s: Site, acts: seq<Act>): Site
    decreases |acts|, 1
  {
    if acts == [] then s else LastStep(s, acts)
  }

  function LastStep(s: Site, acts: seq<Act>): Site
    requires acts != []
    decreases |acts|, 0
  {
    Step(Run(s, acts[..|acts| - 1]), acts[|acts| - 1])
  }

  ghost predicate Start(s: Site) {
    Init(s.core) && s.origin == Origin(map[], [], [], []) && s.streams == [] && s.pollers == []
  }

  /** How many commands of tick i gave no answer. */
  function Unanswered(acts: seq<Act>, i: nat): nat {
    if acts == [] then 0
    else
      var n := |acts| - 1;
      var none := acts[n] == Queue(TickStep(i, Failed)) || acts[n] == Queue(TickStep(i, Lost));
      Unanswered(acts[..n], i) + if none then 1 else 0
  }

  /** Since then stream i has taken no step. */
  ghost predicate Untouched(acts: seq<Act>, since: nat, i: nat) {
    forall k :: since <= k < |acts| ==> !(acts[k].StreamStep? && acts[k].stream == i)
  }

  lemma RunAppend(s: Site, acts: seq<Act>, a: Act)
    ensures Run(s, acts + [a]) == Step(Run(s, acts), a)
  {
    assert (acts + [a])[..|acts|] == acts;
  }
}
