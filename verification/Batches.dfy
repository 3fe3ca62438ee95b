/** What one tick achieves, told as a property of the run: who was due, who was admitted, who was told. */
module Batches {
  import opened Config
  import opened Tokens
  import opened SortedSet
  import opened Redis
  import opened Machine
  import opened Conservation
  import opened Capacity
  import opened Site
  import opened Runs

  /**
   What a tick went by: the rate, the counter and the capacity it read, the queue at its ZPOPMIN, and the members it
   took. Each was read at an instant, given by the length of the run then.
   */
  datatype Report = Report(rate: int, active: int, capacity: int, queue: seq<Entry>, members: seq<Entry>,
                           rateAt: nat, activeAt: nat, capacityAt: nat, poppedAt: nat)

  /** The queue side when the run was k steps long. */
  function CoreAt(s: Site, acts: seq<Act>, k: nat): Core
    requires k <= |acts|
  {
    Run(s, acts[..k]).core
  }

  lemma CoreStays(s: Site, acts: seq<Act>, more: seq<Act>, k: nat)
    requires acts <= more && k <= |acts|
    ensures CoreAt(s, more, k) == CoreAt(s, acts, k)
  {
    assert more[..k] == acts[..k];
  }

  lemma CoreNow(s: Site, acts: seq<Act>)
    ensures CoreAt(s, acts, |acts|) == Run(s, acts).core
  {
    assert acts[..|acts|] == acts;
  }

  /** How many of depth waiting tickets a tick has to admit: at most the rate and the headroom, with no ceiling at 0. */
  function Due(rate: int, active: int, capacity: int, depth: nat): (n: nat)
    ensures n <= depth
  {
    if capacity <= 0 then Max(0, Min(rate, depth))
    else if 0 < capacity - active <= INT64_MAX then Max(0, Min(Min(rate, capacity - active), depth))
    else 0
  }

  /** How many members a ZPOPMIN n takes. */
  function Batched(n: int, depth: nat): (k: nat)
    ensures k <= depth
  {
    if n <= 0 then 0 else Min(n, depth)
  }

  /** The batch size that the code settles on is the number due. */
  lemma DueIsBatch(rate: int, active: int, capacity: int, depth: nat)
    requires capacity <= INT64_MAX && Int64(active)
    ensures var pc := BatchPc(rate, active, capacity);
            Due(rate, active, capacity, depth) == if pc.Pop? then Batched(pc.n, depth) else 0
  {
    if 0 < capacity {
      HeadroomExact(capacity, active);
    }
  }

  lemma NumbersAt(s: Site, acts: seq<Act>, e: EventId, k: nat)
    requires Start(s) && k <= |acts|
    ensures var db := CoreAt(s, acts, k).db;
            Int64(Number(db.active, e)) && Number(db.capacity, e) <= INT64_MAX
  {
    AlwaysOk(s, acts[..k]);
  }

  // ------------------------------------------------------------------ tickets

  /** The ticket's place is final: announced, or given up for want of a token. */
  ghost predicate IsSettled(s: Site, acts: seq<Act>, e: EventId, t: TicketId) {
    Settled(Run(s, acts).core.hist.place, t) && Run(s, acts).core.hist.place[t].event == e
  }

  ghost predicate IsAdmitted(s: Site, acts: seq<Act>, e: EventId, t: TicketId) {
    t in Run(s, acts).core.hist.place && Run(s, acts).core.hist.place[t] == Place(e, Admitted)
  }

  ghost predicate AllSettled(s: Site, acts: seq<Act>, e: EventId, members: seq<Entry>) {
    forall k :: 0 <= k < |members| ==> IsSettled(s, acts, e, members[k].id)
  }

  ghost predicate AllAdmitted(s: Site, acts: seq<Act>, e: EventId, members: seq<Entry>) {
    forall k :: 0 <= k < |members| ==> IsAdmitted(s, acts, e, members[k].id)
  }

  lemma AllStay(s: Site, acts: seq<Act>, more: seq<Act>, e: EventId, members: seq<Entry>)
    requires Start(s) && acts <= more
    ensures AllSettled(s, acts, e, members) ==> AllSettled(s, more, e, members)
    ensures AllAdmitted(s, acts, e, members) ==> AllAdmitted(s, more, e, members)
  {
    forall k | 0 <= k < |members| && Settled(Run(s, acts).core.hist.place, members[k].id)
      ensures IsSettled(s, acts, e, members[k].id) ==> IsSettled(s, more, e, members[k].id)
      ensures IsAdmitted(s, acts, e, members[k].id) ==> IsAdmitted(s, more, e, members[k].id)
    {
      SettledStays(s, acts, more, members[k].id);
    }
    if AllAdmitted(s, acts, e, members) {
      forall k | 0 <= k < |members| ensures IsAdmitted(s, more, e, members[k].id) {
        assert IsAdmitted(s, acts, e, members[k].id);
      }
    }
  }

  lemma AllAppend(s: Site, acts: seq<Act>, e: EventId, members: seq<Entry>, k: nat)
    requires k < |members|
    ensures AllSettled(s, acts, e, members[..k]) && IsSettled(s, acts, e, members[k].id) ==>
              AllSettled(s, acts, e, members[..k + 1])
    ensures AllAdmitted(s, acts, e, members[..k]) && IsAdmitted(s, acts, e, members[k].id) ==>
              AllAdmitted(s, acts, e, members[..k + 1])
  {
    assert members[..k + 1] == members[..k] + [members[k]];
  }

  /** What the last step of a tick on its first member makes of the ticket. */
  lemma HeadSettlesThen(s: Site, acts: seq<Act>, i: nat, o: Outcome)
    requires Start(s) && i < |Run(s, acts).core.ticks| && Run(s, acts).core.ticks[i].todo != []
    requires var pc := Run(s, acts).core.ticks[i].pc;
             pc.Announce? || (pc.Issue? && o != Ok)
    ensures var t, more := Run(s, acts).core.ticks[i], acts + [Queue(TickStep(i, o))];
            && IsSettled(s, more, t.event, t.todo[0].id)
            && (t.pc.Announce? ==> IsAdmitted(s, more, t.event, t.todo[0].id))
  {
    RunAppend(s, acts, Queue(TickStep(i, o)));
    assert Conserved(Run(s, acts).core) by {
      AlwaysOk(s, acts);
    }
    HeadSettles(Run(s, acts).core, i, o);
  }

  // ------------------------------------------------------------------ the tick message

  /** Since then e's tick was published. */
  ghost predicate Notified(s: Site, acts: seq<Act>, e: EventId, since: nat)
    requires since <= |acts|
  {
    var published := Run(s, acts).core.db.published;
    exists m :: |CoreAt(s, acts, since).db.published| <= m < |published| && published[m] == TickMsg(e)
  }

  lemma NotifiedStays(s: Site, acts: seq<Act>, more: seq<Act>, e: EventId, since: nat)
    requires acts <= more && since <= |acts| && Notified(s, acts, e, since)
    ensures Notified(s, more, e, since)
  {
    CoreStays(s, acts, more, since);
    RunGrows(s, acts, more);
    var before, after := Run(s, acts).core.db.published, Run(s, more).core.db.published;
    var m :| |CoreAt(s, acts, since).db.published| <= m < |before| && before[m] == TickMsg(e);
    assert after[m] == before[m];
  }

  lemma PublishedGrows(s: Site, acts: seq<Act>, since: nat)
    requires since <= |acts|
    ensures |CoreAt(s, acts, since).db.published| <= |Run(s, acts).core.db.published|
  {
    RunGrows(s, acts[..since], acts);
  }

  lemma StillGrows(s: Site, acts: seq<Act>, more: seq<Act>, since: nat)
    requires acts <= more && since <= |acts|
    ensures |CoreAt(s, more, since).db.published| <= |Run(s, acts).core.db.published|
  {
    CoreStays(s, acts, more, since);
    PublishedGrows(s, acts, since);
  }

  /** The message that a run has just published. */
  lemma NotifiedNow(s: Site, acts: seq<Act>, more: seq<Act>, e: EventId, since: nat)
    requires acts <= more && since <= |acts|
    requires var published := Run(s, more).core.db.published;
             && |published| > |Run(s, acts).core.db.published| && published[|published| - 1] == TickMsg(e)
    ensures Notified(s, more, e, since)
  {
    StillGrows(s, acts, more, since);
  }

  // ------------------------------------------------------------------ the whole tick

  /** The first n tickets of the queue at that instant were taken and admitted, and their tick was announced. */
  ghost predicate TookFirst(s: Site, acts: seq<Act>, queue: seq<Entry>, members: seq<Entry>, e: EventId, n: nat,
                            at: nat)
    requires at <= |acts|
  {
    && queue == ListAt(CoreAt(s, acts, at).db.queues, e) && n <= |queue| && members == queue[..n]
    && AllAdmitted(s, acts, e, members) && (members != [] ==> Notified(s, acts, e, at))
  }

  lemma TookStays(s: Site, acts: seq<Act>, more: seq<Act>, queue: seq<Entry>, members: seq<Entry>, e: EventId, n: nat,
                  at: nat)
    requires Start(s) && acts <= more && at <= |acts| && TookFirst(s, acts, queue, members, e, n, at)
    ensures TookFirst(s, more, queue, members, e, n, at)
  {
    CoreStays(s, acts, more, at);
    AllStay(s, acts, more, e, members);
    if members != [] {
      NotifiedStays(s, acts, more, e, at);
    }
  }

  /** The reads of the counter and the capacity, and what was made of them at this rate. */
  ghost predicate ActedAtRate(s: Site, acts: seq<Act>, r: Report, e: EventId, rate: int, since: nat) {
    && since <= r.activeAt <= r.capacityAt <= r.poppedAt <= |acts|
    && r.active == Number(CoreAt(s, acts, r.activeAt).db.active, e)
    && r.capacity == Number(CoreAt(s, acts, r.capacityAt).db.capacity, e)
    && TookFirst(s, acts, r.queue, r.members, e, Due(rate, r.active, r.capacity, |r.queue|), r.poppedAt)
  }

  /**
   The tick acted on what it read: with this rate, counter and capacity, the members it took off the queue are exactly
   those due, in order; all of them are admitted, and the event's tick was announced to the waiting if there were any.
   */
  ghost predicate ActedOn(s: Site, acts: seq<Act>, r: Report, e: EventId, since: nat) {
    && since <= r.rateAt <= r.activeAt && ActedAtRate(s, acts, r, e, r.rate, since)
    && var c := CoreAt(s, acts, r.rateAt);
    r.rate == if e in c.db.rate then c.db.rate[e] else c.defaultRate
  }

  lemma ActedStays(s: Site, acts: seq<Act>, more: seq<Act>, r: Report, e: EventId, since: nat)
    requires Start(s) && acts <= more
    ensures ActedOn(s, acts, r, e, since) ==> ActedOn(s, more, r, e, since)
  {
    if ActedOn(s, acts, r, e, since) {
      CoreStays(s, acts, more, r.rateAt);
      CoreStays(s, acts, more, r.activeAt);
      CoreStays(s, acts, more, r.capacityAt);
      TookStays(s, acts, more, r.queue, r.members, e, Due(r.rate, r.active, r.capacity, |r.queue|), r.poppedAt);
    }
  }

  // ------------------------------------------------------------------ no crash

  /** Tick i did not die since the run was this long. */
  ghost predicate Lived(acts: seq<Act>, since: nat, i: nat) {
    forall k :: since <= k < |acts| ==> acts[k] != Queue(CrashTick(i))
  }

  lemma LivedOn(acts: seq<Act>, more: seq<Act>, since: nat, i: nat)
    requires acts <= more && Lived(acts, since, i) && Lived(more, |acts|, i)
    ensures Lived(more, since, i)
  {
    forall k | since <= k < |more| ensures more[k] != Queue(CrashTick(i)) {
      if k < |acts| {
        assert more[k] == acts[k];
      }
    }
  }

  lemma RunningHasLived(s: Site, acts: seq<Act>, more: seq<Act>, i: nat)
    requires acts <= more && i < |Run(s, acts).core.ticks|
    requires i < |Run(s, more).core.ticks| && Run(s, more).core.ticks[i].pc != Done
    ensures Lived(more, |acts|, i)
  {
    forall k | |acts| <= k < |more| ensures more[k] != Queue(CrashTick(i)) {
      if more[k] == Queue(CrashTick(i)) {
        RunningNeverCrashed(s, acts, more, i, k);
      }
    }
  }
}
