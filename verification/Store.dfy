/** internal/store/keys.go: the events of a pass, found by a SCAN whose pages interleave with everything else. */
module Store {
  import opened Tokens
  import opened Redis
  import opened Machine
  import opened Site
  import opened Keys
  import opened World

  /** Replies that follow one another, all of them answered, with more to come. */
  predicate Underway(pages: seq<Page>) {
    && (pages != [] ==> pages[0].cursor == 0)
    && (forall k :: 0 <= k < |pages| ==> pages[k].answered && pages[k].next != 0)
    && (forall k :: 0 < k < |pages| ==> pages[k].cursor == pages[k - 1].next)
  }

  /** A page that continues these. */
  predicate Continues(pages: seq<Page>, page: Page) {
    page.cursor == if pages == [] then 0 else pages[|pages| - 1].next
  }

  /** A whole iteration: the cursor starts at 0, is handed on from page to page, and comes back as 0. */
  predicate Iteration(pages: seq<Page>) {
    pages != [] &&
    var n := |pages| - 1;
    Underway(pages[..n]) && Continues(pages[..n], pages[n]) && pages[n].answered && pages[n].next == 0
  }

  /** An iteration broken off by an error. */
  predicate Broken(pages: seq<Page>) {
    pages != [] &&
    var n := |pages| - 1;
    Underway(pages[..n]) && Continues(pages[..n], pages[n]) && !pages[n].answered
  }

  function KeysIn(pages: seq<Page>): seq<string> {
    if pages == [] then [] else KeysIn(pages[..|pages| - 1]) + pages[|pages| - 1].keys
  }

  /** The events of these keys, in order; pages may repeat a key. */
  predicate Names(ids: seq<EventId>, keys: seq<string>) {
    |ids| == |keys| && forall i :: 0 <= i < |ids| ==> keys[i] == QUEUE_PREFIX + ids[i].name
  }

  ghost function Asked(before: Calls, after: Calls): seq<Page>
    requires before.pages <= after.pages
  {
    after.pages[|before.pages|..]
  }

  lemma AskedIs(before: Calls, after: Calls, asked: seq<Page>)
    requires after.pages == before.pages + asked
    ensures before.pages <= after.pages && Asked(before, after) == asked
  {
  }

  /** The pages came while the run grew from length m to length n. */
  predicate Within(pages: seq<Page>, m: nat, n: nat) {
    m <= n && (pages != [] ==> m <= pages[0].at <= pages[|pages| - 1].at <= n)
  }

  /** The state of the loop: the pages so far, the events they name, and the cursor to go on with. */
  predicate Scanning(pages: seq<Page>, ids: seq<EventId>, cursor: nat, m: nat, n: nat) {
    && Underway(pages) && Names(ids, KeysIn(pages)) && Within(pages, m, n)
    && cursor == if pages == [] then 0 else pages[|pages| - 1].next
  }

  /** How the loop ends. */
  predicate Scanned(pages: seq<Page>, ids: Option<seq<EventId>>, m: nat, n: nat) {
    && pages != [] && Within(pages, m, n)
    && if ids.Some? then Iteration(pages) && Names(ids.value, KeysIn(pages)) else Broken(pages)
  }

  lemma NextPage(pages: seq<Page>, page: Page, ids: seq<EventId>, more: seq<EventId>, m: nat, k: nat, n: nat)
    requires Scanning(pages, ids, page.cursor, m, k) && Names(more, page.keys) && k <= page.at <= n
    ensures !page.answered ==> Scanned(pages + [page], None, m, n)
    ensures page.answered && page.next == 0 ==> Scanned(pages + [page], Some(ids + more), m, n)
    ensures page.answered && page.next != 0 ==> Scanning(pages + [page], ids + more, page.next, m, n)
  {
    assert (pages + [page])[..|pages|] == pages;
  }

  /** GetAllEventIDs: the cursor loop. It fails exactly if a SCAN does, else it names every key of an iteration. */
  method GetAllEventIDs(world: World) returns (ids: Option<seq<EventId>>)
    requires world.Valid()
    modifies world
    ensures world.Valid() && world.start == old(world.start) && old(world.trace) <= world.trace
    ensures world.calls.failures >= old(world.calls).failures
    ensures world.calls.attempts == old(world.calls).attempts && old(world.calls).pages <= world.calls.pages
    ensures Scanned(Asked(old(world.calls), world.calls), ids, |old(world.trace)|, |world.trace|)
  {
    var cursor, found := 0, [];
    var pagesLeft: nat := *;
    ghost var asked: seq<Page> := [];
    ids := None;
    while true
      invariant world.Valid() && world.start == old(world.start) && old(world.trace) <= world.trace
      invariant world.calls.failures >= old(world.calls).failures
      invariant world.calls.attempts == old(world.calls).attempts && world.calls.pages == old(world.calls).pages + asked
      invariant Scanning(asked, found, cursor, |old(world.trace)|, |world.trace|)
      decreases pagesLeft
    {
      ghost var n := |world.trace|;
      ghost var page;
      var answered, names;
      answered, names, cursor, page := ScanPage(world, cursor, pagesLeft);
      NextPage(asked, page, found, names, |old(world.trace)|, n, |world.trace|);
      asked := asked + [page];
      AskedIs(old(world.calls), world.calls, asked);
      if !answered {
        return None;
      }
      found := found + names;
      if cursor == 0 {
        return Some(found);
      }
      pagesLeft := pagesLeft - 1;
    }
  }

  /** One turn of the loop. */
  method ScanPage(world: World, cursor: nat, pagesLeft: nat)
    returns (answered: bool, names: seq<EventId>, next: nat, ghost page: Page)
    requires world.Valid()
    modifies world
    ensures world.Valid() && world.start == old(world.start) && old(world.trace) <= world.trace
    ensures world.calls.attempts == old(world.calls).attempts && world.calls.pages == old(world.calls).pages + [page]
    ensures world.calls.failures >= old(world.calls).failures
    ensures page.cursor == cursor && page.next == next && page.answered == answered && Names(names, page.keys)
    ensures |old(world.trace)| <= page.at <= |world.trace| && (pagesLeft == 0 ==> next == 0)
  {
    world.Yield(Nobody);
    var o, keys;
    o, keys, next := world.Scan(cursor, pagesLeft);
    answered, page := o == Ok, Page(cursor, keys, next, o == Ok, |world.trace|);
    names := NamesOf(keys);
  }

  /** The loop that strips the prefix. */
  method NamesOf(keys: seq<string>) returns (ids: seq<EventId>)
    requires Matching(keys)
    ensures Names(ids, keys)
  {
    ids := [];
    for k := 0 to |keys|
      invariant Names(ids, keys[..k])
    {
      ids := ids + [EventId(keys[k][|QUEUE_PREFIX|..])];
    }
  }

  // ------------------------------------------------------------------ what SCAN promises

  ghost predicate NonemptyAt(start: Site, trace: seq<Act>, k: nat, e: EventId)
    requires k <= |trace|
  {
    ListAt(Run(start, trace[..k]).core.db.queues, e) != []
  }

  ghost predicate NonemptyThroughout(start: Site, trace: seq<Act>, m: nat, n: nat, e: EventId)
    requires m <= n <= |trace|
  {
    forall k :: m <= k <= n ==> NonemptyAt(start, trace, k, e)
  }

  ghost predicate NonemptyOnce(start: Site, trace: seq<Act>, m: nat, n: nat, e: EventId)
    requires m <= n <= |trace|
  {
    exists k :: m <= k <= n && NonemptyAt(start, trace, k, e)
  }

  /** Redis documents that an iteration reports what is there from its start to its end, and nothing that never was. */
  ghost predicate ScanPromise(start: Site, trace: seq<Act>, m: nat, n: nat, keys: seq<string>)
    requires m <= n <= |trace|
  {
    && (forall e :: NonemptyThroughout(start, trace, m, n, e) ==> Text(QueueKey(e)) in keys)
    && (forall e :: Text(QueueKey(e)) in keys ==> NonemptyOnce(start, trace, m, n, e))
  }

  /** The events of an iteration are all that stay nonempty during it, and only such as were seen nonempty. */
  lemma IterationCoversQueues(start: Site, trace: seq<Act>, m: nat, n: nat, keys: seq<string>, ids: seq<EventId>,
                              e: EventId)
    requires m <= n <= |trace| && ScanPromise(start, trace, m, n, keys) && Names(ids, keys)
    ensures NonemptyThroughout(start, trace, m, n, e) ==> e in ids
    ensures e in ids ==> NonemptyOnce(start, trace, m, n, e)
  {
    assert Text(QueueKey(e)) == QUEUE_PREFIX + e.name;
    if Text(QueueKey(e)) in keys {
      var i :| 0 <= i < |keys| && keys[i] == Text(QueueKey(e));
      KeysDistinct(QueueKey(e), QueueKey(ids[i]));
      assert ids[i] == e;
    }
    if e in ids {
      var i :| 0 <= i < |ids| && ids[i] == e;
      assert keys[i] == Text(QueueKey(e));
    }
  }

  /** These attempts to take locks are of the events of these ids, one each and in order. */
  predicate AttemptsOf(made: seq<Attempt>, ids: seq<EventId>) {
    |made| == |ids| && forall k :: 0 <= k < |ids| ==> made[k].event == ids[k]
  }

  /**
   What a pass has to do: under SCAN's promise it asks for the lock of every event whose queue stays nonempty during
   the iteration, and only of events whose queue was seen nonempty.
   */
  ghost predicate PassCovers(start: Site, trace: seq<Act>, pages: seq<Page>, made: seq<Attempt>)
    requires pages != [] && Within(pages, 0, |trace|)
  {
    var m, n := pages[0].at, pages[|pages| - 1].at;
    ScanPromise(start, trace, m, n, KeysIn(pages)) ==>
      && (forall e :: NonemptyThroughout(start, trace, m, n, e) ==> exists k :: 0 <= k < |made| && made[k].event == e)
      && (forall k :: 0 <= k < |made| ==> NonemptyOnce(start, trace, m, n, made[k].event))
  }

  lemma PassCoversQueues(start: Site, trace: seq<Act>, pages: seq<Page>, ids: seq<EventId>, made: seq<Attempt>)
    requires pages != [] && Within(pages, 0, |trace|) && Names(ids, KeysIn(pages)) && AttemptsOf(made, ids)
    ensures PassCovers(start, trace, pages, made)
  {
    var m, n := pages[0].at, pages[|pages| - 1].at;
    if ScanPromise(start, trace, m, n, KeysIn(pages)) {
      forall e | NonemptyThroughout(start, trace, m, n, e) ensures exists k :: 0 <= k < |made| && made[k].event == e {
        IterationCoversQueues(start, trace, m, n, KeysIn(pages), ids, e);
        var k :| 0 <= k < |ids| && ids[k] == e;
        assert made[k].event == e;
      }
      forall k | 0 <= k < |made| ensures NonemptyOnce(start, trace, m, n, made[k].event) {
        IterationCoversQueues(start, trace, m, n, KeysIn(pages), ids, ids[k]);
      }
    }
  }
}
