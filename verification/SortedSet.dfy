/**
 The Redis sorted set behind queue:{eventId}, as the sequence of its entries in
 increasing (score, member) order: ZADD inserts, ZRANK is the index, ZPOPMIN n cuts off a prefix.
 */
module SortedSet {
  import opened Tokens

  datatype Entry = Entry(score: nat, id: TicketId)

  predicate Less(a: Entry, b: Entry) {
    a.score < b.score || (a.score == b.score && a.id < b.id)
  }

  ghost predicate Sorted(q: seq<Entry>) {
    forall i, j :: 0 <= i < j < |q| ==> Less(q[i], q[j])
  }

  ghost predicate DistinctIds(q: seq<Entry>) {
    forall i, j :: 0 <= i < j < |q| ==> q[i].id != q[j].id
  }

  predicate Has(q: seq<Entry>, id: TicketId) {
    exists i :: 0 <= i < |q| && q[i].id == id
  }

  /** ZADD of a member that is not yet in the set. */
  function Insert(q: seq<Entry>, x: Entry): (r: seq<Entry>)
    ensures |r| == |q| + 1 && multiset(r) == multiset(q) + multiset{x}
  {
    if q == [] || Less(x, q[0]) then
      assert [x] + q == [x] + q[0..];
      [x] + q
    else
      assert q == [q[0]] + q[1..];
      [q[0]] + Insert(q[1..], x)
  }

  /** ZRANK, with GetPosition's -1 for a member that is not in the set. */
  function Rank(q: seq<Entry>, id: TicketId): (r: int)
    ensures -1 <= r < |q|
    ensures r == -1 <==> !Has(q, id)
    ensures r >= 0 ==> q[r].id == id && forall j :: 0 <= j < r ==> q[j].id != id
  {
    if q == [] then -1
    else if q[0].id == id then 0
    else
      var r := Rank(q[1..], id);
      assert Has(q, id) <==> Has(q[1..], id) by {
        if Has(q, id) {
          var i :| 0 <= i < |q| && q[i].id == id;
          assert q[1..][i - 1].id == id;
        }
        if Has(q[1..], id) {
          var i :| 0 <= i < |q[1..]| && q[1..][i].id == id;
          assert q[i + 1].id == id;
        }
      }
      if r == -1 then -1 else r + 1
  }

  /** Where Insert puts the new entry: after everything smaller, before the rest. */
  lemma {:induction false} InsertSplits(q: seq<Entry>, x: Entry) returns (k: nat)
    requires Sorted(q) && !Has(q, x.id)
    ensures k <= |q| && Insert(q, x) == q[..k] + [x] + q[k..]
    ensures forall i :: 0 <= i < k ==> Less(q[i], x)
    ensures forall i :: k <= i < |q| ==> Less(x, q[i])
  {
    if q == [] || Less(x, q[0]) {
      k := 0;
      assert Insert(q, x) == q[..0] + [x] + q[0..];
    } else {
      var m := InsertSplits(q[1..], x);
      k := m + 1;
      SplitTail(q, x, m);
      assert forall i :: 0 < i < |q| ==> q[i] == q[1..][i - 1];
    }
  }

  /** A place in the tail is a place in the whole. */
  lemma SplitTail(q: seq<Entry>, x: Entry, m: nat)
    requires q != [] && m < |q|
    ensures [q[0]] + (q[1..][..m] + [x] + q[1..][m..]) == q[..m + 1] + [x] + q[m + 1..]
  {
    assert q[..m + 1] == [q[0]] + q[1..][..m] && q[m + 1..] == q[1..][m..];
  }

  lemma InsertKeeps(q: seq<Entry>, x: Entry)
    requires Sorted(q) && DistinctIds(q) && !Has(q, x.id)
    ensures Sorted(Insert(q, x)) && DistinctIds(Insert(q, x))
    ensures forall y :: y in Insert(q, x) <==> y == x || y in q
    ensures forall id :: Has(Insert(q, x), id) <==> id == x.id || Has(q, id)
  {
    var k := InsertSplits(q, x);
    var r := Insert(q, x);
    assert q == q[..k] + q[k..];
    SplitSorted(q, x, r, k);
    forall y ensures y in r <==> y == x || y in q {
      assert y in q <==> y in q[..k] || y in q[k..];
    }
    forall id ensures Has(r, id) <==> id == x.id || Has(q, id) {
      HasIffIn(q, id);
      HasIffIn(r, id);
    }
  }

  lemma SplitSorted(q: seq<Entry>, x: Entry, r: seq<Entry>, k: nat)
    requires Sorted(q) && DistinctIds(q) && !Has(q, x.id) && k <= |q| && |r| == |q| + 1
    requires r == q[..k] + [x] + q[k..]
    requires forall i :: 0 <= i < k ==> Less(q[i], x)
    requires forall i :: k <= i < |q| ==> Less(x, q[i])
    ensures Sorted(r) && DistinctIds(r)
  {
    forall i, j | 0 <= i < j < |r|
      ensures Less(r[i], r[j]) && r[i].id != r[j].id
    {
      var a := if i < k then i else i - 1;
      var b := if j < k then j else j - 1;
      if i == k {
        assert r[j] == q[b] && Less(x, q[b]) && q[b].id != x.id;
      } else if j == k {
        assert r[i] == q[a] && Less(q[a], x) && q[a].id != x.id;
      } else {
        assert r[i] == q[a] && r[j] == q[b] && Less(q[a], q[b]) && q[a].id != q[b].id;
      }
    }
  }

  lemma HasIffIn(q: seq<Entry>, id: TicketId)
    ensures Has(q, id) <==> exists y :: y in q && y.id == id
  {
    if y :| y in q && y.id == id {
      var i :| 0 <= i < |q| && q[i] == y;
    }
    if Has(q, id) {
      var i :| 0 <= i < |q| && q[i].id == id;
      assert q[i] in q;
    }
  }

  /** The rank shown to a user is exactly the number of members ordered before theirs. */
  lemma {:induction false} RankCountsSmaller(q: seq<Entry>, id: TicketId)
    requires Sorted(q) && Rank(q, id) >= 0
    ensures Rank(q, id) == |set y | y in q && Less(y, q[Rank(q, id)])|
  {
    var r := Rank(q, id);
    var smaller := set y | y in q && Less(y, q[r]);
    var prefix := set i | 0 <= i < r :: q[i];
    assert smaller == prefix by {
      forall y | y in smaller
        ensures y in prefix
      {
        var i :| 0 <= i < |q| && q[i] == y;
        assert i < r;
      }
    }
    PrefixSize(q, r);
  }

  lemma {:induction false} PrefixSize(q: seq<Entry>, n: nat)
    requires Sorted(q) && n <= |q|
    ensures |set i | 0 <= i < n :: q[i]| == n
  {
    if n > 0 {
      PrefixSize(q, n - 1);
      var shorter := set i | 0 <= i < n - 1 :: q[i];
      assert q[n - 1] !in shorter;
      assert (set i | 0 <= i < n :: q[i]) == shorter + {q[n - 1]};
    }
  }

  /** ZPOPMIN n takes exactly the members of rank below n, and every survivor moves up by exactly n. */
  lemma PopShiftsRanks(q: seq<Entry>, n: nat, id: TicketId)
    requires Sorted(q) && DistinctIds(q) && n <= |q|
    ensures Has(q[..n], id) <==> 0 <= Rank(q, id) < n
    ensures Rank(q[n..], id) == if Rank(q, id) >= n then Rank(q, id) - n else -1
  {
    var r := Rank(q, id);
    if r >= n {
      assert q[n..][r - n].id == id;
    } else if 0 <= r {
      assert q[..n][r].id == id;
      assert forall i :: n <= i < |q| ==> q[i].id != id;
    }
  }

  /** A newcomer ordered behind a waiting ticket leaves its rank alone; one ordered ahead pushes it back by one. */
  lemma InsertShiftsRank(q: seq<Entry>, x: Entry, id: TicketId)
    requires Sorted(q) && DistinctIds(q) && !Has(q, x.id) && Rank(q, id) >= 0
    ensures Rank(Insert(q, x), id) == Rank(q, id) + if Less(x, q[Rank(q, id)]) then 1 else 0
    ensures Insert(q, x)[Rank(Insert(q, x), id)] == q[Rank(q, id)]
  {
    var k := InsertSplits(q, x);
    var r := Rank(q, id);
    var s := if r < k then r else r + 1;
    assert Insert(q, x)[s] == q[r];
    assert DistinctIds(Insert(q, x)) by {
      InsertKeeps(q, x);
    }
    RankOfIndex(Insert(q, x), s);
  }

  lemma RankOfIndex(q: seq<Entry>, i: nat)
    requires DistinctIds(q) && i < |q|
    ensures Rank(q, q[i].id) == i
  {
  }
}
