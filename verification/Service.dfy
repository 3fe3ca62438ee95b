/** QueueGuard on its own: whom it lets in when nothing fails and nothing interferes. */
module Service {
  import opened Tokens
  import opened Machine
  import opened Origin
  import opened Visitors

  /** A request with an admission token, served without interruption and without failures. */
  function ServeAlone(c: Core, o: Origin, cookie: Token): Origin {
    var i, p := |o.guards|, ArriveAt(c, o, cookie);
    if |p.guards| == i then p else Finish(c, p, i, 6)
  }

  function Finish(c: Core, o: Origin, i: nat, n: nat): (p: Origin)
    requires i < |o.guards|
    ensures |p.guards| == |o.guards|
    decreases n
  {
    if n == 0 then o else Finish(c, StepGuard(c, o, i, Ok), i, n - 1)
  }

  /** Served alone, a request is granted a session exactly if its token was issued, is redeemable and is unmarked. */
  lemma ServedAloneIff(c: Core, o: Origin, cookie: Token)
    ensures |ServeAlone(c, o, cookie).sessions| == |o.sessions| + 1 <==>
              Presentable(c, cookie) && Redeemable(c.db, cookie) && !Marked(o, cookie.claims.jti, c.db.now)
  {
    var i, p := |o.guards|, ArriveAt(c, o, cookie);
    if |p.guards| > i {
      var p1 := StepGuard(c, p, i, Ok);
      var p2 := StepGuard(c, p1, i, Ok);
      var p3 := StepGuard(c, p2, i, Ok);
      var p4 := StepGuard(c, p3, i, Ok);
      var p5 := StepGuard(c, p4, i, Ok);
      var p6 := StepGuard(c, p5, i, Ok);
      assert Finish(c, p, i, 6) == Finish(c, p1, i, 5) == Finish(c, p2, i, 4) == Finish(c, p3, i, 3);
      assert Finish(c, p3, i, 3) == Finish(c, p4, i, 2) == Finish(c, p5, i, 1) == p6;
    }
  }
}
