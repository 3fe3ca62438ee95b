/** One token, one session: QueueGuard's SETNX against the lifetimes of the token and of its marker. */
module Redemption {
  import opened Config
  import opened Tokens
  import opened Machine
  import opened Tickets
  import opened Origin

  /** jti j was issued to this ticket, for the event its hash names, at this time. */
  lemma IssuedShape(c: Core, j: nat)
    requires TokensOk(c) && j < |c.hist.issued|
    ensures var t := c.hist.issued[j].claims.subject;
            && t in c.hist.tokenOf && c.hist.tokenOf[t] == j && t in c.hist.place && t in c.hist.fieldsOf
            && c.hist.issued[j] == IssueAdmission(t, c.hist.fieldsOf[t].eventId, j, c.hist.issuedAt[j])
            && c.hist.issuedAt[j] <= c.db.now
  {
    assert TokenAt(c.hist, c.db.now, c.hist.issued[j].claims.subject);
  }

  /** The guard's last expiry check accepted an issued token. */
  ghost predicate Checked(c: Core, g: Guard) {
    var j := g.cookie.claims.jti;
    && j < |c.hist.issued| && c.hist.issued[j] == g.cookie
    && g.checkedAt <= c.db.now && g.checkedAt < g.cookie.claims.expiresAt
  }

  ghost predicate GuardOk(c: Core, o: Origin, i: nat)
    requires i < |o.guards|
  {
    var g := o.guards[i];
    && Presentable(c, g.cookie)
    && (g.pc.RemoteBinding? || g.pc.Compare? || g.pc.Redeem? || g.pc.Grant? || g.pc.Passed? ==> Checked(c, g))
    && (g.pc.Grant? ==>
          g.pc.redemption < |o.redeemed| && o.redeemed[g.pc.redemption].guard == i
          && o.redeemed[g.pc.redemption].jti == g.cookie.claims.jti)
    && (g.pc == Passed ==> RedeemedBy(o, i, g.cookie.claims.jti))
  }

  /** Guard i's own SETNX redeemed the jti. */
  ghost predicate RedeemedBy(o: Origin, i: nat, jti: nat) {
    exists k :: 0 <= k < |o.redeemed| && o.redeemed[k].guard == i && o.redeemed[k].jti == jti
  }

  /** Every marker was set by a redemption of its jti, and for its whole lifetime. */
  ghost predicate MarkedBy(o: Origin, jti: nat)
    requires jti in o.used
  {
    exists k :: 0 <= k < |o.redeemed| && o.redeemed[k].jti == jti
      && o.used[jti] == o.redeemed[k].at + ADMISSION_USED_TTL
  }

  ghost predicate RedemptionOk(c: Core, o: Origin, r: Redemption) {
    && r.jti < |c.hist.issued| == |c.hist.issuedAt| && r.guard < |o.guards|
    && c.hist.issuedAt[r.jti] <= r.at <= c.db.now
    && r.jti in o.used && r.at + ADMISSION_USED_TTL <= o.used[r.jti]
    && !(o.guards[r.guard].pc.Verify? || o.guards[r.guard].pc.RemoteVerify? || o.guards[r.guard].pc.RemoteBinding?
         || o.guards[r.guard].pc.Compare? || o.guards[r.guard].pc.Redeem?)
  }

  ghost predicate SessionOk(c: Core, o: Origin, s: Session) {
    && s.redemption < |o.redeemed| && o.redeemed[s.redemption].guard < |o.guards|
    && o.guards[o.redeemed[s.redemption].guard].pc == Passed
    && o.redeemed[s.redemption].jti < |c.hist.issued|
    && s.token.claims.subject == c.hist.issued[o.redeemed[s.redemption].jti].claims.subject
    && s.token.claims.eventId == c.hist.issued[o.redeemed[s.redemption].jti].claims.eventId
  }

  ghost predicate OriginOk(c: Core, o: Origin) {
    && (forall i :: 0 <= i < |o.guards| ==> GuardOk(c, o, i))
    && (forall k :: 0 <= k < |o.redeemed| ==> RedemptionOk(c, o, o.redeemed[k]))
    && (forall k :: 0 <= k < |o.sessions| ==> SessionOk(c, o, o.sessions[k]))
    && (forall k, l :: 0 <= k < l < |o.sessions| ==> o.sessions[k].redemption != o.sessions[l].redemption)
    && (forall jti :: jti in o.used ==> MarkedBy(o, jti))
  }

  /** The queue side only adds tokens and time. */
  lemma OriginKept(c: Core, d: Core, o: Origin)
    requires OriginOk(c, o) && d.db.now >= c.db.now && |d.hist.issuedAt| == |d.hist.issued|
    requires |c.hist.issued| <= |d.hist.issued| && d.hist.issued[..|c.hist.issued|] == c.hist.issued
    requires |c.hist.issuedAt| <= |d.hist.issuedAt| && d.hist.issuedAt[..|c.hist.issuedAt|] == c.hist.issuedAt
    ensures OriginOk(d, o)
  {
    assert forall j :: 0 <= j < |c.hist.issued| ==> d.hist.issued[j] == d.hist.issued[..|c.hist.issued|][j];
    assert forall j :: 0 <= j < |c.hist.issuedAt| ==> d.hist.issuedAt[j] == d.hist.issuedAt[..|c.hist.issuedAt|][j];
    forall i | 0 <= i < |o.guards| ensures GuardOk(d, o, i) {
      assert GuardOk(c, o, i);
    }
    forall k | 0 <= k < |o.redeemed| ensures RedemptionOk(d, o, o.redeemed[k]) {
      assert RedemptionOk(c, o, o.redeemed[k]);
    }
    forall k | 0 <= k < |o.sessions| ensures SessionOk(d, o, o.sessions[k]) {
      assert SessionOk(c, o, o.sessions[k]);
    }
  }

  /** A step of guard i that changes neither markers nor sessions. */
  lemma OriginMoved(c: Core, o: Origin, p: Origin, i: nat)
    requires OriginOk(c, o) && i < |o.guards| == |p.guards| && p == o.(guards := o.guards[i := p.guards[i]])
    requires p.guards[i].cookie == o.guards[i].cookie && GuardOk(c, p, i)
    requires o.guards[i].pc == Passed ==> p.guards[i].pc == Passed
    requires o.guards[i].pc.Grant? || o.guards[i].pc == Refused ==> p.guards[i].pc.Grant? || p.guards[i].pc == Refused
    ensures OriginOk(c, p)
  {
    forall j | 0 <= j < |p.guards| ensures GuardOk(c, p, j) {
      assert GuardOk(c, o, j);
    }
    forall k | 0 <= k < |p.redeemed| ensures RedemptionOk(c, p, p.redeemed[k]) {
      assert RedemptionOk(c, o, o.redeemed[k]);
    }
    forall k | 0 <= k < |p.sessions| ensures SessionOk(c, p, p.sessions[k]) {
      assert SessionOk(c, o, o.sessions[k]);
    }
  }

  lemma OriginArrive(c: Core, o: Origin, cookie: Token)
    requires OriginOk(c, o)
    ensures OriginOk(c, ArriveAt(c, o, cookie))
  {
    var p := ArriveAt(c, o, cookie);
    forall j | 0 <= j < |p.guards| ensures GuardOk(c, p, j) {
      assert j < |o.guards| ==> GuardOk(c, o, j);
    }
    forall k | 0 <= k < |p.redeemed| ensures RedemptionOk(c, p, p.redeemed[k]) {
      assert RedemptionOk(c, o, o.redeemed[k]);
    }
    forall k | 0 <= k < |p.sessions| ensures SessionOk(c, p, p.sessions[k]) {
      assert SessionOk(c, o, o.sessions[k]);
    }
  }

  lemma OriginStep(c: Core, o: Origin, i: nat, outcome: Outcome)
    requires TokensOk(c) && OriginOk(c, o) && i < |o.guards|
    ensures OriginOk(c, StepGuard(c, o, i, outcome))
  {
    assert GuardOk(c, o, i);
    match o.guards[i].pc
    case RemoteVerify =>
      if j :| 0 <= j < |c.hist.issued| && c.hist.issued[j] == o.guards[i].cookie {
        IssuedShape(c, j);
      }
      OriginMoved(c, o, StepGuard(c, o, i, outcome), i);
    case Redeem => OriginRedeem(c, o, i, outcome);
    case Grant(_) => OriginGrant(c, o, i);
    case Passed =>
    case Refused =>
    case _ => OriginMoved(c, o, StepGuard(c, o, i, outcome), i);
  }

  lemma OriginRedeem(c: Core, o: Origin, i: nat, outcome: Outcome)
    requires TokensOk(c) && OriginOk(c, o) && i < |o.guards| && o.guards[i].pc == Redeem
    ensures OriginOk(c, RedeemStep(c, o, i, outcome))
  {
    var p := RedeemStep(c, o, i, outcome);
    assert GuardOk(c, o, i);
    IssuedShape(c, o.guards[i].cookie.claims.jti);
    if |p.redeemed| == |o.redeemed| {
      OriginMoved(c, o, p, i);
    } else {
      OriginRedeemed(c, o, i, outcome);
    }
  }

  /** An effective SETNX. */
  lemma OriginRedeemed(c: Core, o: Origin, i: nat, outcome: Outcome)
    requires TokensOk(c) && OriginOk(c, o) && i < |o.guards| && o.guards[i].pc == Redeem
    requires outcome != Failed && !Marked(o, o.guards[i].cookie.claims.jti, c.db.now)
    ensures OriginOk(c, RedeemStep(c, o, i, outcome))
  {
    var p, jti := RedeemStep(c, o, i, outcome), o.guards[i].cookie.claims.jti;
    assert GuardOk(c, o, i);
    IssuedShape(c, jti);
    assert p.redeemed == o.redeemed + [Redemption(jti, c.db.now, i)];
    forall j | 0 <= j < |p.guards| ensures GuardOk(c, p, j) {
      GuardKept(c, o, p, i, j);
    }
    forall k | 0 <= k < |p.redeemed| ensures RedemptionOk(c, p, p.redeemed[k]) {
      assert k < |o.redeemed| ==> RedemptionOk(c, o, o.redeemed[k]);
    }
    forall k | 0 <= k < |p.sessions| ensures SessionOk(c, p, p.sessions[k]) {
      assert SessionOk(c, o, o.sessions[k]);
    }
    forall m | m in p.used ensures MarkedBy(p, m) {
      assert p.redeemed[|o.redeemed|].jti == jti;
      if m != jti {
        assert MarkedBy(o, m);
        var k :| 0 <= k < |o.redeemed| && o.redeemed[k].jti == m && o.used[m] == o.redeemed[k].at + ADMISSION_USED_TTL;
        assert p.redeemed[k] == o.redeemed[k];
      }
    }
  }

  /** A longer list of redemptions keeps what is known of guard j; guard i goes on to Grant or is refused. */
  lemma GuardKept(c: Core, o: Origin, p: Origin, i: nat, j: nat)
    requires i < |o.guards| == |p.guards| && j < |o.guards| && GuardOk(c, o, i) && GuardOk(c, o, j)
    requires o.redeemed <= p.redeemed && p.guards == o.guards[i := p.guards[i]]
    requires o.guards[i].pc == Redeem && (p.guards[i].pc == Refused || p.guards[i].pc == Grant(|o.redeemed|))
    requires p.guards[i].cookie == o.guards[i].cookie && p.guards[i].checkedAt == o.guards[i].checkedAt
    requires |p.redeemed| > |o.redeemed|
    requires p.redeemed[|o.redeemed|].guard == i && p.redeemed[|o.redeemed|].jti == o.guards[i].cookie.claims.jti
    ensures GuardOk(c, p, j)
  {
    if j != i && o.guards[j].pc == Passed {
      var k :| 0 <= k < |o.redeemed| && o.redeemed[k].guard == j && o.redeemed[k].jti == o.guards[j].cookie.claims.jti;
      assert p.redeemed[k] == o.redeemed[k];
    }
  }

  lemma OriginGrant(c: Core, o: Origin, i: nat)
    requires OriginOk(c, o) && i < |o.guards| && o.guards[i].pc.Grant?
    ensures OriginOk(c, StepGuard(c, o, i, Ok))
  {
    var p, r := StepGuard(c, o, i, Ok), o.guards[i].pc.redemption;
    assert GuardOk(c, o, i);
    assert p.redeemed[r].guard == i;
    forall j | 0 <= j < |p.guards| ensures GuardOk(c, p, j) {
      assert GuardOk(c, o, j);
    }
    forall k | 0 <= k < |p.redeemed| ensures RedemptionOk(c, p, p.redeemed[k]) {
      assert RedemptionOk(c, o, o.redeemed[k]);
    }
    forall k | 0 <= k < |o.sessions| ensures SessionOk(c, p, o.sessions[k]) && o.sessions[k].redemption != r {
      assert SessionOk(c, o, o.sessions[k]);
    }
  }

  // ------------------------------------------------------------------ one-time redemption

  ghost predicate OneTime(o: Origin) {
    forall k, l :: 0 <= k < l < |o.redeemed| ==> o.redeemed[k].jti != o.redeemed[l].jti
  }

  /** A token's age at an instant, plus the fraction of a second that was cut from its expiry. */
  function Slack(c: Core, jti: nat, at: Time): int
    requires jti < |c.hist.issuedAt|
  {
    at - c.hist.issuedAt[jti] + c.hist.issuedAt[jti] % 1000
  }

  /** From a guard's last expiry check to its SETNX no more time passes than the token's age at its first redemption. */
  ghost predicate Timely(c: Core, o: Origin, i: nat) {
    i < |o.guards| && o.guards[i].pc == Redeem ==>
      forall k :: 0 <= k < |o.redeemed| && o.redeemed[k].jti == o.guards[i].cookie.claims.jti
                  && o.redeemed[k].jti < |c.hist.issuedAt| ==>
        c.db.now - o.guards[i].checkedAt <= Slack(c, o.redeemed[k].jti, o.redeemed[k].at)
  }

  /** A redemption of guard i's jti whose marker has run out. */
  ghost predicate Late(c: Core, o: Origin, i: nat, k: nat)
    requires i < |o.guards| && k < |o.redeemed|
  {
    o.redeemed[k].jti == o.guards[i].cookie.claims.jti && c.db.now >= o.redeemed[k].at + ADMISSION_USED_TTL
  }

  /** Exactly when a SETNX redeems a jti again: it takes effect a full marker lifetime after the jti's redemption. */
  lemma SetNxRepeatsIff(c: Core, o: Origin, i: nat, outcome: Outcome)
    requires OriginOk(c, o) && OneTime(o) && i < |o.guards| && o.guards[i].pc == Redeem
    ensures !OneTime(RedeemStep(c, o, i, outcome)) <==>
              outcome != Failed && exists k :: 0 <= k < |o.redeemed| && Late(c, o, i, k)
  {
    var jti, p := o.guards[i].cookie.claims.jti, RedeemStep(c, o, i, outcome);
    if k :| 0 <= k < |o.redeemed| && o.redeemed[k].jti == jti {
      assert RedemptionOk(c, o, o.redeemed[k]) && MarkedBy(o, jti);
      assert Late(c, o, i, k) <==> !Marked(o, jti, c.db.now);
      assert |p.redeemed| > |o.redeemed| ==> p.redeemed[k].jti == p.redeemed[|o.redeemed|].jti;
    }
  }

  /**
   A late guard has paused: since its last expiry check more time has passed than the slack of the first redemption.
   And if that check was in the last instant of the token's life, pausing for more than the slack is also enough.
   */
  lemma LateMeansPaused(c: Core, o: Origin, i: nat, k: nat)
    requires TokensOk(c) && OriginOk(c, o) && i < |o.guards| && o.guards[i].pc == Redeem
    requires k < |o.redeemed| && o.redeemed[k].jti == o.guards[i].cookie.claims.jti
    ensures o.redeemed[k].jti < |c.hist.issuedAt|
    ensures var paused := c.db.now - o.guards[i].checkedAt > Slack(c, o.redeemed[k].jti, o.redeemed[k].at);
            && (Late(c, o, i, k) ==> paused)
            && (o.guards[i].checkedAt == o.guards[i].cookie.claims.expiresAt - 1 ==> (Late(c, o, i, k) <==> paused))
  {
    assert GuardOk(c, o, i);
    IssuedShape(c, o.redeemed[k].jti);
  }

  /** A timely guard finds the marker of a token that was redeemed before, although markers expire. */
  lemma TimelyFindsMarker(c: Core, o: Origin, i: nat)
    requires TokensOk(c) && OriginOk(c, o) && Timely(c, o, i) && i < |o.guards| && o.guards[i].pc == Redeem
    ensures forall k :: 0 <= k < |o.redeemed| ==> !Late(c, o, i, k)
  {
    forall k | 0 <= k < |o.redeemed| ensures !Late(c, o, i, k) {
      if o.redeemed[k].jti == o.guards[i].cookie.claims.jti {
        LateMeansPaused(c, o, i, k);
      }
    }
  }

  /** So does a guard whose own token is still unexpired: no marker runs out before its token does. */
  lemma PromptFindsMarker(c: Core, o: Origin, i: nat)
    requires TokensOk(c) && OriginOk(c, o) && i < |o.guards| && o.guards[i].pc == Redeem
    requires c.db.now < o.guards[i].cookie.claims.expiresAt
    ensures forall k :: 0 <= k < |o.redeemed| ==> !Late(c, o, i, k)
  {
    assert GuardOk(c, o, i);
    IssuedShape(c, o.guards[i].cookie.claims.jti);
    forall k | 0 <= k < |o.redeemed| ensures !Late(c, o, i, k) {
      assert RedemptionOk(c, o, o.redeemed[k]);
    }
  }
}
