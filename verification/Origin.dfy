/**
 The origin side: QueueGuard (pkg/middleware/queue_guard.go) with its call to ValidateAdmission
 (internal/api/handler_validate.go), any number of requests at once, one command per step.
 The markers token:{jti} live in the origin's own Redis.
 */
module Origin {
  import opened Config
  import opened Tokens
  import opened Redis
  import opened Machine

  datatype GuardPc =
    | Verify
    | RemoteVerify
    | RemoteBinding
    | Compare(reply: EventId)
    | Redeem
    | Grant(redemption: nat)
    | Passed
    | Refused

  /** A request that carries no valid session; checkedAt is its last expiry check. */
  datatype Guard = Guard(cookie: Token, pc: GuardPc, checkedAt: Time)

  datatype Redemption = Redemption(jti: nat, at: Time, guard: nat)

  datatype Session = Session(token: Token, redemption: nat)

  datatype Origin = Origin(used: map<nat, Time>, guards: seq<Guard>, redeemed: seq<Redemption>, sessions: seq<Session>)

  /** A signature cannot be forged: an admission token was issued, and a session token came out of QueueGuard. */
  predicate Presentable(c: Core, token: Token) {
    token.key == AdmissionKey ==> token in c.hist.issued
  }

  /** ValidateAdmission's checks on the token itself; the request repeats the token's own ticket id. */
  predicate WellBound(claims: Claims) {
    claims.ticketId == Some(claims.subject)
  }

  predicate Marked(o: Origin, jti: nat, now: Time) {
    jti in o.used && now < o.used[jti]
  }

  function ArriveAt(c: Core, o: Origin, cookie: Token): Origin {
    if Presentable(c, cookie) then o.(guards := o.guards + [Guard(cookie, Verify, 0)]) else o
  }

  function SetPc(o: Origin, i: nat, pc: GuardPc): Origin
    requires i < |o.guards|
  {
    o.(guards := o.guards[i := o.guards[i].(pc := pc)])
  }

  function RedeemStep(c: Core, o: Origin, i: nat, outcome: Outcome): Origin
    requires i < |o.guards|
  {
    var jti := o.guards[i].cookie.claims.jti;
    if outcome == Failed || Marked(o, jti, c.db.now) then SetPc(o, i, Refused)
    else
      SetPc(o, i, if outcome == Ok then Grant(|o.redeemed|) else Refused)
      .(used := o.used[jti := c.db.now + ADMISSION_USED_TTL],
        redeemed := o.redeemed + [Redemption(jti, c.db.now, i)])
  }

  function StepGuard(c: Core, o: Origin, i: nat, outcome: Outcome): Origin
    requires i < |o.guards|
  {
    var g := o.guards[i];
    match g.pc
    case Verify =>
      SetPc(o, i, if Validate(g.cookie, AdmissionKey, c.db.now).Some? then RemoteVerify else Refused)
    case RemoteVerify =>
      if outcome == Ok && Validate(g.cookie, AdmissionKey, c.db.now).Some? && WellBound(g.cookie.claims) then
        o.(guards := o.guards[i := g.(pc := RemoteBinding, checkedAt := c.db.now)])
      else
        SetPc(o, i, Refused)
    case RemoteBinding =>
      var event := HGetEventId(c.db, g.cookie.claims.subject);
      SetPc(o, i, if outcome == Ok && event == Some(g.cookie.claims.eventId) then Compare(event.value) else Refused)
    case Compare(reply) => SetPc(o, i, if reply == g.cookie.claims.eventId then Redeem else Refused)
    case Redeem => RedeemStep(c, o, i, outcome)
    case Grant(r) =>
      var session := IssueSession(g.cookie.claims.subject, g.cookie.claims.eventId, |o.sessions|, c.db.now);
      SetPc(o, i, Passed).(sessions := o.sessions + [Session(session, r)])
    case Passed => o
    case Refused => o
  }

  function CrashGuard(o: Origin, i: nat): Origin
    requires i < |o.guards|
  {
    if o.guards[i].pc == Passed then o else SetPc(o, i, Refused)
  }
}
