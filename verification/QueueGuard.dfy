/** pkg/middleware/queue_guard.go and internal/api/handler_validate.go as code, verified under interference. */
module QueueGuard {
  import opened Config
  import opened Tokens
  import opened Redis
  import opened Machine
  import opened Origin
  import opened Redemption
  import opened Site
  import opened Runs
  import opened World
  import opened Verdicts

  datatype Verdict = Unauthorized | Denied | FastPath(session: Token) | Admitted(session: Token)

  class Middleware {
    const world: World

    constructor (world: World)
      ensures this.world == world
    {
      this.world := world;
    }

    /** Nothing is undone, and nothing is written to the queue's Redis. */
    twostate predicate Continues()
      reads world
    {
      && world.start == old(world.start) && old(world.trace) <= world.trace && world.calls.sent == old(world.calls).sent
      && world.calls.failures >= old(world.calls).failures
    }

    /** Every command of this call was answered. */
    twostate predicate AllAnswered()
      reads world
    {
      world.calls.failures == old(world.calls).failures
    }

    ghost predicate Stands(i: nat, cookie: Token, pc: GuardPc)
      reads world
    {
      && world.Valid() && i < |world.site.origin.guards|
      && world.site.origin.guards[i].cookie == cookie && world.site.origin.guards[i].pc == pc
    }

    /**
     The session granted last is this one: for the ticket and event of the admission token, on a redemption of the
     token's jti by guard i's own SETNX.
     */
    ghost predicate LastSession(session: Token, cookie: Token, i: nat)
      reads world
    {
      var o := world.site.origin;
      && o.sessions != [] && o.sessions[|o.sessions| - 1].token == session && session.key == SessionKey
      && session.claims.subject == cookie.claims.subject && session.claims.eventId == cookie.claims.eventId
      && var r := o.sessions[|o.sessions| - 1].redemption;
      && r < |o.redeemed| && o.redeemed[r].guard == i && o.redeemed[r].jti == cookie.claims.jti
    }

    /** The session is accepted from now on for half an hour, less the fraction of a second cut from its expiry. */
    ghost predicate Lasts(session: Token)
      reads world
    {
      && session.key == SessionKey
      && world.now + SESSION_JWT_TTL - 1000 < session.claims.expiresAt <= world.now + SESSION_JWT_TTL
    }

    /**
     A session passes exactly until its expiry, without touching Redis. An admission passes exactly when the guard
     process of this very request runs through to its session, which is a new one, carries the token's ticket and
     event, rests on a SETNX of this request, and lasts. If every command is answered, it passes exactly if all four
     checks succeed, each at its instant; a bad token is answered as such in any case.
     */
    method Handle(session: Option<Token>, admission: Option<Token>)
      returns (verdict: Verdict, ghost i: nat, ghost k: Checks)
      requires world.Valid() && (admission.Some? ==> Presentable(world.site.core, admission.value))
      modifies world
      ensures world.Valid() && Continues() && i == |old(world.site.origin.guards)|
      ensures verdict.FastPath? <==>
                session.Some? && session.value.key == SessionKey && old(world.now) < session.value.claims.expiresAt
      ensures verdict.FastPath? ==> world.trace == old(world.trace) && verdict.session == session.value
      ensures verdict.Admitted? ==>
                && admission.Some? && Stands(i, admission.value, Passed)
                && LastSession(verdict.session, admission.value, i) && Lasts(verdict.session)
                && |world.site.origin.sessions| > |old(world.site.origin.sessions)|
      ensures verdict.Denied? ==> admission.Some? && Stands(i, admission.value, Refused)
      ensures verdict.Unauthorized? ==> admission.Some? ==> Stands(i, admission.value, Refused)
      ensures InOrder(k, |old(world.trace)|, |world.trace|)
      ensures !verdict.FastPath? ==>
                (verdict.Unauthorized? <==>
                 admission.None? || !GoodAt(world.start, world.trace, k.jwtAt, admission.value))
      ensures !verdict.FastPath? && admission.Some? && AllAnswered() ==>
                (verdict.Admitted? <==> Convinced(world.start, world.trace, k, admission.value))
    {
      i := |world.site.origin.guards|;
      k := Checks(|world.trace|, |world.trace|, |world.trace|, |world.trace|);
      if session.Some? && Validate(session.value, SessionKey, world.now).Some? {
        return FastPath(session.value), i, k;
      }
      if admission.None? {
        return Unauthorized, i, k;
      }
      verdict, k := Serve(admission.value);
    }

    method Serve(cookie: Token) returns (verdict: Verdict, ghost k: Checks)
      requires world.Valid() && Presentable(world.site.core, cookie)
      modifies world
      ensures world.Valid() && Continues() && !verdict.FastPath?
      ensures var i := |old(world.site.origin.guards)|;
              && (verdict.Admitted? ==>
                    Stands(i, cookie, Passed) && LastSession(verdict.session, cookie, i) && Lasts(verdict.session))
              && (!verdict.Admitted? ==> Stands(i, cookie, Refused))
      ensures verdict.Admitted? ==> |world.site.origin.sessions| > |old(world.site.origin.sessions)|
      ensures InOrder(k, |old(world.trace)|, |world.trace|)
      ensures verdict.Unauthorized? <==> !GoodAt(world.start, world.trace, k.jwtAt, cookie)
      ensures AllAnswered() ==> (verdict.Admitted? <==> Convinced(world.start, world.trace, k, cookie))
    {
      ghost var i := Arrive(cookie);
      verdict, k := CheckAdmission(cookie, i);
      if verdict.Admitted? {
        SessionIsNew(world.start, old(world.trace), world.trace, i);
      }
    }

    ghost method Arrive(cookie: Token) returns (i: nat)
      requires world.Valid() && Presentable(world.site.core, cookie)
      modifies world
      ensures Stands(i, cookie, Verify) && i == |old(world.site.origin.guards)| && Continues() && AllAnswered()
    {
      i := |world.site.origin.guards|;
      world.RecordArrive(cookie);
    }

    /** The checks of an admission token, and its redemption. */
    method CheckAdmission(cookie: Token, ghost i: nat) returns (verdict: Verdict, ghost k: Checks)
      requires Stands(i, cookie, Verify)
      modifies world
      ensures world.Valid() && Continues() && !verdict.FastPath?
      ensures verdict.Admitted? ==>
                Stands(i, cookie, Passed) && LastSession(verdict.session, cookie, i) && Lasts(verdict.session)
      ensures !verdict.Admitted? ==> Stands(i, cookie, Refused)
      ensures InOrder(k, |old(world.trace)|, |world.trace|)
      ensures verdict.Unauthorized? <==> !GoodAt(world.start, world.trace, k.jwtAt, cookie)
      ensures AllAnswered() ==> (verdict.Admitted? <==> Convinced(world.start, world.trace, k, cookie))
    {
      var ok := VerifyJwt(cookie, i);
      ghost var verified, n := world.trace, |world.trace|;
      SeenNow(world.start, verified, cookie);
      k := Checks(n, n, n, n);
      if !ok {
        return Unauthorized, k;
      }
      verdict, k := ConfirmAndGrant(cookie, i);
      SeenStays(world.start, verified, world.trace, n, cookie);
      k := k.(jwtAt := n);
    }

    method ConfirmAndGrant(cookie: Token, ghost i: nat) returns (verdict: Verdict, ghost k: Checks)
      requires Stands(i, cookie, RemoteVerify)
      modifies world
      ensures world.Valid() && Continues() && (verdict.Admitted? || verdict == Denied)
      ensures verdict.Admitted? ==>
                Stands(i, cookie, Passed) && LastSession(verdict.session, cookie, i) && Lasts(verdict.session)
      ensures !verdict.Admitted? ==> Stands(i, cookie, Refused)
      ensures InOrder(k, |old(world.trace)|, |world.trace|)
      ensures AllAnswered() ==> (verdict.Admitted? <==> ConfirmedAt(world.start, world.trace, k, cookie))
    {
      var event;
      event, k := Introspect(cookie, i);
      if event.None? {
        return Denied, k;
      }
      ghost var vouched := world.trace;
      var ok := CompareEvent(cookie, event.value, i);
      ghost var n;
      verdict, n := RedeemAndGrant(cookie, i);
      SeenStays(world.start, vouched, world.trace, k.tokenAt, cookie);
      SeenStays(world.start, vouched, world.trace, k.bindingAt, cookie);
      k := k.(redeemAt := n);
    }

    method RedeemAndGrant(cookie: Token, ghost i: nat) returns (verdict: Verdict, ghost n: nat)
      requires Stands(i, cookie, GuardPc.Redeem)
      modifies world
      ensures world.Valid() && Continues() && (verdict.Admitted? || verdict == Denied)
      ensures verdict.Admitted? ==>
                Stands(i, cookie, Passed) && LastSession(verdict.session, cookie, i) && Lasts(verdict.session)
      ensures !verdict.Admitted? ==> Stands(i, cookie, Refused)
      ensures |old(world.trace)| <= n <= |world.trace|
      ensures AllAnswered() ==> (verdict.Admitted? <==> UnusedAt(world.start, world.trace, n, cookie))
    {
      world.Yield(TheGuard(i));
      ghost var before := world.trace;
      n := |before|;
      SeenNow(world.start, before, cookie);
      var ok, r := Redeem(cookie, i);
      if !ok {
        SeenStays(world.start, before, world.trace, n, cookie);
        return Denied, n;
      }
      var granted := GrantSession(cookie, r, i);
      SeenStays(world.start, before, world.trace, n, cookie);
      verdict := Verdict.Admitted(granted);
    }

    method VerifyJwt(cookie: Token, ghost i: nat) returns (ok: bool)
      requires Stands(i, cookie, Verify)
      modifies world
      ensures Stands(i, cookie, if ok then RemoteVerify else Refused) && Continues()
      ensures ok == Good(cookie, world.now)
    {
      world.Yield(TheGuard(i));
      ok := Validate(cookie, AdmissionKey, world.now).Some?;
      world.RecordGuard(i, Ok);
    }

    /** POST to ValidateAdmission; a call that fails or times out is a refusal. */
    method Introspect(cookie: Token, ghost i: nat) returns (event: Option<EventId>, ghost k: Checks)
      requires Stands(i, cookie, RemoteVerify)
      modifies world
      ensures Stands(i, cookie, if event.Some? then Compare(event.value) else Refused) && Continues()
      ensures event.Some? ==> event.value == cookie.claims.eventId
      ensures InOrder(k, |old(world.trace)|, |world.trace|)
      ensures AllAnswered() ==> (event.Some? <==> VouchedAt(world.start, world.trace, k, cookie))
    {
      var ok := CheckToken(cookie, i);
      ghost var checked, n := world.trace, |world.trace|;
      SeenNow(world.start, checked, cookie);
      event, k := None, Checks(n, n, n, n);
      if ok {
        event := CheckBinding(cookie, i);
        SeenStays(world.start, checked, world.trace, n, cookie);
        SeenNow(world.start, world.trace, cookie);
        k := Checks(n, n, |world.trace|, |world.trace|);
      }
    }

    /** ValidateAdmission's own check of the token: the last look at its expiry. */
    method CheckToken(cookie: Token, ghost i: nat) returns (ok: bool)
      requires Stands(i, cookie, RemoteVerify)
      modifies world
      ensures Stands(i, cookie, if ok then RemoteBinding else Refused) && Continues()
      ensures AllAnswered() ==> (ok <==> WellBound(cookie.claims) && Good(cookie, world.now))
    {
      world.Yield(TheGuard(i));
      var o := world.Ask();
      var ticketId := cookie.claims.ticketId;
      ok := o == Ok && ticketId.Some? && Validate(cookie, AdmissionKey, world.now).Some?
        && cookie.claims.subject == ticketId.value;
      world.RecordGuard(i, o);
    }

    /** ValidateAdmission's read of the ticket's event. */
    method CheckBinding(cookie: Token, ghost i: nat) returns (event: Option<EventId>)
      requires Stands(i, cookie, RemoteBinding)
      modifies world
      ensures Stands(i, cookie, if event.Some? then Compare(event.value) else Refused) && Continues()
      ensures event.Some? ==> event.value == cookie.claims.eventId
      ensures AllAnswered() ==>
                (event.Some? <==> HGetEventId(world.Snapshot(), cookie.claims.subject) == Some(cookie.claims.eventId))
    {
      world.Yield(TheGuard(i));
      var o;
      o, event := world.HGetEventId(cookie.claims.subject);
      if event.Some? && event.value != cookie.claims.eventId {
        event := None;
      }
      world.RecordGuard(i, o);
    }

    /** The reply names the token's event: ValidateAdmission has compared them already. */
    method CompareEvent(cookie: Token, event: EventId, ghost i: nat) returns (ok: bool)
      requires Stands(i, cookie, Compare(event))
      modifies world
      ensures Stands(i, cookie, if ok then GuardPc.Redeem else Refused) && Continues()
      ensures AllAnswered() && (ok <==> event == cookie.claims.eventId)
    {
      world.Yield(TheGuard(i));
      ok := event == cookie.claims.eventId;
      world.RecordGuard(i, Ok);
    }

    method Redeem(cookie: Token, ghost i: nat) returns (ok: bool, ghost r: nat)
      requires Stands(i, cookie, GuardPc.Redeem)
      modifies world
      ensures Stands(i, cookie, if ok then Grant(r) else Refused) && Continues()
      ensures AllAnswered() ==> (ok <==> !Marked(old(world.site.origin), cookie.claims.jti, old(world.now)))
    {
      r := |world.site.origin.redeemed|;
      var o, first := world.SetNxUsed(cookie.claims.jti);
      ok := o == Ok && first;
      world.RecordGuard(i, o);
    }

    method GrantSession(cookie: Token, ghost r: nat, ghost i: nat) returns (session: Token)
      requires Stands(i, cookie, Grant(r))
      modifies world
      ensures Stands(i, cookie, Passed) && Continues() && AllAnswered()
      ensures LastSession(session, cookie, i) && Lasts(session)
    {
      world.Yield(TheGuard(i));
      GuardOwnsRedemption(world.start, world.trace, i);
      session := IssueSession(cookie.claims.subject, cookie.claims.eventId, world.nextSession, world.now);
      world.nextSession := world.nextSession + 1;
      world.RecordGuard(i, Ok);
    }
  }

  lemma GuardOwnsRedemption(start: Site, acts: seq<Act>, i: nat)
    requires Start(start) && i < |Run(start, acts).origin.guards| && Run(start, acts).origin.guards[i].pc.Grant?
    ensures var o := Run(start, acts).origin;
            var g := o.guards[i];
            && g.pc.redemption < |o.redeemed| && o.redeemed[g.pc.redemption].guard == i
            && o.redeemed[g.pc.redemption].jti == g.cookie.claims.jti
  {
    AlwaysOk(start, acts);
    assert GuardOk(Run(start, acts).core, Run(start, acts).origin, i);
  }

  /** A session on a redemption of a guard that came later was not there before. */
  lemma SessionIsNew(start: Site, acts: seq<Act>, more: seq<Act>, i: nat)
    requires Start(start) && acts <= more && |Run(start, acts).origin.guards| <= i
    requires var p := Run(start, more).origin;
             p.sessions != [] &&
             var r := p.sessions[|p.sessions| - 1].redemption;
             r < |p.redeemed| && p.redeemed[r].guard == i
    ensures |Run(start, more).origin.sessions| > |Run(start, acts).origin.sessions|
  {
    AlwaysOk(start, acts);
    RunGrows(start, acts, more);
    var o := Run(start, acts).origin;
    if o.sessions != [] {
      assert SessionOk(Run(start, acts).core, o, o.sessions[|o.sessions| - 1]);
    }
  }
}
