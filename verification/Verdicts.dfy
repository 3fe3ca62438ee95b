/** Whom QueueGuard lets in, by what its checks saw, each at its own instant of the run. */
module Verdicts {
  import opened Config
  import opened Tokens
  import opened Redis
  import opened Origin
  import opened Site
  import opened Batches

  /** When the four checks were made: an instant is the length of the run then. */
  datatype Checks = Checks(jwtAt: nat, tokenAt: nat, bindingAt: nat, redeemAt: nat)

  ghost predicate InOrder(k: Checks, since: nat, n: nat) {
    since <= k.jwtAt <= k.tokenAt <= k.bindingAt <= k.redeemAt <= n
  }

  /** Signed with the admission key and not expired. */
  predicate Good(cookie: Token, now: Time) {
    cookie.key == AdmissionKey && now < cookie.claims.expiresAt
  }

  ghost predicate GoodAt(s: Site, acts: seq<Act>, k: nat, cookie: Token)
    requires k <= |acts|
  {
    Good(cookie, CoreAt(s, acts, k).db.now)
  }

  /** The ticket's hash is alive and names the token's event. */
  ghost predicate BoundAt(s: Site, acts: seq<Act>, k: nat, cookie: Token)
    requires k <= |acts|
  {
    HGetEventId(CoreAt(s, acts, k).db, cookie.claims.subject) == Some(cookie.claims.eventId)
  }

  /** No marker of the token's jti is in force. */
  ghost predicate UnusedAt(s: Site, acts: seq<Act>, k: nat, cookie: Token)
    requires k <= |acts|
  {
    !Marked(Run(s, acts[..k]).origin, cookie.claims.jti, CoreAt(s, acts, k).db.now)
  }

  /** All four checks succeed. */
  ghost predicate Convinced(s: Site, acts: seq<Act>, k: Checks, cookie: Token)
    requires InOrder(k, 0, |acts|)
  {
    && GoodAt(s, acts, k.jwtAt, cookie) && ConfirmedAt(s, acts, k, cookie)
  }

  ghost predicate ConfirmedAt(s: Site, acts: seq<Act>, k: Checks, cookie: Token)
    requires InOrder(k, 0, |acts|)
  {
    && VouchedAt(s, acts, k, cookie) && UnusedAt(s, acts, k.redeemAt, cookie)
  }

  /** ValidateAdmission's part. */
  ghost predicate VouchedAt(s: Site, acts: seq<Act>, k: Checks, cookie: Token)
    requires InOrder(k, 0, |acts|)
  {
    WellBound(cookie.claims) && GoodAt(s, acts, k.tokenAt, cookie) && BoundAt(s, acts, k.bindingAt, cookie)
  }

  /** What was seen does not change. */
  lemma SeenStays(s: Site, acts: seq<Act>, more: seq<Act>, k: nat, cookie: Token)
    requires acts <= more && k <= |acts|
    ensures GoodAt(s, more, k, cookie) == GoodAt(s, acts, k, cookie)
    ensures BoundAt(s, more, k, cookie) == BoundAt(s, acts, k, cookie)
    ensures UnusedAt(s, more, k, cookie) == UnusedAt(s, acts, k, cookie)
  {
    assert more[..k] == acts[..k];
  }

  lemma SeenNow(s: Site, acts: seq<Act>, cookie: Token)
    ensures GoodAt(s, acts, |acts|, cookie) == Good(cookie, Run(s, acts).core.db.now)
    ensures BoundAt(s, acts, |acts|, cookie) <==>
              HGetEventId(Run(s, acts).core.db, cookie.claims.subject) == Some(cookie.claims.eventId)
    ensures UnusedAt(s, acts, |acts|, cookie) ==
            !Marked(Run(s, acts).origin, cookie.claims.jti, Run(s, acts).core.db.now)
  {
    assert acts[..|acts|] == acts;
  }
}
