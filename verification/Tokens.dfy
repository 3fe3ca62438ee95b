/**
 Signed tokens, with the signature idealised: a token is a claims value tagged
 with the key that signed it, so a signature verifies exactly under that key.
 */
module Tokens {
  import opened Config

  datatype EventId = EventId(name: string)

  /** A ticket's UUID read as a number; Keys shows that its text form sorts the same way. */
  type TicketId = nat

  datatype Option<+T> = None | Some(value: T)

  datatype Key = AdmissionKey | SessionKey | ForeignKey(n: nat)

  /** Session tokens carry no ticketId claim; parsing one as an admission token leaves it empty. */
  datatype Claims = Claims(eventId: EventId, ticketId: Option<TicketId>, jti: nat, subject: TicketId,
                           issuedAt: Time, expiresAt: Time)

  datatype Token = Token(key: Key, claims: Claims)

  /** jwt.NewNumericDate drops the fraction of a second. */
  function NumericDate(t: Time): (d: Time)
    ensures d <= t < d + 1000
  {
    t - t % 1000
  }

  function IssueAdmission(ticket: TicketId, event: EventId, jti: nat, now: Time): Token {
    Token(AdmissionKey,
      Claims(event, Some(ticket), jti, ticket, NumericDate(now), NumericDate(now + ADMISSION_JWT_TTL)))
  }

  function IssueSession(ticket: TicketId, event: EventId, jti: nat, now: Time): Token {
    Token(SessionKey, Claims(event, None, jti, ticket, NumericDate(now), NumericDate(now + SESSION_JWT_TTL)))
  }

  /** Section 4.1.4 of RFC 7519: a token is refused on or after its expiry. */
  function Validate(token: Token, key: Key, now: Time): Option<Claims> {
    if token.key == key && now < token.claims.expiresAt then Some(token.claims) else None
  }

  /** Either kind of token verifies under its own key for its whole lifetime and no longer, and never as the other. */
  lemma TokenKindsNeverCross(ticket: TicketId, event: EventId, jti: nat, at: Time, now: Time)
    ensures var a := IssueAdmission(ticket, event, jti, at);
            && Validate(a, SessionKey, now) == None
            && (Validate(a, AdmissionKey, now) == Some(a.claims) <==> now < a.claims.expiresAt)
            && at + ADMISSION_JWT_TTL - 1000 < a.claims.expiresAt <= at + ADMISSION_JWT_TTL
    ensures var s := IssueSession(ticket, event, jti, at);
            && Validate(s, AdmissionKey, now) == None
            && (Validate(s, SessionKey, now) == Some(s.claims) <==> now < s.claims.expiresAt)
            && at + SESSION_JWT_TTL - 1000 < s.claims.expiresAt <= at + SESSION_JWT_TTL
  {
  }
}
