/** The key constructors of internal/store/keys.go: each is a prefix. Redis keeps channel names apart from keys. */
module Keys {
  import opened Tokens

  // ------------------------------------------------------------------ ticket ids as text

  function Pow16(w: nat): (p: nat)
    ensures p > 0
  {
    if w == 0 then 1 else 16 * Pow16(w - 1)
  }

  function Digit(d: nat): (c: char)
    requires d < 16
  {
    if d < 10 then '0' + d as char else 'a' + (d - 10) as char
  }

  /** The w lower-case hexadecimal digits of n. */
  function Hex(n: nat, w: nat): (s: string)
    requires n < Pow16(w)
    ensures |s| == w
  {
    if w == 0 then "" else Hex(n / 16, w - 1) + [Digit(n % 16)]
  }

  /** Redis compares members byte by byte. */
  predicate TextLess(a: string, b: string) {
    if b == "" then false
    else if a == "" then true
    else a[0] < b[0] || (a[0] == b[0] && TextLess(a[1..], b[1..]))
  }

  /** Texts of one length compare by their last character only when the rest is equal. */
  lemma {:induction false} LastCharacter(a: string, x: char, b: string, y: char)
    requires |a| == |b|
    ensures TextLess(a + [x], b + [y]) <==> TextLess(a, b) || (a == b && x < y)
  {
    if a != "" {
      LastCharacter(a[1..], x, b[1..], y);
      assert (a + [x])[1..] == a[1..] + [x] && (b + [y])[1..] == b[1..] + [y];
      assert a == b <==> a[0] == b[0] && a[1..] == b[1..];
    }
  }

  /** Ids of one width sort as text exactly as they sort as numbers, so entries may carry the number. */
  lemma {:induction false} HexOrder(n: nat, m: nat, w: nat)
    requires n < Pow16(w) && m < Pow16(w)
    ensures n < m <==> TextLess(Hex(n, w), Hex(m, w))
    ensures n == m <==> Hex(n, w) == Hex(m, w)
  {
    if w > 0 {
      HexOrder(n / 16, m / 16, w - 1);
      LastCharacter(Hex(n / 16, w - 1), Digit(n % 16), Hex(m / 16, w - 1), Digit(m % 16));
      assert Hex(n, w)[..w - 1] == Hex(n / 16, w - 1) && Hex(m, w)[..w - 1] == Hex(m / 16, w - 1);
      assert Hex(n, w)[w - 1] == Digit(n % 16) && Hex(m, w)[w - 1] == Digit(m % 16);
    }
  }

  /** A UUID has 32 hexadecimal digits; its dashes stand at fixed places and are left out here. */
  const UUID_DIGITS: nat := 32

  // ------------------------------------------------------------------ keys

  datatype RedisKey =
    | QueueKey(event: EventId)
    | RateKey(event: EventId)
    | ActiveKey(event: EventId)
    | CapacityKey(event: EventId)
    | TicketKey(ticket: TicketId)
    | LockKey(event: EventId)

  predicate IsKey(k: RedisKey) {
    k.TicketKey? ==> k.ticket < Pow16(UUID_DIGITS)
  }

  function Text(k: RedisKey): string
    requires IsKey(k)
  {
    match k
    case QueueKey(e) => "queue:" + e.name
    case RateKey(e) => "rate:" + e.name
    case ActiveKey(e) => "active:" + e.name
    case CapacityKey(e) => "capacity:" + e.name
    case TicketKey(t) => "ticket:" + Hex(t, UUID_DIGITS)
    case LockKey(e) => "scheduler:lock:" + e.name
  }

  lemma DropPrefix(p: string, a: string)
    ensures (p + a)[|p|..] == a
  {
  }

  /** No two keys share a name, whatever characters event ids contain. */
  lemma KeysDistinct(a: RedisKey, b: RedisKey)
    requires IsKey(a) && IsKey(b) && Text(a) == Text(b)
    ensures a == b
  {
    assert Text(a)[0] == Text(b)[0] && Text(a)[1] == Text(b)[1];
    match a
    case QueueKey(e) => DropPrefix("queue:", e.name); DropPrefix("queue:", b.event.name);
    case RateKey(e) => DropPrefix("rate:", e.name); DropPrefix("rate:", b.event.name);
    case ActiveKey(e) => DropPrefix("active:", e.name); DropPrefix("active:", b.event.name);
    case CapacityKey(e) => DropPrefix("capacity:", e.name); DropPrefix("capacity:", b.event.name);
    case LockKey(e) => DropPrefix("scheduler:lock:", e.name); DropPrefix("scheduler:lock:", b.event.name);
    case TicketKey(t) =>
      DropPrefix("ticket:", Hex(t, UUID_DIGITS));
      DropPrefix("ticket:", Hex(b.ticket, UUID_DIGITS));
      HexOrder(t, b.ticket, UUID_DIGITS);
  }

  function QueueTickChannel(e: EventId): string { "queue:tick:" + e.name }

  function TicketUpdatesChannel(t: TicketId): string
    requires t < Pow16(UUID_DIGITS)
  {
    "ticket:updates:" + Hex(t, UUID_DIGITS)
  }

  /**
   Taken as plain strings the constructors are not disjoint: a queue's tick channel shares its name with a key exactly
   if that is the queue key of an event whose id starts with tick:. A ticket's channel shares its name with no key of a
   ticket that exists; a request may name any text as its ticket, and then it needs to start with updates:. Redis
   keeps the two name spaces apart.
   */
  lemma ChannelsCollideIff(k: RedisKey, e: EventId, t: TicketId, u: string, v: string)
    requires IsKey(k) && t < Pow16(UUID_DIGITS)
    ensures Text(k) == QueueTickChannel(e) <==> k.QueueKey? && k.event.name == "tick:" + e.name
    ensures Text(k) != TicketUpdatesChannel(t)
    ensures QueueTickChannel(e) != TicketUpdatesChannel(t)
    ensures "ticket:" + u == "ticket:updates:" + v <==> u == "updates:" + v
  {
    TickChannel(k, e);
    TicketChannel(k, t);
    TextsCollide(u, v);
    assert QueueTickChannel(e)[0] == 'q';
  }

  lemma TextsCollide(u: string, v: string)
    ensures "ticket:" + u == "ticket:updates:" + v <==> u == "updates:" + v
  {
    assert "ticket:updates:" + v == "ticket:" + ("updates:" + v);
    DropPrefix("ticket:", u);
    DropPrefix("ticket:", "updates:" + v);
  }

  lemma TickChannel(k: RedisKey, e: EventId)
    requires IsKey(k)
    ensures Text(k) == QueueTickChannel(e) <==> k.QueueKey? && k.event.name == "tick:" + e.name
  {
    assert QueueTickChannel(e) == "queue:" + ("tick:" + e.name);
    assert QueueTickChannel(e)[0] == 'q';
    match k
    case QueueKey(f) =>
      DropPrefix("queue:", f.name);
      DropPrefix("queue:", "tick:" + e.name);
    case TicketKey(u) => assert Text(k)[0] == 't';
    case RateKey(_) => assert Text(k)[0] == 'r';
    case ActiveKey(_) => assert Text(k)[0] == 'a';
    case CapacityKey(_) => assert Text(k)[0] == 'c';
    case LockKey(_) => assert Text(k)[0] == 's';
  }

  lemma TicketChannel(k: RedisKey, t: TicketId)
    requires IsKey(k) && t < Pow16(UUID_DIGITS)
    ensures Text(k) != TicketUpdatesChannel(t)
  {
    assert TicketUpdatesChannel(t)[0] == 't' && TicketUpdatesChannel(t)[7] == 'u';
    match k
    case TicketKey(u) =>
      HexIsHex(u, UUID_DIGITS, 0);
      assert Text(k)[7] == Hex(u, UUID_DIGITS)[0];
    case QueueKey(_) => assert Text(k)[0] == 'q';
    case RateKey(_) => assert Text(k)[0] == 'r';
    case ActiveKey(_) => assert Text(k)[0] == 'a';
    case CapacityKey(_) => assert Text(k)[0] == 'c';
    case LockKey(_) => assert Text(k)[0] == 's';
  }

  lemma {:induction false} HexIsHex(n: nat, w: nat, i: nat)
    requires n < Pow16(w) && i < w
    ensures Hex(n, w)[i] <= 'f'
  {
    if i < w - 1 {
      HexIsHex(n / 16, w - 1, i);
    }
  }
}
