/** The lifetimes of internal/config/config.go, in milliseconds, and the machine integers of Go. */
module Config {
  /** Milliseconds since the epoch; every service is taken to read the same clock. */
  type Time = nat

  const TICKET_KEY_TTL: nat := 7_200_000
  const ADMISSION_USED_TTL: nat := 1_800_000
  const SCHEDULER_LOCK_TTL: nat := 10_000
  const ADMISSION_JWT_TTL: nat := 1_800_000
  const SESSION_JWT_TTL: nat := 1_800_000

  const INT64_MIN: int := -0x8000_0000_0000_0000
  const INT64_MAX: int := 0x7fff_ffff_ffff_ffff

  predicate Int64(n: int) { INT64_MIN <= n <= INT64_MAX }

  /** Go's int64 subtraction and addition wrap around. */
  function Wrap64(n: int): (r: int)
    ensures Int64(r) && (Int64(n) ==> r == n)
    ensures (r - n) % 0x1_0000_0000_0000_0000 == 0
  {
    (n - INT64_MIN) % 0x1_0000_0000_0000_0000 + INT64_MIN
  }

  function Min(a: int, b: int): int { if a <= b then a else b }

  function Max(a: int, b: int): int { if a >= b then a else b }
}
