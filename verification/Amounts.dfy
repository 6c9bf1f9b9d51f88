// The widths of the ledger's numbers (internal/aghub/amount.go) and the
// arithmetic on times that must not wrap (internal/aghub/facilitator.go).
module Amounts {
  import opened Basics
  import opened Sums

  const MAX_INT64: int := 0x7fff_ffff_ffff_ffff
  const MIN_INT64: int := -0x8000_0000_0000_0000
  const TWO_64: int := 0x1_0000_0000_0000_0000

  type int64 = x: int | MIN_INT64 <= x <= MAX_INT64
  type uint64 = x: int | 0 <= x < TWO_64

  // A reading of a hub's clock, in unix milliseconds: an int64 far enough from
  // either end that adding or subtracting a retention time stays one.
  type clock = x: int | -0x2000_0000_0000_0000 <= x <= 0x2000_0000_0000_0000

  const SETTLED_KEPT_AFTER: int := 7 * DAY
  const GUARD_KEPT: int := 30 * DAY
  const PEER_RECEIPT_MAX_AGE: int := 7 * DAY
  const CLEARED_KEPT_AFTER: int := 8 * DAY
  const MAX_AUTH_WINDOW: int := DAY

  // A wire amount as a ledger amount: only 1..2^63-1.
  function AmountInt64(n: uint64): Option<int64> {
    if n == 0 || n > MAX_INT64 then None else Some(n)
  }

  // The value a bare int64(n) conversion would give.
  function BareInt64(n: uint64): int64 {
    if n > MAX_INT64 then n - TWO_64 else n
  }

  // A ledger amount as a wire amount: only a positive row is stated.
  function StoredAmount(n: int64): Option<uint64> {
    if n <= 0 then None else Some(n)
  }

  // An amount is taken exactly when the bare conversion is positive, and then it
  // is that conversion, and reads back from the row as the amount it was.
  lemma AmountRoundTrip(n: uint64)
    ensures AmountInt64(n).Some? <==> BareInt64(n) > 0
    ensures AmountInt64(n).Some? ==> StoredAmount(AmountInt64(n).value) == Some(n)
    ensures StoredAmount(BareInt64(n)).Some? ==> StoredAmount(BareInt64(n)).value == n
  {
  }

  // The bounded addition to one row: None when the result would leave int64. The
  // bound is computed in int64, as the statement's parameter is, and a new row is
  // written as it is.
  function AddToRow<K(==)>(m: map<K, int>, k: K, delta: int64): (r: Option<map<K, int>>)
    requires k in m ==> MIN_INT64 <= m[k] <= MAX_INT64
    ensures r.Some? <==> delta != MIN_INT64 && MIN_INT64 <= Get(m, k) + delta <= MAX_INT64
    ensures r.Some? ==> r.value == Add(m, k, delta)
  {
    if delta == MIN_INT64 then None
    else if k !in m then Some(m[k := delta])
    else if delta < 0 then
      var bound: int64 := MIN_INT64 - delta;
      if m[k] >= bound then Some(m[k := m[k] + delta]) else None
    else
      var bound: int64 := MAX_INT64 - delta;
      if m[k] <= bound then Some(m[k := m[k] + delta]) else None
  }

  // The conversion of an int64 to a uint64, and subtraction of uint64s, both
  // modulo 2^64.
  function ToUint64(x: int64): uint64 {
    x % TWO_64
  }

  function SubUint64(a: uint64, b: uint64): uint64 {
    (a - b) % TWO_64
  }

  // authWindow: an authorization valid for longer than a day is refused.
  predicate WindowTooLong(issuedAt: int64, notAfter: int64) {
    notAfter > issuedAt && SubUint64(ToUint64(notAfter), ToUint64(issuedAt)) > MAX_AUTH_WINDOW
  }

  lemma Wraps(x: int64)
    ensures ToUint64(x) == if x < 0 then x + TWO_64 else x
  {
  }

  lemma WrapCancels(a: int64, b: int64)
    requires a > b
    ensures SubUint64(ToUint64(a), ToUint64(b)) == a - b
  {
    Wraps(a);
    Wraps(b);
    hide ToUint64;
  }

  // The wrap-around in the conversions cancels: for every two int64 times the
  // test is the one on the true difference.
  lemma WindowTooLongIsExact(issuedAt: int64, notAfter: int64)
    ensures WindowTooLong(issuedAt, notAfter) <==> notAfter - issuedAt > MAX_AUTH_WINDOW
  {
    hide SubUint64, ToUint64;
    if notAfter > issuedAt {
      WrapCancels(notAfter, issuedAt);
    }
  }

  // When a first verification, or a settled row, of an authorization valid until
  // notAfter is deleted.
  function FirstVerifyDeleteAfter(notAfter: int64): (r: int64)
    ensures r == if notAfter + SETTLED_KEPT_AFTER > MAX_INT64 then MAX_INT64 else notAfter + SETTLED_KEPT_AFTER
  {
    if notAfter > MAX_INT64 - SETTLED_KEPT_AFTER then MAX_INT64 else notAfter + SETTLED_KEPT_AFTER
  }
}
