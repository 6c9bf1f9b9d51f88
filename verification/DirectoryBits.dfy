// How narrow the directory's buckets may be, and the range of hashes one holds
// (internal/aghub/directory.go).
module DirectoryBits {
  import opened Basics

  const MIN_BUCKET: nat := 32
  const WHOLE_TABLE_BELOW: nat := 64

  const TWO_64: nat := 0x1_0000_0000_0000_0000

  // The first 64 bits of a hash.
  type Prefix64 = x: nat | x < TWO_64

  lemma TwoMore(n: nat)
    ensures Pow2(n + 2) == 4 * Pow2(n)
  {
    assert Pow2(n + 1) == 2 * Pow2(n);
  }

  lemma EightMore(n: nat)
    ensures Pow2(n + 8) == 256 * Pow2(n)
  {
    hide Pow2;
    TwoMore(n);
    TwoMore(n + 2);
    TwoMore(n + 4);
    TwoMore(n + 6);
  }

  lemma Pow64()
    ensures Pow2(64) == TWO_64
  {
    assert Pow2(0) == 1;
    hide Pow2;
    EightMore(0);
    EightMore(8);
    EightMore(16);
    EightMore(24);
    EightMore(32);
    EightMore(40);
    EightMore(48);
    EightMore(56);
  }

  // The b-bit prefix of p.
  function Bucket(p: Prefix64, b: nat): int
    requires b <= 64
  {
    p / Pow2(64 - b)
  }

  // The buckets of b-bit prefixes are the 2^b ranges of 2^(64 - b) of the hashes' first 64
  // bits, one after the other.
  lemma BucketIsRange(p: Prefix64, b: nat, c: nat)
    requires b <= 64
    ensures Bucket(p, b) == c <==> c * Pow2(64 - b) <= p < (c + 1) * Pow2(64 - b)
    ensures 0 <= Bucket(p, b) < Pow2(b)
  {
    BucketInRange(p, b);
    hide Pow2;
    QuotientIs(p, Pow2(64 - b), c);
  }

  // How many of ps are in bucket c of b-bit prefixes.
  function Count(ps: seq<Prefix64>, b: nat, c: int): nat
    requires b <= 64
  {
    if ps == [] then 0
    else Count(ps[..|ps| - 1], b, c) + if Bucket(ps[|ps| - 1], b) == c then 1 else 0
  }

  // Every bucket of b-bit prefixes is wide enough.
  ghost predicate Qualifies(ps: seq<Prefix64>, b: nat)
    requires b <= 64
  {
    forall c :: 0 <= c < Pow2(b) ==> Count(ps, b, c) >= MIN_BUCKET
  }

  // ---- buckets merge in pairs ----

  lemma Regroup(m: nat, h: nat, t: nat, r: nat)
    ensures m * (2 * h + t) + r == (2 * m) * h + (m * t + r)
  {
  }

  lemma Small(m: nat, t: nat, r: nat)
    requires t <= 1 && r < m
    ensures m * t + r < 2 * m
  {
  }

  lemma QuotientOf(p: nat, d: nat)
    requires d > 0
    ensures p == d * (p / d) + p % d && p / d >= 0
  {
  }

  lemma DivTwice(p: nat, m: nat)
    requires m > 0
    ensures p / (2 * m) == (p / m) / 2
  {
    QuotientOf(p, m);
    var q: nat, r: nat := p / m, p % m;
    Halves(p, m, q, r);
  }

  lemma Halves(p: nat, m: nat, q: nat, r: nat)
    requires m > 0 && p == m * q + r && r < m
    ensures p / (2 * m) == q / 2
  {
    var h: nat, t: nat := q / 2, q % 2;
    assert q == 2 * h + t;
    Regroup(m, h, t, r);
    Small(m, t, r);
    DivIs(p, 2 * m, h, m * t + r);
  }

  lemma Times(d: nat, a: nat, b: nat)
    requires a <= b
    ensures d * a <= d * b
  {
  }

  lemma DivAtLeast(n: nat, d: nat, k: nat)
    requires d > 0 && n >= k * d
    ensures n / d >= k
  {
    QuotientOf(n, d);
    var q := n / d;
    if q < k {
      Times(d, q + 1, k);
    }
  }

  lemma DivIs(p: nat, d: nat, q: nat, r: nat)
    requires d > 0 && p == d * q + r && r < d
    ensures p / d == q
  {
    QuotientOf(p, d);
    var q' := p / d;
    if q' > q {
      Times(d, q + 1, q');
    } else if q' < q {
      Times(d, q' + 1, q);
    }
  }

  lemma BucketHalves(p: Prefix64, b: nat)
    requires b < 64
    ensures Bucket(p, b) == Bucket(p, b + 1) / 2
  {
    assert Pow2(64 - b) == 2 * Pow2(64 - (b + 1));
    DivTwice(p, Pow2(64 - (b + 1)));
  }

  lemma {:induction false} BucketsMerge(ps: seq<Prefix64>, b: nat, c: int)
    requires b < 64
    ensures Count(ps, b, c) == Count(ps, b + 1, 2 * c) + Count(ps, b + 1, 2 * c + 1)
  {
    if ps != [] {
      BucketsMerge(ps[..|ps| - 1], b, c);
      BucketHalves(ps[|ps| - 1], b);
    }
  }

  lemma PowDivides(b: nat)
    ensures Pow2(b + 1) == 2 * Pow2(b)
  {
  }

  // Wide enough at b bits, a bucket of j bits is wider by the 2^(b-j) it merges.
  lemma {:induction false} MergedCount(ps: seq<Prefix64>, b: nat, j: nat, c: int)
    requires j <= b <= 64 && Qualifies(ps, b) && 0 <= c < Pow2(j)
    ensures Count(ps, j, c) >= MIN_BUCKET * Pow2(b - j)
    decreases b - j
  {
    if j < b {
      PowDivides(j);
      MergedCount(ps, b, j + 1, 2 * c);
      MergedCount(ps, b, j + 1, 2 * c + 1);
      BucketsMerge(ps, j, c);
      PowDivides(b - j - 1);
    }
  }

  // So the prefix lengths that qualify are all those up to some largest one.
  lemma QualifiesBelow(ps: seq<Prefix64>, b: nat, j: nat)
    requires j <= b <= 64 && Qualifies(ps, b)
    ensures Qualifies(ps, j)
  {
    forall c | 0 <= c < Pow2(j) ensures Count(ps, j, c) >= MIN_BUCKET {
      MergedCount(ps, b, j, c);
    }
  }

  lemma {:induction false} WholeTable(ps: seq<Prefix64>)
    ensures Count(ps, 0, 0) == |ps|
  {
    if ps != [] {
      WholeTable(ps[..|ps| - 1]);
      Pow64();
      DivIs(ps[|ps| - 1], Pow2(64), 0, ps[|ps| - 1]);
    }
  }

  lemma QualifiesNeeds(ps: seq<Prefix64>, b: nat)
    requires b <= 64 && Qualifies(ps, b)
    ensures |ps| / Pow2(b) >= MIN_BUCKET
  {
    MergedCount(ps, b, 0, 0);
    WholeTable(ps);
    DivAtLeast(|ps|, Pow2(b), MIN_BUCKET);
  }

  lemma BucketInRange(p: Prefix64, b: nat)
    requires b <= 64
    ensures 0 <= Bucket(p, b) < Pow2(b)
    decreases b
  {
    if b == 0 {
      Pow64();
      DivIs(p, Pow2(64), 0, p);
    } else {
      BucketHalves(p, b - 1);
      BucketInRange(p, b - 1);
    }
  }

  // dirMaxBits: the widest prefix at which every bucket is wide enough, although it
  // stops at the first that is not, and tries none for which there are too few.
  method DirMaxBits(prefixes: seq<Prefix64>) returns (best: nat)
    ensures best < 64
    ensures best > 0 ==> Qualifies(prefixes, best)
    ensures forall b :: best < b < 64 ==> !Qualifies(prefixes, b)
    ensures forall b :: 0 < b <= best ==> Qualifies(prefixes, b)
  {
    var n := |prefixes|;
    if n < WHOLE_TABLE_BELOW {
      NoneQualify(prefixes);
      return 0;
    }
    best := 0;
    var b := 1;
    while b < 64 && n / Pow2(b) >= MIN_BUCKET
      invariant 1 <= b <= 64 && best == b - 1
      invariant best > 0 ==> Qualifies(prefixes, best)
      decreases 64 - b
    {
      var counts := CountBuckets(prefixes, b);
      for c := 0 to counts.Length
        invariant forall i :: 0 <= i < c ==> Count(prefixes, b, i) >= MIN_BUCKET
      {
        if counts[c] < MIN_BUCKET {
          assert Count(prefixes, b, c) < MIN_BUCKET;
          BestIsLargest(prefixes, best);
          return;
        }
      }
      best := b;
      b := b + 1;
    }
    BestIsLargest(prefixes, best);
  }

  method CountBuckets(prefixes: seq<Prefix64>, b: nat) returns (counts: array<int>)
    requires 0 < b < 64
    ensures fresh(counts) && counts.Length == Pow2(b)
    ensures forall c :: 0 <= c < counts.Length ==> counts[c] == Count(prefixes, b, c)
  {
    counts := new int[Pow2(b)](_ => 0);
    for i := 0 to |prefixes|
      invariant forall c :: 0 <= c < counts.Length ==> counts[c] == Count(prefixes[..i], b, c)
    {
      BucketInRange(prefixes[i], b);
      var c := Bucket(prefixes[i], b);
      counts[c] := counts[c] + 1;
      assert prefixes[..i + 1][..i] == prefixes[..i];
    }
    assert prefixes[..|prefixes|] == prefixes;
  }

  lemma NoneQualify(ps: seq<Prefix64>)
    requires |ps| < WHOLE_TABLE_BELOW
    ensures forall b :: 0 < b < 64 ==> !Qualifies(ps, b)
  {
    forall b | 0 < b < 64 ensures !Qualifies(ps, b) {
      if Qualifies(ps, b) {
        QualifiesBelow(ps, b, 1);
        QualifiesNeeds(ps, 1);
      }
    }
  }

  // Nothing past best qualifies when best + 1 does not.
  lemma BestIsLargest(ps: seq<Prefix64>, best: nat)
    requires best < 64 && (best > 0 ==> Qualifies(ps, best))
    requires best + 1 < 64 ==> |ps| / Pow2(best + 1) < MIN_BUCKET || !Qualifies(ps, best + 1)
    ensures forall b :: best < b < 64 ==> !Qualifies(ps, b)
    ensures forall b :: 0 < b <= best ==> Qualifies(ps, b)
  {
    forall b | best < b < 64 ensures !Qualifies(ps, b) {
      if Qualifies(ps, b) {
        QualifiesBelow(ps, b, best + 1);
        QualifiesNeeds(ps, best + 1);
      }
    }
    forall b | 0 < b <= best ensures Qualifies(ps, b) {
      QualifiesBelow(ps, best, b);
    }
  }

  // ---- the range of a bucket ----

  type byte = bv8

  // bytes.Compare(a, b) <= 0, for two of one length.
  predicate AtMost(a: seq<byte>, b: seq<byte>)
    requires |a| == |b|
    decreases |a|
  {
    a == [] || a[0] < b[0] || (a[0] == b[0] && AtMost(a[1..], b[1..]))
  }

  // What CheckPrefix accepts: as many bytes as bits need, the rest of the last 0.
  predicate PrefixOk(prefix: seq<byte>, bits: nat) {
    && |prefix| == (bits + 7) / 8
    && (bits % 8 != 0 ==> prefix[|prefix| - 1] << (bits % 8) == 0)
  }

  // The first bits bits of h are those of prefix: its whole bytes, and the top of the
  // one after.
  predicate HasPrefix(h: seq<byte>, prefix: seq<byte>, bits: nat)
    requires |h| >= |prefix| == (bits + 7) / 8
  {
    && h[..bits / 8] == prefix[..bits / 8]
    && (bits % 8 != 0 ==> TopBits(h[bits / 8], bits % 8) == TopBits(prefix[bits / 8], bits % 8))
  }

  function TopBits(x: byte, r: nat): byte
    requires r < 8
  {
    x >> (8 - r)
  }

  // p with the bits after the first r set.
  function Filled(p: byte, r: nat): byte
    requires r < 8
  {
    p | (0xff >> r)
  }

  // The last byte of a prefix, with the bits it does not use 0, and the bytes of
  // the range it begins.
  lemma ByteRange(x: byte, p: byte, r: nat)
    requires 0 < r < 8 && p << r == 0
    ensures p <= x <= Filled(p, r) <==> TopBits(x, r) == TopBits(p, r)
    ensures p <= Filled(p, r)
  {
  }

  // ---- bucketRange ----

  function Zeros(n: nat): seq<byte> {
    seq(n, _ => 0)
  }

  function Ones(n: nat): seq<byte> {
    seq(n, _ => 0xff)
  }

  function Low(prefix: seq<byte>, n: nat): (r: seq<byte>)
    requires |prefix| <= n
    ensures |r| == n
  {
    prefix + Zeros(n - |prefix|)
  }

  function High(prefix: seq<byte>, bits: nat, n: nat): (r: seq<byte>)
    requires |prefix| == (bits + 7) / 8 <= n
    ensures |r| == n
  {
    var h := prefix + Ones(n - |prefix|);
    if bits % 8 == 0 then h
    else h[|prefix| - 1 := Filled(h[|prefix| - 1], bits % 8)]
  }

  lemma {:induction false} Extremes(h: seq<byte>)
    ensures AtMost(Zeros(|h|), h) && AtMost(h, Ones(|h|))
    decreases |h|
  {
    if h != [] {
      assert Zeros(|h|)[1..] == Zeros(|h| - 1);
      assert Ones(|h|)[1..] == Ones(|h| - 1);
      Extremes(h[1..]);
    }
  }

  lemma PrefixStep(h: seq<byte>, p: seq<byte>, bits: nat)
    requires |h| >= |p| == (bits + 7) / 8 && bits >= 8
    ensures HasPrefix(h, p, bits) <==> h[0] == p[0] && HasPrefix(h[1..], p[1..], bits - 8)
  {
    hide TopBits;
    var k := bits / 8;
    assert h[..k] == [h[0]] + h[1..][..k - 1];
    assert p[..k] == [p[0]] + p[1..][..k - 1];
  }

  lemma AtMostFirst(a: seq<byte>, b: seq<byte>)
    requires |a| == |b| > 0
    ensures AtMost(a, b) <==> a[0] < b[0] || (a[0] == b[0] && AtMost(a[1..], b[1..]))
  {
  }

  lemma OneByteRange(x: byte, p: seq<byte>, bits: nat)
    requires PrefixOk(p, bits) && 0 < bits < 8
    ensures |p| == 1 && p[0] <= Filled(p[0], bits)
    ensures p[0] <= x <= Filled(p[0], bits) <==> TopBits(x, bits) == TopBits(p[0], bits)
  {
    hide TopBits, Filled;
    ByteRange(x, p[0], bits);
  }

  lemma EndsOfByte(p: seq<byte>, bits: nat, n: nat)
    requires |p| == 1 <= n && 0 < bits < 8
    ensures Low(p, n)[0] == p[0] && Low(p, n)[1..] == Zeros(n - 1)
    ensures High(p, bits, n)[0] == Filled(p[0], bits) && High(p, bits, n)[1..] == Ones(n - 1)
  {
  }

  lemma PrefixOfByte(h: seq<byte>, p: seq<byte>, bits: nat)
    requires |p| == 1 <= |h| && 0 < bits < 8
    ensures HasPrefix(h, p, bits) <==> TopBits(h[0], bits) == TopBits(p[0], bits)
  {
    hide TopBits;
    assert h[..0] == p[..0];
  }

  lemma FromZeros(lo: seq<byte>, h: seq<byte>)
    requires |lo| == |h| > 0 && lo[1..] == Zeros(|h| - 1)
    ensures AtMost(lo, h) <==> lo[0] <= h[0]
  {
    AtMostFirst(lo, h);
    hide AtMost;
    Extremes(h[1..]);
  }

  lemma ToOnes(h: seq<byte>, hi: seq<byte>)
    requires |hi| == |h| > 0 && hi[1..] == Ones(|h| - 1)
    ensures AtMost(h, hi) <==> h[0] <= hi[0]
  {
    AtMostFirst(h, hi);
    hide AtMost;
    Extremes(h[1..]);
  }

  lemma RangeOfByte(h: seq<byte>, p: seq<byte>, bits: nat)
    requires PrefixOk(p, bits) && |p| == 1 <= |h| && 0 < bits < 8
    ensures AtMost(Low(p, |h|), h) && AtMost(h, High(p, bits, |h|)) <==> HasPrefix(h, p, bits)
  {
    hide *;
    OneByteRange(h[0], p, bits);
    EndsOfByte(p, bits, |h|);
    PrefixOfByte(h, p, bits);
    FromZeros(Low(p, |h|), h);
    ToOnes(h, High(p, bits, |h|));
  }

  lemma EndsRest(p: seq<byte>, bits: nat, n: nat)
    requires |p| == (bits + 7) / 8 <= n && bits >= 8
    ensures Low(p, n)[0] == High(p, bits, n)[0] == p[0]
    ensures Low(p, n)[1..] == Low(p[1..], n - 1)
    ensures High(p, bits, n)[1..] == High(p[1..], bits - 8, n - 1)
  {
  }

  lemma RangeOfAll(h: seq<byte>)
    ensures AtMost(Low([], |h|), h) && AtMost(h, High([], 0, |h|))
  {
    hide AtMost;
    Extremes(h);
    assert Low([], |h|) == Zeros(|h|) && High([], 0, |h|) == Ones(|h|);
  }

  lemma {:induction false} RangeIs(h: seq<byte>, p: seq<byte>, bits: nat)
    requires PrefixOk(p, bits) && |p| <= |h|
    ensures AtMost(Low(p, |h|), h) && AtMost(h, High(p, bits, |h|)) <==> HasPrefix(h, p, bits)
    decreases |p|
  {
    hide Low, High, AtMost;
    if bits == 0 {
      RangeOfAll(h);
      assert p == [];
    } else if bits < 8 {
      RangeOfByte(h, p, bits);
    } else {
      hide HasPrefix;
      var lo, hi := Low(p, |h|), High(p, bits, |h|);
      AtMostFirst(lo, h);
      AtMostFirst(h, hi);
      EndsRest(p, bits, |h|);
      PrefixRest(p, bits);
      RangeIs(h[1..], p[1..], bits - 8);
      PrefixStep(h, p, bits);
    }
  }

  lemma PrefixRest(p: seq<byte>, bits: nat)
    requires PrefixOk(p, bits) && bits >= 8
    ensures PrefixOk(p[1..], bits - 8)
  {
  }

  // bucketRange: a hash is between lo and hi exactly when it has the prefix.
  method BucketRange(prefix: seq<byte>, bits: nat, hashLen: nat) returns (lo: seq<byte>, hi: seq<byte>)
    requires PrefixOk(prefix, bits) && |prefix| <= hashLen
    ensures |lo| == hashLen && |hi| == hashLen
    ensures forall h: seq<byte> :: |h| == hashLen ==>
              (AtMost(lo, h) && AtMost(h, hi) <==> HasPrefix(h, prefix, bits))
  {
    lo := seq(hashLen, _ => 0);
    hi := seq(hashLen, _ => 0xff);
    lo := prefix + lo[|prefix|..];
    hi := prefix + hi[|prefix|..];
    var r := bits % 8;
    if r != 0 {
      hi := hi[|prefix| - 1 := hi[|prefix| - 1] | (0xff >> r)];
    }
    assert lo == Low(prefix, hashLen) && hi == High(prefix, bits, hashLen);
    forall h: seq<byte> | |h| == hashLen
      ensures AtMost(lo, h) && AtMost(h, hi) <==> HasPrefix(h, prefix, bits)
    {
      RangeIs(h, prefix, bits);
    }
  }
}
