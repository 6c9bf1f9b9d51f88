// The hub's token buckets (internal/aghub/limits.go): refilled when they are looked at,
// dropped when full, taken from one by one or all or none. Tokens and seconds are reals.
module TokenBuckets {
  // A bucket's key, with the set it is in.
  type Key = nat

  datatype RateOf = Rate(perSec: real, burst: real)
  type Rate = r: RateOf | r.perSec > 0.0 && r.burst >= 1.0 witness Rate(1.0, 1.0)

  datatype Bucket = Bucket(tokens: real, at: real, rate: Rate)
  type Buckets = map<Key, Bucket>

  function Min(a: real, b: real): real {
    if a < b then a else b
  }

  function Max(a: real, b: real): real {
    if a < b then b else a
  }

  // What a rate adds between two times.
  function Earned(r: Rate, from: real, to: real): real {
    (to - from) * r.perSec
  }

  lemma EarnedAdds(r: Rate, a: real, b: real, c: real)
    ensures Earned(r, a, c) == Earned(r, a, b) + Earned(r, b, c)
  {
    Apart(r.perSec, b - a, c - b);
  }

  lemma Apart(p: real, d: real, e: real)
    ensures (d + e) * p == d * p + e * p
  {
  }

  lemma EarnedSign(r: Rate, a: real, b: real)
    ensures a <= b ==> Earned(r, a, b) >= 0.0
    ensures a < b ==> Earned(r, a, b) > 0.0
    ensures a >= b ==> Earned(r, a, b) <= 0.0
  {
    if a <= b {
      Product(r.perSec, b - a);
    } else {
      Product(r.perSec, a - b);
      Apart(r.perSec, b - a, a - b);
    }
  }

  lemma Product(p: real, d: real)
    requires p > 0.0 && d >= 0.0
    ensures d * p >= 0.0 && (d > 0.0 ==> d * p > 0.0)
  {
  }

  // What a bucket holds at now, at rate r: full when there is none.
  function Refill(b: Bucket, r: Rate, now: real): real {
    Min(r.burst, if now > b.at then b.tokens + Earned(r, b.at, now) else b.tokens)
  }

  function Level(m: Buckets, key: Key, r: Rate, now: real): real {
    if key in m then Refill(m[key], r, now) else r.burst
  }

  // A bucket the sweep drops, and what it leaves.
  predicate Full(b: Bucket, now: real) {
    b.tokens + Earned(b.rate, b.at, now) >= b.rate.burst
  }

  function Swept(m: Buckets, now: real): Buckets {
    map k | k in m && !Full(m[k], now) :: m[k]
  }

  // The rate of every key, which does not change.
  type Rates = Key -> Rate

  // ---- operations ----

  datatype Op =
    | Take(key: Key)
    | TakeN(key: Key, n: real)
    | Refund(key: Key)
    | Debit(key: Key, n: real)
    | Forget(key: Key)
    | Sweep

  datatype Event = Event(op: Op, now: real)

  function Leave(m: Buckets, key: Key, r: Rate, now: real, tokens: real): Buckets {
    m[key := Bucket(tokens, now, r)]
  }

  // Whether a take is granted, and the buckets after.
  function Step(rates: Rates, m: Buckets, op: Op, now: real): (bool, Buckets) {
    match op
    case Take(key) =>
      var held := Level(m, key, rates(key), now);
      if held < 1.0 then (false, Leave(m, key, rates(key), now, held))
      else (true, Leave(m, key, rates(key), now, held - 1.0))
    case TakeN(key, n) =>
      var held, want := Level(m, key, rates(key), now), Min(n, rates(key).burst);
      if held < want then (false, Leave(m, key, rates(key), now, held))
      else (true, Leave(m, key, rates(key), now, held - want))
    case Refund(key) =>
      var held := Level(m, key, rates(key), now);
      (true, Leave(m, key, rates(key), now, Min(rates(key).burst, held + 1.0)))
    case Debit(key, n) =>
      var held := Level(m, key, rates(key), now);
      (true, Leave(m, key, rates(key), now, Max(0.0, held - n)))
    case Forget(key) => (true, m - {key})
    case Sweep => (true, Swept(m, now))
  }

  // Amounts are not negative: a request for less than nothing is not made.
  predicate OpOk(op: Op) {
    (op.TakeN? ==> op.n >= 0.0) && (op.Debit? ==> op.n >= 0.0)
  }

  predicate Timely(es: seq<Event>, t: real)
    decreases |es|
  {
    es == [] || (t <= es[0].now && OpOk(es[0].op) && Timely(es[1..], es[0].now))
  }

  function End(es: seq<Event>, t: real): real {
    if es == [] then t else es[|es| - 1].now
  }

  // The buckets were last looked at by t, at their keys' rates.
  ghost predicate Kept(rates: Rates, m: Buckets, t: real) {
    forall k :: k in m ==> m[k].at <= t && m[k].rate == rates(k) && 0.0 <= m[k].tokens <= m[k].rate.burst
  }

  // ---- refilling ----

  lemma RefillLater(b: Bucket, r: Rate, now: real, later: real)
    requires b.at <= now <= later
    ensures Refill(b, r, later) == Min(r.burst, Refill(b, r, now) + Earned(r, now, later))
  {
    hide Earned;
    EarnedAdds(r, b.at, now, later);
    EarnedSign(r, b.at, now);
    EarnedSign(r, now, later);
    EarnedSign(r, b.at, later);
  }

  lemma RefillBetween(b: Bucket, r: Rate, now: real)
    requires b.at <= now && 0.0 <= b.tokens <= r.burst
    ensures 0.0 <= Refill(b, r, now) <= r.burst
  {
    hide Earned;
    EarnedSign(r, b.at, now);
  }

  // Looking at a bucket in between changes nothing about what it holds later.
  lemma LevelLater(rates: Rates, m: Buckets, key: Key, now: real, later: real)
    requires Kept(rates, m, now) && now <= later
    ensures Level(m, key, rates(key), later) ==
            Min(rates(key).burst, Level(m, key, rates(key), now) + Earned(rates(key), now, later))
    ensures 0.0 <= Level(m, key, rates(key), now) <= rates(key).burst
  {
    hide Earned, Refill;
    EarnedSign(rates(key), now, later);
    if key in m {
      RefillLater(m[key], rates(key), now, later);
      RefillBetween(m[key], rates(key), now);
    }
  }

  // ---- the sweep cannot be observed ----

  // The two hold the same at t, for every key.
  ghost predicate SameLevels(rates: Rates, a: Buckets, b: Buckets, t: real) {
    forall k :: Level(a, k, rates(k), t) == Level(b, k, rates(k), t)
  }

  lemma SameLater(rates: Rates, a: Buckets, b: Buckets, t: real, later: real)
    requires Kept(rates, a, t) && Kept(rates, b, t) && SameLevels(rates, a, b, t) && t <= later
    ensures SameLevels(rates, a, b, later) && Kept(rates, a, later) && Kept(rates, b, later)
  {
    forall k ensures Level(a, k, rates(k), later) == Level(b, k, rates(k), later) {
      LevelLater(rates, a, k, t, later);
      LevelLater(rates, b, k, t, later);
    }
  }

  lemma SweptSame(rates: Rates, m: Buckets, now: real)
    requires Kept(rates, m, now)
    ensures SameLevels(rates, Swept(m, now), m, now) && Kept(rates, Swept(m, now), now)
  {
  }

  lemma LeaveLevel(rates: Rates, m: Buckets, key: Key, now: real, tokens: real, k: Key)
    requires 0.0 <= tokens <= rates(key).burst
    ensures Level(Leave(m, key, rates(key), now, tokens), k, rates(k), now) ==
            if k == key then tokens else Level(m, k, rates(k), now)
  {
  }

  lemma LeaveKept(rates: Rates, m: Buckets, key: Key, now: real, tokens: real)
    requires Kept(rates, m, now) && 0.0 <= tokens <= rates(key).burst
    ensures Kept(rates, Leave(m, key, rates(key), now, tokens), now)
  {
  }

  // What an operation leaves in the bucket it is about.
  function Result(op: Op, held: real, r: Rate): real {
    match op
    case Take(_) => if held < 1.0 then held else held - 1.0
    case TakeN(_, n) => if held < Min(n, r.burst) then held else held - Min(n, r.burst)
    case Refund(_) => Min(r.burst, held + 1.0)
    case Debit(_, n) => Max(0.0, held - n)
    case _ => held
  }

  predicate Grants(op: Op, held: real, r: Rate) {
    match op
    case Take(_) => held >= 1.0
    case TakeN(_, n) => held >= Min(n, r.burst)
    case _ => true
  }

  lemma StepIs(rates: Rates, m: Buckets, op: Op, now: real, k: Key)
    requires Kept(rates, m, now) && OpOk(op)
    ensures Kept(rates, Step(rates, m, op, now).1, now)
    ensures op.Sweep? || op.Forget? ||
            Step(rates, m, op, now).0 == Grants(op, Level(m, op.key, rates(op.key), now), rates(op.key))
    ensures Level(Step(rates, m, op, now).1, k, rates(k), now) ==
              if op.Sweep? || op.key != k then Level(m, k, rates(k), now)
              else if op.Forget? then rates(k).burst
              else Result(op, Level(m, k, rates(k), now), rates(k))
  {
    if op.Sweep? {
      SweptSame(rates, m, now);
    } else if !op.Forget? {
      var key := op.key;
      LevelLater(rates, m, key, now, now);
      var left := Result(op, Level(m, key, rates(key), now), rates(key));
      LeaveKept(rates, m, key, now, left);
      LeaveLevel(rates, m, key, now, left, k);
    }
  }

  // A key never seen holds its burst, and what a bucket holds grows by its rate, up to that.
  lemma RefillsAtItsRate(rates: Rates, m: Buckets, key: Key, now: real, later: real)
    requires Kept(rates, m, now) && now <= later
    ensures var r := rates(key); var full := Level(m, key, r, now) + (later - now) * r.perSec;
            Level(m, key, r, later) == if full < r.burst then full else r.burst
    ensures key !in m ==> Level(m, key, rates(key), now) == rates(key).burst
  {
    LevelLater(rates, m, key, now, later);
  }

  // A take is granted exactly when the bucket holds a token, and of n when it holds as many,
  // or is full when it never could; then that many are gone, and else none. A refund adds a
  // token up to the burst; a debit takes what there is; a forgotten bucket is full. No other
  // key notices.
  lemma OperationsAreExact(rates: Rates, m: Buckets, op: Op, now: real, k: Key)
    requires Kept(rates, m, now) && OpOk(op) && !op.Sweep?
    ensures var (granted, m') := Step(rates, m, op, now); var r := rates(op.key);
            var held, left := Level(m, op.key, r, now), Level(m', op.key, r, now);
            && (match op
                case Take(_) => (granted <==> held >= 1.0) && left == held - if granted then 1.0 else 0.0
                case TakeN(_, n) =>
                  var want := if n < r.burst then n else r.burst;
                  (granted <==> held >= want) && left == held - if granted then want else 0.0
                case Refund(_) => left == if held + 1.0 < r.burst then held + 1.0 else r.burst
                case Debit(_, n) => left == if held > n then held - n else 0.0
                case Forget(_) => left == r.burst)
            && (k != op.key ==> Level(m', k, rates(k), now) == Level(m, k, rates(k), now))
  {
    LevelLater(rates, m, op.key, now, now);
    StepIs(rates, m, op, now, op.key);
    StepIs(rates, m, op, now, k);
    hide Step, Level, Kept;
  }

  // The answers of a run, and the buckets after it.
  function Answers(rates: Rates, m: Buckets, es: seq<Event>): seq<bool>
    decreases |es|
  {
    if es == [] then []
    else
      var (granted, m') := Step(rates, m, es[0].op, es[0].now);
      (if es[0].op.Sweep? then [] else [granted]) + Answers(rates, m', es[1..])
  }

  function Run(rates: Rates, m: Buckets, es: seq<Event>): Buckets
    decreases |es|
  {
    if es == [] then m else Run(rates, Step(rates, m, es[0].op, es[0].now).1, es[1..])
  }

  function NoSweeps(es: seq<Event>): seq<Event> {
    if es == [] then []
    else (if es[0].op.Sweep? then [] else [es[0]]) + NoSweeps(es[1..])
  }

  // Every answer of a run is the answer without the sweeps, and the buckets after it
  // hold the same.
  lemma {:induction false} SweepsUnobservable(rates: Rates, a: Buckets, b: Buckets, es: seq<Event>, t: real)
    requires Kept(rates, a, t) && Kept(rates, b, t) && SameLevels(rates, a, b, t) && Timely(es, t)
    ensures Answers(rates, a, es) == Answers(rates, b, NoSweeps(es))
    ensures SameLevels(rates, Run(rates, a, es), Run(rates, b, NoSweeps(es)), End(es, t))
    decreases |es|
  {
    hide Step, SameLevels, Kept;
    if es != [] {
      var op, now := es[0].op, es[0].now;
      SameLater(rates, a, b, t, now);
      var a' := Step(rates, a, op, now).1;
      StepAgrees(rates, a, b, op, now);
      assert End(es, t) == End(es[1..], now);
      if op.Sweep? {
        SweepsUnobservable(rates, a', b, es[1..], now);
        assert [] + NoSweeps(es[1..]) == NoSweeps(es[1..]);
        assert [] + Answers(rates, a', es[1..]) == Answers(rates, a', es[1..]);
      } else {
        var b' := Step(rates, b, op, now).1;
        SweepsUnobservable(rates, a', b', es[1..], now);
        assert NoSweeps(es)[0] == es[0] && NoSweeps(es)[1..] == NoSweeps(es[1..]);
      }
    }
  }

  lemma StepAgrees(rates: Rates, a: Buckets, b: Buckets, op: Op, now: real)
    requires Kept(rates, a, now) && Kept(rates, b, now) && SameLevels(rates, a, b, now) && OpOk(op)
    ensures var a' := Step(rates, a, op, now).1; Kept(rates, a', now) && (op.Sweep? ==> SameLevels(rates, a', b, now))
    ensures !op.Sweep? ==>
              var (ga, a') := Step(rates, a, op, now); var (gb, b') := Step(rates, b, op, now);
              ga == gb && Kept(rates, b', now) && SameLevels(rates, a', b', now)
  {
    hide Step;
    var a', b' := Step(rates, a, op, now).1, Step(rates, b, op, now).1;
    if op.Forget? {
      ForgetGrants(rates, a, op, now);
      ForgetGrants(rates, b, op, now);
    }
    StepIs(rates, a, op, now, 0);
    StepIs(rates, b, op, now, 0);
    forall k
      ensures op.Sweep? ==> Level(a', k, rates(k), now) == Level(b, k, rates(k), now)
      ensures !op.Sweep? ==> Level(a', k, rates(k), now) == Level(b', k, rates(k), now)
    {
      StepIs(rates, a, op, now, k);
      StepIs(rates, b, op, now, k);
    }
  }

  lemma ForgetGrants(rates: Rates, m: Buckets, op: Op, now: real)
    requires op.Forget?
    ensures Step(rates, m, op, now).0
  {
  }

  // ---- how much a key can take ----

  // What one operation took from key's bucket, and gave it.
  function Paid(rates: Rates, m: Buckets, op: Op, now: real, key: Key): real {
    if Step(rates, m, op, now).0 && !op.Sweep? && op.key == key then Cost(op, rates(key)) else 0.0
  }

  function GivenBy(op: Op, key: Key, r: Rate): real {
    if op == Refund(key) then 1.0 else if op == Forget(key) then r.burst else 0.0
  }

  // What the takes granted for key in a run took, what was refunded, and how often its
  // bucket was forgotten.
  function Taken(rates: Rates, m: Buckets, es: seq<Event>, key: Key): real
    decreases |es|
  {
    if es == [] then 0.0
    else
      var m' := Step(rates, m, es[0].op, es[0].now).1;
      Taken(rates, m', es[1..], key) + Paid(rates, m, es[0].op, es[0].now, key)
  }

  function Cost(op: Op, r: Rate): real {
    match op
    case Take(_) => 1.0
    case TakeN(_, n) => Min(n, r.burst)
    case _ => 0.0
  }

  function Given(es: seq<Event>, key: Key, r: Rate): real {
    if es == [] then 0.0
    else
      Given(es[1..], key, r) + GivenBy(es[0].op, key, r)
  }

  lemma StepPays(rates: Rates, m: Buckets, op: Op, now: real, key: Key)
    requires Kept(rates, m, now) && OpOk(op)
    ensures Paid(rates, m, op, now, key) + Level(Step(rates, m, op, now).1, key, rates(key), now) <=
            Level(m, key, rates(key), now) + GivenBy(op, key, rates(key))
  {
    hide Step, Level;
    LevelLater(rates, m, key, now, now);
    StepIs(rates, m, op, now, key);
  }

  // What a bucket holds at the end of a run is at most what it held, and what it was
  // refilled by and given, less what was taken.
  lemma {:induction false} TakenIsPaidFor(rates: Rates, m: Buckets, es: seq<Event>, t: real, key: Key)
    requires Kept(rates, m, t) && Timely(es, t)
    ensures Kept(rates, Run(rates, m, es), End(es, t)) && t <= End(es, t)
    ensures Taken(rates, m, es, key) + Level(Run(rates, m, es), key, rates(key), End(es, t)) <=
            Level(m, key, rates(key), t) + Earned(rates(key), t, End(es, t)) + Given(es, key, rates(key))
    decreases |es|
  {
    hide Step, Level, Kept, Paid, GivenBy, Earned;
    EarnedSign(rates(key), t, t);
    if es != [] {
      var op, now := es[0].op, es[0].now;
      var m' := Step(rates, m, op, now).1;
      LevelLater(rates, m, key, t, now);
      KeptLater(rates, m, t, now);
      StepIs(rates, m, op, now, key);
      StepPays(rates, m, op, now, key);
      TakenIsPaidFor(rates, m', es[1..], now, key);
      EarnedAdds(rates(key), t, now, End(es, t));
      assert End(es, t) == End(es[1..], now);
    }
  }

  lemma KeptLater(rates: Rates, m: Buckets, t: real, later: real)
    requires Kept(rates, m, t) && t <= later
    ensures Kept(rates, m, later)
  {
  }

  function Forgets(keys: seq<Key>, now: real): seq<Event> {
    seq(|keys|, i requires 0 <= i < |keys| => Event(Forget(keys[i]), now))
  }

  // A restart of the hub, which leaves no buckets, is the forgetting of every key; so what
  // holds of runs holds across restarts, each of which gives every key its burst.
  lemma {:induction false} RestartForgets(rates: Rates, m: Buckets, keys: seq<Key>, now: real)
    requires forall k :: k in m ==> k in keys
    ensures Run(rates, m, Forgets(keys, now)) == map[]
    decreases |keys|
  {
    if keys != [] {
      assert Forgets(keys, now)[1..] == Forgets(keys[1..], now);
      RestartForgets(rates, m - {keys[0]}, keys[1..], now);
    }
  }

  // So in any stretch of a run of length T, at a constant rate and a clock that does not
  // step back, a key takes at most its burst, and its rate over T, and what it is given
  // back.
  lemma TakesBounded(rates: Rates, m: Buckets, es: seq<Event>, t: real, key: Key)
    requires Kept(rates, m, t) && Timely(es, t)
    ensures Taken(rates, m, es, key) <=
            rates(key).burst + (End(es, t) - t) * rates(key).perSec + Given(es, key, rates(key))
  {
    TakenIsPaidFor(rates, m, es, t, key);
    LevelLater(rates, m, key, t, t);
    LevelLater(rates, Run(rates, m, es), key, End(es, t), End(es, t));
  }
}
