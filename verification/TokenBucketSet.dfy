// The bucket set as the hub runs it, and the all-or-none take from several buckets at
// one instant.
module TokenBucketSet {
  import opened TokenBuckets

  const SWEEP_AFTER: real := 60.0

  // The buckets once the sweep that is due, if one is, has run.
  function Due(m: Buckets, swept: real, now: real): Buckets {
    if now - swept > SWEEP_AFTER then Swept(m, now) else m
  }

  lemma DueSame(rates: Rates, m: Buckets, swept: real, now: real)
    requires Kept(rates, m, now)
    ensures SameLevels(rates, Due(m, swept, now), m, now) && Kept(rates, Due(m, swept, now), now)
  {
  }

  lemma Divided(a: real, p: real)
    requires a > 0.0 && p > 0.0
    ensures a / p > 0.0 && (a / p) * p == a
  {
  }

  lemma Shorter(p: real, d: real, e: real)
    requires p > 0.0 && d < e
    ensures d * p < e * p
  {
  }

  // What is short is earned exactly when the wait is over.
  lemma WaitEarns(r: Rate, short: real, now: real, later: real)
    requires short > 0.0
    ensures short / r.perSec > 0.0
    ensures Earned(r, now, later) >= short <==> later - now >= short / r.perSec
  {
    var wait := short / r.perSec;
    Divided(short, r.perSec);
    if later - now < wait {
      Shorter(r.perSec, later - now, wait);
    } else if later - now > wait {
      Shorter(r.perSec, wait, later - now);
    }
  }

  // A bucket that refused has the token when the wait it told is over, and not before.
  lemma WaitIsExact(rates: Rates, m: Buckets, key: Key, now: real, later: real)
    requires Kept(rates, m, now) && Level(m, key, rates(key), now) < 1.0 && now <= later
    ensures var wait := (1.0 - Level(m, key, rates(key), now)) / rates(key).perSec;
            wait > 0.0 && (Level(m, key, rates(key), later) >= 1.0 <==> later - now >= wait)
  {
    hide Level, Kept, Earned;
    LevelLater(rates, m, key, now, later);
    WaitEarns(rates(key), 1.0 - Level(m, key, rates(key), now), now, later);
  }

  function Count(ts: seq<Key>, k: Key): nat {
    if ts == [] then 0 else Count(ts[..|ts| - 1], k) + if ts[|ts| - 1] == k then 1 else 0
  }

  // m holds, of every key, what was holds less taken of it.
  ghost predicate Less(rates: Rates, was: Buckets, m: Buckets, now: real, taken: Key -> int) {
    Kept(rates, m, now) && forall k :: Level(m, k, rates(k), now) == Level(was, k, rates(k), now) - taken(k) as real
  }

  function CountOf(ts: seq<Key>): Key -> int {
    (k: Key) => Count(ts, k)
  }

  function Owing(ts: seq<Key>, back: seq<Key>): Key -> int {
    (k: Key) => Count(ts, k) - Count(back, k)
  }

  lemma CountMore(ts: seq<Key>, key: Key, k: Key)
    ensures Count(ts + [key], k) == Count(ts, k) + if k == key then 1 else 0
  {
    assert (ts + [key])[..|ts|] == ts;
  }

  // What a take or a refund of key leaves in k's bucket, after the sweep that is due.
  lemma OneMore(rates: Rates, m: Buckets, now: real, swept: real, op: Op, k: Key)
    requires Kept(rates, m, now) && (op.Take? || op.Refund?)
    ensures var (granted, m') := Step(rates, Due(m, swept, now), op, now); var r := rates(op.key);
            && Kept(rates, m', now)
            && (op.Take? ==> granted == (Level(m, op.key, r, now) >= 1.0))
            && Level(m', k, rates(k), now) ==
                 if op.key == k then Result(op, Level(m, k, rates(k), now), rates(k)) else Level(m, k, rates(k), now)
  {
    hide Step, Due, Kept;
    DueSame(rates, m, swept, now);
    var d := Due(m, swept, now);
    LevelSame(rates, d, m, now, k);
    LevelSame(rates, d, m, now, op.key);
    hide Level, SameLevels;
    StepIs(rates, d, op, now, k);
  }

  lemma LevelSame(rates: Rates, a: Buckets, b: Buckets, t: real, k: Key)
    requires SameLevels(rates, a, b, t)
    ensures Level(a, k, rates(k), t) == Level(b, k, rates(k), t)
  {
  }

  // One more take, when every take so far was granted.
  lemma TakeOneMore(rates: Rates, was: Buckets, m: Buckets, now: real, swept: real, done: seq<Key>, key: Key)
    requires Kept(rates, was, now) && Less(rates, was, m, now, CountOf(done))
    ensures var (granted, m') := Step(rates, Due(m, swept, now), Take(key), now);
            && (granted <==> Level(was, key, rates(key), now) >= Count(done + [key], key) as real)
            && Less(rates, was, m', now, CountOf(if granted then done + [key] else done))
  {
    var (granted, m') := Step(rates, Due(m, swept, now), Take(key), now);
    hide Step, Level, Kept, Due;
    OneMore(rates, m, now, swept, Take(key), key);
    CountMore(done, key, key);
    forall k ensures Level(m', k, rates(k), now) ==
                     Level(was, k, rates(k), now) - CountOf(if granted then done + [key] else done)(k) as real {
      OneMore(rates, m, now, swept, Take(key), k);
      CountMore(done, key, k);
    }
  }

  // One refund more of what was taken.
  lemma RefundOneMore(rates: Rates, was: Buckets, m: Buckets, now: real, swept: real,
                      ts: seq<Key>, back: seq<Key>, key: Key)
    requires Kept(rates, was, now) && Less(rates, was, m, now, Owing(ts, back)) && Count(back, key) < Count(ts, key)
    ensures Less(rates, was, Step(rates, Due(m, swept, now), Refund(key), now).1, now, Owing(ts, back + [key]))
  {
    var m' := Step(rates, Due(m, swept, now), Refund(key), now).1;
    LevelLater(rates, was, key, now, now);
    hide Step, Level, Kept, Due, Count;
    OneMore(rates, m, now, swept, Refund(key), key);
    forall k ensures Level(m', k, rates(k), now) == Level(was, k, rates(k), now) - Owing(ts, back + [key])(k) as real {
      OneMore(rates, m, now, swept, Refund(key), k);
      CountMore(back, key, k);
    }
  }

  // Every bucket of the first n holds as many tokens as it is named for among them.
  ghost predicate Affords(rates: Rates, was: Buckets, now: real, ts: seq<Key>, n: nat)
    requires n <= |ts|
  {
    forall i :: 0 <= i < n ==> Level(was, ts[i], rates(ts[i]), now) >= Count(ts[..i + 1], ts[i]) as real
  }

  lemma AffordsNext(rates: Rates, was: Buckets, now: real, ts: seq<Key>, n: nat)
    requires n < |ts| && Affords(rates, was, now, ts, n)
    ensures Affords(rates, was, now, ts, n + 1) <==>
              Level(was, ts[n], rates(ts[n]), now) >= Count(ts[..n] + [ts[n]], ts[n]) as real
  {
    assert ts[..n] + [ts[n]] == ts[..n + 1];
  }

  lemma AffordsAll(rates: Rates, was: Buckets, now: real, ts: seq<Key>, n: nat)
    requires n <= |ts| && Affords(rates, was, now, ts, |ts|)
    ensures Affords(rates, was, now, ts, n)
  {
  }

  lemma {:induction false} CountsGrow(ts: seq<Key>, n: nat, k: Key)
    requires n <= |ts|
    ensures Count(ts[..n], k) <= Count(ts, k)
    ensures n < |ts| && ts[n] == k ==> Count(ts[..n], k) < Count(ts, k)
    decreases |ts|
  {
    if n < |ts| {
      if n == |ts| - 1 {
      } else {
        assert ts[..|ts| - 1][..n] == ts[..n];
        CountsGrow(ts[..|ts| - 1], n, k);
      }
    } else {
      assert ts[..n] == ts;
    }
  }

  class BucketSet {
    const rates: Rates
    var buckets: Buckets
    var swept: real

    constructor (rates: Rates, now: real)
      ensures this.rates == rates && buckets == map[]
    {
      this.rates, buckets, swept := rates, map[], 0.0;
    }

    // level: key's bucket refilled to now, and the sweep when it is due.
    method Refilled(key: Key, now: real) returns (held: real)
      modifies this
      ensures held == Level(Due(old(buckets), old(swept), now), key, rates(key), now)
      ensures buckets == Leave(Due(old(buckets), old(swept), now), key, rates(key), now, held)
      ensures swept == if now - old(swept) > SWEEP_AFTER then now else old(swept)
    {
      hide Earned;
      if now - swept > SWEEP_AFTER {
        ghost var was := buckets;
        var todo := buckets.Keys;
        while todo != {}
          invariant forall k :: k in buckets <==> k in was && (k in todo || !Full(was[k], now))
          invariant forall k :: k in buckets ==> buckets[k] == was[k]
          invariant todo <= was.Keys
          decreases todo
        {
          var k :| k in todo;
          todo := todo - {k};
          if buckets[k].tokens + Earned(buckets[k].rate, buckets[k].at, now) >= buckets[k].rate.burst {
            buckets := buckets - {k};
          }
        }
        assert buckets == Swept(was, now);
        swept := now;
      }
      var r := rates(key);
      var x := if key in buckets then buckets[key] else Bucket(r.burst, now, r);
      if now - x.at > 0.0 {
        x := x.(tokens := x.tokens + Earned(r, x.at, now));
      }
      held := Min(r.burst, x.tokens);
      buckets := buckets[key := Bucket(held, now, r)];
    }

    method Peek(key: Key, now: real) returns (empty: bool, wait: real)
      requires Kept(rates, buckets, now)
      ensures empty <==> Level(buckets, key, rates(key), now) < 1.0
      ensures empty ==> wait > 0.0 && forall later :: now <= later ==>
                (Level(buckets, key, rates(key), later) >= 1.0 <==> later - now >= wait)
    {
      if key !in buckets {
        return false, 0.0;
      }
      var held := Refill(buckets[key], rates(key), now);
      if held >= 1.0 {
        return false, 0.0;
      }
      forall later: real | now <= later
        ensures (1.0 - held) / rates(key).perSec > 0.0
        ensures Level(buckets, key, rates(key), later) >= 1.0 <==> later - now >= (1.0 - held) / rates(key).perSec
      {
        WaitIsExact(rates, buckets, key, now, later);
      }
      WaitIsExact(rates, buckets, key, now, now);
      return true, (1.0 - held) / rates(key).perSec;
    }

    method Take(key: Key, now: real) returns (ok: bool)
      modifies this
      ensures ok == Step(rates, Due(old(buckets), old(swept), now), TokenBuckets.Take(key), now).0
      ensures buckets == Step(rates, Due(old(buckets), old(swept), now), TokenBuckets.Take(key), now).1
    {
      var held := Refilled(key, now);
      if held < 1.0 {
        return false;
      }
      buckets := buckets[key := Bucket(held - 1.0, now, rates(key))];
      return true;
    }

    method Refund(key: Key, now: real)
      modifies this
      ensures buckets == Step(rates, Due(old(buckets), old(swept), now), TokenBuckets.Refund(key), now).1
    {
      var held := Refilled(key, now);
      buckets := buckets[key := Bucket(Min(rates(key).burst, held + 1.0), now, rates(key))];
    }

    method RefundAll(ts: seq<Key>, n: nat, now: real, ghost was: Buckets)
      requires n <= |ts| && Kept(rates, was, now)
      requires Less(rates, was, buckets, now, CountOf(ts[..n]))
      modifies this
      ensures Less(rates, was, buckets, now, _ => 0)
    {
      hide Less, Kept, Step;
      NoneBack(rates, was, buckets, now, ts[..n]);
      for i := 0 to n
        invariant Less(rates, was, buckets, now, Owing(ts[..n], ts[..i]))
      {
        assert ts[..n][..i] == ts[..i];
        CountsGrow(ts[..n], i, ts[i]);
        RefundOneMore(rates, was, buckets, now, swept, ts[..n], ts[..i], ts[i]);
        assert ts[..i] + [ts[i]] == ts[..i + 1];
        Refund(ts[i], now);
      }
      AllBack(rates, was, buckets, now, ts[..n]);
    }

    lemma NoneBack(rates: Rates, was: Buckets, m: Buckets, now: real, ts: seq<Key>)
      requires Less(rates, was, m, now, CountOf(ts))
      ensures Less(rates, was, m, now, Owing(ts, []))
    {
    }

    lemma AllBack(rates: Rates, was: Buckets, m: Buckets, now: real, ts: seq<Key>)
      requires Less(rates, was, m, now, Owing(ts, ts))
      ensures Less(rates, was, m, now, _ => 0)
    {
    }

    // takeAll, at one instant: a token from every bucket of ts, as often as it is named,
    // exactly when every one holds as many as it is named for; else none from any.
    method TakeAll(ts: seq<Key>, now: real) returns (failed: int)
      requires Kept(rates, buckets, now)
      modifies this
      ensures failed == -1 || 0 <= failed < |ts|
      ensures failed == -1 ==> Less(rates, old(buckets), buckets, now, CountOf(ts))
      ensures failed >= 0 ==> Less(rates, old(buckets), buckets, now, _ => 0)
      ensures failed == -1 <==> Affords(rates, old(buckets), now, ts, |ts|)
      ensures failed >= 0 ==>
                Affords(rates, old(buckets), now, ts, failed) && !Affords(rates, old(buckets), now, ts, failed + 1)
    {
      hide Less, Kept, Step, Level, Count, Affords;
      ghost var was := buckets;
      NothingTaken(rates, was, now, ts);
      for i := 0 to |ts|
        invariant Less(rates, was, buckets, now, CountOf(ts[..i])) && Affords(rates, was, now, ts, i)
      {
        TakeOneMore(rates, was, buckets, now, swept, ts[..i], ts[i]);
        AffordsNext(rates, was, now, ts, i);
        assert ts[..i] + [ts[i]] == ts[..i + 1];
        var ok := Take(ts[i], now);
        if !ok {
          RefundAll(ts, i, now, was);
          if Affords(rates, was, now, ts, |ts|) {
            AffordsAll(rates, was, now, ts, i + 1);
          }
          return i;
        }
      }
      assert ts[..|ts|] == ts;
      return -1;
    }

    lemma NothingTaken(rates: Rates, m: Buckets, now: real, ts: seq<Key>)
      requires Kept(rates, m, now)
      ensures Less(rates, m, m, now, CountOf(ts[..0])) && Affords(rates, m, now, ts, 0)
    {
    }
  }
}
