// The admission counters through every run of reservations, failures, commits and day
// rolls.
module AdmissionGateSafety {
  import opened Basics
  import opened Sums
  import opened AdmissionGate

  // ---- totals ----

  lemma TotalMore(taken: seq<Taken>, t: Taken, weight: Taken -> nat)
    ensures Total(taken + [t], weight) == Total(taken, weight) + weight(t)
  {
  }

  lemma {:induction false} TotalChange(taken: seq<Taken>, i: nat, t: Taken, weight: Taken -> nat)
    requires i < |taken|
    ensures Total(taken[i := t], weight) == Total(taken, weight) - weight(taken[i]) + weight(t)
    ensures weight(taken[i]) <= Total(taken, weight)
    decreases |taken|
  {
    var rest := taken[..|taken| - 1];
    if i == |rest| {
      assert taken[i := t][..|rest|] == rest;
    } else {
      TotalChange(rest, i, t, weight);
      assert taken[i := t][..|rest|] == rest[i := t];
    }
  }

  lemma {:induction false} TotalZero(taken: seq<Taken>, weight: Taken -> nat)
    requires forall i :: 0 <= i < |taken| ==> weight(taken[i]) == 0
    ensures Total(taken, weight) == 0
    decreases |taken|
  {
    if taken != [] {
      TotalZero(taken[..|taken| - 1], weight);
    }
  }

  // Weights that are nowhere larger add up to no more, and to less when one is smaller.
  lemma {:induction false} TotalsOrdered(a: seq<Taken>, f: Taken -> nat, b: seq<Taken>, g: Taken -> nat)
    requires |a| == |b| && forall i :: 0 <= i < |a| ==> f(a[i]) <= g(b[i])
    ensures Total(a, f) <= Total(b, g)
    ensures (exists i :: 0 <= i < |a| && f(a[i]) < g(b[i])) <==> Total(a, f) < Total(b, g)
    decreases |a|
  {
    if a != [] {
      var x, y := a[..|a| - 1], b[..|b| - 1];
      TotalsOrdered(x, f, y, g);
      assert forall i :: 0 <= i < |x| ==> x[i] == a[i] && y[i] == b[i];
    }
  }

  // ---- counters ----

  predicate Positive<K(==)>(m: map<K, int>) {
    forall k :: k in m ==> m[k] > 0
  }

  lemma {:induction false} BumpIs<K>(m: map<K, int>, keys: seq<K>, k: K)
    requires Positive(m)
    ensures Positive(Bump(m, keys)) && Get(Bump(m, keys), k) == Get(m, k) + Occurs(keys, k)
    decreases |keys|
  {
    if keys != [] {
      BumpIs(m, keys[..|keys| - 1], k);
      BumpIs(m, keys[..|keys| - 1], keys[|keys| - 1]);
    }
  }

  lemma {:induction false} DropIs<K>(m: map<K, int>, keys: seq<K>, k: K)
    requires Positive(m)
    ensures Positive(Drop(m, keys))
    ensures Get(Drop(m, keys), k) == if Get(m, k) > Occurs(keys, k) then Get(m, k) - Occurs(keys, k) else 0
    decreases |keys|
  {
    if keys != [] {
      DropIs(m, keys[..|keys| - 1], k);
      DropIs(m, keys[..|keys| - 1], keys[|keys| - 1]);
    }
  }

  // The counters of today, each exactly what its network's reservations hold; none is
  // left of another roll.
  ghost predicate Exact(m: Counters, taken: seq<Taken>, weight: NetKey -> Taken -> nat, epoch: nat) {
    && Positive(m)
    && forall k: NetKey {:trigger Get(m, k)} ::
         Get(m, k) == if k.epoch == epoch then Total(taken, weight(k)) else 0
  }

  predicate AllOf(keys: seq<NetKey>, epoch: nat) {
    forall i :: 0 <= i < |keys| ==> keys[i].epoch == epoch
  }

  lemma {:induction false} OccursOf(keys: seq<NetKey>, epoch: nat, k: NetKey)
    requires AllOf(keys, epoch) && k.epoch != epoch
    ensures Occurs(keys, k) == 0
    decreases |keys|
  {
    if keys != [] {
      OccursOf(keys[..|keys| - 1], epoch, k);
    }
  }

  // A hold's counters are of its own roll, and while that roll lasts its day is today.
  predicate HoldOk(g: Gate, h: Hold) {
    && AllOf(h.signup, h.epoch) && AllOf(h.trials, h.epoch) && h.epoch <= g.epoch
    && (h.epoch == g.epoch && (h.signup != [] || h.trials != [] || h.trial) ==> h.day == g.day)
  }

  ghost predicate HoldsOk(w: World) {
    forall i :: 0 <= i < |w.taken| ==> HoldOk(w.gate, w.taken[i].hold)
  }

  // No network ever has more than a level's limit.
  ghost predicate Within(m: Counters, quota: seq<Level>) {
    forall k: NetKey, i {:trigger Get(m, k), quota[i]} ::
      0 <= i < |quota| && quota[i].v6 == k.v6 && quota[i].bits == k.bits ==> Get(m, k) <= quota[i].max
  }

  ghost predicate WindowsOk(w: World) {
    && Positive(w.gate.window)
    && (forall id {:trigger Get(w.gate.window, id)} ::
          id != 0 ==> Get(w.gate.window, id) == Total(w.taken, PlaceOf(id)))
    && (forall id :: id in w.windows ==> w.windows[id].used <= w.windows[id].max)
  }

  ghost predicate Counted(w: World) {
    && Exact(w.gate.signup, w.taken, SignupsOf, w.gate.epoch)
    && Exact(w.gate.trials, w.taken, TrialsOf, w.gate.epoch)
    && HoldsOk(w) && Within(w.gate.signup, SIGNUP_QUOTA) && Within(w.gate.trials, TRIAL_BUDGET)
  }

  // ---- a new day ----

  lemma NothingHeldYet(w: World, k: NetKey)
    requires HoldsOk(w) && k.epoch > w.gate.epoch
    ensures Total(w.taken, SignupsOf(k)) == 0 && Total(w.taken, TrialsOf(k)) == 0
  {
    forall i | 0 <= i < |w.taken| ensures SignupsOf(k)(w.taken[i]) == 0 && TrialsOf(k)(w.taken[i]) == 0 {
      var h := w.taken[i].hold;
      assert HoldOk(w.gate, h);
      OccursOf(h.signup, h.epoch, k);
      OccursOf(h.trials, h.epoch, k);
    }
    TotalZero(w.taken, SignupsOf(k));
    TotalZero(w.taken, TrialsOf(k));
  }

  lemma RolledCounts(w: World, now: nat)
    requires Counted(w)
    ensures Counted(w.(gate := Rolled(w.gate, now)))
  {
    if Rolled(w.gate, now) != w.gate {
      var e := w.gate.epoch + 1;
      forall k: NetKey | k.epoch == e ensures Total(w.taken, SignupsOf(k)) == 0 && Total(w.taken, TrialsOf(k)) == 0 {
        NothingHeldYet(w, k);
      }
      assert Exact(map[], w.taken, SignupsOf, e) && Exact(map[], w.taken, TrialsOf, e);
      forall i | 0 <= i < |w.taken| ensures HoldOk(Rolled(w.gate, now), w.taken[i].hold) {
        assert HoldOk(w.gate, w.taken[i].hold);
      }
    }
  }

  // ---- a restart ----

  lemma SurvivedOk(w: World, lost: set<nat>)
    requires HoldsOk(w)
    ensures HoldsOk(w.(taken := Survived(w.taken, lost)))
    ensures HoldsOk(w.(gate := Renewed(w.gate), taken := Survived(w.taken, lost)))
  {
    forall i | 0 <= i < |w.taken|
      ensures var h := Survived(w.taken, lost)[i].hold; HoldOk(w.gate, h) && HoldOk(Renewed(w.gate), h)
    {
      assert HoldOk(w.gate, w.taken[i].hold);
    }
  }

  lemma RestartCounts(w: World, lost: set<nat>)
    requires Counted(w)
    ensures Counted(Step(w, Restarts(lost)))
  {
    var v, e := w.(taken := Survived(w.taken, lost)), w.gate.epoch + 1;
    SurvivedOk(w, lost);
    forall k: NetKey | k.epoch == e ensures Total(v.taken, SignupsOf(k)) == 0 && Total(v.taken, TrialsOf(k)) == 0 {
      NothingHeldYet(v, k);
    }
    hide Survived, Total;
    assert Exact(map[], v.taken, SignupsOf, e) && Exact(map[], v.taken, TrialsOf, e);
  }

  // ---- a reservation ----

  predicate DistinctLevels(quota: seq<Level>) {
    forall i, j :: 0 <= i < j < |quota| ==> quota[i].v6 != quota[j].v6 || quota[i].bits != quota[j].bits
  }

  lemma KeyOfIs(epoch: nat, l: Level, ip: Ip)
    ensures var k := KeyOf(epoch, l, ip);
            k.Some? ==> k.value.epoch == epoch && k.value.v6 == l.v6 && k.value.bits == l.bits
  {
  }

  lemma {:induction false} KeysOfEpoch(epoch: nat, quota: seq<Level>, ip: Ip)
    ensures AllOf(KeysOf(epoch, quota, ip), epoch)
    decreases |quota|
  {
    hide KeyOf;
    if quota != [] {
      KeysOfEpoch(epoch, quota[..|quota| - 1], ip);
      KeyOfIs(epoch, quota[|quota| - 1], ip);
    }
  }

  predicate IsKeyOf(epoch: nat, quota: seq<Level>, ip: Ip, k: NetKey) {
    exists i :: 0 <= i < |quota| && KeyOf(epoch, quota[i], ip) == Some(k)
  }

  // Each level of an address's family has one key, and no other key occurs.
  lemma {:induction false} KeysOnce(epoch: nat, quota: seq<Level>, ip: Ip, k: NetKey)
    requires DistinctLevels(quota)
    ensures Occurs(KeysOf(epoch, quota, ip), k) <= 1
    ensures Occurs(KeysOf(epoch, quota, ip), k) == 1 ==> IsKeyOf(epoch, quota, ip, k)
    decreases |quota|
  {
    hide KeyOf;
    if quota != [] {
      var q, l := quota[..|quota| - 1], quota[|quota| - 1];
      KeysOnce(epoch, q, ip, k);
      var x, keys := KeyOf(epoch, l, ip), KeysOf(epoch, q, ip);
      KeyOfIs(epoch, l, ip);
      if x.Some? {
        assert (keys + [x.value])[..|keys|] == keys;
      }
      if Occurs(keys, k) == 1 {
        var i :| 0 <= i < |q| && KeyOf(epoch, q[i], ip) == Some(k);
        KeyOfIs(epoch, q[i], ip);
        assert quota[i] == q[i];
      }
    }
  }

  lemma BumpExact(m: Counters, taken: seq<Taken>, weight: NetKey -> Taken -> nat, epoch: nat,
                  keys: seq<NetKey>, t: Taken)
    requires Exact(m, taken, weight, epoch) && AllOf(keys, epoch)
    requires forall k :: weight(k)(t) == Occurs(keys, k)
    ensures Exact(Bump(m, keys), taken + [t], weight, epoch)
  {
    BumpIs(m, keys, NetKey(0, false, 0, 0));
    forall k: NetKey
      ensures Get(Bump(m, keys), k) == if k.epoch == epoch then Total(taken + [t], weight(k)) else 0
    {
      BumpIs(m, keys, k);
      TotalMore(taken, t, weight(k));
      if k.epoch != epoch {
        OccursOf(keys, epoch, k);
      }
    }
  }

  lemma BumpWithin(m: Counters, epoch: nat, quota: seq<Level>, ip: Ip)
    requires Positive(m) && Within(m, quota) && DistinctLevels(quota) && HasRoom(m, epoch, quota, ip)
    ensures Within(Bump(m, KeysOf(epoch, quota, ip)), quota)
  {
    var keys := KeysOf(epoch, quota, ip);
    forall k: NetKey, i | 0 <= i < |quota| && quota[i].v6 == k.v6 && quota[i].bits == k.bits
      ensures Get(Bump(m, keys), k) <= quota[i].max
    {
      BumpIs(m, keys, k);
      KeysOnce(epoch, quota, ip, k);
      assert Get(m, k) <= quota[i].max;
      if Occurs(keys, k) == 1 {
        var j :| 0 <= j < |quota| && KeyOf(epoch, quota[j], ip) == Some(k);
        KeyOfIs(epoch, quota[j], ip);
        assert i == j;
      }
    }
  }

  // A hold that touches no counter of one kind leaves those as they are.
  lemma SameExact(m: Counters, taken: seq<Taken>, weight: NetKey -> Taken -> nat, epoch: nat, t: Taken)
    requires Exact(m, taken, weight, epoch) && forall k :: weight(k)(t) == 0
    ensures Exact(m, taken + [t], weight, epoch)
  {
  }

  lemma SignupCounts(w: World, ip: Ip, now: nat)
    requires Counted(w)
    ensures Counted(Took(w, ReserveSignup(w.gate, ip, now), ForSignup(ip)))
  {
    hide Within, KeysOf, HasRoom, Bump, Total;
    RolledCounts(w, now);
    var r := Rolled(w.gate, now);
    var v := Took(w, ReserveSignup(w.gate, ip, now), ForSignup(ip));
    if ReserveSignup(w.gate, ip, now).0.Some? {
      var keys, t := KeysOf(r.epoch, SIGNUP_QUOTA, ip), v.taken[|w.taken|];
      KeysOfEpoch(r.epoch, SIGNUP_QUOTA, ip);
      BumpExact(r.signup, w.taken, SignupsOf, r.epoch, keys, t);
      SameExact(r.trials, w.taken, TrialsOf, r.epoch, t);
      BumpWithin(r.signup, r.epoch, SIGNUP_QUOTA, ip);
    }
  }

  lemma TrialCounts(w: World, ip: Ip, now: nat)
    requires Counted(w)
    ensures Counted(Took(w, ReserveTrial(w.gate, ip, now), ForTrial(ip)))
  {
    hide Within, KeysOf, HasRoom, Bump, Total;
    RolledCounts(w, now);
    var r := Rolled(w.gate, now);
    var v := Took(w, ReserveTrial(w.gate, ip, now), ForTrial(ip));
    if ReserveTrial(w.gate, ip, now).0.Some? {
      var keys, t := KeysOf(r.epoch, TRIAL_BUDGET, ip), v.taken[|w.taken|];
      KeysOfEpoch(r.epoch, TRIAL_BUDGET, ip);
      BumpExact(r.trials, w.taken, TrialsOf, r.epoch, keys, t);
      SameExact(r.signup, w.taken, SignupsOf, r.epoch, t);
      BumpWithin(r.trials, r.epoch, TRIAL_BUDGET, ip);
    }
  }

  lemma WindowCounts(w: World, id: nat, used: int, max: int)
    requires Counted(w)
    ensures Counted(Took(w, ReserveWindow(w.gate, id, used, max), ForPlace(id)))
  {
  }

  // ---- giving back ----

  lemma DropExact(m: Counters, taken: seq<Taken>, weight: NetKey -> Taken -> nat, epoch: nat, i: nat, t: Taken,
                  keys: seq<NetKey>, of: nat, today: bool)
    requires Exact(m, taken, weight, epoch) && i < |taken| && AllOf(keys, of)
    requires forall k :: weight(k)(taken[i]) == Occurs(keys, k) && weight(k)(t) == 0
    requires of == epoch && keys != [] ==> today
    ensures Exact(if today then Drop(m, keys) else m, taken[i := t], weight, epoch)
  {
    var m' := if today then Drop(m, keys) else m;
    DropIs(m, keys, NetKey(0, false, 0, 0));
    forall k: NetKey ensures Get(m', k) == if k.epoch == epoch then Total(taken[i := t], weight(k)) else 0 {
      DropIs(m, keys, k);
      TotalChange(taken, i, t, weight(k));
      if of != k.epoch {
        OccursOf(keys, of, k);
      }
    }
  }

  lemma DropWithin(m: Counters, keys: seq<NetKey>, quota: seq<Level>)
    requires Positive(m) && Within(m, quota)
    ensures Within(Drop(m, keys), quota)
  {
    forall k: NetKey, i | 0 <= i < |quota| && quota[i].v6 == k.v6 && quota[i].bits == k.bits
      ensures Get(Drop(m, keys), k) <= quota[i].max
    {
      DropIs(m, keys, k);
      assert Get(m, k) <= quota[i].max;
    }
  }

  lemma ReleaseCounts(w: World, i: nat)
    requires Counted(w) && Enabled(w, Fails(i))
    ensures Counted(Step(w, Fails(i)))
  {
    var v := Step(w, Fails(i));
    var h := w.taken[i].hold;
    var today := h.day == w.gate.day;
    assert HoldOk(w.gate, h);
    DropExact(w.gate.signup, w.taken, SignupsOf, w.gate.epoch, i, v.taken[i], h.signup, h.epoch, today);
    DropExact(w.gate.trials, w.taken, TrialsOf, w.gate.epoch, i, v.taken[i], h.trials, h.epoch, today);
    DropWithin(w.gate.signup, h.signup, SIGNUP_QUOTA);
    DropWithin(w.gate.trials, h.trials, TRIAL_BUDGET);
    forall j | 0 <= j < |v.taken| ensures HoldOk(v.gate, v.taken[j].hold) {
      assert HoldOk(w.gate, w.taken[j].hold);
    }
  }

  lemma SameWeights(m: Counters, taken: seq<Taken>, weight: NetKey -> Taken -> nat, epoch: nat, i: nat, t: Taken)
    requires Exact(m, taken, weight, epoch) && i < |taken| && forall k :: weight(k)(taken[i]) == weight(k)(t)
    ensures Exact(m, taken[i := t], weight, epoch)
  {
    forall k: NetKey ensures Get(m, k) == if k.epoch == epoch then Total(taken[i := t], weight(k)) else 0 {
      TotalChange(taken, i, t, weight(k));
    }
  }

  lemma CommitCounts(w: World, i: nat)
    requires Counted(w) && Enabled(w, Commits(i))
    ensures Counted(Step(w, Commits(i)))
  {
    var v := Step(w, Commits(i));
    SameWeights(w.gate.signup, w.taken, SignupsOf, w.gate.epoch, i, v.taken[i]);
    SameWeights(w.gate.trials, w.taken, TrialsOf, w.gate.epoch, i, v.taken[i]);
    forall j | 0 <= j < |v.taken| ensures HoldOk(v.gate, v.taken[j].hold) {
      assert HoldOk(w.gate, w.taken[j].hold);
    }
  }

  lemma StepCounts(w: World, op: Op)
    requires Counted(w) && Enabled(w, op)
    ensures Counted(Step(w, op))
  {
    hide Counted;
    match op
    case SignsUp(ip, now) => SignupCounts(w, ip, now);
    case AsksTrial(ip, now) => TrialCounts(w, ip, now);
    case TakesPlace(id, used, max) => WindowCounts(w, id, used, max);
    case Fails(i) => ReleaseCounts(w, i);
    case Commits(i) => CommitCounts(w, i);
    case Opens(_, _) => SameGate(w, Step(w, op));
    case Writes(_) => SameGate(w, Step(w, op));
    case Restarts(lost) => RestartCounts(w, lost);
  }

  lemma SameGate(w: World, v: World)
    requires Counted(w) && v == w.(windows := v.windows)
    ensures Counted(v)
  {
  }
}
