// Runs in which the clock leaves a day and comes back to it, or the hub restarts: the
// day's limits are given out again, although nothing was given back.
module AdmissionGateReopened {
  import opened Basics
  import opened Sums
  import opened AdmissionGate
  import opened AdmissionGateSafety
  import opened AdmissionGatePromises
  import opened AdmissionGateDays

  lemma {:induction false} RunMore(w: World, ops: seq<Op>, op: Op)
    ensures var v := Run(w, ops); Run(w, ops + [op]) == if Enabled(v, op) then Step(v, op) else v
    decreases |ops|
  {
    if ops == [] {
      assert [op][1..] == [];
    } else {
      assert (ops + [op])[1..] == ops[1..] + [op];
      RunMore(if Enabled(w, ops[0]) then Step(w, ops[0]) else w, ops[1..], op);
    }
  }

  // An address of the a-th network of 24 bits.
  function In(a: nat): Ip {
    Ip(false, 256 * a)
  }

  function NetOf(a: nat): Net {
    Net(false, 24, a)
  }

  lemma OneKey(epoch: nat, a: nat)
    ensures KeysOf(epoch, TRIAL_BUDGET, In(a)) == [Key(epoch, NetOf(a))]
    ensures forall m: Counters ::
              HasRoom(m, epoch, TRIAL_BUDGET, In(a)) <==> Get(m, Key(epoch, NetOf(a))) < 3
  {
    assert Pow2(8) == 256 by {
      assert Pow2(4) == 16;
    }
    var k := Key(epoch, NetOf(a));
    assert KeyOf(epoch, TRIAL_BUDGET[0], In(a)) == Some(k);
    assert KeyOf(epoch, TRIAL_BUDGET[1], In(a)) == None && KeyOf(epoch, TRIAL_BUDGET[2], In(a)) == None;
    var one, two := TRIAL_BUDGET[..1], TRIAL_BUDGET[..2];
    assert TRIAL_BUDGET == two + [TRIAL_BUDGET[2]] && two == one + [TRIAL_BUDGET[1]] && one == [] + [TRIAL_BUDGET[0]];
    KeysAfter(epoch, [], TRIAL_BUDGET[0], In(a));
    KeysAfter(epoch, one, TRIAL_BUDGET[1], In(a));
    KeysAfter(epoch, two, TRIAL_BUDGET[2], In(a));
  }

  lemma KeysAfter(epoch: nat, quota: seq<Level>, l: Level, ip: Ip)
    ensures KeysOf(epoch, quota + [l], ip) ==
            KeysOf(epoch, quota, ip) + if KeyOf(epoch, l, ip).Some? then [KeyOf(epoch, l, ip).value] else []
  {
    assert (quota + [l])[..|quota|] == quota;
    assert KeysOf(epoch, quota, ip) + [] == KeysOf(epoch, quota, ip);
  }

  lemma OneOf<K>(m: map<K, int>, k: K)
    ensures Bump(m, [k]) == m[k := Get(m, k) + 1] && Occurs([k], k) == 1
  {
    assert [k][..0] == [];
    assert Bump(m, []) == m && Occurs([], k) == 0;
  }

  // A grant asked for while there is room for it.
  lemma Granted(w: World, a: nat, now: nat)
    requires Rolled(w.gate, now).trialN < TRIAL_BUDGET_HUB
    requires Get(Rolled(w.gate, now).trials, Key(Rolled(w.gate, now).epoch, NetOf(a))) < 3
    ensures var r := Rolled(w.gate, now); var k := Key(r.epoch, NetOf(a));
            Step(w, AsksTrial(In(a), now)) ==
              w.(gate := r.(trials := r.trials[k := Get(r.trials, k) + 1], trialN := r.trialN + 1),
                 taken := w.taken + [Taken(Hold(r.day, r.epoch, [], [k], true, 0), ForTrial(In(a)), Live)])
  {
    var r := Rolled(w.gate, now);
    OneKey(r.epoch, a);
    OneOf(r.trials, Key(r.epoch, NetOf(a)));
  }

  // What n grants of day 1 look like, from n networks.
  ghost predicate Spent(w: World, n: nat) {
    && (if n == 0 then w.gate.day == -1 else w.gate.day == 1)
    && w.gate.trialN == n == Total(w.taken, GrantsOn(1))
    && forall k :: k in w.gate.trials ==> k.prefix < n
  }

  function Asks(n: nat): seq<Op> {
    if n == 0 then [] else Asks(n - 1) + [AsksTrial(In(n - 1), DAY)]
  }

  lemma {:induction false} SpentByAsking(n: nat)
    requires n <= TRIAL_BUDGET_HUB
    ensures Spent(Run(START, Asks(n)), n)
  {
    if n > 0 {
      SpentByAsking(n - 1);
      var w := Run(START, Asks(n - 1));
      hide Rolled, Step;
      RunMore(START, Asks(n - 1), AsksTrial(In(n - 1), DAY));
      SpendOne(w, n - 1);
    }
  }

  lemma SpendOne(w: World, n: nat)
    requires Spent(w, n) && n < TRIAL_BUDGET_HUB && (n == 0 ==> w.gate.trials == map[])
    ensures Spent(Step(w, AsksTrial(In(n), DAY)), n + 1)
  {
    hide Total;
    Granted(w, n, DAY);
    TotalMore(w.taken, Step(w, AsksTrial(In(n), DAY)).taken[|w.taken|], GrantsOn(1));
  }

  // Day 1's whole budget is granted; the clock reads day 0, and then day 1 again: one
  // more is granted on day 1. No grant is ever given back.
  lemma BudgetGrantedTwice()
    ensures var ops := Asks(TRIAL_BUDGET_HUB) + [SignsUp(HERE, 0)] + [AsksTrial(HERE, DAY)];
            && Total(Run(START, ops).taken, GrantsOn(1)) == TRIAL_BUDGET_HUB + 1
            && forall i :: 0 <= i < |ops| ==> !ops[i].Fails?
  {
    var n := TRIAL_BUDGET_HUB;
    var w := Run(START, Asks(n));
    SpentByAsking(n);
    hide Total, Step, Asks, Run, Spent;
    RunMore(START, Asks(n), SignsUp(HERE, 0));
    RunMore(START, Asks(n) + [SignsUp(HERE, 0)], AsksTrial(HERE, DAY));
    BackAgain(w, n);
    NoneFails(n);
  }

  lemma NoneFails(n: nat)
    ensures var ops := Asks(n) + [SignsUp(HERE, 0)] + [AsksTrial(HERE, DAY)];
            forall i :: 0 <= i < |ops| ==> !ops[i].Fails?
  {
    OnlyAsks(n);
    hide Asks;
  }

  lemma BackAgain(w: World, n: nat)
    requires n > 0 && Spent(w, n)
    ensures Total(Step(Step(w, SignsUp(HERE, 0)), AsksTrial(HERE, DAY)).taken, GrantsOn(1)) == n + 1
  {
    hide Total, KeysOf, HasRoom, Bump;
    var v := Step(w, SignsUp(HERE, 0));
    assert v.gate.day == 0 && v.gate.trialN == 0 && v.gate.trials == map[];
    if v.taken != w.taken {
      TotalMore(w.taken, v.taken[|w.taken|], GrantsOn(1));
    }
    assert HERE == In(0);
    Granted(v, 0, DAY);
    TotalMore(v.taken, Step(v, AsksTrial(HERE, DAY)).taken[|v.taken|], GrantsOn(1));
  }

  lemma {:induction false} OnlyAsks(n: nat)
    ensures forall i :: 0 <= i < |Asks(n)| ==> Asks(n)[i].AsksTrial? && Asks(n)[i].now == DAY
  {
    if n > 0 {
      OnlyAsks(n - 1);
    }
  }

  // And so with one network's limit, which is 3.
  lemma NetworkGrantedTwice()
    ensures var ask := AsksTrial(HERE, DAY); var ops := [ask, ask, ask] + [SignsUp(HERE, 0)] + [ask];
            Total(Run(START, ops).taken, TrialsOn(1, NetOf(0))) == 4
  {
    var ask := AsksTrial(HERE, DAY);
    assert HERE == In(0);
    ThreeGranted();
    hide Total, Run, Step, Here, TrialsOn, In, NetOf;
    RunMore(START, [ask, ask, ask], SignsUp(HERE, 0));
    RunMore(START, [ask, ask, ask] + [SignsUp(HERE, 0)], ask);
    HereAgain(Run(START, [ask, ask, ask]));
  }

  lemma ThreeGranted()
    ensures var ask := AsksTrial(In(0), DAY); Here(Run(START, [ask, ask, ask]), 3)
  {
    var ask := AsksTrial(In(0), DAY);
    RunNothing();
    hide Total, Run, Step;
    RunMore(START, [], ask);
    RunMore(START, [ask], ask);
    RunMore(START, [ask, ask], ask);
    assert [] + [ask] == [ask] && [ask] + [ask] == [ask, ask] && [ask, ask] + [ask] == [ask, ask, ask];
    GrantedHere(START, 0);
    GrantedHere(Step(START, ask), 1);
    GrantedHere(Step(Step(START, ask), ask), 2);
  }

  lemma RunNothing()
    ensures Run(START, []) == START && Total(START.taken, TrialsOn(1, NetOf(0))) == 0
  {
  }

  // n grants of day 1 to the network of HERE.
  predicate Here(w: World, n: nat) {
    && (w.gate.day == if n == 0 then -1 else 1) && w.gate.trialN == n == Total(w.taken, TrialsOn(1, NetOf(0)))
    && Get(w.gate.trials, Key(w.gate.epoch, NetOf(0))) == n
  }

  lemma GrantedHere(w: World, n: nat)
    requires Here(w, n) && n < 3
    ensures Here(Step(w, AsksTrial(In(0), DAY)), n + 1)
  {
    hide Total;
    Granted(w, 0, DAY);
    var v := Step(w, AsksTrial(In(0), DAY));
    OneOf(w.gate.trials, Key(v.gate.epoch, NetOf(0)));
    TotalMore(w.taken, v.taken[|w.taken|], TrialsOn(1, NetOf(0)));
  }

  lemma HereAgain(w: World)
    requires Here(w, 3)
    ensures Total(Step(Step(w, SignsUp(In(0), 0)), AsksTrial(In(0), DAY)).taken, TrialsOn(1, NetOf(0))) == 4
  {
    hide Total, KeysOf, HasRoom, Bump;
    var v := Step(w, SignsUp(In(0), 0));
    assert v.gate.day == 0 && v.gate.trialN == 0 && v.gate.trials == map[];
    if v.taken != w.taken {
      TotalMore(w.taken, v.taken[|w.taken|], TrialsOn(1, NetOf(0)));
    }
    Granted(v, 0, DAY);
    var u := Step(v, AsksTrial(In(0), DAY));
    OneOf(v.gate.trials, Key(u.gate.epoch, NetOf(0)));
    TotalMore(v.taken, u.taken[|v.taken|], TrialsOn(1, NetOf(0)));
  }

  // ---- a restart ----

  // What was held of a day, whoever held it, is held after a restart that lost nothing.
  lemma NothingLost(taken: seq<Taken>, weight: Taken -> nat)
    requires forall t: Taken :: t.status.Live? ==> weight(t) == weight(t.(status := Done))
    ensures Total(Survived(taken, {}), weight) == Total(taken, weight)
  {
    TotalsOrdered(taken, weight, Survived(taken, {}), weight);
  }

  lemma {:induction false} SteadyAt(ops: seq<Op>, t: nat, now: nat)
    requires t <= now && forall i :: 0 <= i < |ops| ==> TimeOf(ops[i]).None? || TimeOf(ops[i]) == Some(now)
    ensures Steady(t, ops)
    decreases |ops|
  {
    if ops != [] {
      SteadyAt(ops[1..], Later(ops[0], t), now);
    }
  }

  lemma GrantedAfterRestart(w: World, weight: Taken -> nat, n: nat)
    requires Total(w.taken, weight) == n
    requires forall t: Taken :: t.status.Live? ==> weight(t) == weight(t.(status := Done))
    requires forall e: nat :: weight(Taken(Hold(1, e, [], [Key(e, NetOf(0))], true, 0), ForTrial(In(0)), Live)) == 1
    ensures Total(Step(Step(w, Restarts({})), AsksTrial(HERE, DAY)).taken, weight) == n + 1
  {
    hide Total, Survived;
    var v := Step(w, Restarts({}));
    NothingLost(w.taken, weight);
    assert HERE == In(0);
    Granted(v, 0, DAY);
    TotalMore(v.taken, Step(v, AsksTrial(HERE, DAY)).taken[|v.taken|], weight);
  }

  // Day 1's whole budget is granted, and the hub restarts: one more is granted on day 1. No
  // grant is given back or lost, and the clock does not step back.
  lemma RestartGrantsAgain()
    ensures var ops := Asks(TRIAL_BUDGET_HUB) + [Restarts({})] + [AsksTrial(HERE, DAY)];
            && Total(Run(START, ops).taken, GrantsOn(1)) == TRIAL_BUDGET_HUB + 1
            && Steady(0, ops) && forall i :: 0 <= i < |ops| ==> !ops[i].Fails?
  {
    var n := TRIAL_BUDGET_HUB;
    SpentByAsking(n);
    hide Total, Step, Asks, Run, Steady;
    AskedSteadily(n);
    RunMore(START, Asks(n), Restarts({}));
    RunMore(START, Asks(n) + [Restarts({})], AsksTrial(HERE, DAY));
    GrantedAfterRestart(Run(START, Asks(n)), GrantsOn(1), n);
  }

  lemma AskedSteadily(n: nat)
    ensures var ops := Asks(n) + [Restarts({})] + [AsksTrial(HERE, DAY)];
            Steady(0, ops) && forall i :: 0 <= i < |ops| ==> !ops[i].Fails?
  {
    OnlyAsks(n);
    hide Asks, Steady;
    SteadyAt(Asks(n) + [Restarts({})] + [AsksTrial(HERE, DAY)], 0, DAY);
  }

  // And so with one network's limit.
  lemma RestartGrantsNetworkAgain()
    ensures var ask := AsksTrial(HERE, DAY); var ops := [ask, ask, ask] + [Restarts({})] + [ask];
            Total(Run(START, ops).taken, TrialsOn(1, NetOf(0))) == 4 && Steady(0, ops)
  {
    var ask := AsksTrial(HERE, DAY);
    assert HERE == In(0);
    ThreeGranted();
    hide Total, Run, Step, Steady, TrialsOn, In, NetOf;
    ThriceSteadily(ask);
    RunMore(START, [ask, ask, ask], Restarts({}));
    RunMore(START, [ask, ask, ask] + [Restarts({})], ask);
    NetworkAfterRestart(Run(START, [ask, ask, ask]));
  }

  lemma ThriceSteadily(ask: Op)
    requires TimeOf(ask) == Some(DAY)
    ensures Steady(0, [ask, ask, ask] + [Restarts({})] + [ask])
  {
    hide Steady;
    SteadyAt([ask, ask, ask] + [Restarts({})] + [ask], 0, DAY);
  }

  lemma NetworkAfterRestart(w: World)
    requires Here(w, 3)
    ensures Total(Step(Step(w, Restarts({})), AsksTrial(HERE, DAY)).taken, TrialsOn(1, NetOf(0))) == 4
  {
    forall e: nat ensures Occurs([Key(e, NetOf(0))], Key(e, NetOf(0))) == 1 {
      OneOf(map[], Key(e, NetOf(0)));
    }
    hide Total, Step, Occurs;
    GrantedAfterRestart(w, TrialsOn(1, NetOf(0)), 3);
  }
}
