// What the admission gate's counters promise, in every run.
module AdmissionGatePromises {
  import opened Basics
  import opened Sums
  import opened AdmissionGate
  import opened AdmissionGateSafety

  ghost predicate Reached(w: World) {
    exists ops :: w == Run(START, ops)
  }

  // ---- window places ----

  lemma {:induction false} LessIs(m: map<nat, int>, k: nat, j: nat)
    requires Positive(m)
    ensures Positive(Less(m, k))
    ensures Get(Less(m, k), j) == if j == k && Get(m, k) > 0 then Get(m, k) - 1 else Get(m, j)
  {
  }

  lemma TookWindows(w: World, r: (Option<Hold>, Gate), who: Asked)
    requires WindowsOk(w) && r.1.window == w.gate.window && (r.0.Some? ==> r.0.value.window == 0)
    ensures WindowsOk(Took(w, r, who))
  {
  }

  lemma PlaceTaken(w: World, id: nat, used: int, max: int)
    requires WindowsOk(w) && id != 0
    ensures WindowsOk(Took(w, ReserveWindow(w.gate, id, used, max), ForPlace(id)))
  {
    var v := Took(w, ReserveWindow(w.gate, id, used, max), ForPlace(id));
    if v != w {
      forall j: nat | j != 0 ensures Get(v.gate.window, j) == Total(v.taken, PlaceOf(j)) {
        assert Get(w.gate.window, j) == Total(w.taken, PlaceOf(j));
        TotalMore(w.taken, v.taken[|w.taken|], PlaceOf(j));
      }
    }
  }

  lemma PlaceLeft(w: World, i: nat, t: Taken, v: World)
    requires WindowsOk(w) && i < |w.taken| && w.taken[i].status.Live? && !t.status.Live?
    requires v.taken == w.taken[i := t] && v.windows == w.windows
    requires v.gate.window ==
               if w.taken[i].hold.window != 0 then Less(w.gate.window, w.taken[i].hold.window) else w.gate.window
    ensures WindowsOk(v)
  {
    var h := w.taken[i].hold.window;
    LessIs(w.gate.window, h, 0);
    forall id | id != 0 ensures Get(v.gate.window, id) == Total(v.taken, PlaceOf(id)) {
      LessIs(w.gate.window, h, id);
      TotalChange(w.taken, i, t, PlaceOf(id));
    }
  }

  // No place is held by what was in progress before a restart.
  lemma RestartWindows(w: World, lost: set<nat>)
    requires WindowsOk(w)
    ensures WindowsOk(Step(w, Restarts(lost)))
  {
    var v := Step(w, Restarts(lost));
    forall id | id != 0 ensures Get(v.gate.window, id) == Total(v.taken, PlaceOf(id)) {
      TotalZero(v.taken, PlaceOf(id));
    }
  }

  lemma StepWindows(w: World, op: Op)
    requires WindowsOk(w) && Enabled(w, op)
    ensures WindowsOk(Step(w, op))
  {
    match op
    case SignsUp(ip, now) => TookWindows(w, ReserveSignup(w.gate, ip, now), ForSignup(ip));
    case AsksTrial(ip, now) => TookWindows(w, ReserveTrial(w.gate, ip, now), ForTrial(ip));
    case TakesPlace(id, used, max) => PlaceTaken(w, id, used, max);
    case Fails(i) => PlaceLeft(w, i, Step(w, op).taken[i], Step(w, op));
    case Commits(i) => PlaceLeft(w, i, Step(w, op).taken[i], Step(w, op));
    case Opens(_, _) =>
    case Writes(_) =>
    case Restarts(lost) => RestartWindows(w, lost);
  }

  // ---- every run ----

  lemma {:induction false} RunCounts(w: World, ops: seq<Op>)
    requires Counted(w) && WindowsOk(w)
    ensures Counted(Run(w, ops)) && WindowsOk(Run(w, ops))
    decreases |ops|
  {
    hide Counted, WindowsOk, Step;
    if ops != [] {
      if Enabled(w, ops[0]) {
        StepCounts(w, ops[0]);
        StepWindows(w, ops[0]);
      }
      RunCounts(if Enabled(w, ops[0]) then Step(w, ops[0]) else w, ops[1..]);
    }
  }

  lemma ReachedCounts(w: World)
    requires Reached(w)
    ensures Counted(w) && WindowsOk(w)
  {
    var ops :| w == Run(START, ops);
    RunCounts(START, ops);
  }

  // Whatever the clock does: every network's counter is exactly what the registrations of
  // the current roll not given back hold of it, and never passes its level's limit; and so
  // for trial grants. (What that says about a day is in AdmissionGateDays.)
  lemma CountersExact(w: World, k: NetKey, l: Level)
    requires Reached(w) && k.epoch == w.gate.epoch && l.v6 == k.v6 && l.bits == k.bits
    ensures Get(w.gate.signup, k) == Total(w.taken, SignupsOf(k))
    ensures Get(w.gate.trials, k) == Total(w.taken, TrialsOf(k))
    ensures l in SIGNUP_QUOTA ==> Total(w.taken, SignupsOf(k)) <= l.max
    ensures l in TRIAL_BUDGET ==> Total(w.taken, TrialsOf(k)) <= l.max
  {
    ReachedCounts(w);
    if l in SIGNUP_QUOTA {
      var i :| 0 <= i < |SIGNUP_QUOTA| && SIGNUP_QUOTA[i] == l;
    }
    if l in TRIAL_BUDGET {
      var i :| 0 <= i < |TRIAL_BUDGET| && TRIAL_BUDGET[i] == l;
    }
  }

  // An open registration passes exactly when, at every level of its network, the
  // registrations of the roll not given back are fewer than the limit; and so a trial grant.
  lemma PassesWithRoom(w: World, ip: Ip, now: nat)
    requires Counted(w)
    ensures ReserveSignup(w.gate, ip, now).0.Some? <==>
              Room(w.taken, SignupsOf, Rolled(w.gate, now).epoch, SIGNUP_QUOTA, ip)
    ensures ReserveTrial(w.gate, ip, now).0.Some? <==>
              && Rolled(w.gate, now).trialN < TRIAL_BUDGET_HUB
              && Room(w.taken, TrialsOf, Rolled(w.gate, now).epoch, TRIAL_BUDGET, ip)
  {
    RolledCounts(w, now);
    var r := Rolled(w.gate, now);
    RoomIs(r.signup, w.taken, SignupsOf, r.epoch, SIGNUP_QUOTA, ip);
    RoomIs(r.trials, w.taken, TrialsOf, r.epoch, TRIAL_BUDGET, ip);
  }

  ghost predicate Room(taken: seq<Taken>, weight: NetKey -> Taken -> nat, epoch: nat, quota: seq<Level>, ip: Ip) {
    forall i :: 0 <= i < |quota| ==>
      var k := KeyOf(epoch, quota[i], ip); k.Some? ==> Total(taken, weight(k.value)) < quota[i].max
  }

  lemma RoomIs(m: Counters, taken: seq<Taken>, weight: NetKey -> Taken -> nat, epoch: nat, quota: seq<Level>, ip: Ip)
    requires Exact(m, taken, weight, epoch)
    ensures HasRoom(m, epoch, quota, ip) <==> Room(taken, weight, epoch, quota, ip)
  {
    forall i | 0 <= i < |quota|
      ensures var k := KeyOf(epoch, quota[i], ip); k.Some? ==> Get(m, k.value) == Total(taken, weight(k.value))
    {
      KeyOfIs(epoch, quota[i], ip);
    }
  }

  // A window's counter is exactly the registrations in progress that hold a place of it,
  // and no more of its places are ever used than it has, whatever was read of it when
  // they were held.
  lemma PlacesExact(w: World, id: nat)
    requires Reached(w) && id != 0
    ensures Get(w.gate.window, id) == Total(w.taken, PlaceOf(id))
    ensures id in w.windows ==> w.windows[id].used <= w.windows[id].max
  {
    ReachedCounts(w);
  }

  // ---- the hub's own count of trial grants ----

  predicate TrialExact(w: World) {
    w.gate.trialN == Total(w.taken, GrantOf(w.gate.epoch))
  }

  // A grant of an earlier roll, given back on a day of the same number: the clock went
  // back over midnight and came forward again since.
  predicate Stray(w: World, op: Op) {
    op.Fails? && op.i < |w.taken|
    && w.taken[op.i].hold.trial && w.taken[op.i].hold.day == w.gate.day
    && w.taken[op.i].hold.epoch != w.gate.epoch && w.gate.trialN > 0
  }

  lemma NoGrantsYet(w: World)
    requires HoldsOk(w)
    ensures Total(w.taken, GrantOf(w.gate.epoch + 1)) == 0
  {
    forall i | 0 <= i < |w.taken| ensures GrantOf(w.gate.epoch + 1)(w.taken[i]) == 0 {
      assert HoldOk(w.gate, w.taken[i].hold);
    }
    TotalZero(w.taken, GrantOf(w.gate.epoch + 1));
  }

  lemma TookGrants(w: World, r: (Option<Hold>, Gate), who: Asked, now: nat)
    requires HoldsOk(w) && TrialExact(w)
    requires r.0.Some? ==> r.0.value.epoch == r.1.epoch
    requires r.1.epoch == Rolled(w.gate, now).epoch
    requires r.1.trialN == Rolled(w.gate, now).trialN + if r.0.Some? && r.0.value.trial then 1 else 0
    ensures TrialExact(Took(w, r, who))
  {
    NoGrantsYet(w);
    if r.0.Some? {
      TotalMore(w.taken, Taken(r.0.value, who, Live), GrantOf(r.1.epoch));
    }
  }

  // Giving a hold back keeps the count exact, exactly when it is not a stray grant.
  lemma ReleaseGrants(w: World, i: nat)
    requires HoldsOk(w) && TrialExact(w) && Enabled(w, Fails(i))
    ensures TrialExact(Step(w, Fails(i))) <==> !Stray(w, Fails(i))
  {
    var v := Step(w, Fails(i));
    var h := w.taken[i].hold;
    assert HoldOk(w.gate, h);
    TotalChange(w.taken, i, v.taken[i], GrantOf(w.gate.epoch));
  }

  lemma SignupGrants(w: World, ip: Ip, now: nat)
    requires HoldsOk(w) && TrialExact(w)
    ensures TrialExact(Took(w, ReserveSignup(w.gate, ip, now), ForSignup(ip)))
  {
    hide KeysOf, HasRoom, Bump, Total, HoldsOk;
    TookGrants(w, ReserveSignup(w.gate, ip, now), ForSignup(ip), now);
  }

  lemma TrialGrants(w: World, ip: Ip, now: nat)
    requires HoldsOk(w) && TrialExact(w)
    ensures TrialExact(Took(w, ReserveTrial(w.gate, ip, now), ForTrial(ip)))
  {
    hide KeysOf, HasRoom, Bump, Total, HoldsOk;
    TookGrants(w, ReserveTrial(w.gate, ip, now), ForTrial(ip), now);
  }

  lemma PlaceGrants(w: World, id: nat, used: int, max: int)
    requires TrialExact(w)
    ensures TrialExact(Took(w, ReserveWindow(w.gate, id, used, max), ForPlace(id)))
  {
    hide Total;
    if ReserveWindow(w.gate, id, used, max).0.Some? {
      var hold := ReserveWindow(w.gate, id, used, max).0.value;
      TotalMore(w.taken, Taken(hold, ForPlace(id), Live), GrantOf(w.gate.epoch));
    }
  }

  lemma CommitGrants(w: World, i: nat)
    requires TrialExact(w) && Enabled(w, Commits(i))
    ensures TrialExact(Step(w, Commits(i)))
  {
    hide Total;
    TotalChange(w.taken, i, Step(w, Commits(i)).taken[i], GrantOf(w.gate.epoch));
  }

  lemma RestartGrants(w: World, lost: set<nat>)
    requires HoldsOk(w)
    ensures TrialExact(Step(w, Restarts(lost)))
  {
    SurvivedOk(w, lost);
    NoGrantsYet(w.(taken := Survived(w.taken, lost)));
  }

  // A step keeps the count exact, whatever the clock does, exactly when it does not give
  // back a stray grant.
  lemma StepGrants(w: World, op: Op)
    requires HoldsOk(w) && TrialExact(w) && Enabled(w, op)
    ensures TrialExact(Step(w, op)) <==> !Stray(w, op)
  {
    hide TrialExact, HoldsOk, ReserveSignup, ReserveTrial, ReserveWindow, Released, Committed;
    match op
    case SignsUp(ip, now) => SignupGrants(w, ip, now);
    case AsksTrial(ip, now) => TrialGrants(w, ip, now);
    case TakesPlace(id, used, max) => PlaceGrants(w, id, used, max);
    case Fails(i) => ReleaseGrants(w, i);
    case Commits(i) => CommitGrants(w, i);
    case Opens(_, _) => SameGrants(w, Step(w, op));
    case Writes(_) => SameGrants(w, Step(w, op));
    case Restarts(lost) => RestartGrants(w, lost);
  }

  lemma SameGrants(w: World, v: World)
    requires TrialExact(w) && v == w.(windows := v.windows)
    ensures TrialExact(v)
  {
  }

  ghost predicate NoStray(w: World, ops: seq<Op>)
    decreases |ops|
  {
    ops == [] ||
    (if Enabled(w, ops[0]) then !Stray(w, ops[0]) && NoStray(Step(w, ops[0]), ops[1..])
     else NoStray(w, ops[1..]))
  }

  lemma {:induction false} RunGrants(w: World, ops: seq<Op>)
    requires Counted(w) && TrialExact(w) && w.gate.trialN <= TRIAL_BUDGET_HUB && NoStray(w, ops)
    ensures TrialExact(Run(w, ops)) && Run(w, ops).gate.trialN <= TRIAL_BUDGET_HUB
    decreases |ops|
  {
    if ops != [] {
      if Enabled(w, ops[0]) {
        StepCounts(w, ops[0]);
        StepGrants(w, ops[0]);
      }
      hide Counted;
      RunGrants(if Enabled(w, ops[0]) then Step(w, ops[0]) else w, ops[1..]);
    }
  }

  // In a run with no stray grant given back, the hub-wide count is exactly the current
  // roll's trial grants not given back, and they stay within the budget.
  lemma TrialsWithinBudget(ops: seq<Op>)
    requires NoStray(START, ops)
    ensures var w := Run(START, ops);
            w.gate.trialN == Total(w.taken, GrantOf(w.gate.epoch)) <= TRIAL_BUDGET_HUB
  {
    RunGrants(START, ops);
  }

  // ---- the count does break under a clock that steps back ----

  const HERE := Ip(false, 0)

  // A grant is reserved on day 1, the clock reads day 0 and then day 1 again, another is
  // reserved, and the first fails: the second is out and the hub counts none.
  lemma StrayGrantUncounted()
    ensures var ops := [AsksTrial(HERE, DAY), SignsUp(HERE, 0), AsksTrial(HERE, DAY), Fails(0)];
            var w := Run(START, ops);
            w.gate.trialN == 0 && Total(w.taken, GrantOf(w.gate.epoch)) == 1
  {
    var a, b, c, d := AsksTrial(HERE, DAY), SignsUp(HERE, 0), AsksTrial(HERE, DAY), Fails(0);
    var w1 := Step(START, a);
    assert |w1.taken| == 1 && w1.taken[0].hold.trial && w1.taken[0].status.Live?;
    assert w1.taken[0].hold.day == 1 && w1.taken[0].hold.epoch == 1 && w1.gate.epoch == 1 && w1.gate.day == 1;
    var w2 := Step(w1, b);
    assert w2.gate.epoch == 2 && w2.gate.day == 0 && w2.gate.trialN == 0;
    assert |w2.taken| == 2 && w2.taken[0] == w1.taken[0] && !w2.taken[1].hold.trial;
    ThenAgain(w2);
    var ops := [a, b, c, d];
    assert ops[1..] == [b, c, d] && [b, c, d][1..] == [c, d];
    assert Run(START, ops) == Run(w1, [b, c, d]) == Run(w2, [c, d]);
  }

  lemma ThenAgain(w2: World)
    requires w2.gate.epoch == 2 && w2.gate.day == 0 && w2.gate.trialN == 0 && |w2.taken| == 2
    requires w2.taken[0].hold.trial && w2.taken[0].status.Live?
    requires w2.taken[0].hold.day == 1 && w2.taken[0].hold.epoch == 1 && !w2.taken[1].hold.trial
    ensures var w := Run(w2, [AsksTrial(HERE, DAY), Fails(0)]);
            w.gate.trialN == 0 && Total(w.taken, GrantOf(w.gate.epoch)) == 1
  {
    var c, d := AsksTrial(HERE, DAY), Fails(0);
    var w3 := Step(w2, c);
    assert w3.gate.epoch == 3 && w3.gate.day == 1 && w3.gate.trialN == 1 && |w3.taken| == 3;
    assert w3.taken[2].hold.trial && w3.taken[2].hold.epoch == 3 && w3.taken[2].status.Live?;
    ThenGivenBack(w3);
    assert [c, d][1..] == [d];
    assert Run(w2, [c, d]) == Run(w3, [d]);
  }

  lemma ThenGivenBack(w3: World)
    requires w3.gate.epoch == 3 && w3.gate.day == 1 && w3.gate.trialN == 1 && |w3.taken| == 3
    requires w3.taken[0].hold.trial && w3.taken[0].status.Live? && w3.taken[0].hold.day == 1
    requires w3.taken[0].hold.epoch == 1 && !w3.taken[1].hold.trial
    requires w3.taken[2].hold.trial && w3.taken[2].hold.epoch == 3 && w3.taken[2].status.Live?
    ensures var w := Run(w3, [Fails(0)]);
            w.gate.trialN == 0 && Total(w.taken, GrantOf(w.gate.epoch)) == 1
  {
    var w4 := Step(w3, Fails(0));
    assert [Fails(0)][1..] == [];
    assert Run(w3, [Fails(0)]) == w4;
    TotalMore(w4.taken[..2], w4.taken[2], GrantOf(3));
    TotalMore(w4.taken[..1], w4.taken[1], GrantOf(3));
    TotalMore([], w4.taken[0], GrantOf(3));
    assert w4.taken == w4.taken[..2] + [w4.taken[2]] && w4.taken[..2] == w4.taken[..1] + [w4.taken[1]];
    assert w4.taken[..1] == [] + [w4.taken[0]];
  }
}
