// The floor reported for a signer is its own until its part forgets it: a sweep drops it,
// or drops another signer above the part's floor while nothing is kept of it.
module ReplayFloors {
  import opened Basics
  import opened Replay
  import opened ReplayRuns
  import opened ReplayAlone
  import ReplayReasons

  // A signer's largest time is kept, without the valve.
  ghost predicate Busy(st: State) {
    forall aid :: aid in st.signers ==> st.signers[aid].maxSeen in st.signers[aid].recent
  }

  lemma TookBusy(s: Signer, ts: nat, k: int)
    requires SignerOk(s) && s.floor < ts && ts !in s.recent
    requires (s.recent == [] && s.maxSeen == 0) || s.maxSeen in s.recent
    ensures Took(s, ts, k).maxSeen in Took(s, ts, k).recent
  {
    hide Inserted, Followed, Trim;
    var b := Followed(Inserted(s, ts));
    PlacedOk(s, ts);
    InsertedMax(s, ts);
    FollowedOk(Inserted(s, ts));
    TrimmedOk(b, Max(k, 1));
    var r := Took(s, ts, k);
    TookOk(s, ts, k);
    if |b.recent| > Max(k, 1) {
      assert r.recent[0] in r.recent;
    } else {
      ReplayReasons.TrimNothing(b, Max(k, 1));
    }
  }

  // What a sweep of part at a time would lose of aid: its state, if that is idle, or, when
  // there is none, the floor of its part to an idle signer above it.
  ghost predicate Forgets(st: State, aid: Aid, part: nat, at: int) {
    var limit := at - st.skew;
    && limit > 0 && part == PartOf(st, aid)
    && if aid in st.signers then Idle(st, part, limit, aid)
       else exists a :: a in st.signers && Idle(st, part, limit, a) && Top(st.signers[a]) > st.gone[part]
  }

  // A sweep leaves the floor reported for a signer as it was exactly when it does not
  // forget it, and then all that is known of it too.
  lemma SweepTellsTheFloor(st: State, aid: Aid, part: nat, at: int)
    requires Sound(st) && Busy(st)
    ensures FloorOf(Sweep(st, part, at), aid) == FloorOf(st, aid) <==> !Forgets(st, aid, part, at)
    ensures !Forgets(st, aid, part, at) ==> StateOf(Sweep(st, part, at), aid) == StateOf(st, aid)
  {
    var limit := at - st.skew;
    if limit > 0 && part == PartOf(st, aid) {
      var tops := IdleTops(st, part, limit);
      if aid in st.signers && Idle(st, part, limit, aid) {
        assert Top(st.signers[aid]) in tops;
        MaxAboveFloor(st, aid);
      } else if aid !in st.signers && Forgets(st, aid, part, at) {
        var a :| a in st.signers && Idle(st, part, limit, a) && Top(st.signers[a]) > st.gone[part];
        assert Top(st.signers[a]) in tops;
      } else if aid !in st.signers {
        LargestNone(st, part, limit);
      }
    }
  }

  lemma MaxAboveFloor(st: State, aid: Aid)
    requires Sound(st) && Busy(st) && aid in st.signers
    ensures st.signers[aid].maxSeen > st.signers[aid].floor
  {
  }

  lemma LargestNone(st: State, part: nat, limit: int)
    requires part < |st.gone|
    requires forall a :: a in st.signers && Idle(st, part, limit, a) ==> Top(st.signers[a]) <= st.gone[part]
    ensures Largest(st.gone[part], IdleTops(st, part, limit)) == st.gone[part]
  {
  }

  lemma StepBusy(st: State, op: Op)
    requires Sound(st) && Busy(st) && !op.Flattening?
    ensures Busy(Step(st, op))
  {
    hide Took;
    if op.Request? && AnswerTo(st, op).Accepted? {
      SoundState(st, op.aid);
      TookBusy(StateOf(st, op.aid), op.ts, op.k);
    }
  }

  // No step of the run forgets aid, and the valve does not run.
  ghost predicate NeverForgets(st: State, ops: seq<Op>, aid: Aid)
    decreases |ops|
  {
    ops == [] ||
    (var before, op := ops[..|ops| - 1], ops[|ops| - 1];
     && NeverForgets(st, before, aid) && !op.Flattening?
     && (op.Sweeping? ==> !Forgets(Run(st, before), aid, op.part, op.at)))
  }

  lemma StepOwn(st: State, op: Op, aid: Aid)
    requires Sound(st) && Busy(st) && !op.Flattening?
    requires op.Sweeping? ==> !Forgets(st, aid, op.part, op.at)
    ensures StateOf(Step(st, op), aid) ==
            if Own(op, aid) then Judge(StateOf(st, aid), st.skew, op.ts, op.k, op.now).1 else StateOf(st, aid)
  {
    hide Judge;
    if op.Sweeping? {
      SweepTellsTheFloor(st, aid, op.part, op.at);
    } else {
      JudgeMoves(StateOf(st, op.aid), st.skew, op.ts, op.k, op.now);
    }
  }

  lemma {:induction false} RunOwn(skew: nat, parts: nat, t0: int, ops: seq<Op>, aid: Aid)
    requires parts > 0 && NeverForgets(Start(skew, parts, t0), ops, aid)
    ensures var st := Run(Start(skew, parts, t0), ops);
            && st.skew == skew && Sound(st) && Busy(st)
            && StateOf(st, aid) == Alone(skew, StartFloor(t0), ops, aid)
    decreases |ops|
  {
    var from := Start(skew, parts, t0);
    if ops != [] {
      var before, op := ops[..|ops| - 1], ops[|ops| - 1];
      RunOwn(skew, parts, t0, before, aid);
      hide Forgets, Busy, Judge, Step, Remembers;
      StepBusy(Run(from, before), op);
      StepOwn(Run(from, before), op, aid);
      StepSkew(Run(from, before), op);
      StartRemembers(skew, parts, t0);
      RunRemembers(from, ops);
      RemembersSound(Run(from, ops), AcceptedIn(from, ops));
    }
  }

  lemma RemembersSound(st: State, accepted: seq<(Aid, nat)>)
    requires Remembers(st, accepted)
    ensures Sound(st)
  {
  }

  // Until it is forgotten, what is known of a signer, and the floor reported for it, is
  // exactly that of a state of its own, under any clock.
  lemma OwnFloorUntilForgotten(skew: nat, parts: nat, t0: int, ops: seq<Op>, aid: Aid)
    requires parts > 0 && NeverForgets(Start(skew, parts, t0), ops, aid)
    ensures FloorOf(Run(Start(skew, parts, t0), ops), aid) == Alone(skew, StartFloor(t0), ops, aid).floor
  {
    RunOwn(skew, parts, t0, ops, aid);
  }

  // Afterwards it need not be: a signs at 5 and is swept at 100, and b, which never
  // signed, is told the floor 5 where its own is 0. Neither is in the window.
  lemma FloorOfAnother(a: Aid, b: Aid)
    requires a != b
    ensures var ops := [Request(a, 5, 1, 5), Sweeping(0, 100)];
            && Steady(1, ops) && FloorOf(Run(Start(10, 1, 1), ops), b) == 5
            && Alone(10, StartFloor(1), ops, b).floor == 0
  {
    var start, ask, sweep := Start(10, 1, 1), Request(a, 5, 1, 5), Sweeping(0, 100);
    assert [ask, sweep][..1] == [ask] && [ask][..0] == [];
    assert Run(start, []) == start;
    var st := Run(start, [ask]);
    assert st == Step(start, ask);
    TookFirst();
    assert st.signers == map[a := Signer(0, 5, [5])] && st.gone == [0];
    var v := Sweep(st, 0, 100);
    assert Idle(st, 0, 90, a) && IdleTops(st, 0, 90) == {5};
    assert Run(start, [ask, sweep]) == v && v.gone[0] == 5 && b !in v.signers;
    assert Alone(10, 0, [ask], b) == Signer(0, 0, []);
    assert Steady(1, []) && Clock(1, []) == 1 && Steady(1, [ask]);
  }

  lemma TookFirst()
    ensures Took(Signer(0, 0, []), 5, 1) == Signer(0, 5, [5])
  {
    assert Inserted(Signer(0, 0, []), 5) == Signer(0, 5, [5]);
  }
}
