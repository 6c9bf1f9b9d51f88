// Whole runs of the replay state, under any clock, with any K at each request, and
// with parts swept and signers flattened at any time: no signed time is accepted
// twice, and each answer is explained by what was accepted before.
module ReplayRuns {
  import opened Basics
  import opened Replay

  // The signed times accepted in a run, in order.
  ghost function AcceptedIn(st: State, ops: seq<Op>): seq<(Aid, nat)>
    decreases |ops|
  {
    if ops == [] then []
    else
      var before, op := ops[..|ops| - 1], ops[|ops| - 1];
      AcceptedIn(st, before)
      + if op.Request? && AnswerTo(Run(st, before), op).Accepted? then [(op.aid, op.ts)] else []
  }

  // p would be refused as stale or as replayed.
  predicate Remembered(st: State, p: (Aid, nat)) {
    p.1 <= FloorOf(st, p.0) || p.1 in StateOf(st, p.0).recent
  }

  predicate Kept(st: State, aid: Aid, t: nat) {
    t in StateOf(st, aid).recent
  }

  predicate Distinct<T(==)>(s: seq<T>) {
    forall i, j :: 0 <= i < j < |s| ==> s[i] != s[j]
  }

  ghost predicate Remembers(st: State, accepted: seq<(Aid, nat)>) {
    && Sound(st) && Distinct(accepted)
    && (forall p :: p in accepted ==> Remembered(st, p))
    && (forall aid, t: nat :: Kept(st, aid, t) ==> (aid, t) in accepted)
  }

  lemma SoundState(st: State, aid: Aid)
    requires Sound(st)
    ensures SignerOk(StateOf(st, aid))
  {
  }

  lemma AcceptKeeps(st: State, accepted: seq<(Aid, nat)>, aid: Aid, ts: nat, k: int)
    requires Remembers(st, accepted) && ts > FloorOf(st, aid) && !Kept(st, aid, ts)
    ensures Remembers(st.(signers := st.signers[aid := Took(StateOf(st, aid), ts, k)]), accepted + [(aid, ts)])
  {
    hide Took;
    var s := StateOf(st, aid);
    var st' := st.(signers := st.signers[aid := Took(s, ts, k)]);
    SoundState(st, aid);
    TookOk(s, ts, k);
    var acc := accepted + [(aid, ts)];
    assert (aid, ts) !in accepted by {
      assert !Remembered(st, (aid, ts));
    }
    assert Sound(st');
    forall p | p in acc ensures Remembered(st', p) {
      if p.0 == aid {
        assert StateOf(st', aid) == Took(s, ts, k);
        assert p in accepted ==> Remembered(st, p);
      } else {
        assert p in accepted && Remembered(st, p) && StateOf(st', p.0) == StateOf(st, p.0);
      }
    }
    forall a, t: nat | Kept(st', a, t) ensures (a, t) in acc {
      assert a != aid ==> Kept(st, a, t);
      assert a == aid && t != ts ==> Kept(st, a, t);
      assert (aid, ts) == acc[|accepted|];
    }
  }

  lemma RequestKeeps(st: State, accepted: seq<(Aid, nat)>, aid: Aid, ts: nat, k: int, now: int)
    requires Remembers(st, accepted)
    ensures Remembers(Ask(st, aid, ts, k, now).1,
                      accepted + if Ask(st, aid, ts, k, now).0.Accepted? then [(aid, ts)] else [])
  {
    hide Took, Remembers;
    if Ask(st, aid, ts, k, now).0.Accepted? {
      AcceptKeeps(st, accepted, aid, ts, k);
    } else {
      assert accepted + [] == accepted;
    }
  }

  // A sweep leaves a signer as it was, or drops it below the part's new floor.
  lemma SweepLeaves(st: State, part: nat, now: int, aid: Aid)
    requires Sound(st)
    ensures var st' := Sweep(st, part, now);
            && FloorOf(st', aid) >= FloorOf(st, aid)
            && (StateOf(st', aid).recent == StateOf(st, aid).recent
                || (StateOf(st', aid).recent == [] && FloorOf(st', aid) >= Top(StateOf(st, aid))))
  {
    var limit := now - st.skew;
    if limit > 0 && part < |st.gone| && aid in st.signers && Idle(st, part, limit, aid) {
      assert Top(st.signers[aid]) in IdleTops(st, part, limit);
    }
  }

  lemma SweepKeeps(st: State, accepted: seq<(Aid, nat)>, part: nat, now: int)
    requires Remembers(st, accepted)
    ensures Remembers(Sweep(st, part, now), accepted)
  {
    var st' := Sweep(st, part, now);
    forall aid ensures FloorOf(st', aid) >= FloorOf(st, aid)
                       && (StateOf(st', aid).recent == StateOf(st, aid).recent
                           || (StateOf(st', aid).recent == [] && FloorOf(st', aid) >= Top(StateOf(st, aid)))) {
      SweepLeaves(st, part, now, aid);
    }
    hide Sweep;
    forall p | p in accepted ensures Remembered(st', p) {
      assert Remembered(st, p);
      SoundState(st, p.0);
    }
    forall a, t: nat | Kept(st', a, t) ensures (a, t) in accepted {
      assert Kept(st, a, t);
    }
    SweepSound(st, part, now);
  }

  lemma SweepSound(st: State, part: nat, now: int)
    requires Sound(st)
    ensures Sound(Sweep(st, part, now))
  {
  }

  lemma FlattenKeeps(st: State, accepted: seq<(Aid, nat)>, who: Aid)
    requires Remembers(st, accepted)
    ensures Remembers(Flatten(st, who), accepted)
  {
  }

  lemma StartRemembers(skew: nat, parts: nat, now: int)
    requires parts > 0
    ensures Remembers(Start(skew, parts, now), [])
  {
  }

  lemma {:induction false} RunRemembers(st: State, ops: seq<Op>)
    requires Remembers(st, [])
    ensures Remembers(Run(st, ops), AcceptedIn(st, ops))
    decreases |ops|
  {
    hide Remembers, Ask, Sweep, Flatten;
    if ops != [] {
      var before := ops[..|ops| - 1];
      RunRemembers(st, before);
      var now, acc := Run(st, before), AcceptedIn(st, before);
      assert acc + [] == acc;
      match ops[|ops| - 1]
      case Request(aid, ts, k, at) => RequestKeeps(now, acc, aid, ts, k, at);
      case Sweeping(part, at) => SweepKeeps(now, acc, part, at);
      case Flattening(who) => FlattenKeeps(now, acc, who);
    }
  }

  // No signer's time is accepted twice, in any run.
  lemma NeverTwice(skew: nat, parts: nat, now: int, ops: seq<Op>)
    requires parts > 0
    ensures Distinct(AcceptedIn(Start(skew, parts, now), ops))
  {
    StartRemembers(skew, parts, now);
    RunRemembers(Start(skew, parts, now), ops);
  }

  lemma {:induction false} RunSkew(st: State, ops: seq<Op>)
    ensures Run(st, ops).skew == st.skew
    decreases |ops|
  {
    if ops != [] {
      RunSkew(st, ops[..|ops| - 1]);
    }
  }

  // A signer the valve flattened keeps no times, and accepts none but those above everything
  // it signed; nobody else notices.
  lemma FlattenedIsMonotonic(skew: nat, parts: nat, start: int, ops: seq<Op>, who: Aid,
                             aid: Aid, ts: nat, k: int, now: int)
    requires parts > 0
    ensures var st := Run(Start(skew, parts, start), ops); var v := Step(st, Flattening(who));
            && (aid == who && who in st.signers ==>
                 (AnswerTo(v, Request(aid, ts, k, now)).Accepted? <==>
                    && InWindow(skew, ts, now) && ts > st.signers[who].floor && ts > st.signers[who].maxSeen))
            && (aid != who || who !in st.signers ==> StateOf(v, aid) == StateOf(st, aid))
  {
    RunSkew(Start(skew, parts, start), ops);
  }

  // In every state a run reaches, the answer to a request in the window is stale
  // exactly at or below the floor that floorOf reports; above it, it is replayed
  // exactly when that time was accepted from that signer before. So the floor never
  // refuses a time that would be accepted, and nothing that was not seen is refused
  // as seen.
  lemma AnswerExplained(skew: nat, parts: nat, start: int, ops: seq<Op>, aid: Aid, ts: nat, k: int, now: int)
    requires parts > 0
    ensures var from := Start(skew, parts, start);
            var st := Run(from, ops);
            AnswerTo(st, Request(aid, ts, k, now)) ==
              if ts > MAX_TS || ts < now - skew || ts > now + skew then Outside
              else if ts <= FloorOf(st, aid) then Stale(FloorOf(st, aid))
              else if (aid, ts) in AcceptedIn(from, ops) then Replayed
              else Accepted
  {
    var from := Start(skew, parts, start);
    StartRemembers(skew, parts, start);
    RunRemembers(from, ops);
    RunSkew(from, ops);
    var st := Run(from, ops);
    if (aid, ts) in AcceptedIn(from, ops) {
      assert Remembered(st, (aid, ts));
    }
    assert Kept(st, aid, ts) ==> (aid, ts) in AcceptedIn(from, ops);
  }

  // The floor of every signer only rises.
  lemma FloorsRise(st: State, op: Op, aid: Aid)
    requires Sound(st)
    ensures FloorOf(Step(st, op), aid) >= FloorOf(st, aid)
  {
    hide Took;
    match op
    case Request(a, ts, k, now) =>
      SoundState(st, a);
      if AnswerTo(st, op).Accepted? {
        TookOk(StateOf(st, a), ts, k);
      }
    case Sweeping(part, at) => SweepLeaves(st, part, at, aid);
    case Flattening(_) =>
  }

  // The floor is at most W behind every accepted time.
  ghost predicate Follows(st: State, accepted: seq<(Aid, nat)>) {
    forall p :: p in accepted ==> p.1 - W <= FloorOf(st, p.0)
  }

  lemma RequestFollows(st: State, accepted: seq<(Aid, nat)>, op: Op)
    requires Sound(st) && Follows(st, accepted) && op.Request? && AnswerTo(st, op).Accepted?
    ensures Follows(Step(st, op), accepted + [(op.aid, op.ts)])
  {
    hide Inserted, Followed, Trim;
    var s := StateOf(st, op.aid);
    SoundState(st, op.aid);
    PlacedOk(s, op.ts);
    InsertedMax(s, op.ts);
    FollowedOk(Inserted(s, op.ts));
    TrimmedOk(Followed(Inserted(s, op.ts)), Max(op.k, 1));
    forall p | p in accepted ensures p.1 - W <= FloorOf(Step(st, op), p.0) {
      FloorsRise(st, op, p.0);
    }
  }

  lemma StepFollows(st: State, accepted: seq<(Aid, nat)>, op: Op)
    requires Sound(st) && Follows(st, accepted)
    ensures Follows(Step(st, op), accepted)
  {
    forall p | p in accepted ensures p.1 - W <= FloorOf(Step(st, op), p.0) {
      FloorsRise(st, op, p.0);
    }
  }

  lemma {:induction false} RunFollows(st: State, ops: seq<Op>)
    requires Remembers(st, [])
    ensures Follows(Run(st, ops), AcceptedIn(st, ops))
    decreases |ops|
  {
    if ops != [] {
      var before, op := ops[..|ops| - 1], ops[|ops| - 1];
      RunFollows(st, before);
      RunRemembers(st, before);
      hide Follows, Step, Ask;
      assert AcceptedIn(st, before) + [] == AcceptedIn(st, before);
      if op.Request? && AnswerTo(Run(st, before), op).Accepted? {
        RequestFollows(Run(st, before), AcceptedIn(st, before), op);
      } else {
        StepFollows(Run(st, before), AcceptedIn(st, before), op);
      }
    }
  }

  // Requests may arrive out of order by less than W, and no more: a time in the window
  // and W or more behind one accepted from its signer is refused as stale.
  lemma OutOfOrderByLessThanW(skew: nat, parts: nat, start: int, ops: seq<Op>,
                              aid: Aid, ts: nat, t: nat, k: int, now: int)
    requires parts > 0 && (aid, t) in AcceptedIn(Start(skew, parts, start), ops) && ts + W <= t
    ensures var st := Run(Start(skew, parts, start), ops);
            InWindow(st.skew, ts, now) ==> AnswerTo(st, Request(aid, ts, k, now)).Stale?
  {
    StartRemembers(skew, parts, start);
    RunFollows(Start(skew, parts, start), ops);
    AnswerExplained(skew, parts, start, ops, aid, ts, k, now);
  }
}
