// The shared floor of a part is invisible: while the hub's clock does not step back
// and the valve does not run, each signer is answered as by a state of its own that
// never forgets anything, whatever other signers send and however the state is
// divided and swept.
module ReplayAlone {
  import opened Basics
  import opened Replay
  import opened ReplayRuns

  // ---- runs under a clock that does not step back, without the valve ----

  function TimeOf(op: Op): int {
    match op
    case Request(_, _, _, now) => now
    case Sweeping(_, at) => at
    case Flattening(_) => 0
  }

  function Clock(t0: int, ops: seq<Op>): int {
    if ops == [] then t0 else TimeOf(ops[|ops| - 1])
  }

  predicate Steady(t0: int, ops: seq<Op>)
    decreases |ops|
  {
    ops == [] ||
    (var before, op := ops[..|ops| - 1], ops[|ops| - 1];
     Steady(t0, before) && !op.Flattening? && Clock(t0, before) <= TimeOf(op))
  }

  // The oldest time in the window now.
  function Limit(skew: nat, t0: int, ops: seq<Op>): int {
    Clock(t0, ops) - skew
  }

  // ---- a signer with a state of its own ----

  predicate Own(op: Op, aid: Aid) {
    op.Request? && op.aid == aid
  }

  function Alone(skew: nat, floor: nat, ops: seq<Op>, aid: Aid): Signer
    decreases |ops|
  {
    if ops == [] then Signer(floor, 0, [])
    else
      var s, op := Alone(skew, floor, ops[..|ops| - 1], aid), ops[|ops| - 1];
      if Own(op, aid) then Judge(s, skew, op.ts, op.k, op.now).1 else s
  }

  function OwnRequests(ops: seq<Op>, aid: Aid): seq<Op>
    decreases |ops|
  {
    if ops == [] then []
    else OwnRequests(ops[..|ops| - 1], aid) + if Own(ops[|ops| - 1], aid) then [ops[|ops| - 1]] else []
  }

  lemma {:induction false} AloneReadsOwn(skew: nat, floor: nat, ops: seq<Op>, aid: Aid)
    ensures Alone(skew, floor, ops, aid) == Alone(skew, floor, OwnRequests(ops, aid), aid)
    decreases |ops|
  {
    if ops != [] {
      var before, op := ops[..|ops| - 1], ops[|ops| - 1];
      AloneReadsOwn(skew, floor, before, aid);
      var own := OwnRequests(before, aid);
      if Own(op, aid) {
        assert OwnRequests(ops, aid) == own + [op] && (own + [op])[..|own|] == own;
      } else {
        assert OwnRequests(ops, aid) == own;
      }
    }
  }

  // ---- agreement on what the window can still reach ----

  predicate Near(lim: int, a: int, b: int) {
    a == b || (a < lim && b < lim)
  }

  ghost predicate SameAbove(lim: int, a: seq<nat>, b: seq<nat>) {
    forall t: nat :: t >= lim ==> (t in a <==> t in b)
  }

  // Two states of a signer that no request in the window tells apart.
  ghost predicate Alike(lim: int, s: Signer, r: Signer) {
    && SignerOk(s) && SignerOk(r)
    && Near(lim, s.floor, r.floor) && Near(lim, s.maxSeen, r.maxSeen)
    && SameAbove(lim, s.recent, r.recent)
  }

  lemma AlikeLater(lim: int, later: int, s: Signer, r: Signer)
    requires Alike(lim, s, r) && lim <= later
    ensures Alike(later, s, r)
  {
  }

  lemma LastIn(a: seq<nat>)
    requires a != []
    ensures a[|a| - 1] in a
  {
  }

  lemma ButLast(a: seq<nat>, a': seq<nat>, x: nat)
    requires Ascending(a) && a == a' + [x]
    ensures Ascending(a')
    ensures forall t: nat :: t in a' <==> t in a && t < x
    ensures forall t: nat :: t in a ==> t <= x
  {
    assert a[|a'|] == x;
    assert forall i :: 0 <= i < |a'| ==> a'[i] == a[i];
    forall t: nat | t in a' ensures t in a && t < x {
      var i :| 0 <= i < |a'| && a'[i] == t;
      assert a[i] == t;
    }
  }

  lemma {:induction false} SameElements(a: seq<nat>, b: seq<nat>)
    requires Ascending(a) && Ascending(b) && forall t: nat :: t in a <==> t in b
    ensures a == b
    decreases |a|
  {
    if a != [] {
      LastIn(a);
    }
    if b != [] {
      LastIn(b);
    }
    if a != [] && b != [] {
      var a', b', x := a[..|a| - 1], b[..|b| - 1], a[|a| - 1];
      ButLast(a, a', x);
      ButLast(b, b', b[|b| - 1]);
      assert b[|b| - 1] == x;
      SameElements(a', b');
    }
  }

  // An ascending sequence, cut where the window begins.
  function Reach(lim: int, s: seq<nat>): seq<nat> {
    if lim <= 0 then s else s[Place(s, lim)..]
  }

  lemma ReachIs(lim: int, s: seq<nat>)
    requires Ascending(s)
    ensures Ascending(Reach(lim, s)) && |Reach(lim, s)| <= |s|
    ensures forall t: nat :: t in Reach(lim, s) <==> t in s && t >= lim
    ensures s == s[..|s| - |Reach(lim, s)|] + Reach(lim, s)
    ensures forall i :: 0 <= i < |s| - |Reach(lim, s)| ==> s[i] < lim
  {
  }

  lemma SameReach(lim: int, a: seq<nat>, b: seq<nat>)
    requires Ascending(a) && Ascending(b) && SameAbove(lim, a, b)
    ensures Reach(lim, a) == Reach(lim, b)
  {
    ReachIs(lim, a);
    ReachIs(lim, b);
    SameElements(Reach(lim, a), Reach(lim, b));
  }

  // Trimming drops times the window cannot reach first.
  lemma TrimFloor(lim: int, s: Signer, n: nat)
    requires SignerOk(s) && n > 0
    ensures var c := Reach(lim, s.recent);
            if |c| > n then Trim(s, n).floor == c[|c| - n - 1]
            else Trim(s, n).floor == s.floor || Trim(s, n).floor < lim
  {
  }

  lemma OkAscends(s: Signer)
    requires SignerOk(s)
    ensures Ascending(s.recent)
  {
  }

  lemma TrimNear(lim: int, s: Signer, r: Signer, n: nat)
    requires Alike(lim, s, r) && n > 0
    ensures Near(lim, Trim(s, n).floor, Trim(r, n).floor)
  {
    SameReach(lim, s.recent, r.recent);
    if s.floor == r.floor >= lim {
      SameElements(s.recent, r.recent);
    } else {
      TrimFloor(lim, s, n);
      TrimFloor(lim, r, n);
    }
  }

  lemma TrimAlike(lim: int, s: Signer, r: Signer, n: nat)
    requires Alike(lim, s, r) && n > 0
    ensures Alike(lim, Trim(s, n), Trim(r, n))
  {
    hide Trim, SignerOk;
    TrimNear(lim, s, r, n);
    TrimmedOk(s, n);
    TrimmedOk(r, n);
  }

  lemma TookAlike(lim: int, s: Signer, r: Signer, ts: nat, k: int)
    requires Alike(lim, s, r) && ts >= lim
    requires ts > s.floor && ts > r.floor && ts !in s.recent && ts !in r.recent
    ensures Alike(lim, Took(s, ts, k), Took(r, ts, k))
  {
    hide Inserted, Followed, Trim;
    PlacedOk(s, ts);
    PlacedOk(r, ts);
    InsertedMax(s, ts);
    InsertedMax(r, ts);
    FollowedOk(Inserted(s, ts));
    FollowedOk(Inserted(r, ts));
    TrimAlike(lim, Followed(Inserted(s, ts)), Followed(Inserted(r, ts)), Max(k, 1));
  }

  lemma JudgeAlike(lim: int, s: Signer, r: Signer, skew: nat, ts: nat, k: int, now: int)
    requires Alike(lim, s, r) && lim == now - skew
    ensures Judge(s, skew, ts, k, now).0 == Judge(r, skew, ts, k, now).0
    ensures Alike(lim, Judge(s, skew, ts, k, now).1, Judge(r, skew, ts, k, now).1)
  {
    hide Took;
    if Judge(s, skew, ts, k, now).0.Accepted? {
      TookAlike(lim, s, r, ts, k);
    }
  }

  // ---- the parts' floors ----

  // A part's floor is where it started, or out of the window's reach; no signer is
  // below where its part started.
  ghost predicate FloorsLow(st: State, floor: nat, lim: int) {
    && Sound(st)
    && (forall i :: 0 <= i < |st.gone| ==> st.gone[i] >= floor && Near(lim, st.gone[i], floor))
    && (forall a :: a in st.signers ==> st.signers[a].floor >= floor)
  }

  lemma SweepAlike(st: State, floor: nat, lim: int, part: nat, aid: Aid, r: Signer, at: int)
    requires FloorsLow(st, floor, lim) && Alike(lim, StateOf(st, aid), r) && lim == at - st.skew
    ensures FloorsLow(Sweep(st, part, at), floor, lim) && Alike(lim, StateOf(Sweep(st, part, at), aid), r)
  {
  }

  lemma RequestKeepsFloors(st: State, floor: nat, lim: int, aid: Aid, ts: nat, k: int, now: int)
    requires FloorsLow(st, floor, lim)
    ensures FloorsLow(Ask(st, aid, ts, k, now).1, floor, lim)
  {
    hide Took;
    SoundState(st, aid);
    if Ask(st, aid, ts, k, now).0.Accepted? {
      TookOk(StateOf(st, aid), ts, k);
    }
  }

  lemma StepAlike(st: State, floor: nat, lim: int, op: Op, aid: Aid, r: Signer)
    requires FloorsLow(st, floor, lim) && Alike(lim, StateOf(st, aid), r) && !op.Flattening?
    requires lim == TimeOf(op) - st.skew
    ensures FloorsLow(Step(st, op), floor, lim)
    ensures Own(op, aid) ==> AnswerTo(st, op) == Judge(r, st.skew, op.ts, op.k, op.now).0
    ensures Alike(lim, StateOf(Step(st, op), aid),
                  if Own(op, aid) then Judge(r, st.skew, op.ts, op.k, op.now).1 else r)
  {
    hide Judge, FloorsLow, Alike, Sweep;
    match op
    case Request(a, ts, k, now) =>
      RequestKeepsFloors(st, floor, lim, a, ts, k, now);
      if a == aid {
        JudgeAlike(lim, StateOf(st, aid), r, st.skew, ts, k, now);
        JudgeMoves(StateOf(st, aid), st.skew, ts, k, now);
      }
    case Sweeping(part, at) => SweepAlike(st, floor, lim, part, aid, r, at);
  }

  // Only an accepted request changes a signer's state.
  lemma JudgeMoves(s: Signer, skew: nat, ts: nat, k: int, now: int)
    ensures !Judge(s, skew, ts, k, now).0.Accepted? ==> Judge(s, skew, ts, k, now).1 == s
  {
  }

  lemma FloorsLowLater(st: State, floor: nat, lim: int, later: int)
    requires FloorsLow(st, floor, lim) && lim <= later
    ensures FloorsLow(st, floor, later)
  {
  }

  lemma StepSkew(st: State, op: Op)
    ensures Step(st, op).skew == st.skew
  {
  }

  lemma {:induction false} RunAlike(skew: nat, parts: nat, t0: int, ops: seq<Op>, aid: Aid)
    requires parts > 0 && Steady(t0, ops)
    ensures var st := Run(Start(skew, parts, t0), ops); var lim := Limit(skew, t0, ops);
            && st.skew == skew && FloorsLow(st, StartFloor(t0), lim)
            && Alike(lim, StateOf(st, aid), Alone(skew, StartFloor(t0), ops, aid))
    decreases |ops|
  {
    if ops != [] {
      var before, op := ops[..|ops| - 1], ops[|ops| - 1];
      RunAlike(skew, parts, t0, before, aid);
      hide FloorsLow, Alike, Step, Judge;
      var st, r := Run(Start(skew, parts, t0), before), Alone(skew, StartFloor(t0), before, aid);
      FloorsLowLater(st, StartFloor(t0), Limit(skew, t0, before), Limit(skew, t0, ops));
      AlikeLater(Limit(skew, t0, before), Limit(skew, t0, ops), StateOf(st, aid), r);
      StepAlike(st, StartFloor(t0), Limit(skew, t0, ops), op, aid, r);
      StepSkew(st, op);
    }
  }

  // ---- the promises ----

  // Every answer a signer gets, with the floor it is told, is the one its own state
  // gives; and the floor reported for it is that state's, unless both are out of the
  // window's reach.
  lemma AnsweredAsAlone(skew: nat, parts: nat, t0: int, ops: seq<Op>, aid: Aid, ts: nat, k: int, now: int)
    requires parts > 0 && Steady(t0, ops) && Clock(t0, ops) <= now
    ensures var st := Run(Start(skew, parts, t0), ops); var r := Alone(skew, StartFloor(t0), ops, aid);
            && AnswerTo(st, Request(aid, ts, k, now)) == Judge(r, skew, ts, k, now).0
            && Near(Limit(skew, t0, ops), FloorOf(st, aid), r.floor)
  {
    var st, r := Run(Start(skew, parts, t0), ops), Alone(skew, StartFloor(t0), ops, aid);
    RunAlike(skew, parts, t0, ops, aid);
    AlikeLater(Limit(skew, t0, ops), now - skew, StateOf(st, aid), r);
    JudgeAlike(now - skew, StateOf(st, aid), r, skew, ts, k, now);
  }

  // So no answer depends on what other signers sent, on how many parts the state
  // has, or on when they were swept.
  lemma OthersDoNotMatter(skew: nat, parts: nat, ops: seq<Op>, parts': nat, ops': seq<Op>,
                          t0: int, aid: Aid, ts: nat, k: int, now: int)
    requires parts > 0 && Steady(t0, ops) && Clock(t0, ops) <= now
    requires parts' > 0 && Steady(t0, ops') && Clock(t0, ops') <= now
    requires OwnRequests(ops, aid) == OwnRequests(ops', aid)
    ensures AnswerTo(Run(Start(skew, parts, t0), ops), Request(aid, ts, k, now)) ==
            AnswerTo(Run(Start(skew, parts', t0), ops'), Request(aid, ts, k, now))
  {
    AnsweredAsAlone(skew, parts, t0, ops, aid, ts, k, now);
    AnsweredAsAlone(skew, parts', t0, ops', aid, ts, k, now);
    AloneReadsOwn(skew, StartFloor(t0), ops, aid);
    AloneReadsOwn(skew, StartFloor(t0), ops', aid);
  }
}
