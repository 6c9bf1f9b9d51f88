// Why a request in the window can be refused as stale, while the hub's clock does
// not step back and the valve does not run.
module ReplayReasons {
  import opened Basics
  import opened Replay
  import opened ReplayRuns
  import opened ReplayAlone

  // aid's accepted times above f.
  function Above(accepted: seq<(Aid, nat)>, aid: Aid, f: int): set<nat> {
    set p | p in accepted && p.0 == aid && p.1 > f :: p.1
  }

  predicate FarBehind(accepted: seq<(Aid, nat)>, aid: Aid, f: int) {
    exists p :: p in accepted && p.0 == aid && f + W <= p.1
  }

  // f is no higher than where the state started or than the window reaches, or aid
  // signed W past it, or signed K times past it.
  predicate Reason(accepted: seq<(Aid, nat)>, aid: Aid, f: int, start: nat, lim: int, K: nat) {
    f <= start || f < lim || FarBehind(accepted, aid, f) || |Above(accepted, aid, f)| >= K
  }

  predicate MaxAccepted(accepted: seq<(Aid, nat)>, aid: Aid, m: nat) {
    m == 0 || (aid, m) in accepted
  }

  lemma SubsetSize(a: set<nat>, b: set<nat>)
    requires a <= b
    ensures |a| <= |b|
  {
    assert b == a + (b - a);
  }

  lemma AboveGrows(accepted: seq<(Aid, nat)>, p: (Aid, nat), aid: Aid, f: int, g: int)
    requires g <= f
    ensures |Above(accepted, aid, f)| <= |Above(accepted + [p], aid, g)|
    ensures FarBehind(accepted, aid, f) ==> FarBehind(accepted + [p], aid, g)
  {
    SubsetSize(Above(accepted, aid, f), Above(accepted + [p], aid, g));
    if FarBehind(accepted, aid, f) {
      var q :| q in accepted && q.0 == aid && f + W <= q.1;
      assert q in accepted + [p];
    }
  }

  lemma ReasonLower(accepted: seq<(Aid, nat)>, aid: Aid, f: int, g: int, start: nat, lim: int, K: nat)
    requires Reason(accepted, aid, f, start, lim, K) && g <= f
    ensures Reason(accepted, aid, g, start, lim, K)
  {
    SubsetSize(Above(accepted, aid, f), Above(accepted, aid, g));
    if FarBehind(accepted, aid, f) {
      var q :| q in accepted && q.0 == aid && f + W <= q.1;
      assert g + W <= q.1;
    }
  }

  lemma {:induction false} CountAscending(r: seq<nat>, s: set<nat>)
    requires Ascending(r) && forall t: nat :: t in r ==> t in s
    ensures |s| >= |r|
    decreases |r|
  {
    if r != [] {
      var r', x := r[..|r| - 1], r[|r| - 1];
      LastIn(r);
      ButLast(r, r', x);
      CountAscending(r', s - {x});
    }
  }

  lemma TookReason(s: Signer, ts: nat, k: int, accepted: seq<(Aid, nat)>, aid: Aid, start: nat, lim: int, K: nat)
    requires SignerOk(s) && ts > s.floor && ts !in s.recent && K <= Max(k, 1)
    requires Reason(accepted, aid, s.floor, start, lim, K) && MaxAccepted(accepted, aid, s.maxSeen)
    requires forall t: nat :: t in s.recent ==> (aid, t) in accepted
    ensures Reason(accepted + [(aid, ts)], aid, Took(s, ts, k).floor, start, lim, K)
    ensures MaxAccepted(accepted + [(aid, ts)], aid, Took(s, ts, k).maxSeen)
  {
    hide Inserted, Followed, Trim, SignerOk;
    var a, b, r := Inserted(s, ts), Followed(Inserted(s, ts)), Took(s, ts, k);
    var acc := accepted + [(aid, ts)];
    PlacedOk(s, ts);
    InsertedMax(s, ts);
    FollowedOk(a);
    TrimmedOk(b, Max(k, 1));
    assert acc[|accepted|] == (aid, ts);
    AboveGrows(accepted, (aid, ts), aid, s.floor, s.floor);
    if |b.recent| > Max(k, 1) {
      OkAscends(r);
      CountAscending(r.recent, Above(acc, aid, r.floor)) by {
        forall t: nat | t in r.recent ensures t in Above(acc, aid, r.floor) {
          assert (aid, t) in acc;
        }
      }
    } else {
      TrimNothing(b, Max(k, 1));
      if b.floor != s.floor {
        assert (aid, a.maxSeen) in acc && b.floor + W <= a.maxSeen;
      }
    }
  }

  lemma TrimNothing(s: Signer, n: nat)
    requires |s.recent| <= n
    ensures Trim(s, n) == s
  {
  }

  // Every request of aid is made with at least K.
  predicate AtLeast(K: nat, ops: seq<Op>, aid: Aid) {
    forall i :: 0 <= i < |ops| && Own(ops[i], aid) ==> K <= Max(ops[i].k, 1)
  }

  ghost predicate Explained(st: State, accepted: seq<(Aid, nat)>, aid: Aid, start: nat, lim: int, K: nat) {
    Reason(accepted, aid, FloorOf(st, aid), start, lim, K) && MaxAccepted(accepted, aid, StateOf(st, aid).maxSeen)
  }

  lemma RequestExplained(st: State, accepted: seq<(Aid, nat)>, aid: Aid, op: Op, start: nat, lim: int, K: nat)
    requires Remembers(st, accepted) && Explained(st, accepted, aid, start, lim, K)
    requires op.Request? && (Own(op, aid) ==> K <= Max(op.k, 1))
    ensures Explained(Step(st, op),
                      accepted + if AnswerTo(st, op).Accepted? then [(op.aid, op.ts)] else [], aid, start, lim, K)
  {
    hide Took, SignerOk;
    if AnswerTo(st, op).Accepted? {
      var p := (op.aid, op.ts);
      AboveGrows(accepted, p, aid, FloorOf(st, aid), FloorOf(st, aid));
      if op.aid == aid {
        SoundState(st, aid);
        forall t: nat | t in StateOf(st, aid).recent ensures (aid, t) in accepted {
          assert Kept(st, aid, t);
        }
        TookReason(StateOf(st, aid), op.ts, op.k, accepted, aid, start, lim, K);
      }
    } else {
      assert accepted + [] == accepted;
    }
  }

  // A sweep leaves aid its state, or its part's floor.
  lemma SweepExplained(st: State, accepted: seq<(Aid, nat)>, aid: Aid, part: nat, at: int, start: nat, lim: int, K: nat)
    requires Explained(st, accepted, aid, start, lim, K)
    requires FloorsLow(Sweep(st, part, at), start, lim)
    ensures Explained(Sweep(st, part, at), accepted, aid, start, lim, K)
  {
  }

  lemma {:induction false} RunExplained(skew: nat, parts: nat, t0: int, ops: seq<Op>, aid: Aid, K: nat)
    requires parts > 0 && Steady(t0, ops) && AtLeast(K, ops, aid)
    ensures var from := Start(skew, parts, t0);
            Explained(Run(from, ops), AcceptedIn(from, ops), aid, StartFloor(t0), Limit(skew, t0, ops), K)
    decreases |ops|
  {
    var from := Start(skew, parts, t0);
    if ops != [] {
      var before, op := ops[..|ops| - 1], ops[|ops| - 1];
      RunExplained(skew, parts, t0, before, aid, K);
      assert Own(op, aid) ==> K <= Max(op.k, 1);
      RunAlike(skew, parts, t0, ops, aid);
      StartRemembers(skew, parts, t0);
      RunRemembers(from, before);
      hide Remembers, FloorsLow, Alike, Ask, Sweep;
      var acc := AcceptedIn(from, before);
      assert acc + [] == acc;
      if op.Request? {
        RequestExplained(Run(from, before), acc, aid, op, StartFloor(t0), Limit(skew, t0, ops), K);
      } else {
        SweepExplained(Run(from, before), acc, aid, op.part, op.at, StartFloor(t0), Limit(skew, t0, ops), K);
      }
    }
  }

  // A time in the window is refused as stale only at or below the start floor, or W
  // or more behind a time accepted from its signer, or with at least the smallest K
  // in use of its signer's accepted times above it.
  lemma StaleForAReason(skew: nat, parts: nat, t0: int, ops: seq<Op>, aid: Aid, ts: nat, k: int, now: int, K: nat)
    requires parts > 0 && Steady(t0, ops) && Clock(t0, ops) <= now && AtLeast(K, ops, aid)
    requires AnswerTo(Run(Start(skew, parts, t0), ops), Request(aid, ts, k, now)).Stale?
    ensures var accepted := AcceptedIn(Start(skew, parts, t0), ops);
            || ts <= StartFloor(t0)
            || (exists p :: p in accepted && p.0 == aid && ts + W <= p.1)
            || |Above(accepted, aid, ts)| >= K
  {
    var st := Run(Start(skew, parts, t0), ops);
    var accepted := AcceptedIn(Start(skew, parts, t0), ops);
    RunExplained(skew, parts, t0, ops, aid, K);
    RunAlike(skew, parts, t0, ops, aid);
    hide FloorsLow, Alike;
    assert ts >= Limit(skew, t0, ops);
    ReasonLower(accepted, aid, FloorOf(st, aid), ts, StartFloor(t0), Limit(skew, t0, ops), K);
  }
}
