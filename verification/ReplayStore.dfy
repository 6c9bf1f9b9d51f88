// The replay state as the hub keeps it: updated in place, request by request, with
// an estimate of its memory, swept part by part, and relieved by a valve when it
// grows past a mark. Every method is proved to be operations of Replay.
module ReplayStore {
  import opened Sums
  import opened Basics
  import opened Replay

  const SIGNER_BYTES: int := 96
  const SWEEP_EVERY: int := 10_000
  const VALVE_EVERY: int := 1_000

  // The estimated memory of one signer's state, whose list of times has room for cap.
  function SignerBytes(aid: Aid, cap: nat): int {
    SIGNER_BYTES + |aid.name| + 8 * cap
  }

  function Weights(caps: map<Aid, nat>): map<Aid, int> {
    map aid | aid in caps :: SignerBytes(aid, caps[aid])
  }

  // Sweeps and flattenings only: nothing a signer asked for.
  predicate Housekeeping(ops: seq<Op>) {
    forall i :: 0 <= i < |ops| ==> !ops[i].Request?
  }

  lemma RunAnother(st: State, ops: seq<Op>, op: Op)
    ensures Run(st, ops + [op]) == Step(Run(st, ops), op)
  {
  }

  lemma {:induction false} RunMore(st: State, ops: seq<Op>, more: seq<Op>)
    ensures Run(st, ops + more) == Run(Run(st, ops), more)
    decreases |more|
  {
    if more == [] {
      assert ops + more == ops;
    } else {
      var m := more[..|more| - 1];
      RunMore(st, ops, m);
      assert (ops + more)[..|ops + more| - 1] == ops + m;
    }
  }

  lemma PlaceIs(s: seq<nat>, t: nat, i: nat)
    requires Ascending(s) && i <= |s|
    requires (forall j :: 0 <= j < i ==> s[j] < t) && forall j :: i <= j < |s| ==> t <= s[j]
    ensures Place(s, t) == i
  {
  }

  // Raising the floor to the smallest time kept is one step of trimming.
  lemma TrimStep(s: Signer, n: nat)
    requires SignerOk(s) && |s.recent| > n
    ensures SignerOk(RaiseFloor(s, s.recent[0]))
    ensures |RaiseFloor(s, s.recent[0]).recent| == |s.recent| - 1
    ensures Trim(RaiseFloor(s, s.recent[0]), n) == Trim(s, n)
  {
    RaisedOk(s, s.recent[0]);
    PlaceIs(s.recent, s.recent[0] + 1, 1);
  }

  lemma TookFits(s: Signer, ts: nat, k: int)
    ensures |Took(s, ts, k).recent| <= |s.recent| + 1
  {
  }

  lemma WeightsPut(caps: map<Aid, nat>, aid: Aid, cap: nat)
    ensures Sum(Weights(caps[aid := cap])) ==
            Sum(Weights(caps)) - (if aid in caps then SignerBytes(aid, caps[aid]) else 0) + SignerBytes(aid, cap)
  {
    assert Weights(caps[aid := cap]) == Weights(caps)[aid := SignerBytes(aid, cap)];
    SumUpdate(Weights(caps), aid, SignerBytes(aid, cap));
  }

  lemma WeightsDrop(caps: map<Aid, nat>, aid: Aid)
    requires aid in caps
    ensures Sum(Weights(caps - {aid})) == Sum(Weights(caps)) - SignerBytes(aid, caps[aid])
  {
    assert Weights(caps - {aid}) == Weights(caps) - {aid};
    SumRemove(Weights(caps), aid);
  }

  // What is kept beside the signers' states agrees with them.
  ghost predicate Tracks(signers: map<Aid, Signer>, caps: map<Aid, nat>, bytes: int) {
    && caps.Keys == signers.Keys
    && (forall aid :: aid in signers ==> SignerOk(signers[aid]) && |signers[aid].recent| <= caps[aid])
    && bytes == Sum(Weights(caps))
  }

  lemma SameKeys(signers: map<Aid, Signer>, caps: map<Aid, nat>, bytes: int)
    requires Tracks(signers, caps, bytes)
    ensures caps.Keys == signers.Keys
  {
  }

  lemma TracksPut(signers: map<Aid, Signer>, caps: map<Aid, nat>, bytes: int, aid: Aid, s: Signer, cap: nat)
    requires Tracks(signers, caps, bytes) && SignerOk(s) && |s.recent| <= cap
    ensures aid in caps <==> aid in signers
    ensures Tracks(signers[aid := s], caps[aid := cap],
                   bytes - (if aid in caps then SignerBytes(aid, caps[aid]) else 0) + SignerBytes(aid, cap))
  {
    WeightsPut(caps, aid, cap);
  }

  lemma TracksDrop(signers: map<Aid, Signer>, caps: map<Aid, nat>, bytes: int, aid: Aid)
    requires Tracks(signers, caps, bytes) && aid in signers
    ensures aid in caps && Tracks(signers - {aid}, caps - {aid}, bytes - SignerBytes(aid, caps[aid]))
  {
    WeightsDrop(caps, aid);
  }

  lemma TracksOk(signers: map<Aid, Signer>, caps: map<Aid, nat>, bytes: int, aid: Aid)
    requires Tracks(signers, caps, bytes) && aid in signers
    ensures aid in caps && SignerOk(signers[aid]) && |signers[aid].recent| <= caps[aid]
  {
  }

  // How far a sweep of part of st has come: todo is still to be looked at.
  ghost predicate Sweeps(st: State, part: nat, limit: int, signers: map<Aid, Signer>, floor: nat, todo: set<Aid>)
    requires part < |st.gone|
  {
    && (forall aid :: aid in todo ==> aid in signers && PartOf(st, aid) == part)
    && (forall aid :: aid in signers ==> aid in st.signers && signers[aid] == st.signers[aid])
    && (forall aid :: aid in st.signers && aid !in signers ==>
         Idle(st, part, limit, aid) && Top(st.signers[aid]) <= floor)
    && (forall aid :: aid in signers && aid !in todo ==> !Idle(st, part, limit, aid))
    && st.gone[part] <= floor
    && (floor == st.gone[part] || floor in IdleTops(st, part, limit))
  }

  lemma AllToSweep(st: State, part: nat, limit: int, todo: set<Aid>)
    requires part < |st.gone| && todo == set aid | aid in st.signers && PartOf(st, aid) == part
    ensures Sweeps(st, part, limit, st.signers, st.gone[part], todo)
  {
  }

  lemma SweepsOne(st: State, part: nat, limit: int, signers: map<Aid, Signer>, floor: nat, todo: set<Aid>, aid: Aid)
    requires part < |st.gone| && aid in todo && Sweeps(st, part, limit, signers, floor, todo)
    ensures aid in signers && aid in st.signers && PartOf(st, aid) == part
    ensures var top := Top(signers[aid]);
            if top < limit then Sweeps(st, part, limit, signers - {aid}, Max(floor, top), todo - {aid})
            else Sweeps(st, part, limit, signers, floor, todo - {aid})
  {
    if Top(signers[aid]) < limit {
      assert Idle(st, part, limit, aid);
      assert Top(signers[aid]) in IdleTops(st, part, limit);
    }
  }

  lemma SweepsAll(st: State, part: nat, limit: int, signers: map<Aid, Signer>, floor: nat)
    requires part < |st.gone| && Sweeps(st, part, limit, signers, floor, {})
    ensures signers == Awake(st, part, limit) && floor == Largest(st.gone[part], IdleTops(st, part, limit))
  {
  }

  lemma Swept(st: State, part: nat, now: int, signers: map<Aid, Signer>, floor: nat)
    requires part < |st.gone| && now - st.skew > 0 && Sweeps(st, part, now - st.skew, signers, floor, {})
    ensures Sweep(st, part, now) == st.(signers := signers, gone := st.gone[part := floor])
  {
    hide Sweeps, Awake, IdleTops, Largest;
    SweepsAll(st, part, now - st.skew, signers, floor);
  }

  lemma NothingToSweep(st: State, part: nat, now: int)
    requires now - st.skew <= 0
    ensures Sweep(st, part, now) == st
  {
  }

  // Who is still held is held as before.
  ghost predicate HeldAsBefore(signers: map<Aid, Signer>, caps: map<Aid, nat>,
                               was: map<Aid, Signer>, room: map<Aid, nat>) {
    forall aid :: aid in signers ==>
      aid in was && signers[aid] == was[aid] && aid in caps && aid in room && caps[aid] == room[aid]
  }

  lemma HeldLess(signers: map<Aid, Signer>, caps: map<Aid, nat>, was: map<Aid, Signer>, room: map<Aid, nat>, aid: Aid)
    requires HeldAsBefore(signers, caps, was, room)
    ensures HeldAsBefore(signers - {aid}, caps - {aid}, was, room)
  {
  }

  lemma HeldStill(a: map<Aid, Signer>, b: map<Aid, nat>, c: map<Aid, Signer>, d: map<Aid, nat>,
                  e: map<Aid, Signer>, f: map<Aid, nat>)
    requires HeldAsBefore(a, b, c, d) && HeldAsBefore(c, d, e, f)
    ensures HeldAsBefore(a, b, e, f)
  {
  }

  lemma HeldAll(signers: map<Aid, Signer>, caps: map<Aid, nat>)
    requires caps.Keys == signers.Keys
    ensures HeldAsBefore(signers, caps, signers, caps)
  {
  }

  lemma OldestOfAll(signers: map<Aid, Signer>, room: map<Aid, nat>,
                    mid: map<Aid, Signer>, midRoom: map<Aid, nat>, caps: map<Aid, nat>)
    requires HeldAsBefore(mid, midRoom, signers, room) && OldestFlattened(mid, midRoom, caps) && caps.Keys == mid.Keys
    ensures OldestFlattened(signers, room, caps)
  {
  }

  // Oldest first, by the largest time seen.
  predicate OldestFirst(signers: map<Aid, Signer>, list: seq<Aid>) {
    && (forall i :: 0 <= i < |list| ==> list[i] in signers)
    && (forall i, j :: 0 <= i < j < |list| ==> signers[list[i]].maxSeen <= signers[list[j]].maxSeen)
  }

  // The list with aid put where its largest time seen belongs.
  function PutInOrder(signers: map<Aid, Signer>, list: seq<Aid>, aid: Aid): (r: seq<Aid>)
    requires OldestFirst(signers, list) && aid in signers
    ensures OldestFirst(signers, r)
    ensures forall a :: a in r <==> a == aid || a in list
  {
    if list == [] || signers[list[|list| - 1]].maxSeen <= signers[aid].maxSeen then list + [aid]
    else
      var r := PutInOrder(signers, list[..|list| - 1], aid);
      assert forall a :: a in list <==> a in list[..|list| - 1] || a == list[|list| - 1];
      assert forall i :: 0 <= i < |r| ==> r[i] in r;
      assert forall i :: 0 <= i < |list| - 1 ==> signers[list[i]].maxSeen <= signers[list[|list| - 1]].maxSeen;
      r + [list[|list| - 1]]
  }

  // The signers that lost their times were no later than any that kept them.
  ghost predicate OldestFlattened(signers: map<Aid, Signer>, was: map<Aid, nat>, caps: map<Aid, nat>) {
    forall a, b :: a in signers && b in signers && a in was && a in caps && b in caps
                   && was[a] > 0 && caps[a] == 0 && caps[b] > 0 ==>
      signers[a].maxSeen <= signers[b].maxSeen
  }

  lemma NothingFlattened(signers: map<Aid, Signer>, caps: map<Aid, nat>)
    ensures OldestFlattened(signers, caps, caps)
  {
  }

  // The first n of the list have lost their times, and nobody else has.
  ghost predicate FlattenedTo(was: map<Aid, nat>, caps: map<Aid, nat>, list: seq<Aid>, n: nat)
    requires n <= |list|
  {
    && caps.Keys == was.Keys
    && (forall j :: 0 <= j < n ==> list[j] in caps && caps[list[j]] == 0)
    && (forall aid :: aid in caps && aid !in list[..n] ==> caps[aid] == was[aid])
  }

  lemma NoneFlattened(caps: map<Aid, nat>, list: seq<Aid>)
    ensures FlattenedTo(caps, caps, list, 0)
  {
  }

  lemma ListedAreHeld(signers: map<Aid, Signer>, list: seq<Aid>)
    requires OldestFirst(signers, list)
    ensures forall i :: 0 <= i < |list| ==> list[i] in signers
  {
  }

  lemma FlattenedNext(was: map<Aid, nat>, caps: map<Aid, nat>, list: seq<Aid>, n: nat)
    requires n < |list| && list[n] in was && FlattenedTo(was, caps, list, n)
    ensures FlattenedTo(was, caps[list[n] := 0], list, n + 1)
  {
  }

  lemma FlattenedInOrder(signers: map<Aid, Signer>, was: map<Aid, nat>, caps: map<Aid, nat>, list: seq<Aid>, n: nat)
    requires OldestFirst(signers, list) && n <= |list| && was.Keys == signers.Keys
    requires forall aid :: aid in list <==> aid in signers && was[aid] > 0
    requires FlattenedTo(was, caps, list, n)
    ensures OldestFlattened(signers, was, caps)
    ensures n == |list| ==> forall aid :: aid in signers ==> caps[aid] == 0
  {
  }

  class ReplayState {
    const skew: nat
    const high: int
    const low: int
    var signers: map<Aid, Signer>
    var caps: map<Aid, nat>
    var gone: Floors
    var swept: seq<int>
    var bytes: int
    var next: nat
    var nextValve: int

    function View(): State
      reads this
    {
      State(skew, signers, gone)
    }

    ghost predicate Valid()
      reads this
    {
      Tracks(signers, caps, bytes) && |swept| == |gone|
    }

    constructor (skew: nat, now: int, parts: nat, high: int, low: int)
      requires parts > 0
      ensures Valid() && View() == Start(skew, parts, now) && this.high == high && this.low == low
      ensures bytes == 0 && next == 0 && nextValve == 0 && forall i :: 0 <= i < parts ==> swept[i] == now
    {
      this.skew, this.high, this.low := skew, high, low;
      signers, caps, bytes, next, nextValve := map[], map[], 0, 0, 0;
      gone := seq(parts, _ => StartFloor(now));
      swept := seq(parts, _ => now);
    }

    // room is how much a list that must grow grows beyond need.
    method AcceptLocked(aid: Aid, ts: nat, k: int, now: int, room: nat) returns (answer: Answer)
      requires Valid()
      modifies `signers, `caps, `bytes
      ensures Valid()
      ensures answer == Ask(old(View()), aid, ts, k, now).0
      ensures View() == Ask(old(View()), aid, ts, k, now).1
      ensures answer.Accepted? ==> |signers[aid].recent| <= Max(k, 1)
    {
      hide Tracks, Took, SignerOk;
      if !InWindow(skew, ts, now) {
        return Outside;
      }
      var part := aid.hash % |gone|;
      ghost var was := StateOf(View(), aid);
      if aid !in signers {
        if ts <= gone[part] {
          return Stale(gone[part]);
        }
        TracksPut(signers, caps, bytes, aid, Signer(gone[part], 0, []), 0);
        signers, caps := signers[aid := Signer(gone[part], 0, [])], caps[aid := 0];
        bytes := bytes + SignerBytes(aid, 0);
      }
      TracksOk(signers, caps, bytes, aid);
      var s := signers[aid];
      assert s == was;
      if ts <= s.floor {
        return Stale(s.floor);
      }
      if ts in s.recent {
        return Replayed;
      }
      var cap := if |s.recent| < caps[aid] then caps[aid] else |s.recent| + 1 + room;
      TookOk(s, ts, k);
      TookFits(s, ts, k);
      s := TakeTime(s, ts, k);
      TracksPut(signers, caps, bytes, aid, s, cap);
      bytes := bytes + SignerBytes(aid, cap) - SignerBytes(aid, caps[aid]);
      signers, caps := signers[aid := s], caps[aid := cap];
      return Accepted;
    }

    // The part of acceptLocked that updates a signer.
    static method TakeTime(was: Signer, ts: nat, k: int) returns (s: Signer)
      requires SignerOk(was) && was.floor < ts && ts !in was.recent
      ensures s == Took(was, ts, k)
    {
      hide SignerOk, Place, Trim;
      PlacedOk(was, ts);
      FollowedOk(Inserted(was, ts));
      var i := Place(was.recent, ts);
      s := was.(recent := was.recent[..i] + [ts] + was.recent[i..]);
      s := s.(maxSeen := Max(s.maxSeen, ts));
      assert s == Inserted(was, ts);
      s := FollowMaxSeen(s);
      s := KeepLargest(s, Max(k, 1));
    }

    static method FollowMaxSeen(was: Signer) returns (s: Signer)
      ensures s == Followed(was)
    {
      s := was;
      if s.maxSeen > W && s.maxSeen - W > s.floor {
        s := RaiseFloor(s, s.maxSeen - W);
      }
    }

    static method KeepLargest(was: Signer, n: nat) returns (s: Signer)
      requires SignerOk(was) && n > 0
      ensures s == Trim(was, n)
    {
      hide SignerOk;
      s := was;
      while |s.recent| > n
        invariant SignerOk(s) && Trim(s, n) == Trim(was, n)
        decreases |s.recent|
      {
        TrimStep(s, n);
        s := RaiseFloor(s, s.recent[0]);
      }
    }

    method SweepLocked(part: nat, now: int)
      requires Valid() && part < |gone|
      modifies `signers, `caps, `bytes, `gone, `swept
      ensures Valid() && View() == Sweep(old(View()), part, now)
      ensures swept == old(swept)[part := now]
      ensures HeldAsBefore(signers, caps, old(signers), old(caps))
    {
      hide Tracks, Sweep, Sweeps, HeldAsBefore, SignerBytes;
      SameKeys(signers, caps, bytes);
      HeldAll(signers, caps);
      swept := swept[part := now];
      var limit := now - skew;
      ghost var st := View();
      if limit <= 0 {
        NothingToSweep(st, part, now);
        return;
      }
      var todo := set aid | aid in signers && aid.hash % |gone| == part;
      AllToSweep(st, part, limit, todo);
      while todo != {}
        invariant Tracks(signers, caps, bytes)
        invariant swept == old(swept)[part := now]
        invariant |gone| == |st.gone| && gone == st.gone[part := gone[part]]
        invariant Sweeps(st, part, limit, signers, gone[part], todo)
        invariant HeldAsBefore(signers, caps, old(signers), old(caps))
        decreases todo
      {
        var aid :| aid in todo;
        SweepsOne(st, part, limit, signers, gone[part], todo, aid);
        todo := todo - {aid};
        var s := signers[aid];
        var top := Max(s.floor, s.maxSeen);
        if top < limit {
          TracksDrop(signers, caps, bytes, aid);
          HeldLess(signers, caps, old(signers), old(caps), aid);
          gone := gone[part := Max(gone[part], top)];
          bytes := bytes - SignerBytes(aid, caps[aid]);
          signers, caps := signers - {aid}, caps - {aid};
        }
      }
      Swept(st, part, now, signers, gone[part]);
    }

    // The first part of relieve: what may be dropped goes.
    method SweepAll(now: int) returns (ghost done: seq<Op>)
      requires Valid()
      modifies `signers, `caps, `bytes, `gone, `swept
      ensures Valid() && Housekeeping(done) && View() == Run(old(View()), done)
      ensures |swept| == |old(swept)| && forall i :: 0 <= i < |swept| ==> swept[i] == now
      ensures HeldAsBefore(signers, caps, old(signers), old(caps))
    {
      hide Tracks, Sweep, HeldAsBefore;
      SameKeys(signers, caps, bytes);
      HeldAll(signers, caps);
      done := [];
      for i := 0 to |gone|
        invariant Valid() && |gone| == old(|gone|) && forall j :: 0 <= j < i ==> swept[j] == now
        invariant HeldAsBefore(signers, caps, old(signers), old(caps))
        invariant Housekeeping(done) && View() == Run(old(View()), done)
      {
        RunAnother(old(View()), done, Sweeping(i, now));
        ghost var before, room := signers, caps;
        SweepLocked(i, now);
        HeldStill(signers, caps, before, room, old(signers), old(caps));
        done := done + [Sweeping(i, now)];
      }
    }

    // The signers whose lists hold memory, oldest first.
    method Holding() returns (list: seq<Aid>)
      requires Valid()
      ensures OldestFirst(signers, list)
      ensures forall aid :: aid in list <==> aid in signers && caps[aid] > 0
    {
      list := [];
      var todo := signers.Keys;
      while todo != {}
        invariant todo <= signers.Keys && OldestFirst(signers, list)
        invariant forall aid :: aid in list <==> aid in signers && aid !in todo && caps[aid] > 0
        decreases todo
      {
        var aid :| aid in todo;
        todo := todo - {aid};
        if caps[aid] > 0 {
          list := PutInOrder(signers, list, aid);
        }
      }
    }

    // Its last part: the oldest become strictly monotonic until the state is small
    // enough.
    method FlattenOldest(list: seq<Aid>) returns (ghost done: seq<Op>)
      requires Valid() && OldestFirst(signers, list)
      requires forall aid :: aid in list <==> aid in signers && caps[aid] > 0
      modifies `signers, `caps, `bytes
      ensures Valid() && Housekeeping(done) && View() == Run(old(View()), done)
      ensures signers.Keys == old(signers.Keys)
      ensures bytes < low || forall aid :: aid in signers ==> caps[aid] == 0
      ensures OldestFlattened(old(signers), old(caps), caps)
    {
      hide Tracks, FlattenedTo, OldestFirst, OldestFlattened;
      done := [];
      SameKeys(signers, caps, bytes);
      ListedAreHeld(signers, list);
      NoneFlattened(caps, list);
      var i := 0;
      while i < |list| && bytes >= low
        invariant i <= |list| && Valid()
        invariant signers.Keys == old(signers.Keys) && FlattenedTo(old(caps), caps, list, i)
        invariant Housekeeping(done) && View() == Run(old(View()), done)
      {
        RunAnother(old(View()), done, Flattening(list[i]));
        FlattenedNext(old(caps), caps, list, i);
        FlattenOne(list[i]);
        done := done + [Flattening(list[i])];
        i := i + 1;
      }
      FlattenedInOrder(old(signers), old(caps), caps, list, i);
    }

    method FlattenOne(aid: Aid)
      requires Valid() && aid in signers
      modifies `signers, `caps, `bytes
      ensures Valid() && View() == Flatten(old(View()), aid)
      ensures caps == old(caps)[aid := 0]
      ensures caps.Keys == signers.Keys == old(signers.Keys)
    {
      hide Tracks;
      TracksOk(signers, caps, bytes, aid);
      SameKeys(signers, caps, bytes);
      var s := signers[aid];
      s := s.(floor := Max(s.floor, s.maxSeen), recent := []);
      TracksPut(signers, caps, bytes, aid, s, 0);
      bytes := bytes + SignerBytes(aid, 0) - SignerBytes(aid, caps[aid]);
      signers, caps := signers[aid := s], caps[aid := 0];
    }

    // The valve: past the high mark it brings the state below the low one, or makes
    // every signer strictly monotonic, the oldest first; it refuses nobody.
    method Relieve(now: int) returns (ghost done: seq<Op>)
      requires Valid()
      modifies `signers, `caps, `bytes, `gone, `swept, `nextValve
      ensures Valid() && Housekeeping(done) && View() == Run(old(View()), done)
      ensures old(bytes) <= high || now < old(nextValve) ==>
                done == [] && nextValve == old(nextValve) && bytes == old(bytes) && caps == old(caps)
      ensures old(bytes) > high && now >= old(nextValve) ==>
                || bytes < low
                || (nextValve == now + VALVE_EVERY && forall aid :: aid in signers ==> caps[aid] == 0)
      ensures |swept| == |old(swept)| && (swept == old(swept) || forall i :: 0 <= i < |swept| ==> swept[i] == now)
      ensures OldestFlattened(old(signers), old(caps), caps)
    {
      hide Tracks, HeldAsBefore, OldestFlattened;
      NothingFlattened(signers, caps);
      done := [];
      if bytes <= high || now < nextValve {
        return;
      }
      done := SweepAll(now);
      ghost var mid, room := signers, caps;
      NothingFlattened(mid, room);
      SameKeys(signers, caps, bytes);
      if bytes >= low {
        var list := Holding();
        ghost var more := FlattenOldest(list);
        RunMore(old(View()), done, more);
        done := done + more;
        SameKeys(signers, caps, bytes);
      }
      OldestOfAll(old(signers), old(caps), mid, room, caps);
      if bytes >= low {
        nextValve := now + VALVE_EVERY;
      }
    }

    // sweepNext; free is whether the part was not being used.
    method SweepNext(now: int, free: bool) returns (ghost done: seq<Op>)
      requires Valid()
      modifies `signers, `caps, `bytes, `gone, `swept, `next
      ensures Valid() && Housekeeping(done) && View() == Run(old(View()), done)
      ensures next == (old(next) + 1) % 0x1_0000_0000
      ensures |swept| == |old(swept)| && forall i :: 0 <= i < |swept| ==>
                swept[i] ==
                  if free && i == next % |swept| && now - old(swept)[i] >= SWEEP_EVERY then now else old(swept)[i]
    {
      hide Tracks, Sweep;
      next := (next + 1) % 0x1_0000_0000;
      var part := next % |gone|;
      done := [];
      if free && now - swept[part] >= SWEEP_EVERY {
        RunAnother(View(), [], Sweeping(part, now));
        SweepLocked(part, now);
        done := [Sweeping(part, now)];
      }
    }

    // A whole request: the answer, then what housekeeping is due: no part whose turn it is,
    // or that the signer is in, is left unswept for SWEEP_EVERY, and past the high mark the
    // valve has acted, unless it is at rest.
    method Accept(aid: Aid, ts: nat, k: int, now: int, room: nat, free: bool)
      returns (answer: Answer, ghost done: seq<Op>)
      requires Valid()
      modifies this
      ensures Valid() && Housekeeping(done)
      ensures answer == Ask(old(View()), aid, ts, k, now).0
      ensures View() == Run(Ask(old(View()), aid, ts, k, now).1, done)
      ensures now - swept[aid.hash % |swept|] < SWEEP_EVERY && next == (old(next) + 1) % 0x1_0000_0000
      ensures free ==> now - swept[next % |swept|] < SWEEP_EVERY
      ensures now >= old(nextValve) ==> bytes <= high || bytes < low || forall a :: a in signers ==> caps[a] == 0
    {
      hide Tracks, Ask, Sweep;
      answer := AcceptLocked(aid, ts, k, now, room);
      ghost var asked := View();
      var part := aid.hash % |gone|;
      done := [];
      if now - swept[part] >= SWEEP_EVERY {
        RunAnother(asked, [], Sweeping(part, now));
        SweepLocked(part, now);
        done := [Sweeping(part, now)];
      }
      ghost var more := SweepNext(now, free);
      RunMore(asked, done, more);
      done := done + more;
      more := Relieve(now);
      RunMore(asked, done, more);
      done := done + more;
    }

    // floorOf.
    method PeerFloor(aid: Aid) returns (floor: nat)
      ensures floor == FloorOf(View(), aid)
    {
      if aid in signers {
        return signers[aid].floor;
      }
      return gone[aid.hash % |gone|];
    }
  }
}
