// RC1, the replay state of signed requests (internal/aghub/auth2.go): for each
// signer a floor, the accepted times above it and the largest accepted time; for
// each part of the state one floor shared by the signers it keeps nothing about.
module Replay {
  import opened Basics

  // How far out of order a signer's requests may arrive, and the largest time taken.
  const W: nat := 30_000
  const MAX_TS: nat := 0x4000_0000_0000_0000

  // A signer's AID, with its hash under the seed of this process.
  datatype Aid = Aid(name: string, hash: nat)

  datatype Signer = Signer(floor: nat, maxSeen: nat, recent: seq<nat>)

  // The floor of each part: there is at least one part.
  type Floors = g: seq<nat> | |g| > 0 witness [0]

  datatype State = State(skew: nat, signers: map<Aid, Signer>, gone: Floors)

  datatype Answer = Accepted | Outside | Stale(floor: nat) | Replayed

  function PartOf(st: State, aid: Aid): nat {
    aid.hash % |st.gone|
  }

  // What is known of aid: its own state, or the floor of its part.
  function StateOf(st: State, aid: Aid): Signer {
    if aid in st.signers then st.signers[aid] else Signer(st.gone[PartOf(st, aid)], 0, [])
  }

  function FloorOf(st: State, aid: Aid): nat {
    StateOf(st, aid).floor
  }

  predicate InWindow(skew: nat, ts: nat, now: int) {
    ts <= MAX_TS && now - skew <= ts <= now + skew
  }

  // ---- one signer ----

  predicate Ascending(s: seq<nat>) {
    forall i, j :: 0 <= i < j < |s| ==> s[i] < s[j]
  }

  predicate SignerOk(s: Signer) {
    Ascending(s.recent) && forall i :: 0 <= i < |s.recent| ==> s.floor < s.recent[i] <= s.maxSeen
  }

  // The place of t in an ascending sequence: how many elements are below it.
  function Place(s: seq<nat>, t: nat): (i: nat)
    ensures i <= |s|
    ensures Ascending(s) ==> (forall j :: 0 <= j < i ==> s[j] < t) && forall j :: i <= j < |s| ==> t <= s[j]
  {
    if s == [] then 0
    else if s[|s| - 1] < t then |s|
    else Place(s[..|s| - 1], t)
  }

  // raiseFloor: the floor becomes f, and the times at or below it go.
  function RaiseFloor(s: Signer, f: nat): Signer {
    s.(floor := f, recent := s.recent[Place(s.recent, f + 1)..])
  }

  // The largest n times stay; the floor becomes the largest that goes.
  function Trim(s: Signer, n: nat): Signer {
    if |s.recent| <= n then s
    else s.(floor := s.recent[|s.recent| - n - 1], recent := s.recent[|s.recent| - n..])
  }

  function Inserted(s: Signer, ts: nat): Signer {
    var i := Place(s.recent, ts);
    s.(recent := s.recent[..i] + [ts] + s.recent[i..], maxSeen := Max(s.maxSeen, ts))
  }

  function Followed(s: Signer): Signer {
    if s.maxSeen > W && s.maxSeen - W > s.floor then RaiseFloor(s, s.maxSeen - W) else s
  }

  function Took(s: Signer, ts: nat, k: int): Signer {
    Trim(Followed(Inserted(s, ts)), Max(k, 1))
  }

  // What RC1 answers a signer in state s, and the state after.
  function Judge(s: Signer, skew: nat, ts: nat, k: int, now: int): (Answer, Signer) {
    if !InWindow(skew, ts, now) then (Outside, s)
    else if ts <= s.floor then (Stale(s.floor), s)
    else if ts in s.recent then (Replayed, s)
    else (Accepted, Took(s, ts, k))
  }

  // ---- the whole state ----

  // A new state at hub time now: nothing signed before now is accepted.
  function StartFloor(now: int): nat {
    Max(now - 1, 0)
  }

  function Start(skew: nat, parts: nat, now: int): State
    requires parts > 0
  {
    State(skew, map[], seq(parts, _ => StartFloor(now)))
  }

  // acceptLocked.
  function Ask(st: State, aid: Aid, ts: nat, k: int, now: int): (Answer, State) {
    var (answer, s) := Judge(StateOf(st, aid), st.skew, ts, k, now);
    (answer, if answer.Accepted? then st.(signers := st.signers[aid := s]) else st)
  }

  function Top(s: Signer): nat {
    Max(s.floor, s.maxSeen)
  }

  predicate Idle(st: State, part: nat, limit: int, aid: Aid)
    requires aid in st.signers
  {
    PartOf(st, aid) == part && Top(st.signers[aid]) < limit
  }

  function IdleTops(st: State, part: nat, limit: int): set<nat> {
    set aid | aid in st.signers && Idle(st, part, limit, aid) :: Top(st.signers[aid])
  }

  function Awake(st: State, part: nat, limit: int): map<Aid, Signer> {
    map aid | aid in st.signers && !Idle(st, part, limit, aid) :: st.signers[aid]
  }

  // sweepLocked: a part's signers all of whose times are outside the window go, and
  // raise its floor.
  ghost function Sweep(st: State, part: nat, now: int): State {
    var limit := now - st.skew;
    if limit <= 0 || part >= |st.gone| then st
    else st.(signers := Awake(st, part, limit),
             gone := st.gone[part := Largest(st.gone[part], IdleTops(st, part, limit))])
  }

  // The valve, for one signer: its next time must be above everything it signed.
  function Flatten(st: State, aid: Aid): State {
    if aid !in st.signers then st
    else st.(signers := st.signers[aid := st.signers[aid].(floor := Top(st.signers[aid]), recent := [])])
  }

  datatype Op =
    | Request(aid: Aid, ts: nat, k: int, now: int)
    | Sweeping(part: nat, at: int)
    | Flattening(who: Aid)

  ghost function Step(st: State, op: Op): State {
    match op
    case Request(aid, ts, k, now) => Ask(st, aid, ts, k, now).1
    case Sweeping(part, at) => Sweep(st, part, at)
    case Flattening(who) => Flatten(st, who)
  }

  ghost function Run(st: State, ops: seq<Op>): State
    decreases |ops|
  {
    if ops == [] then st else Step(Run(st, ops[..|ops| - 1]), ops[|ops| - 1])
  }

  function AnswerTo(st: State, op: Op): Answer
    requires op.Request?
  {
    Ask(st, op.aid, op.ts, op.k, op.now).0
  }

  ghost predicate Sound(st: State) {
    forall aid :: aid in st.signers ==> SignerOk(st.signers[aid])
  }

  // ---- what one request does to a signer's state ----

  lemma InsertAt(s: seq<nat>, i: nat, t: nat)
    requires Ascending(s) && i <= |s|
    requires (forall j :: 0 <= j < i ==> s[j] < t) && forall j :: i <= j < |s| ==> t < s[j]
    ensures Ascending(s[..i] + [t] + s[i..])
    ensures forall x :: x in s[..i] + [t] + s[i..] <==> x == t || x in s
  {
  }

  lemma PlacedOk(s: Signer, ts: nat)
    requires SignerOk(s) && s.floor < ts && ts !in s.recent
    ensures SignerOk(Inserted(s, ts))
    ensures forall t :: t in Inserted(s, ts).recent <==> t == ts || t in s.recent
  {
    var i := Place(s.recent, ts);
    forall j | i <= j < |s.recent| ensures ts < s.recent[j] {
      assert s.recent[j] in s.recent;
    }
    InsertAt(s.recent, i, ts);
  }

  lemma RaisedOk(s: Signer, f: nat)
    requires SignerOk(s)
    ensures SignerOk(RaiseFloor(s, f))
    ensures forall t :: t in RaiseFloor(s, f).recent <==> t in s.recent && t > f
  {
  }

  lemma TrimmedOk(s: Signer, n: nat)
    requires SignerOk(s)
    ensures var r := Trim(s, n);
            && SignerOk(r) && s.floor <= r.floor && r.maxSeen == s.maxSeen && |r.recent| <= n
            && (forall t :: t in r.recent <==> t in s.recent && t > r.floor)
            && (|s.recent| > n ==> r.floor in s.recent && |r.recent| == n)
  {
  }

  lemma FollowedOk(s: Signer)
    requires SignerOk(s)
    ensures var r := Followed(s);
            && SignerOk(r) && r.floor == Max(s.floor, s.maxSeen - W) && r.maxSeen == s.maxSeen
            && forall t :: t in r.recent <==> t in s.recent && t > r.floor
  {
  }

  // A time that is taken is, afterwards, kept or at or below the floor; so is every
  // other time that was, and nothing else is kept.
  lemma TookOk(s: Signer, ts: nat, k: int)
    requires SignerOk(s) && s.floor < ts && ts !in s.recent
    ensures var r := Took(s, ts, k);
            && SignerOk(r) && s.floor <= r.floor && r.maxSeen == Max(s.maxSeen, ts)
            && |r.recent| <= Max(k, 1)
            && forall t :: t in r.recent <==> t > r.floor && (t == ts || t in s.recent)
  {
    hide Inserted, Followed, Trim;
    PlacedOk(s, ts);
    InsertedMax(s, ts);
    FollowedOk(Inserted(s, ts));
    TrimmedOk(Followed(Inserted(s, ts)), Max(k, 1));
  }

  lemma InsertedMax(s: Signer, ts: nat)
    ensures Inserted(s, ts).maxSeen == Max(s.maxSeen, ts) && Inserted(s, ts).floor == s.floor
  {
  }
}
