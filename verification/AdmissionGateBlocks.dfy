// Which addresses the admission gate counts together, and when it lets one pass: stated
// over the reservations made from the addresses of one block, not over the gate's keys.
module AdmissionGateBlocks {
  import opened Basics
  import opened AdmissionGate
  import opened AdmissionGateSafety
  import opened AdmissionGatePromises

  // Whether an address is in the p-th block of a level: the addresses of its family fall into
  // blocks of 2^(width - bits), one after the other.
  predicate InBlock(ip: Ip, l: Level, p: nat)
    requires l.bits <= Width(l.v6)
  {
    var size := Pow2(Width(l.v6) - l.bits);
    ip.v6 == l.v6 && p * size <= ip.addr < (p + 1) * size
  }

  // A registration from a block, and a trial grant to one, of a roll, not given back.
  function SignupFrom(epoch: nat, l: Level, p: nat): Taken -> nat
    requires l.bits <= Width(l.v6)
  {
    (t: Taken) =>
      if !t.status.GivenBack? && t.who.ForSignup? && t.hold.epoch == epoch && InBlock(t.who.ip, l, p) then 1 else 0
  }

  function TrialFrom(epoch: nat, l: Level, p: nat): Taken -> nat
    requires l.bits <= Width(l.v6)
  {
    (t: Taken) =>
      if !t.status.GivenBack? && t.who.ForTrial? && t.hold.epoch == epoch && InBlock(t.who.ip, l, p) then 1 else 0
  }

  // A place of a window held by a registration in progress.
  function PlaceFor(id: nat): Taken -> nat {
    (t: Taken) => if t.status.Live? && t.who == ForPlace(id) then 1 else 0
  }

  // ---- blocks and keys ----

  // An address has a key of a level exactly when it is of the level's family, and the key is
  // that of its block.
  lemma KeyIsBlock(epoch: nat, l: Level, ip: Ip, p: nat)
    requires l.bits <= Width(l.v6)
    ensures KeyOf(epoch, l, ip) == Some(NetKey(epoch, l.v6, l.bits, p)) <==> InBlock(ip, l, p)
    ensures KeyOf(epoch, l, ip).Some? <==> ip.v6 == l.v6
    ensures KeyOf(epoch, l, ip).Some? ==> KeyOf(epoch, l, ip).value.prefix >= 0
  {
    if ip.v6 == l.v6 {
      PrefixIs(ip, l, p);
    }
    hide PrefixOf, InBlock;
    if InBlock(ip, l, p) {
      FamilyOf(ip, l, p);
    }
  }

  lemma PrefixIs(ip: Ip, l: Level, p: nat)
    requires l.bits <= Width(l.v6) && ip.v6 == l.v6
    ensures PrefixOf(ip, l.bits) == p <==> InBlock(ip, l, p)
    ensures PrefixOf(ip, l.bits) >= 0
  {
    hide Pow2, Width;
    var size := Pow2(Width(l.v6) - l.bits);
    QuotientIs(ip.addr, size, p);
  }

  lemma FamilyOf(ip: Ip, l: Level, p: nat)
    requires l.bits <= Width(l.v6) && InBlock(ip, l, p)
    ensures ip.v6 == l.v6
  {
  }

  predicate Fit(quota: seq<Level>) {
    forall i :: 0 <= i < |quota| ==> quota[i].bits <= Width(quota[i].v6)
  }

  // What an address occupies of a block's counter: one when it is in the block.
  lemma {:induction false} KeysAreBlocks(epoch: nat, quota: seq<Level>, ip: Ip, l: Level, p: nat)
    requires DistinctLevels(quota) && Fit(quota) && l.bits <= Width(l.v6)
    ensures Occurs(KeysOf(epoch, quota, ip), NetKey(epoch, l.v6, l.bits, p)) ==
            if InBlock(ip, l, p) && Limited(quota, l) then 1 else 0
    decreases |quota|
  {
    hide KeyOf, InBlock;
    if quota != [] {
      var rest, x := quota[..|quota| - 1], quota[|quota| - 1];
      KeysAreBlocks(epoch, rest, ip, l, p);
      KeyIsBlock(epoch, x, ip, p);
      KeyOfIs(epoch, x, ip);
      if x.v6 == l.v6 && x.bits == l.bits {
        SameLevel(ip, l, x, p);
      }
      var keys, k := KeysOf(epoch, rest, ip), KeyOf(epoch, x, ip);
      if k.Some? {
        assert (keys + [k.value])[..|keys|] == keys;
      }
      LimitedMore(rest, x, l);
      assert rest + [x] == quota;
    }
  }

  // Whether a quota limits blocks of this size.
  predicate Limited(quota: seq<Level>, l: Level) {
    exists i :: 0 <= i < |quota| && quota[i].v6 == l.v6 && quota[i].bits == l.bits
  }

  lemma LimitedMore(quota: seq<Level>, x: Level, l: Level)
    ensures Limited(quota + [x], l) <==> Limited(quota, l) || (x.v6 == l.v6 && x.bits == l.bits)
  {
    if Limited(quota, l) {
      var i :| 0 <= i < |quota| && quota[i].v6 == l.v6 && quota[i].bits == l.bits;
      assert (quota + [x])[i] == quota[i];
    }
    assert (quota + [x])[|quota|] == x;
  }

  lemma SameLevel(ip: Ip, l: Level, x: Level, p: nat)
    requires l.bits <= Width(l.v6) && x.v6 == l.v6 && x.bits == l.bits
    ensures InBlock(ip, l, p) <==> InBlock(ip, x, p)
  {
  }

  // ---- what a reservation holds is its address's ----

  predicate AskedOk(t: Taken) {
    match t.who
    case ForSignup(ip) =>
      && t.hold.signup == KeysOf(t.hold.epoch, SIGNUP_QUOTA, ip) && t.hold.trials == []
      && !t.hold.trial && t.hold.window == 0
    case ForTrial(ip) =>
      && t.hold.trials == KeysOf(t.hold.epoch, TRIAL_BUDGET, ip) && t.hold.signup == []
      && t.hold.trial && t.hold.window == 0
    case ForPlace(id) => t.hold.signup == [] && t.hold.trials == [] && !t.hold.trial && t.hold.window == id
  }

  ghost predicate AllAsked(taken: seq<Taken>) {
    forall i :: 0 <= i < |taken| ==> AskedOk(taken[i])
  }

  lemma StepAsked(w: World, op: Op)
    requires AllAsked(w.taken) && Enabled(w, op)
    ensures AllAsked(Step(w, op).taken)
  {
    hide KeysOf, HasRoom, Bump, Drop, Less;
  }

  lemma {:induction false} RunAsked(w: World, ops: seq<Op>)
    requires AllAsked(w.taken)
    ensures AllAsked(Run(w, ops).taken)
    decreases |ops|
  {
    hide AllAsked, Step;
    if ops != [] {
      if Enabled(w, ops[0]) {
        StepAsked(w, ops[0]);
      }
      RunAsked(if Enabled(w, ops[0]) then Step(w, ops[0]) else w, ops[1..]);
    }
  }

  lemma ReachedAsked(w: World)
    requires Reached(w)
    ensures AllAsked(w.taken)
  {
    var ops :| w == Run(START, ops);
    RunAsked(START, ops);
  }

  // What is held of a block's key is held from the block.
  lemma HeldFrom(t: Taken, epoch: nat, l: Level, p: nat)
    requires AskedOk(t)
    ensures l in SIGNUP_QUOTA ==> SignupsOf(NetKey(epoch, l.v6, l.bits, p))(t) == SignupFrom(epoch, l, p)(t)
    ensures l in TRIAL_BUDGET ==> TrialsOf(NetKey(epoch, l.v6, l.bits, p))(t) == TrialFrom(epoch, l, p)(t)
  {
    hide InBlock, KeysOf, Limited;
    var e, k := t.hold.epoch, NetKey(epoch, l.v6, l.bits, p);
    if t.who.ForSignup? && l in SIGNUP_QUOTA {
      IsLimited(SIGNUP_QUOTA, l);
      KeysAreBlocks(e, SIGNUP_QUOTA, t.who.ip, l, p);
      OfRoll(e, SIGNUP_QUOTA, t.who.ip, k);
    }
    if t.who.ForTrial? && l in TRIAL_BUDGET {
      IsLimited(TRIAL_BUDGET, l);
      KeysAreBlocks(e, TRIAL_BUDGET, t.who.ip, l, p);
      OfRoll(e, TRIAL_BUDGET, t.who.ip, k);
    }
  }

  lemma OfRoll(epoch: nat, quota: seq<Level>, ip: Ip, k: NetKey)
    ensures k.epoch != epoch ==> Occurs(KeysOf(epoch, quota, ip), k) == 0
  {
    KeysOfEpoch(epoch, quota, ip);
    if k.epoch != epoch {
      OccursOf(KeysOf(epoch, quota, ip), epoch, k);
    }
  }

  lemma IsLimited(quota: seq<Level>, l: Level)
    requires l in quota
    ensures Limited(quota, l)
  {
    var i :| 0 <= i < |quota| && quota[i] == l;
  }

  lemma TotalsAgree(taken: seq<Taken>, epoch: nat, l: Level, p: nat)
    requires AllAsked(taken)
    ensures l in SIGNUP_QUOTA ==>
              Total(taken, SignupsOf(NetKey(epoch, l.v6, l.bits, p))) == Total(taken, SignupFrom(epoch, l, p))
    ensures l in TRIAL_BUDGET ==>
              Total(taken, TrialsOf(NetKey(epoch, l.v6, l.bits, p))) == Total(taken, TrialFrom(epoch, l, p))
  {
    hide AskedOk, Total;
    var k := NetKey(epoch, l.v6, l.bits, p);
    forall i | 0 <= i < |taken|
      ensures l in SIGNUP_QUOTA ==> SignupsOf(k)(taken[i]) == SignupFrom(epoch, l, p)(taken[i])
      ensures l in TRIAL_BUDGET ==> TrialsOf(k)(taken[i]) == TrialFrom(epoch, l, p)(taken[i])
    {
      HeldFrom(taken[i], epoch, l, p);
    }
    if l in SIGNUP_QUOTA {
      TotalsOrdered(taken, SignupsOf(k), taken, SignupFrom(epoch, l, p));
    }
    if l in TRIAL_BUDGET {
      TotalsOrdered(taken, TrialsOf(k), taken, TrialFrom(epoch, l, p));
    }
  }

  // ---- the promises ----

  // Whether at every level of the quota the block an address is in has room.
  ghost predicate SignupRoom(taken: seq<Taken>, epoch: nat, ip: Ip) {
    forall l: Level, p: nat {:trigger InBlock(ip, l, p)} ::
      l in SIGNUP_QUOTA && InBlock(ip, l, p) ==> Total(taken, SignupFrom(epoch, l, p)) < l.max
  }

  ghost predicate TrialRoom(taken: seq<Taken>, epoch: nat, ip: Ip) {
    forall l: Level, p: nat {:trigger InBlock(ip, l, p)} ::
      l in TRIAL_BUDGET && InBlock(ip, l, p) ==> Total(taken, TrialFrom(epoch, l, p)) < l.max
  }

  lemma SignupRoomIs(w: World, epoch: nat, ip: Ip)
    requires AllAsked(w.taken)
    ensures Room(w.taken, SignupsOf, epoch, SIGNUP_QUOTA, ip) <==> SignupRoom(w.taken, epoch, ip)
  {
    hide InBlock, Total, AllAsked, KeyOf;
    forall l: Level, p: nat {:trigger InBlock(ip, l, p)} | l in SIGNUP_QUOTA
      ensures InBlock(ip, l, p) <==> KeyOf(epoch, l, ip) == Some(NetKey(epoch, l.v6, l.bits, p))
      ensures Total(w.taken, SignupsOf(NetKey(epoch, l.v6, l.bits, p))) == Total(w.taken, SignupFrom(epoch, l, p))
    {
      KeyIsBlock(epoch, l, ip, p);
      TotalsAgree(w.taken, epoch, l, p);
    }
    forall i | 0 <= i < |SIGNUP_QUOTA| && KeyOf(epoch, SIGNUP_QUOTA[i], ip).Some?
      ensures var k := KeyOf(epoch, SIGNUP_QUOTA[i], ip).value;
              k.prefix >= 0 && InBlock(ip, SIGNUP_QUOTA[i], k.prefix)
              && k == NetKey(epoch, SIGNUP_QUOTA[i].v6, SIGNUP_QUOTA[i].bits, k.prefix)
    {
      KeyOfIs(epoch, SIGNUP_QUOTA[i], ip);
      KeyIsBlock(epoch, SIGNUP_QUOTA[i], ip, 0);
      KeyIsBlock(epoch, SIGNUP_QUOTA[i], ip, KeyOf(epoch, SIGNUP_QUOTA[i], ip).value.prefix);
    }
    assert forall l :: l in SIGNUP_QUOTA ==> exists i :: 0 <= i < |SIGNUP_QUOTA| && SIGNUP_QUOTA[i] == l;
  }

  lemma TrialRoomIs(w: World, epoch: nat, ip: Ip)
    requires AllAsked(w.taken)
    ensures Room(w.taken, TrialsOf, epoch, TRIAL_BUDGET, ip) <==> TrialRoom(w.taken, epoch, ip)
  {
    hide InBlock, Total, AllAsked, KeyOf;
    forall l: Level, p: nat {:trigger InBlock(ip, l, p)} | l in TRIAL_BUDGET
      ensures InBlock(ip, l, p) <==> KeyOf(epoch, l, ip) == Some(NetKey(epoch, l.v6, l.bits, p))
      ensures Total(w.taken, TrialsOf(NetKey(epoch, l.v6, l.bits, p))) == Total(w.taken, TrialFrom(epoch, l, p))
    {
      KeyIsBlock(epoch, l, ip, p);
      TotalsAgree(w.taken, epoch, l, p);
    }
    forall i | 0 <= i < |TRIAL_BUDGET| && KeyOf(epoch, TRIAL_BUDGET[i], ip).Some?
      ensures var k := KeyOf(epoch, TRIAL_BUDGET[i], ip).value;
              k.prefix >= 0 && InBlock(ip, TRIAL_BUDGET[i], k.prefix)
              && k == NetKey(epoch, TRIAL_BUDGET[i].v6, TRIAL_BUDGET[i].bits, k.prefix)
    {
      KeyOfIs(epoch, TRIAL_BUDGET[i], ip);
      KeyIsBlock(epoch, TRIAL_BUDGET[i], ip, 0);
      KeyIsBlock(epoch, TRIAL_BUDGET[i], ip, KeyOf(epoch, TRIAL_BUDGET[i], ip).value.prefix);
    }
    assert forall l :: l in TRIAL_BUDGET ==> exists i :: 0 <= i < |TRIAL_BUDGET| && TRIAL_BUDGET[i] == l;
  }

  // A registration passes exactly when, of the roll of its day, at every level of its family,
  // fewer registrations not given back came from its block than the level allows; a trial
  // grant exactly when fewer went to its block, and the hub has any left. What passes is
  // counted as made from that address.
  lemma PassesExactly(w: World, ip: Ip, now: nat)
    requires Reached(w)
    ensures var hold := ReserveSignup(w.gate, ip, now).0;
            && (hold.Some? <==> SignupPasses(w, ip, now))
            && Step(w, SignsUp(ip, now)).taken ==
                 (if hold.Some? then w.taken + [Taken(hold.value, ForSignup(ip), Live)] else w.taken)
            && (hold.Some? ==> hold.value.day == now / DAY && hold.value.epoch == Rolled(w.gate, now).epoch)
    ensures var hold := ReserveTrial(w.gate, ip, now).0;
            && (hold.Some? <==> TrialPasses(w, ip, now))
            && Step(w, AsksTrial(ip, now)).taken ==
                 (if hold.Some? then w.taken + [Taken(hold.value, ForTrial(ip), Live)] else w.taken)
            && (hold.Some? ==> hold.value.day == now / DAY && hold.value.epoch == Rolled(w.gate, now).epoch)
  {
    ReachedCounts(w);
    ReachedAsked(w);
    Decides(w, ip, now);
    hide SignupRoom, TrialRoom, AllAsked, Counted, HasRoom, KeysOf, Bump, Total, Reached;
  }

  // Whether a registration passes, and a trial grant.
  ghost predicate SignupPasses(w: World, ip: Ip, now: nat) {
    SignupRoom(w.taken, Rolled(w.gate, now).epoch, ip)
  }

  ghost predicate TrialPasses(w: World, ip: Ip, now: nat) {
    Rolled(w.gate, now).trialN < TRIAL_BUDGET_HUB && TrialRoom(w.taken, Rolled(w.gate, now).epoch, ip)
  }

  lemma Decides(w: World, ip: Ip, now: nat)
    requires Counted(w) && AllAsked(w.taken)
    ensures ReserveSignup(w.gate, ip, now).0.Some? <==> SignupPasses(w, ip, now)
    ensures ReserveTrial(w.gate, ip, now).0.Some? <==> TrialPasses(w, ip, now)
  {
    PassesWithRoom(w, ip, now);
    SignupRoomIs(w, Rolled(w.gate, now).epoch, ip);
    TrialRoomIs(w, Rolled(w.gate, now).epoch, ip);
    hide SignupRoom, TrialRoom, Room, AllAsked, Counted, HasRoom, KeysOf, Bump, Total;
  }

  // A restart leaves a gate of no day that counts nothing, and of what was in progress what
  // was written made and what was lost given back; windows are as they were.
  lemma RestartsExactly(w: World, lost: set<nat>, i: nat)
    requires i < |w.taken|
    ensures var v := Step(w, Restarts(lost));
            && v.gate.day == -1 && v.gate.signup == v.gate.trials == map[] && v.gate.trialN == 0
            && v.gate.window == map[] && v.gate.epoch > w.gate.epoch && v.windows == w.windows && |v.taken| == |w.taken|
            && v.taken[i].hold == w.taken[i].hold && v.taken[i].who == w.taken[i].who
            && (w.taken[i].status.Live? ==> v.taken[i].status == if i in lost then GivenBack else Done)
            && (!w.taken[i].status.Live? ==> v.taken[i].status == w.taken[i].status)
  {
  }

  // A window that is opened has all its places.
  lemma OpensExactly(w: World, id: nat, max: nat)
    requires Enabled(w, Opens(id, max))
    ensures Step(w, Opens(id, max)) == w.(windows := w.windows[id := Window(0, max)])
  {
  }

  // A registration that is written takes a place of its window exactly when one is left.
  lemma WritesExactly(w: World, id: nat)
    ensures var v := Step(w, Writes(id)); var left := id in w.windows && w.windows[id].used < w.windows[id].max;
            && v == w.(windows := v.windows) && v.windows - {id} == w.windows - {id}
            && (id in v.windows <==> id in w.windows)
            && (id in w.windows ==>
                  v.windows[id] == Window(w.windows[id].used + (if left then 1 else 0), w.windows[id].max))
  {
  }

  // A place of a window is refused exactly when the places used, as they were read, and those
  // registrations in progress hold come to its size.
  lemma PlaceExactly(w: World, id: nat, used: int, max: int)
    requires Reached(w) && id != 0
    ensures var hold := ReserveWindow(w.gate, id, used, max).0;
            && (hold.None? <==> used + Total(w.taken, PlaceFor(id)) >= max)
            && Step(w, TakesPlace(id, used, max)).taken ==
                 (if hold.Some? then w.taken + [Taken(hold.value, ForPlace(id), Live)] else w.taken)
  {
    ReachedCounts(w);
    ReachedAsked(w);
    forall i | 0 <= i < |w.taken| ensures PlaceOf(id)(w.taken[i]) == PlaceFor(id)(w.taken[i]) {
      assert AskedOk(w.taken[i]);
    }
    TotalsOrdered(w.taken, PlaceOf(id), w.taken, PlaceFor(id));
    hide Total, Counted, AllAsked;
  }
}
