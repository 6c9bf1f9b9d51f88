// The daily limits of the admission gate, counted by the day the reservations were made
// on. The gate counts by roll of the day: a clock that leaves a day and comes back to it
// rolls that day twice, and so does a restart, and each roll starts from nothing.
module AdmissionGateDays {
  import opened Basics
  import opened Sums
  import opened AdmissionGate
  import opened AdmissionGateSafety
  import opened AdmissionGatePromises
  import opened AdmissionGateBlocks

  datatype Net = Net(v6: bool, bits: nat, prefix: int)

  function Key(epoch: nat, n: Net): NetKey {
    NetKey(epoch, n.v6, n.bits, n.prefix)
  }

  predicate Covers(l: Level, n: Net) {
    l.v6 == n.v6 && l.bits == n.bits
  }

  // What a reservation of a day, not given back, holds of a network, whichever roll of
  // that day it was made under.
  function SignupsOn(day: int, n: Net): Taken -> nat {
    (t: Taken) =>
      if t.status.GivenBack? || t.hold.day != day then 0 else Occurs(t.hold.signup, Key(t.hold.epoch, n))
  }

  function TrialsOn(day: int, n: Net): Taken -> nat {
    (t: Taken) =>
      if t.status.GivenBack? || t.hold.day != day then 0 else Occurs(t.hold.trials, Key(t.hold.epoch, n))
  }

  function GrantsOn(day: int): Taken -> nat {
    (t: Taken) => if !t.status.GivenBack? && t.hold.trial && t.hold.day == day then 1 else 0
  }

  // A registration of a day from a block of addresses, and a trial grant to one, not given
  // back.
  function SignupOn(day: int, l: Level, p: nat): Taken -> nat
    requires l.bits <= Width(l.v6)
  {
    (t: Taken) =>
      if !t.status.GivenBack? && t.who.ForSignup? && t.hold.day == day && InBlock(t.who.ip, l, p) then 1 else 0
  }

  function TrialOn(day: int, l: Level, p: nat): Taken -> nat
    requires l.bits <= Width(l.v6)
  {
    (t: Taken) =>
      if !t.status.GivenBack? && t.who.ForTrial? && t.hold.day == day && InBlock(t.who.ip, l, p) then 1 else 0
  }

  lemma OneOn(t: Taken, day: int, l: Level, p: nat)
    requires AskedOk(t)
    ensures l in SIGNUP_QUOTA ==> SignupsOn(day, Net(l.v6, l.bits, p))(t) == SignupOn(day, l, p)(t)
    ensures l in TRIAL_BUDGET ==> TrialsOn(day, Net(l.v6, l.bits, p))(t) == TrialOn(day, l, p)(t)
  {
    hide InBlock, KeysOf, Limited;
    if t.who.ForSignup? && l in SIGNUP_QUOTA {
      IsLimited(SIGNUP_QUOTA, l);
      KeysAreBlocks(t.hold.epoch, SIGNUP_QUOTA, t.who.ip, l, p);
    }
    if t.who.ForTrial? && l in TRIAL_BUDGET {
      IsLimited(TRIAL_BUDGET, l);
      KeysAreBlocks(t.hold.epoch, TRIAL_BUDGET, t.who.ip, l, p);
    }
  }

  lemma AllOn(taken: seq<Taken>, day: int, l: Level, p: nat)
    requires AllAsked(taken)
    ensures l in SIGNUP_QUOTA ==>
              Total(taken, SignupsOn(day, Net(l.v6, l.bits, p))) == Total(taken, SignupOn(day, l, p))
    ensures l in TRIAL_BUDGET ==>
              Total(taken, TrialsOn(day, Net(l.v6, l.bits, p))) == Total(taken, TrialOn(day, l, p))
  {
    hide AskedOk, Total;
    var n := Net(l.v6, l.bits, p);
    forall i | 0 <= i < |taken|
      ensures l in SIGNUP_QUOTA ==> SignupsOn(day, n)(taken[i]) == SignupOn(day, l, p)(taken[i])
      ensures l in TRIAL_BUDGET ==> TrialsOn(day, n)(taken[i]) == TrialOn(day, l, p)(taken[i])
    {
      OneOn(taken[i], day, l, p);
    }
    if l in SIGNUP_QUOTA {
      TotalsOrdered(taken, SignupsOn(day, n), taken, SignupOn(day, l, p));
    }
    if l in TRIAL_BUDGET {
      TotalsOrdered(taken, TrialsOn(day, n), taken, TrialOn(day, l, p));
    }
  }

  // ---- how often a day is rolled ----

  function TimeOf(op: Op): Option<nat> {
    match op
    case SignsUp(_, now) => Some(now)
    case AsksTrial(_, now) => Some(now)
    case _ => None
  }

  predicate RollsOnto(w: World, op: Op, day: nat) {
    TimeOf(op).Some? && TimeOf(op).value / DAY == day && w.gate.day != day
  }

  function Rolls(w: World, ops: seq<Op>, day: nat): nat
    decreases |ops|
  {
    if ops == [] then 0
    else if !Enabled(w, ops[0]) then Rolls(w, ops[1..], day)
    else (if RollsOnto(w, ops[0], day) then 1 else 0) + Rolls(Step(w, ops[0]), ops[1..], day)
  }

  // r limits.
  function Limits(r: nat, max: nat): nat {
    if r == 0 then 0 else Limits(r - 1, max) + max
  }

  lemma {:induction false} LimitsAre(r: nat, max: nat)
    ensures Limits(r, max) == r * max
  {
    if r > 0 {
      LimitsAre(r - 1, max);
    }
  }

  // What a day that was rolled r times may have: one limit for every roll, of which the
  // last one's, while it lasts, is only used as far as it counts.
  function Allowed(today: bool, r: nat, max: nat, counted: int): int {
    if today && r > 0 then Limits(r - 1, max) + counted else Limits(r, max)
  }

  ghost predicate CountsBound(taken: seq<Taken>, weight: Net -> Taken -> nat, m: Counters, epoch: nat,
                              quota: seq<Level>, today: bool, r: nat) {
    forall n: Net, i :: 0 <= i < |quota| && Covers(quota[i], n) ==>
      Total(taken, weight(n)) <= Allowed(today, r, quota[i].max, Get(m, Key(epoch, n)))
  }

  function SignupDay(day: int): Net -> Taken -> nat {
    (n: Net) => SignupsOn(day, n)
  }

  function TrialDay(day: int): Net -> Taken -> nat {
    (n: Net) => TrialsOn(day, n)
  }

  ghost predicate DayBound(w: World, day: nat, r: nat) {
    var today := w.gate.day == day;
    && (today ==> r > 0) && 0 <= w.gate.trialN <= TRIAL_BUDGET_HUB
    && CountsBound(w.taken, SignupDay(day), w.gate.signup, w.gate.epoch, SIGNUP_QUOTA, today, r)
    && CountsBound(w.taken, TrialDay(day), w.gate.trials, w.gate.epoch, TRIAL_BUDGET, today, r)
    && Total(w.taken, GrantsOn(day)) <= Allowed(today, r, TRIAL_BUDGET_HUB, w.gate.trialN)
  }

  // ---- a roll ----

  lemma RollBound(taken: seq<Taken>, weight: Net -> Taken -> nat, m: Counters, epoch: nat, quota: seq<Level>,
                  was: bool, today: bool, r: nat)
    requires CountsBound(taken, weight, m, epoch, quota, was, r) && Within(m, quota) && !(was && today)
    ensures CountsBound(taken, weight, map[], epoch + 1, quota, today, if today then r + 1 else r)
  {
    forall n: Net, i | 0 <= i < |quota| && Covers(quota[i], n)
      ensures Total(taken, weight(n)) <=
              Allowed(today, if today then r + 1 else r, quota[i].max, Get(map[], Key(epoch + 1, n)))
    {
      assert Get(m, Key(epoch, n)) <= quota[i].max;
    }
  }

  lemma RolledBound(w: World, now: nat, day: nat, r: nat)
    requires Counted(w) && DayBound(w, day, r)
    ensures DayBound(w.(gate := Rolled(w.gate, now)), day,
                     if now / DAY == day && w.gate.day != day then r + 1 else r)
  {
    hide CountsBound, Exact, HoldsOk, Within, Total;
    if now / DAY != w.gate.day {
      var was, today := w.gate.day == day, now / DAY == day;
      RollBound(w.taken, SignupDay(day), w.gate.signup, w.gate.epoch, SIGNUP_QUOTA, was, today, r);
      RollBound(w.taken, TrialDay(day), w.gate.trials, w.gate.epoch, TRIAL_BUDGET, was, today, r);
    }
  }

  // ---- a reservation ----

  lemma MoreBound(taken: seq<Taken>, weight: Net -> Taken -> nat, m: Counters, epoch: nat, quota: seq<Level>,
                  today: bool, r: nat, keys: seq<NetKey>, t: Taken)
    requires CountsBound(taken, weight, m, epoch, quota, today, r) && Positive(m) && (today ==> r > 0)
    requires forall n: Net :: weight(n)(t) == if today then Occurs(keys, Key(epoch, n)) else 0
    ensures CountsBound(taken + [t], weight, Bump(m, keys), epoch, quota, today, r)
  {
    forall n: Net, i | 0 <= i < |quota| && Covers(quota[i], n)
      ensures Total(taken + [t], weight(n)) <= Allowed(today, r, quota[i].max, Get(Bump(m, keys), Key(epoch, n)))
    {
      TotalMore(taken, t, weight(n));
      BumpIs(m, keys, Key(epoch, n));
    }
  }

  // A reservation that holds nothing of a kind.
  lemma NoneBound(taken: seq<Taken>, weight: Net -> Taken -> nat, m: Counters, epoch: nat, quota: seq<Level>,
                  today: bool, r: nat, t: Taken)
    requires CountsBound(taken, weight, m, epoch, quota, today, r) && forall n: Net :: weight(n)(t) == 0
    ensures CountsBound(taken + [t], weight, m, epoch, quota, today, r)
  {
    forall n: Net, i | 0 <= i < |quota| && Covers(quota[i], n)
      ensures Total(taken + [t], weight(n)) <= Allowed(today, r, quota[i].max, Get(m, Key(epoch, n)))
    {
      TotalMore(taken, t, weight(n));
    }
  }

  lemma SignupBound(w: World, ip: Ip, now: nat, day: nat, r: nat)
    requires Counted(w) && DayBound(w, day, r)
    ensures DayBound(Took(w, ReserveSignup(w.gate, ip, now), ForSignup(ip)), day,
                     if RollsOnto(w, SignsUp(ip, now), day) then r + 1 else r)
  {
    hide KeysOf, HasRoom, Bump, Total, CountsBound, Within, Limits;
    RolledCounts(w, now);
    RolledBound(w, now, day, r);
    var g := Rolled(w.gate, now);
    var keys, today := KeysOf(g.epoch, SIGNUP_QUOTA, ip), g.day == day;
    var s := if RollsOnto(w, SignsUp(ip, now), day) then r + 1 else r;
    if ReserveSignup(w.gate, ip, now).0.Some? {
      var t := Taken(ReserveSignup(w.gate, ip, now).0.value, ForSignup(ip), Live);
      MoreBound(w.taken, SignupDay(day), g.signup, g.epoch, SIGNUP_QUOTA, today, s, keys, t);
      NoneBound(w.taken, TrialDay(day), g.trials, g.epoch, TRIAL_BUDGET, today, s, t);
      TotalMore(w.taken, t, GrantsOn(day));
    }
  }

  lemma TrialBound(w: World, ip: Ip, now: nat, day: nat, r: nat)
    requires Counted(w) && DayBound(w, day, r)
    ensures DayBound(Took(w, ReserveTrial(w.gate, ip, now), ForTrial(ip)), day,
                     if RollsOnto(w, AsksTrial(ip, now), day) then r + 1 else r)
  {
    hide KeysOf, HasRoom, Bump, Total, CountsBound, Within, Limits;
    RolledCounts(w, now);
    RolledBound(w, now, day, r);
    var g := Rolled(w.gate, now);
    var keys, today := KeysOf(g.epoch, TRIAL_BUDGET, ip), g.day == day;
    var s := if RollsOnto(w, AsksTrial(ip, now), day) then r + 1 else r;
    if ReserveTrial(w.gate, ip, now).0.Some? {
      var t := Taken(ReserveTrial(w.gate, ip, now).0.value, ForTrial(ip), Live);
      MoreBound(w.taken, TrialDay(day), g.trials, g.epoch, TRIAL_BUDGET, today, s, keys, t);
      NoneBound(w.taken, SignupDay(day), g.signup, g.epoch, SIGNUP_QUOTA, today, s, t);
      TotalMore(w.taken, t, GrantsOn(day));
    }
  }

  lemma PlaceBound(w: World, id: nat, used: int, max: int, day: nat, r: nat)
    requires DayBound(w, day, r)
    ensures DayBound(Took(w, ReserveWindow(w.gate, id, used, max), ForPlace(id)), day, r)
  {
    hide Total, CountsBound;
    if ReserveWindow(w.gate, id, used, max).0.Some? {
      var g, today := w.gate, w.gate.day == day;
      var t := Taken(ReserveWindow(w.gate, id, used, max).0.value, ForPlace(id), Live);
      NoneBound(w.taken, SignupDay(day), g.signup, g.epoch, SIGNUP_QUOTA, today, r, t);
      NoneBound(w.taken, TrialDay(day), g.trials, g.epoch, TRIAL_BUDGET, today, r, t);
      TotalMore(w.taken, t, GrantsOn(day));
    }
  }

  // ---- giving back ----

  // A hold given back on its day takes what it held off both; one of an earlier roll off
  // the day alone.
  lemma LessBound(taken: seq<Taken>, weight: Net -> Taken -> nat, m: Counters, epoch: nat, quota: seq<Level>,
                  today: bool, r: nat, i: nat, t: Taken, m': Counters)
    requires CountsBound(taken, weight, m, epoch, quota, today, r) && i < |taken|
    requires forall n: Net :: weight(n)(t) == 0
    requires today ==> forall n: Net :: Get(m', Key(epoch, n)) >= Get(m, Key(epoch, n)) - weight(n)(taken[i])
    ensures CountsBound(taken[i := t], weight, m', epoch, quota, today, r)
  {
    forall n: Net, j | 0 <= j < |quota| && Covers(quota[j], n)
      ensures Total(taken[i := t], weight(n)) <= Allowed(today, r, quota[j].max, Get(m', Key(epoch, n)))
    {
      TotalChange(taken, i, t, weight(n));
    }
  }

  lemma DroppedAtMost(m: Counters, keys: seq<NetKey>, of: nat, epoch: nat, n: Net)
    requires Positive(m) && AllOf(keys, of)
    ensures Get(Drop(m, keys), Key(epoch, n)) >= Get(m, Key(epoch, n)) - Occurs(keys, Key(of, n))
  {
    DropIs(m, keys, Key(epoch, n));
    if of != epoch {
      OccursOf(keys, of, Key(epoch, n));
    }
  }

  lemma ReleaseBound(w: World, i: nat, day: nat, r: nat)
    requires Counted(w) && DayBound(w, day, r) && Enabled(w, Fails(i))
    ensures DayBound(Step(w, Fails(i)), day, r)
  {
    hide Total, CountsBound, Within, Drop, Limits;
    var v, g, h := Step(w, Fails(i)), w.gate, w.taken[i].hold;
    var today := g.day == day;
    assert HoldOk(g, h);
    forall n: Net
      ensures var k := Key(g.epoch, n);
              today ==> Get(v.gate.signup, k) >= Get(g.signup, k) - SignupDay(day)(n)(w.taken[i])
      ensures var k := Key(g.epoch, n);
              today ==> Get(v.gate.trials, k) >= Get(g.trials, k) - TrialDay(day)(n)(w.taken[i])
    {
      DroppedAtMost(g.signup, h.signup, h.epoch, g.epoch, n);
      DroppedAtMost(g.trials, h.trials, h.epoch, g.epoch, n);
    }
    LessBound(w.taken, SignupDay(day), g.signup, g.epoch, SIGNUP_QUOTA, today, r, i, v.taken[i], v.gate.signup);
    LessBound(w.taken, TrialDay(day), g.trials, g.epoch, TRIAL_BUDGET, today, r, i, v.taken[i], v.gate.trials);
    TotalChange(w.taken, i, v.taken[i], GrantsOn(day));
  }

  lemma SameDayBound(taken: seq<Taken>, weight: Net -> Taken -> nat, m: Counters, epoch: nat, quota: seq<Level>,
                     today: bool, r: nat, i: nat, t: Taken)
    requires CountsBound(taken, weight, m, epoch, quota, today, r) && i < |taken|
    requires forall n: Net :: weight(n)(t) == weight(n)(taken[i])
    ensures CountsBound(taken[i := t], weight, m, epoch, quota, today, r)
  {
    forall n: Net, j | 0 <= j < |quota| && Covers(quota[j], n)
      ensures Total(taken[i := t], weight(n)) <= Allowed(today, r, quota[j].max, Get(m, Key(epoch, n)))
    {
      TotalChange(taken, i, t, weight(n));
    }
  }

  lemma CommitBound(w: World, i: nat, day: nat, r: nat)
    requires DayBound(w, day, r) && Enabled(w, Commits(i))
    ensures DayBound(Step(w, Commits(i)), day, r)
  {
    hide Total, CountsBound;
    var t, g, today := Step(w, Commits(i)).taken[i], w.gate, w.gate.day == day;
    SameDayBound(w.taken, SignupDay(day), g.signup, g.epoch, SIGNUP_QUOTA, today, r, i, t);
    SameDayBound(w.taken, TrialDay(day), g.trials, g.epoch, TRIAL_BUDGET, today, r, i, t);
    TotalChange(w.taken, i, t, GrantsOn(day));
  }

  // A restart counts nothing of any day, and gives back what was lost in it.
  lemma GoneBound(taken: seq<Taken>, weight: Net -> Taken -> nat, m: Counters, epoch: nat, quota: seq<Level>,
                  today: bool, r: nat, after: seq<Taken>)
    requires CountsBound(taken, weight, m, epoch, quota, today, r) && Within(m, quota) && |after| == |taken|
    requires forall n: Net, i :: 0 <= i < |taken| ==> weight(n)(after[i]) <= weight(n)(taken[i])
    ensures CountsBound(after, weight, map[], epoch + 1, quota, false, r)
  {
    RollBound(taken, weight, m, epoch, quota, today, false, r);
    forall n: Net, i | 0 <= i < |quota| && Covers(quota[i], n)
      ensures Total(after, weight(n)) <= Allowed(false, r, quota[i].max, Get(map[], Key(epoch + 1, n)))
    {
      assert Get(map[], Key(epoch + 1, n)) == 0;
      TotalsOrdered(after, weight(n), taken, weight(n));
    }
  }

  lemma RestartBound(w: World, lost: set<nat>, day: nat, r: nat)
    requires Counted(w) && DayBound(w, day, r)
    ensures DayBound(Step(w, Restarts(lost)), day, r)
  {
    hide Total, CountsBound, Within, Limits, Exact, HoldsOk;
    var g, after, today := w.gate, Survived(w.taken, lost), w.gate.day == day;
    GoneBound(w.taken, SignupDay(day), g.signup, g.epoch, SIGNUP_QUOTA, today, r, after);
    GoneBound(w.taken, TrialDay(day), g.trials, g.epoch, TRIAL_BUDGET, today, r, after);
    TotalsOrdered(after, GrantsOn(day), w.taken, GrantsOn(day));
    LimitsOneMore(r, TRIAL_BUDGET_HUB);
  }

  lemma StepBound(w: World, op: Op, day: nat, r: nat)
    requires Counted(w) && DayBound(w, day, r) && Enabled(w, op)
    ensures DayBound(Step(w, op), day, if RollsOnto(w, op, day) then r + 1 else r)
  {
    hide Counted, ReserveSignup, ReserveTrial, ReserveWindow, Released, Committed, CountsBound;
    match op
    case SignsUp(ip, now) => SignupBound(w, ip, now, day, r);
    case AsksTrial(ip, now) => TrialBound(w, ip, now, day, r);
    case TakesPlace(id, used, max) => PlaceBound(w, id, used, max, day, r);
    case Fails(i) => ReleaseBound(w, i, day, r);
    case Commits(i) => CommitBound(w, i, day, r);
    case Opens(_, _) =>
    case Writes(_) =>
    case Restarts(lost) => RestartBound(w, lost, day, r);
  }

  lemma {:induction false} RunBound(w: World, ops: seq<Op>, day: nat, r: nat)
    requires Counted(w) && DayBound(w, day, r)
    ensures Counted(Run(w, ops)) && DayBound(Run(w, ops), day, r + Rolls(w, ops, day))
    decreases |ops|
  {
    hide Counted, DayBound, Step;
    if ops != [] {
      if Enabled(w, ops[0]) {
        StepCounts(w, ops[0]);
        StepBound(w, ops[0], day, r);
        RunBound(Step(w, ops[0]), ops[1..], day, if RollsOnto(w, ops[0], day) then r + 1 else r);
      } else {
        RunBound(w, ops[1..], day, r);
      }
    }
  }

  // Whatever the clock does and however often the hub restarts: the registrations of a day
  // not given back are, from every block of addresses, at most the limit as often as the day
  // was rolled; and so are the trial grants to a block, and those of the hub.
  lemma DailyLimits(ops: seq<Op>, day: nat, l: Level, p: nat)
    ensures var w := Run(START, ops); var r := Rolls(START, ops, day);
            && (l in SIGNUP_QUOTA ==> Total(w.taken, SignupOn(day, l, p)) <= r * l.max)
            && (l in TRIAL_BUDGET ==> Total(w.taken, TrialOn(day, l, p)) <= r * l.max)
            && Total(w.taken, GrantsOn(day)) <= r * TRIAL_BUDGET_HUB
  {
    hide Counted, DayBound, Total;
    StartCounts(day);
    RunBound(START, ops, day, 0);
    BoundIs(Run(START, ops), day, Rolls(START, ops, day), Net(l.v6, l.bits, p), l);
    RunAsked(START, ops);
    AllOn(Run(START, ops).taken, day, l, p);
  }

  lemma BoundIs(w: World, day: nat, r: nat, n: Net, l: Level)
    requires Counted(w) && DayBound(w, day, r) && Covers(l, n)
    ensures l in SIGNUP_QUOTA ==> Total(w.taken, SignupsOn(day, n)) <= r * l.max
    ensures l in TRIAL_BUDGET ==> Total(w.taken, TrialsOn(day, n)) <= r * l.max
    ensures Total(w.taken, GrantsOn(day)) <= r * TRIAL_BUDGET_HUB
  {
    hide Exact, HoldsOk, Total, Limits;
    LimitsAre(r, l.max);
    LimitsAre(r, TRIAL_BUDGET_HUB);
    LimitsOneMore(r, l.max);
    LimitsOneMore(r, TRIAL_BUDGET_HUB);
    if l in SIGNUP_QUOTA {
      CountIs(w.taken, SignupDay(day), w.gate.signup, w.gate.epoch, SIGNUP_QUOTA, w.gate.day == day, r, n, l);
    }
    if l in TRIAL_BUDGET {
      CountIs(w.taken, TrialDay(day), w.gate.trials, w.gate.epoch, TRIAL_BUDGET, w.gate.day == day, r, n, l);
    }
  }

  lemma CountIs(taken: seq<Taken>, weight: Net -> Taken -> nat, m: Counters, epoch: nat, quota: seq<Level>,
                today: bool, r: nat, n: Net, l: Level)
    requires CountsBound(taken, weight, m, epoch, quota, today, r) && Within(m, quota)
    requires l in quota && Covers(l, n)
    ensures Total(taken, weight(n)) <= Limits(r, l.max)
  {
    var i :| 0 <= i < |quota| && quota[i] == l;
    assert Get(m, Key(epoch, n)) <= quota[i].max;
    LimitsOneMore(r, l.max);
  }

  lemma LimitsOneMore(r: nat, max: nat)
    ensures r > 0 ==> Limits(r, max) == Limits(r - 1, max) + max
  {
  }

  lemma StartCounts(day: nat)
    ensures Counted(START) && DayBound(START, day, 0)
  {
  }

  // ---- when the counters are the day's ----

  // Every reservation of the gate's day, not given back, is of the current roll.
  ghost predicate Current(w: World) {
    forall i :: 0 <= i < |w.taken| && !w.taken[i].status.GivenBack? && 0 <= w.taken[i].hold.day == w.gate.day ==>
      w.taken[i].hold.epoch == w.gate.epoch
  }

  // The gate's counters are what the reservations of its day hold.
  ghost predicate DayExact(w: World) {
    && (forall n: Net {:trigger Key(w.gate.epoch, n)} ::
          && Total(w.taken, SignupsOn(w.gate.day, n)) == Get(w.gate.signup, Key(w.gate.epoch, n))
          && Total(w.taken, TrialsOn(w.gate.day, n)) == Get(w.gate.trials, Key(w.gate.epoch, n)))
    && Total(w.taken, GrantsOn(w.gate.day)) == w.gate.trialN
  }

  // A roll onto a day of which there are reservations not given back: it can be read off
  // the gate's day, the clock and the reservations before it is made. A restarted gate is
  // of no day, so its first request rolls.
  ghost predicate Reopens(w: World, op: Op) {
    TimeOf(op).Some? && TimeOf(op).value / DAY != w.gate.day
    && exists i :: 0 <= i < |w.taken| && !w.taken[i].status.GivenBack?
                   && w.taken[i].hold.day == TimeOf(op).value / DAY
  }

  // A reservation of a day counts a network, and one of none counts nothing.
  predicate HoldCounts(h: Hold) {
    && (h.day >= 0 ==> h.signup != [] || h.trials != [])
    && (h.day < 0 ==> h.signup == [] && h.trials == [] && !h.trial)
  }

  ghost predicate HoldsCount(w: World) {
    -1 <= w.gate.day && forall i :: 0 <= i < |w.taken| ==> HoldCounts(w.taken[i].hold)
  }

  // What a reservation holds of the current roll's counter it holds of the day's.
  lemma RollIsOfItsDay(w: World, i: nat, n: Net)
    requires HoldsOk(w) && i < |w.taken|
    ensures SignupsOf(Key(w.gate.epoch, n))(w.taken[i]) <= SignupsOn(w.gate.day, n)(w.taken[i])
    ensures TrialsOf(Key(w.gate.epoch, n))(w.taken[i]) <= TrialsOn(w.gate.day, n)(w.taken[i])
    ensures GrantOf(w.gate.epoch)(w.taken[i]) <= GrantsOn(w.gate.day)(w.taken[i])
    ensures w.taken[i].hold.epoch == w.gate.epoch ==>
              && SignupsOf(Key(w.gate.epoch, n))(w.taken[i]) == SignupsOn(w.gate.day, n)(w.taken[i])
              && TrialsOf(Key(w.gate.epoch, n))(w.taken[i]) == TrialsOn(w.gate.day, n)(w.taken[i])
              && GrantOf(w.gate.epoch)(w.taken[i]) == GrantsOn(w.gate.day)(w.taken[i])
    ensures w.taken[i].hold.epoch != w.gate.epoch ==>
              && SignupsOf(Key(w.gate.epoch, n))(w.taken[i]) == 0 && TrialsOf(Key(w.gate.epoch, n))(w.taken[i]) == 0
              && GrantOf(w.gate.epoch)(w.taken[i]) == 0
    ensures w.taken[i].status.GivenBack? || w.taken[i].hold.day != w.gate.day ==>
              && SignupsOn(w.gate.day, n)(w.taken[i]) == 0 && TrialsOn(w.gate.day, n)(w.taken[i]) == 0
              && GrantsOn(w.gate.day)(w.taken[i]) == 0
  {
    var h := w.taken[i].hold;
    assert HoldOk(w.gate, h);
    if h.epoch != w.gate.epoch {
      OccursOf(h.signup, h.epoch, Key(w.gate.epoch, n));
      OccursOf(h.trials, h.epoch, Key(w.gate.epoch, n));
    }
  }

  lemma CurrentCounts(w: World, n: Net)
    requires Counted(w) && HoldsCount(w) && Current(w)
    ensures Total(w.taken, SignupsOn(w.gate.day, n)) == Get(w.gate.signup, Key(w.gate.epoch, n))
    ensures Total(w.taken, TrialsOn(w.gate.day, n)) == Get(w.gate.trials, Key(w.gate.epoch, n))
    ensures Total(w.taken, GrantsOn(w.gate.day)) == Total(w.taken, GrantOf(w.gate.epoch))
  {
    hide Total;
    var k := Key(w.gate.epoch, n);
    forall i | 0 <= i < |w.taken|
      ensures SignupsOf(k)(w.taken[i]) == SignupsOn(w.gate.day, n)(w.taken[i])
      ensures TrialsOf(k)(w.taken[i]) == TrialsOn(w.gate.day, n)(w.taken[i])
      ensures GrantOf(w.gate.epoch)(w.taken[i]) == GrantsOn(w.gate.day)(w.taken[i])
    {
      RollIsOfItsDay(w, i, n);
      assert HoldCounts(w.taken[i].hold);
    }
    TotalsOrdered(w.taken, SignupsOf(k), w.taken, SignupsOn(w.gate.day, n));
    TotalsOrdered(w.taken, TrialsOf(k), w.taken, TrialsOn(w.gate.day, n));
    TotalsOrdered(w.taken, GrantOf(w.gate.epoch), w.taken, GrantsOn(w.gate.day));
  }

  lemma OldHoldMiscounts(w: World, i: nat)
    requires Counted(w) && HoldsCount(w) && i < |w.taken| && !w.taken[i].status.GivenBack?
    requires 0 <= w.taken[i].hold.day == w.gate.day && w.taken[i].hold.epoch != w.gate.epoch
    ensures !DayExact(w)
  {
    hide Total;
    var h := w.taken[i].hold;
    assert HoldOk(w.gate, h) && HoldCounts(h);
    var key := if h.signup != [] then h.signup[0] else h.trials[0];
    var n := Net(key.v6, key.bits, key.prefix);
    var k := Key(w.gate.epoch, n);
    forall j | 0 <= j < |w.taken|
      ensures SignupsOf(k)(w.taken[j]) <= SignupsOn(w.gate.day, n)(w.taken[j])
      ensures TrialsOf(k)(w.taken[j]) <= TrialsOn(w.gate.day, n)(w.taken[j])
    {
      RollIsOfItsDay(w, j, n);
    }
    RollIsOfItsDay(w, i, n);
    TotalsOrdered(w.taken, SignupsOf(k), w.taken, SignupsOn(w.gate.day, n));
    TotalsOrdered(w.taken, TrialsOf(k), w.taken, TrialsOn(w.gate.day, n));
    assert key == Key(h.epoch, n);
    if h.signup != [] {
      Occurring(h.signup, 0);
      assert SignupsOn(w.gate.day, n)(w.taken[i]) > 0;
    } else {
      Occurring(h.trials, 0);
      assert TrialsOn(w.gate.day, n)(w.taken[i]) > 0;
    }
    assert Get(w.gate.signup, k) == Total(w.taken, SignupsOf(k));
    assert Get(w.gate.trials, k) == Total(w.taken, TrialsOf(k));
  }

  lemma {:induction false} Occurring<K>(keys: seq<K>, i: nat)
    requires i < |keys|
    ensures Occurs(keys, keys[i]) > 0
    decreases |keys|
  {
    if i < |keys| - 1 {
      Occurring(keys[..|keys| - 1], i);
    }
  }

  lemma ExactIs(w: World)
    requires Counted(w) && HoldsCount(w)
    ensures DayExact(w) <==> Current(w) && TrialExact(w)
  {
    hide Counted, HoldsCount, Total;
    if Current(w) {
      CurrentCounts(w, Net(false, 0, 0));
      forall n: Net {:trigger Key(w.gate.epoch, n)} | true
        ensures Total(w.taken, SignupsOn(w.gate.day, n)) == Get(w.gate.signup, Key(w.gate.epoch, n))
        ensures Total(w.taken, TrialsOn(w.gate.day, n)) == Get(w.gate.trials, Key(w.gate.epoch, n))
      {
        CurrentCounts(w, n);
      }
    } else {
      var i :| 0 <= i < |w.taken| && !w.taken[i].status.GivenBack? && 0 <= w.taken[i].hold.day == w.gate.day
               && w.taken[i].hold.epoch != w.gate.epoch;
      OldHoldMiscounts(w, i);
    }
  }

  // ---- what keeps them so ----

  lemma StepCurrent(w: World, op: Op)
    requires HoldsOk(w) && Current(w) && HoldsCount(w) && Enabled(w, op)
    ensures Current(Step(w, op)) <==> !Reopens(w, op)
    ensures !Stray(w, op)
  {
    hide KeysOf, HasRoom, Bump, Drop, Less;
    var v := Step(w, op);
    if Reopens(w, op) {
      var i :| 0 <= i < |w.taken| && !w.taken[i].status.GivenBack?
               && w.taken[i].hold.day == TimeOf(op).value / DAY;
      assert HoldOk(w.gate, w.taken[i].hold);
      assert v.taken[i] == w.taken[i] && v.gate.day == w.taken[i].hold.day && v.gate.epoch == w.gate.epoch + 1;
    }
    if op.Fails? {
      assert HoldCounts(w.taken[op.i].hold);
    }
  }

  lemma {:induction false} KeysNotNone(epoch: nat, quota: seq<Level>, ip: Ip, i: nat)
    requires i < |quota| && KeyOf(epoch, quota[i], ip).Some?
    ensures KeysOf(epoch, quota, ip) != []
    decreases |quota|
  {
    if i < |quota| - 1 {
      KeysNotNone(epoch, quota[..|quota| - 1], ip, i);
    }
  }

  lemma StepHoldsCount(w: World, op: Op)
    requires HoldsCount(w) && Enabled(w, op)
    ensures HoldsCount(Step(w, op))
  {
    hide KeysOf, HasRoom, Bump, Drop, Less;
    if op.SignsUp? {
      KeysNotNone(Rolled(w.gate, op.now).epoch, SIGNUP_QUOTA, op.ip, if op.ip.v6 then 2 else 0);
    } else if op.AsksTrial? {
      KeysNotNone(Rolled(w.gate, op.now).epoch, TRIAL_BUDGET, op.ip, if op.ip.v6 then 1 else 0);
    }
  }

  lemma {:induction false} RunHoldsCount(w: World, ops: seq<Op>)
    requires HoldsCount(w)
    ensures HoldsCount(Run(w, ops))
    decreases |ops|
  {
    hide HoldsCount, Step;
    if ops != [] {
      if Enabled(w, ops[0]) {
        StepHoldsCount(w, ops[0]);
      }
      RunHoldsCount(if Enabled(w, ops[0]) then Step(w, ops[0]) else w, ops[1..]);
    }
  }

  lemma ReachedHoldsCount(w: World)
    requires Reached(w)
    ensures Counted(w) && HoldsCount(w)
  {
    var ops :| w == Run(START, ops);
    ReachedCounts(w);
    RunHoldsCount(START, ops);
  }

  // Whatever happened: the counters are the day's exactly when no reservation of the day is
  // of another roll and the hub's own count of trial grants is that of its roll.
  lemma ExactWhenCurrent(w: World)
    requires Reached(w)
    ensures DayExact(w) <==> Current(w) && TrialExact(w)
  {
    ReachedHoldsCount(w);
    ExactIs(w);
  }

  lemma StepExact(w: World, op: Op)
    requires Counted(w) && HoldsCount(w) && DayExact(w) && Enabled(w, op)
    ensures DayExact(Step(w, op)) <==> !Reopens(w, op)
    ensures Counted(Step(w, op)) && HoldsCount(Step(w, op))
  {
    hide HoldsCount, TrialExact, DayExact, Current, Step, Reopens;
    ExactIs(w);
    StepCurrent(w, op);
    StepCounts(w, op);
    StepHoldsCount(w, op);
    StepGrants(w, op);
    ExactIs(Step(w, op));
  }

  // A step keeps the counters the day's, whatever the clock does, exactly when it does not
  // reopen a day.
  lemma DayStaysExact(w: World, op: Op)
    requires Reached(w) && DayExact(w) && Enabled(w, op)
    ensures DayExact(Step(w, op)) <==> !Reopens(w, op)
  {
    ReachedHoldsCount(w);
    StepExact(w, op);
  }

  ghost predicate NeverReopens(w: World, ops: seq<Op>)
    decreases |ops|
  {
    ops == [] ||
    (if Enabled(w, ops[0]) then !Reopens(w, ops[0]) && NeverReopens(Step(w, ops[0]), ops[1..])
     else NeverReopens(w, ops[1..]))
  }

  // The counters are the day's before the run, after it and at every point of it.
  ghost predicate AlwaysExact(w: World, ops: seq<Op>)
    decreases |ops|
  {
    DayExact(w) && (ops == [] || AlwaysExact(if Enabled(w, ops[0]) then Step(w, ops[0]) else w, ops[1..]))
  }

  lemma {:induction false} RunExact(w: World, ops: seq<Op>)
    requires Counted(w) && HoldsCount(w) && DayExact(w)
    ensures AlwaysExact(w, ops) <==> NeverReopens(w, ops)
    decreases |ops|
  {
    hide Counted, HoldsCount, DayExact, Step, Reopens;
    if ops != [] {
      if Enabled(w, ops[0]) {
        StepExact(w, ops[0]);
        if !Reopens(w, ops[0]) {
          RunExact(Step(w, ops[0]), ops[1..]);
        }
      } else {
        RunExact(w, ops[1..]);
      }
    }
  }

  // The counters are today's reservations not given back, on every network and for the
  // hub's trial grants, at every point of a run exactly when it reopens no day.
  lemma CountersAreTheDays(ops: seq<Op>)
    ensures AlwaysExact(START, ops) <==> NeverReopens(START, ops)
  {
    RunExact(START, ops);
  }

  // ---- every day within its limits ----

  ghost predicate DayWithin(w: World, day: int) {
    && Total(w.taken, GrantsOn(day)) <= TRIAL_BUDGET_HUB
    && forall n: Net, l: Level {:trigger Covers(l, n)} :: Covers(l, n) ==>
         && (l in SIGNUP_QUOTA ==> Total(w.taken, SignupsOn(day, n)) <= l.max)
         && (l in TRIAL_BUDGET ==> Total(w.taken, TrialsOn(day, n)) <= l.max)
  }

  lemma TodayWithin(w: World)
    requires Counted(w) && DayExact(w) && w.gate.trialN <= TRIAL_BUDGET_HUB
    ensures DayWithin(w, w.gate.day)
  {
    hide Total, Exact, HoldsOk;
    forall n: Net, l: Level {:trigger Covers(l, n)} | Covers(l, n)
      ensures l in SIGNUP_QUOTA ==> Total(w.taken, SignupsOn(w.gate.day, n)) <= l.max
      ensures l in TRIAL_BUDGET ==> Total(w.taken, TrialsOn(w.gate.day, n)) <= l.max
    {
      LimitOf(w.gate.signup, SIGNUP_QUOTA, l, Key(w.gate.epoch, n));
      LimitOf(w.gate.trials, TRIAL_BUDGET, l, Key(w.gate.epoch, n));
    }
  }

  lemma LimitOf(m: Counters, quota: seq<Level>, l: Level, k: NetKey)
    requires Within(m, quota) && l.v6 == k.v6 && l.bits == k.bits
    ensures l in quota ==> Get(m, k) <= l.max
  {
    if l in quota {
      var i :| 0 <= i < |quota| && quota[i] == l;
    }
  }

  // What one step adds to the reservations, or takes from them.
  lemma OtherDay(w: World, op: Op, day: nat, weight: Taken -> nat)
    requires Enabled(w, op) && Step(w, op).gate.day != day
    requires forall t: Taken :: t.hold.day != day || t.status.GivenBack? ==> weight(t) == 0
    requires forall t: Taken, s: Status :: !s.GivenBack? && !t.status.GivenBack? ==>
               weight(t) == weight(t.(status := s))
    ensures Total(Step(w, op).taken, weight) <= Total(w.taken, weight)
  {
    hide KeysOf, HasRoom, Bump, Drop, Less, Total;
    var v := Step(w, op);
    if |v.taken| > |w.taken| {
      assert v.taken == w.taken + [v.taken[|w.taken|]];
      TotalMore(w.taken, v.taken[|w.taken|], weight);
    } else {
      TotalsOrdered(v.taken, weight, w.taken, weight);
    }
  }

  lemma OtherDayWithin(w: World, op: Op, day: nat)
    requires Enabled(w, op) && Step(w, op).gate.day != day && DayWithin(w, day)
    ensures DayWithin(Step(w, op), day)
  {
    hide Step, Total, Occurs;
    OtherDay(w, op, day, GrantsOn(day));
    forall n: Net, l: Level {:trigger Covers(l, n)} | Covers(l, n)
      ensures l in SIGNUP_QUOTA ==> Total(Step(w, op).taken, SignupsOn(day, n)) <= l.max
      ensures l in TRIAL_BUDGET ==> Total(Step(w, op).taken, TrialsOn(day, n)) <= l.max
    {
      OtherDay(w, op, day, SignupsOn(day, n));
      OtherDay(w, op, day, TrialsOn(day, n));
    }
  }

  lemma StepBudget(w: World, op: Op)
    requires Enabled(w, op) && w.gate.trialN <= TRIAL_BUDGET_HUB
    ensures Step(w, op).gate.trialN <= TRIAL_BUDGET_HUB
  {
    hide KeysOf, HasRoom, Bump, Drop, Less;
  }

  lemma {:induction false} RunWithin(w: World, ops: seq<Op>, day: nat)
    requires Counted(w) && HoldsCount(w) && DayExact(w) && w.gate.trialN <= TRIAL_BUDGET_HUB
    requires DayWithin(w, day) && NeverReopens(w, ops)
    ensures DayWithin(Run(w, ops), day)
    decreases |ops|
  {
    hide Counted, HoldsCount, DayExact, DayWithin, Step, Reopens;
    if ops != [] {
      if Enabled(w, ops[0]) {
        StepExact(w, ops[0]);
        StepBudget(w, ops[0]);
        if Step(w, ops[0]).gate.day == day {
          TodayWithin(Step(w, ops[0]));
        } else {
          OtherDayWithin(w, ops[0], day);
        }
      }
      RunWithin(if Enabled(w, ops[0]) then Step(w, ops[0]) else w, ops[1..], day);
    }
  }

  // In a run that reopens no day, whatever its clock and its restarts, every limit of a block
  // of addresses, and the hub's own, is a limit of the UTC day, of any day of the run.
  lemma DaysWithinLimits(ops: seq<Op>, day: nat, l: Level, p: nat)
    requires NeverReopens(START, ops)
    ensures var w := Run(START, ops);
            && (l in SIGNUP_QUOTA ==> Total(w.taken, SignupOn(day, l, p)) <= l.max)
            && (l in TRIAL_BUDGET ==> Total(w.taken, TrialOn(day, l, p)) <= l.max)
            && Total(w.taken, GrantsOn(day)) <= TRIAL_BUDGET_HUB
  {
    hide NeverReopens;
    RunWithin(START, ops, day);
    RunAsked(START, ops);
    AllOn(Run(START, ops).taken, day, l, p);
    hide Total, Run;
    assert Covers(l, Net(l.v6, l.bits, p));
  }

  // ---- a clock that does not step back ----

  predicate Steady(t: nat, ops: seq<Op>)
    decreases |ops|
  {
    ops == [] ||
    match TimeOf(ops[0])
    case Some(now) => t <= now && Steady(now, ops[1..])
    case None => Steady(t, ops[1..])
  }

  function Later(op: Op, t: nat): nat {
    if TimeOf(op).Some? then TimeOf(op).value else t
  }

  // The hub restarts only while there is no reservation of the day its clock last read, but
  // such as are lost with the restart.
  ghost predicate RestartsBetweenDays(w: World, t: nat, ops: seq<Op>)
    decreases |ops|
  {
    ops == [] ||
    if Enabled(w, ops[0]) then
      && (ops[0].Restarts? ==> NothingOf(Survived(w.taken, ops[0].lost), t / DAY))
      && RestartsBetweenDays(Step(w, ops[0]), Later(ops[0], t), ops[1..])
    else RestartsBetweenDays(w, Later(ops[0], t), ops[1..])
  }

  predicate NothingOf(taken: seq<Taken>, day: nat) {
    forall i :: 0 <= i < |taken| && taken[i].hold.day == day ==> taken[i].status.GivenBack?
  }

  // No reservation is of a day to come, and while there is one of the day last read, the
  // gate is of that day.
  ghost predicate DaysPass(w: World, t: nat) {
    && w.gate.day <= t / DAY && (forall i :: 0 <= i < |w.taken| ==> w.taken[i].hold.day <= t / DAY)
    && (w.gate.day == t / DAY || NothingOf(w.taken, t / DAY))
  }

  lemma DaysInOrder(t: nat, now: nat)
    requires t <= now
    ensures t / DAY <= now / DAY
  {
  }

  lemma TimePasses(w: World, t: nat, now: nat)
    requires DaysPass(w, t) && t <= now
    ensures DaysPass(w, now)
  {
    DaysInOrder(t, now);
  }

  lemma StepPasses(w: World, t: nat, op: Op)
    requires DaysPass(w, t) && Enabled(w, op) && t <= Later(op, t)
    requires op.Restarts? ==> NothingOf(Survived(w.taken, op.lost), t / DAY)
    ensures DaysPass(Step(w, op), Later(op, t)) && !Reopens(w, op)
  {
    hide KeysOf, HasRoom, Bump, Drop, Less;
    DaysInOrder(t, Later(op, t));
  }

  lemma {:induction false} SteadyNeverReopens(w: World, t: nat, ops: seq<Op>)
    requires DaysPass(w, t) && Steady(t, ops) && RestartsBetweenDays(w, t, ops)
    ensures NeverReopens(w, ops)
    decreases |ops|
  {
    hide Step, Reopens, NothingOf;
    if ops != [] {
      if Enabled(w, ops[0]) {
        StepPasses(w, t, ops[0]);
        hide DaysPass;
        SteadyNeverReopens(Step(w, ops[0]), Later(ops[0], t), ops[1..]);
      } else {
        TimePasses(w, t, Later(ops[0], t));
        hide DaysPass;
        SteadyNeverReopens(w, Later(ops[0], t), ops[1..]);
      }
    }
  }

  // So under a clock that does not step back, on a hub that does not restart on a day with
  // reservations, every limit is a limit of the UTC day, and the counters are today's
  // reservations at every point of the run.
  lemma SteadyDaysWithinLimits(ops: seq<Op>, day: nat, l: Level, p: nat)
    requires Steady(0, ops) && RestartsBetweenDays(START, 0, ops)
    ensures var w := Run(START, ops);
            && (l in SIGNUP_QUOTA ==> Total(w.taken, SignupOn(day, l, p)) <= l.max)
            && (l in TRIAL_BUDGET ==> Total(w.taken, TrialOn(day, l, p)) <= l.max)
            && Total(w.taken, GrantsOn(day)) <= TRIAL_BUDGET_HUB
            && AlwaysExact(START, ops)
  {
    hide Total, AlwaysExact, NeverReopens, Steady, RestartsBetweenDays;
    SteadyNeverReopens(START, 0, ops);
    CountersAreTheDays(ops);
    DaysWithinLimits(ops, day, l, p);
  }
}
