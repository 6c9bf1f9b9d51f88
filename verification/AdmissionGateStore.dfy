// The admission gate in process memory, changed counter by counter; each method is
// proved to be its operation of AdmissionGate.
module AdmissionGateStore {
  import opened Basics
  import opened Sums
  import opened AdmissionGate
  import opened AdmissionGateSafety
  import opened AdmissionGatePromises
  import opened AdmissionGateBlocks

  lemma KeysOneMore(epoch: nat, quota: seq<Level>, i: nat, ip: Ip)
    requires i < |quota|
    ensures KeysOf(epoch, quota[..i + 1], ip) ==
            var k := KeyOf(epoch, quota[i], ip);
            KeysOf(epoch, quota[..i], ip) + if k.Some? then [k.value] else []
  {
    assert quota[..i + 1][..i] == quota[..i];
    assert KeysOf(epoch, quota[..i], ip) + [] == KeysOf(epoch, quota[..i], ip);
  }

  ghost predicate Sound(w: World) {
    Counted(w) && WindowsOk(w) && AllAsked(w.taken)
  }

  lemma StepKeeps(w: World, op: Op)
    requires Sound(w) && Enabled(w, op)
    ensures Sound(Step(w, op))
  {
    StepAsked(w, op);
    StepCounts(w, op);
    StepWindows(w, op);
  }

  // What a trial grant asked for leaves, once the day is rolled.
  lemma TrialIs(w: World, ip: Ip, now: nat)
    ensures var g := Rolled(w.gate, now); var keys := KeysOf(g.epoch, TRIAL_BUDGET, ip);
            var hold := Hold(g.day, g.epoch, [], keys, true, 0);
            if g.trialN >= TRIAL_BUDGET_HUB || !HasRoom(g.trials, g.epoch, TRIAL_BUDGET, ip) then
              AdmissionGate.ReserveTrial(w.gate, ip, now).0.None? && Step(w, AsksTrial(ip, now)) == w.(gate := g)
            else
              && AdmissionGate.ReserveTrial(w.gate, ip, now).0 == Some(hold)
              && Step(w, AsksTrial(ip, now)) ==
                   w.(gate := g.(trials := Bump(g.trials, keys), trialN := g.trialN + 1),
                      taken := w.taken + [Taken(hold, ForTrial(ip), Live)])
  {
    hide KeysOf, HasRoom, Bump, Rolled;
  }

  class Memory {
    var epoch: nat
    var day: int
    var signup: Counters
    var trials: Counters
    var trialN: int
    var window: map<nat, int>
    // Every reservation made, and what became of it.
    ghost var taken: seq<Taken>

    function View(): Gate
      reads this
    {
      Gate(epoch, day, signup, trials, trialN, window)
    }

    ghost function Kept(): World
      reads this
    {
      World(View(), taken, map[])
    }

    // The counters are what the reservations hold, within every limit, and every reservation
    // holds what is its address's.
    ghost predicate Valid()
      reads this
    {
      Sound(Kept())
    }

    constructor ()
      ensures Valid() && Kept() == START
    {
      epoch, day, signup, trials, trialN, window, taken := 0, -1, map[], map[], 0, map[], [];
    }

    // The gate of the process after: key is what its first day key is numbered past, before
    // what the hub had reserved until then, lost what was not written.
    constructor Restarted(key: nat, ghost before: World, ghost lost: set<nat>)
      requires Sound(before) && before.windows == map[] && key == before.gate.epoch + 1
      ensures Valid() && Kept() == Step(before, Restarts(lost))
    {
      epoch, day, signup, trials, trialN, window := key, -1, map[], map[], 0, map[];
      taken := Survived(before.taken, lost);
      new;
      StepKeeps(before, Restarts(lost));
    }

    method RollDay(now: nat)
      requires Valid()
      modifies this
      ensures Valid() && Kept() == old(Kept()).(gate := Rolled(old(View()), now))
    {
      RolledCounts(Kept(), now);
      TookWindows(Kept(), (None, Rolled(View(), now)), ForPlace(0));
      hide Counted, WindowsOk, AllAsked;
      var today := now / DAY;
      if today == day {
        return;
      }
      day := today;
      epoch := epoch + 1;
      signup, trials, trialN := map[], map[], 0;
    }

    // The keys of an address's networks, or none when one of them is full.
    static method FreeKeys(counters: Counters, epoch: nat, quota: seq<Level>, ip: Ip)
      returns (keys: Option<seq<NetKey>>)
      ensures keys == if HasRoom(counters, epoch, quota, ip) then Some(KeysOf(epoch, quota, ip)) else None
    {
      hide KeyOf;
      var found := [];
      for i := 0 to |quota|
        invariant found == KeysOf(epoch, quota[..i], ip)
        invariant forall j :: 0 <= j < i ==>
                    (KeyOf(epoch, quota[j], ip).Some? ==>
                       Get(counters, KeyOf(epoch, quota[j], ip).value) < quota[j].max)
      {
        KeysOneMore(epoch, quota, i, ip);
        var k := KeyOf(epoch, quota[i], ip);
        if k.None? {
          continue;
        }
        if Get(counters, k.value) >= quota[i].max {
          return None;
        }
        found := found + [k.value];
      }
      assert quota[..|quota|] == quota;
      return Some(found);
    }

    static method CountUp(counters: Counters, keys: seq<NetKey>) returns (m: Counters)
      ensures m == Bump(counters, keys)
    {
      m := counters;
      for i := 0 to |keys|
        invariant m == Bump(counters, keys[..i])
      {
        assert keys[..i + 1][..i] == keys[..i];
        m := m[keys[i] := Get(m, keys[i]) + 1];
      }
      assert keys[..|keys|] == keys;
    }

    // A counter that was not there is left out, as one that reaches 0 is.
    static method CountDown(counters: Counters, keys: seq<NetKey>) returns (m: Counters)
      ensures m == Drop(counters, keys)
    {
      m := counters;
      for i := 0 to |keys|
        invariant m == Drop(counters, keys[..i])
      {
        assert keys[..i + 1][..i] == keys[..i];
        var n := Get(m, keys[i]) - 1;
        if n <= 0 {
          m := m - {keys[i]};
        } else {
          m := m[keys[i] := n];
        }
      }
      assert keys[..|keys|] == keys;
    }

    method ReserveSignup(ip: Ip, now: nat) returns (hold: Option<Hold>)
      requires Valid()
      modifies this
      ensures hold == AdmissionGate.ReserveSignup(old(View()), ip, now).0
      ensures Valid() && Kept() == Step(old(Kept()), SignsUp(ip, now))
      ensures hold.Some? <==> SignupPasses(old(Kept()), ip, now)
    {
      Decides(Kept(), ip, now);
      StepKeeps(Kept(), SignsUp(ip, now));
      hide HasRoom, KeysOf, Bump, Sound, SignupPasses, TrialPasses;
      RollDay(now);
      var keys := FreeKeys(signup, epoch, SIGNUP_QUOTA, ip);
      if keys.None? {
        return None;
      }
      signup := CountUp(signup, keys.value);
      hold := Some(Hold(day, epoch, keys.value, [], false, 0));
      taken := taken + [Taken(hold.value, ForSignup(ip), Live)];
    }

    method ReserveTrial(ip: Ip, now: nat) returns (hold: Option<Hold>)
      requires Valid()
      modifies this
      ensures hold == AdmissionGate.ReserveTrial(old(View()), ip, now).0
      ensures Valid() && Kept() == Step(old(Kept()), AsksTrial(ip, now))
      ensures hold.Some? <==> TrialPasses(old(Kept()), ip, now)
    {
      Decides(Kept(), ip, now);
      TrialIs(Kept(), ip, now);
      StepKeeps(Kept(), AsksTrial(ip, now));
      hide HasRoom, KeysOf, Bump, Rolled, Step, AdmissionGate.ReserveTrial, Sound, TrialPasses;
      RollDay(now);
      if trialN >= TRIAL_BUDGET_HUB {
        return None;
      }
      var keys := FreeKeys(trials, epoch, TRIAL_BUDGET, ip);
      if keys.None? {
        return None;
      }
      trials := CountUp(trials, keys.value);
      trialN := trialN + 1;
      hold := Some(Hold(day, epoch, [], keys.value, true, 0));
      taken := taken + [Taken(hold.value, ForTrial(ip), Live)];
    }

    method ReserveWindow(id: nat, used: int, max: int) returns (hold: Option<Hold>)
      requires id != 0 && Valid()
      modifies this
      ensures hold == AdmissionGate.ReserveWindow(old(View()), id, used, max).0
      ensures Valid() && Kept() == Step(old(Kept()), TakesPlace(id, used, max))
    {
      StepKeeps(Kept(), TakesPlace(id, used, max));
      hide Sound;
      if used + Get(window, id) >= max {
        return None;
      }
      window := window[id := Get(window, id) + 1];
      hold := Some(Hold(-1, epoch, [], [], false, id));
      taken := taken + [Taken(hold.value, ForPlace(id), Live)];
    }

    method LeavePlace(id: nat)
      modifies `window
      ensures window == Less(old(window), id)
    {
      var n := Get(window, id) - 1;
      if n <= 0 {
        window := window - {id};
      } else {
        window := window[id := n];
      }
    }

    // The hold is the i-th reservation, which is given back or committed once.
    method Release(h: Hold, ghost i: nat)
      requires Valid() && i < |taken| && taken[i].hold == h && taken[i].status.Live?
      modifies this
      ensures Valid() && Kept() == Step(old(Kept()), Fails(i))
    {
      StepKeeps(Kept(), Fails(i));
      hide Drop, Sound, Get, Less;
      taken := taken[i := taken[i].(status := GivenBack)];
      if h.window != 0 {
        LeavePlace(h.window);
      }
      if h.day != day {
        return;
      }
      signup := CountDown(signup, h.signup);
      trials := CountDown(trials, h.trials);
      if h.trial && trialN > 0 {
        trialN := trialN - 1;
      }
    }

    method Commit(h: Hold, ghost i: nat)
      requires Valid() && i < |taken| && taken[i].hold == h && taken[i].status.Live?
      modifies this
      ensures Valid() && Kept() == Step(old(Kept()), Commits(i))
    {
      StepKeeps(Kept(), Commits(i));
      hide Sound;
      taken := taken[i := taken[i].(status := Done)];
      if h.window == 0 {
        return;
      }
      LeavePlace(h.window);
    }
  }
}
