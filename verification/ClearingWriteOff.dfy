// A run in which an acknowledged discharge cannot be written off: a receipt was credited
// twice, so the creditor accepts discharges of more than the debtor records due.
module ClearingWriteOff {
  import opened Ledger
  import opened Clearing
  import opened ClearingPromises
  import opened ClearingWitness

  // Reached by some run, under any clocks.
  ghost predicate ReachedAny(n: Net) {
    exists start: Net, es :: Fresh(start) && n == RunAny(start, es)
  }

  lemma {:induction false} SteadyRunIsRun(n: Net, es: seq<Event>) returns (fs: seq<Event>)
    ensures RunAny(n, fs) == RunNet(n, es)
    decreases |es|
  {
    hide Possible, Next;
    if es == [] {
      fs := [];
    } else if Can(n, es[0]) {
      var rest := SteadyRunIsRun(Next(n, es[0]), es[1..]);
      fs := [es[0]] + rest;
      assert fs[1..] == rest;
    } else {
      fs := SteadyRunIsRun(n, es[1..]);
    }
  }

  lemma ReachedIsReachedAny(n: Net)
    requires Reached(n)
    ensures ReachedAny(n)
  {
    var start: Net, es :| Fresh(start) && n == RunNet(start, es);
    var fs := SteadyRunIsRun(start, es);
  }

  lemma {:induction false} RunAnyMore(n: Net, es: seq<Event>, e: Event)
    ensures var m := RunAny(n, es); RunAny(n, es + [e]) == if Possible(m, e) then Next(m, e) else m
    decreases |es|
  {
    hide Possible, Next;
    if es == [] {
      assert [e][1..] == [];
    } else {
      assert (es + [e])[1..] == es[1..] + [e];
      RunAnyMore(if Possible(n, es[0]) then Next(n, es[0]) else n, es[1..], e);
    }
  }

  lemma AnyNext(n: Net, e: Event) returns (m: Net)
    requires ReachedAny(n) && Possible(n, e)
    ensures ReachedAny(m) && m == Next(n, e)
  {
    hide Possible, Next, Fresh;
    m := Next(n, e);
    var start: Net, es :| Fresh(start) && n == RunAny(start, es);
    RunAnyMore(start, es, e);
    assert m == RunAny(start, es + [e]);
  }

  // What hub 0 records due to hub 1, and hub 1 owed by hub 0; who applied what.
  predicate At(n: Net, due: int, owed: int, signed: map<nat, Signed>, applied: set<nat>) {
    && 0 in n.hubs && 1 in n.hubs && Due(n, 0, 1) == due && Owed(n, 1, 0) == owed
    && n.signed == signed && n.hubs[1].rows.statements == applied && n.hubs[1].rows.hub == 1
  }

  const DISCHARGE: Signed := Signed(0, 1, 5, false)

  lemma Sign(n: Net, st: nat, owed: int, signed: map<nat, Signed>) returns (m: Net)
    requires ReachedAny(n) && At(n, 5, owed, signed, {}) && st !in signed
    ensures ReachedAny(m) && At(m, 5, owed, signed[st := DISCHARGE], {})
  {
    hide ReachedAny;
    m := AnyNext(n, Signs(0, 1, 5, st));
  }

  lemma Apply(n: Net, st: nat, owed: int, signed: map<nat, Signed>, applied: set<nat>) returns (m: Net)
    requires ReachedAny(n) && At(n, 5, owed, signed, applied) && owed >= 5
    requires st in signed && signed[st] == DISCHARGE && st !in applied
    ensures ReachedAny(m) && At(m, 5, owed - 5, signed, applied + {st})
  {
    hide ReachedAny;
    m := AnyNext(n, Applies(st));
  }

  lemma Subtract(n: Net, signed: map<nat, Signed>, applied: set<nat>, st: nat) returns (m: Net)
    requires ReachedAny(n) && At(n, 5, 0, signed, applied)
    requires st in signed && signed[st] == DISCHARGE && st in applied
    ensures ReachedAny(m) && At(m, 0, 0, signed[st := DISCHARGE.(subtracted := true)], applied)
  {
    hide ReachedAny;
    m := AnyNext(n, Subtracts(st));
  }

  lemma CreditedTwiceReached() returns (n: Net)
    ensures ReachedAny(n) && At(n, 5, 10, map[], {})
  {
    hide Reached, ReachedAny, PairAgrees, Next, Possible;
    var before, now := CreditedTwice();
    ReachedIsReachedAny(before);
    n := AnyNext(before, Clears(PAID, now));
  }

  // Hub 0 owes 5 and is recorded as owing 10. It signs two discharges of 5, both are
  // applied and acknowledged, and the second cannot be written off.
  lemma WriteOffFails() returns (n: Net, st: nat)
    ensures ReachedAny(n) && Possible(n, Subtracts(st))
    ensures var s := n.signed[st]; !DischargeDue(n.hubs[s.from].rows, s.to, s.amount).0
  {
    hide ReachedAny, At;
    n := CreditedTwiceReached();
    n := Sign(n, 1, 10, map[]);
    n := Sign(n, 2, 10, map[1 := DISCHARGE]);
    var signed := map[1 := DISCHARGE][2 := DISCHARGE];
    n := Apply(n, 1, 10, signed, {});
    n := Apply(n, 2, 5, signed, {} + {1});
    n := Subtract(n, signed, {} + {1} + {2}, 1);
    st := 2;
    SecondIsRefused(n, signed[1 := DISCHARGE.(subtracted := true)], {} + {1} + {2});
  }

  lemma SecondIsRefused(n: Net, signed: map<nat, Signed>, applied: set<nat>)
    requires At(n, 0, 0, signed, applied) && 2 in applied && 2 in signed && signed[2] == DISCHARGE
    ensures Possible(n, Subtracts(2)) && !DischargeDue(n.hubs[0].rows, 1, 5).0
    ensures n.signed[2] == DISCHARGE
  {
  }
}
