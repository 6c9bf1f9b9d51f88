// What two hubs' records of each other, and all accounts together, add up to under any
// clocks.
module ClearingAccounts {
  import opened Basics
  import opened Sums
  import opened Amounts
  import opened Ledger
  import opened LedgerRuns
  import opened LedgerSafety
  import opened Clearing
  import opened ClearingSafety
  import ClearingPromises

  // ---- what a hub's past says of a peer ----

  // What was debited for b, as often as it was.
  function DebitedFor(ds: seq<Debit>, b: Aid): int {
    if ds == [] then 0
    else
      DebitedFor(ds[..|ds| - 1], b)
      + if ds[|ds| - 1].via == Some(b) then IdOf(ds[|ds| - 1]).amount else 0
  }

  // What was credited on a's receipts, as often as it was.
  function CreditedFrom(cs: seq<Credit>, a: Aid): int {
    if cs == [] then 0
    else CreditedFrom(cs[..|cs| - 1], a) + if cs[|cs| - 1].peer == a then cs[|cs| - 1].id.amount else 0
  }

  lemma DebitedMore(ds: seq<Debit>, d: Debit, b: Aid)
    ensures DebitedFor(ds + [d], b) == DebitedFor(ds, b) + if d.via == Some(b) then IdOf(d).amount else 0
  {
    assert (ds + [d])[..|ds|] == ds;
  }

  lemma CreditedMore(cs: seq<Credit>, c: Credit, a: Aid)
    ensures CreditedFrom(cs + [c], a) == CreditedFrom(cs, a) + if c.peer == a then c.id.amount else 0
  {
    assert (cs + [c])[..|cs|] == cs;
  }

  // All that was debited for peers, and all that was credited on their receipts.
  function DebitedOut(ds: seq<Debit>): int {
    if ds == [] then 0
    else DebitedOut(ds[..|ds| - 1]) + if ds[|ds| - 1].via.Some? then IdOf(ds[|ds| - 1]).amount else 0
  }

  function CreditedIn(cs: seq<Credit>): int {
    if cs == [] then 0 else CreditedIn(cs[..|cs| - 1]) + cs[|cs| - 1].id.amount
  }

  lemma OutMore(ds: seq<Debit>, d: Debit)
    ensures DebitedOut(ds + [d]) == DebitedOut(ds) + if d.via.Some? then IdOf(d).amount else 0
  {
    assert (ds + [d])[..|ds|] == ds;
  }

  lemma InMore(cs: seq<Credit>, c: Credit)
    ensures CreditedIn(cs + [c]) == CreditedIn(cs) + c.id.amount
  {
    assert (cs + [c])[..|cs|] == cs;
  }

  // What a hub's accounts would hold had it kept what it debited for peers, and had not
  // credited what they debited.
  function Own(w: World): int {
    Outstanding(w) + DebitedOut(w.past.debits) - CreditedIn(w.past.credits)
  }

  function Owns(hubs: map<Aid, World>): map<Aid, int> {
    map h | h in hubs :: Own(hubs[h])
  }

  ghost predicate TotalAccount(n: Net) {
    Sum(Owns(n.hubs)) == n.granted - n.redeemed
  }

  lemma TotalMoves(n: Net, n': Net, h: Aid, v: World)
    requires TotalAccount(n) && h in n.hubs && n'.hubs == n.hubs[h := v]
    requires Own(v) - Own(n.hubs[h]) == n'.granted - n.granted - (n'.redeemed - n.redeemed)
    ensures TotalAccount(n')
  {
    SumUpdate(Owns(n.hubs), h, Own(v));
    assert Owns(n'.hubs) == Owns(n.hubs)[h := Own(v)];
  }

  // What a records due to b less what b records owed by a is every debit made for b, less
  // every credit given on a's receipts, and the discharges applied and not written off.
  ghost predicate AccountAgrees(n: Net, a: Aid, b: Aid)
    requires a in n.hubs && b in n.hubs
  {
    Due(n, a, b) - Owed(n, b, a) ==
      DebitedFor(n.hubs[a].past.debits, b) - CreditedFrom(n.hubs[b].past.credits, a)
      + Sum(Between(n.unsubtracted, a, b))
  }

  ghost predicate AccountsAgree(n: Net) {
    forall a, b {:trigger AccountAgrees(n, a, b)} :: a in n.hubs && b in n.hubs && a != b ==> AccountAgrees(n, a, b)
  }

  // ---- one changed hub at a time ----

  lemma SameAccounts(n: Net, n': Net, h: Aid, v: World)
    requires AccountsAgree(n) && h in n.hubs && n'.hubs == n.hubs[h := v]
    requires v.rows.due == n.hubs[h].rows.due && v.rows.owed == n.hubs[h].rows.owed
    requires v.past.debits == n.hubs[h].past.debits && v.past.credits == n.hubs[h].past.credits
    requires n'.unsubtracted == n.unsubtracted
    ensures AccountsAgree(n')
  {
    forall a, b | a in n'.hubs && b in n'.hubs && a != b ensures AccountAgrees(n', a, b) {
      assert AccountAgrees(n, a, b);
    }
  }

  lemma DebitAccounts(n: Net, n': Net, h: Aid, v: World, d: Debit)
    requires AccountsAgree(n) && h in n.hubs && n'.hubs == n.hubs[h := v] && OneDebit(n.hubs[h], v, d)
    requires n'.unsubtracted == n.unsubtracted
    ensures AccountsAgree(n')
  {
    forall a, b | a in n'.hubs && b in n'.hubs && a != b ensures AccountAgrees(n', a, b) {
      assert AccountAgrees(n, a, b);
      DebitedMore(n.hubs[h].past.debits, d, b);
    }
  }

  lemma CreditAccounts(n: Net, n': Net, h: Aid, v: World, c: Credit)
    requires AccountsAgree(n) && h in n.hubs && n'.hubs == n.hubs[h := v] && OneCredit(n.hubs[h], v, c, c.id.amount)
    requires n'.unsubtracted == n.unsubtracted
    ensures AccountsAgree(n')
  {
    forall a, b | a in n'.hubs && b in n'.hubs && a != b ensures AccountAgrees(n', a, b) {
      assert AccountAgrees(n, a, b);
      CreditedMore(n.hubs[h].past.credits, c, a);
    }
  }

  lemma AppliedAccounts(n: Net, n': Net, a: Aid, h: Aid, v: World, f: Flow<nat>, amt: int)
    requires AccountsAgree(n) && h in n.hubs && n'.hubs == n.hubs[h := v] && h != a
    requires v.rows.due == n.hubs[h].rows.due && v.rows.owed == Add(n.hubs[h].rows.owed, a, -amt)
    requires v.past == n.hubs[h].past
    requires f !in n.unsubtracted && f.from == a && f.to == h && n'.unsubtracted == n.unsubtracted[f := amt]
    ensures AccountsAgree(n')
  {
    forall x, y | x in n'.hubs && y in n'.hubs && x != y ensures AccountAgrees(n', x, y) {
      assert AccountAgrees(n, x, y);
      BetweenAdd(n.unsubtracted, f, amt, x, y);
    }
  }

  lemma SubtractedAccounts(n: Net, n': Net, h: Aid, b: Aid, v: World, f: Flow<nat>)
    requires AccountsAgree(n) && h in n.hubs && n'.hubs == n.hubs[h := v] && h != b
    requires v.rows.due == Add(n.hubs[h].rows.due, b, -Get(n.unsubtracted, f)) && v.rows.owed == n.hubs[h].rows.owed
    requires v.past == n.hubs[h].past
    requires f in n.unsubtracted && f.from == h && f.to == b && n'.unsubtracted == n.unsubtracted - {f}
    ensures AccountsAgree(n')
  {
    forall x, y | x in n'.hubs && y in n'.hubs && x != y ensures AccountAgrees(n', x, y) {
      assert AccountAgrees(n, x, y);
      BetweenMinus(n.unsubtracted, f, x, y);
    }
  }

  // ---- every event ----

  ghost predicate Kept(n: Net) {
    AccountsAgree(n) && StatementsTrue(n) && TotalAccount(n)
  }

  lemma SettlesKept(n: Net, h: Aid, t: Ticket, bind: string, via: Via, now: clock)
    requires Kept(n) && h in n.hubs
    ensures Kept(NextSettles(n, h, t, bind, via, now))
  {
    hide StatementsTrue, AccountsAgree, StepSettle, TotalAccount;
    var w, v := n.hubs[h], StepSettle(n.hubs[h], t, bind, via, now);
    var n' := NextSettles(n, h, t, bind, via, now);
    SettleEffect(w, t, bind, via, now);
    if v.rows != w.rows {
      OutMore(w.past.debits, Debit(t, GuardOf(t.auth.terms, bind), via, now, Max(w.past.latest, now)));
    }
    TotalMoves(n, n', h, v);
    StatementsWith(n, n', h, v);
    if v.rows == w.rows {
      SameAccounts(n, n', h, v);
    } else {
      DebitAccounts(n, n', h, v, Debit(t, GuardOf(t.auth.terms, bind), via, now, Max(w.past.latest, now)));
    }
  }

  lemma ClearsKept(n: Net, id: Terms, now: clock)
    requires Kept(n) && id in n.sent && n.sent[id].to in n.hubs
    ensures Kept(NextClears(n, id, now))
  {
    hide StatementsTrue, AccountsAgree, StepClear, TotalAccount;
    var s := n.sent[id];
    var w, v := n.hubs[s.to], StepClear(n.hubs[s.to], s.from, SentReceipt(n, id), now);
    var n' := NextClears(n, id, now);
    ClearEffect(w, s.from, SentReceipt(n, id), now);
    if v.rows != w.rows {
      InMore(w.past.credits, Credit(s.from, id, s.settleAt, now, Max(w.past.latest, now)));
    }
    TotalMoves(n, n', s.to, v);
    StatementsWith(n, n', s.to, v);
    if v.rows == w.rows {
      SameAccounts(n, n', s.to, v);
    } else {
      CreditAccounts(n, n', s.to, v, Credit(s.from, id, s.settleAt, now, Max(w.past.latest, now)));
    }
  }

  lemma AppliesKept(n: Net, st: nat)
    requires Kept(n) && st in n.signed && n.signed[st].to in n.hubs
    ensures Kept(NextApplies(n, st))
  {
    hide AccountsAgree, TotalAccount;
    var s := n.signed[st];
    var w, f := n.hubs[s.to], Flow(s.from, s.to, st);
    assert SignedTrue(n, st);
    var v := w.(rows := SettleOwed(w.rows, s.from, StatementOf(n, st)).1);
    var n' := NextApplies(n, st);
    if v != w {
      assert v.rows.owed == Add(w.rows.owed, s.from, -(s.amount as int));
      AppliedAccounts(n, n', s.from, s.to, v, f, s.amount);
      AppliedStatements(n, n', s.to, v, st);
      TotalMoves(n, n', s.to, v);
    }
  }

  lemma SubtractsKept(n: Net, st: nat)
    requires Kept(n) && Possible(n, Subtracts(st))
    ensures Kept(NextSubtracts(n, st))
  {
    hide AccountsAgree, TotalAccount;
    var s := n.signed[st];
    var w, f := n.hubs[s.from], Flow(s.from, s.to, st);
    assert SignedTrue(n, st);
    var n' := NextSubtracts(n, st);
    if DischargeDue(w.rows, s.to, s.amount).0 {
      var v := w.(rows := DischargeDue(w.rows, s.to, s.amount).1);
      FlowWasSigned(n, f);
      SubtractedAccounts(n, n', s.from, s.to, v, f);
      SubtractedStatements(n, n', s.from, v, st);
      TotalMoves(n, n', s.from, v);
    }
  }

  lemma OthersKept(n: Net, e: Event)
    requires Kept(n) && Possible(n, e) && (e.Quiet? || e.Grants? || e.Signs?)
    ensures Kept(Next(n, e))
  {
    hide StatementsTrue, AccountsAgree, TotalAccount;
    var n' := Next(n, e);
    if e.Quiet? {
      QuietSameMoney(n.hubs[e.at], e.op);
      SameAccounts(n, n', e.at, Step(n.hubs[e.at], e.op));
      StatementsWith(n, n', e.at, Step(n.hubs[e.at], e.op));
      TotalMoves(n, n', e.at, Step(n.hubs[e.at], e.op));
    } else if e.Grants? {
      SameAccounts(n, n', e.at, StepGrant(n.hubs[e.at], e.aid, e.amount));
      StatementsWith(n, n', e.at, StepGrant(n.hubs[e.at], e.aid, e.amount));
      TotalMoves(n, n', e.at, StepGrant(n.hubs[e.at], e.aid, e.amount));
    } else {
      SignsStatements(n, n', e.at, e.to, e.amount, e.st);
      assert n'.hubs == n.hubs[e.at := n.hubs[e.at]];
      SameAccounts(n, n', e.at, n.hubs[e.at]);
      TotalMoves(n, n', e.at, n.hubs[e.at]);
    }
  }

  lemma NextKept(n: Net, e: Event)
    requires Kept(n) && Possible(n, e)
    ensures Kept(Next(n, e))
  {
    hide Kept;
    match e
    case Settles(h, t, bind, via, now) => SettlesKept(n, h, t, bind, via, now);
    case Clears(id, now) => ClearsKept(n, id, now);
    case Applies(st) => AppliesKept(n, st);
    case Subtracts(st) => SubtractsKept(n, st);
    case _ => OthersKept(n, e);
  }

  lemma {:induction false} RunKept(n: Net, es: seq<Event>)
    requires Kept(n)
    ensures Kept(RunAny(n, es))
    decreases |es|
  {
    hide Kept, Next, Possible;
    if es != [] {
      if Possible(n, es[0]) {
        NextKept(n, es[0]);
      }
      RunKept(if Possible(n, es[0]) then Next(n, es[0]) else n, es[1..]);
    }
  }

  lemma FreshKept(n: Net)
    requires Fresh(n)
    ensures Kept(n)
  {
    forall a, b | a in n.hubs && b in n.hubs && a != b ensures AccountAgrees(n, a, b) {
      assert Between(n.unsubtracted, a, b) == map[];
    }
    ClearingPromises.ZeroSum(Owns(n.hubs));
  }

  // In every run, whatever the clocks read: the two hubs' records differ by what one
  // debited for the other, less what the other credited on its receipts, and by the
  // discharges on their way.
  lemma AccountsAlwaysAgree(start: Net, es: seq<Event>, a: Aid, b: Aid)
    requires Fresh(start)
    ensures var n := RunAny(start, es);
            a in n.hubs && b in n.hubs && a != b ==>
              Due(n, a, b) - Owed(n, b, a) ==
                DebitedFor(n.hubs[a].past.debits, b) - CreditedFrom(n.hubs[b].past.credits, a)
                + Sum(Between(n.unsubtracted, a, b))
  {
    hide StatementsTrue;
    FreshKept(start);
    RunKept(start, es);
    var n := RunAny(start, es);
    if a in n.hubs && b in n.hubs && a != b {
      assert AccountAgrees(n, a, b);
    }
  }

  // ---- what holds whatever the clocks read ----

  lemma NextKeepsHubs(n: Net, e: Event)
    requires HubsKeep(n) && Possible(n, e)
    ensures HubsKeep(Next(n, e))
  {
    hide Inv, HubsKeep, StepGrant, StepVerify, StepSettle, StepClear, SettleOwed;
    match e
    case Quiet(h, op) => StepKeepsHubs(n, Next(n, e), h, op);
    case Grants(h, aid, amount) => StepKeepsHubs(n, Next(n, e), h, Grant(aid, amount));
    case Settles(h, t, bind, via, now) => StepKeepsHubs(n, Next(n, e), h, Settle(t, bind, via, now));
    case Clears(id, now) =>
      var s := n.sent[id];
      StepKeepsHubs(n, Next(n, e), s.to, Clear(s.from, SentReceipt(n, id), now));
    case Signs(_, _, _, _) => SameHubsKeep(n, Next(n, e));
    case Applies(st) =>
      var s := n.signed[st];
      StepKeepsHubs(n, Next(n, e), s.to, Apply(s.from, StatementOf(n, st)));
    case Subtracts(st) =>
      var s := n.signed[st];
      StepKeepsHubs(n, Next(n, e), s.from, Discharge(s.to, s.amount));
  }

  lemma SameHubsKeep(n: Net, n': Net)
    requires HubsKeep(n) && n'.hubs == n.hubs
    ensures HubsKeep(n')
  {
    hide Inv;
    forall h | Hub(n', h) ensures Inv(n'.hubs[h]) && n'.hubs[h].rows.hub == h {
      assert Hub(n, h);
    }
  }

  lemma StepKeepsHubs(n: Net, n': Net, h: Aid, op: Op)
    requires HubsKeep(n) && h in n.hubs && Enabled(n.hubs[h], op)
    requires n'.hubs == n.hubs[h := Step(n.hubs[h], op)]
    ensures HubsKeep(n')
  {
    assert Hub(n, h);
    StepKeepsInv(n.hubs[h], op);
    StepKeepsHub(n.hubs[h], op);
    hide Inv, Step;
    forall x | Hub(n', x) ensures Inv(n'.hubs[x]) && n'.hubs[x].rows.hub == x {
      assert x != h ==> Hub(n, x);
    }
  }

  lemma StepKeepsHub(w: World, op: Op)
    requires Enabled(w, op)
    ensures Step(w, op).rows.hub == w.rows.hub
  {
    hide Check, SettleAuth, ClearFromPeer;
    if op.Verify? {
      CheckWritesRecordsOnly(w.rows, op.auth, op.now);
    } else if op.Settle? {
      SettleOnlyGrows(w, op.ticket, op.bind, op.via, op.now);
    } else if op.Clear? {
      ClearKeepsHub(w, op.peer, op.rec, op.now);
    }
  }

  lemma {:induction false} RunKeepsHubs(n: Net, es: seq<Event>)
    requires HubsKeep(n)
    ensures HubsKeep(RunAny(n, es))
    decreases |es|
  {
    hide HubsKeep, Next, Possible;
    if es != [] {
      if Possible(n, es[0]) {
        NextKeepsHubs(n, es[0]);
      }
      RunKeepsHubs(if Possible(n, es[0]) then Next(n, es[0]) else n, es[1..]);
    }
  }

  lemma FreshHubsKeep(n: Net)
    requires Fresh(n)
    ensures HubsKeep(n)
  {
    forall h | Hub(n, h) ensures Inv(n.hubs[h]) && n.hubs[h].rows.hub == h {
      StartInv(h, n.hubs[h].rows.clockSkew, n.hubs[h].rows.maxSkew, n.hubs[h].past.latest);
    }
  }

  lemma DischargesCover(n: Net, st: nat)
    requires StatementsTrue(n) && st in n.signed
    requires Flow(n.signed[st].from, n.signed[st].to, st) in n.unsubtracted
    ensures Sum(Between(n.unsubtracted, n.signed[st].from, n.signed[st].to)) >= n.signed[st].amount
  {
    var s := n.signed[st];
    var f, m := Flow(s.from, s.to, st), Between(n.unsubtracted, s.from, s.to);
    forall g | g in m ensures m[g] >= 0 {
      assert FlowSigned(n, g) && SignedTrue(n, g.what);
    }
    SumNonNegative(m);
    assert f in m && FlowSigned(n, f);
  }

  lemma CoveredExactly(n: Net, st: nat)
    requires AccountsAgree(n) && StatementsTrue(n) && HubsKeep(n) && Possible(n, Subtracts(st))
    ensures var s := n.signed[st];
            var beyond :=
              CreditedFrom(n.hubs[s.to].past.credits, s.from) - DebitedFor(n.hubs[s.from].past.debits, s.to);
            && (DischargeDue(n.hubs[s.from].rows, s.to, s.amount).0 <==>
                  beyond <= Owed(n, s.to, s.from) + Sum(Between(n.unsubtracted, s.from, s.to)) - s.amount)
            && (beyond <= 0 ==> DischargeDue(n.hubs[s.from].rows, s.to, s.amount).0)
  {
    var s := n.signed[st];
    assert SignedTrue(n, st) && Hub(n, s.to);
    DischargesCover(n, st);
    ClearingPromises.OwedNonNegative(n.hubs[s.to], s.from);
    assert AccountAgrees(n, s.from, s.to);
    hide Inv, StatementsTrue, HubsKeep, AccountsAgree, Between, Sum;
  }

  // In every run, whatever the clocks read, the write-off of an acknowledged discharge
  // succeeds exactly when what the creditor credited on the debtor's receipts beyond what
  // the debtor debited is no more than what it still records owed and the other discharges
  // on their way; so always while no more was credited than debited.
  lemma WriteOffCovered(start: Net, es: seq<Event>, st: nat)
    requires Fresh(start) && Possible(RunAny(start, es), Subtracts(st))
    ensures var n := RunAny(start, es); var s := n.signed[st];
            var beyond :=
              CreditedFrom(n.hubs[s.to].past.credits, s.from) - DebitedFor(n.hubs[s.from].past.debits, s.to);
            && (DischargeDue(n.hubs[s.from].rows, s.to, s.amount).0 <==>
                  beyond <= Owed(n, s.to, s.from) + Sum(Between(n.unsubtracted, s.from, s.to)) - s.amount)
            && (beyond <= 0 ==> DischargeDue(n.hubs[s.from].rows, s.to, s.amount).0)
  {
    FreshKept(start);
    RunKept(start, es);
    FreshHubsKeep(start);
    RunKeepsHubs(start, es);
    hide HubsKeep, AccountsAgree, StatementsTrue, TotalAccount, RunAny, Fresh, DischargeDue;
    CoveredExactly(RunAny(start, es), st);
  }

  // And no credit is made or lost but by moving one authorization twice: what all
  // accounts hold, and what was debited for peers, less what was credited on their
  // receipts, is what operators granted less what was redeemed.
  lemma TotalAlwaysAgrees(start: Net, es: seq<Event>)
    requires Fresh(start)
    ensures var n := RunAny(start, es); Sum(Owns(n.hubs)) == n.granted - n.redeemed
  {
    hide StatementsTrue, AccountsAgree;
    FreshKept(start);
    RunKept(start, es);
  }
}
