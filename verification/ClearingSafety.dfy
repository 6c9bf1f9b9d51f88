// In every run of Clearing, two hubs' records of each other agree up to what is on
// the way, and no credit is made or lost between hubs.
module ClearingSafety {
  import opened Basics
  import opened Sums
  import opened Amounts
  import opened Ledger
  import opened LedgerRuns
  import opened LedgerSafety
  import opened Clearing

  // ---- what a hub's own past says of a settlement or a credit ----

  predicate WasDebited(p: Past, id: Terms) {
    exists d :: d in p.debits && IdOf(d) == id
  }

  // Every settlement made for a peer is in flight or credited, never both.
  predicate SentTrue(n: Net, id: Terms)
    requires id in n.sent
  {
    var s := n.sent[id];
    && s.from == id.network && s.from in n.hubs && s.to in n.hubs && s.from != s.to
    && WasDebited(n.hubs[s.from].past, id)
    && if id in n.credited then
         Flow(s.from, s.to, id) !in n.inFlight && WasCredited(n.hubs[s.to].past, id, s.settleAt)
       else
         Flow(s.from, s.to, id) in n.inFlight && n.inFlight[Flow(s.from, s.to, id)] == id.amount
  }

  predicate FlowSent(n: Net, f: Flow<Terms>)
    requires f in n.inFlight
  {
    && n.inFlight[f] >= 0 && f.what in n.sent
    && n.sent[f.what].from == f.from && n.sent[f.what].to == f.to
  }

  ghost predicate FlowsTrue(n: Net) {
    && n.credited <= n.sent.Keys
    && (forall id {:trigger SentTrue(n, id)} :: id in n.sent ==> SentTrue(n, id))
    && (forall f {:trigger FlowSent(n, f)} :: f in n.inFlight ==> FlowSent(n, f))
  }

  predicate SignedTrue(n: Net, id: nat)
    requires id in n.signed
  {
    var s := n.signed[id];
    && s.amount > 0 && s.from in n.hubs && s.to in n.hubs && s.from != s.to
    && var applied := id in n.hubs[s.to].rows.statements;
    && (s.subtracted ==> applied)
    && (Flow(s.from, s.to, id) in n.unsubtracted <==> applied && !s.subtracted)
  }

  predicate StatementSigned(n: Net, h: Aid, id: nat)
    requires h in n.hubs
  {
    id in n.hubs[h].rows.statements ==> id in n.signed && n.signed[id].to == h
  }

  predicate FlowSigned(n: Net, f: Flow<nat>)
    requires f in n.unsubtracted
  {
    && f.what in n.signed && n.signed[f.what].from == f.from && n.signed[f.what].to == f.to
    && n.signed[f.what].amount == n.unsubtracted[f]
  }

  ghost predicate StatementsTrue(n: Net) {
    && (forall id {:trigger SignedTrue(n, id)} :: id in n.signed ==> SignedTrue(n, id))
    && (forall h, id {:trigger StatementSigned(n, h, id)} :: h in n.hubs ==> StatementSigned(n, h, id))
    && (forall f {:trigger FlowSigned(n, f)} :: f in n.unsubtracted ==> FlowSigned(n, f))
  }

  predicate Hub(n: Net, h: Aid) {
    h in n.hubs
  }

  ghost predicate HubsKeep(n: Net) {
    forall h {:trigger Hub(n, h)} :: Hub(n, h) ==> Inv(n.hubs[h]) && n.hubs[h].rows.hub == h
  }

  ghost predicate NetInv(n: Net) {
    HubsKeep(n) && FlowsTrue(n) && StatementsTrue(n) && PairsAgree(n) && TotalKept(n)
  }

  // ---- what one hub's step does that another hub can notice ----

  predicate SameMoney(w: World, v: World) {
    && v.rows.due == w.rows.due && v.rows.owed == w.rows.owed
    && v.rows.statements == w.rows.statements
    && v.past.debits == w.past.debits && v.past.credits == w.past.credits
  }

  lemma QuietSameMoney(w: World, op: Op)
    requires Enabled(w, op) && Silent(op)
    ensures SameMoney(w, Step(w, op)) && Outstanding(Step(w, op)) == Outstanding(w)
    ensures Step(w, op).rows.hub == w.rows.hub
  {
    if op.Verify? {
      CheckWritesRecordsOnly(w.rows, op.auth, op.now);
    }
  }

  // One more debit, the credit leaving for a peer or staying here.
  predicate OneDebit(w: World, v: World, d: Debit) {
    && v.rows.due == (if d.via.Some? then Add(w.rows.due, d.via.value, IdOf(d).amount) else w.rows.due)
    && v.rows.owed == w.rows.owed && v.rows.statements == w.rows.statements
    && v.rows.issued == w.rows.issued
    && (d.via.Some? ==> v.rows.redeemed == w.rows.redeemed + IdOf(d).amount)
    && v.past.debits == w.past.debits + [d] && v.past.credits == w.past.credits
    && d.latest == Max(w.past.latest, d.now)
  }

  lemma SettleEffect(w: World, t: Ticket, bind: string, via: Via, now: clock)
    ensures var v := StepSettle(w, t, bind, via, now);
            if v.rows == w.rows then SameMoney(w, v)
            else OneDebit(w, v, Debit(t, GuardOf(t.auth.terms, bind), via, now, Max(w.past.latest, now)))
  {
  }

  // One more credit against a peer's receipt.
  predicate OneCredit(w: World, v: World, c: Credit, amt: int) {
    && v.rows.due == w.rows.due && v.rows.owed == Add(w.rows.owed, c.peer, amt)
    && v.rows.statements == w.rows.statements
    && v.rows.issued == w.rows.issued + amt && v.rows.redeemed == w.rows.redeemed
    && v.past.debits == w.past.debits && v.past.credits == w.past.credits + [c]
    && c.latest == Max(w.past.latest, c.now)
  }

  lemma ClearEffect(w: World, peer: Aid, rec: Receipt, now: clock)
    ensures var v := StepClear(w, peer, rec, now);
            if v.rows == w.rows then SameMoney(w, v)
            else OneCredit(w, v, Credit(peer, rec.authId, rec.settleAt, now, Max(w.past.latest, now)), rec.amount)
  {
  }

  // ---- the four parts, one changed hub at a time ----

  lemma HubsKeepWith(n: Net, n': Net, h: Aid, v: World)
    requires HubsKeep(n) && n'.hubs == n.hubs[h := v] && Inv(v) && v.rows.hub == h
    ensures HubsKeep(n')
  {
    forall g | Hub(n', g) ensures Inv(n'.hubs[g]) && n'.hubs[g].rows.hub == g {
      assert g == h || Hub(n, g);
    }
  }

  lemma TotalWith(n: Net, n': Net, h: Aid, v: World)
    requires TotalKept(n) && h in n.hubs && n'.hubs == n.hubs[h := v]
    requires Outstanding(v) - Outstanding(n.hubs[h]) + Sum(n'.inFlight) - Sum(n.inFlight)
             == n'.granted - n.granted - (n'.redeemed - n.redeemed)
    ensures TotalKept(n')
  {
    SumUpdate(Outstandings(n.hubs), h, Outstanding(v));
    assert Outstandings(n'.hubs) == Outstandings(n.hubs)[h := Outstanding(v)];
  }

  lemma PairsWith(n: Net, n': Net, h: Aid, v: World)
    requires PairsAgree(n) && h in n.hubs && n'.hubs == n.hubs[h := v]
    requires v.rows.due == n.hubs[h].rows.due && v.rows.owed == n.hubs[h].rows.owed
    requires n'.inFlight == n.inFlight && n'.unsubtracted == n.unsubtracted
    ensures PairsAgree(n')
  {
    forall a, b | a in n'.hubs && b in n'.hubs && a != b
      ensures PairAgrees(n', a, b)
    {
      assert PairAgrees(n, a, b);
    }
  }

  lemma PastGrows(w: World, v: World, id: Terms, settleAt: int)
    requires forall d :: d in w.past.debits ==> d in v.past.debits
    requires forall c :: c in w.past.credits ==> c in v.past.credits
    ensures WasDebited(w.past, id) ==> WasDebited(v.past, id)
    ensures WasCredited(w.past, id, settleAt) ==> WasCredited(v.past, id, settleAt)
  {
  }

  lemma FlowsWith(n: Net, n': Net, h: Aid, v: World)
    requires FlowsTrue(n) && h in n.hubs && n'.hubs == n.hubs[h := v]
    requires n'.sent == n.sent && n'.credited == n.credited && n'.inFlight == n.inFlight
    requires forall d :: d in n.hubs[h].past.debits ==> d in v.past.debits
    requires forall c :: c in n.hubs[h].past.credits ==> c in v.past.credits
    ensures FlowsTrue(n')
  {
    forall id | id in n'.sent ensures SentTrue(n', id) {
      assert SentTrue(n, id);
      PastGrows(n.hubs[h], v, id, n.sent[id].settleAt);
    }
    forall f | f in n'.inFlight ensures FlowSent(n', f) {
      assert FlowSent(n, f);
    }
  }

  lemma StatementsWith(n: Net, n': Net, h: Aid, v: World)
    requires StatementsTrue(n) && h in n.hubs && n'.hubs == n.hubs[h := v]
    requires v.rows.statements == n.hubs[h].rows.statements
    requires n'.signed == n.signed && n'.unsubtracted == n.unsubtracted
    ensures StatementsTrue(n')
  {
    forall id | id in n'.signed ensures SignedTrue(n', id) {
      assert SignedTrue(n, id);
    }
    forall g, id | g in n'.hubs ensures StatementSigned(n', g, id) {
      assert StatementSigned(n, g, id);
    }
    forall f | f in n'.unsubtracted ensures FlowSigned(n', f) {
      assert f in n.unsubtracted ==> FlowSigned(n, f);
    }
  }

  // A step of h no other hub notices.
  lemma SameMoneyKeeps(n: Net, n': Net, h: Aid, v: World)
    requires NetInv(n) && h in n.hubs && n' == With(n, h, v).(granted := n'.granted, redeemed := n'.redeemed)
    requires SameMoney(n.hubs[h], v) && Inv(v) && v.rows.hub == h
    requires Outstanding(v) - Outstanding(n.hubs[h]) == n'.granted - n.granted - (n'.redeemed - n.redeemed)
    ensures NetInv(n')
  {
    HubsKeepWith(n, n', h, v);
    TotalWith(n, n', h, v);
    PairsWith(n, n', h, v);
    FlowsWith(n, n', h, v);
    StatementsWith(n, n', h, v);
  }

  // ---- settlements ----

  // A debit that is not its authorization's first comes late.
  lemma RepeatIsLate(w: World, v: World, d: Debit)
    requires DebitsOnce(v) && v.past.debits == w.past.debits + [d] && WasDebited(w.past, IdOf(d))
    ensures LateRepeat(d, v.rows.clockSkew)
  {
    var e :| e in w.past.debits && IdOf(e) == IdOf(d);
    var i :| 0 <= i < |w.past.debits| && w.past.debits[i] == e;
    assert v.past.debits[i] == e && v.past.debits[|w.past.debits|] == d;
  }

  lemma SentWasDebited(n: Net, id: Terms)
    requires FlowsTrue(n) && id in n.sent
    ensures id.network in n.hubs && WasDebited(n.hubs[id.network].past, id)
  {
    assert SentTrue(n, id);
  }

  lemma FlowWasSent(n: Net, f: Flow<Terms>)
    requires FlowsTrue(n) && f in n.inFlight
    ensures f.what in n.sent
  {
    assert FlowSent(n, f);
  }

  lemma ForwardedPairs(n: Net, n': Net, h: Aid, b: Aid, v: World, f: Flow<Terms>, amt: int)
    requires PairsAgree(n) && h in n.hubs && n'.hubs == n.hubs[h := v] && h != b
    requires v.rows.due == Add(n.hubs[h].rows.due, b, amt) && v.rows.owed == n.hubs[h].rows.owed
    requires f !in n.inFlight && f.from == h && f.to == b && n'.inFlight == n.inFlight[f := amt]
    requires n'.unsubtracted == n.unsubtracted
    ensures PairsAgree(n')
  {
    forall x, y | x in n'.hubs && y in n'.hubs && x != y
      ensures PairAgrees(n', x, y)
    {
      assert PairAgrees(n, x, y);
      BetweenAdd(n.inFlight, f, amt, x, y);
    }
  }

  lemma ForwardedFlows(n: Net, n': Net, h: Aid, b: Aid, v: World, id: Terms, now: clock)
    requires FlowsTrue(n) && h in n.hubs && b in n.hubs && h != b && n'.hubs == n.hubs[h := v]
    requires id !in n.sent && id.network == h && WasDebited(v.past, id)
    requires forall d :: d in n.hubs[h].past.debits ==> d in v.past.debits
    requires v.past.credits == n.hubs[h].past.credits
    requires n'.sent == n.sent[id := Sent(h, b, now)] && n'.credited == n.credited
    requires n'.inFlight == n.inFlight[Flow(h, b, id) := id.amount]
    ensures FlowsTrue(n')
  {
    forall x | x in n'.sent ensures SentTrue(n', x) {
      if x != id {
        assert SentTrue(n, x);
        PastGrows(n.hubs[h], v, x, n.sent[x].settleAt);
      }
    }
    forall f | f in n'.inFlight ensures FlowSent(n', f) {
      assert f in n.inFlight ==> FlowSent(n, f);
    }
  }

  lemma SettlesForPeer(n: Net, n': Net, h: Aid, b: Aid, v: World, d: Debit)
    requires NetInv(n) && h in n.hubs && b in n.hubs && h != b && Inv(v) && v.rows.hub == h
    requires OneDebit(n.hubs[h], v, d) && d.via == Some(b) && IdOf(d).network == h
    requires !WasDebited(n.hubs[h].past, IdOf(d))
    requires n' == With(n, h, v).(sent := n.sent[IdOf(d) := Sent(h, b, d.now)],
                                  inFlight := n.inFlight[Flow(h, b, IdOf(d)) := IdOf(d).amount])
    ensures NetInv(n')
  {
    var id := IdOf(d);
    if id in n.sent {
      SentWasDebited(n, id);
    }
    assert d in v.past.debits;
    if Flow(h, b, id) in n.inFlight {
      FlowWasSent(n, Flow(h, b, id));
    }
    SumUpdate(n.inFlight, Flow(h, b, id), id.amount);
    HubsKeepWith(n, n', h, v);
    TotalWith(n, n', h, v);
    ForwardedPairs(n, n', h, b, v, Flow(h, b, id), id.amount);
    ForwardedFlows(n, n', h, b, v, id, d.now);
    StatementsWith(n, n', h, v);
  }

  lemma SettlesHere(n: Net, n': Net, h: Aid, v: World, d: Debit)
    requires NetInv(n) && h in n.hubs && Inv(v) && v.rows.hub == h
    requires OneDebit(n.hubs[h], v, d) && d.via.None?
    requires n' == With(n, h, v).(redeemed := n.redeemed + v.rows.redeemed - n.hubs[h].rows.redeemed)
    ensures NetInv(n')
  {
    HubsKeepWith(n, n', h, v);
    TotalWith(n, n', h, v);
    PairsWith(n, n', h, v);
    FlowsWith(n, n', h, v);
    StatementsWith(n, n', h, v);
  }

  // What a settlement at a hub with a steady clock is to the other hubs.
  lemma SteadySettlement(n: Net, h: Aid, t: Ticket, bind: string, via: Via, now: clock)
    requires HubsKeep(n) && Can(n, Settles(h, t, bind, via, now))
    ensures var w := n.hubs[h]; var v := StepSettle(w, t, bind, via, now);
            var d := Debit(t, GuardOf(t.auth.terms, bind), via, now, Max(w.past.latest, now));
            && Inv(v) && v.rows.hub == w.rows.hub == h
            && if v.rows == w.rows then SameMoney(w, v)
               else OneDebit(w, v, d) && !WasDebited(w.past, IdOf(d)) && IdOf(d).network == h
  {
    var w := n.hubs[h];
    var v := StepSettle(w, t, bind, via, now);
    assert Hub(n, h);
    StepKeepsInv(w, Settle(t, bind, via, now));
    SettleEffect(w, t, bind, via, now);
    SettleOnlyGrows(w, t, bind, via, now);
    if v.rows != w.rows {
      var d := Debit(t, GuardOf(t.auth.terms, bind), via, now, Max(w.past.latest, now));
      assert TicketSound(w.rows, w.past, t);
      if WasDebited(w.past, IdOf(d)) {
        RepeatIsLate(w, v, d);
      }
    }
  }

  lemma NextSettlesKeeps(n: Net, h: Aid, t: Ticket, bind: string, via: Via, now: clock)
    requires NetInv(n) && Can(n, Settles(h, t, bind, via, now))
    ensures NetInv(NextSettles(n, h, t, bind, via, now))
  {
    hide Inv, SettleAuth;
    var w := n.hubs[h];
    var v := StepSettle(w, t, bind, via, now);
    var d := Debit(t, GuardOf(t.auth.terms, bind), via, now, Max(w.past.latest, now));
    var n' := NextSettles(n, h, t, bind, via, now);
    SteadySettlement(n, h, t, bind, via, now);
    if v.rows == w.rows {
      SameMoneyKeeps(n, n', h, v);
    } else if via.Some? {
      SettlesForPeer(n, n', h, via.value, v, d);
    } else {
      SettlesHere(n, n', h, v, d);
    }
  }

  // ---- credits ----

  // A receipt credited a second time is credited late.
  lemma RepeatedCreditIsLate(w: World, v: World, c: Credit)
    requires CreditsOnce(v) && v.past.credits == w.past.credits + [c] && WasCredited(w.past, c.id, c.settleAt)
    ensures c.latest - c.now >= DAY
  {
    var e :| e in w.past.credits && e.id == c.id && e.settleAt == c.settleAt;
    var i :| 0 <= i < |w.past.credits| && w.past.credits[i] == e;
    var j := |w.past.credits|;
    assert v.past.credits[i] == e && v.past.credits[j] == c && c in v.past.credits;
  }

  lemma CreditedPairs(n: Net, n': Net, a: Aid, h: Aid, v: World, f: Flow<Terms>)
    requires PairsAgree(n) && h in n.hubs && n'.hubs == n.hubs[h := v] && h != a
    requires f in n.inFlight && f.from == a && f.to == h && n'.inFlight == n.inFlight - {f}
    requires v.rows.due == n.hubs[h].rows.due && v.rows.owed == Add(n.hubs[h].rows.owed, a, n.inFlight[f])
    requires n'.unsubtracted == n.unsubtracted
    ensures PairsAgree(n')
  {
    forall x, y | x in n'.hubs && y in n'.hubs && x != y
      ensures PairAgrees(n', x, y)
    {
      assert PairAgrees(n, x, y);
      BetweenMinus(n.inFlight, f, x, y);
    }
  }

  lemma CreditedFlows(n: Net, n': Net, h: Aid, v: World, id: Terms)
    requires FlowsTrue(n) && h in n.hubs && n'.hubs == n.hubs[h := v]
    requires id in n.sent && n.sent[id].to == h && WasCredited(v.past, id, n.sent[id].settleAt)
    requires v.past.debits == n.hubs[h].past.debits
    requires forall c :: c in n.hubs[h].past.credits ==> c in v.past.credits
    requires n'.sent == n.sent && n'.credited == n.credited + {id}
    requires n'.inFlight == n.inFlight - {Flow(n.sent[id].from, h, id)}
    ensures FlowsTrue(n')
  {
    forall x | x in n'.sent ensures SentTrue(n', x) {
      assert SentTrue(n, x);
      PastGrows(n.hubs[h], v, x, n.sent[x].settleAt);
    }
    forall f | f in n'.inFlight ensures FlowSent(n', f) {
      assert FlowSent(n, f);
    }
  }

  lemma ClearKeepsHub(w: World, peer: Aid, rec: Receipt, now: clock)
    ensures StepClear(w, peer, rec, now).rows.hub == w.rows.hub
  {
  }

  lemma CreditsOnceKept(w: World)
    requires Inv(w)
    ensures CreditsOnce(w)
  {
  }

  lemma SteadyClearing(n: Net, id: Terms, now: clock)
    requires HubsKeep(n) && Can(n, Clears(id, now))
    ensures var s := n.sent[id]; var w := n.hubs[s.to]; var v := StepClear(w, s.from, SentReceipt(n, id), now);
            var c := Credit(s.from, id, s.settleAt, now, Max(w.past.latest, now));
            && Inv(v) && v.rows.hub == s.to
            && if v.rows == w.rows then SameMoney(w, v)
               else OneCredit(w, v, c, id.amount) && !WasCredited(w.past, id, s.settleAt)
  {
    var s := n.sent[id];
    var w := n.hubs[s.to];
    var v := StepClear(w, s.from, SentReceipt(n, id), now);
    assert Hub(n, s.to);
    StepKeepsInv(w, Clear(s.from, SentReceipt(n, id), now));
    ClearKeepsHub(w, s.from, SentReceipt(n, id), now);
    ClearEffect(w, s.from, SentReceipt(n, id), now);
    CreditsOnceKept(v);
    hide Inv, StepClear, CreditsOnce;
    if v.rows != w.rows && WasCredited(w.past, id, s.settleAt) {
      RepeatedCreditIsLate(w, v, Credit(s.from, id, s.settleAt, now, Max(w.past.latest, now)));
    }
  }

  lemma CreditKeeps(n: Net, n': Net, id: Terms, v: World, c: Credit)
    requires NetInv(n) && id in n.sent && n.sent[id].to in n.hubs && Inv(v) && v.rows.hub == n.sent[id].to
    requires OneCredit(n.hubs[n.sent[id].to], v, c, id.amount)
    requires c.peer == n.sent[id].from && c.id == id && c.settleAt == n.sent[id].settleAt
    requires !WasCredited(n.hubs[n.sent[id].to].past, id, n.sent[id].settleAt)
    requires n' == With(n, n.sent[id].to, v).(credited := n.credited + {id},
                     inFlight := n.inFlight - {Flow(n.sent[id].from, n.sent[id].to, id)})
    ensures NetInv(n')
  {
    var s := n.sent[id];
    var f := Flow(s.from, s.to, id);
    assert SentTrue(n, id);
    assert c in v.past.credits;
    SumRemove(n.inFlight, f);
    HubsKeepWith(n, n', s.to, v);
    TotalWith(n, n', s.to, v);
    CreditedPairs(n, n', s.from, s.to, v, f);
    CreditedFlows(n, n', s.to, v, id);
    StatementsWith(n, n', s.to, v);
  }

  lemma NextClearsKeeps(n: Net, id: Terms, now: clock)
    requires NetInv(n) && Can(n, Clears(id, now))
    ensures NetInv(NextClears(n, id, now))
  {
    hide Inv;
    var s := n.sent[id];
    var w := n.hubs[s.to];
    var v := StepClear(w, s.from, SentReceipt(n, id), now);
    var n' := NextClears(n, id, now);
    SteadyClearing(n, id, now);
    if v.rows == w.rows {
      SameMoneyKeeps(n, n', s.to, v);
    } else {
      CreditKeeps(n, n', id, v, Credit(s.from, id, s.settleAt, now, Max(w.past.latest, now)));
    }
  }

  // ---- discharges ----

  lemma AppliedPairs(n: Net, n': Net, a: Aid, h: Aid, v: World, f: Flow<nat>, amt: int)
    requires PairsAgree(n) && h in n.hubs && n'.hubs == n.hubs[h := v] && h != a
    requires v.rows.due == n.hubs[h].rows.due && v.rows.owed == Add(n.hubs[h].rows.owed, a, -amt)
    requires f !in n.unsubtracted && f.from == a && f.to == h && n'.unsubtracted == n.unsubtracted[f := amt]
    requires n'.inFlight == n.inFlight
    ensures PairsAgree(n')
  {
    forall x, y | x in n'.hubs && y in n'.hubs && x != y
      ensures PairAgrees(n', x, y)
    {
      assert PairAgrees(n, x, y);
      BetweenAdd(n.unsubtracted, f, amt, x, y);
    }
  }

  lemma AppliedStatements(n: Net, n': Net, h: Aid, v: World, st: nat)
    requires StatementsTrue(n) && h in n.hubs && n'.hubs == n.hubs[h := v]
    requires st in n.signed && n.signed[st].to == h && st !in n.hubs[h].rows.statements
    requires v.rows.statements == n.hubs[h].rows.statements + {st}
    requires n'.signed == n.signed
    requires n'.unsubtracted == n.unsubtracted[Flow(n.signed[st].from, h, st) := n.signed[st].amount]
    ensures StatementsTrue(n')
  {
    forall id | id in n'.signed ensures SignedTrue(n', id) {
      assert SignedTrue(n, id);
    }
    forall g, id | g in n'.hubs ensures StatementSigned(n', g, id) {
      assert StatementSigned(n, g, id);
    }
    forall f | f in n'.unsubtracted ensures FlowSigned(n', f) {
      assert f in n.unsubtracted ==> FlowSigned(n, f);
    }
  }

  lemma NextAppliesKeeps(n: Net, st: nat)
    requires NetInv(n) && Can(n, Applies(st))
    ensures NetInv(NextApplies(n, st))
  {
    hide Inv;
    var s := n.signed[st];
    var w, f := n.hubs[s.to], Flow(s.from, s.to, st);
    assert SignedTrue(n, st) && Hub(n, s.to);
    var v := Step(w, Apply(s.from, StatementOf(n, st)));
    StepKeepsInv(w, Apply(s.from, StatementOf(n, st)));
    var n' := NextApplies(n, st);
    if v != w {
      assert v.rows.owed == Add(w.rows.owed, s.from, -(s.amount as int));
      HubsKeepWith(n, n', s.to, v);
      TotalWith(n, n', s.to, v);
      AppliedPairs(n, n', s.from, s.to, v, f, s.amount);
      FlowsWith(n, n', s.to, v);
      AppliedStatements(n, n', s.to, v, st);
    }
  }

  lemma SubtractedPairs(n: Net, n': Net, h: Aid, b: Aid, v: World, f: Flow<nat>)
    requires PairsAgree(n) && h in n.hubs && n'.hubs == n.hubs[h := v] && h != b
    requires f in n.unsubtracted && f.from == h && f.to == b && n'.unsubtracted == n.unsubtracted - {f}
    requires v.rows.due == Add(n.hubs[h].rows.due, b, -n.unsubtracted[f]) && v.rows.owed == n.hubs[h].rows.owed
    requires n'.inFlight == n.inFlight
    ensures PairsAgree(n')
  {
    forall x, y | x in n'.hubs && y in n'.hubs && x != y
      ensures PairAgrees(n', x, y)
    {
      assert PairAgrees(n, x, y);
      BetweenMinus(n.unsubtracted, f, x, y);
    }
  }

  lemma SubtractedStatements(n: Net, n': Net, h: Aid, v: World, st: nat)
    requires StatementsTrue(n) && h in n.hubs && n'.hubs == n.hubs[h := v]
    requires st in n.signed && n.signed[st].to in n.hubs && st in n.hubs[n.signed[st].to].rows.statements
    requires v.rows.statements == n.hubs[h].rows.statements
    requires n'.signed == n.signed[st := n.signed[st].(subtracted := true)]
    requires n'.unsubtracted == n.unsubtracted - {Flow(n.signed[st].from, n.signed[st].to, st)}
    ensures StatementsTrue(n')
  {
    forall id | id in n'.signed ensures SignedTrue(n', id) {
      assert SignedTrue(n, id);
    }
    forall g, id | g in n'.hubs ensures StatementSigned(n', g, id) {
      assert StatementSigned(n, g, id);
    }
    forall f | f in n'.unsubtracted ensures FlowSigned(n', f) {
      assert f in n.unsubtracted ==> FlowSigned(n, f);
    }
  }

  lemma NextSubtractsKeeps(n: Net, st: nat)
    requires NetInv(n) && Can(n, Subtracts(st))
    ensures NetInv(NextSubtracts(n, st))
  {
    hide Inv;
    var s := n.signed[st];
    var w, f := n.hubs[s.from], Flow(s.from, s.to, st);
    assert SignedTrue(n, st) && Hub(n, s.from);
    var v := Step(w, Discharge(s.to, s.amount));
    StepKeepsInv(w, Discharge(s.to, s.amount));
    var n' := NextSubtracts(n, st);
    if DischargeDue(w.rows, s.to, s.amount).0 {
      HubsKeepWith(n, n', s.from, v);
      TotalWith(n, n', s.from, v);
      FlowWasSigned(n, f);
      SubtractedPairs(n, n', s.from, s.to, v, f);
      FlowsWith(n, n', s.from, v);
      SubtractedStatements(n, n', s.from, v, st);
    }
  }

  lemma FlowWasSigned(n: Net, f: Flow<nat>)
    requires StatementsTrue(n) && f in n.unsubtracted
    ensures f.what in n.signed && n.signed[f.what].amount == n.unsubtracted[f]
  {
    assert FlowSigned(n, f);
  }

  lemma SignsStatements(n: Net, n': Net, h: Aid, to: Aid, amount: int64, st: nat)
    requires StatementsTrue(n) && Possible(n, Signs(h, to, amount, st))
    requires n' == n.(signed := n.signed[st := Signed(h, to, amount, false)])
    ensures StatementsTrue(n')
  {
    assert StatementSigned(n, to, st);
    if Flow(h, to, st) in n.unsubtracted {
      FlowWasSigned(n, Flow(h, to, st));
    }
    forall id | id in n'.signed ensures SignedTrue(n', id) {
      assert id == st || SignedTrue(n, id);
    }
    forall g, id | g in n'.hubs ensures StatementSigned(n', g, id) {
      assert StatementSigned(n, g, id);
    }
    forall f | f in n'.unsubtracted ensures FlowSigned(n', f) {
      assert f in n.unsubtracted ==> FlowSigned(n, f);
    }
  }

  lemma NextSignsKeeps(n: Net, h: Aid, to: Aid, amount: int64, st: nat)
    requires NetInv(n) && Can(n, Signs(h, to, amount, st))
    ensures NetInv(Next(n, Signs(h, to, amount, st)))
  {
    var n' := Next(n, Signs(h, to, amount, st));
    SignsStatements(n, n', h, to, amount, st);
    HubsKeepWith(n, n', h, n.hubs[h]) by {
      assert Hub(n, h) && n'.hubs == n.hubs[h := n.hubs[h]];
    }
    FlowsWith(n, n', h, n.hubs[h]);
    PairsWith(n, n', h, n.hubs[h]);
  }

  // ---- every run ----

  lemma QuietKeeps(n: Net, h: Aid, op: Op)
    requires NetInv(n) && Can(n, Quiet(h, op))
    ensures NetInv(With(n, h, Step(n.hubs[h], op)))
  {
    hide Inv, Step, SameMoney, FlowsTrue, StatementsTrue, PairsAgree, TotalKept;
    assert Hub(n, h);
    QuietSameMoney(n.hubs[h], op);
    StepKeepsInv(n.hubs[h], op);
    SameMoneyKeeps(n, With(n, h, Step(n.hubs[h], op)), h, Step(n.hubs[h], op));
  }

  lemma GrantsKeeps(n: Net, h: Aid, aid: Aid, amount: int64)
    requires NetInv(n) && Can(n, Grants(h, aid, amount))
    ensures NetInv(Next(n, Grants(h, aid, amount)))
  {
    hide Inv;
    assert Hub(n, h);
    StepKeepsInv(n.hubs[h], Grant(aid, amount));
    SameMoneyKeeps(n, Next(n, Grants(h, aid, amount)), h, StepGrant(n.hubs[h], aid, amount));
  }

  lemma NextKeepsInv(n: Net, e: Event)
    requires NetInv(n) && Can(n, e)
    ensures NetInv(Next(n, e))
  {
    match e
    case Quiet(h, op) => QuietKeeps(n, h, op);
    case Grants(h, aid, amount) => GrantsKeeps(n, h, aid, amount);
    case Settles(h, t, bind, via, now) => NextSettlesKeeps(n, h, t, bind, via, now);
    case Clears(id, now) => NextClearsKeeps(n, id, now);
    case Signs(h, to, amount, st) => NextSignsKeeps(n, h, to, amount, st);
    case Applies(st) => NextAppliesKeeps(n, st);
    case Subtracts(st) => NextSubtractsKeeps(n, st);
  }

  lemma {:induction false} RunNetKeepsInv(n: Net, es: seq<Event>)
    requires NetInv(n)
    ensures NetInv(RunNet(n, es))
    decreases |es|
  {
    if es != [] {
      if Can(n, es[0]) {
        NextKeepsInv(n, es[0]);
      }
      RunNetKeepsInv(if Can(n, es[0]) then Next(n, es[0]) else n, es[1..]);
    }
  }
}
