// What hubs that clear against each other can count on, in every run.
module ClearingPromises {
  import opened Basics
  import opened Sums
  import opened Amounts
  import opened Ledger
  import opened LedgerRuns
  import opened LedgerPromises
  import opened Clearing
  import opened ClearingSafety

  ghost predicate Reached(n: Net) {
    exists start: Net, es :: Fresh(start) && n == RunNet(start, es)
  }

  lemma {:induction false} ZeroSum<K>(m: map<K, int>)
    requires forall k :: k in m ==> m[k] == 0
    ensures Sum(m) == 0
    decreases |m|
  {
    if m != map[] {
      var k :| k in m;
      SumRemove(m, k);
      ZeroSum(m - {k});
    }
  }

  lemma FreshHubs(n: Net)
    requires Fresh(n)
    ensures HubsKeep(n)
    ensures forall h :: h in n.hubs ==> EmptyLedger(n.hubs[h].rows)
  {
  }

  predicate EmptyLedger(l: Rows) {
    l.due == map[] && l.owed == map[] && l.statements == {} && l.issued == 0 && l.redeemed == 0
  }

  lemma FreshInv(n: Net)
    requires Fresh(n)
    ensures NetInv(n)
  {
    hide Inv, Start;
    FreshHubs(n);
    ZeroSum(Outstandings(n.hubs));
    forall a, b | a in n.hubs && b in n.hubs && a != b ensures PairAgrees(n, a, b) {
      assert Between(n.inFlight, a, b) == map[] && Between(n.unsubtracted, a, b) == map[];
    }
  }

  lemma ReachedInv(n: Net)
    requires Reached(n)
    ensures NetInv(n)
  {
    var start: Net, es :| Fresh(start) && n == RunNet(start, es);
    FreshInv(start);
    RunNetKeepsInv(start, es);
  }

  // ---- what is on the way ----

  // A settlement is on the way from a to b exactly while a debited its payer for b
  // and b has not credited its payee.
  lemma InFlightExactly(n: Net, a: Aid, b: Aid, id: Terms)
    requires Reached(n)
    ensures Flow(a, b, id) in n.inFlight <==>
              id in n.sent && n.sent[id].from == a && n.sent[id].to == b && id !in n.credited
    ensures Flow(a, b, id) in n.inFlight ==> n.inFlight[Flow(a, b, id)] == id.amount
    ensures id in n.sent ==> n.sent[id].from in n.hubs && WasDebited(n.hubs[n.sent[id].from].past, id)
    ensures id in n.credited ==>
              && id in n.sent && n.sent[id].to in n.hubs
              && WasCredited(n.hubs[n.sent[id].to].past, id, n.sent[id].settleAt)
  {
    hide Inv;
    ReachedInv(n);
    if id in n.sent {
      assert SentTrue(n, id);
    }
    if Flow(a, b, id) in n.inFlight {
      assert FlowSent(n, Flow(a, b, id));
    }
  }

  // A discharge of a's debt to b is on the way exactly while b applied it and a has
  // not written it off.
  lemma UnsubtractedExactly(n: Net, a: Aid, b: Aid, st: nat)
    requires Reached(n)
    ensures Flow(a, b, st) in n.unsubtracted <==>
              && st in n.signed && n.signed[st].from == a && n.signed[st].to == b
              && b in n.hubs && st in n.hubs[b].rows.statements && !n.signed[st].subtracted
    ensures Flow(a, b, st) in n.unsubtracted ==> n.unsubtracted[Flow(a, b, st)] == n.signed[st].amount > 0
  {
    hide Inv;
    ReachedInv(n);
    if st in n.signed {
      assert SignedTrue(n, st);
    }
    if Flow(a, b, st) in n.unsubtracted {
      assert FlowSigned(n, Flow(a, b, st));
    }
  }

  lemma OnTheWayNonNegative(n: Net, a: Aid, b: Aid)
    requires FlowsTrue(n) && StatementsTrue(n)
    ensures OnTheWay(n, a, b) >= 0
    ensures forall f :: f in n.unsubtracted && f.from == a && f.to == b ==> OnTheWay(n, a, b) >= n.unsubtracted[f]
  {
    forall f | f in Between(n.inFlight, a, b) ensures n.inFlight[f] >= 0 {
      assert FlowSent(n, f);
    }
    forall f | f in Between(n.unsubtracted, a, b) ensures n.unsubtracted[f] >= 0 {
      assert FlowSigned(n, f) && SignedTrue(n, f.what);
    }
    SumNonNegative(Between(n.inFlight, a, b));
    SumNonNegative(Between(n.unsubtracted, a, b));
    forall f | f in n.unsubtracted && f.from == a && f.to == b ensures OnTheWay(n, a, b) >= n.unsubtracted[f] {
      assert f in Between(n.unsubtracted, a, b);
    }
  }

  // ---- the promises ----

  // What a hub records that it owes another, less what the other records, is what
  // is on the way between them; so the creditor never claims more than is owed, and
  // with nothing on the way the two records agree.
  lemma PairConserved(n: Net, a: Aid, b: Aid)
    requires Reached(n) && a in n.hubs && b in n.hubs && a != b
    ensures Due(n, a, b) - Owed(n, b, a) == OnTheWay(n, a, b) >= 0
    ensures Owed(n, b, a) >= 0
  {
    hide Inv;
    ReachedInv(n);
    assert PairAgrees(n, a, b);
    OnTheWayNonNegative(n, a, b);
    assert Hub(n, b);
    OwedNonNegative(n.hubs[b], a);
  }

  lemma OwedNonNegative(w: World, a: Aid)
    requires Inv(w)
    ensures Get(w.rows.owed, a) >= 0
  {
  }

  // No credit is made or lost between the hubs: what their accounts hold and what
  // is on the way to a payee together are what operators granted less what was
  // redeemed.
  lemma TotalConserved(n: Net)
    requires Reached(n)
    ensures Sum(Outstandings(n.hubs)) + Sum(n.inFlight) == n.granted - n.redeemed
  {
    ReachedInv(n);
  }

  // A discharge the creditor acknowledged is never more than the debtor still
  // records: the write-off that follows the acknowledgement never fails, whatever
  // else was settled, signed or written off in between.
  lemma AcknowledgedDischargeIsCovered(n: Net, st: nat)
    requires Reached(n) && Can(n, Subtracts(st))
    ensures var s := n.signed[st];
            && s.amount <= Due(n, s.from, s.to)
            && DischargeDue(n.hubs[s.from].rows, s.to, s.amount).0
  {
    hide Inv;
    var s := n.signed[st];
    ReachedInv(n);
    assert SignedTrue(n, st);
    UnsubtractedExactly(n, s.from, s.to, st);
    OnTheWayNonNegative(n, s.from, s.to);
    PairConserved(n, s.from, s.to);
  }

  // A statement or a receipt delivered again changes nothing.
  lemma AgainChangesNothing(n: Net, st: nat, id: Terms, now: clock)
    requires Reached(n)
    ensures Can(n, Applies(st)) && st in n.hubs[n.signed[st].to].rows.statements ==> Next(n, Applies(st)) == n
    ensures Can(n, Clears(id, now)) && id in n.credited ==>
              && Next(n, Clears(id, now)).inFlight == n.inFlight
              && forall h :: h in n.hubs ==> Next(n, Clears(id, now)).hubs[h].rows == n.hubs[h].rows
  {
    hide Inv;
    if Can(n, Clears(id, now)) && id in n.credited {
      InFlightExactly(n, n.sent[id].from, n.sent[id].to, id);
      ReachedInv(n);
      SteadyClearing(n, id, now);
    }
  }

  // ---- what a clock that steps back can do ----

  // Whatever the clocks read, presenting a receipt leaves the two records in agreement
  // exactly when it is not one credited before that is to be credited again: its row was
  // deleted, its date is within the 7 days, and there is room to issue.
  lemma AgreesUnlessCreditedAgain(n: Net, id: Terms, now: clock)
    requires NetInv(n) && id in n.sent && n.sent[id].to in n.hubs && n.sent[id].from in n.hubs
    ensures var s := n.sent[id]; var n' := NextClears(n, id, now);
            && s.from in n'.hubs && s.to in n'.hubs
            && (PairAgrees(n', s.from, s.to) <==>
                  !(id in n.credited && CreditDue(n.hubs[s.to].rows, s.from, SentReceipt(n, id), now)))
  {
    hide Inv, ClearFromPeer;
    var s := n.sent[id];
    var f := Flow(s.from, s.to, id);
    ClearEffect(n.hubs[s.to], s.from, SentReceipt(n, id), now);
    CreditedWhenDue(n.hubs[s.to], s.from, SentReceipt(n, id), now);
    assert SentTrue(n, id) && PairAgrees(n, s.from, s.to);
    if f in n.inFlight {
      BetweenMinus(n.inFlight, f, s.from, s.to);
    } else {
      assert n.inFlight - {f} == n.inFlight;
    }
  }

  lemma CreditedWhenDue(w: World, peer: Aid, rec: Receipt, now: clock)
    ensures StepClear(w, peer, rec, now).rows != w.rows <==> CreditDue(w.rows, peer, rec, now)
    ensures CreditDue(w.rows, peer, rec, now) ==> rec.amount > 0
  {
    CreditsExactlyWhenDue(w.rows, peer, rec, now);
  }

  // And a settlement made for a peer exactly when it is not a second debit, due by the
  // rows, of an authorization whose credit is still on its way.
  lemma AgreesUnlessDebitedAgain(n: Net, h: Aid, t: Ticket, bind: string, b: Aid, now: clock)
    requires NetInv(n) && h in n.hubs && b in n.hubs && h != b
    ensures var id := t.auth.terms; var n' := NextSettles(n, h, t, bind, Some(b), now);
            && h in n'.hubs && b in n'.hubs
            && (PairAgrees(n', h, b) <==>
                  !(Flow(h, b, id) in n.inFlight && SettlementDue(n.hubs[h].rows, id, bind, Some(b), now)))
  {
    hide Inv;
    var w, id := n.hubs[h], t.auth.terms;
    var v := StepSettle(w, t, bind, Some(b), now);
    SettleEffect(w, t, bind, Some(b), now);
    DebitedWhenDue(w, t, bind, Some(b), now);
    assert PairAgrees(n, h, b);
    hide StepSettle, SettlementDue, FlowsTrue, StatementsTrue, TotalKept, HubsKeep;
    if v.rows != w.rows {
      OneMoreDebit(n, NextSettles(n, h, t, bind, Some(b), now), h, b, v, id);
    }
  }

  lemma OneMoreDebit(n: Net, n': Net, h: Aid, b: Aid, v: World, id: Terms)
    requires h in n.hubs && b in n.hubs && h != b && PairAgrees(n, h, b) && FlowsTrue(n) && id.amount > 0
    requires n'.hubs == n.hubs[h := v] && v.rows.due == Add(n.hubs[h].rows.due, b, id.amount)
    requires n'.inFlight == n.inFlight[Flow(h, b, id) := id.amount] && n'.unsubtracted == n.unsubtracted
    ensures PairAgrees(n', h, b) <==> Flow(h, b, id) !in n.inFlight
  {
    var f := Flow(h, b, id);
    if f in n.inFlight {
      InFlightIsAmount(n, f);
      assert n.inFlight[f := id.amount] == n.inFlight;
    } else {
      hide FlowsTrue;
      BetweenAdd(n.inFlight, f, id.amount, h, b);
    }
  }

  lemma DebitedWhenDue(w: World, t: Ticket, bind: string, via: Via, now: clock)
    ensures StepSettle(w, t, bind, via, now).rows != w.rows <==> SettlementDue(w.rows, t.auth.terms, bind, via, now)
    ensures SettlementDue(w.rows, t.auth.terms, bind, via, now) ==> t.auth.terms.amount > 0
  {
    SettlesExactlyWhenDue(w.rows, t.auth.terms, bind, via, now);
    if SettlementDue(w.rows, t.auth.terms, bind, via, now) {
      assert t.auth.terms in Moved(w.rows, t.auth.terms, bind, via, now).settled;
    }
  }

  lemma InFlightIsAmount(n: Net, f: Flow<Terms>)
    requires FlowsTrue(n) && f in n.inFlight
    ensures n.inFlight[f] == f.what.amount
  {
    assert FlowSent(n, f);
    assert SentTrue(n, f.what);
  }
}
