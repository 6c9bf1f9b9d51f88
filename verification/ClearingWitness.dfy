// Runs in which two hubs come to disagree: a receipt credited once is credited again after
// its hub's clock stepped back by exactly a day, and a payment on its way is debited again
// after its hub's stepped back by 7 days less the skew.
module ClearingWitness {
  import opened Basics
  import opened Sums
  import opened Amounts
  import opened Ledger
  import opened LedgerRuns
  import L = LedgerPromises
  import opened LedgerWitness
  import opened Clearing
  import opened ClearingSafety
  import opened ClearingPromises

  lemma {:induction false} RunNetMore(n: Net, es: seq<Event>, e: Event)
    ensures var m := RunNet(n, es); RunNet(n, es + [e]) == if Can(m, e) then Next(m, e) else m
    decreases |es|
  {
    hide Possible, Next, Steady;
    if es == [] {
      assert [e][1..] == [];
    } else {
      assert (es + [e])[1..] == es[1..] + [e];
      RunNetMore(if Can(n, es[0]) then Next(n, es[0]) else n, es[1..], e);
    }
  }

  lemma ReachedNext(n: Net, e: Event)
    requires Reached(n) && Can(n, e)
    ensures Reached(Next(n, e))
  {
    hide Can, Next, Fresh;
    var start: Net, es :| Fresh(start) && n == RunNet(start, es);
    RunNetMore(start, es, e);
  }

  function Empty(hubs: map<Aid, World>): Net {
    Net(hubs, map[], {}, map[], map[], map[], 0, 0)
  }

  const PAID: Terms := Pay("").terms
  const TICKET: Ticket := Ticket(Pay(""), 1, FIRST_KEY)

  // Hub 0 with a checked payment to an account of hub 1.
  function Ready(): World {
    Asked(false, "")
  }

  // Hub 1 before anything happened there.
  function Other(): World {
    Start(1, 0, 0, 0)
  }

  // Hub 0 is at w, and nothing was exchanged.
  predicate Apart(n: Net, w: World) {
    n == Empty(map[0 := w, 1 := Other()]).(granted := n.granted)
  }

  lemma QuietAt0(n: Net, w: World, op: Op) returns (m: Net)
    requires Reached(n) && Apart(n, w) && Silent(op) && Enabled(w, op)
    ensures Reached(m) && Apart(m, Step(w, op))
  {
    hide Reached, Step, Other;
    ReachedNext(n, Quiet(0, op));
    m := Next(n, Quiet(0, op));
    assert n.hubs[0 := Step(w, op)] == map[0 := Step(w, op), 1 := Other()];
  }

  lemma GrantAt0(n: Net, w: World, aid: Aid, amount: int64) returns (m: Net)
    requires Reached(n) && Apart(n, w) && aid != w.rows.hub
    ensures Reached(m) && Apart(m, StepGrant(w, aid, amount))
  {
    hide Reached, StepGrant, Other;
    ReachedNext(n, Grants(0, aid, amount));
    m := Next(n, Grants(0, aid, amount));
    assert n.hubs[0 := StepGrant(w, aid, amount)] == map[0 := StepGrant(w, aid, amount), 1 := Other()];
  }

  lemma ReadyReached() returns (n: Net)
    ensures Reached(n) && Apart(n, Ready())
  {
    hide Reached, Step, StepGrant, Apart, Registry;
    n := BothStart();
    OneMoreAgent(map[], PAYER);
    n := QuietAt0(n, Registry(map[]), History(PAYER, FIRST_KEY, true));
    GrantedAsStep();
    n := GrantAt0(n, Registry(Agents(false)), PAYER, 10);
    n := QuietAt0(n, Funded(false), Verify(Pay(""), 1));
  }

  lemma BothStart() returns (n: Net)
    ensures Reached(n) && Apart(n, Registry(map[])) && Registry(Agents(false)).rows.hub == 0
  {
    n := Empty(map[0 := Registry(map[]), 1 := Other()]);
    assert Registry(map[]) == Start(0, 1, 0, 0);
    StartsReached(n);
  }

  lemma GrantedAsStep()
    ensures StepGrant(Registry(Agents(false)), PAYER, 10) == Funded(false)
  {
    Granted(false);
  }

  lemma StartsReached(n: Net)
    requires Fresh(n)
    ensures Reached(n)
  {
    assert n == RunNet(n, []);
  }

  // The payment is settled at hub 0 for hub 1.
  lemma SentReached() returns (n: Net)
    ensures Reached(n) && 0 in n.hubs && 1 in n.hubs
    ensures PAID in n.sent && n.sent[PAID] == Sent(0, 1, 1) && n.hubs[1] == Other() && n.signed == map[]
    ensures n.hubs[0] == PaidOnce("", Some(1)) && Flow(0, 1, PAID) in n.inFlight
  {
    hide Reached, Ready, Other, StepSettle, PaidOnce;
    n := ReadyReached();
    SettlesAtReady();
    ReachedNext(n, Settles(0, TICKET, "", Some(1), 1));
    n := Next(n, Settles(0, TICKET, "", Some(1), 1));
  }

  // And credited there.
  lemma PaidReached() returns (n: Net)
    ensures Reached(n) && 0 in n.hubs && 1 in n.hubs
    ensures PAID in n.sent && n.sent[PAID] == Sent(0, 1, 1) && PAID in n.credited
    ensures n.hubs[1] == StepClear(Other(), 0, ReceiptFor(PAID, 1), 1) && n.signed == map[]
    ensures n.hubs[0] == PaidOnce("", Some(1))
  {
    hide Reached, StepClear, PaidOnce;
    n := SentReached();
    ClearsAtOther();
    ReachedNext(n, Clears(PAID, 1));
    n := Next(n, Clears(PAID, 1));
  }

  lemma SettlesAtReady()
    ensures TICKET in Ready().past.tickets && Ready().past.latest == 1 && Ready().rows.clockSkew == 1
    ensures PaidOnce("", Some(1)) == StepSettle(Ready(), TICKET, "", Some(1), 1)
    ensures PaidOnce("", Some(1)).rows != Ready().rows
    ensures Enabled(Ready(), Settle(TICKET, "", Some(1), 1))
  {
    Checked(false, "");
    L.SettlesExactlyWhenDue(Ready().rows, PAID, "", Some(1), 1);
    DebitedWhenDue(Ready(), TICKET, "", Some(1), 1);
  }

  lemma ClearsAtOther()
    ensures var v := StepClear(Other(), 0, ReceiptFor(PAID, 1), 1);
            && v.rows != Other().rows
            && v.rows.cleared == map[PAID := 1] && v.rows.issued == 5 && v.rows.hub == 1 && v.rows.maxSkew == 0
            && v.past.latest == 1 && v.past.credits == [Credit(0, PAID, 1, 1, 1)]
            && Get(v.rows.owed, 0) == 5 && v.rows.statements == {}
  {
  }

  // Hub 1's janitor runs 8 days past the receipt's date.
  lemma SweptReached() returns (n: Net)
    ensures Reached(n) && 0 in n.hubs && 1 in n.hubs
    ensures PAID in n.sent && n.sent[PAID] == Sent(0, 1, 1) && PAID in n.credited
    ensures var w := n.hubs[1];
            && w.rows.cleared == map[] && w.rows.issued == 5 && w.rows.hub == 1 && w.rows.maxSkew == 0
            && w.past.latest == 1 + CLEARED_KEPT_AFTER && w.past.credits == [Credit(0, PAID, 1, 1, 1)]
            && Get(w.rows.owed, 0) == 5 && w.rows.statements == {}
    ensures n.hubs[0] == PaidOnce("", Some(1)) && n.signed == map[]
  {
    hide Reached, StepClear, PaidOnce;
    n := PaidReached();
    ClearsAtOther();
    ReachedNext(n, Quiet(1, Sweep(1 + CLEARED_KEPT_AFTER)));
    n := Next(n, Quiet(1, Sweep(1 + CLEARED_KEPT_AFTER)));
  }

  lemma TwoCredits(w: World, now: clock)
    requires w.rows.cleared == map[] && w.rows.issued == 5 && w.rows.hub == 1 && w.rows.maxSkew == 0
    requires w.past.credits == [Credit(0, PAID, 1, 1, 1)] && now == 1 + PEER_RECEIPT_MAX_AGE
    ensures L.CreditDue(w.rows, 0, ReceiptFor(PAID, 1), now)
    ensures var v := StepClear(w, 0, ReceiptFor(PAID, 1), now);
            && v.past.credits == [Credit(0, PAID, 1, 1, 1), Credit(0, PAID, 1, now, Max(w.past.latest, now))]
            && Get(v.rows.owed, 0) == Get(w.rows.owed, 0) + 5 && v.rows.statements == w.rows.statements
            && v.rows.hub == w.rows.hub
  {
    ClearKeepsHub(w, 0, ReceiptFor(PAID, 1), now);
    ClearEffect(w, 0, ReceiptFor(PAID, 1), now);
    CreditedWhenDue(w, 0, ReceiptFor(PAID, 1), now);
    hide StepClear;
  }

  // Its clock then reads 7 days past it: the receipt is credited a second time, and what
  // hub 0 records due is short of what hub 1 records owed.
  lemma CreditedTwice() returns (n: Net, now: clock)
    ensures Reached(n) && 0 in n.hubs && 1 in n.hubs && Possible(n, Clears(PAID, now))
    ensures n.hubs[1].past.latest - now == DAY
    ensures var m := Next(n, Clears(PAID, now));
            && 0 in m.hubs && 1 in m.hubs && !PairAgrees(m, 0, 1)
            && |m.hubs[1].past.credits| == 2
            && m.hubs[1].past.credits[0].id == m.hubs[1].past.credits[1].id == PAID
            && m.hubs[1].past.credits[0].settleAt == m.hubs[1].past.credits[1].settleAt
            && Due(m, 0, 1) == 5 && Owed(m, 1, 0) == 10
            && m.signed == map[] && m.hubs[1].rows.statements == {} && m.hubs[1].rows.hub == 1
  {
    DueOnce();
    hide Reached, Inv, NetInv, PairAgrees, StepClear, PaidOnce, L.CreditDue;
    n := SweptReached();
    now := 1 + PEER_RECEIPT_MAX_AGE;
    TwoCredits(n.hubs[1], now);
    ReachedInv(n);
    AgreesUnlessCreditedAgain(n, PAID, now);
  }

  lemma DueOnce()
    ensures Get(PaidOnce("", Some(1)).rows.due, 1) == 5
  {
    Checked(false, "");
    SettlesAtReady();
    SettleEffect(Ready(), TICKET, "", Some(1), 1);
    hide StepSettle, Check;
  }

  lemma DueAgain()
    ensures var v := AskedAgain("", Some(1)); var t := Ticket(Pay(""), 3, FIRST_KEY);
            StepSettle(v, t, "", Some(1), 3).rows != v.rows && L.SettlementDue(v.rows, PAID, "", Some(1), 3)
  {
    var v, t := AskedAgain("", Some(1)), Ticket(Pay(""), 3, FIRST_KEY);
    PaidAgain("", Some(1));
    OneDebitBefore();
    hide StepSettle, AskedAgain;
    SettleEffect(v, t, "", Some(1), 3);
    DebitedWhenDue(v, t, "", Some(1), 3);
  }

  lemma OneDebitBefore()
    ensures |AskedAgain("", Some(1)).past.debits| == 1
  {
    PaidOnceIs("", Some(1));
    hide *;
    L.PrunedChecksAgain(PaidOnce("", Some(1)), Pay(""), SweptAt(""), 3);
  }

  // The payment is settled at hub 0 for hub 1 and on its way; hub 0's clock reads 7 days
  // past its NotAfter for one janitor round and then the end of its window: the payer is
  // debited a second time, and what hub 0 records due is more than what hub 1 records owed
  // and what is on its way.
  lemma DebitedAgain() returns (n: Net, t: Ticket)
    ensures Reached(n) && 0 in n.hubs && 1 in n.hubs && Possible(n, Settles(0, t, "", Some(1), 3))
    ensures Flow(0, 1, PAID) in n.inFlight
    ensures var m := Next(n, Settles(0, t, "", Some(1), 3));
            && 0 in m.hubs && 1 in m.hubs && !PairAgrees(m, 0, 1)
            && |m.hubs[0].past.debits| == 2
            && IdOf(m.hubs[0].past.debits[0]) == IdOf(m.hubs[0].past.debits[1]) == PAID
            && m.hubs[0].past.debits[1].latest - t.at == SETTLED_KEPT_AFTER - n.hubs[0].rows.clockSkew
  {
    hide Reached, Inv, NetInv, PairAgrees, Step, StepSettle, L.SettlementDue, PaidOnce;
    n := SentReached();
    PaidAgain("", Some(1));
    DueAgain();
    n := QuietMore(n, Sweep(SweptAt("")));
    n := QuietMore(n, Verify(Pay(""), 3));
    t := Ticket(Pay(""), 3, FIRST_KEY);
    ReachedInv(n);
    AgreesUnlessDebitedAgain(n, 0, t, "", 1, 3);
  }

  lemma QuietMore(n: Net, op: Op) returns (m: Net)
    requires Reached(n) && 0 in n.hubs && 1 in n.hubs && Silent(op) && Enabled(n.hubs[0], op)
    ensures Reached(m) && m == With(n, 0, Step(n.hubs[0], op))
  {
    hide Reached, Step;
    ReachedNext(n, Quiet(0, op));
    m := Next(n, Quiet(0, op));
  }
}
