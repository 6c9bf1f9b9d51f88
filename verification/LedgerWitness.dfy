// Runs from an empty ledger that reach the ledger's limits: a clock that steps back by 7
// days less the skew debits an authorization twice, and a rotation dated back before a
// payment blocks it although it was found signed at the tip.
module LedgerWitness {
  import opened Basics
  import opened Sums
  import opened Amounts
  import opened Ledger
  import opened LedgerRuns
  import opened LedgerPromises

  lemma ReachedStart(hub: Aid, clockSkew: nat, maxSkew: nat, t0: clock)
    ensures Reached(Start(hub, clockSkew, maxSkew, t0))
  {
    assert Start(hub, clockSkew, maxSkew, t0) == Run(Start(hub, clockSkew, maxSkew, t0), []);
  }

  const PAYER: Aid := 10
  const PAYEE: Aid := 20
  const FIRST_KEY: Kel := [KeyEvent(0, true)]

  // A payment of 5, valid for a millisecond, on the ledger of hub 0.
  function Pay(bind: string): Auth {
    Auth(Terms(PAYER, PAYEE, 5, 0, 1, 2, bind, 0), 0, true)
  }

  // Hub 0, allowing a millisecond of skew, with these agents and no credit.
  function Registry(held: map<Aid, Kel>): World {
    World(Rows(0, 1, 0, held, held.Keys, map[], map[], map[], map[], {}, map[], map[], 0, 0, map[]),
          Past(0, [], [], [], {}, []))
  }

  lemma OneMoreAgent(held: map<Aid, Kel>, aid: Aid)
    requires aid != 0 && aid !in held
    ensures Step(Registry(held), History(aid, FIRST_KEY, true)) == Registry(held[aid := FIRST_KEY])
  {
    assert held.Keys + {aid} == held[aid := FIRST_KEY].Keys;
  }

  function Agents(here: bool): map<Aid, Kel> {
    if here then map[][PAYER := FIRST_KEY][PAYEE := FIRST_KEY] else map[][PAYER := FIRST_KEY]
  }

  // Once the payer is registered and holds 10; and the payee too, when it banks here.
  function Funded(here: bool): World {
    var w := Registry(Agents(here));
    World(w.rows.(balance := map[0 := -10, PAYER := 10], issued := 10),
          w.past.(written := [Entry(0, -10), Entry(PAYER, 10)]))
  }

  lemma FundedReached(here: bool)
    ensures Reached(Funded(here))
  {
    hide Step, Run, Reached;
    ReachedStart(0, 1, 0, 0);
    assert Start(0, 1, 0, 0) == Registry(map[]);
    OneMoreAgent(map[], PAYER);
    ReachedStep(Registry(map[]), History(PAYER, FIRST_KEY, true));
    if here {
      OneMoreAgent(map[][PAYER := FIRST_KEY], PAYEE);
      ReachedStep(Registry(map[][PAYER := FIRST_KEY]), History(PAYEE, FIRST_KEY, true));
    }
    Granted(here);
    ReachedStep(Registry(Agents(here)), Grant(PAYER, 10));
  }

  lemma Granted(here: bool)
    ensures Step(Registry(Agents(here)), Grant(PAYER, 10)) == Funded(here)
  {
  }

  // The payment is checked at the tip.
  lemma Checked(here: bool, bind: string)
    ensures Check(Funded(here).rows, Pay(bind), 1).0.None?
    ensures var w := Funded(here); var a := Pay(bind); var v := Step(w, Verify(a, 1));
            && v == World(w.rows.(firstVerify := map[a.terms := NewRecord(a, FIRST_KEY)]),
                          w.past.(latest := 1, tickets := {Ticket(a, 1, FIRST_KEY)},
                                  records := [Recorded(a, FIRST_KEY, 1, 1)]))
  {
    var l, a := Funded(here).rows, Pay(bind);
    assert VerifiedAuth(l, a).None?;
    assert FIRST_KEY[..1][0] == FIRST_KEY[0];
    assert RecordsOf(l, PAYER) == {};
    assert WithRecord(l, a) == l.(firstVerify := map[a.terms := NewRecord(a, FIRST_KEY)]);
  }

  // The world after the check.
  function Asked(here: bool, bind: string): World {
    Step(Funded(here), Verify(Pay(bind), 1))
  }

  lemma PayIsDue(bind: string, via: Via)
    requires !HasNul(bind)
    ensures SettlementDue(Asked(via.None?, bind).rows, Pay(bind).terms, bind, via, 1)
    ensures Ticket(Pay(bind), 1, FIRST_KEY) in Asked(via.None?, bind).past.tickets
  {
    Checked(via.None?, bind);
    hide Check;
  }

  // What settling leaves.
  lemma PayMoved(bind: string, via: Via)
    ensures var l := Moved(Asked(via.None?, bind).rows, Pay(bind).terms, bind, via, 1);
            && Pay(bind).terms in l.settled && VerifiedAuth(l, Pay(bind)).None?
            && l.held[PAYER] == FIRST_KEY && l.clockSkew == 1 && l.hub == 0
            && Get(l.balance, PAYER) == 5 && (via.None? <==> Local(l, PAYEE))
            && forall g :: g in l.guards ==> bind != "" && l.guards[g] == 1 + GUARD_KEPT
  {
    Checked(via.None?, bind);
    hide Check;
  }

  // And settled: for the payee here, or for the peer hub 1 it banks on.
  function PaidOnce(bind: string, via: Via): World {
    StepSettle(Asked(via.None?, bind), Ticket(Pay(bind), 1, FIRST_KEY), bind, via, 1)
  }

  lemma PaidOnceIs(bind: string, via: Via)
    requires !HasNul(bind) && (via.None? || via == Some(1))
    ensures var w := PaidOnce(bind, via);
            && Pay(bind).terms in w.rows.settled && VerifiedAuth(w.rows, Pay(bind)).None?
            && w.rows.held[PAYER] == FIRST_KEY && w.rows.clockSkew == 1 && w.rows.hub == 0
            && Get(w.rows.balance, PAYER) == 5 && (via.None? <==> Local(w.rows, PAYEE))
            && (forall g :: g in w.rows.guards ==> bind != "" && w.rows.guards[g] == 1 + GUARD_KEPT)
            && w.past.latest == 1 && |w.past.debits| == 1 && IdOf(w.past.debits[0]) == Pay(bind).terms
  {
    var a, v := Pay(bind), Asked(via.None?, bind);
    Checked(via.None?, bind);
    PayIsDue(bind, via);
    PayMoved(bind, via);
    assert v.past.latest == 1 && v.past.debits == [];
    hide Check, Asked, Moved, SettlementDue, VerifiedAuth, SettleAuth, Local, Get;
    SettlesExactlyWhenDue(v.rows, a.terms, bind, via, 1);
  }

  lemma PaidOnceReached(bind: string, via: Via)
    requires !HasNul(bind) && (via.None? || via == Some(1))
    ensures Reached(PaidOnce(bind, via))
  {
    var a, here := Pay(bind), via.None?;
    FundedReached(here);
    ReachedStep(Funded(here), Verify(a, 1));
    Checked(here, bind);
    PayIsDue(bind, via);
    assert Asked(here, bind).rows.hub == 0;
    hide Check, Reached, Asked, SettlementDue;
    ReachedStep(Asked(here, bind), Settle(Ticket(a, 1, FIRST_KEY), bind, via, 1));
  }

  function SweptAt(bind: string): clock {
    if bind == "" then 2 + SETTLED_KEPT_AFTER else 1 + GUARD_KEPT
  }

  // The world once the janitor ran then and the payment was checked again.
  function AskedAgain(bind: string, via: Via): World {
    Step(Step(PaidOnce(bind, via), Sweep(SweptAt(bind))), Verify(Pay(bind), 3))
  }

  lemma PaidAgain(bind: string, via: Via)
    requires !HasNul(bind) && (via.None? || via == Some(1))
    ensures var v := AskedAgain(bind, via); var t := Ticket(Pay(bind), 3, FIRST_KEY);
            && v.rows.clockSkew == 1 && Enabled(v, Settle(t, bind, via, 3))
            && var again := StepSettle(v, t, bind, via, 3);
               && again.rows.clockSkew == 1 && |again.past.debits| == 2
               && IdOf(again.past.debits[0]) == IdOf(again.past.debits[1]) == Pay(bind).terms
               && again.past.debits[1].latest == SweptAt(bind) && again.past.debits[1].ticket == t
  {
    PaidOnceIs(bind, via);
    var u, v := PaidOnce(bind, via), AskedAgain(bind, via);
    hide PaidOnce, StepVerify, StepSettle, Prune, VerifiedAuth;
    SteppedBackClockDebitsAgain(u, Pay(bind), via, SweptAt(bind), 3);
    SkewStays(u, Sweep(SweptAt(bind)));
    SkewStays(Step(u, Sweep(SweptAt(bind))), Verify(Pay(bind), 3));
    SkewStays(v, Settle(Ticket(Pay(bind), 3, FIRST_KEY), bind, via, 3));
  }

  // So, with or without a binding, for a payee here or for a peer: the same authorization
  // is debited again once the clock read far enough ahead for one janitor round and then
  // stepped back; without a binding, by exactly 7 days less the skew.
  lemma DebitedTwice(bind: string, via: Via) returns (w: World)
    requires !HasNul(bind) && (via.None? || via == Some(1))
    ensures Reached(w) && |w.past.debits| == 2
    ensures IdOf(w.past.debits[0]) == IdOf(w.past.debits[1]) == Pay(bind).terms
    ensures bind == "" ==>
              w.past.debits[1].latest - w.past.debits[1].ticket.at == SETTLED_KEPT_AFTER - w.rows.clockSkew
  {
    PaidOnceReached(bind, via);
    PaidAgain(bind, via);
    hide Reached, PaidOnce, StepVerify, StepSettle;
    ReachedStep(PaidOnce(bind, via), Sweep(SweptAt(bind)));
    ReachedStep(Step(PaidOnce(bind, via), Sweep(SweptAt(bind))), Verify(Pay(bind), 3));
    var settle := Settle(Ticket(Pay(bind), 3, FIRST_KEY), bind, via, 3);
    ReachedStep(AskedAgain(bind, via), settle);
    w := Step(AskedAgain(bind, via), settle);
  }

  lemma SkewStays(w: World, op: Op)
    requires Enabled(w, op)
    ensures Step(w, op).rows.clockSkew == w.rows.clockSkew
  {
    if op.Verify? {
      CheckWritesRecordsOnly(w.rows, op.auth, op.now);
    }
  }

  // The payment is checked, signed at the payer's tip; then a rotation is taken that
  // retires that key from the payment's own time on.
  lemma TipPaymentBlocked() returns (w: World, r: Recorded)
    ensures Reached(w) && r in w.past.records && FoundAtTip(r, Pay(""))
    ensures var a := Pay("");
            && a.signed && PAYER in w.rows.registered && a.terms.network == w.rows.hub
            && AmountInt64(a.terms.amount).Some? && !WindowTooLong(a.terms.issuedAt, a.terms.notAfter)
            && InWindow(w.rows, a.terms, 1) && w.past.latest - 1 < SETTLED_KEPT_AFTER - w.rows.clockSkew
            && Check(w.rows, a, 1).0 == Some(InvalidSignature)
  {
    var a := Pay("");
    FundedReached(true);
    Checked(true, "");
    ReachedStep(Funded(true), Verify(a, 1));
    var v := Step(Funded(true), Verify(a, 1));
    r := Recorded(a, FIRST_KEY, 1, 1);
    var rotated := FIRST_KEY + [KeyEvent(1, true)];
    ReachedStep(v, History(PAYER, rotated, true));
    w := Step(v, History(PAYER, rotated, true));
    assert w.rows.held[PAYER] == rotated && !KeyValid(rotated, 0, 1);
  }
}
