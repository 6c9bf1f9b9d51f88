// Why the ledger refuses: every refusal of a settlement has its reason in what happened
// before, and a payer's first-verification records stay bounded.
module LedgerRefusals {
  import opened Basics
  import opened Sums
  import opened Amounts
  import opened Ledger
  import opened LedgerRuns
  import opened LedgerPromises

  // d holds guard g until its row says.
  predicate Holds(d: Debit, g: Guard, until: int) {
    d.guard == Some(g) && until == d.now + GUARD_KEPT && IdOf(d).payer == g.0
  }

  // Every binding still guarded was settled under, 30 days before the guard ends.
  ghost predicate GuardsEarned(w: World) {
    forall g :: g in w.rows.guards ==> exists d :: d in w.past.debits && Holds(d, g, w.rows.guards[g])
  }

  // Every receipt still marked cleared was credited.
  ghost predicate ClearedEarned(w: World) {
    forall id :: id in w.rows.cleared ==> WasCredited(w.past, id, w.rows.cleared[id])
  }

  ghost predicate RecordsBounded(l: Rows) {
    forall payer :: |RecordsOf(l, payer)| <= MAX_FIRST_VERIFY_PER_PAYER
  }

  // ---- guards ----

  predicate GuardsOnlyExpire(w: World, v: World) {
    && (forall d :: d in w.past.debits ==> d in v.past.debits)
    && (forall g :: g in v.rows.guards ==> g in w.rows.guards && v.rows.guards[g] == w.rows.guards[g])
  }

  lemma ExpiryKeepsEarned(w: World, v: World)
    requires GuardsEarned(w) && GuardsOnlyExpire(w, v)
    ensures GuardsEarned(v)
  {
    forall g | g in v.rows.guards ensures exists d :: d in v.past.debits && Holds(d, g, v.rows.guards[g]) {
      var d :| d in w.past.debits && Holds(d, g, w.rows.guards[g]);
    }
  }

  lemma SettleEarns(w: World, t: Ticket, bind: string, via: Via, now: clock)
    requires GuardsEarned(w)
    ensures GuardsEarned(StepSettle(w, t, bind, via, now))
  {
    var v := StepSettle(w, t, bind, via, now);
    if v.past.debits != w.past.debits {
      var e := v.past.debits[|w.past.debits|];
      assert e in v.past.debits;
      forall g | g in v.rows.guards ensures exists d :: d in v.past.debits && Holds(d, g, v.rows.guards[g]) {
        if Some(g) == e.guard {
          assert Holds(e, g, v.rows.guards[g]);
        } else {
          var d :| d in w.past.debits && Holds(d, g, w.rows.guards[g]);
          assert d in v.past.debits;
        }
      }
    } else {
      ExpiryKeepsEarned(w, v);
    }
  }

  lemma OthersOnlyExpire(w: World, op: Op)
    requires Enabled(w, op) && !op.Settle?
    ensures GuardsOnlyExpire(w, Step(w, op))
  {
    if op.Verify? {
      CheckWritesRecordsOnly(w.rows, op.auth, op.now);
    }
  }

  // ---- cleared receipts ----

  lemma ClearEarns(w: World, peer: Aid, rec: Receipt, now: clock)
    requires ClearedEarned(w)
    ensures ClearedEarned(StepClear(w, peer, rec, now))
  {
    var v := StepClear(w, peer, rec, now);
    forall id | id in v.rows.cleared ensures WasCredited(v.past, id, v.rows.cleared[id]) {
      if id in w.rows.cleared {
        var c :| c in w.past.credits && c.id == id && c.settleAt == w.rows.cleared[id];
        assert c in v.past.credits;
      } else {
        var c := v.past.credits[|w.past.credits|];
        assert c in v.past.credits && c.id == id;
      }
    }
  }

  lemma OthersKeepCleared(w: World, op: Op)
    requires Enabled(w, op) && !op.Clear?
    ensures Step(w, op).past.credits == w.past.credits
    ensures var m := Step(w, op).rows.cleared;
            forall id :: id in m ==> id in w.rows.cleared && m[id] == w.rows.cleared[id]
  {
    if op.Verify? {
      CheckWritesRecordsOnly(w.rows, op.auth, op.now);
    } else if op.Settle? {
      SettleKeepsCleared(w.rows, op.ticket.auth.terms, op.bind, op.via, op.now);
    }
    hide Check, SettleAuth, KeptSettled, KeptGuards, KeptFirstVerify;
  }

  lemma SettleKeepsCleared(l: Rows, id: Terms, bind: string, via: Via, now: clock)
    ensures SettleAuth(l, id, bind, via, now).1.cleared == l.cleared
  {
    hide SettleRefusal, RepeatOf, AmountInt64;
  }

  lemma StepEarnsCleared(w: World, op: Op)
    requires Enabled(w, op) && ClearedEarned(w)
    ensures ClearedEarned(Step(w, op))
  {
    if op.Clear? {
      ClearEarns(w, op.peer, op.rec, op.now);
    } else {
      OthersKeepCleared(w, op);
      hide Step;
    }
  }

  // ---- records ----

  lemma FewerRecords(l: Rows, m: map<Terms, FirstVerify>, payer: Aid)
    requires forall id :: id in m ==> id in l.firstVerify && m[id] == l.firstVerify[id]
    ensures |RecordsOf(l.(firstVerify := m), payer)| <= |RecordsOf(l, payer)|
  {
    SmallerSet(RecordsOf(l.(firstVerify := m), payer), RecordsOf(l, payer));
  }

  lemma SmallerSet(a: set<Terms>, b: set<Terms>)
    requires a <= b
    ensures |a| <= |b|
  {
    assert b == a + (b - a);
  }

  lemma OneMoreRecord(l: Rows, id: Terms, r: FirstVerify, payer: Aid)
    requires id !in l.firstVerify && r.payer == id.payer
    ensures RecordsOf(l.(firstVerify := l.firstVerify[id := r]), payer) ==
            RecordsOf(l, payer) + if payer == id.payer then {id} else {}
  {
  }

  lemma RecordBounded(l: Rows, a: Auth)
    requires RecordsBounded(l) && a.terms.payer in l.held
    ensures RecordsBounded(WithRecord(l, a))
  {
    hide RecordsOf, NewRecord;
    var l' := WithRecord(l, a);
    if l' != l {
      NewRecordPayer(a, l.held[a.terms.payer]);
      forall payer ensures |RecordsOf(l', payer)| <= MAX_FIRST_VERIFY_PER_PAYER {
        OneMoreRecord(l, a.terms, NewRecord(a, l.held[a.terms.payer]), payer);
      }
    }
  }

  lemma NewRecordPayer(a: Auth, kel: Kel)
    ensures NewRecord(a, kel).payer == a.terms.payer
  {
  }

  lemma SameRecords(l: Rows, l': Rows)
    requires RecordsBounded(l) && l'.firstVerify == l.firstVerify
    ensures RecordsBounded(l')
  {
    forall payer ensures |RecordsOf(l', payer)| <= MAX_FIRST_VERIFY_PER_PAYER {
      assert RecordsOf(l', payer) == RecordsOf(l, payer);
    }
  }

  lemma VerifyBounded(w: World, a: Auth, now: clock)
    requires RecordsBounded(w.rows)
    ensures RecordsBounded(StepVerify(w, a, now).rows)
  {
    CheckWrites(w.rows, a, now);
    hide Check, VerifiedAuth, InWindow, RecordsBounded;
    if Check(w.rows, a, now).1 != w.rows {
      RecordBounded(w.rows, a);
    }
  }

  lemma SweepBounded(l: Rows, now: clock)
    requires RecordsBounded(l)
    ensures RecordsBounded(Prune(l, now))
  {
    var m := KeptFirstVerify(l.firstVerify, now);
    forall payer ensures |RecordsOf(Prune(l, now), payer)| <= MAX_FIRST_VERIFY_PER_PAYER {
      FewerRecords(l, m, payer);
      assert RecordsOf(Prune(l, now), payer) == RecordsOf(l.(firstVerify := m), payer);
    }
  }

  lemma StepBounded(w: World, op: Op)
    requires Enabled(w, op) && RecordsBounded(w.rows)
    ensures RecordsBounded(Step(w, op).rows)
  {
    hide RecordsBounded, Check, Prune;
    if op.Verify? {
      VerifyBounded(w, op.auth, op.now);
    } else if op.Sweep? {
      SweepBounded(w.rows, op.now);
    } else {
      OthersKeepRecords(w, op);
      SameRecords(w.rows, Step(w, op).rows);
    }
  }

  lemma OthersKeepRecords(w: World, op: Op)
    requires Enabled(w, op) && !op.Verify? && !op.Sweep?
    ensures Step(w, op).rows.firstVerify == w.rows.firstVerify
  {
    hide Check, Prune, SettleAuth;
    if op.Settle? {
      SettleKeepsRecords(w.rows, op.ticket.auth.terms, op.bind, op.via, op.now);
    }
  }

  lemma SettleKeepsRecords(l: Rows, id: Terms, bind: string, via: Via, now: clock)
    ensures SettleAuth(l, id, bind, via, now).1.firstVerify == l.firstVerify
  {
    hide SettleRefusal, RepeatOf, AmountInt64;
  }

  // ---- every run ----

  lemma {:induction false} RunKeeps(w: World, ops: seq<Op>)
    requires GuardsEarned(w) && ClearedEarned(w) && RecordsBounded(w.rows)
    ensures GuardsEarned(Run(w, ops)) && ClearedEarned(Run(w, ops)) && RecordsBounded(Run(w, ops).rows)
    decreases |ops|
  {
    hide GuardsEarned, ClearedEarned, RecordsBounded;
    if ops != [] {
      if Enabled(w, ops[0]) {
        StepEarnsCleared(w, ops[0]);
        StepBounded(w, ops[0]);
        if ops[0].Settle? {
          SettleEarns(w, ops[0].ticket, ops[0].bind, ops[0].via, ops[0].now);
        } else {
          OthersOnlyExpire(w, ops[0]);
          ExpiryKeepsEarned(w, Step(w, ops[0]));
        }
      }
      RunKeeps(if Enabled(w, ops[0]) then Step(w, ops[0]) else w, ops[1..]);
    }
  }

  lemma ReachedKeeps(w: World)
    requires Reached(w)
    ensures GuardsEarned(w) && ClearedEarned(w) && RecordsBounded(w.rows)
  {
    var hub, clockSkew, maxSkew, t0: clock, ops :| w == Run(Start(hub, clockSkew, maxSkew, t0), ops);
    var start := Start(hub, clockSkew, maxSkew, t0);
    forall payer ensures |RecordsOf(start.rows, payer)| <= MAX_FIRST_VERIFY_PER_PAYER {
      assert RecordsOf(start.rows, payer) == {};
    }
    RunKeeps(start, ops);
  }

  // Whatever authorizations are presented, no payer's records take more than their room.
  lemma RecordsStayBounded(w: World, payer: Aid)
    requires Reached(w)
    ensures |RecordsOf(w.rows, payer)| <= MAX_FIRST_VERIFY_PER_PAYER
  {
    ReachedKeeps(w);
  }

  lemma ReachedBooks(w: World)
    requires Reached(w)
    ensures DebitsOnce(w) && EntriesExplain(w)
  {
    ReachedInv(w);
  }

  // A settlement is refused as a duplicate of its binding only when its payer settled
  // under the binding less than 30 days before; as a duplicate of its id only when it was
  // settled for another caller; for want of credit only when everything ever written for
  // the payer adds up to less.
  lemma RefusedForAReason(w: World, id: Terms, bind: string, via: Via, now: clock)
    requires Reached(w)
    ensures var answer := SettleAuth(w.rows, id, bind, via, now).0;
            && (answer == Refused(DuplicateBinding) ==>
                 exists d :: d in w.past.debits && d.guard == Some((id.payer, bind)) && IdOf(d).payer == id.payer
                             && now < d.now + GUARD_KEPT)
            && (answer == Refused(DuplicateNonce) ==>
                 exists d :: d in w.past.debits && IdOf(d) == id && d.via != via)
            && (answer == Refused(InsufficientFunds) ==> EntrySum(w.past.written, id.payer) < id.amount)
  {
    hide Inv;
    ReachedBooks(w);
    ReachedKeeps(w);
    var answer := SettleAuth(w.rows, id, bind, via, now).0;
    if answer == Refused(DuplicateBinding) {
      var g := (id.payer, bind);
      var d :| d in w.past.debits && Holds(d, g, w.rows.guards[g]);
    } else if answer == Refused(DuplicateNonce) {
      var d :| d in w.past.debits && SameRow(d, id, w.rows.settled[id]);
    } else if answer == Refused(InsufficientFunds) {
      assert Get(w.rows.balance, id.payer) == EntrySum(w.past.written, id.payer);
    }
  }
}
