// What every run of the ledger keeps (LedgerRuns.Inv), step by step, and what it
// says about payments, their keys, their bindings and peers' receipts.
module LedgerSafety {
  import opened Basics
  import opened Amounts
  import opened Ledger
  import opened LedgerRuns

  // ---- the check ----

  lemma CheckReason(l: Rows, a: Auth, now: clock)
    requires Check(l, a, now).0.None?
    ensures a.terms.payer in l.held && a.terms.payer in l.registered
    ensures InWindow(l, a.terms, now) && a.terms.network == l.hub && AmountInt64(a.terms.amount).Some?
    ensures !WindowTooLong(a.terms.issuedAt, a.terms.notAfter)
    ensures a.signed && KeyValid(l.held[a.terms.payer], a.keyState, a.terms.issuedAt)
    ensures KeyValid(l.held[a.terms.payer], a.keyState, now) || RecordSaysTip(Check(l, a, now).1, a)
  {
  }

  // What a check writes: nothing, or the record of a first verification.
  lemma CheckRecords(l: Rows, a: Auth, now: clock)
    requires Check(l, a, now).1 != l
    ensures a.terms !in l.firstVerify && a.terms.payer in l.held && InWindow(l, a.terms, now)
    ensures Check(l, a, now).1 ==
            l.(firstVerify := l.firstVerify[a.terms := NewRecord(a, l.held[a.terms.payer])])
  {
    CheckWrites(l, a, now);
    hide Check, VerifiedAuth, InWindow, RecordRoom, NewRecord;
  }

  lemma VerifyKeepsRecords(w: World, a: Auth, now: clock)
    requires RecordsTrue(w)
    ensures RecordsTrue(StepVerify(w, a, now))
  {
    var v := StepVerify(w, a, now);
    if v.rows == w.rows {
      assert v.past.records == w.past.records;
      forall r | r in v.past.records ensures RecordKept(v.rows, v.past, r) && r.latest <= v.past.latest {
        assert RecordKept(w.rows, w.past, r);
      }
    } else {
      CheckRecords(w.rows, a, now);
      NewRecordKeepsRecords(w, v, Recorded(a, w.rows.held[a.terms.payer], now, v.past.latest));
    }
  }

  // What a check that records a first verification leaves: n is what it adds.
  predicate RecordAdded(w: World, v: World, n: Recorded) {
    && n.auth.terms !in w.rows.firstVerify && InWindow(w.rows, n.auth.terms, n.now)
    && n.auth.terms.payer in w.rows.held && n.kel == w.rows.held[n.auth.terms.payer]
    && v.rows == w.rows.(firstVerify := w.rows.firstVerify[n.auth.terms := NewRecord(n.auth, n.kel)])
    && v.past.records == w.past.records + [n]
    && v.past.latest >= w.past.latest && n.latest == v.past.latest
  }

  lemma RecordsStayKept(w: World, v: World, n: Recorded)
    requires RecordsTrue(w) && RecordAdded(w, v, n)
    ensures forall r :: r in v.past.records ==> RecordKept(v.rows, v.past, r) && r.latest <= v.past.latest
  {
    hide NewRecord, RecordOf;
    forall r | r in v.past.records ensures RecordKept(v.rows, v.past, r) && r.latest <= v.past.latest {
      assert r == n || RecordKept(w.rows, w.past, r);
    }
  }

  lemma RowsStayRecorded(w: World, v: World, n: Recorded)
    requires RecordsTrue(w) && RecordAdded(w, v, n)
    ensures forall id :: id in v.rows.firstVerify ==>
              exists r :: r in v.past.records && RecordOf(r, id, v.rows.firstVerify[id])
  {
    hide RecordKept, InWindow;
    forall id | id in v.rows.firstVerify
      ensures exists r :: r in v.past.records && RecordOf(r, id, v.rows.firstVerify[id])
    {
      if id == n.auth.terms {
        assert n in v.past.records && RecordOf(n, id, v.rows.firstVerify[id]);
      } else {
        var r :| r in w.past.records && RecordOf(r, id, w.rows.firstVerify[id]);
        assert r in v.past.records;
      }
    }
  }

  lemma NewRecordKeepsRecords(w: World, v: World, n: Recorded)
    requires RecordsTrue(w) && RecordAdded(w, v, n)
    ensures RecordsTrue(v)
  {
    RecordsStayKept(w, v, n);
    RowsStayRecorded(w, v, n);
    hide NewRecord, RecordOf, InWindow;
    forall i | 0 <= i < |w.past.records| && w.past.records[i].auth.terms == n.auth.terms
      ensures n.latest >= n.auth.terms.notAfter + SETTLED_KEPT_AFTER
    {
      assert RecordKept(w.rows, w.past, w.past.records[i]);
    }
  }

  lemma CheckedTicketSound(w: World, a: Auth, now: clock)
    requires RecordsTrue(StepVerify(w, a, now)) && Check(w.rows, a, now).0.None?
    ensures var v := StepVerify(w, a, now);
            a.terms.payer in w.rows.held && TicketSound(v.rows, v.past, Ticket(a, now, w.rows.held[a.terms.payer]))
  {
    var v := StepVerify(w, a, now);
    CheckReason(w.rows, a, now);
    CheckWritesRecordsOnly(w.rows, a, now);
    WindowTooLongIsExact(a.terms.issuedAt, a.terms.notAfter);
    hide Check, WindowTooLong, KeyValid, InWindow, RecordKept;
    if RecordSaysTip(v.rows, a) {
      var r :| r in v.past.records && RecordOf(r, a.terms, v.rows.firstVerify[a.terms]);
      assert FoundAtTip(r, a);
    }
  }

  lemma TicketStaysSound(l: Rows, p: Past, l': Rows, p': Past, t: Ticket)
    requires TicketSound(l, p, t)
    requires l'.hub == l.hub && l'.clockSkew == l.clockSkew
    requires forall q :: q in l.held ==> q in l'.held && l.held[q] <= l'.held[q]
    requires forall r :: r in p.records ==> r in p'.records
    ensures TicketSound(l', p', t)
  {
  }

  lemma VerifyGrows(w: World, a: Auth, now: clock)
    ensures var v := StepVerify(w, a, now);
            && v.rows == w.rows.(firstVerify := v.rows.firstVerify)
            && v.past.latest >= w.past.latest
            && (forall r :: r in w.past.records ==> r in v.past.records)
            && (Check(w.rows, a, now).0.Some? ==> v.past.tickets == w.past.tickets)
            && (Check(w.rows, a, now).0.None? ==>
                  && a.terms.payer in w.rows.held
                  && v.past.tickets == w.past.tickets + {Ticket(a, now, w.rows.held[a.terms.payer])})
  {
    CheckWritesRecordsOnly(w.rows, a, now);
    if Check(w.rows, a, now).0.None? {
      CheckReason(w.rows, a, now);
    }
  }

  lemma VerifyKeepsTickets(w: World, a: Auth, now: clock)
    requires TicketsSound(w) && RecordsTrue(w)
    ensures TicketsSound(StepVerify(w, a, now))
  {
    var v := StepVerify(w, a, now);
    VerifyKeepsRecords(w, a, now);
    VerifyGrows(w, a, now);
    forall t | t in v.past.tickets ensures TicketSound(v.rows, v.past, t) {
      if t in w.past.tickets {
        TicketStaysSound(w.rows, w.past, v.rows, v.past, t);
      } else {
        CheckedTicketSound(w, a, now);
      }
    }
  }

  // ---- every other step ----

  // What a step other than Verify leaves for the tickets and the records.
  predicate OnlyGrows(w: World, v: World) {
    && v.rows.hub == w.rows.hub && v.rows.clockSkew == w.rows.clockSkew
    && v.past.tickets == w.past.tickets && v.past.records == w.past.records
    && v.past.latest >= w.past.latest
    && (forall p :: p in w.rows.held ==> p in v.rows.held && w.rows.held[p] <= v.rows.held[p])
    && (forall id :: id in v.rows.firstVerify ==>
         id in w.rows.firstVerify && v.rows.firstVerify[id] == w.rows.firstVerify[id])
    && (forall id :: id in w.rows.firstVerify && id !in v.rows.firstVerify ==>
         v.past.latest >= w.rows.firstVerify[id].deleteAfter)
  }

  lemma SettleOnlyGrows(w: World, t: Ticket, bind: string, via: Via, now: clock)
    ensures OnlyGrows(w, StepSettle(w, t, bind, via, now))
  {
  }

  lemma ClearOnlyGrows(w: World, peer: Aid, rec: Receipt, now: clock)
    ensures OnlyGrows(w, StepClear(w, peer, rec, now))
  {
  }

  lemma HistoryOnlyGrows(w: World, aid: Aid, kel: Kel, register: bool)
    ensures OnlyGrows(w, w.(rows := TakeKel(w.rows, aid, kel, register)))
  {
  }

  lemma OtherStepsOnlyGrow(w: World, op: Op)
    requires Enabled(w, op) && !op.Verify?
    ensures OnlyGrows(w, Step(w, op))
  {
    if op.Settle? {
      SettleOnlyGrows(w, op.ticket, op.bind, op.via, op.now);
    } else if op.Clear? {
      ClearOnlyGrows(w, op.peer, op.rec, op.now);
    } else if op.History? {
      HistoryOnlyGrows(w, op.aid, op.kel, op.register);
    }
  }

  lemma GrowthKeepsRecords(w: World, v: World)
    requires RecordsTrue(w) && OnlyGrows(w, v)
    ensures RecordsTrue(v)
  {
  }

  lemma GrowthKeepsTickets(w: World, v: World)
    requires TicketsSound(w) && OnlyGrows(w, v)
    ensures TicketsSound(v)
  {
  }

  // ---- debits and bindings ----

  // What a settlement that moves credit does to the rows that guard against
  // another: d is what it adds to the past.
  predicate Debited(w: World, v: World, d: Debit) {
    && IdOf(d) !in w.rows.settled && !GuardLive(w.rows, d.guard, d.now)
    && v.rows.clockSkew == w.rows.clockSkew && v.past.tickets == w.past.tickets
    && v.rows.settled == w.rows.settled[IdOf(d) := Settled(ReceiptFor(IdOf(d), d.now), d.guard, d.via)]
    && v.rows.guards == (if d.guard.Some? then w.rows.guards[d.guard.value := d.now + GUARD_KEPT] else w.rows.guards)
    && v.past.debits == w.past.debits + [d]
    && v.past.latest == Max(w.past.latest, d.now) && d.latest == v.past.latest
  }

  lemma SettleDebits(w: World, t: Ticket, bind: string, via: Via, now: clock)
    ensures var v := StepSettle(w, t, bind, via, now);
            || v == World(w.rows, Reading(w.past, now))
            || Debited(w, v, Debit(t, GuardOf(t.auth.terms, bind), via, now, Max(w.past.latest, now)))
  {
  }

  // When the same authorization was debited before, its row has gone, so the clock
  // has read at least 7 days past the NotAfter this step's check was inside of.
  lemma RepeatedDebitIsLate(w: World, v: World, d: Debit)
    requires DebitsOnce(w) && TicketsSound(w) && d.ticket in w.past.tickets && Debited(w, v, d)
    ensures forall e :: e in w.past.debits && IdOf(e) == IdOf(d) ==> LateRepeat(d, w.rows.clockSkew)
  {
    hide KeyValid;
    forall e | e in w.past.debits && IdOf(e) == IdOf(d) ensures LateRepeat(d, w.rows.clockSkew) {
      assert DebitBehind(w.rows, w.past, e);
      assert TicketSound(w.rows, w.past, d.ticket);
    }
  }

  lemma DebitKeepsRows(w: World, v: World, d: Debit)
    requires DebitsOnce(w) && Debited(w, v, d)
    ensures forall id :: id in v.rows.settled ==> exists e :: e in v.past.debits && SameRow(e, id, v.rows.settled[id])
  {
    hide DebitBehind, LateRepeat;
    forall id | id in v.rows.settled ensures exists e :: e in v.past.debits && SameRow(e, id, v.rows.settled[id]) {
      if id == IdOf(d) {
        assert d in v.past.debits && SameRow(d, id, v.rows.settled[id]);
      } else {
        var e :| e in w.past.debits && SameRow(e, id, w.rows.settled[id]);
        assert e in v.past.debits;
      }
    }
  }

  lemma DebitStaysBehind(w: World, v: World, d: Debit)
    requires DebitsOnce(w) && d.ticket in w.past.tickets && Debited(w, v, d)
    ensures forall e :: e in v.past.debits ==> DebitBehind(v.rows, v.past, e) && e.ticket in v.past.tickets
  {
    hide SameRow, LateRepeat;
    forall e | e in v.past.debits ensures DebitBehind(v.rows, v.past, e) && e.ticket in v.past.tickets {
      assert e == d || DebitBehind(w.rows, w.past, e);
    }
  }

  // The one step that adds a debit.
  lemma DebitKeepsDebitsOnce(w: World, v: World, d: Debit)
    requires DebitsOnce(w) && TicketsSound(w) && d.ticket in w.past.tickets && Debited(w, v, d)
    ensures DebitsOnce(v)
  {
    RepeatedDebitIsLate(w, v, d);
    DebitKeepsRows(w, v, d);
    DebitStaysBehind(w, v, d);
    hide DebitBehind, SameRow, LateRepeat, TicketsSound;
  }

  lemma DebitKeepsGuards(w: World, v: World, d: Debit)
    requires GuardsHold(w) && Debited(w, v, d)
    ensures GuardsHold(v)
  {
    forall i | 0 <= i < |w.past.debits| && w.past.debits[i].guard == d.guard && d.guard.Some?
      ensures d.latest >= w.past.debits[i].now + GUARD_KEPT
    {
      assert GuardBehind(w.rows, w.past, w.past.debits[i]);
    }
    forall e | e in v.past.debits ensures GuardBehind(v.rows, v.past, e) {
      assert e == d || GuardBehind(w.rows, w.past, e);
    }
  }

  // A step that adds no debit and deletes only rows past their time.
  predicate RowsOnlyExpire(w: World, v: World) {
    && v.rows.clockSkew == w.rows.clockSkew && v.past.debits == w.past.debits
    && v.past.latest >= w.past.latest
    && (forall t :: t in w.past.tickets ==> t in v.past.tickets)
    && (forall id :: id in v.rows.settled ==> id in w.rows.settled && v.rows.settled[id] == w.rows.settled[id])
    && (forall id :: id in w.rows.settled && id !in v.rows.settled ==>
         v.past.latest >= id.notAfter + SETTLED_KEPT_AFTER)
    && (forall g :: g in w.rows.guards && g !in v.rows.guards ==> v.past.latest >= w.rows.guards[g])
    && (forall g :: g in w.rows.guards && g in v.rows.guards ==> v.rows.guards[g] == w.rows.guards[g])
  }

  lemma SameDebits(w: World, v: World)
    requires DebitsOnce(w) && GuardsHold(w) && RowsOnlyExpire(w, v)
    ensures DebitsOnce(v) && GuardsHold(v)
  {
  }

  lemma SettleKeepsDebits(w: World, t: Ticket, bind: string, via: Via, now: clock)
    requires t in w.past.tickets && TicketsSound(w) && DebitsOnce(w) && GuardsHold(w)
    ensures DebitsOnce(StepSettle(w, t, bind, via, now)) && GuardsHold(StepSettle(w, t, bind, via, now))
  {
    var v := StepSettle(w, t, bind, via, now);
    var d := Debit(t, GuardOf(t.auth.terms, bind), via, now, Max(w.past.latest, now));
    SettleDebits(w, t, bind, via, now);
    if Debited(w, v, d) {
      DebitKeepsDebitsOnce(w, v, d);
      DebitKeepsGuards(w, v, d);
    } else {
      SameDebits(w, v);
    }
  }

  lemma VerifyExpires(w: World, a: Auth, now: clock)
    ensures RowsOnlyExpire(w, StepVerify(w, a, now))
  {
    CheckWritesRecordsOnly(w.rows, a, now);
    hide Check;
  }

  lemma ClearExpires(w: World, peer: Aid, rec: Receipt, now: clock)
    ensures RowsOnlyExpire(w, StepClear(w, peer, rec, now))
  {
  }

  lemma SweepExpires(w: World, now: clock)
    ensures RowsOnlyExpire(w, World(Prune(w.rows, now), Reading(w.past, now)))
  {
  }

  lemma OtherStepsExpire(w: World, op: Op)
    requires Enabled(w, op) && !op.Settle?
    ensures RowsOnlyExpire(w, Step(w, op))
  {
    if op.Verify? {
      VerifyExpires(w, op.auth, op.now);
    } else if op.Clear? {
      ClearExpires(w, op.peer, op.rec, op.now);
    } else if op.Sweep? {
      SweepExpires(w, op.now);
    }
  }

  // ---- peers' receipts ----

  lemma ClearKeepsCredits(w: World, peer: Aid, rec: Receipt, now: clock)
    requires CreditsOnce(w)
    ensures CreditsOnce(StepClear(w, peer, rec, now))
  {
  }

  predicate ClearedOnlyExpire(w: World, v: World) {
    && v.past.credits == w.past.credits && v.past.latest >= w.past.latest
    && (forall id :: id in w.rows.cleared ==>
         || v.past.latest >= w.rows.cleared[id] + CLEARED_KEPT_AFTER
         || (id in v.rows.cleared && v.rows.cleared[id] == w.rows.cleared[id]))
  }

  lemma SameCredits(w: World, v: World)
    requires CreditsOnce(w) && ClearedOnlyExpire(w, v)
    ensures CreditsOnce(v)
  {
  }

  lemma OtherStepsKeepCleared(w: World, op: Op)
    requires Enabled(w, op) && !op.Clear?
    ensures ClearedOnlyExpire(w, Step(w, op))
  {
    if op.Verify? {
      CheckWritesRecordsOnly(w.rows, op.auth, op.now);
    } else if op.Settle? {
      assert ClearedOnlyExpire(w, StepSettle(w, op.ticket, op.bind, op.via, op.now));
    }
  }

  // ---- every run ----

  lemma StepKeepsInv(w: World, op: Op)
    requires Enabled(w, op) && Inv(w)
    ensures Inv(Step(w, op))
  {
    var v := Step(w, op);
    if op.Settle? {
      assert TicketSound(w.rows, w.past, op.ticket);
    }
    StepKeepsSolvent(w, op);
    StepKeepsEntries(w, op);
    if op.Verify? {
      VerifyKeepsRecords(w, op.auth, op.now);
      VerifyKeepsTickets(w, op.auth, op.now);
    } else {
      OtherStepsOnlyGrow(w, op);
      GrowthKeepsRecords(w, v);
      GrowthKeepsTickets(w, v);
    }
    if op.Settle? {
      SettleKeepsDebits(w, op.ticket, op.bind, op.via, op.now);
    } else {
      OtherStepsExpire(w, op);
      SameDebits(w, v);
    }
    if op.Clear? {
      ClearKeepsCredits(w, op.peer, op.rec, op.now);
    } else {
      OtherStepsKeepCleared(w, op);
      SameCredits(w, v);
    }
  }

  lemma {:induction false} RunKeepsInv(w: World, ops: seq<Op>)
    requires Inv(w)
    ensures Inv(Run(w, ops))
    decreases |ops|
  {
    if ops != [] {
      if Enabled(w, ops[0]) {
        StepKeepsInv(w, ops[0]);
      }
      RunKeepsInv(if Enabled(w, ops[0]) then Step(w, ops[0]) else w, ops[1..]);
    }
  }

  lemma StartInv(hub: Aid, clockSkew: nat, maxSkew: nat, now: clock)
    ensures Inv(Start(hub, clockSkew, maxSkew, now))
  {
  }
}
