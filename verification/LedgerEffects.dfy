// What each transaction of the ledger does to the accounts, and exactly when it does it.
module LedgerEffects {
  import opened Basics
  import opened Sums
  import opened Amounts
  import opened Ledger
  import opened LedgerRuns
  import opened LedgerPromises

  // Nothing but the accounts, the totals, what is due, and the record of the settlement.
  predicate OnlyMoney(l: Rows, l': Rows) {
    && l'.hub == l.hub && l'.clockSkew == l.clockSkew && l'.maxSkew == l.maxSkew
    && l'.held == l.held && l'.registered == l.registered && l'.firstVerify == l.firstVerify
    && l'.cleared == l.cleared && l'.statements == l.statements && l'.owed == l.owed && l'.issued == l.issued
  }

  // amount leaves one account for another, which may be the same one; no other changes.
  ghost predicate Moves(was: map<Aid, int>, now: map<Aid, int>, from: Aid, to: Aid, amount: int) {
    forall a {:trigger Get(now, a)} {:trigger Get(was, a)} ::
      Get(now, a) == Get(was, a) - (if a == from then amount else 0) + (if a == to then amount else 0)
  }

  // The payment of an authorization: for this hub's own caller the payee is credited, and
  // the credit leaves circulation only when the payee is the hub; for a peer, this hub's
  // own row is, which is then due to the peer.
  ghost predicate Pays(l: Rows, l': Rows, id: Terms, via: Via) {
    && OnlyMoney(l, l')
    && match via
       case None =>
         && Moves(l.balance, l'.balance, id.payer, id.payTo, id.amount)
         && l'.redeemed == l.redeemed + (if id.payTo == l.hub then id.amount else 0)
         && l'.due == l.due
       case Some(peer) =>
         && Moves(l.balance, l'.balance, id.payer, l.hub, id.amount)
         && l'.redeemed == l.redeemed + id.amount
         && (forall p {:trigger Get(l'.due, p)} ::
               Get(l'.due, p) == Get(l.due, p) + if p == peer then id.amount else 0)
  }

  lemma SpentPays(l: Rows, id: Terms, via: Via)
    ensures Pays(l, Spent(l, id, via), id, via)
  {
  }

  lemma MovedPays(l: Rows, id: Terms, bind: string, via: Via, now: clock)
    ensures Pays(l, Moved(l, id, bind, via, now), id, via)
  {
    SpentPays(l, id, via);
    hide Spent, Moves;
  }

  // A new settlement pays, and is recorded under its id and its binding; anything else
  // answered changes nothing.
  lemma SettlementPays(l: Rows, id: Terms, bind: string, via: Via, now: clock)
    ensures var (answer, l') := SettleAuth(l, id, bind, via, now);
            if answer.Success? && !answer.replayed then
              && answer.receipt == Receipt(id, id.payer, id.payTo, id.amount, id.network, now)
              && Pays(l, l', id, via) && Get(l.balance, id.payer) >= id.amount > 0
              && (via.None? <==> id.payTo == l.hub || id.payTo in l.registered)
              && id !in l.settled && id in l'.settled && l'.settled - {id} == l.settled
              && l'.settled[id].receipt == answer.receipt && l'.settled[id].via == via
              && (bind == "" ==> l'.guards == l.guards)
              && (bind != "" ==> l'.guards == l.guards[(id.payer, bind) := now + GUARD_KEPT])
            else l' == l
  {
    SettlesExactlyWhenDue(l, id, bind, via, now);
    MovedPays(l, id, bind, via, now);
    var (answer, l') := SettleAuth(l, id, bind, via, now);
    hide Spent, Pays, HasNul;
    if answer.Success? && !answer.replayed {
      assert l'.settled - {id} == l.settled;
    }
  }

  // Why a settlement of an authorization with no settled row is refused, the first of these
  // that holds: its amount is not one a row can hold, its binding cannot be one, its binding
  // is held, its payer lacks the credit, its payee is not where the caller says.
  lemma RefusedExactly(l: Rows, id: Terms, bind: string, via: Via, now: clock)
    requires id !in l.settled
    ensures var answer := SettleAuth(l, id, bind, via, now).0; var g := (id.payer, bind);
            var badAmount := !(0 < id.amount <= MAX_INT64);
            var badBinding := bind != "" && '\0' in bind;
            var bound := bind != "" && g in l.guards && now < l.guards[g];
            var short := Get(l.balance, id.payer) < id.amount;
            var here := id.payTo == l.hub || id.payTo in l.registered;
            && (answer == Refused(InvalidAmount) <==> badAmount)
            && (answer == Refused(Malformed) <==> !badAmount && badBinding)
            && (answer == Refused(DuplicateBinding) <==> !badAmount && !badBinding && bound)
            && (answer == Refused(InsufficientFunds) <==> !badAmount && !badBinding && !bound && short)
            && (answer == Refused(PayeeNotLocal) <==>
                  !badAmount && !badBinding && !bound && !short && via.None? && !here)
            && (answer == Refused(PayeeMismatch) <==>
                  !badAmount && !badBinding && !bound && !short && via.Some? && here)
  {
    hide Moved, ReceiptFor;
  }

  // In every reached world, what the entries say of the payer and the payee moves by the
  // amount, as their accounts do.
  lemma PaymentIsWritten(w: World, t: Ticket, bind: string, via: Via, now: clock, aid: Aid)
    requires Reached(w) && Enabled(w, Settle(t, bind, via, now))
    requires SettlementDue(w.rows, t.auth.terms, bind, via, now)
    ensures var v := Step(w, Settle(t, bind, via, now)); var id := t.auth.terms;
            var to := if via.Some? then w.rows.hub else id.payTo;
            && Get(v.rows.balance, aid) == EntrySum(v.past.written, aid)
            && EntrySum(v.past.written, aid) ==
                 EntrySum(w.past.written, aid)
                 - (if aid == id.payer then id.amount else 0) + (if aid == to then id.amount else 0)
            && v.past.debits == w.past.debits + [v.past.debits[|w.past.debits|]]
            && IdOf(v.past.debits[|w.past.debits|]) == id
  {
    var id := t.auth.terms;
    ReachedInv(w);
    SettlesExactlyWhenDue(w.rows, id, bind, via, now);
    SettlementPays(w.rows, id, bind, via, now);
    BalanceIsEntries(w, aid);
    SettleKeepsEntries(w, t, bind, via, now);
    BalanceIsEntries(StepSettle(w, t, bind, via, now), aid);
    hide Inv, EntrySum, SettlementDue;
  }

  // A grant is made exactly when it is more than nothing and within the room for issuing;
  // it credits the account out of the hub's own row.
  lemma GrantCredits(l: Rows, aid: Aid, amount: int64)
    requires aid != l.hub
    ensures var (refused, l') := Issue(l, aid, amount);
            && (refused.None? <==> amount > 0 && l.issued + amount <= MAX_INT64)
            && (if refused.None? then
                  && Moves(l.balance, l'.balance, l.hub, aid, amount)
                  && l' == l.(balance := l'.balance, issued := l.issued + amount)
                else l' == l)
  {
  }

  // A receipt that is credited moves its amount from the hub's own row to the payee, and is
  // owed by the peer; any other changes nothing.
  lemma ReceiptCredits(l: Rows, peer: Aid, rec: Receipt, now: clock)
    ensures var (outcome, l') := ClearFromPeer(l, peer, rec, now);
            if CreditDue(l, peer, rec, now) then
              && outcome.Credited? && Moves(l.balance, l'.balance, l.hub, rec.payTo, rec.amount)
              && l' == l.(balance := l'.balance, owed := l'.owed, issued := l.issued + rec.amount,
                          cleared := l.cleared[rec.authId := rec.settleAt])
              && forall p {:trigger Get(l'.owed, p)} ::
                   Get(l'.owed, p) == Get(l.owed, p) + if p == peer then rec.amount else 0
            else l' == l && !outcome.Credited?
  {
    CreditsExactlyWhenDue(l, peer, rec, now);
  }

  // A statement is answered yes exactly when it is the peer's, to this hub, for an amount a
  // row can hold, and was applied before or is for no more than is owed; so a repeat of one
  // applied is yes. Only a new one changes anything: what that peer owes.
  lemma StatementAnswered(l: Rows, peer: Aid, st: Statement)
    ensures var (ok, l') := SettleOwed(l, peer, st);
            var valid := 0 < st.amount <= MAX_INT64 && st.payer == peer && st.payTo == l.hub;
            && (ok <==> valid && (st.id in l.statements || st.amount <= Get(l.owed, peer)))
            && (ok ==> st.id in l'.statements)
            && (if ok && st.id !in l.statements then
                  && l' == l.(owed := l'.owed, statements := l.statements + {st.id})
                  && forall p {:trigger Get(l'.owed, p)} ::
                       Get(l'.owed, p) == Get(l.owed, p) - if p == peer then st.amount else 0
                else l' == l)
  {
  }

  // So delivered again, at any later time, a statement that was applied is still answered
  // yes, whatever else happened, and nothing changes.
  lemma {:induction false} AppliedStays(w: World, ops: seq<Op>, peer: Aid, st: Statement)
    requires 0 < st.amount <= MAX_INT64 && st.payer == peer && st.payTo == w.rows.hub && st.id in w.rows.statements
    ensures var l := Run(w, ops).rows; SettleOwed(l, peer, st) == (true, l)
    decreases |ops|
  {
    hide Step, Enabled;
    if ops != [] {
      if Enabled(w, ops[0]) {
        StatementsStay(w, ops[0]);
      }
      AppliedStays(if Enabled(w, ops[0]) then Step(w, ops[0]) else w, ops[1..], peer, st);
    }
  }

  lemma StatementsStay(w: World, op: Op)
    requires Enabled(w, op)
    ensures Step(w, op).rows.hub == w.rows.hub && w.rows.statements <= Step(w, op).rows.statements
  {
    if op.Verify? {
      CheckWritesRecordsOnly(w.rows, op.auth, op.now);
    } else if op.Settle? {
      SettlementPays(w.rows, op.ticket.auth.terms, op.bind, op.via, op.now);
    } else if op.Clear? {
      ReceiptCredits(w.rows, op.peer, op.rec, op.now);
    }
    hide Check, SettleAuth, ClearFromPeer;
  }

  // What is due to a peer is written off exactly when it is more than nothing and no more
  // than is due; nothing else changes.
  lemma DueIsWrittenOff(l: Rows, peer: Aid, amount: int64)
    ensures var (ok, l') := DischargeDue(l, peer, amount);
            && (ok <==> 0 < amount <= Get(l.due, peer))
            && (if ok then
                  && l' == l.(due := l'.due)
                  && forall p {:trigger Get(l'.due, p)} ::
                       Get(l'.due, p) == Get(l.due, p) - if p == peer then amount else 0
                else l' == l)
  {
  }

  // ---- the check ----

  // Whether an authorization may settle now: it is for a movement a row can hold, on this
  // hub's ledger, by an agent of this hub whose history is held, valid for no longer than a
  // day and now, and signed under a key valid when it is dated; and that key is valid now,
  // or was the active tip at the first verification, which this may be.
  predicate MaySettle(l: Rows, a: Auth, now: clock) {
    var t := a.terms;
    && 0 < t.amount <= MAX_INT64 && t.network == l.hub
    && t.payer in l.registered && t.payer in l.held
    && 0 < t.issuedAt < t.notAfter <= t.issuedAt + DAY
    && t.issuedAt - l.clockSkew <= now <= t.notAfter + l.clockSkew
    && var kel := l.held[t.payer];
       && a.signed && KeyValid(kel, a.keyState, t.issuedAt)
       && (|| KeyValid(kel, a.keyState, now)
           || (t !in l.firstVerify && a.keyState == |kel| - 1)
           || (t in l.firstVerify && var row := l.firstVerify[t];
                 row.tip && row.payer == t.payer && row.keyState == a.keyState))
  }

  lemma ChecksExactly(l: Rows, a: Auth, now: clock)
    ensures Check(l, a, now).0.None? <==> MaySettle(l, a, now)
  {
    WindowTooLongIsExact(a.terms.issuedAt, a.terms.notAfter);
    hide WindowTooLong;
    if a.terms.payer in l.held && a.keyState < |l.held[a.terms.payer]| {
      var kel := l.held[a.terms.payer];
      assert kel[..a.keyState + 1][a.keyState] == kel[a.keyState];
    }
  }

  // Why an authorization may not settle, the first of these that holds.
  lemma CheckRefusedExactly(l: Rows, a: Auth, now: clock)
    ensures var t, why := a.terms, Check(l, a, now).0;
            var badAmount := !(0 < t.amount <= MAX_INT64);
            var tooLong := t.notAfter - t.issuedAt > DAY;
            var elsewhere := t.network != l.hub;
            var unknown := t.payer !in l.registered || t.payer !in l.held;
            var early := badAmount || tooLong || elsewhere || unknown;
            var noWindow := !(0 < t.issuedAt < t.notAfter);
            var unsigned := !early && (!a.signed || !KeyValid(l.held[t.payer], a.keyState, t.issuedAt));
            var outside := now < t.issuedAt - l.clockSkew || now > t.notAfter + l.clockSkew;
            && (why == Some(InvalidAmount) <==> badAmount)
            && (why == Some(AuthWindowTooLong) <==> !badAmount && tooLong)
            && (why == Some(NetworkMismatch) <==> !badAmount && !tooLong && elsewhere)
            && (why == Some(UnknownPayer) <==> !badAmount && !tooLong && !elsewhere && unknown)
            && (why == Some(ExpiredPayment) <==> !early && (noWindow || (!unsigned && outside)))
            && (why == Some(InvalidSignature) <==>
                  && !early && !noWindow
                  && (unsigned || (!outside && !MaySettle(l, a, now))))
  {
    WindowTooLongIsExact(a.terms.issuedAt, a.terms.notAfter);
    ChecksExactly(l, a, now);
    hide WindowTooLong, MaySettle, WithRecord, TipAtFirst, KeyValid;
  }

  // A first verification is recorded exactly when the authorization is verified and its
  // window and key are as they must be whatever became of the key since, nothing is recorded
  // of it, and its payer keeps fewer than 5000 records, or 20 while it lacks the credit;
  // whether the key was the active tip is recorded with it.
  lemma RecordedExactly(l: Rows, a: Auth, now: clock)
    ensures var t, l' := a.terms, Check(l, a, now).1;
            var recorded :=
              && VerifiedAuth(l, a).None? && t.issuedAt - l.clockSkew <= now <= t.notAfter + l.clockSkew
              && t !in l.firstVerify && |RecordsOf(l, t.payer)| < 5000
              && (Get(l.balance, t.payer) < t.amount ==> |RecordsOf(l, t.payer)| < 20);
            if recorded then
              l' == l.(firstVerify := l.firstVerify[t := FirstVerify(
                         t.payer, a.keyState, a.keyState == |l.held[t.payer]| - 1, FirstVerifyDeleteAfter(t.notAfter))])
            else l' == l
  {
    if VerifiedAuth(l, a).None? {
      var kel := l.held[a.terms.payer];
      assert kel[..a.keyState + 1][a.keyState] == kel[a.keyState];
    }
    hide WindowTooLong, RecordsOf;
  }

  // A whole request on this hub's ledger settles anew exactly when its authorization may
  // settle and is due, and then it pays.
  lemma RequestSettlesExactly(l: Rows, a: Auth, via: Via, now: clock)
    ensures var (answer, l') := Request(l, a, via, now);
            && (answer.Success? && !answer.replayed <==>
                  MaySettle(l, a, now) && SettlementDue(l, a.terms, a.terms.interaction, via, now))
            && (answer.Success? && !answer.replayed ==>
                  && Pays(l.(firstVerify := l'.firstVerify), l', a.terms, via) && a.terms in l'.settled
                  && answer.receipt == ReceiptFor(a.terms, now))
            && (VerifiedAuth(l, a).Some? || (a.terms !in l.settled && !MaySettle(l, a, now)) ==>
                  Check(l, a, now).0.Some? && answer == Refused(Check(l, a, now).0.value))
            && (MaySettle(l, a, now) && a.terms !in l.settled ==>
                  answer == SettleAuth(l, a.terms, a.terms.interaction, via, now).0)
  {
    ChecksExactly(l, a, now);
    CheckWritesRecordsOnly(l, a, now);
    SameAnswer(l, Check(l, a, now).1, a.terms, a.terms.interaction, via, now);
    var l1 := Check(l, a, now).1;
    SettlementPays(l1, a.terms, a.terms.interaction, via, now);
    SettlesExactlyWhenDue(l1, a.terms, a.terms.interaction, via, now);
    RepeatedIsNotDue(l, a.terms, via);
    PassedIsVerified(l, a, now);
    hide Check, SettleAuth, MaySettle, VerifiedAuth;
  }

  lemma RepeatedIsNotDue(l: Rows, id: Terms, via: Via)
    ensures RepeatOf(l, id, via).Some? <==> id in l.settled
    ensures RepeatOf(l, id, via).Some? && RepeatOf(l, id, via).value.Success? ==> RepeatOf(l, id, via).value.replayed
  {
  }

  lemma PassedIsVerified(l: Rows, a: Auth, now: clock)
    ensures Check(l, a, now).0.None? ==> VerifiedAuth(l, a).None?
    ensures VerifiedAuth(l, a).Some? ==> Check(l, a, now).0 == VerifiedAuth(l, a)
  {
  }

  lemma SameAnswer(l: Rows, l': Rows, id: Terms, bind: string, via: Via, now: clock)
    requires l' == l.(firstVerify := l'.firstVerify)
    ensures SettleAuth(l', id, bind, via, now).0 == SettleAuth(l, id, bind, via, now).0
  {
  }

  // ---- retention ----

  // A janitor's round at now leaves of each table exactly what is not past its time: settled
  // rows and first verifications until 7 days after the authorization's NotAfter, bindings
  // until they end, cleared receipts until 8 days after their date.
  lemma SweepKeepsExactly(w: World, now: clock, id: Terms, g: Guard)
    requires Reached(w)
    ensures var l, l' := w.rows, Step(w, Sweep(now)).rows;
            && (id in l'.settled <==> id in l.settled && now < id.notAfter + 7 * DAY)
            && (id in l'.firstVerify <==> id in l.firstVerify && now < id.notAfter + 7 * DAY)
            && (g in l'.guards <==> g in l.guards && now < l.guards[g])
            && (id in l'.cleared <==> id in l.cleared && now < l.cleared[id] + 8 * DAY)
            && (id in l'.settled ==> l'.settled[id] == l.settled[id])
            && (id in l'.firstVerify ==> l'.firstVerify[id] == l.firstVerify[id])
            && (g in l'.guards ==> l'.guards[g] == l.guards[g])
            && (id in l'.cleared ==> l'.cleared[id] == l.cleared[id])
            && l' == l.(settled := l'.settled, firstVerify := l'.firstVerify, guards := l'.guards,
                        cleared := l'.cleared)
  {
    RecordDeletedAfter(w, id);
    hide Reached;
  }

  lemma RecordDeletedAfter(w: World, id: Terms)
    requires Reached(w)
    ensures id in w.rows.firstVerify ==> w.rows.firstVerify[id].deleteAfter == FirstVerifyDeleteAfter(id.notAfter)
  {
    ReachedInv(w);
    if id in w.rows.firstVerify {
      var r :| r in w.past.records && RecordOf(r, id, w.rows.firstVerify[id]);
    }
  }

  // ---- the registry ----

  // A history is taken exactly when it is not empty, not the hub's own, extends what is held,
  // and registers the agent or is of one that is held; then it is what is held, and a
  // registration makes the agent registered.
  lemma HistoriesTaken(l: Rows, aid: Aid, kel: Kel, register: bool)
    ensures var l' := TakeKel(l, aid, kel, register);
            var taken := aid != l.hub && kel != [] && (if aid in l.held then l.held[aid] <= kel else register);
            if taken then
              && l' == l.(held := l'.held, registered := l'.registered)
              && aid in l'.held && l'.held[aid] == kel && l'.held - {aid} == l.held - {aid}
              && l'.registered == l.registered + (if register then {aid} else {})
            else l' == l
  {
  }

  // Leaving takes the agent out and keeps its history.
  lemma LeavingKeepsHistory(l: Rows, aid: Aid, a: Aid)
    ensures Leave(l, aid) == l.(registered := Leave(l, aid).registered)
    ensures a in Leave(l, aid).registered <==> a in l.registered && a != aid
  {
  }
}
