// What the ledger promises its accounts, about every world a run can reach.
module LedgerPromises {
  import opened Basics
  import opened Sums
  import opened Amounts
  import opened Ledger
  import opened LedgerRuns
  import opened LedgerSafety

  ghost predicate Reached(w: World) {
    exists hub, clockSkew, maxSkew, t0: clock, ops :: w == Run(Start(hub, clockSkew, maxSkew, t0), ops)
  }

  lemma ReachedInv(w: World)
    requires Reached(w)
    ensures Inv(w)
  {
    var hub, clockSkew, maxSkew, t0: clock, ops :| w == Run(Start(hub, clockSkew, maxSkew, t0), ops);
    StartInv(hub, clockSkew, maxSkew, t0);
    RunKeepsInv(Start(hub, clockSkew, maxSkew, t0), ops);
  }

  lemma {:induction false} RunMore(w: World, ops: seq<Op>, op: Op)
    ensures var v := Run(w, ops); Run(w, ops + [op]) == if Enabled(v, op) then Step(v, op) else v
    decreases |ops|
  {
    hide Step, Enabled;
    if ops == [] {
      assert [op][1..] == [];
    } else {
      assert (ops + [op])[1..] == ops[1..] + [op];
      RunMore(if Enabled(w, ops[0]) then Step(w, ops[0]) else w, ops[1..], op);
    }
  }

  lemma ReachedStep(w: World, op: Op)
    requires Reached(w) && Enabled(w, op)
    ensures Reached(Step(w, op))
  {
    hide Step;
    var hub, clockSkew, maxSkew, t0: clock, ops :| w == Run(Start(hub, clockSkew, maxSkew, t0), ops);
    RunMore(Start(hub, clockSkew, maxSkew, t0), ops, op);
  }

  // ---- the books ----

  // The rows add up to nothing, the hub's own row is what was redeemed less what
  // was issued, no account is overdrawn, and every account's balance is the sum of
  // all entries ever written for it; every row, and every total, is an int64.
  lemma BooksBalance(w: World)
    requires Reached(w)
    ensures Sum(w.rows.balance) == 0
    ensures Get(w.rows.balance, w.rows.hub) == w.rows.redeemed - w.rows.issued
    ensures forall a :: a != w.rows.hub ==> Get(w.rows.balance, a) >= 0
    ensures forall a :: Get(w.rows.balance, a) == EntrySum(w.past.written, a)
    ensures forall a :: MIN_INT64 < Get(w.rows.balance, a) <= MAX_INT64
    ensures forall p :: 0 <= Get(w.rows.due, p) <= MAX_INT64 && 0 <= Get(w.rows.owed, p) <= MAX_INT64
    ensures 0 <= w.rows.redeemed <= w.rows.issued <= MAX_INT64
  {
    ReachedInv(w);
    SolventIsInRange(w.rows);
  }

  // Whether a settlement is due: the amount fits a row, the authorization is not settled,
  // its binding is not held, its payer has the credit, and its payee banks here, or, for a
  // peer, does not.
  predicate SettlementDue(l: Rows, id: Terms, bind: string, via: Via, now: int) {
    && 0 < id.amount <= MAX_INT64 && !HasNul(bind) && id !in l.settled
    && (bind == "" || (id.payer, bind) !in l.guards || l.guards[(id.payer, bind)] <= now)
    && id.amount <= Get(l.balance, id.payer)
    && (via.None? <==> id.payTo == l.hub || id.payTo in l.registered)
  }

  lemma SettlesExactlyWhenDue(l: Rows, id: Terms, bind: string, via: Via, now: clock)
    ensures SettlementDue(l, id, bind, via, now) <==>
              SettleAuth(l, id, bind, via, now).0 == Success(ReceiptFor(id, now), false)
    ensures SettlementDue(l, id, bind, via, now) ==> SettleAuth(l, id, bind, via, now).1 == Moved(l, id, bind, via, now)
    ensures !SettlementDue(l, id, bind, via, now) ==> SettleAuth(l, id, bind, via, now).1 == l
  {
    assert bind == "" ==> !HasNul(bind);
  }

  // In a reached world the credit a payer has is what was ever written for it, so a
  // settlement is made exactly when the entries cover it, and the rest is as it should be.
  lemma SettlesWhatTheEntriesCover(w: World, id: Terms, bind: string, via: Via, now: clock)
    requires Reached(w)
    ensures (exists r :: SettleAuth(w.rows, id, bind, via, now).0 == Success(r, false)) <==>
              && 0 < id.amount <= EntrySum(w.past.written, id.payer) && id.amount <= MAX_INT64
              && !HasNul(bind) && id !in w.rows.settled
              && (bind == "" || (id.payer, bind) !in w.rows.guards || w.rows.guards[(id.payer, bind)] <= now)
              && (via.None? <==> id.payTo == w.rows.hub || id.payTo in w.rows.registered)
  {
    ReachedInv(w);
    hide Inv, EntrySum;
    BalanceIsEntries(w, id.payer);
    SettlesExactlyWhenDue(w.rows, id, bind, via, now);
    var answer := SettleAuth(w.rows, id, bind, via, now).0;
    assert answer.Success? ==> answer == Success(answer.receipt, answer.replayed);
  }

  lemma BalanceIsEntries(w: World, aid: Aid)
    requires EntriesExplain(w)
    ensures Get(w.rows.balance, aid) == EntrySum(w.past.written, aid)
  {
  }

  // Whether a peer's receipt is to be credited: it is that peer's, not for this hub
  // itself, settled within the last 7 days, not credited yet, and within the room for
  // issuing.
  predicate CreditDue(l: Rows, peer: Aid, rec: Receipt, now: int) {
    && 0 < rec.amount <= MAX_INT64 && rec.network == peer && rec.payTo != l.hub
    && rec.authId !in l.cleared && now - PEER_RECEIPT_MAX_AGE <= rec.settleAt <= now + l.maxSkew
    && l.issued + rec.amount <= MAX_INT64
  }

  lemma CreditsExactlyWhenDue(l: Rows, peer: Aid, rec: Receipt, now: clock)
    ensures ClearFromPeer(l, peer, rec, now).0.Credited? <==> CreditDue(l, peer, rec, now)
    ensures ClearFromPeer(l, peer, rec, now).0.Credited? ==>
              var l' := ClearFromPeer(l, peer, rec, now).1;
              && Get(l'.balance, rec.payTo) == Get(l.balance, rec.payTo) + rec.amount
              && Get(l'.owed, peer) == Get(l.owed, peer) + rec.amount
              && (forall a :: a != rec.payTo && a != l.hub ==> Get(l'.balance, a) == Get(l.balance, a))
    ensures !ClearFromPeer(l, peer, rec, now).0.Credited? ==> ClearFromPeer(l, peer, rec, now).1 == l
  {
  }

  // ---- one debit per authorization ----

  // A second debit of one authorization needs a clock that has read, by then, at
  // least 7 days less the allowed skew past the reading its window was checked at.
  lemma SecondDebitNeedsAClockStep(w: World, i: nat, j: nat)
    requires Reached(w) && i < j < |w.past.debits|
    requires IdOf(w.past.debits[i]) == IdOf(w.past.debits[j])
    ensures w.past.debits[j].latest - w.past.debits[j].ticket.at >= SETTLED_KEPT_AFTER - w.rows.clockSkew
  {
    ReachedInv(w);
    assert LateRepeat(w.past.debits[j], w.rows.clockSkew);
  }

  // So on a hub whose clock never stepped back that far, and whose requests do
  // not take that long, every authorization debited its payer at most once.
  lemma DebitedAtMostOnce(w: World)
    requires Reached(w)
    requires forall d :: d in w.past.debits ==> d.latest - d.ticket.at < SETTLED_KEPT_AFTER - w.rows.clockSkew
    ensures forall i, j :: 0 <= i < j < |w.past.debits| ==> IdOf(w.past.debits[i]) != IdOf(w.past.debits[j])
  {
    forall i, j | 0 <= i < j < |w.past.debits| ensures IdOf(w.past.debits[i]) != IdOf(w.past.debits[j]) {
      assert w.past.debits[j] in w.past.debits;
      if IdOf(w.past.debits[i]) == IdOf(w.past.debits[j]) {
        SecondDebitNeedsAClockStep(w, i, j);
      }
    }
  }

  // A sweep 7 days past NotAfter, then a clock back inside the window: the check
  // lets the authorization through again.
  lemma PrunedChecksAgain(w: World, a: Auth, swept: clock, now: clock)
    requires VerifiedAuth(w.rows, a).None? && KeyValid(w.rows.held[a.terms.payer], a.keyState, now)
    requires InWindow(w.rows, a.terms, now)
    ensures var s := Step(w, Sweep(swept)); var v := StepVerify(s, a, now);
            && Ticket(a, now, w.rows.held[a.terms.payer]) in v.past.tickets
            && v.rows == Prune(w.rows, swept).(firstVerify := v.rows.firstVerify)
            && v.past.debits == w.past.debits
  {
    var s := Step(w, Sweep(swept));
    assert w.rows.held[a.terms.payer][..a.keyState + 1][a.keyState] == w.rows.held[a.terms.payer][a.keyState];
    assert Check(s.rows, a, now).0.None?;
    VerifyGrows(s, a, now);
  }

  // The bound is exact: any settled payment can be debited again by a clock that reads,
  // for one janitor round, 7 days past its NotAfter and past the end of its binding, and
  // then steps back into the window, when its payer still holds the credit and its key. At
  // the window's end, with no binding, that is a step back of exactly 7 days less the
  // allowed skew. LedgerWitness has such runs.
  lemma SteppedBackClockDebitsAgain(w: World, a: Auth, via: Via, swept: clock, now: clock)
    requires a.terms in w.rows.settled && !HasNul(a.terms.interaction)
    requires VerifiedAuth(w.rows, a).None? && KeyValid(w.rows.held[a.terms.payer], a.keyState, now)
    requires Get(w.rows.balance, a.terms.payer) >= a.terms.amount
    requires (via.None? <==> Local(w.rows, a.terms.payTo)) && via != Some(w.rows.hub)
    requires swept >= a.terms.notAfter + SETTLED_KEPT_AFTER && InWindow(w.rows, a.terms, now)
    requires var g := (a.terms.payer, a.terms.interaction); g in w.rows.guards ==> w.rows.guards[g] <= swept
    ensures var t := Ticket(a, now, w.rows.held[a.terms.payer]); var bind := a.terms.interaction;
            var v := StepVerify(Step(w, Sweep(swept)), a, now);
            && Enabled(v, Settle(t, bind, via, now))
            && var again := Step(v, Settle(t, bind, via, now));
            && var latest := Max(w.past.latest, Max(swept, now));
               again.past.debits == w.past.debits + [Debit(t, GuardOf(a.terms, bind), via, now, latest)]
    ensures now == a.terms.notAfter + w.rows.clockSkew && swept == a.terms.notAfter + SETTLED_KEPT_AFTER ==>
              swept - now == SETTLED_KEPT_AFTER - w.rows.clockSkew
  {
    PrunedChecksAgain(w, a, swept, now);
    var v := StepVerify(Step(w, Sweep(swept)), a, now);
    var id, bind := a.terms, a.terms.interaction;
    assert id !in v.rows.settled && (id.payer, bind) !in v.rows.guards;
    SettlesExactlyWhenDue(v.rows, id, bind, via, now);
    PrunedReads(w, a, swept, now);
  }

  lemma PrunedReads(w: World, a: Auth, swept: clock, now: clock)
    ensures StepVerify(Step(w, Sweep(swept)), a, now).past.latest == Max(Max(w.past.latest, swept), now)
  {
  }

  // ---- a whole request ----

  // SettleWithRequirements and SettleForPeer on this hub's own ledger, once the
  // terms agree with the requirements: verify, answer a repeat, judge the window
  // and the key, settle.
  function Request(l: Rows, a: Auth, via: Via, now: clock): (Answer, Rows) {
    match VerifiedAuth(l, a)
    case Some(reason) => (Refused(reason), l)
    case None =>
      if RepeatOf(l, a.terms, via).Some? then (RepeatOf(l, a.terms, via).value, l)
      else
        match Check(l, a, now)
        case (Some(reason), l') => (Refused(reason), l')
        case (None, l') => SettleAuth(l', a.terms, a.terms.interaction, via, now)
  }

  // A repeat of a charged authorization is answered, as long as its row is kept and
  // whatever became of its window or its key since, with the receipt of the debit
  // to the caller it was settled for, with duplicate_nonce to any other, and moves
  // nothing.
  lemma RepeatAnsweredAndMovesNothing(w: World, a: Auth, via: Via, now: clock)
    requires Reached(w) && VerifiedAuth(w.rows, a).None? && a.terms in w.rows.settled
    ensures Request(w.rows, a, via, now).1 == w.rows
    ensures exists d :: d in w.past.debits && IdOf(d) == a.terms
              && Request(w.rows, a, via, now).0 ==
                 if d.via == via then Success(ReceiptFor(a.terms, d.now), true) else Refused(DuplicateNonce)
  {
    ReachedInv(w);
    var d :| d in w.past.debits && SameRow(d, a.terms, w.rows.settled[a.terms]);
    assert RepeatOf(w.rows, a.terms, via) ==
           Some(if d.via == via then Success(ReceiptFor(a.terms, d.now), true) else Refused(DuplicateNonce));
  }

  // Once its row was deleted, a repeat is refused as expired, unless the clock has
  // stepped back by 7 days less the allowed skew; nothing moves and nothing is
  // recorded.
  lemma RepeatAfterPruningExpired(w: World, a: Auth, via: Via, now: clock, d: Debit)
    requires Reached(w) && VerifiedAuth(w.rows, a).None?
    requires d in w.past.debits && IdOf(d) == a.terms && a.terms !in w.rows.settled
    requires w.past.latest - now < SETTLED_KEPT_AFTER - w.rows.clockSkew
    ensures Request(w.rows, a, via, now) == (Refused(ExpiredPayment), w.rows)
  {
    ReachedInv(w);
    assert DebitBehind(w.rows, w.past, d);
  }

  // ---- the key a payment is judged under ----

  // Every debit was made under an authorization its payer signed, inside its
  // window, with a key state that was valid when the window was checked, or that
  // a first verification here had found to be the active tip.
  lemma DebitKeyJudged(w: World, d: Debit)
    requires Reached(w) && d in w.past.debits
    ensures var a := d.ticket.auth;
            && a.signed && InWindow(w.rows, a.terms, d.ticket.at)
            && a.terms.payer in w.rows.held && d.ticket.kel <= w.rows.held[a.terms.payer]
            && (|| KeyValid(d.ticket.kel, a.keyState, d.ticket.at)
                || exists r :: r in w.past.records && FoundAtTip(r, a) && r.kel <= w.rows.held[a.terms.payer])
  {
    ReachedInv(w);
    assert TicketSound(w.rows, w.past, d.ticket);
    var a := d.ticket.auth;
    if !KeyValid(d.ticket.kel, a.keyState, d.ticket.at) {
      var r :| r in w.past.records && FoundAtTip(r, a);
      assert RecordKept(w.rows, w.past, r);
    }
  }

  // Until the clock has read 7 days past the authorization's NotAfter, there is one
  // record of its first verification.
  lemma OneRecordInTime(w: World, r: Recorded, q: Recorded)
    requires RecordsTrue(w) && r in w.past.records && q in w.past.records && r.auth.terms == q.auth.terms
    requires w.past.latest < r.auth.terms.notAfter + SETTLED_KEPT_AFTER
    ensures r == q
  {
  }

  // A payment once found signed at the tip passes every later check inside its
  // window exactly when its key was still the payer's at the time it is dated:
  // rotating after that time, planned or urgent, never blocks it. (A clock that
  // stepped back 7 days less the skew is excluded, as everywhere.)
  lemma TipRecordHonoured(w: World, r: Recorded, a: Auth, now: clock)
    requires Reached(w) && r in w.past.records && FoundAtTip(r, a)
    requires a.signed && a.terms.payer in w.rows.registered && a.terms.network == w.rows.hub
    requires AmountInt64(a.terms.amount).Some? && !WindowTooLong(a.terms.issuedAt, a.terms.notAfter)
    requires InWindow(w.rows, a.terms, now)
    requires w.past.latest - now < SETTLED_KEPT_AFTER - w.rows.clockSkew
    ensures a.terms.payer in w.rows.held
    ensures Check(w.rows, a, now).0.None? <==> KeyValid(w.rows.held[a.terms.payer], a.keyState, a.terms.issuedAt)
  {
    ReachedInv(w);
    assert RecordKept(w.rows, w.past, r);
    var q :| q in w.past.records && RecordOf(q, a.terms, w.rows.firstVerify[a.terms]);
    OneRecordInTime(w, r, q);
    assert RecordSaysTip(w.rows, a);
    var kel := w.rows.held[a.terms.payer];
    assert r.kel <= kel && kel[a.keyState] == r.kel[a.keyState];
    assert kel[..a.keyState + 1][a.keyState] == kel[a.keyState];
  }

  // ---- bindings and receipts ----

  // Two settlements by one payer for one task: by the second, the clock has read
  // 30 days past the first; on a clock that never steps back they are 30 days apart.
  lemma OneSettlementPerTask(w: World, i: nat, j: nat)
    requires Reached(w) && i < j < |w.past.debits|
    requires w.past.debits[i].guard.Some? && w.past.debits[i].guard == w.past.debits[j].guard
    ensures w.past.debits[j].latest >= w.past.debits[i].now + GUARD_KEPT
    ensures w.past.debits[j].now == w.past.debits[j].latest ==>
              w.past.debits[j].now - w.past.debits[i].now >= GUARD_KEPT
  {
    ReachedInv(w);
  }

  // A peer receipt, whatever int64 its settle time is, credits its payee twice only
  // on a clock that has stepped back a full day by the second time.
  lemma ReceiptCreditedOnce(w: World, i: nat, j: nat)
    requires Reached(w) && i < j < |w.past.credits|
    requires w.past.credits[i].id == w.past.credits[j].id && w.past.credits[i].settleAt == w.past.credits[j].settleAt
    ensures w.past.credits[j].latest - w.past.credits[j].now >= DAY
  {
    ReachedInv(w);
    assert w.past.credits[j] in w.past.credits;
  }
}
