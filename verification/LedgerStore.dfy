// The ledger's transactions, statement by statement: a transaction works on its
// own view of the rows (tx), which becomes the rows only when it commits, so a
// return before that rolls everything back. Each refuses a balance its row cannot
// hold (AddToRow) and each is proved to be the transaction of Ledger, in which no
// such refusal exists: on a solvent ledger none is reached.
module LedgerStore {
  import opened Basics
  import opened Sums
  import opened Amounts
  import opened Ledger
  import opened LedgerRuns
  import opened LedgerRefusals
  import opened LedgerEffects

  // The tables the janitor deletes from, in its order.
  datatype Table = SettledTable | GuardTable | ClearedTable | FirstVerifyTable

  const RETENTION: seq<Table> := [SettledTable, GuardTable, ClearedTable, FirstVerifyTable]

  function Delete(l: Rows, t: Table, now: clock): Rows {
    match t
    case SettledTable => l.(settled := KeptSettled(l.settled, now))
    case GuardTable => l.(guards := KeptGuards(l.guards, now))
    case ClearedTable => l.(cleared := KeptCleared(l.cleared, now))
    case FirstVerifyTable => l.(firstVerify := KeptFirstVerify(l.firstVerify, now))
  }

  // Whether every row a settlement touches can hold what it becomes.
  ghost predicate Fits(balance: map<Aid, int>, due: map<Aid, int>, redeemed: int, hub: Aid,
                       payer: Aid, payTo: Aid, via: Via, amt: int) {
    && (forall a :: a in balance ==> MIN_INT64 <= balance[a] <= MAX_INT64)
    && (forall p :: p in due ==> MIN_INT64 <= due[p] <= MAX_INT64)
    && Get(balance, payer) - amt >= MIN_INT64
    && MIN_INT64 <= Get(Add(balance, payer, -amt), payTo) <= MAX_INT64 - amt
    && MIN_INT64 <= Get(Add(balance, payer, -amt), hub) <= MAX_INT64 - amt
    && redeemed <= MAX_INT64 - amt
    && (via.Some? ==> 0 <= Get(due, via.value) <= MAX_INT64 - amt)
  }

  // On a solvent ledger it can: the payer's row and any other together hold at most
  // what is outstanding.
  lemma SolventFits(l: Rows, payer: Aid, payTo: Aid, via: Via, amt: int)
    requires Solvent(l) && payer != l.hub && 0 < amt <= Get(l.balance, payer)
    ensures Fits(l.balance, l.due, l.redeemed, l.hub, payer, payTo, via, amt)
  {
    SolventIsInRange(l);
    assert Get(l.balance, payer) <= l.issued - l.redeemed;
    assert via.Some? ==> 0 <= Get(l.due, via.value) <= l.redeemed;
    forall a | a in l.balance ensures MIN_INT64 <= l.balance[a] <= MAX_INT64 {
      assert l.balance[a] == Get(l.balance, a);
    }
    forall p | p in l.due ensures MIN_INT64 <= l.due[p] <= MAX_INT64 {
      assert l.due[p] == Get(l.due, p);
    }
    if payTo != payer && payTo != l.hub {
      TwoRowsInRange(l, payer, payTo);
    }
  }

  lemma TwoRowsInRange(l: Rows, a: Aid, b: Aid)
    requires Solvent(l) && a != b && a != l.hub && b != l.hub && a in l.balance
    ensures Get(l.balance, a) + Get(l.balance, b) <= l.issued - l.redeemed
  {
    var rest := l.balance - {l.hub};
    if l.hub in l.balance {
      SumRemove(l.balance, l.hub);
    } else {
      assert l.balance == rest;
    }
    SumRemove(rest, a);
    SumNonNegative(rest - {a});
    if b in l.balance {
      assert b in rest - {a};
    }
  }

  // The movement of credit of settleAuth, once the payee was checked: None when a
  // row or a total cannot hold its new value.
  method MoveCredit(rows: Rows, id: Terms, via: Via) returns (tx: Option<Rows>)
    requires 0 < id.amount <= MAX_INT64 && (via.None? <==> Local(rows, id.payTo))
    requires Fits(rows.balance, rows.due, rows.redeemed, rows.hub, id.payer, id.payTo, via, id.amount)
    ensures tx == Some(Spent(rows, id, via)) && Pays(rows, tx.value, id, via)
  {
    SpentPays(rows, id, via);
    hide Pays;
    var amt: int64 := id.amount;
    var balance, redeemed, due := rows.balance, rows.redeemed, rows.due;
    var moved := AddToRow(balance, id.payer, -amt);
    if moved.None? {
      return None;
    }
    balance := moved.value;
    if id.payTo == rows.hub || id.payTo in rows.registered {
      moved := AddToRow(balance, id.payTo, amt);
      if moved.None? {
        return None;
      }
      balance := moved.value;
    }
    if id.payTo == rows.hub || via.Some? {
      if redeemed > MAX_INT64 - amt {
        return None;
      }
      redeemed := redeemed + amt;
    }
    if via.Some? {
      moved := AddToRow(due, via.value, amt);
      if moved.None? {
        return None;
      }
      due := moved.value;
      moved := AddToRow(balance, rows.hub, amt);
      if moved.None? {
        return None;
      }
      balance := moved.value;
    }
    return Some(rows.(balance := balance, redeemed := redeemed, due := due));
  }

  // ---- the transactions ----

  // settleAuth for an authorization with no settled row: the row, the binding, the
  // payee, the movement.
  method Spend(rows: Rows, id: Terms, bind: string, via: Via, now: clock) returns (answer: Answer, tx: Rows)
    requires AmountInt64(id.amount).Some? && id !in rows.settled
    requires 0 < id.amount <= Get(rows.balance, id.payer) ==>
               Fits(rows.balance, rows.due, rows.redeemed, rows.hub, id.payer, id.payTo, via, id.amount)
    ensures SettleRefusal(rows, id, bind, via, now).Some? ==>
              answer == Refused(SettleRefusal(rows, id, bind, via, now).value) && tx == rows
    ensures SettleRefusal(rows, id, bind, via, now).None? ==>
              answer == Success(ReceiptFor(id, now), false) && tx == Moved(rows, id, bind, via, now)
  {
    var guard := GuardOf(id, bind);
    var settled := rows.settled[id := Settled(ReceiptFor(id, now), guard, via)];
    var guards := rows.guards;
    if guard.Some? {
      if guard.value in guards && !(guards[guard.value] <= now) {
        return Refused(DuplicateBinding), rows;
      }
      guards := guards[guard.value := now + GUARD_KEPT];
    }
    if Get(rows.balance, id.payer) < id.amount {
      return Refused(InsufficientFunds), rows;
    }
    var here := id.payTo == rows.hub || id.payTo in rows.registered;
    if via.None? && !here {
      return Refused(PayeeNotLocal), rows;
    }
    if via.Some? && here {
      return Refused(PayeeMismatch), rows;
    }
    var moved := MoveCredit(rows, id, via);
    if moved.None? {
      return Refused(InvalidAmount), rows;
    }
    return Success(ReceiptFor(id, now), false), moved.value.(settled := settled, guards := guards);
  }

  method SettleTx(rows: Rows, id: Terms, bind: string, via: Via, now: clock) returns (answer: Answer, tx: Rows)
    requires 0 < id.amount <= Get(rows.balance, id.payer) ==>
               Fits(rows.balance, rows.due, rows.redeemed, rows.hub, id.payer, id.payTo, via, id.amount)
    ensures answer == SettleAuth(rows, id, bind, via, now).0
    ensures tx == SettleAuth(rows, id, bind, via, now).1
  {
    var amt := AmountInt64(id.amount);
    if amt.None? {
      return Refused(InvalidAmount), rows;
    }
    if bind != "" && HasNul(bind) {
      return Refused(Malformed), rows;
    }
    if id in rows.settled {
      return RepeatOf(rows, id, via).value, rows;
    }
    answer, tx := Spend(rows, id, bind, via, now);
  }

  method IssueTx(rows: Rows, aid: Aid, amount: int64) returns (refused: Option<Reason>, tx: Rows)
    requires aid != rows.hub && 0 <= rows.issued <= MAX_INT64
    requires Get(rows.balance, rows.hub) >= -rows.issued && 0 <= Get(rows.balance, aid) <= rows.issued
    requires Get(rows.balance, rows.hub) <= 0
    ensures (refused, tx) == Issue(rows, aid, amount)
  {
    if amount <= 0 {
      return Some(SettlementFailed), rows;
    }
    if rows.issued > MAX_INT64 - amount {
      return Some(InvalidAmount), rows;
    }
    var hubRow := AddToRow(rows.balance, rows.hub, -amount);
    if hubRow.None? {
      return Some(InvalidAmount), rows;
    }
    var account := AddToRow(hubRow.value, aid, amount);
    if account.None? {
      return Some(InvalidAmount), rows;
    }
    return None, rows.(balance := account.value, issued := rows.issued + amount);
  }

  method ClearTx(rows: Rows, peer: Aid, rec: Receipt, now: clock) returns (outcome: Clearing, tx: Rows)
    requires 0 <= rows.issued <= MAX_INT64
    requires -rows.issued <= Get(rows.balance, rows.hub) <= 0
    requires rec.payTo != rows.hub ==> 0 <= Get(rows.balance, rec.payTo) <= rows.issued
    requires 0 <= Get(rows.owed, peer) <= rows.issued
    ensures (outcome, tx) == ClearFromPeer(rows, peer, rec, now)
  {
    var amt := AmountInt64(rec.amount);
    if amt.None? {
      return NotCleared(BadAmount), rows;
    }
    if rec.network != peer {
      return NotCleared(OtherLedger), rows;
    }
    if rec.payTo == rows.hub {
      return NotCleared(PaysThisHub), rows;
    }
    if rec.authId in rows.cleared {
      return AlreadyCleared, rows;
    }
    var oldest: int64 := now - PEER_RECEIPT_MAX_AGE;
    if rec.settleAt < oldest || rec.settleAt > now + rows.maxSkew {
      return NotCleared(TooOld), rows;
    }
    var cleared := rows.cleared[rec.authId := rec.settleAt];
    if rows.issued > MAX_INT64 - amt.value {
      return NotCleared(BadAmount), rows;
    }
    var payee := AddToRow(rows.balance, rec.payTo, amt.value);
    if payee.None? {
      return NotCleared(BadAmount), rows;
    }
    var hubRow := AddToRow(payee.value, rows.hub, -amt.value);
    if hubRow.None? {
      return NotCleared(BadAmount), rows;
    }
    var owed := AddToRow(rows.owed, peer, amt.value);
    if owed.None? {
      return NotCleared(BadAmount), rows;
    }
    return Credited, rows.(cleared := cleared, balance := hubRow.value, owed := owed.value,
                           issued := rows.issued + amt.value);
  }

  // ---- the store ----

  class Store {
    var rows: Rows

    constructor (hub: Aid, clockSkew: nat, maxSkew: nat)
      ensures rows == Start(hub, clockSkew, maxSkew, 0).rows && Solvent(rows)
    {
      rows := Rows(hub, clockSkew, maxSkew, map[], {}, map[], map[], map[], map[], {}, map[], map[], 0, 0, map[]);
    }

    method SettleAuth(id: Terms, bind: string, via: Via, now: clock) returns (answer: Answer)
      requires Solvent(rows) && id.payer != rows.hub
      modifies this
      ensures (answer, rows) == Ledger.SettleAuth(old(rows), id, bind, via, now)
      ensures Solvent(rows)
      ensures if answer.Success? && !answer.replayed then Pays(old(rows), rows, id, via) else rows == old(rows)
    {
      SettlementPays(rows, id, bind, via, now);
      hide Pays;
      SettleKeepsSolvent(rows, id, bind, via, now);
      if 0 < id.amount <= Get(rows.balance, id.payer) {
        SolventFits(rows, id.payer, id.payTo, via, id.amount);
      }
      answer, rows := SettleTx(rows, id, bind, via, now);
    }

    method Issue(aid: Aid, amount: int64) returns (refused: Option<Reason>)
      requires Solvent(rows) && aid != rows.hub
      modifies this
      ensures (refused, rows) == Ledger.Issue(old(rows), aid, amount)
      ensures Solvent(rows)
    {
      IssueKeepsSolvent(rows, aid, amount);
      SolventIsInRange(rows);
      refused, rows := IssueTx(rows, aid, amount);
    }

    method ClearFromPeer(peer: Aid, rec: Receipt, now: clock) returns (outcome: Clearing)
      requires Solvent(rows)
      modifies this
      ensures (outcome, rows) == Ledger.ClearFromPeer(old(rows), peer, rec, now)
      ensures Solvent(rows)
    {
      ClearKeepsSolvent(rows, peer, rec, now);
      SolventIsInRange(rows);
      outcome, rows := ClearTx(rows, peer, rec, now);
    }

    method SettleOwed(peer: Aid, st: Statement) returns (ok: bool)
      requires Solvent(rows)
      modifies this
      ensures (ok, rows) == Ledger.SettleOwed(old(rows), peer, st)
      ensures Solvent(rows)
    {
      DischargesKeepSolvent(rows, peer, st, 0);
      var amt := AmountInt64(st.amount);
      if amt.None? || st.payer != peer || st.payTo != rows.hub {
        return false;
      }
      var tx := rows;
      if st.id in tx.statements {
        return true;
      }
      tx := tx.(statements := tx.statements + {st.id});
      if amt.value > Get(tx.owed, peer) {
        return false;
      }
      rows := tx.(owed := tx.owed[peer := tx.owed[peer] - amt.value]);
      return true;
    }

    method DischargeDue(peer: Aid, amount: int64) returns (ok: bool)
      requires Solvent(rows)
      modifies this
      ensures (ok, rows) == Ledger.DischargeDue(old(rows), peer, amount)
      ensures Solvent(rows)
    {
      DischargesKeepSolvent(rows, peer, Statement(0, peer, peer, 0), amount);
      if amount <= 0 {
        return false;
      }
      if peer in rows.due && rows.due[peer] >= amount {
        rows := rows.(due := rows.due[peer := rows.due[peer] - amount]);
        return true;
      }
      return false;
    }

    // recordFirstVerify: the first whole verification of an authorization is recorded,
    // unless one is, or its payer holds as many records as it may.
    method RecordFirstVerify(a: Auth) returns (tip: bool)
      requires a.terms.payer in rows.held && RecordsBounded(rows)
      modifies this
      ensures tip <==> TipAtFirst(old(rows), a)
      ensures rows == WithRecord(old(rows), a) && RecordsBounded(rows)
    {
      RecordBounded(rows, a);
      hide RecordsBounded;
      if a.terms in rows.firstVerify {
        var row := rows.firstVerify[a.terms];
        return row.tip && row.payer == a.terms.payer && row.keyState == a.keyState;
      }
      var kel := rows.held[a.terms.payer];
      tip := a.keyState + 1 == |kel| && kel[a.keyState].active;
      var bal, n := Get(rows.balance, a.terms.payer), |RecordsOf(rows, a.terms.payer)|;
      if (bal < a.terms.amount && n >= MAX_FIRST_VERIFY_UNFUNDED) || n >= MAX_FIRST_VERIFY_PER_PAYER {
        return tip;
      }
      var row := FirstVerify(a.terms.payer, a.keyState, tip, FirstVerifyDeleteAfter(a.terms.notAfter));
      rows := rows.(firstVerify := rows.firstVerify[a.terms := row]);
    }

    // keyAtFirstVerify, for an authorization verifiedAuth accepted.
    method KeyAtFirstVerify(a: Auth, now: clock) returns (refused: Option<Reason>)
      requires VerifiedAuth(rows, a).None? && RecordsBounded(rows)
      modifies this
      ensures (refused, rows) == Check(old(rows), a, now) && RecordsBounded(rows)
    {
      hide RecordsBounded;
      var kel := rows.held[a.terms.payer];
      if !InWindow(rows, a.terms, now) {
        return Some(ExpiredPayment);
      }
      if !KeyValid(kel[..a.keyState + 1], a.keyState, now) {
        return Some(InvalidSignature);
      }
      var tip := RecordFirstVerify(a);
      if tip || KeyValid(kel, a.keyState, now) {
        return None;
      }
      return Some(InvalidSignature);
    }

    method PruneLedgerAt(now: clock)
      requires RecordsBounded(rows)
      modifies this
      ensures rows == Prune(old(rows), now) && RecordsBounded(rows)
    {
      SweepBounded(rows, now);
      hide RecordsBounded;
      ghost var before := rows;
      for i := 0 to |RETENTION|
        invariant rows == before.(
          settled := if i > 0 then KeptSettled(before.settled, now) else before.settled,
          guards := if i > 1 then KeptGuards(before.guards, now) else before.guards,
          cleared := if i > 2 then KeptCleared(before.cleared, now) else before.cleared,
          firstVerify := if i > 3 then KeptFirstVerify(before.firstVerify, now) else before.firstVerify)
      {
        rows := Delete(rows, RETENTION[i], now);
      }
    }
  }
}
