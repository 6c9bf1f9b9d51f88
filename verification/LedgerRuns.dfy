// Whole runs of one hub's ledger: every interleaving of its transactions, with an
// arbitrary clock reading at each, and what every run keeps.
//
// Past is what happened, kept beside the rows because the janitor deletes rows:
// the largest clock reading so far, every entry ever written, every settlement
// that moved credit, every clearing that credited, every check that let an
// authorization go on to settle, and every first verification recorded.
module LedgerRuns {
  import opened Basics
  import opened Sums
  import opened Amounts
  import opened Ledger

  datatype Entry = Entry(aid: Aid, delta: int)
  datatype Debit = Debit(ticket: Ticket, guard: Option<Guard>, via: Via, now: clock, latest: int)
  datatype Credit = Credit(peer: Aid, id: Terms, settleAt: int64, now: int, latest: int)
  datatype Ticket = Ticket(auth: Auth, at: clock, kel: Kel)
  datatype Recorded = Recorded(auth: Auth, kel: Kel, now: clock, latest: int)

  datatype Past = Past(latest: clock, written: seq<Entry>, debits: seq<Debit>, credits: seq<Credit>,
                       tickets: set<Ticket>, records: seq<Recorded>)
  datatype World = World(rows: Rows, past: Past)

  // One transaction. Settle is settleAuth for an authorization a check at
  // checkedAt let through: between the two, anything else may run.
  datatype Op =
    | Grant(aid: Aid, amount: int64)
    | Verify(auth: Auth, now: clock)
    | Settle(ticket: Ticket, bind: string, via: Via, now: clock)
    | Clear(peer: Aid, rec: Receipt, now: clock)
    | Apply(peer: Aid, st: Statement)
    | Discharge(peer: Aid, amount: int64)
    | Sweep(now: clock)
    | History(aid: Aid, kel: Kel, register: bool)
    | Depart(aid: Aid)

  // The binding a settlement is made under: the interaction id, or none for a
  // redemption (Redeem settles without it).
  predicate BindAllowed(l: Rows, id: Terms, bind: string) {
    bind == id.interaction || (bind == "" && id.payTo == l.hub)
  }

  predicate Enabled(w: World, op: Op) {
    match op
    case Grant(aid, _) => aid != w.rows.hub
    case Settle(t, bind, via, _) =>
      t in w.past.tickets && BindAllowed(w.rows, t.auth.terms, bind) && via != Some(w.rows.hub)
    case _ => true
  }

  function Reading(p: Past, now: clock): Past {
    p.(latest := Max(p.latest, now))
  }

  function StepGrant(w: World, aid: Aid, amount: int64): World {
    var (refused, l) := Issue(w.rows, aid, amount);
    if refused.Some? then w
    else World(l, w.past.(written := w.past.written + [Entry(w.rows.hub, -amount), Entry(aid, amount)]))
  }

  function StepVerify(w: World, a: Auth, now: clock): World {
    var (refused, l) := Check(w.rows, a, now);
    var p := Reading(w.past, now);
    var q := if l.firstVerify == w.rows.firstVerify then p
             else p.(records := p.records + [Recorded(a, w.rows.held[a.terms.payer], now, p.latest)]);
    if refused.Some? then World(l, q)
    else World(l, q.(tickets := q.tickets + {Ticket(a, now, w.rows.held[a.terms.payer])}))
  }

  function StepSettle(w: World, t: Ticket, bind: string, via: Via, now: clock): World {
    var id := t.auth.terms;
    var (answer, l) := SettleAuth(w.rows, id, bind, via, now);
    var p := Reading(w.past, now);
    if answer.Success? && !answer.replayed then
      World(l, p.(written := p.written + [Entry(id.payer, -(id.amount as int)),
                                          Entry(CreditedAccount(w.rows, id, via), id.amount)],
                  debits := p.debits + [Debit(t, GuardOf(id, bind), via, now, p.latest)]))
    else World(l, p)
  }

  function StepClear(w: World, peer: Aid, rec: Receipt, now: clock): World {
    var (outcome, l) := ClearFromPeer(w.rows, peer, rec, now);
    var p := Reading(w.past, now);
    if outcome.Credited? then
      World(l, p.(written := p.written + [Entry(rec.payTo, rec.amount), Entry(w.rows.hub, -(rec.amount as int))],
                  credits := p.credits + [Credit(peer, rec.authId, rec.settleAt, now, p.latest)]))
    else World(l, p)
  }

  function Step(w: World, op: Op): World
    requires Enabled(w, op)
  {
    match op
    case Grant(aid, amount) => StepGrant(w, aid, amount)
    case Verify(a, now) => StepVerify(w, a, now)
    case Settle(t, bind, via, now) => StepSettle(w, t, bind, via, now)
    case Clear(peer, rec, now) => StepClear(w, peer, rec, now)
    case Apply(peer, st) => w.(rows := SettleOwed(w.rows, peer, st).1)
    case Discharge(peer, amount) => w.(rows := DischargeDue(w.rows, peer, amount).1)
    case Sweep(now) => World(Prune(w.rows, now), Reading(w.past, now))
    case History(aid, kel, register) => w.(rows := TakeKel(w.rows, aid, kel, register))
    case Depart(aid) => w.(rows := Leave(w.rows, aid))
  }

  // A run: each transaction that can happen happens, in order.
  function Run(w: World, ops: seq<Op>): World
    decreases |ops|
  {
    if ops == [] then w
    else Run(if Enabled(w, ops[0]) then Step(w, ops[0]) else w, ops[1..])
  }

  function Start(hub: Aid, clockSkew: nat, maxSkew: nat, now: clock): World {
    World(Rows(hub, clockSkew, maxSkew, map[], {}, map[], map[], map[], map[], {}, map[], map[], 0, 0, map[]),
          Past(now, [], [], [], {}, []))
  }

  // ---- the books (balances, entries and totals) ----

  function EntrySum(es: seq<Entry>, aid: Aid): int {
    if es == [] then 0
    else EntrySum(es[..|es| - 1], aid) + if es[|es| - 1].aid == aid then es[|es| - 1].delta else 0
  }

  lemma EntrySumTwo(es: seq<Entry>, a: Entry, b: Entry, aid: Aid)
    ensures EntrySum(es + [a, b], aid) ==
            EntrySum(es, aid) + (if a.aid == aid then a.delta else 0) + (if b.aid == aid then b.delta else 0)
  {
    assert (es + [a, b])[..|es| + 1] == es + [a];
    assert (es + [a])[..|es|] == es;
  }

  ghost predicate Solvent(l: Rows) {
    && l.hub !in l.registered && l.hub !in l.held
    && Sum(l.balance) == 0
    && Get(l.balance, l.hub) == l.redeemed - l.issued
    && (forall a :: a in l.balance && a != l.hub ==> l.balance[a] >= 0)
    && 0 <= l.redeemed && 0 <= l.issued <= MAX_INT64
    && (forall p :: p in l.due ==> l.due[p] >= 0) && Sum(l.due) <= l.redeemed
    && (forall p :: p in l.owed ==> l.owed[p] >= 0) && Sum(l.owed) <= l.issued
  }

  ghost predicate EntriesExplain(w: World) {
    forall a :: Get(w.rows.balance, a) == EntrySum(w.past.written, a)
  }

  // What solvency bounds: nothing on the ledger exceeds what was issued, so every
  // row is an int64 and so is what any row becomes when it takes part of it.
  lemma SolventIsInRange(l: Rows)
    requires Solvent(l)
    ensures l.redeemed <= l.issued
    ensures forall a :: MIN_INT64 < Get(l.balance, a) <= MAX_INT64
    ensures forall a :: a != l.hub ==> 0 <= Get(l.balance, a) <= l.issued - l.redeemed
    ensures forall p :: 0 <= Get(l.due, p) <= l.redeemed
    ensures forall p :: 0 <= Get(l.owed, p) <= l.issued
  {
    var others := l.balance - {l.hub};
    if l.hub in l.balance {
      SumRemove(l.balance, l.hub);
    } else {
      assert others == l.balance;
    }
    SumNonNegative(others);
    forall a | a != l.hub ensures 0 <= Get(l.balance, a) <= l.issued - l.redeemed {
      if a in l.balance {
        assert a in others && others[a] <= Sum(others);
      }
    }
    SumNonNegative(l.due);
    SumNonNegative(l.owed);
  }

  ghost predicate NoDebtBut(m: map<Aid, int>, hub: Aid) {
    forall a :: a in m && a != hub ==> m[a] >= 0
  }

  // Moving amt between two rows keeps the total; out of a row that covers it, or
  // out of the hub's own, it leaves no other row negative.
  lemma Transfer(m: map<Aid, int>, hub: Aid, from: Aid, to: Aid, amt: int)
    requires amt >= 0 && NoDebtBut(m, hub) && (from == hub || Get(m, from) >= amt)
    ensures var m' := Add(Add(m, from, -amt), to, amt);
            Sum(m') == Sum(m) && NoDebtBut(m', hub)
            && Get(m', hub) == Get(m, hub) + (if to == hub then amt else 0) - (if from == hub then amt else 0)
  {
    SumAdd(m, from, -amt);
    SumAdd(Add(m, from, -amt), to, amt);
  }

  lemma AddsCommute(m: map<Aid, int>, a: Aid, x: int, b: Aid, y: int)
    ensures Add(Add(m, a, x), b, y) == Add(Add(m, b, y), a, x)
  {
  }

  lemma RowAdd(m: map<Aid, int>, p: Aid, amt: int)
    requires forall a :: a in m ==> m[a] >= 0
    requires Get(m, p) + amt >= 0
    ensures forall a :: a in Add(m, p, amt) ==> Add(m, p, amt)[a] >= 0
    ensures Sum(Add(m, p, amt)) == Sum(m) + amt
  {
    SumAdd(m, p, amt);
  }

  lemma IssueKeepsSolvent(l: Rows, aid: Aid, amount: int64)
    requires Solvent(l) && aid != l.hub
    ensures Solvent(Issue(l, aid, amount).1)
  {
    if Issue(l, aid, amount).0.None? {
      hide Sum;
      Transfer(l.balance, l.hub, l.hub, aid, amount);
      assert NoDebtBut(Issue(l, aid, amount).1.balance, l.hub);
    }
  }

  lemma SpentKeepsSolvent(l: Rows, id: Terms, via: Via)
    requires Solvent(l) && id.payer != l.hub
    requires Get(l.balance, id.payer) >= id.amount
    ensures Solvent(Spent(l, id, via))
  {
    hide Sum;
    var to, l' := CreditedAccount(l, id, via), Spent(l, id, via);
    Transfer(l.balance, l.hub, id.payer, to, id.amount);
    hide Add;
    assert Get(l'.balance, l.hub) == l'.redeemed - l'.issued && NoDebtBut(l'.balance, l.hub);
    if via.Some? {
      RowAdd(l.due, via.value, id.amount);
    }
  }

  lemma MovedKeepsSolvent(l: Rows, id: Terms, bind: string, via: Via, now: clock)
    requires Solvent(l) && id.payer != l.hub
    requires Get(l.balance, id.payer) >= id.amount
    ensures Solvent(Moved(l, id, bind, via, now))
  {
    SpentKeepsSolvent(l, id, via);
    SameBooksSolvent(Spent(l, id, via), Moved(l, id, bind, via, now));
  }

  lemma SettleKeepsSolvent(l: Rows, id: Terms, bind: string, via: Via, now: clock)
    requires Solvent(l) && id.payer != l.hub
    ensures Solvent(SettleAuth(l, id, bind, via, now).1)
  {
    if SettleAuth(l, id, bind, via, now).1 != l {
      MovedKeepsSolvent(l, id, bind, via, now);
    }
  }

  lemma ClearKeepsSolvent(l: Rows, peer: Aid, rec: Receipt, now: clock)
    requires Solvent(l)
    ensures Solvent(ClearFromPeer(l, peer, rec, now).1)
  {
    if ClearFromPeer(l, peer, rec, now).0.Credited? {
      Transfer(l.balance, l.hub, l.hub, rec.payTo, rec.amount);
      AddsCommute(l.balance, l.hub, -(rec.amount as int), rec.payTo, rec.amount);
      RowAdd(l.owed, peer, rec.amount);
    }
  }

  lemma DischargesKeepSolvent(l: Rows, peer: Aid, st: Statement, amount: int64)
    requires Solvent(l)
    ensures Solvent(SettleOwed(l, peer, st).1)
    ensures Solvent(DischargeDue(l, peer, amount).1)
  {
    hide Sum;
    if SettleOwed(l, peer, st).1 != l {
      RowAdd(l.owed, peer, -(st.amount as int));
    }
    if DischargeDue(l, peer, amount).1 != l {
      RowAdd(l.due, peer, -(amount as int));
    }
  }

  predicate SameBooks(l: Rows, l': Rows) {
    l'.hub == l.hub && l'.balance == l.balance && l'.due == l.due && l'.owed == l.owed
    && l'.issued == l.issued && l'.redeemed == l.redeemed
  }

  // A check writes at most the record of the first verification, and that only of an
  // authorization inside its window.
  lemma CheckWrites(l: Rows, a: Auth, now: clock)
    ensures || Check(l, a, now).1 == l
            || (&& VerifiedAuth(l, a).None? && a.terms.payer in l.held && InWindow(l, a.terms, now)
                && Check(l, a, now).1 == WithRecord(l, a))
  {
    hide WithRecord, KeyValid, TipAtFirst, InWindow, WindowTooLong;
  }

  lemma CheckWritesRecordsOnly(l: Rows, a: Auth, now: clock)
    ensures Check(l, a, now).1 == l.(firstVerify := Check(l, a, now).1.firstVerify)
  {
    CheckWrites(l, a, now);
    hide Check, VerifiedAuth, InWindow, RecordRoom, NewRecord;
  }

  lemma SameBooksSolvent(l: Rows, l': Rows)
    requires Solvent(l) && SameBooks(l, l') && l'.hub !in l'.registered && l'.hub !in l'.held
    ensures Solvent(l')
  {
  }

  lemma StepKeepsSolvent(w: World, op: Op)
    requires Enabled(w, op) && Solvent(w.rows)
    requires op.Settle? ==> op.ticket.auth.terms.payer != w.rows.hub
    ensures Solvent(Step(w, op).rows)
  {
    if op.Verify? {
      CheckWritesRecordsOnly(w.rows, op.auth, op.now);
      SameBooksSolvent(w.rows, Step(w, op).rows);
    } else if op.Sweep? || op.History? || op.Depart? {
      SameBooksSolvent(w.rows, Step(w, op).rows);
    } else if op.Settle? {
      SettleKeepsSolvent(w.rows, op.ticket.auth.terms, op.bind, op.via, op.now);
    } else if op.Clear? {
      ClearKeepsSolvent(w.rows, op.peer, op.rec, op.now);
    } else if op.Grant? {
      IssueKeepsSolvent(w.rows, op.aid, op.amount);
    } else if op.Apply? {
      DischargesKeepSolvent(w.rows, op.peer, op.st, 0);
    } else {
      DischargesKeepSolvent(w.rows, op.peer, Statement(0, op.peer, op.peer, 0), op.amount);
    }
  }

  lemma TwoEntriesExplain(w: World, v: World, a: Entry, b: Entry)
    requires EntriesExplain(w)
    requires v.past.written == w.past.written + [a, b]
    requires v.rows.balance == Add(Add(w.rows.balance, a.aid, a.delta), b.aid, b.delta)
    ensures EntriesExplain(v)
  {
    forall aid ensures Get(v.rows.balance, aid) == EntrySum(v.past.written, aid) {
      EntrySumTwo(w.past.written, a, b, aid);
    }
  }

  lemma SettleKeepsEntries(w: World, t: Ticket, bind: string, via: Via, now: clock)
    requires EntriesExplain(w)
    ensures EntriesExplain(StepSettle(w, t, bind, via, now))
  {
    var v := StepSettle(w, t, bind, via, now);
    var id := t.auth.terms;
    if v.past.written != w.past.written {
      TwoEntriesExplain(w, v, Entry(id.payer, -(id.amount as int)), Entry(CreditedAccount(w.rows, id, via), id.amount));
    } else {
      assert v.rows == w.rows;
    }
  }

  lemma ClearKeepsEntries(w: World, peer: Aid, rec: Receipt, now: clock)
    requires EntriesExplain(w)
    ensures EntriesExplain(StepClear(w, peer, rec, now))
  {
    var v := StepClear(w, peer, rec, now);
    if v.rows != w.rows {
      TwoEntriesExplain(w, v, Entry(rec.payTo, rec.amount), Entry(w.rows.hub, -(rec.amount as int)));
    }
  }

  lemma StepKeepsEntries(w: World, op: Op)
    requires Enabled(w, op) && EntriesExplain(w)
    ensures EntriesExplain(Step(w, op))
  {
    if op.Settle? {
      SettleKeepsEntries(w, op.ticket, op.bind, op.via, op.now);
    } else if op.Clear? {
      ClearKeepsEntries(w, op.peer, op.rec, op.now);
    } else if op.Verify? {
      CheckWritesRecordsOnly(w.rows, op.auth, op.now);
    } else if op.Grant? && Issue(w.rows, op.aid, op.amount).0.None? {
      TwoEntriesExplain(w, Step(w, op), Entry(w.rows.hub, -op.amount), Entry(op.aid, op.amount));
    }
  }

  // ---- each authorization debits its payer at most once ----

  function IdOf(d: Debit): Terms {
    d.ticket.auth.terms
  }

  // d's settled row is kept, or the clock has read a time at which it goes.
  predicate DebitBehind(l: Rows, p: Past, d: Debit) {
    IdOf(d) in l.settled || p.latest >= IdOf(d).notAfter + SETTLED_KEPT_AFTER
  }

  predicate SameRow(d: Debit, id: Terms, row: Settled) {
    IdOf(d) == id && row == Settled(ReceiptFor(id, d.now), d.guard, d.via)
  }

  predicate LateRepeat(d: Debit, clockSkew: nat) {
    d.latest >= d.ticket.at + SETTLED_KEPT_AFTER - clockSkew
  }

  ghost predicate DebitsOnce(w: World) {
    && (forall d :: d in w.past.debits ==> DebitBehind(w.rows, w.past, d) && d.ticket in w.past.tickets)
    && (forall id :: id in w.rows.settled ==> exists d :: d in w.past.debits && SameRow(d, id, w.rows.settled[id]))
    && (forall i, j :: 0 <= i < j < |w.past.debits| && IdOf(w.past.debits[i]) == IdOf(w.past.debits[j]) ==>
         LateRepeat(w.past.debits[j], w.rows.clockSkew))
  }

  // Whether a first verification found a's key state to be the active tip.
  predicate FoundAtTip(r: Recorded, a: Auth) {
    r.auth.terms == a.terms && r.auth.keyState == a.keyState && IsTip(r.kel, a.keyState)
  }

  // Why the check let the ticket's authorization through.
  ghost predicate TicketSound(l: Rows, p: Past, t: Ticket) {
    var a := t.auth;
    && InWindow(l, a.terms, t.at) && a.terms.network == l.hub && AmountInt64(a.terms.amount).Some?
    && a.terms.notAfter - a.terms.issuedAt <= MAX_AUTH_WINDOW
    && a.terms.payer in l.held && t.kel <= l.held[a.terms.payer]
    && a.signed && KeyValid(t.kel, a.keyState, a.terms.issuedAt)
    && (KeyValid(t.kel, a.keyState, t.at) || exists r :: r in p.records && FoundAtTip(r, a))
  }

  ghost predicate TicketsSound(w: World) {
    forall t :: t in w.past.tickets ==> TicketSound(w.rows, w.past, t)
  }

  // ---- the records of first verifications ----

  predicate RecordKept(l: Rows, p: Past, r: Recorded) {
    && r.auth.terms.payer in l.held && r.kel <= l.held[r.auth.terms.payer]
    && InWindow(l, r.auth.terms, r.now)
    && (r.auth.terms in l.firstVerify || p.latest >= r.auth.terms.notAfter + SETTLED_KEPT_AFTER)
  }

  predicate RecordOf(r: Recorded, id: Terms, row: FirstVerify) {
    r.auth.terms == id && row == NewRecord(r.auth, r.kel)
  }

  ghost predicate RecordsTrue(w: World) {
    && (forall r :: r in w.past.records ==> RecordKept(w.rows, w.past, r) && r.latest <= w.past.latest)
    && (forall id :: id in w.rows.firstVerify ==>
         exists r :: r in w.past.records && RecordOf(r, id, w.rows.firstVerify[id]))
    && (forall i, j :: 0 <= i < j < |w.past.records|
                       && w.past.records[i].auth.terms == w.past.records[j].auth.terms ==>
         w.past.records[j].latest >= w.past.records[j].auth.terms.notAfter + SETTLED_KEPT_AFTER)
  }

  // ---- one settlement per payer and task in 30 days ----

  predicate GuardBehind(l: Rows, p: Past, d: Debit) {
    d.guard.Some? ==>
      || p.latest >= d.now + GUARD_KEPT
      || (d.guard.value in l.guards && l.guards[d.guard.value] >= d.now + GUARD_KEPT)
  }

  ghost predicate GuardsHold(w: World) {
    && (forall d :: d in w.past.debits ==> GuardBehind(w.rows, w.past, d))
    && (forall i, j :: 0 <= i < j < |w.past.debits| && w.past.debits[i].guard.Some?
                       && w.past.debits[i].guard == w.past.debits[j].guard ==>
         w.past.debits[j].latest >= w.past.debits[i].now + GUARD_KEPT)
  }

  // ---- one credit per peer receipt ----

  predicate WasCredited(p: Past, id: Terms, settleAt: int) {
    exists c :: c in p.credits && c.id == id && c.settleAt == settleAt
  }

  predicate CreditBehind(l: Rows, p: Past, c: Credit) {
    || p.latest >= c.settleAt + CLEARED_KEPT_AFTER
    || (c.id in l.cleared && l.cleared[c.id] == c.settleAt)
  }

  ghost predicate CreditsOnce(w: World) {
    && (forall c :: c in w.past.credits ==>
         CreditBehind(w.rows, w.past, c) && c.settleAt >= c.now - PEER_RECEIPT_MAX_AGE)
    && (forall i, j :: 0 <= i < j < |w.past.credits| && w.past.credits[i].id == w.past.credits[j].id ==>
         w.past.credits[j].latest >= w.past.credits[i].settleAt + CLEARED_KEPT_AFTER)
  }

  ghost predicate Inv(w: World) {
    Solvent(w.rows) && EntriesExplain(w) && TicketsSound(w) && RecordsTrue(w)
    && DebitsOnce(w) && GuardsHold(w) && CreditsOnce(w)
  }
}
