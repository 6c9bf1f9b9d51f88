// One hub's credit ledger: its rows, and each transaction as a function from the
// rows before it to the answer and the rows after it. A refused transaction
// leaves the rows as they were.
module Ledger {
  import opened Basics
  import opened Sums
  import opened Amounts

  // An AID, by number: only whether two are the same matters. A hub's ledger is
  // named by the hub's AID.
  type Aid = nat

  // For whom a settlement is made: this hub's own caller, or the peer hub that
  // forwarded it.
  type Via = Option<Aid>

  // ---- key histories ----

  // One event of a key history, establishing the key state of its index.
  // retires is the time from which the key state before it is no longer valid
  // (an emergency rotation gives none of the grace a planned one does); active
  // is false for a deactivation.
  datatype KeyEvent = KeyEvent(retires: int, active: bool)
  type Kel = seq<KeyEvent>

  // Whether key state s of history kel is valid at time t.
  predicate KeyValid(kel: Kel, s: nat, t: int) {
    s < |kel| && kel[s].active && (s + 1 < |kel| ==> t < kel[s + 1].retires)
  }

  // Whether key state s is the active tip of kel.
  predicate IsTip(kel: Kel, s: nat) {
    s + 1 == |kel| && kel[s].active
  }

  // ---- authorizations ----

  // What a payer signs. The authorization's id is the digest of exactly this, and
  // digests do not collide, so the terms stand for the id.
  datatype Terms = Terms(payer: Aid, payTo: Aid, amount: uint64, network: Aid,
                         issuedAt: int64, notAfter: int64, interaction: string, nonce: nat)

  // An authorization as it arrives: its terms, the key state its envelope names,
  // and whether the signature over the terms verifies under that key state.
  datatype Auth = Auth(terms: Terms, keyState: nat, signed: bool)

  // A hub's signed statement of one settlement.
  datatype Receipt = Receipt(authId: Terms, payer: Aid, payTo: Aid, amount: uint64,
                             network: Aid, settleAt: int64)

  // A hub's signed statement that it discharged part of what it owed another.
  datatype Statement = Statement(id: nat, payer: Aid, payTo: Aid, amount: uint64)

  type Guard = (Aid, string)

  datatype Settled = Settled(receipt: Receipt, guard: Option<Guard>, via: Via)
  datatype FirstVerify = FirstVerify(payer: Aid, keyState: nat, tip: bool, deleteAfter: int64)

  // The rows. held is every key history this hub holds for an AID, of its
  // registered agents and as tombstones; registered is the agents.
  datatype Rows = Rows(
    hub: Aid,
    clockSkew: nat,
    maxSkew: nat,
    held: map<Aid, Kel>,
    registered: set<Aid>,
    balance: map<Aid, int>,
    settled: map<Terms, Settled>,
    guards: map<Guard, int>,
    cleared: map<Terms, int64>,
    statements: set<nat>,
    due: map<Aid, int>,
    owed: map<Aid, int>,
    issued: int,
    redeemed: int,
    firstVerify: map<Terms, FirstVerify>)

  datatype Reason =
    | InvalidAmount | Malformed | DuplicateNonce | DuplicateBinding | InsufficientFunds
    | PayeeNotLocal | PayeeMismatch | ExpiredPayment | InvalidSignature | UnknownPayer
    | NetworkMismatch | AuthWindowTooLong | SettlementFailed | InvalidRequirements | UnsupportedScheme

  datatype Answer = Success(receipt: Receipt, replayed: bool) | Refused(reason: Reason)

  // ---- settlement ----

  // settledBefore and repeatOf: the stored receipt for the caller the settlement
  // was made for, duplicate_nonce for any other.
  function RepeatOf(l: Rows, id: Terms, via: Via): Option<Answer> {
    if id !in l.settled then None
    else if l.settled[id].via != via then Some(Refused(DuplicateNonce))
    else Some(Success(l.settled[id].receipt, true))
  }

  predicate HasNul(s: string) {
    '\0' in s
  }

  function GuardOf(id: Terms, bind: string): Option<Guard> {
    if bind == "" then None else Some((id.payer, bind))
  }

  predicate GuardLive(l: Rows, g: Option<Guard>, now: int) {
    g.Some? && g.value in l.guards && l.guards[g.value] > now
  }

  predicate Local(l: Rows, aid: Aid) {
    aid == l.hub || aid in l.registered
  }

  // The account the credit goes to: the payee, or this hub's own row when the
  // payee banks on the peer the settlement was forwarded for. Credit that comes
  // home to the hub's own row has left circulation.
  function CreditedAccount(l: Rows, id: Terms, via: Via): Aid {
    if via.None? then id.payTo else l.hub
  }

  function ReceiptFor(id: Terms, now: clock): Receipt {
    Receipt(id, id.payer, id.payTo, id.amount, id.network, now)
  }

  // Why settleAuth refuses an authorization that is not settled yet, if it does.
  function SettleRefusal(l: Rows, id: Terms, bind: string, via: Via, now: clock): Option<Reason> {
    if GuardLive(l, GuardOf(id, bind), now) then Some(DuplicateBinding)
    else if Get(l.balance, id.payer) < id.amount then Some(InsufficientFunds)
    else if via.None? && !Local(l, id.payTo) then Some(PayeeNotLocal)
    else if via.Some? && Local(l, id.payTo) then Some(PayeeMismatch)
    else None
  }

  // The rows once the settlement moved the credit, and once it recorded that it did.
  function Spent(l: Rows, id: Terms, via: Via): Rows {
    var to := CreditedAccount(l, id, via);
    l.(balance := Add(Add(l.balance, id.payer, -(id.amount as int)), to, id.amount),
       redeemed := l.redeemed + if to == l.hub then id.amount else 0,
       due := if via.Some? then Add(l.due, via.value, id.amount) else l.due)
  }

  function Moved(l: Rows, id: Terms, bind: string, via: Via, now: clock): Rows {
    var g := GuardOf(id, bind);
    Spent(l, id, via).(
      settled := l.settled[id := Settled(ReceiptFor(id, now), g, via)],
      guards := if g.Some? then l.guards[g.value := now + GUARD_KEPT] else l.guards)
  }

  // settleAuth, as it must behave: nothing in it refuses a balance the row cannot
  // hold, because none can arise (LedgerStore.Store.SettleAuth).
  function SettleAuth(l: Rows, id: Terms, bind: string, via: Via, now: clock): (Answer, Rows) {
    if AmountInt64(id.amount).None? then (Refused(InvalidAmount), l)
    else if bind != "" && HasNul(bind) then (Refused(Malformed), l)
    else if RepeatOf(l, id, via).Some? then (RepeatOf(l, id, via).value, l)
    else
      match SettleRefusal(l, id, bind, via, now)
      case Some(reason) => (Refused(reason), l)
      case None => (Success(ReceiptFor(id, now), false), Moved(l, id, bind, via, now))
  }

  // ---- verification ----

  // The validity window of an authorization, as Verify judges it.
  predicate InWindow(l: Rows, id: Terms, t: int) {
    0 < id.issuedAt < id.notAfter && id.issuedAt - l.clockSkew <= t <= id.notAfter + l.clockSkew
  }

  // verifiedAuth: the checks that need no clock.
  function VerifiedAuth(l: Rows, a: Auth): Option<Reason> {
    if AmountInt64(a.terms.amount).None? then Some(InvalidAmount)
    else if WindowTooLong(a.terms.issuedAt, a.terms.notAfter) then Some(AuthWindowTooLong)
    else if a.terms.network != l.hub then Some(NetworkMismatch)
    else if a.terms.payer !in l.registered || a.terms.payer !in l.held then Some(UnknownPayer)
    else if !(0 < a.terms.issuedAt < a.terms.notAfter) then Some(ExpiredPayment)
    else if !a.signed || !KeyValid(l.held[a.terms.payer], a.keyState, a.terms.issuedAt) then Some(InvalidSignature)
    else None
  }

  const MAX_FIRST_VERIFY_PER_PAYER: nat := 5000
  const MAX_FIRST_VERIFY_UNFUNDED: nat := 20

  function RecordsOf(l: Rows, payer: Aid): set<Terms> {
    set id | id in l.firstVerify && l.firstVerify[id].payer == payer
  }

  // Whether a payer may keep one more first-verification record.
  predicate RecordRoom(l: Rows, id: Terms) {
    var n := |RecordsOf(l, id.payer)|;
    !(Get(l.balance, id.payer) < id.amount && n >= MAX_FIRST_VERIFY_UNFUNDED) && n < MAX_FIRST_VERIFY_PER_PAYER
  }

  // firstVerifyOf: what the record kept for a's id says of a's payer and key state.
  predicate RecordSaysTip(l: Rows, a: Auth) {
    a.terms in l.firstVerify
    && l.firstVerify[a.terms].tip
    && l.firstVerify[a.terms].payer == a.terms.payer
    && l.firstVerify[a.terms].keyState == a.keyState
  }

  function NewRecord(a: Auth, kel: Kel): FirstVerify {
    FirstVerify(a.terms.payer, a.keyState, IsTip(kel, a.keyState), FirstVerifyDeleteAfter(a.terms.notAfter))
  }

  // recordFirstVerify: whether the first whole verification found the signing key
  // state to be the active tip; and the rows with the record of it.
  predicate TipAtFirst(l: Rows, a: Auth)
    requires a.terms.payer in l.held
  {
    if a.terms in l.firstVerify then RecordSaysTip(l, a) else IsTip(l.held[a.terms.payer], a.keyState)
  }

  function WithRecord(l: Rows, a: Auth): Rows
    requires a.terms.payer in l.held
  {
    if a.terms in l.firstVerify || !RecordRoom(l, a.terms) then l
    else l.(firstVerify := l.firstVerify[a.terms := NewRecord(a, l.held[a.terms.payer])])
  }

  // verifiedAuth and keyAtFirstVerify: whether a may settle at now, and the rows
  // with its first verification recorded.
  function Check(l: Rows, a: Auth, now: clock): (Option<Reason>, Rows) {
    if VerifiedAuth(l, a).Some? then (VerifiedAuth(l, a), l)
    else if !InWindow(l, a.terms, now) then (Some(ExpiredPayment), l)
    else if !KeyValid(l.held[a.terms.payer][..a.keyState + 1], a.keyState, now) then (Some(InvalidSignature), l)
    else if TipAtFirst(l, a) || KeyValid(l.held[a.terms.payer], a.keyState, now) then (None, WithRecord(l, a))
    else (Some(InvalidSignature), WithRecord(l, a))
  }

  // ---- issuance ----

  // issueTx: an operator's grant, an admission grant or a trial credit.
  function Issue(l: Rows, aid: Aid, amount: int64): (Option<Reason>, Rows) {
    if amount <= 0 then (Some(SettlementFailed), l)
    else if l.issued > MAX_INT64 - amount then (Some(InvalidAmount), l)
    else (None, l.(balance := Add(Add(l.balance, l.hub, -amount), aid, amount), issued := l.issued + amount))
  }

  // ---- clearing ----

  datatype Clearing = Credited | AlreadyCleared | NotCleared(why: ClearRefusal)
  datatype ClearRefusal = BadAmount | OtherLedger | PaysThisHub | TooOld

  // ClearFromPeer, for a receipt whose signature is peer's.
  function ClearFromPeer(l: Rows, peer: Aid, rec: Receipt, now: clock): (Clearing, Rows) {
    if AmountInt64(rec.amount).None? then (NotCleared(BadAmount), l)
    else if rec.network != peer then (NotCleared(OtherLedger), l)
    else if rec.payTo == l.hub then (NotCleared(PaysThisHub), l)
    else if rec.authId in l.cleared then (AlreadyCleared, l)
    else if rec.settleAt < now - PEER_RECEIPT_MAX_AGE || rec.settleAt > now + l.maxSkew then (NotCleared(TooOld), l)
    else if l.issued > MAX_INT64 - rec.amount then (NotCleared(BadAmount), l)
    else (Credited, l.(cleared := l.cleared[rec.authId := rec.settleAt],
                       balance := Add(Add(l.balance, rec.payTo, rec.amount), l.hub, -(rec.amount as int)),
                       owed := Add(l.owed, peer, rec.amount),
                       issued := l.issued + rec.amount))
  }

  // SettleOwed, for a statement whose signature is peer's.
  function SettleOwed(l: Rows, peer: Aid, st: Statement): (bool, Rows) {
    if AmountInt64(st.amount).None? || st.payer != peer || st.payTo != l.hub then (false, l)
    else if st.id in l.statements then (true, l)
    else if st.amount > Get(l.owed, peer) then (false, l)
    else (true, l.(statements := l.statements + {st.id}, owed := Add(l.owed, peer, -(st.amount as int))))
  }

  // DischargeDue.
  function DischargeDue(l: Rows, peer: Aid, amount: int64): (bool, Rows) {
    if amount <= 0 || Get(l.due, peer) < amount then (false, l)
    else (true, l.(due := Add(l.due, peer, -amount)))
  }

  // ---- retention ----

  // What each table keeps at now.
  function KeptSettled(m: map<Terms, Settled>, now: clock): map<Terms, Settled> {
    map id | id in m && !(id.notAfter <= now - SETTLED_KEPT_AFTER) :: m[id]
  }

  function KeptGuards(m: map<Guard, int>, now: clock): map<Guard, int> {
    map g | g in m && !(m[g] <= now) :: m[g]
  }

  function KeptCleared(m: map<Terms, int64>, now: clock): map<Terms, int64> {
    map id | id in m && !(m[id] <= now - CLEARED_KEPT_AFTER) :: m[id]
  }

  function KeptFirstVerify(m: map<Terms, FirstVerify>, now: clock): map<Terms, FirstVerify> {
    map id | id in m && !(m[id].deleteAfter <= now) :: m[id]
  }

  // pruneLedgerAt: every row past its time goes.
  function Prune(l: Rows, now: clock): Rows {
    l.(settled := KeptSettled(l.settled, now), guards := KeptGuards(l.guards, now),
       cleared := KeptCleared(l.cleared, now), firstVerify := KeptFirstVerify(l.firstVerify, now))
  }

  // ---- the registry, as far as the ledger reads it ----

  // A registration or a pushed history: taken only when it extends the one held.
  function TakeKel(l: Rows, aid: Aid, kel: Kel, register: bool): Rows {
    if aid == l.hub || kel == [] || (aid in l.held && !(l.held[aid] <= kel)) then l
    else if !register && aid !in l.held then l
    else l.(held := l.held[aid := kel], registered := if register then l.registered + {aid} else l.registered)
  }

  function Leave(l: Rows, aid: Aid): Rows {
    l.(registered := l.registered - {aid})
  }
}
