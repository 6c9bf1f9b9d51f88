// Hubs clearing against each other: any number of hubs, each running its own
// ledger, exchanging signed receipts and discharge statements over a network that
// loses, delays and repeats them. A receipt or a statement once signed can be
// delivered at any later time, any number of times, or never.
module Clearing {
  import opened Basics
  import opened Sums
  import opened Amounts
  import opened Ledger
  import opened LedgerRuns

  datatype Flow<K> = Flow(from: Aid, to: Aid, what: K)

  // A settlement made for a peer: which hub made it, for which, and when.
  datatype Sent = Sent(from: Aid, to: Aid, settleAt: clock)

  // A discharge the debtor signed: what it covers, and whether the debtor has
  // written it off.
  datatype Signed = Signed(from: Aid, to: Aid, amount: int64, subtracted: bool)

  // sent is every settlement made for a peer, credited the ones the peer credited;
  // inFlight is what was settled and not credited, unsubtracted what a hub was told
  // it is no longer owed and the debtor has not written off.
  datatype Net = Net(
    hubs: map<Aid, World>,
    sent: map<Terms, Sent>,
    credited: set<Terms>,
    signed: map<nat, Signed>,
    inFlight: map<Flow<Terms>, int>,
    unsubtracted: map<Flow<nat>, int>,
    granted: int,
    redeemed: int)

  datatype Event =
    | Quiet(at: Aid, op: Op)
    | Grants(at: Aid, aid: Aid, amount: int64)
    | Settles(at: Aid, ticket: Ticket, bind: string, via: Via, now: clock)
    | Clears(id: Terms, now: clock)
    | Signs(at: Aid, to: Aid, amount: int64, st: nat)
    | Applies(st: nat)
    | Subtracts(st: nat)

  // The receipt of a settlement made for a peer, as often as the peer asks for it.
  function SentReceipt(n: Net, id: Terms): Receipt
    requires id in n.sent
  {
    ReceiptFor(id, n.sent[id].settleAt)
  }

  function StatementOf(n: Net, id: nat): Statement
    requires id in n.signed
  {
    var s := n.signed[id];
    Statement(id, s.from, s.to, if s.amount > 0 then s.amount else 0)
  }

  // No clock has stepped back a day, and no request is 7 days old.
  predicate Steady(w: World, op: Op) {
    match op
    case Settle(t, _, _, now) => Max(w.past.latest, now) - t.at < SETTLED_KEPT_AFTER - w.rows.clockSkew
    case Clear(_, _, now) => Max(w.past.latest, now) - now < DAY
    case _ => true
  }

  predicate Silent(op: Op) {
    op.Verify? || op.Sweep? || op.History? || op.Depart?
  }

  // What can happen, whatever the clocks read.
  predicate Possible(n: Net, e: Event) {
    match e
    case Quiet(h, op) => h in n.hubs && Silent(op) && Enabled(n.hubs[h], op)
    case Grants(h, aid, amount) => h in n.hubs && Enabled(n.hubs[h], Grant(aid, amount))
    case Settles(h, t, bind, via, now) =>
      h in n.hubs && Enabled(n.hubs[h], Settle(t, bind, via, now)) && (via.Some? ==> via.value in n.hubs)
    case Clears(id, now) => id in n.sent && n.sent[id].to in n.hubs
    // runClear: more than is due is refused before anything is signed; the id is new.
    case Signs(h, to, amount, id) =>
      h in n.hubs && to in n.hubs && h != to && 0 < amount <= Get(n.hubs[h].rows.due, to) && id !in n.signed
    case Applies(id) => id in n.signed && n.signed[id].to in n.hubs
    // ... and written off once, after the peer's acknowledgement.
    case Subtracts(id) =>
      id in n.signed && n.signed[id].to in n.hubs && n.signed[id].from in n.hubs
      && id in n.hubs[n.signed[id].to].rows.statements && !n.signed[id].subtracted
  }

  // What can happen while no clock steps back a day and no request waits 7 days.
  predicate Can(n: Net, e: Event) {
    Possible(n, e) &&
    match e
    case Settles(h, t, bind, via, now) => Steady(n.hubs[h], Settle(t, bind, via, now))
    case Clears(id, now) => Steady(n.hubs[n.sent[id].to], Clear(n.sent[id].from, SentReceipt(n, id), now))
    case _ => true
  }

  function With(n: Net, h: Aid, w: World): Net {
    n.(hubs := n.hubs[h := w])
  }

  // A settlement at h, moving credit when rows change.
  function NextSettles(n: Net, h: Aid, t: Ticket, bind: string, via: Via, now: clock): Net
    requires h in n.hubs
  {
    var w := StepSettle(n.hubs[h], t, bind, via, now);
    var id := t.auth.terms;
    if w.rows == n.hubs[h].rows then With(n, h, w)
    else if via.Some? then
      With(n, h, w).(sent := n.sent[id := Sent(h, via.value, now)],
                     inFlight := n.inFlight[Flow(h, via.value, id) := id.amount])
    else With(n, h, w).(redeemed := n.redeemed + w.rows.redeemed - n.hubs[h].rows.redeemed)
  }

  function NextClears(n: Net, id: Terms, now: clock): Net
    requires id in n.sent && n.sent[id].to in n.hubs
  {
    var s := n.sent[id];
    var w := StepClear(n.hubs[s.to], s.from, SentReceipt(n, id), now);
    if w.rows == n.hubs[s.to].rows then With(n, s.to, w)
    else With(n, s.to, w).(credited := n.credited + {id}, inFlight := n.inFlight - {Flow(s.from, s.to, id)})
  }

  function NextApplies(n: Net, id: nat): Net
    requires id in n.signed && n.signed[id].to in n.hubs
  {
    var s := n.signed[id];
    var w := n.hubs[s.to].(rows := SettleOwed(n.hubs[s.to].rows, s.from, StatementOf(n, id)).1);
    if w == n.hubs[s.to] then n
    else With(n, s.to, w).(unsubtracted := n.unsubtracted[Flow(s.from, s.to, id) := s.amount])
  }

  function NextSubtracts(n: Net, id: nat): Net
    requires id in n.signed && n.signed[id].from in n.hubs
  {
    var s := n.signed[id];
    var done := DischargeDue(n.hubs[s.from].rows, s.to, s.amount);
    if !done.0 then n
    else With(n, s.from, n.hubs[s.from].(rows := done.1)).(
           signed := n.signed[id := s.(subtracted := true)],
           unsubtracted := n.unsubtracted - {Flow(s.from, s.to, id)})
  }

  function Next(n: Net, e: Event): Net
    requires Possible(n, e)
  {
    match e
    case Quiet(h, op) => With(n, h, Step(n.hubs[h], op))
    case Grants(h, aid, amount) =>
      var w := StepGrant(n.hubs[h], aid, amount);
      With(n, h, w).(granted := n.granted + w.rows.issued - n.hubs[h].rows.issued)
    case Settles(h, t, bind, via, now) => NextSettles(n, h, t, bind, via, now)
    case Clears(id, now) => NextClears(n, id, now)
    case Signs(h, to, amount, id) => n.(signed := n.signed[id := Signed(h, to, amount, false)])
    case Applies(id) => NextApplies(n, id)
    case Subtracts(id) => NextSubtracts(n, id)
  }

  function RunNet(n: Net, es: seq<Event>): Net
    decreases |es|
  {
    if es == [] then n
    else RunNet(if Can(n, es[0]) then Next(n, es[0]) else n, es[1..])
  }

  // A run under any clocks.
  function RunAny(n: Net, es: seq<Event>): Net
    decreases |es|
  {
    if es == [] then n
    else RunAny(if Possible(n, es[0]) then Next(n, es[0]) else n, es[1..])
  }

  // Hubs with empty ledgers, each under its own clock.
  predicate Fresh(n: Net) {
    && n == Net(n.hubs, map[], {}, map[], map[], map[], 0, 0)
    && forall h :: h in n.hubs ==>
         n.hubs[h] == Start(h, n.hubs[h].rows.clockSkew, n.hubs[h].rows.maxSkew, n.hubs[h].past.latest)
  }

  // ---- totals over flows ----

  function Between<K(==)>(m: map<Flow<K>, int>, a: Aid, b: Aid): map<Flow<K>, int> {
    map f | f in m && f.from == a && f.to == b :: m[f]
  }

  lemma BetweenAdd<K>(m: map<Flow<K>, int>, f: Flow<K>, v: int, a: Aid, b: Aid)
    requires f !in m
    ensures Sum(Between(m[f := v], a, b)) == Sum(Between(m, a, b)) + if f.from == a && f.to == b then v else 0
  {
    if f.from == a && f.to == b {
      assert Between(m[f := v], a, b) == Between(m, a, b)[f := v];
      SumUpdate(Between(m, a, b), f, v);
    } else {
      assert Between(m[f := v], a, b) == Between(m, a, b);
    }
  }

  lemma BetweenMinus<K>(m: map<Flow<K>, int>, f: Flow<K>, a: Aid, b: Aid)
    requires f in m
    ensures Sum(Between(m - {f}, a, b)) == Sum(Between(m, a, b)) - if f.from == a && f.to == b then m[f] else 0
  {
    if f.from == a && f.to == b {
      assert Between(m - {f}, a, b) == Between(m, a, b) - {f};
      SumRemove(Between(m, a, b), f);
    } else {
      assert Between(m - {f}, a, b) == Between(m, a, b);
    }
  }

  // ---- what two hubs record of each other ----

  function Due(n: Net, a: Aid, b: Aid): int
    requires a in n.hubs
  {
    Get(n.hubs[a].rows.due, b)
  }

  function Owed(n: Net, b: Aid, a: Aid): int
    requires b in n.hubs
  {
    Get(n.hubs[b].rows.owed, a)
  }

  ghost function OnTheWay(n: Net, a: Aid, b: Aid): int {
    Sum(Between(n.inFlight, a, b)) + Sum(Between(n.unsubtracted, a, b))
  }

  ghost predicate PairAgrees(n: Net, a: Aid, b: Aid)
    requires a in n.hubs && b in n.hubs
  {
    Due(n, a, b) - Owed(n, b, a) == OnTheWay(n, a, b)
  }

  ghost predicate PairsAgree(n: Net) {
    forall a, b {:trigger PairAgrees(n, a, b)} :: a in n.hubs && b in n.hubs && a != b ==> PairAgrees(n, a, b)
  }

  function Outstanding(w: World): int {
    w.rows.issued - w.rows.redeemed
  }

  function Outstandings(hubs: map<Aid, World>): map<Aid, int> {
    map h | h in hubs :: Outstanding(hubs[h])
  }

  ghost predicate TotalKept(n: Net) {
    Sum(Outstandings(n.hubs)) + Sum(n.inFlight) == n.granted - n.redeemed
  }
}
