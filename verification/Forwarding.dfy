// A payment settled on another hub's ledger: what the hub its payee banks on checks and
// forwards, what the payer's hub answers, and what is credited on that answer
// (internal/aghub/facilitator.go, cmd/anet-hub/wire_federation.go).
module Forwarding {
  import opened Basics
  import opened Sums
  import opened Amounts
  import opened Ledger
  import opened LedgerRuns
  import opened LedgerPromises
  import opened LedgerEffects
  import opened LedgerRefusals

  // What the resource server requires. An amount that does not parse, and a payee or a
  // network that is not named, are None.
  datatype Requirements = Requirements(creditScheme: bool, amount: Option<uint64>,
                                       payTo: Option<Aid>, network: Option<Aid>)

  // The option the payer states it took, which it does not sign.
  datatype Accepted = Accepted(creditScheme: bool, amount: Option<uint64>, payTo: Option<Aid>, network: Option<Aid>)

  datatype Payment = Payment(accepted: Accepted, auth: Auth)

  // CheckRequirements.
  function CheckRequirements(p: Payment, req: Requirements): Option<Reason> {
    var t := p.auth.terms;
    if req.amount.None? || AmountInt64(req.amount.value).None? then Some(InvalidRequirements)
    else if req.payTo.None? || req.network.None? then Some(InvalidRequirements)
    else if AmountInt64(t.amount).None? then Some(InvalidAmount)
    else if !req.creditScheme || !p.accepted.creditScheme then Some(UnsupportedScheme)
    else if p.accepted.network != req.network || req.network != Some(t.network) then Some(NetworkMismatch)
    else if req.payTo != Some(t.payTo) || p.accepted.payTo != Some(t.payTo) then Some(PayeeMismatch)
    else if p.accepted.amount != Some(t.amount) || t.amount < req.amount.value then Some(InvalidAmount)
    else None
  }

  // What passing means to the two sides: the payer signed for the required payee, on the
  // required ledger, at least the required amount, which is more than nothing and fits a
  // row, and the option it stated is what it signed.
  predicate Meets(p: Payment, req: Requirements) {
    var t := p.auth.terms;
    && req.creditScheme && req.payTo == Some(t.payTo) && req.network == Some(t.network)
    && req.amount.Some? && 0 < req.amount.value <= t.amount <= MAX_INT64
    && p.accepted == Accepted(true, Some(t.amount), Some(t.payTo), Some(t.network))
  }

  lemma PassesExactlyWhenMet(p: Payment, req: Requirements)
    ensures CheckRequirements(p, req).None? <==> Meets(p, req)
  {
  }

  // Why a payment does not meet what is required, the first of these that holds: the
  // requirements name no payable amount, payee or ledger; the amount signed is not one a row
  // can hold; the schemes, the ledgers, the payees do not agree; the amount stated is not the
  // one signed, or that is less than required.
  lemma RequirementRefusedExactly(p: Payment, req: Requirements)
    ensures var t, why := p.auth.terms, CheckRequirements(p, req);
            var unusable :=
              req.amount.None? || !(0 < req.amount.value <= MAX_INT64) || req.payTo.None? || req.network.None?;
            var unheld := !(0 < t.amount <= MAX_INT64);
            var scheme := !req.creditScheme || !p.accepted.creditScheme;
            var ledger := p.accepted.network != req.network || Some(t.network) != req.network;
            var payee := p.accepted.payTo != Some(t.payTo) || Some(t.payTo) != req.payTo;
            && (why == Some(InvalidRequirements) <==> unusable)
            && (why == Some(UnsupportedScheme) <==> !unusable && !unheld && scheme)
            && (why == Some(NetworkMismatch) <==> !unusable && !unheld && !scheme && ledger)
            && (why == Some(PayeeMismatch) <==> !unusable && !unheld && !scheme && !ledger && payee)
            && (why == Some(InvalidAmount) <==>
                  && !unusable
                  && (unheld
                      || (!scheme && !ledger && !payee
                          && (p.accepted.amount != Some(t.amount) || t.amount < req.amount.value))))
  {
  }

  // ---- the payer's hub ----

  // SettleForPeer.
  function SettleForPeer(l: Rows, peer: Aid, p: Payment, req: Requirements, now: clock): (Answer, Rows) {
    if req.payTo == Some(l.hub) || req.payTo == Some(peer) then (Refused(PayeeMismatch), l)
    else if req.payTo.Some? && req.payTo.value in l.registered then (Refused(PayeeMismatch), l)
    else if !p.accepted.creditScheme then (Refused(UnsupportedScheme), l)
    else if p.accepted.network != Some(l.hub) then (Refused(NetworkMismatch), l)
    else if VerifiedAuth(l, p.auth).Some? then (Refused(VerifiedAuth(l, p.auth).value), l)
    else if CheckRequirements(p, req).Some? then (Refused(CheckRequirements(p, req).value), l)
    else Request(l, p.auth, Some(peer), now)
  }

  // ---- the payee's hub ----

  // What came back of the forwarded request: nothing that can be read as an answer, a
  // refusal of the request before the ledger saw it, or the ledger's answer. A success
  // may come without a receipt; signed is whether the receipt it came with verifies.
  datatype Reply =
    | Unknown
    | NotServed
    | LedgerRefused(reason: Reason)
    | LedgerSettled(receipt: Option<Receipt>, signed: bool)

  // What the merchant is told.
  datatype Outcome = Paid(receipt: Receipt) | Failed(why: Reason) | Pending

  // ClearPeerSettlement.
  function ClearPeerSettlement(l: Rows, peer: Aid, rec: Receipt, signed: bool,
                               p: Payment, req: Requirements, now: clock): (Outcome, Rows)
    requires req.amount.Some?
  {
    var t := p.auth.terms;
    if AmountInt64(rec.amount).None? then (Failed(InvalidAmount), l)
    else if rec.authId != t || rec.payer != t.payer then (Failed(SettlementFailed), l)
    else if Some(rec.network) != req.network then (Failed(SettlementFailed), l)
    else if Some(rec.payTo) != req.payTo then (Failed(PayeeMismatch), l)
    else if rec.amount < req.amount.value || rec.amount != t.amount then (Failed(InvalidAmount), l)
    else if !signed then (Pending, l)
    else
      match ClearFromPeer(l, peer, rec, now)
      case (NotCleared(TooOld), _) => (Failed(SettlementFailed), l)
      case (NotCleared(_), _) => (Pending, l)
      case (_, l') => (Paid(rec), l')
  }

  // The payee's hub, for a payment on peer's ledger: nothing is forwarded unless it
  // would pass here; reply is what came back.
  function SettleAtEntry(l: Rows, peer: Aid, p: Payment, req: Requirements, reply: Reply, now: clock): (Outcome, Rows) {
    if req.payTo == Some(l.hub) then (Failed(PayeeMismatch), l)
    else if req.payTo.None? || req.payTo.value !in l.registered then (Failed(PayeeNotLocal), l)
    else if AmountInt64(p.auth.terms.amount).None? then (Failed(InvalidAmount), l)
    else if WindowTooLong(p.auth.terms.issuedAt, p.auth.terms.notAfter) then (Failed(AuthWindowTooLong), l)
    else if CheckRequirements(p, req).Some? then (Failed(CheckRequirements(p, req).value), l)
    else
      match reply
      case Unknown => (Pending, l)
      case NotServed => (Failed(SettlementFailed), l)
      case LedgerRefused(reason) => (Failed(reason), l)
      case LedgerSettled(None, _) => (Failed(SettlementFailed), l)
      case LedgerSettled(Some(rec), signed) => ClearPeerSettlement(l, peer, rec, signed, p, req, now)
  }

  // ---- what each answer means to the merchant ----

  // Whether the payee's hub forwards a payment: the payee is an agent here, the payer's
  // authorization is for no longer than a day, and it meets what is required.
  predicate Forwards(l: Rows, p: Payment, req: Requirements) {
    && Meets(p, req) && p.auth.terms.payTo in l.registered && p.auth.terms.payTo != l.hub
    && p.auth.terms.notAfter - p.auth.terms.issuedAt <= DAY
  }

  // A receipt for exactly what was forwarded.
  predicate Matches(rec: Receipt, t: Terms) {
    rec == Receipt(t, t.payer, t.payTo, t.amount, t.network, rec.settleAt)
  }

  // A payment that is not forwarded has failed, whatever anybody answers. One that is has
  // failed only when the peer did not serve the request, when the ledger refused it, when a
  // success came with no receipt or with one for other terms, or when the receipt is dated
  // where no retry can clear it. Without an answer, or with a receipt that does not verify
  // yet or does not fit yet, it is pending: the payer may have been charged.
  lemma AnsweredExactly(l: Rows, peer: Aid, p: Payment, req: Requirements, reply: Reply, now: clock)
    requires req.network == Some(peer)
    ensures var (outcome, l') := SettleAtEntry(l, peer, p, req, reply, now);
            if !Forwards(l, p, req) then outcome.Failed? && l' == l
            else
              match reply
              case Unknown => outcome == Pending && l' == l
              case NotServed => outcome == Failed(SettlementFailed) && l' == l
              case LedgerRefused(reason) => outcome == Failed(reason) && l' == l
              case LedgerSettled(None, _) => outcome.Failed? && l' == l
              case LedgerSettled(Some(rec), signed) =>
                if !Matches(rec, p.auth.terms) then outcome.Failed? && l' == l
                else if !signed then outcome == Pending && l' == l
                else if rec.authId in l.cleared then outcome == Paid(rec) && l' == l
                else if CreditDue(l, peer, rec, now) then
                  outcome == Paid(rec) && l' == ClearFromPeer(l, peer, rec, now).1
                else if now - PEER_RECEIPT_MAX_AGE <= rec.settleAt <= now + l.maxSkew then outcome == Pending && l' == l
                else outcome.Failed? && l' == l
  {
    PassesExactlyWhenMet(p, req);
    WindowTooLongIsExact(p.auth.terms.issuedAt, p.auth.terms.notAfter);
    hide CheckRequirements, WindowTooLong;
    if reply.LedgerSettled? && reply.receipt.Some? {
      CreditsExactlyWhenDue(l, peer, reply.receipt.value, now);
    }
  }

  // Why a payment is not forwarded, the first of these that holds.
  lemma NotForwardedExactly(l: Rows, peer: Aid, p: Payment, req: Requirements, reply: Reply, now: clock)
    requires !Forwards(l, p, req)
    ensures var t, outcome := p.auth.terms, SettleAtEntry(l, peer, p, req, reply, now).0;
            if req.payTo == Some(l.hub) then outcome == Failed(PayeeMismatch)
            else if req.payTo.None? || req.payTo.value !in l.registered then outcome == Failed(PayeeNotLocal)
            else if !(0 < t.amount <= MAX_INT64) then outcome == Failed(InvalidAmount)
            else if t.notAfter - t.issuedAt > DAY then outcome == Failed(AuthWindowTooLong)
            else CheckRequirements(p, req).Some? && outcome == Failed(CheckRequirements(p, req).value)
  {
    PassesExactlyWhenMet(p, req);
    WindowTooLongIsExact(p.auth.terms.issuedAt, p.auth.terms.notAfter);
    hide CheckRequirements, WindowTooLong;
  }

  // ---- what any answer can do ----

  // Whatever a peer answers, signed or not: if anything changes at the payee's hub, it is
  // that the required payee is credited exactly what the payer signed for it, at least
  // what was required, once, and the peer owes exactly that; and only then is the
  // merchant told it is paid, or that it was before.
  lemma OnlyWhatThePayerSigned(l: Rows, peer: Aid, p: Payment, req: Requirements, reply: Reply, now: clock)
    requires req.network == Some(peer)
    ensures var t := p.auth.terms; var (outcome, l') := SettleAtEntry(l, peer, p, req, reply, now);
            && (l' != l ==>
                 && outcome == Paid(reply.receipt.value) && reply.signed && t !in l.cleared
                 && req.payTo == Some(t.payTo) && t.network == peer && req.amount.value <= t.amount
                 && l'.owed == Add(l.owed, peer, t.amount) && l'.issued == l.issued + t.amount
                 && Get(l'.balance, t.payTo) == Get(l.balance, t.payTo) + t.amount
                 && (forall a :: a != t.payTo && a != l.hub ==> Get(l'.balance, a) == Get(l.balance, a))
                 && t in l'.cleared)
            && (outcome.Paid? ==> t in l'.cleared && outcome.receipt.authId == t && outcome.receipt.amount == t.amount)
  {
  }

  lemma AnswerIsAStep(w: World, peer: Aid, p: Payment, req: Requirements, reply: Reply, now: clock)
    requires req.network == Some(peer)
    ensures var (outcome, l') := SettleAtEntry(w.rows, peer, p, req, reply, now);
            if outcome.Paid? then l' == StepClear(w, peer, outcome.receipt, now).rows else l' == w.rows
  {
  }

  // In every run: whatever a peer answers, this hub's rows stay as they were or become
  // those of one more clearing, so that all the ledger promises still holds; and the
  // merchant is told it is paid only when the authorization was credited here, now or
  // before, its receipt naming the required payee and what the payer signed.
  lemma PaidMeansCredited(w: World, peer: Aid, p: Payment, req: Requirements, reply: Reply, now: clock)
    requires Reached(w) && req.network == Some(peer)
    ensures var (outcome, l') := SettleAtEntry(w.rows, peer, p, req, reply, now);
            if !outcome.Paid? then l' == w.rows
            else
              var v := StepClear(w, peer, outcome.receipt, now); var t := p.auth.terms;
              && Reached(v) && v.rows == l' && t in l'.cleared && WasCredited(v.past, t, l'.cleared[t])
              && outcome.receipt.authId == t && Some(outcome.receipt.payTo) == req.payTo == Some(t.payTo)
              && outcome.receipt.amount == t.amount >= req.amount.value
              && (l' != w.rows ==> reply.signed && v.past.credits[|w.past.credits|].id == t)
  {
    OnlyWhatThePayerSigned(w.rows, peer, p, req, reply, now);
    AnswerIsAStep(w, peer, p, req, reply, now);
    var outcome := SettleAtEntry(w.rows, peer, p, req, reply, now).0;
    if outcome.Paid? {
      PaidReceipt(w.rows, peer, p, req, reply, now);
      hide SettleAtEntry, CheckRequirements;
      ReachedStep(w, Clear(peer, outcome.receipt, now));
      ReachedKeeps(StepClear(w, peer, outcome.receipt, now));
      hide Reached, GuardsEarned, RecordsBounded;
    }
  }

  lemma PaidReceipt(l: Rows, peer: Aid, p: Payment, req: Requirements, reply: Reply, now: clock)
    requires SettleAtEntry(l, peer, p, req, reply, now).0.Paid?
    ensures var r := SettleAtEntry(l, peer, p, req, reply, now).0.receipt; var t := p.auth.terms;
            r.authId == t && Some(r.payTo) == req.payTo == Some(t.payTo) && r.amount == t.amount
            && req.amount.Some? && req.amount.value <= t.amount
  {
    hide ClearFromPeer;
  }

  // A refusal by the payer's hub is final: nothing was charged for it there.
  lemma RefusedIsNotCharged(l: Rows, peer: Aid, p: Payment, req: Requirements, now: clock)
    requires SettleForPeer(l, peer, p, req, now).0.Refused?
    ensures var l' := SettleForPeer(l, peer, p, req, now).1;
            l'.balance == l.balance && l'.due == l.due && l'.redeemed == l.redeemed && l'.settled == l.settled
  {
    CheckWritesRecordsOnly(l, p.auth, now);
  }

  // The payer's hub charges for a peer exactly when the payment meets what is required, the
  // authorization may settle and is due here, and its payee is not the peer itself.
  lemma ChargesExactly(l: Rows, peer: Aid, p: Payment, req: Requirements, now: clock)
    ensures var (answer, l') := SettleForPeer(l, peer, p, req, now); var t := p.auth.terms;
            answer.Success? && !answer.replayed <==>
              && Meets(p, req) && t.payTo != peer
              && MaySettle(l, p.auth, now) && SettlementDue(l, t, t.interaction, Some(peer), now)
  {
    PassesExactlyWhenMet(p, req);
    RequestSettlesExactly(l, p.auth, Some(peer), now);
    ChecksExactly(l, p.auth, now);
    PassedIsVerified(l, p.auth, now);
    hide CheckRequirements, VerifiedAuth, Check, Request;
  }

  // Why the payer's hub does not even look at what is settled, the first of these that holds:
  // the payee is that hub, an account of it, or the peer itself; the scheme or the ledger
  // stated is not this one; the authorization does not verify; the requirements are not met.
  lemma PeerRefusedExactly(l: Rows, peer: Aid, p: Payment, req: Requirements, now: clock)
    ensures var (answer, l') := SettleForPeer(l, peer, p, req, now);
            var misdirected := req.payTo.Some? && (req.payTo.value in {l.hub, peer} || req.payTo.value in l.registered);
            if misdirected then answer == Refused(PayeeMismatch) && l' == l
            else if !p.accepted.creditScheme then answer == Refused(UnsupportedScheme) && l' == l
            else if p.accepted.network != Some(l.hub) then answer == Refused(NetworkMismatch) && l' == l
            else if VerifiedAuth(l, p.auth).Some? then answer == Refused(VerifiedAuth(l, p.auth).value) && l' == l
            else if !Meets(p, req) then
              CheckRequirements(p, req).Some? && answer == Refused(CheckRequirements(p, req).value) && l' == l
            else (answer, l') == Request(l, p.auth, Some(peer), now)
  {
    PassesExactlyWhenMet(p, req);
    hide CheckRequirements, VerifiedAuth, Request;
  }

  // What the payer's hub charges when it settles: exactly what the payer signed, once,
  // owed to the hub that forwarded it; and the receipt says so.
  lemma ChargedWhatThePayerSigned(l: Rows, peer: Aid, p: Payment, req: Requirements, now: clock)
    requires SettleForPeer(l, peer, p, req, now).0.Success? && !SettleForPeer(l, peer, p, req, now).0.replayed
    requires p.auth.terms.payer != l.hub
    ensures var t := p.auth.terms; var (answer, l') := SettleForPeer(l, peer, p, req, now);
            && answer.receipt == ReceiptFor(t, now) && Meets(p, req) && t.network == l.hub
            && Get(l'.balance, t.payer) == Get(l.balance, t.payer) - t.amount >= 0
            && l'.due == Add(l.due, peer, t.amount)
            && t in l'.settled && l'.settled[t].receipt == answer.receipt && l'.settled[t].via == Some(peer)
  {
    PassesExactlyWhenMet(p, req);
    CheckWritesRecordsOnly(l, p.auth, now);
  }

  // ---- the two hubs together ----

  lemma ChargedStaysVerified(l: Rows, peer: Aid, p: Payment, req: Requirements, now: clock)
    requires SettleForPeer(l, peer, p, req, now).0.Success? && !SettleForPeer(l, peer, p, req, now).0.replayed
    ensures var l' := SettleForPeer(l, peer, p, req, now).1;
            && VerifiedAuth(l', p.auth) == VerifiedAuth(l, p.auth) == None
            && l'.hub == l.hub && l'.registered == l.registered
  {
    CheckWritesRecordsOnly(l, p.auth, now);
  }

  lemma AskedAgain(l: Rows, peer: Aid, p: Payment, req: Requirements, at: clock, again: clock)
    requires SettleForPeer(l, peer, p, req, at).0.Success? && !SettleForPeer(l, peer, p, req, at).0.replayed
    requires p.auth.terms.payer != l.hub
    ensures var charged := SettleForPeer(l, peer, p, req, at).1;
            SettleForPeer(charged, peer, p, req, again) == (Success(ReceiptFor(p.auth.terms, at), true), charged)
  {
    ChargedWhatThePayerSigned(l, peer, p, req, at);
    ChargedStaysVerified(l, peer, p, req, at);
    PassesExactlyWhenMet(p, req);
    hide VerifiedAuth, CheckRequirements, Check, SettleAuth, Meets;
  }

  lemma CreditedOnReceipt(entry: Rows, peer: Aid, p: Payment, req: Requirements, at: clock, now: clock)
    requires Meets(p, req) && p.auth.terms.network == peer
    requires !WindowTooLong(p.auth.terms.issuedAt, p.auth.terms.notAfter)
    requires p.auth.terms.payTo in entry.registered && entry.hub !in entry.registered
    requires p.auth.terms !in entry.cleared && entry.issued <= MAX_INT64 - p.auth.terms.amount
    requires at >= now - PEER_RECEIPT_MAX_AGE && at <= now + entry.maxSkew
    ensures var t := p.auth.terms;
            var (outcome, entry') :=
              SettleAtEntry(entry, peer, p, req, LedgerSettled(Some(ReceiptFor(t, at)), true), now);
            && outcome == Paid(ReceiptFor(t, at))
            && Get(entry'.balance, t.payTo) - Get(entry.balance, t.payTo) == t.amount
            && Get(entry'.owed, peer) - Get(entry.owed, peer) == t.amount
  {
    PassesExactlyWhenMet(p, req);
    hide CheckRequirements, WindowTooLong;
  }

  // Once the payer's hub charged, for the first time or before, the merchant is not told
  // that the payment failed while the answer is lost or its receipt does not verify: it is
  // pending, and nothing is credited.
  lemma ChargedIsPending(l: Rows, entry: Rows, p: Payment, req: Requirements, at: clock, now: clock)
    requires SettleForPeer(l, entry.hub, p, req, at).0.Success?
    requires req.payTo.Some? && req.payTo.value in entry.registered && entry.hub !in entry.registered
    ensures Forwards(entry, p, req) && req.network == Some(l.hub)
    ensures SettleAtEntry(entry, l.hub, p, req, Unknown, now) == (Pending, entry)
    ensures var receipt := SettleForPeer(l, entry.hub, p, req, at).0.receipt;
            Matches(receipt, p.auth.terms) ==>
              SettleAtEntry(entry, l.hub, p, req, LedgerSettled(Some(receipt), false), now) == (Pending, entry)
  {
    PassesExactlyWhenMet(p, req);
    WindowTooLongIsExact(p.auth.terms.issuedAt, p.auth.terms.notAfter);
    hide CheckRequirements, WindowTooLong, Request, SettleAtEntry, KeyValid;
    var receipt := SettleForPeer(l, entry.hub, p, req, at).0.receipt;
    AnsweredExactly(entry, l.hub, p, req, Unknown, now);
    AnsweredExactly(entry, l.hub, p, req, LedgerSettled(Some(receipt), false), now);
  }

  // A charge whose answer was lost, or came back and could not be credited, is pending, and
  // is completed by asking again: the payer's hub charges nothing more and answers with the receipt of
  // the charge, and the payee's hub credits exactly what was charged.
  lemma RetryCompletes(l: Rows, entry: Rows, p: Payment, req: Requirements, at: clock, again: clock, now: clock)
    requires l.hub != entry.hub && p.auth.terms.payer != l.hub
    requires SettleForPeer(l, entry.hub, p, req, at).0.Success? && !SettleForPeer(l, entry.hub, p, req, at).0.replayed
    requires p.auth.terms.payTo in entry.registered && entry.hub !in entry.registered
    requires p.auth.terms !in entry.cleared && entry.issued <= MAX_INT64 - p.auth.terms.amount
    requires at >= now - PEER_RECEIPT_MAX_AGE && at <= now + entry.maxSkew
    ensures var t := p.auth.terms;
            var charged := SettleForPeer(l, entry.hub, p, req, at).1;
            var (answer, l') := SettleForPeer(charged, entry.hub, p, req, again);
            && SettleAtEntry(entry, l.hub, p, req, Unknown, now) == (Pending, entry)
            && l' == charged && answer == Success(ReceiptFor(t, at), true)
            && var (outcome, entry') :=
                 SettleAtEntry(entry, l.hub, p, req, LedgerSettled(Some(answer.receipt), true), now);
               && outcome == Paid(ReceiptFor(t, at))
               && Get(entry'.balance, t.payTo) - Get(entry.balance, t.payTo) == t.amount
               && Get(entry'.owed, l.hub) - Get(entry.owed, l.hub) == t.amount
               && Get(charged.due, entry.hub) - Get(l.due, entry.hub) == t.amount
               && Get(l.balance, t.payer) - Get(charged.balance, t.payer) == t.amount
  {
    ChargedStaysVerified(l, entry.hub, p, req, at);
    ChargedWhatThePayerSigned(l, entry.hub, p, req, at);
    ChargedIsPending(l, entry, p, req, at, now);
    assert !WindowTooLong(p.auth.terms.issuedAt, p.auth.terms.notAfter);
    hide *;
    AskedAgain(l, entry.hub, p, req, at, again);
    CreditedOnReceipt(entry, l.hub, p, req, at, now);
    GetAdded(l.due, entry.hub, p.auth.terms.amount);
  }
}
