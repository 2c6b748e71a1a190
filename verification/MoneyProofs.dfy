/** Payments, charges and refunds: how the rows and the provider's ledger agree in every state. */
module MoneyProofs {
  import opened Types
  import opened Payments
  import opened System
  import opened Frames
  import opened KeyProofs
  import opened LockProofs
  import Outbox

  // Where the request that inserted a payment can be while the payment's charge has not succeeded.
  predicate Unpaid(pc: Pc) {
    pc.Claimed? || pc.ChargeFailed? || pc.Releasing? || (pc.Crashed? && pc.inside)
    || ((pc.Answered? || (pc.Done? && pc.via.Handled?)) && pc.answer.status != 200)
  }

  predicate StatusOk(paid: map<PaymentId, nat>, refunds: map<nat, RefundRequest>, p: PaymentId, x: Payment) {
    match x.status
    case Pending => x.intent == Provisional(p) && x.refund.None?
    case Failed => x.intent == Provisional(p) && x.refund.None? && p !in paid
    case Succeeded => p in paid && x.intent == Intent(paid[p]) && x.refund.None?
    case Refunded =>
      p in paid && x.intent == Intent(paid[p])
      && x.refund.Some? && x.refund.value in refunds && refunds[x.refund.value].payment == p
  }

  ghost predicate PaymentOk(s: Sys, p: PaymentId) {
    p in s.payments ==> var x := s.payments[p];
      && p < s.clock && x.createdAt == p && x.amount >= 0 && p in s.hist.claims && s.hist.claims[p] in s.reqs
      && StatusOk(s.hist.paid, s.prov.refunds, p, x)
      && var q := s.reqs[s.hist.claims[p]];
         q.call.Purchase? && x.user == q.user && (if p in s.hist.paid then PostCharge(q.pc) else Unpaid(q.pc))
  }

  ghost predicate Rows(s: Sys) {
    && s.hist.claims.Keys == s.payments.Keys
    && (forall p :: PaymentOk(s, p))
    && (forall p, p' | p in s.hist.claims && p' in s.hist.claims && s.hist.claims[p] == s.hist.claims[p'] :: p == p')
  }

  ghost predicate PaidOk(s: Sys, p: PaymentId) {
    p in s.hist.paid ==> var n := s.hist.paid[p];
      && p in s.payments && n in s.prov.made && s.prov.made[n].amount == s.payments[p].amount
      && n in s.hist.payer && s.hist.payer[n] == p
  }

  ghost predicate MadeOk(s: Sys, n: nat) {
    n in s.prov.made ==> n in s.hist.payer && s.hist.payer[n] in s.hist.paid && s.hist.paid[s.hist.payer[n]] == n
  }

  ghost predicate RefundRow(s: Sys, n: nat) {
    n in s.prov.refunds ==> var q := s.prov.refunds[n];
      && q.payment in s.hist.paid && q.payment in s.payments
      && q.charge == Intent(s.hist.paid[q.payment]) && q.amount == s.payments[q.payment].amount
      && (s.payments[q.payment].status.Succeeded? || s.payments[q.payment].status.Refunded?)
  }

  ghost predicate Books(s: Sys) {
    && LedgerOk(s.prov)
    && (forall p :: PaidOk(s, p))
    && (forall n: nat :: MadeOk(s, n))
    && (forall n: nat :: RefundRow(s, n))
    && (forall p: PaymentId | PaymentKey(p) in s.prov.byKey :: p in s.hist.paid)
  }

  predicate AtCharge(pc: Pc) {
    pc.Claimed? || pc.Charged? || pc.ChargeFailed? || pc.Releasing?
  }

  ghost predicate PayPc(s: Sys, r: ReqId) {
    r in s.reqs && AtCharge(s.reqs[r].pc) ==> var pc := s.reqs[r].pc;
      && pc.p in s.payments && pc.p in s.hist.claims && s.hist.claims[pc.p] == r
      && s.payments[pc.p].status.Pending? && s.payments[pc.p].ticket == pc.t
      && (pc.Claimed? || pc.Charged? ==> s.payments[pc.p].amount == pc.amount)
      && (if pc.Charged? then pc.p in s.hist.paid && s.hist.paid[pc.p] == pc.n else pc.p !in s.hist.paid)
  }

  predicate WasSettled(f: Option<Found>) {
    f.Some? ==> f.value.row.status == Succeeded || f.value.row.status == PayStatus.Refunded
  }

  // ByTicket finds settled and refunded rows only.
  lemma {:induction false} NewestWasSettled(payments: map<PaymentId, Payment>, t: TicketId, hi: nat)
    ensures WasSettled(NewestBelow(payments, t, hi))
  {
    if hi > 0 { NewestWasSettled(payments, t, hi - 1); }
  }

  /** A payment row read earlier still tells the truth about the charge. */
  ghost predicate FoundOk(s: Sys, f: Found, t: TicketId) {
    && f.id in s.payments && f.id in s.hist.paid
    && (s.payments[f.id].status.Succeeded? || s.payments[f.id].status.Refunded?)
    && s.payments[f.id].ticket == t && f.row.ticket == t
    && f.row.amount == s.payments[f.id].amount && f.row.intent == Intent(s.hist.paid[f.id])
  }

  ghost predicate SomeFound(s: Sys, f: Option<Found>, t: TicketId) {
    f.Some? ==> FoundOk(s, f.value, t)
  }

  ghost predicate ReqFound(s: Sys, r: ReqId) {
    r in s.reqs && s.reqs[r].call.Cancellation? ==> var t := s.reqs[r].call.ticket;
      match s.reqs[r].pc
      case Attempt(_, captured) => SomeFound(s, captured, t)
      case Snapped(_, captured, snap) => SomeFound(s, captured, t) && SomeFound(s, snap.pick, t)
      case Cancelling(_, captured, snap, _) => SomeFound(s, captured, t) && SomeFound(s, snap.pick, t)
      case CancelReady(_, captured, snap, _) => SomeFound(s, captured, t) && SomeFound(s, snap.pick, t)
      case Refunding(found) => FoundOk(s, found, t)
      case Marking(found, n) => FoundOk(s, found, t) && n in s.prov.refunds && s.prov.refunds[n].payment == found.id
      case _ => true
  }

  ghost predicate Links(s: Sys) {
    && (forall r :: PayPc(s, r))
    && (forall r :: ReqFound(s, r))
  }

  ghost predicate MoneyInv(s: Sys) {
    Rows(s) && Books(s) && Links(s)
  }

  // ---------------------------------------------------------------- acts that move no money

  predicate PcKeeps(pc: Pc, pc': Pc) {
    (PostCharge(pc) ==> PostCharge(pc')) && (Unpaid(pc) ==> Unpaid(pc'))
  }

  ghost predicate SameMoney(s: Sys, s': Sys, r: ReqId) {
    && OnlyPc(s, s', r) && s'.payments == s.payments && s'.prov == s.prov && s'.clock == s.clock
    && s'.hist.claims == s.hist.claims && s'.hist.paid == s.hist.paid && s'.hist.payer == s.hist.payer
  }

  lemma MoneySame(s: Sys, s': Sys, r: ReqId)
    requires MoneyInv(s) && SameMoney(s, s', r) && PcKeeps(s.reqs[r].pc, s'.reqs[r].pc)
    requires PayPc(s', r) && ReqFound(s', r)
    ensures MoneyInv(s')
  {
    hide StatusOk, LedgerOk;
    forall p ensures PaymentOk(s', p) { assert PaymentOk(s, p); }
    forall p ensures PaidOk(s', p) { assert PaidOk(s, p); }
    forall n: nat ensures MadeOk(s', n) { assert MadeOk(s, n); }
    forall n: nat ensures RefundRow(s', n) { assert RefundRow(s, n); }
    forall j ensures PayPc(s', j) { assert PayPc(s, j); }
    forall j ensures ReqFound(s', j) { assert ReqFound(s, j); }
  }

  /** ByTicket's row: refundable, as stored, and none refundable is newer. */
  lemma {:induction false} NewestIs(payments: map<PaymentId, Payment>, t: TicketId, hi: nat)
    ensures var f := NewestBelow(payments, t, hi);
      && (f.Some? ==> f.value.id < hi && Refundable(payments, t, f.value.id) && f.value.row == payments[f.value.id])
      && (forall p: nat | p < hi && Refundable(payments, t, p) ::
            f.Some? && payments[p].createdAt <= f.value.row.createdAt)
  {
    if hi > 0 { NewestIs(payments, t, hi - 1); }
  }

  lemma PickFound(s: Sys, t: TicketId)
    requires MoneyInv(s)
    ensures SomeFound(s, ByTicket(s, t), t)
  {
    NewestIs(s.payments, t, s.clock);
    var f := ByTicket(s, t);
    if f.Some? { assert PaymentOk(s, f.value.id); }
  }

  // ---------------------------------------------------------------- the request's own links, quiet acts

  ghost predicate OwnMoney(s: Sys, s': Sys, r: ReqId) {
    && r in s.reqs && r in s'.reqs && PcKeeps(s.reqs[r].pc, s'.reqs[r].pc)
    && PayPc(s', r) && ReqFound(s', r)
  }

  // Neither a payment nor a found row in hand afterwards.
  predicate EmptyHanded(pc: Pc) {
    !AtCharge(pc) && !InAttempt(pc) && !pc.Refunding? && !pc.Marking?
  }

  lemma GateCarries(q: Req, g: GateAct, pc: Pc)
    requires GateMoves(q, g, pc)
    ensures PcKeeps(q.pc, pc) && (EmptyHanded(pc) || pc == Attempt(1, None))
  {}

  lemma OwnGate(s: Sys, r: ReqId, g: GateAct)
    requires CanGate(s, r, g)
    ensures OwnMoney(s, DoGate(s, r, g), r)
  {
    GateFrame(s, r, g);
    GateCarries(s.reqs[r], g, DoGate(s, r, g).reqs[r].pc);
    hide DoGate, CanGate, GateMoves, PcKeeps;
  }

  lemma OwnClaim(s: Sys, r: ReqId, c: ClaimAct)
    requires CanClaim(s, r, c) && !c.ClaimCommit? && ReqLock(s, r)
    ensures OwnMoney(s, DoClaim(s, r, c), r)
  {
    ClaimFrame(s, r, c);
    hide IsPick, Candidate, Outbox.CanQueue, Outbox.DoQueue, Rollback, Outbox.CanRelay;
    assert EmptyHanded(DoClaim(s, r, c).reqs[r].pc);
  }

  lemma OwnPay(s: Sys, r: ReqId, y: PayAct)
    requires CanPay(s, r, y) && !y.ChargeOk? && !y.Settle? && PayPc(s, r) && ReqLock(s, r)
    ensures OwnMoney(s, DoPay(s, r, y), r)
  {
    PayFrame(s, r, y);
    hide DoPay, CanPay;
  }

  lemma OwnRelease(s: Sys, r: ReqId, l: ReleaseAct)
    requires CanRelease(s, r, l) && !l.ReleaseCommit? && PayPc(s, r) && ReqLock(s, r)
    ensures OwnMoney(s, DoRelease(s, r, l), r)
  {
    ReleaseFrame(s, r, l);
    ReleaseQuiet(s, r, l);
    hide DoRelease, CanRelease;
  }

  lemma OwnRead(s: Sys, r: ReqId)
    requires CanCancel(s, r, CancelRead) && ReqFound(s, r)
    requires SomeFound(s, ByTicket(s, s.reqs[r].call.ticket), s.reqs[r].call.ticket)
    ensures OwnMoney(s, DoCancel(s, r, CancelRead), r)
  {
    ReadFrame(s, r);
    hide FoundOk, ByTicket, CancelRollback, FreeRow, CalledOffBy, CancelEvent, Capture, Outbox.CanQueue, Outbox.DoQueue;
  }

  lemma OwnCancel(s: Sys, r: ReqId, x: CancelAct)
    requires CanCancel(s, r, x) && !x.CancelCommit? && ReqFound(s, r)
    requires SomeFound(s, ByTicket(s, s.reqs[r].call.ticket), s.reqs[r].call.ticket)
    ensures OwnMoney(s, DoCancel(s, r, x), r)
  {
    hide CanCancel, DoCancel, OwnMoney, SomeFound, ReqFound, FoundOk;
    if x.CancelRead? {
      OwnRead(s, r);
    } else {
      OwnAttempt(s, r, x);
    }
  }

  lemma OwnAttempt(s: Sys, r: ReqId, x: CancelAct)
    requires CanCancel(s, r, x) && !x.CancelCommit? && !x.CancelRead? && ReqFound(s, r)
    ensures OwnMoney(s, DoCancel(s, r, x), r)
  {
    hide ByTicket, TakeSnapshot, Outbox.CanQueue, Outbox.DoQueue, CancelRollback, CancelMoves;
    CancelFrame(s, r, x);
    RollbackFrame(s, r);
  }

  lemma OwnRefund(s: Sys, r: ReqId, f: RefundAct)
    requires CanRefund(s, r, f) && !f.RefundOk? && !f.RefundMark? && ReqFound(s, r)
    ensures OwnMoney(s, DoRefund(s, r, f), r)
  {}

  lemma OwnCrash(s: Sys, r: ReqId)
    requires CanCrash(s, r)
    ensures OwnMoney(s, DoCrash(s, r), r)
  {
    CrashFrame(s, r);
    hide DoCrash;
  }

  lemma MoneyQuiet(s: Sys, r: ReqId, a: Act)
    requires LockInv(s) && MoneyInv(s) && CanAct(s, r, a) && !Major(a)
    ensures MoneyInv(DoAct(s, r, a))
  {
    TameAct(s, r, a);
    assert PayPc(s, r) && ReqFound(s, r) && ReqLock(s, r);
    hide LockInv, ReqLock, PayPc, ReqFound, DoGate, DoClaim, DoPay, DoRelease, DoCancel, DoRefund, DoCrash;
    if a.Cancel? { PickFound(s, s.reqs[r].call.ticket); }
    hide MoneyInv, SomeFound, ByTicket;
    match a {
      case Gate(g) => OwnGate(s, r, g);
      case Claim(c) => OwnClaim(s, r, c);
      case Pay(y) => OwnPay(s, r, y);
      case Release(l) => OwnRelease(s, r, l);
      case Cancel(x) => OwnCancel(s, r, x);
      case Refund(f) => OwnRefund(s, r, f);
      case Crash => OwnCrash(s, r);
    }
    MoneySame(s, DoAct(s, r, a), r);
  }

  // ---------------------------------------------------------------- acts that move money

  // The commit of a claim: a fresh pending row.
  ghost predicate Inserts(s: Sys, s': Sys, r: ReqId, x: Payment) {
    && OnlyPc(s, s', r) && s.reqs[r].pc.Claiming? && s'.reqs[r].pc == Claimed(x.ticket, s.clock, x.amount)
    && s'.clock == s.clock + 1 && s'.payments == s.payments[s.clock := x]
    && s'.hist.claims == s.hist.claims[s.clock := r] && s'.hist.paid == s.hist.paid && s'.hist.payer == s.hist.payer
    && s'.prov == s.prov
    && s.reqs[r].call.Purchase? && x.user == s.reqs[r].user
    && x.intent == Provisional(s.clock) && x.status.Pending? && x.refund.None? && x.createdAt == s.clock && x.amount >= 0
  }

  lemma RowsInserts(s: Sys, s': Sys, r: ReqId, x: Payment)
    requires MoneyInv(s) && Inserts(s, s', r, x)
    ensures Rows(s')
  {
    hide LedgerOk, Links;
    assert PaidOk(s, s.clock) && PaymentOk(s, s.clock);
    forall p ensures PaymentOk(s', p) { assert PaymentOk(s, p); }
    forall p | p in s.hist.claims ensures s.hist.claims[p] != r { assert PaymentOk(s, p); }
  }

  lemma BooksInserts(s: Sys, s': Sys, r: ReqId, x: Payment)
    requires MoneyInv(s) && Inserts(s, s', r, x)
    ensures Books(s')
  {
    hide LedgerOk, Links, StatusOk;
    assert PaymentOk(s, s.clock);
    forall p ensures PaidOk(s', p) { assert PaidOk(s, p); }
    forall n: nat ensures MadeOk(s', n) { assert MadeOk(s, n); }
    forall n: nat ensures RefundRow(s', n) { assert RefundRow(s, n); }
  }

  lemma LinksInserts(s: Sys, s': Sys, r: ReqId, x: Payment)
    requires MoneyInv(s) && Inserts(s, s', r, x)
    ensures Links(s')
  {
    hide LedgerOk, StatusOk;
    assert PaidOk(s, s.clock) && PaymentOk(s, s.clock);
    forall j ensures PayPc(s', j) { assert PayPc(s, j); }
    forall j ensures ReqFound(s', j) { assert ReqFound(s, j); }
  }

  lemma MoneyClaimCommit(s: Sys, r: ReqId, mid: MsgId)
    requires MoneyInv(s) && CanClaim(s, r, ClaimCommit(mid))
    ensures MoneyInv(DoClaim(s, r, ClaimCommit(mid)))
  {
    hide Rows, Books, Links, SoldRow, ClaimEvent, Outbox.CanQueue, Outbox.DoQueue;
    ClaimFrame(s, r, ClaimCommit(mid));
    var s' := DoClaim(s, r, ClaimCommit(mid));
    var x := s'.payments[s.clock];
    assert Inserts(s, s', r, x);
    hide Inserts, DoClaim;
    RowsInserts(s, s', r, x);
    BooksInserts(s, s', r, x);
    LinksInserts(s, s', r, x);
  }

  // A successful charge: a fresh entry in the ledger under a key nobody used.
  ghost predicate Charges(s: Sys, s': Sys, r: ReqId, key: ProviderKey) {
    && OnlyPc(s, s', r) && s.reqs[r].pc.Claimed? && key !in s.prov.byKey
    && var pc, n := s.reqs[r].pc, s.prov.issued + 1;
    && (key.PaymentKey? ==> key.payment == pc.p)
    && s'.reqs[r].pc == Charged(pc.t, pc.p, pc.amount, n)
    && s'.prov == s.prov.(issued := n, made := s.prov.made[n := PaymentIntent(n, pc.amount)], byKey := s.prov.byKey[key := n])
    && s'.hist.paid == s.hist.paid[pc.p := n] && s'.hist.payer == s.hist.payer[n := pc.p]
    && s'.payments == s.payments && s'.clock == s.clock && s'.hist.claims == s.hist.claims
  }

  lemma RowsCharges(s: Sys, s': Sys, r: ReqId, key: ProviderKey)
    requires MoneyInv(s) && Charges(s, s', r, key)
    ensures Rows(s')
  {
    hide LedgerOk, ReqFound, Books;
    assert PayPc(s, r);
    forall p ensures PaymentOk(s', p) { assert PaymentOk(s, p); }
  }

  lemma FreshEntry(l: Ledger, key: ProviderKey, amount: int)
    requires LedgerOk(l) && key !in l.byKey
    ensures var n := l.issued + 1;
      LedgerOk(l.(issued := n, made := l.made[n := PaymentIntent(n, amount)], byKey := l.byKey[key := n])) && n !in l.made
  {}

  lemma EntryCharges(s: Sys, s': Sys, r: ReqId, key: ProviderKey)
    requires MoneyInv(s) && Charges(s, s', r, key)
    ensures forall p :: PaidOk(s', p)
    ensures forall n: nat :: MadeOk(s', n)
  {
    FreshEntry(s.prov, key, s.reqs[r].pc.amount);
    assert PayPc(s, r);
    hide ReqFound, PayPc, PaymentOk, LedgerOk, RefundRow;
    forall p ensures PaidOk(s', p) { assert PaidOk(s, p); }
    forall n: nat ensures MadeOk(s', n) { assert MadeOk(s, n); }
  }

  lemma BooksCharges(s: Sys, s': Sys, r: ReqId, key: ProviderKey)
    requires MoneyInv(s) && Charges(s, s', r, key)
    ensures Books(s')
  {
    EntryCharges(s, s', r, key);
    RefundsCharges(s, s', r, key);
    FreshEntry(s.prov, key, s.reqs[r].pc.amount);
    hide Rows, Links, LedgerOk, PaidOk, MadeOk, RefundRow;
  }

  lemma RefundsCharges(s: Sys, s': Sys, r: ReqId, key: ProviderKey)
    requires MoneyInv(s) && Charges(s, s', r, key)
    ensures forall n: nat :: RefundRow(s', n)
  {
    assert PayPc(s, r);
    hide Rows, LedgerOk, PaidOk, MadeOk, ReqFound;
    forall n: nat ensures RefundRow(s', n) { assert RefundRow(s, n); }
  }

  lemma LinksCharges(s: Sys, s': Sys, r: ReqId, key: ProviderKey)
    requires MoneyInv(s) && Charges(s, s', r, key)
    ensures Links(s')
  {
    hide Books, PaymentOk;
    assert PayPc(s, r);
    forall j ensures PayPc(s', j) { assert PayPc(s, j); }
    forall j ensures ReqFound(s', j) { assert ReqFound(s, j); }
  }

  /** The key of a charge about to be made was never used: one claim, one charge. */
  lemma KeyIsFresh(s: Sys, r: ReqId)
    requires KeyInv(s) && MoneyInv(s) && r in s.reqs && s.reqs[r].pc.Claimed?
    ensures ChargeKey(s.reqs[r], s.reqs[r].pc.p) !in s.prov.byKey
  {
    hide LedgerOk, Rows;
    assert PayPc(s, r) && ReqBound(s, r);
    if s.reqs[r].key.Some? { assert KeySpent(s, s.reqs[r].key.value); }
  }

  lemma MoneyCharge(s: Sys, r: ReqId)
    requires KeyInv(s) && MoneyInv(s) && CanPay(s, r, ChargeOk)
    ensures MoneyInv(DoPay(s, r, ChargeOk))
  {
    hide KeyInv, Rows, Books, Links;
    KeyIsFresh(s, r);
    var s' := DoPay(s, r, ChargeOk);
    var key := ChargeKey(s.reqs[r], s.reqs[r].pc.p);
    assert Charges(s, s', r, key);
    hide Charges, DoPay;
    RowsCharges(s, s', r, key);
    BooksCharges(s, s', r, key);
    LinksCharges(s, s', r, key);
  }

  // One row's status moves forward: settled or failed by the request that inserted it, or refunded.
  ghost predicate Rewrites(s: Sys, s': Sys, r: ReqId, p: PaymentId, x: Payment) {
    && OnlyPc(s, s', r) && PcKeeps(s.reqs[r].pc, s'.reqs[r].pc) && EmptyHanded(s'.reqs[r].pc)
    && p in s.payments && p in s.hist.claims && s'.payments == s.payments[p := x]
    && x == s.payments[p].(intent := x.intent, status := x.status, refund := x.refund)
    && StatusOk(s.hist.paid, s.prov.refunds, p, x)
    && ((s.payments[p].status.Pending? && s.hist.claims[p] == r && (x.status.Succeeded? || x.status.Failed?))
        || (s.payments[p].status.Succeeded? && x.status.Refunded?))
    && s'.prov == s.prov && s'.clock == s.clock
    && s'.hist.claims == s.hist.claims && s'.hist.paid == s.hist.paid && s'.hist.payer == s.hist.payer
  }

  lemma RewritesRows(s: Sys, s': Sys, r: ReqId, p: PaymentId, x: Payment)
    requires Rows(s) && Rewrites(s, s', r, p, x)
    ensures Rows(s')
  {
    hide StatusOk;
    forall p' ensures PaymentOk(s', p') { assert PaymentOk(s, p'); }
  }

  lemma RewritesKeeps(s: Sys, s': Sys, r: ReqId, p: PaymentId, x: Payment)
    requires MoneyInv(s) && Rewrites(s, s', r, p, x)
    ensures MoneyInv(s')
  {
    hide Rows, Books, Links, Rewrites;
    RewritesRows(s, s', r, p, x);
    RewritesBooks(s, s', r, p, x);
    RewritesLinks(s, s', r, p, x);
  }

  lemma RewritesBooks(s: Sys, s': Sys, r: ReqId, p: PaymentId, x: Payment)
    requires Books(s) && Rewrites(s, s', r, p, x)
    ensures Books(s')
  {
    hide LedgerOk, StatusOk;
    forall p' ensures PaidOk(s', p') { assert PaidOk(s, p'); }
    forall n: nat ensures MadeOk(s', n) { assert MadeOk(s, n); }
    forall n: nat ensures RefundRow(s', n) { assert RefundRow(s, n); }
  }

  lemma RewritesLinks(s: Sys, s': Sys, r: ReqId, p: PaymentId, x: Payment)
    requires Links(s) && Rewrites(s, s', r, p, x)
    ensures Links(s')
  {
    hide StatusOk;
    forall j ensures PayPc(s', j) { assert PayPc(s, j); }
    forall j ensures ReqFound(s', j) { assert ReqFound(s, j); }
  }

  lemma MoneySettle(s: Sys, r: ReqId)
    requires MoneyInv(s) && CanPay(s, r, Settle)
    ensures MoneyInv(DoPay(s, r, Settle))
  {
    assert PayPc(s, r) && PaymentOk(s, s.reqs[r].pc.p);
    hide Rows, Books, Links;
    var s' := DoPay(s, r, Settle);
    var p := s.reqs[r].pc.p;
    assert Rewrites(s, s', r, p, s'.payments[p]);
    hide Rewrites, DoPay;
    RewritesKeeps(s, s', r, p, s'.payments[p]);
  }

  lemma MoneyReleaseCommit(s: Sys, r: ReqId)
    requires MoneyInv(s) && CanRelease(s, r, ReleaseCommit)
    ensures MoneyInv(DoRelease(s, r, ReleaseCommit))
  {
    assert PayPc(s, r) && PaymentOk(s, s.reqs[r].pc.p);
    ReleaseHist(s, r, ReleaseCommit);
    hide Rows, Books, Links, Freed, FreeRow;
    var s' := DoRelease(s, r, ReleaseCommit);
    var p := s.reqs[r].pc.p;
    assert Rewrites(s, s', r, p, s'.payments[p]);
    hide Rewrites, DoRelease;
    RewritesKeeps(s, s', r, p, s'.payments[p]);
  }

  lemma MoneyRefundMark(s: Sys, r: ReqId)
    requires LockInv(s) && MoneyInv(s) && CanRefund(s, r, RefundMark)
    ensures MoneyInv(DoRefund(s, r, RefundMark))
  {
    var p := s.reqs[r].pc.found.id;
    assert ReqFound(s, r) && PaymentOk(s, p) && ReqLock(s, r);
    hide LockInv, Rows, Books, Links, DoRefund, PaymentOk;
    if s.payments[p].status.Succeeded? {
      MarkRewrites(s, r, p);
      hide Rewrites;
      RewritesKeeps(s, DoRefund(s, r, RefundMark), r, p, DoRefund(s, r, RefundMark).payments[p]);
    } else {
      MarkSame(s, r, p);
      MoneySame(s, DoRefund(s, r, RefundMark), r);
    }
  }

  lemma MarkRewrites(s: Sys, r: ReqId, p: PaymentId)
    requires ReqFound(s, r) && ReqLock(s, r) && PaymentOk(s, p) && CanRefund(s, r, RefundMark) && p == s.reqs[r].pc.found.id
    requires s.payments[p].status.Succeeded?
    ensures p in DoRefund(s, r, RefundMark).payments
    ensures Rewrites(s, DoRefund(s, r, RefundMark), r, p, DoRefund(s, r, RefundMark).payments[p])
  {}

  lemma MarkSame(s: Sys, r: ReqId, p: PaymentId)
    requires CanRefund(s, r, RefundMark) && p == s.reqs[r].pc.found.id && !s.payments[p].status.Succeeded?
    ensures var s' := DoRefund(s, r, RefundMark);
      SameMoney(s, s', r) && PcKeeps(s.reqs[r].pc, s'.reqs[r].pc) && PayPc(s', r) && ReqFound(s', r)
  {}

  // A refund is issued: a fresh entry naming the found row's charge.
  ghost predicate Issues(s: Sys, s': Sys, r: ReqId, f: Found, t: TicketId) {
    && OnlyPc(s, s', r) && FoundOk(s, f, t) && s.reqs[r].pc == System.Refunding(f) && t == Target(s.reqs[r])
    && var n := s.prov.issued + 1;
    && s'.reqs[r].pc == Marking(f, n)
    && s'.prov == s.prov.(issued := n, refunds := s.prov.refunds[n := RefundRequest(f.row.intent, f.row.amount, f.id)],
                          refundKeys := s'.prov.refundKeys)
    && LedgerOk(s'.prov)
    && s'.payments == s.payments && s'.clock == s.clock
    && s'.hist.claims == s.hist.claims && s'.hist.paid == s.hist.paid && s'.hist.payer == s.hist.payer
  }

  function Target(q: Req): TicketId {
    if q.call.Cancellation? then q.call.ticket else 0
  }

  lemma IssuesKeeps(s: Sys, s': Sys, r: ReqId, f: Found, t: TicketId)
    requires MoneyInv(s) && Issues(s, s', r, f, t)
    ensures Rows(s') && Books(s')
  {
    assert forall n | n in s.prov.refunds :: n <= s.prov.issued;
    hide Links, LedgerOk;
    forall p ensures PaymentOk(s', p) { assert PaymentOk(s, p); }
    forall p ensures PaidOk(s', p) { assert PaidOk(s, p); }
    forall n: nat ensures MadeOk(s', n) { assert MadeOk(s, n); }
    forall n: nat ensures RefundRow(s', n) { assert RefundRow(s, n); }
  }

  lemma IssuesLinks(s: Sys, s': Sys, r: ReqId, f: Found, t: TicketId)
    requires MoneyInv(s) && Issues(s, s', r, f, t)
    ensures Links(s')
  {
    hide Rows;
    assert forall n | n in s.prov.refunds :: n <= s.prov.issued;
    forall j ensures PayPc(s', j) { assert PayPc(s, j); }
    forall j ensures ReqFound(s', j) { assert ReqFound(s, j); }
  }

  lemma MoneyRefund(s: Sys, r: ReqId)
    requires LockInv(s) && MoneyInv(s) && CanRefund(s, r, RefundOk)
    ensures MoneyInv(DoRefund(s, r, RefundOk))
  {
    if ReplaysRefund(s.prov, s.reqs[r].pc.found.id) { MoneyReplay(s, r); } else { MoneyIssue(s, r); }
  }

  lemma MoneyIssue(s: Sys, r: ReqId)
    requires LockInv(s) && MoneyInv(s) && CanRefund(s, r, RefundOk) && !ReplaysRefund(s.prov, s.reqs[r].pc.found.id)
    ensures MoneyInv(DoRefund(s, r, RefundOk))
  {
    assert ReqFound(s, r) && ReqLock(s, r);
    var q, s' := s.reqs[r], DoRefund(s, r, RefundOk);
    assert LedgerOk(s'.prov) by { RefundKeepsOk(s.prov, q.pc.found); }
    hide LockInv, Rows, Books, Links, LedgerOk;
    assert Issues(s, s', r, q.pc.found, Target(q));
    hide Issues, DoRefund;
    IssuesKeeps(s, s', r, q.pc.found, Target(q));
    IssuesLinks(s, s', r, q.pc.found, Target(q));
  }

  lemma RefundKeepsOk(l: Ledger, f: Found)
    requires LedgerOk(l)
    ensures LedgerOk(Payments.Refunding(l, RefundRequest(f.row.intent, f.row.amount, f.id)).0)
  {
    ServeKeepsOk(l, RefundCall(RefundRequest(f.row.intent, f.row.amount, f.id), None));
  }

  // The provider answers with the refund it remembers; no row and no entry changes.
  lemma MoneyReplay(s: Sys, r: ReqId)
    requires LockInv(s) && MoneyInv(s) && CanRefund(s, r, RefundOk) && ReplaysRefund(s.prov, s.reqs[r].pc.found.id)
    ensures MoneyInv(DoRefund(s, r, RefundOk))
  {
    assert ReqFound(s, r) && ReqLock(s, r) && LedgerOk(s.prov);
    hide LockInv, Rows, Books, Links;
    MoneySame(s, DoRefund(s, r, RefundOk), r);
  }

  lemma MoneyCancelCommit(s: Sys, r: ReqId, mid: MsgId)
    requires MoneyInv(s) && CanCancel(s, r, CancelCommit(mid))
    ensures MoneyInv(DoCancel(s, r, CancelCommit(mid)))
  {
    assert ReqFound(s, r);
    hide MoneyInv, DoCancel, CanCancel, ReqFound, PayPc, PcKeeps;
    CancelFrame(s, r, CancelCommit(mid));
    CancelHist(s, r, CancelCommit(mid));
    OwnCommit(s, r, mid);
    MoneySame(s, DoCancel(s, r, CancelCommit(mid)), r);
  }

  lemma OwnCommit(s: Sys, r: ReqId, mid: MsgId)
    requires ReqFound(s, r) && CanCancel(s, r, CancelCommit(mid))
    ensures OwnMoney(s, DoCancel(s, r, CancelCommit(mid)), r)
  {
    CommitPc(s, r, mid);
    var s' := DoCancel(s, r, CancelCommit(mid));
    SameFound(s, s', s.reqs[r].pc.captured, s.reqs[r].call.ticket);
    hide DoCancel, CanCancel, FoundOk;
  }

  lemma CommitPc(s: Sys, r: ReqId, mid: MsgId)
    requires CanCancel(s, r, CancelCommit(mid))
    ensures var s' := DoCancel(s, r, CancelCommit(mid));
      && OnlyPc(s, s', r) && s'.reqs[r].pc == AfterCommit(s.reqs[r].pc.captured)
      && s'.payments == s.payments && s'.hist.paid == s.hist.paid
  {
    CancelCommitted(s, r, mid);
    CancelHist(s, r, CancelCommit(mid));
    hide DoCancel, CanCancel, FreeRow;
  }

  lemma SameFound(s: Sys, s': Sys, f: Option<Found>, t: TicketId)
    requires s'.payments == s.payments && s'.hist.paid == s.hist.paid
    ensures SomeFound(s, f, t) ==> SomeFound(s', f, t)
  {}

  lemma MoneyAct(s: Sys, r: ReqId, a: Act)
    requires LockInv(s) && KeyInv(s) && MoneyInv(s) && CanAct(s, r, a)
    ensures MoneyInv(DoAct(s, r, a))
  {
    hide LockInv, KeyInv, MoneyInv;
    if !Major(a) {
      MoneyQuiet(s, r, a);
    } else {
      match a
      case Claim(c) => MoneyClaimCommit(s, r, c.mid);
      case Pay(y) => if y.ChargeOk? { MoneyCharge(s, r); } else { MoneySettle(s, r); }
      case Release(l) => MoneyReleaseCommit(s, r);
      case Cancel(x) => MoneyCancelCommit(s, r, x.mid);
      case Refund(f) => if f.RefundOk? { MoneyRefund(s, r); } else { MoneyRefundMark(s, r); }
    }
  }

  lemma MoneyElse(s: Sys, s': Sys)
    requires MoneyInv(s) && s'.payments == s.payments && s'.prov == s.prov && s'.clock == s.clock
    requires s'.hist == s.hist.(minted := s'.hist.minted) && s.reqs.Keys <= s'.reqs.Keys
    requires forall r | r in s.reqs :: s'.reqs[r] == s.reqs[r]
    requires forall r | r in s'.reqs && r !in s.reqs :: s'.reqs[r].pc.Arrived?
    ensures MoneyInv(s')
  {
    hide StatusOk, LedgerOk;
    forall p ensures PaymentOk(s', p) { assert PaymentOk(s, p); }
    forall p ensures PaidOk(s', p) { assert PaidOk(s, p); }
    forall n: nat ensures MadeOk(s', n) { assert MadeOk(s, n); }
    forall n: nat ensures RefundRow(s', n) { assert RefundRow(s, n); }
    forall j ensures PayPc(s', j) { assert PayPc(s, j); }
    forall j ensures ReqFound(s', j) { assert ReqFound(s, j); }
  }

  lemma MoneyKept(s: Sys, step: Step)
    requires LockInv(s) && KeyInv(s) && MoneyInv(s) && Enabled(s, step)
    ensures MoneyInv(Apply(s, step))
  {
    hide LockInv, KeyInv, MoneyInv, CanAct, DoAct;
    match step
    case Do(r, a) => MoneyAct(s, r, a);
    case _ => MoneyElse(s, Apply(s, step));
  }

  lemma MoneyInit(s: Sys)
    requires Init(s)
    ensures MoneyInv(s)
  {}
}
