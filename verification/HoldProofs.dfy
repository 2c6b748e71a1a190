/** Who holds a ticket through which payment, and what releases and refunds do to holders. */
module HoldProofs {
  import opened Types
  import opened System
  import opened Frames
  import opened LockProofs
  import opened SeatProofs
  import opened MoneyProofs
  import Outbox

  // No payment of the ticket is newer.
  ghost predicate Newest(s: Sys, t: TicketId, p: PaymentId) {
    forall p' | p' in s.payments && s.payments[p'].ticket == t :: p' <= p
  }

  /** A ticket bought through a purchase: its newest payment is the holder's, at the ticket's price. */
  ghost predicate HeldOk(s: Sys, t: TicketId) {
    t in s.hist.held ==> var p := s.hist.held[t];
      && t in s.tickets && s.tickets[t].status.Bought? && p in s.payments && s.payments[p].ticket == t
      && s.tickets[t].owner == Some(s.payments[p].user) && s.payments[p].amount == s.tickets[t].price
      && s.tickets[t].boughtAt == Some(p)
      && (s.payments[p].status.Pending? || s.payments[p].status.Succeeded?)
      && Newest(s, t, p)
  }

  // Sold through a claim, or sold before the history starts and not claimed since.
  ghost predicate SoldOk(s: Sys, t: TicketId) {
    t in s.tickets && s.tickets[t].status.Bought? ==>
      t in s.hist.held || (t in s.hist.seed && forall p | p in s.payments :: s.payments[p].ticket != t)
  }

  predicate Holds(s: Sys, t: TicketId, p: PaymentId) {
    t in s.hist.held && s.hist.held[t] == p
  }

  ghost predicate FateOk(s: Sys, p: PaymentId) {
    p in s.payments ==>
      && p in s.hist.fate
      && (s.hist.fate[p].Holding? <==> Holds(s, s.payments[p].ticket, p))
      && (s.hist.fate[p].Returned? ==> s.payments[p].status.Failed?)
  }

  ghost predicate SnapHold(s: Sys, t: TicketId, captured: Option<Found>, snap: Snapshot) {
    && (t in s.tickets && snap.row.ver == s.tickets[t].ver ==> Get(s.hist.held, t) == snap.claim)
    && (snap.settled <==> snap.claim.Some? && snap.pick.Some? && snap.pick.value.id == snap.claim.value)
    && (snap.settled ==> snap.pick.value.row.status.Succeeded?)
    && (captured.Some? && snap.claim.Some? && captured.value.id == snap.claim.value ==> snap.settled)
  }

  ghost predicate ReqHold(s: Sys, r: ReqId) {
    r in s.reqs ==> var q := s.reqs[r];
      match q.pc
      case Releasing(t, p, _, held, _) => !held ==> !Holds(s, t, p)
      case Snapped(_, captured, snap) => q.call.Cancellation? ==> SnapHold(s, q.call.ticket, captured, snap)
      case Cancelling(_, captured, snap, _) => q.call.Cancellation? ==> SnapHold(s, q.call.ticket, captured, snap)
      case CancelReady(_, captured, snap, _) =>
        q.call.Cancellation? ==> SnapHold(s, q.call.ticket, captured, snap) && (snap.settled ==> captured == snap.pick)
      case Refunding(found) => q.call.Cancellation? ==> !Holds(s, q.call.ticket, found.id)
      case Marking(found, _) => q.call.Cancellation? ==> !Holds(s, q.call.ticket, found.id)
      case _ => true
  }

  ghost predicate HoldInv(s: Sys) {
    && (forall t :: HeldOk(s, t))
    && (forall t :: SoldOk(s, t))
    && (forall p :: FateOk(s, p))
    && (forall r :: ReqHold(s, r))
  }

  // ---------------------------------------------------------------- acts that change no holder

  ghost predicate SameHold(s: Sys, s': Sys, r: ReqId) {
    && OnlyPc(s, s', r) && s'.tickets == s.tickets && s'.payments == s.payments
    && s'.hist.held == s.hist.held && s'.hist.fate == s.hist.fate && s'.hist.seed == s.hist.seed
  }

  lemma HoldSame(s: Sys, s': Sys, r: ReqId)
    requires HoldInv(s) && SameHold(s, s', r) && ReqHold(s', r)
    ensures HoldInv(s')
  {
    hide SnapHold;
    forall t ensures HeldOk(s', t) { assert HeldOk(s, t); assert t in s.hist.held ==> Newest(s, t, s.hist.held[t]); }
    forall t ensures SoldOk(s', t) { assert SoldOk(s, t); }
    forall p ensures FateOk(s', p) { assert FateOk(s, p); }
    forall j ensures ReqHold(s', j) { SameReqHold(s, s', r, j); }
  }

  lemma SameReqHold(s: Sys, s': Sys, r: ReqId, j: ReqId)
    requires HoldInv(s) && SameHold(s, s', r) && ReqHold(s', r)
    ensures ReqHold(s', j)
  {
    assert ReqHold(s, j);
  }

  lemma SettledIff(s: Sys, t: TicketId)
    requires MoneyInv(s) && HeldOk(s, t) && t in s.hist.held
    ensures var f := ByTicket(s, t); var p := s.hist.held[t];
      (s.payments[p].status.Succeeded? <==> f.Some? && f.value.id == p)
      && (f.Some? && f.value.id == p ==> f.value.row == s.payments[p])
  {
    NewestIs(s.payments, t, s.clock);
    var f := ByTicket(s, t);
    var p := s.hist.held[t];
    assert PaymentOk(s, p);
    if f.Some? { assert PaymentOk(s, f.value.id); }
  }

  lemma {:induction false} NewestRowIs(payments: map<PaymentId, Payment>, t: TicketId, hi: nat)
    ensures var f := NewestRow(payments, t, hi);
      && (f.Some? ==> f.value.id < hi && f.value.id in payments && f.value.row == payments[f.value.id]
                      && payments[f.value.id].ticket == t)
      && (forall p: nat | p < hi && p in payments && payments[p].ticket == t ::
            f.Some? && payments[p].createdAt <= f.value.row.createdAt)
  {
    if hi > 0 { NewestRowIs(payments, t, hi - 1); }
  }

  /** The newest payment row of a ticket bought by a purchase is the holder's; a ticket sold before has none. */
  lemma NewestIsHolders(s: Sys, t: TicketId)
    requires Rows(s) && HeldOk(s, t) && SoldOk(s, t) && t in s.tickets && s.tickets[t].status.Bought?
    ensures var f := NewestRow(s.payments, t, s.clock);
      if t in s.hist.held then f == Some(Found(s.hist.held[t], s.payments[s.hist.held[t]])) else f == None
  {
    NewestRowIs(s.payments, t, s.clock);
    var f := NewestRow(s.payments, t, s.clock);
    if f.Some? { assert PaymentOk(s, f.value.id); }
    if t in s.hist.held { assert PaymentOk(s, s.hist.held[t]) && Newest(s, t, s.hist.held[t]); }
  }

  /** What a snapshot records: the holder's payment is the one selected exactly when it is settled. */
  lemma SnapshotPicks(s: Sys, t: TicketId, captured: Option<Found>)
    requires MoneyInv(s) && HoldInv(s) && t in s.tickets && s.tickets[t].status.Bought? && SomeFound(s, captured, t)
    ensures SnapHold(s, t, captured, TakeSnapshot(s, t))
  {
    assert HeldOk(s, t) && SoldOk(s, t);
    hide Books, Links, FateOk, ReqHold;
    NewestIsHolders(s, t);
    if t in s.hist.held { SettledIff(s, t); }
  }

  lemma HoldQuietCancel(s: Sys, r: ReqId, x: CancelAct)
    requires ReqHold(s, r) && CanCancel(s, r, x) && !x.CancelCommit?
    requires x.CancelRead? && s.reqs[r].call.ticket in s.tickets && s.tickets[s.reqs[r].call.ticket].status.Bought? ==>
      SnapHold(s, s.reqs[r].call.ticket, s.reqs[r].pc.captured, TakeSnapshot(s, s.reqs[r].call.ticket))
    ensures ReqHold(DoCancel(s, r, x), r)
  {
    CancelFrame(s, r, x);
    RollbackFrame(s, r);
    hide CancelRollback, Outbox.CanQueue, Outbox.DoQueue, TakeSnapshot, CancelMoves;
  }

  lemma HoldQuietRelease(s: Sys, r: ReqId, l: ReleaseAct)
    requires HoldInv(s) && CanRelease(s, r, l) && !l.ReleaseCommit?
    ensures ReqHold(DoRelease(s, r, l), r)
  {
    ReleaseQuiet(s, r, l);
    assert ReqHold(s, r);
    assert HeldOk(s, if s.reqs[r].pc.ChargeFailed? then s.reqs[r].pc.t else 0);
    hide Denial;
  }

  // Gate, claim, charge, refund and crash acts end with nothing for ReqHold to say.
  predicate Plain(pc: Pc) {
    !InAttempt(pc) && !pc.Releasing? && !pc.Refunding? && !pc.Marking?
  }

  lemma QuietIsPlain(s: Sys, r: ReqId, a: Act)
    requires CanAct(s, r, a) && !Major(a) && !a.Release? && !a.Cancel?
    ensures r in DoAct(s, r, a).reqs
    ensures var pc := DoAct(s, r, a).reqs[r].pc; Plain(pc) || pc.Attempt?
  {
    hide DoGate, DoClaim, DoPay, DoCrash;
    hide CanGate, CanClaim, CanPay, CanCrash;
    match a
    case Gate(g) => GateFrame(s, r, g);
    case Claim(c) => ClaimFrame(s, r, c);
    case Pay(y) => PayFrame(s, r, y);
    case Refund(f) =>
    case Crash => CrashFrame(s, r);
  }

  lemma HoldQuiet(s: Sys, r: ReqId, a: Act)
    requires MoneyInv(s) && HoldInv(s) && CanAct(s, r, a) && !Major(a)
    ensures HoldInv(DoAct(s, r, a))
  {
    TameAct(s, r, a);
    assert ReqHold(s, r) && ReqFound(s, r);
    if a.Cancel? && a.x.CancelRead? && s.reqs[r].call.ticket in s.tickets
       && s.tickets[s.reqs[r].call.ticket].status.Bought? {
      SnapshotPicks(s, s.reqs[r].call.ticket, s.reqs[r].pc.captured);
    }
    hide HoldInv, MoneyInv, SnapHold, DoGate, DoClaim, DoPay, DoRelease, DoCancel, DoRefund, DoCrash;
    hide CanGate, CanClaim, CanPay, CanRefund, CanCrash, TakeSnapshot;
    if a.Release? {
      hide ReqHold;
      HoldQuietRelease(s, r, a.l);
    } else if a.Cancel? {
      hide ReqHold;
      HoldQuietCancel(s, r, a.x);
    } else {
      QuietIsPlain(s, r, a);
    }
    HoldSame(s, DoAct(s, r, a), r);
  }

  // ---------------------------------------------------------------- a holder changes

  /** Ticket t alone changes hands: its version goes up, and whoever holds it afterwards is new. */
  ghost predicate HandOver(s: Sys, s': Sys, r: ReqId, t: TicketId) {
    && OnlyPc(s, s', r)
    && (forall u | u in s'.tickets && u != t :: u in s.tickets && s'.tickets[u].ver == s.tickets[u].ver)
    && (t in s.tickets && t in s'.tickets && s'.tickets[t].ver > s.tickets[t].ver)
    && (forall u: TicketId | u != t :: Get(s'.hist.held, u) == Get(s.hist.held, u))
    && (t in s'.hist.held ==> s'.hist.held[t] == s.clock)
  }

  lemma OtherHold(s: Sys, s': Sys, r: ReqId, t: TicketId, j: ReqId)
    requires MoneyInv(s) && HandOver(s, s', r, t) && j != r
    requires ReqHold(s, j) && ReqSeat(s, j)
    ensures ReqHold(s', j)
  {
    assert PayPc(s, j) && ReqFound(s, j);
    assert PaymentOk(s, s.clock);
    hide MoneyInv, PaymentOk, StatusOk;
    if j in s.reqs {
      var q := s.reqs[j];
      if q.pc.Releasing? { assert Get(s'.hist.held, q.pc.t) == Get(s.hist.held, q.pc.t) || q.pc.t == t; }
      if q.call.Cancellation? {
        assert Get(s'.hist.held, q.call.ticket) == Get(s.hist.held, q.call.ticket) || q.call.ticket == t;
      }
    }
  }

  lemma OthersHold(s: Sys, s': Sys, r: ReqId, t: TicketId)
    requires MoneyInv(s) && SeatInv(s) && HoldInv(s) && HandOver(s, s', r, t) && ReqHold(s', r)
    ensures forall j :: ReqHold(s', j)
  {
    hide MoneyInv, HandOver, HeldOk, SoldOk, FateOk, RowSeat, Minted, ReqHold, ReqSeat;
    forall j | j != r ensures ReqHold(s', j) { assert ReqHold(s, j) && ReqSeat(s, j); OtherHold(s, s', r, t, j); }
  }

  // A claim commits.
  ghost predicate Takes(s: Sys, s': Sys, r: ReqId, t: TicketId, x: Payment) {
    && HandOver(s, s', r, t) && s'.reqs[r].pc.Claimed?
    && s.tickets[t].status.Available? && s'.tickets == s.tickets[t := s'.tickets[t]]
    && s'.tickets[t].status.Bought? && s'.tickets[t].owner == Some(x.user) && s'.tickets[t].boughtAt == Some(s.clock)
    && s'.tickets[t].price == x.amount
    && s'.payments == s.payments[s.clock := x] && x.ticket == t && x.status.Pending?
    && s'.hist.held == s.hist.held[t := s.clock] && s'.hist.fate == s.hist.fate[s.clock := Holding]
    && s'.hist.seed == s.hist.seed
  }

  lemma TakesHeld(s: Sys, s': Sys, r: ReqId, t: TicketId, x: Payment)
    requires Rows(s) && HoldInv(s) && Takes(s, s', r, t, x)
    ensures forall u :: HeldOk(s', u)
    ensures forall u :: SoldOk(s', u)
  {
    hide FateOk, ReqHold;
    assert PaymentOk(s, s.clock);
    forall p | p in s.payments ensures p < s.clock { assert PaymentOk(s, p); }
    hide PaymentOk;
    forall u ensures HeldOk(s', u) { assert HeldOk(s, u); }
    forall u ensures SoldOk(s', u) { assert SoldOk(s, u); }
  }

  lemma TakesFate(s: Sys, s': Sys, r: ReqId, t: TicketId, x: Payment)
    requires Rows(s) && HoldInv(s) && Takes(s, s', r, t, x)
    ensures forall p :: FateOk(s', p)
  {
    hide ReqHold, SoldOk, Newest;
    assert HeldOk(s, t);
    forall p | p in s.payments ensures p < s.clock { assert PaymentOk(s, p); }
    hide PaymentOk;
    forall p ensures FateOk(s', p) { assert FateOk(s, p); }
  }

  lemma HoldClaimCommit(s: Sys, r: ReqId, mid: MsgId)
    requires MoneyInv(s) && SeatInv(s) && HoldInv(s) && CanClaim(s, r, ClaimCommit(mid))
    ensures HoldInv(DoClaim(s, r, ClaimCommit(mid)))
  {
    assert ReqSeat(s, r);
    hide MoneyInv, SeatInv, HoldInv, Takes, DoClaim, ReqSeat;
    var x := ClaimTakes(s, r, mid);
    HoldTakes(s, DoClaim(s, r, ClaimCommit(mid)), r, s.reqs[r].pc.t, x);
  }

  lemma ClaimTakes(s: Sys, r: ReqId, mid: MsgId) returns (x: Payment)
    requires ReqSeat(s, r) && CanClaim(s, r, ClaimCommit(mid))
    ensures Takes(s, DoClaim(s, r, ClaimCommit(mid)), r, s.reqs[r].pc.t, x)
  {
    SaleCommitted(s, r, mid);
    hide DoClaim, CanClaim;
    x := DoClaim(s, r, ClaimCommit(mid)).payments[s.clock];
  }

  lemma HoldTakes(s: Sys, s': Sys, r: ReqId, t: TicketId, x: Payment)
    requires MoneyInv(s) && SeatInv(s) && HoldInv(s) && Takes(s, s', r, t, x)
    ensures HoldInv(s')
  {
    TakesHeld(s, s', r, t, x);
    TakesFate(s, s', r, t, x);
    hide Rows, Books, Links, SeatInv, HeldOk, SoldOk, FateOk;
    OthersHold(s, s', r, t);
  }

  // A ticket goes back to the pool, by a release or a cancellation.
  ghost predicate Frees(s: Sys, s': Sys, r: ReqId, t: TicketId, to: Fate) {
    && HandOver(s, s', r, t) && s'.tickets == s.tickets[t := s'.tickets[t]] && !s'.tickets[t].status.Bought?
    && s'.hist.held == s.hist.held - {t} && s'.hist.seed == s.hist.seed && !to.Holding?
    && s'.hist.fate == if t in s.hist.held then s.hist.fate[s.hist.held[t] := to] else s.hist.fate
  }

  // Statuses as they were, except that row p of ticket t may fail.
  ghost predicate MayFail(s: Sys, s': Sys, t: TicketId, p: PaymentId, fails: bool) {
    if fails then
      p in s.payments && s.payments[p].ticket == t && s'.payments == s.payments[p := s.payments[p].(status := Failed)]
    else s'.payments == s.payments
  }

  lemma FreesKeeps(s: Sys, s': Sys, r: ReqId, t: TicketId, to: Fate, p: PaymentId, fails: bool)
    requires HoldInv(s) && Frees(s, s', r, t, to) && MayFail(s, s', t, p, fails)
    requires to.Returned? ==> fails && t in s.hist.held && s.hist.held[t] == p
    ensures forall u :: HeldOk(s', u)
    ensures forall u :: SoldOk(s', u)
    ensures forall p :: FateOk(s', p)
  {
    hide ReqHold;
    forall u ensures HeldOk(s', u) { assert HeldOk(s, u); assert Get(s'.hist.held, u) == Get(s.hist.held, u) || u == t; }
    forall u ensures SoldOk(s', u) { assert SoldOk(s, u); }
    forall p' ensures FateOk(s', p') { assert FateOk(s, p') && HeldOk(s, t); }
  }

  lemma CancelFrees(s: Sys, r: ReqId, mid: MsgId)
    requires ReqSeat(s, r) && CanCancel(s, r, CancelCommit(mid))
    ensures Frees(s, DoCancel(s, r, CancelCommit(mid)), r, s.reqs[r].call.ticket, CalledOff)
    ensures ReqHold(DoCancel(s, r, CancelCommit(mid)), r)
  {
    CancelFrame(s, r, CancelCommit(mid));
    hide Outbox.CanQueue, Outbox.DoQueue, CancelEvent, CancelMoves, ReqSeat;
  }

  lemma HoldCancelCommit(s: Sys, r: ReqId, mid: MsgId)
    requires MoneyInv(s) && SeatInv(s) && HoldInv(s) && CanCancel(s, r, CancelCommit(mid))
    ensures HoldInv(DoCancel(s, r, CancelCommit(mid)))
  {
    assert ReqSeat(s, r);
    hide MoneyInv, SeatInv, HoldInv, ReqSeat, Frees, ReqHold, DoCancel;
    CancelFrees(s, r, mid);
    HoldFrees(s, DoCancel(s, r, CancelCommit(mid)), r, s.reqs[r].call.ticket, CalledOff, 0, false);
  }

  lemma HoldFrees(s: Sys, s': Sys, r: ReqId, t: TicketId, to: Fate, p: PaymentId, fails: bool)
    requires MoneyInv(s) && SeatInv(s) && HoldInv(s) && Frees(s, s', r, t, to) && MayFail(s, s', t, p, fails)
    requires to.Returned? ==> fails && t in s.hist.held && s.hist.held[t] == p
    requires ReqHold(s', r)
    ensures HoldInv(s')
  {
    FreesKeeps(s, s', r, t, to, p, fails);
    hide MoneyInv, SeatInv, HeldOk, SoldOk, FateOk, ReqHold, HandOver;
    OthersHold(s, s', r, t);
  }

  lemma HoldReleaseHeld(s: Sys, r: ReqId)
    requires MoneyInv(s) && SeatInv(s) && HoldInv(s) && CanRelease(s, r, ReleaseCommit) && s.reqs[r].pc.held
    ensures HoldInv(DoRelease(s, r, ReleaseCommit))
  {
    assert PayPc(s, r);
    hide MoneyInv, SeatInv, HoldInv, Frees, MayFail, DoRelease, CanRelease, ReqHold, PayPc;
    ReleaseFrees(s, r);
    var t, p := s.reqs[r].pc.t, s.reqs[r].pc.p;
    HoldFrees(s, DoRelease(s, r, ReleaseCommit), r, t, if Holds(s, t, p) then Returned else Stray, p, true);
  }

  lemma ReleaseFrees(s: Sys, r: ReqId)
    requires PayPc(s, r) && CanRelease(s, r, ReleaseCommit) && s.reqs[r].pc.held
    ensures var s', t, p := DoRelease(s, r, ReleaseCommit), s.reqs[r].pc.t, s.reqs[r].pc.p;
      Frees(s, s', r, t, if Holds(s, t, p) then Returned else Stray) && MayFail(s, s', t, p, true) && ReqHold(s', r)
  {
    ReleaseFrame(s, r, ReleaseCommit);
    hide ReleaseMoves, Denial;
  }

  // One payment's status changes; no ticket changes hands.
  ghost predicate Restates(s: Sys, s': Sys, r: ReqId, p: PaymentId, x: Payment) {
    && OnlyPc(s, s', r) && s'.tickets == s.tickets && p in s.payments && s'.payments == s.payments[p := x]
    && x.ticket == s.payments[p].ticket && x.user == s.payments[p].user && x.amount == s.payments[p].amount
    && (Holds(s, x.ticket, p) ==> x.status.Succeeded?)
    && (s.payments[p].status.Failed? ==> x.status.Failed?)
    && s'.hist.held == s.hist.held && s'.hist.fate == s.hist.fate && s'.hist.seed == s.hist.seed
  }

  lemma HoldRestates(s: Sys, s': Sys, r: ReqId, p: PaymentId, x: Payment)
    requires HoldInv(s) && Restates(s, s', r, p, x) && ReqHold(s', r)
    ensures HoldInv(s')
  {
    forall t ensures HeldOk(s', t) { assert HeldOk(s, t); assert t in s.hist.held ==> Newest(s, t, s.hist.held[t]); }
    forall t ensures SoldOk(s', t) { assert SoldOk(s, t); }
    forall p ensures FateOk(s', p) { assert FateOk(s, p); }
    forall j ensures ReqHold(s', j) { assert ReqHold(s, j); }
  }

  lemma HoldReleaseLost(s: Sys, r: ReqId)
    requires MoneyInv(s) && HoldInv(s) && CanRelease(s, r, ReleaseCommit) && !s.reqs[r].pc.held
    ensures HoldInv(DoRelease(s, r, ReleaseCommit))
  {
    assert PayPc(s, r) && ReqHold(s, r);
    hide MoneyInv, HoldInv, FreeRow, Freed;
    var s' := DoRelease(s, r, ReleaseCommit);
    var p := s.reqs[r].pc.p;
    assert Restates(s, s', r, p, s'.payments[p]) && ReqHold(s', r);
    hide Restates, DoRelease;
    HoldRestates(s, s', r, p, s'.payments[p]);
  }

  lemma HoldSettle(s: Sys, r: ReqId)
    requires MoneyInv(s) && HoldInv(s) && CanPay(s, r, Settle)
    ensures HoldInv(DoPay(s, r, Settle))
  {
    assert PayPc(s, r);
    hide MoneyInv, HoldInv;
    var s' := DoPay(s, r, Settle);
    var p := s.reqs[r].pc.p;
    assert Restates(s, s', r, p, s'.payments[p]);
    hide Restates;
    HoldRestates(s, s', r, p, s'.payments[p]);
  }

  lemma HoldRefund(s: Sys, r: ReqId, f: RefundAct)
    requires LockInv(s) && MoneyInv(s) && HoldInv(s) && CanRefund(s, r, f)
    ensures HoldInv(DoRefund(s, r, f))
  {
    assert ReqLock(s, r) && ReqFound(s, r) && ReqHold(s, r);
    RefundFrame(s, r, f);
    hide LockInv, MoneyInv, HoldInv, RefundMoves, ReqLock;
    var s' := DoRefund(s, r, f);
    if f.RefundMark? && s'.payments != s.payments {
      var p := s.reqs[r].pc.found.id;
      assert Restates(s, s', r, p, s'.payments[p]);
      hide Restates;
      HoldRestates(s, s', r, p, s'.payments[p]);
    } else {
      HoldSame(s, s', r);
    }
  }

  lemma HoldPay(s: Sys, r: ReqId, y: PayAct)
    requires MoneyInv(s) && HoldInv(s) && CanPay(s, r, y)
    ensures HoldInv(DoPay(s, r, y))
  {
    hide MoneyInv, HoldInv;
    if y.Settle? {
      HoldSettle(s, r);
    } else {
      PayFrame(s, r, y);
      hide DoPay;
      HoldSame(s, DoPay(s, r, y), r);
    }
  }

  lemma HoldAct(s: Sys, r: ReqId, a: Act)
    requires LockInv(s) && MoneyInv(s) && SeatInv(s) && HoldInv(s) && CanAct(s, r, a)
    ensures HoldInv(DoAct(s, r, a))
  {
    hide LockInv, MoneyInv, SeatInv, HoldInv;
    if a.Pay? {
      HoldPay(s, r, a.y);
    } else if a.Refund? {
      HoldRefund(s, r, a.f);
    } else if !Major(a) {
      HoldQuiet(s, r, a);
    } else {
      match a
      case Claim(c) => HoldClaimCommit(s, r, c.mid);
      case Release(l) => if s.reqs[r].pc.held { HoldReleaseHeld(s, r); } else { HoldReleaseLost(s, r); }
      case Cancel(x) => HoldCancelCommit(s, r, x.mid);
    }
  }

  // Steps outside the requests: arrivals, new tickets, delivery.
  lemma HoldElse(s: Sys, s': Sys)
    requires HoldInv(s) && SeatInv(s) && MoneyInv(s) && s'.payments == s.payments
    requires s'.hist == s.hist.(minted := s'.hist.minted) && s.reqs.Keys <= s'.reqs.Keys
    requires s.tickets.Keys <= s'.tickets.Keys
    requires forall t | t in s'.tickets ::
               if t in s.tickets then s'.tickets[t] == s.tickets[t] else s'.tickets[t].status.Available?
    requires forall r | r in s.reqs :: s'.reqs[r] == s.reqs[r]
    requires forall r | r in s'.reqs && r !in s.reqs :: s'.reqs[r].pc.Arrived?
    ensures HoldInv(s')
  {
    hide MoneyInv;
    forall t ensures HeldOk(s', t) { assert HeldOk(s, t); assert t in s.hist.held ==> Newest(s, t, s.hist.held[t]); }
    forall t ensures SoldOk(s', t) { assert SoldOk(s, t); }
    forall p ensures FateOk(s', p) { assert FateOk(s, p); }
    forall j ensures ReqHold(s', j) { assert ReqHold(s, j) && ReqSeat(s, j); }
  }

  lemma HoldKept(s: Sys, step: Step)
    requires LockInv(s) && MoneyInv(s) && SeatInv(s) && HoldInv(s) && Enabled(s, step)
    ensures HoldInv(Apply(s, step))
  {
    hide LockInv, MoneyInv, SeatInv, HoldInv, CanAct, DoAct;
    match step
    case Do(r, a) => HoldAct(s, r, a);
    case _ => HoldElse(s, Apply(s, step));
  }

  lemma HoldInit(s: Sys)
    requires Init(s)
    ensures HoldInv(s)
  {}
}
