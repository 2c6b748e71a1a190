/** The inventory: what every ticket row looks like, and what a request knows about the row it works on. */
module SeatProofs {
  import opened Types
  import opened System
  import opened Frames
  import opened LockProofs
  import Outbox

  ghost predicate RowSeat(s: Sys, t: TicketId) {
    t in s.tickets ==> SeatOk(t, s.tickets[t])
  }

  // Row versions: an unchanged version means an unchanged row.
  ghost predicate SnapSeat(s: Sys, q: Req, snap: Snapshot, locked: bool) {
    q.call.Cancellation? && var t := q.call.ticket;
    && t in s.tickets && snap.row.ver <= s.tickets[t].ver
    && (snap.row.ver == s.tickets[t].ver || locked ==> s.tickets[t] == snap.row)
    && snap.row.event == s.tickets[t].event
    && snap.row.status.Bought? && snap.row.owner == Some(q.user)
  }

  ghost predicate ReqSeat(s: Sys, r: ReqId) {
    r in s.reqs ==> var q := s.reqs[r];
      match q.pc
      case Claiming(t, price, _) =>
        q.call.Purchase? && t in s.tickets && s.tickets[t].status.Available?
        && s.tickets[t].event == q.call.event && s.tickets[t].price == price
      case Snapped(_, _, snap) => SnapSeat(s, q, snap, false)
      case Cancelling(_, _, snap, _) => SnapSeat(s, q, snap, true)
      case CancelReady(_, _, snap, _) => SnapSeat(s, q, snap, true)
      case Releasing(t, _, _, held, _) => held ==> MatchesRelease(s, t)
      case _ => true
  }

  ghost predicate Minted(s: Sys) {
    forall e: EventId :: Count(s.hist.minted, e) == |TicketsOf(s, e)|
  }

  ghost predicate SeatInv(s: Sys) {
    && (forall t :: RowSeat(s, t))
    && (forall r :: ReqSeat(s, r))
    && Minted(s)
  }

  // ---------------------------------------------------------------- preservation

  lemma SeatTame(s: Sys, s': Sys, r: ReqId)
    requires SeatInv(s) && Tame(s, s', r) && ReqSeat(s', r)
    ensures SeatInv(s')
  {
    forall t ensures RowSeat(s', t) { assert RowSeat(s, t); }
    forall j ensures ReqSeat(s', j) { assert ReqSeat(s, j); }
    forall e: EventId ensures Count(s'.hist.minted, e) == |TicketsOf(s', e)| { assert TicketsOf(s', e) == TicketsOf(s, e); }
  }

  /** Only the holder of a row's lock changes it, and then its version goes up. */
  ghost predicate RowMoves(s: Sys, s': Sys, r: ReqId, t: TicketId) {
    r in s.reqs && t in s.tickets ==>
      && t in s'.tickets
      && (s'.tickets[t] == s.tickets[t]
          || (HeldTicket(s.reqs[r]) == Some(t) && s'.tickets[t].event == s.tickets[t].event
              && s'.tickets[t].price == s.tickets[t].price && s'.tickets[t].ver == s.tickets[t].ver + 1))
  }

  ghost predicate RowsMove(s: Sys, s': Sys, r: ReqId) {
    && OnlyPc(s, s', r) && s'.tickets.Keys == s.tickets.Keys
    && (forall t :: RowMoves(s, s', r, t))
  }

  lemma SeatMoves(s: Sys, s': Sys, r: ReqId)
    requires LockInv(s) && SeatInv(s) && RowsMove(s, s', r) && s'.hist.minted == s.hist.minted
    requires forall t | HeldTicket(s.reqs[r]) == Some(t) :: RowSeat(s', t)
    requires ReqSeat(s', r)
    ensures SeatInv(s')
  {
    hide SeatOk;
    forall t ensures RowSeat(s', t) { assert RowSeat(s, t) && RowMoves(s, s', r, t); }
    forall j | j != r ensures ReqSeat(s', j) { OtherSeat(s, s', r, j); }
    forall e: EventId ensures Count(s'.hist.minted, e) == |TicketsOf(s', e)| {
      forall t ensures t in TicketsOf(s', e) <==> t in TicketsOf(s, e) { assert RowMoves(s, s', r, t); }
      assert TicketsOf(s', e) == TicketsOf(s, e);
    }
  }

  lemma OtherSeat(s: Sys, s': Sys, r: ReqId, j: ReqId)
    requires LockInv(s) && ReqSeat(s, j) && RowsMove(s, s', r) && j != r
    ensures ReqSeat(s', j)
  {
    assert ReqLock(s, j) && ReqLock(s, r);
    hide LockInv, ReqLock, SeatLock, PayLock, OpenOwned;
    if j in s.reqs {
      var q := s.reqs[j];
      if HeldTicket(q).Some? { assert RowMoves(s, s', r, HeldTicket(q).value); }
      if q.call.Cancellation? { assert RowMoves(s, s', r, q.call.ticket); }
    }
  }

  // ---------------------------------------------------------------- the acts

  lemma SeatOwnTame(s: Sys, r: ReqId, a: Act)
    requires LockInv(s) && SeatInv(s) && CanAct(s, r, a) && !Major(a)
    ensures ReqSeat(DoAct(s, r, a), r)
  {
    TameAct(s, r, a);
    assert ReqSeat(s, r) && ReqLock(s, r);
    hide LockInv, SeatInv, DoGate, DoClaim, DoPay, DoRelease, DoCancel, DoRefund, DoCrash;
    hide CanGate, CanClaim, CanPay, CanRelease, CanCancel, CanRefund, CanCrash;
    match a {
      case Claim(c) => hide ReqSeat, ReqLock; SeatOwnClaim(s, r, c);
      case Release(l) => hide ReqSeat; SeatOwnRelease(s, r, l);
      case Cancel(x) => hide ReqSeat; SeatOwnCancel(s, r, x);
      case _ => hide ReqSeat, ReqLock; SeatOwnPlain(s, r, a);
    }
  }

  lemma SeatOwnPlain(s: Sys, r: ReqId, a: Act)
    requires ReqSeat(s, r) && CanAct(s, r, a) && !Major(a) && (a.Gate? || a.Pay? || a.Refund? || a.Crash?)
    ensures ReqSeat(DoAct(s, r, a), r)
  {
    hide DoGate, DoPay, DoRefund, DoCrash, CanGate, CanPay, CanRefund, CanCrash, ReqSeat, Major;
    PlainPc(s, r, a);
    SeatlessPc(DoAct(s, r, a), r);
  }

  // The request has no ticket row to speak of.
  predicate Seatless(pc: Pc) {
    !pc.Claiming? && !pc.Snapped? && !pc.Cancelling? && !pc.CancelReady? && !pc.Releasing?
  }

  lemma SeatlessPc(s: Sys, r: ReqId)
    requires r in s.reqs && Seatless(s.reqs[r].pc)
    ensures ReqSeat(s, r)
  {}

  lemma PlainPc(s: Sys, r: ReqId, a: Act)
    requires CanAct(s, r, a) && (a.Gate? || a.Pay? || a.Refund? || a.Crash?)
    ensures r in DoAct(s, r, a).reqs && Seatless(DoAct(s, r, a).reqs[r].pc)
  {
    hide DoGate, DoPay, DoRefund, DoCrash, CanGate, CanPay, CanRefund, CanCrash;
    match a
    case Gate(g) => GateFrame(s, r, g);
    case Pay(y) => PayFrame(s, r, y);
    case Refund(f) => RefundFrame(s, r, f);
    case Crash => CrashFrame(s, r);
  }

  lemma SeatOwnClaim(s: Sys, r: ReqId, c: ClaimAct)
    requires ReqSeat(s, r) && CanClaim(s, r, c) && !c.ClaimCommit?
    ensures ReqSeat(DoClaim(s, r, c), r)
  {
    ClaimFrame(s, r, c);
    hide Outbox.CanQueue, Outbox.DoQueue, Rollback, ClaimEvent, SoldRow;
  }

  lemma SeatOwnRelease(s: Sys, r: ReqId, l: ReleaseAct)
    requires ReqSeat(s, r) && CanRelease(s, r, l) && !l.ReleaseCommit?
    ensures ReqSeat(DoRelease(s, r, l), r)
  {
    ReleaseQuiet(s, r, l);
    hide FreeRow, Freed, Denial;
  }

  lemma SeatOwnCancel(s: Sys, r: ReqId, x: CancelAct)
    requires ReqSeat(s, r) && CanCancel(s, r, x) && !x.CancelCommit?
    ensures ReqSeat(DoCancel(s, r, x), r)
  {
    if x.CancelRead? {
      hide ReqSeat, DoCancel, CanCancel;
      SeatOwnRead(s, r);
    } else {
      CancelFrame(s, r, x);
      RollbackFrame(s, r);
      hide CancelRollback, Outbox.CanQueue, Outbox.DoQueue, Capture, CalledOffBy, CancelEvent, FreeRow, AfterRead, CancelMoves;
    }
  }

  lemma SeatOwnRead(s: Sys, r: ReqId)
    requires CanCancel(s, r, CancelRead)
    ensures ReqSeat(DoCancel(s, r, CancelRead), r)
  {
    ReadFrame(s, r);
    hide DoCancel, CanCancel, ByTicket, NewestSettled;
  }

  lemma SeatClaimCommit(s: Sys, r: ReqId, mid: MsgId)
    requires LockInv(s) && SeatInv(s) && CanClaim(s, r, ClaimCommit(mid))
    ensures SeatInv(DoClaim(s, r, ClaimCommit(mid)))
  {
    ClaimFrame(s, r, ClaimCommit(mid));
    hide LockInv, SeatInv, Outbox.CanQueue, Outbox.DoQueue, ClaimEvent;
    SeatMoves(s, DoClaim(s, r, ClaimCommit(mid)), r);
  }

  lemma SeatReleaseCommit(s: Sys, r: ReqId)
    requires LockInv(s) && SeatInv(s) && CanRelease(s, r, ReleaseCommit)
    ensures SeatInv(DoRelease(s, r, ReleaseCommit))
  {
    ReleaseFrame(s, r, ReleaseCommit);
    ReleaseHist(s, r, ReleaseCommit);
    hide LockInv, SeatInv, Freed;
    SeatMoves(s, DoRelease(s, r, ReleaseCommit), r);
  }

  lemma SeatCancelCommit(s: Sys, r: ReqId, mid: MsgId)
    requires LockInv(s) && SeatInv(s) && CanCancel(s, r, CancelCommit(mid))
    ensures SeatInv(DoCancel(s, r, CancelCommit(mid)))
  {
    hide LockInv, SeatInv, DoCancel, CanCancel, RowsMove, RowSeat, ReqSeat, HeldTicket;
    CommitSeats(s, r, mid);
    CancelHist(s, r, CancelCommit(mid));
    SeatMoves(s, DoCancel(s, r, CancelCommit(mid)), r);
  }

  lemma CommitSeats(s: Sys, r: ReqId, mid: MsgId)
    requires CanCancel(s, r, CancelCommit(mid))
    ensures var s' := DoCancel(s, r, CancelCommit(mid));
      RowsMove(s, s', r) && ReqSeat(s', r) && forall t | HeldTicket(s.reqs[r]) == Some(t) :: RowSeat(s', t)
  {
    hide DoCancel, CanCancel, RowSeat, ReqSeat, RowsMove;
    CommitMoves(s, r, mid);
    CommitFrees(s, r, mid);
  }

  lemma CommitMoves(s: Sys, r: ReqId, mid: MsgId)
    requires CanCancel(s, r, CancelCommit(mid))
    ensures RowsMove(s, DoCancel(s, r, CancelCommit(mid)), r)
  {
    CancelCommitted(s, r, mid);
    hide DoCancel, CalledOffBy;
  }

  lemma CommitFrees(s: Sys, r: ReqId, mid: MsgId)
    requires CanCancel(s, r, CancelCommit(mid))
    ensures var s' := DoCancel(s, r, CancelCommit(mid));
      ReqSeat(s', r) && forall t | HeldTicket(s.reqs[r]) == Some(t) :: RowSeat(s', t)
  {
    CancelCommitted(s, r, mid);
    hide DoCancel, CalledOffBy;
  }

  // Major acts that leave the tickets alone.
  lemma SeatMoney(s: Sys, r: ReqId, a: Act)
    requires LockInv(s) && SeatInv(s) && CanAct(s, r, a) && (a.Pay? || a.Refund?)
    ensures SeatInv(DoAct(s, r, a))
  {
    hide LockInv, SeatInv, DoPay, DoRefund, CanPay, CanRefund;
    if a.Pay? { PayFrame(s, r, a.y); } else { RefundFrame(s, r, a.f); }
    var s' := DoAct(s, r, a);
    SeatMoves(s, s', r) by { assert SeatInv(s); forall t ensures RowSeat(s', t) { SeatRowSame(s, s', t); } }
  }

  lemma SeatRowSame(s: Sys, s': Sys, t: TicketId)
    requires SeatInv(s) && s'.tickets == s.tickets
    ensures RowSeat(s', t)
  {
    assert RowSeat(s, t);
  }

  lemma SeatAct(s: Sys, r: ReqId, a: Act)
    requires LockInv(s) && SeatInv(s) && CanAct(s, r, a)
    ensures SeatInv(DoAct(s, r, a))
  {
    hide LockInv, SeatInv, ReqSeat, Tame;
    if a.Pay? || a.Refund? {
      SeatMoney(s, r, a);
    } else if Major(a) {
      match a
      case Claim(c) => SeatClaimCommit(s, r, c.mid);
      case Release(l) => SeatReleaseCommit(s, r);
      case Cancel(x) => SeatCancelCommit(s, r, x.mid);
    } else {
      SeatOwnTame(s, r, a);
      TameAct(s, r, a);
      SeatTame(s, DoAct(s, r, a), r);
    }
  }

  // New rows under new ids: every row there was is as it was.
  lemma GrowRows(s: Sys, s': Sys)
    requires SeatInv(s) && s.tickets.Keys <= s'.tickets.Keys && s'.reqs == s.reqs
    requires forall t | t in s'.tickets :: if t in s.tickets then s'.tickets[t] == s.tickets[t] else SeatOk(t, s'.tickets[t])
    ensures forall t :: RowSeat(s', t)
    ensures forall r :: ReqSeat(s', r)
  {
    hide SeatOk, Minted;
    forall t ensures RowSeat(s', t) { assert RowSeat(s, t); }
    forall j ensures ReqSeat(s', j) { assert ReqSeat(s, j); }
  }

  // The minted tickets join the event's; no other event changes.
  lemma TicketsAfter(s: Sys, s': Sys, e: EventId, ids: set<TicketId>, f: EventId)
    requires ids !! s.tickets.Keys && s'.tickets.Keys == s.tickets.Keys + ids
    requires forall t | t in s.tickets :: s'.tickets[t] == s.tickets[t]
    requires forall t | t in ids :: s'.tickets[t].event == e
    ensures TicketsOf(s', f) == TicketsOf(s, f) + if f == e then ids else {}
    ensures TicketsOf(s, f) !! ids
  {
    assert TicketsOf(s, f) <= s.tickets.Keys;
    forall t ensures t in TicketsOf(s', f) <==> t in TicketsOf(s, f) || (f == e && t in ids) {
      assert t in s'.tickets <==> t in s.tickets || t in ids;
    }
  }

  lemma MintedAfter(s: Sys, s': Sys, e: EventId, ids: set<TicketId>)
    requires Minted(s) && ids !! s.tickets.Keys && s'.tickets.Keys == s.tickets.Keys + ids
    requires forall t | t in s.tickets :: s'.tickets[t] == s.tickets[t]
    requires forall t | t in ids :: s'.tickets[t].event == e
    requires s'.hist.minted == s.hist.minted[e := Count(s.hist.minted, e) + |ids|]
    ensures Minted(s')
  {
    forall f: EventId ensures Count(s'.hist.minted, f) == |TicketsOf(s', f)| {
      TicketsAfter(s, s', e, ids, f);
      assert Count(s.hist.minted, f) == |TicketsOf(s, f)|;
      hide TicketsOf;
    }
  }

  lemma MintShape(tickets: map<TicketId, Ticket>, e: EventId, price: int, ids: set<TicketId>)
    requires ids !! tickets.Keys
    ensures var rows := MintRows(tickets, e, price, ids);
      && rows.Keys == tickets.Keys + ids
      && (forall t | t in tickets :: rows[t] == tickets[t])
      && (forall t | t in ids :: rows[t].event == e)
      && (forall t | t in rows :: if t in tickets then rows[t] == tickets[t] else SeatOk(t, rows[t]))
  {}

  lemma SeatMinted(s: Sys, s': Sys, e: EventId, price: int, ids: set<TicketId>)
    requires SeatInv(s) && ids !! s.tickets.Keys && s'.tickets == MintRows(s.tickets, e, price, ids)
    requires s'.reqs == s.reqs && s'.hist.minted == s.hist.minted[e := Count(s.hist.minted, e) + |ids|]
    ensures SeatInv(s')
  {
    hide MintRows, SeatOk, RowSeat, ReqSeat, Count, Minted, TicketsOf;
    MintShape(s.tickets, e, price, ids);
    GrowRows(s, s');
    MintedAfter(s, s', e, ids);
  }

  lemma SeatMint(s: Sys, e: EventId, price: int, ids: set<TicketId>)
    requires SeatInv(s) && Enabled(s, Mint(e, price, ids))
    ensures SeatInv(Apply(s, Mint(e, price, ids)))
  {
    hide MintRows, SeatInv, Count;
    SeatMinted(s, Apply(s, Mint(e, price, ids)), e, price, ids);
  }

  lemma SeatSame(s: Sys, s': Sys)
    requires SeatInv(s) && s'.tickets == s.tickets && s'.hist == s.hist && s.reqs.Keys <= s'.reqs.Keys
    requires forall r | r in s.reqs :: s'.reqs[r] == s.reqs[r]
    requires forall r | r in s'.reqs && r !in s.reqs :: s'.reqs[r].pc.Arrived?
    ensures SeatInv(s')
  {
    forall t ensures RowSeat(s', t) { assert RowSeat(s, t); }
    forall j ensures ReqSeat(s', j) { assert ReqSeat(s, j); }
    forall e: EventId ensures Count(s'.hist.minted, e) == |TicketsOf(s', e)| { assert TicketsOf(s', e) == TicketsOf(s, e); }
  }

  lemma SeatKept(s: Sys, step: Step)
    requires LockInv(s) && SeatInv(s) && Enabled(s, step)
    ensures SeatInv(Apply(s, step))
  {
    hide LockInv, SeatInv, CanAct, DoAct;
    match step
    case Mint(e, price, ids) => SeatMint(s, e, price, ids);
    case Do(r, a) => SeatAct(s, r, a);
    case _ => SeatSame(s, Apply(s, step));
  }

  lemma SeatInit(s: Sys)
    requires Init(s)
    ensures SeatInv(s)
  {}
}
