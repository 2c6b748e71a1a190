/**
 The claim is confluent: whatever the interleaving, buyers take the least tickets of the event and
 the rest are told it is sold out.
 */
module Confluence {
  import opened Types
  import opened System
  import opened Frames
  import opened LockProofs
  import opened SeatProofs
  import opened Invariant
  import Outbox

  /** No aborted claim, declined charge, committed cancellation, crash or new ticket. */
  predicate Smooth(step: Step) {
    match step
    case Do(_, Claim(c)) => !c.ClaimErr? && !c.ClaimAbort?
    case Do(_, Pay(y)) => !y.ChargeErr?
    case Do(_, Cancel(x)) => !x.CancelCommit?
    case Do(_, Crash) => false
    case Mint(_, _, _) => false
    case _ => true
  }

  function AvailableOf(s: Sys, e: EventId): set<TicketId> {
    set t | t in s.tickets && s.tickets[t].event == e && s.tickets[t].status.Available?
  }

  const SOLD_OUT := Text(409, "No tickets available for this event")

  predicate Ended(pc: Pc) {
    pc.Answered? || (pc.Done? && pc.via.Handled?)
  }

  /** The ticket a purchase has in hand. */
  function Seat(pc: Pc): Option<TicketId> {
    if pc.Claiming? || pc.Claimed? || pc.Charged? then Some(pc.t)
    else if Ended(pc) && pc.answer.content.JsonBody? && pc.answer.content.value.PurchaseBody?
    then Some(pc.answer.content.value.ticket)
    else None
  }

  predicate Winner(q: Req, e: EventId) {
    q.call == Purchase(e) && Seat(q.pc).Some?
  }

  predicate Loser(q: Req, e: EventId) {
    q.call == Purchase(e) && Ended(q.pc) && q.pc.answer == SOLD_OUT
  }

  function Winners(s: Sys, e: EventId): set<ReqId> {
    set r | r in s.reqs && Winner(s.reqs[r], e)
  }

  function Losers(s: Sys, e: EventId): set<ReqId> {
    set r | r in s.reqs && Loser(s.reqs[r], e)
  }

  predicate IsTaken(s: Sys, t: TicketId) {
    t in s.tickets && (s.tickets[t].status.Bought? || t in s.tlock)
  }

  function Taken(s: Sys, pool: set<TicketId>): set<TicketId> {
    set t | t in pool && IsTaken(s, t)
  }

  // ---------------------------------------------------------------- the invariant

  ghost predicate Pool(s: Sys, e: EventId, pool: set<TicketId>) {
    && (forall t | t in pool :: t in s.tickets && s.tickets[t].event == e)
    && AvailableOf(s, e) <= pool
  }

  ghost predicate BuyerOk(s: Sys, e: EventId, pool: set<TicketId>, r: ReqId) {
    r in s.reqs ==> var q := s.reqs[r];
      && !q.pc.ChargeFailed? && !q.pc.Releasing?
      && (q.call == Purchase(e) && Ended(q.pc) ==> Winner(q, e) || Loser(q, e))
      && (Winner(q, e) ==> Seat(q.pc).value in Taken(s, pool))
      && (Loser(q, e) ==> Taken(s, pool) == pool)
  }

  /** The taken tickets of the pool: each below a taken one is taken. */
  ghost predicate IsPrefix(taken: set<TicketId>, pool: set<TicketId>) {
    taken <= pool && forall t, u | t in taken && u in pool && u < t :: u in taken
  }

  ghost predicate Order(s: Sys, e: EventId, pool: set<TicketId>) {
    && Pool(s, e, pool)
    && (forall r :: BuyerOk(s, e, pool, r))
    && IsPrefix(Taken(s, pool), pool)
    && |Winners(s, e)| == |Taken(s, pool)|
    && (forall r, j | r in s.reqs && j in s.reqs && r != j && Winner(s.reqs[r], e) && Winner(s.reqs[j], e) ::
          Seat(s.reqs[r].pc) != Seat(s.reqs[j].pc))
  }

  // ---------------------------------------------------------------- steps that take nothing

  // No ticket is taken or given back, and the moving request keeps what it has.
  ghost predicate Idle(s: Sys, s': Sys, r: ReqId, e: EventId, pool: set<TicketId>) {
    && OnlyPc(s, s', r) && Pool(s', e, pool)
    && (forall t | t in pool :: IsTaken(s', t) == IsTaken(s, t))
    && (s.reqs[r].call == Purchase(e) ==> Seat(s'.reqs[r].pc) == Seat(s.reqs[r].pc))
    && BuyerOk(s', e, pool, r)
  }

  lemma IdleKeeps(s: Sys, s': Sys, r: ReqId, e: EventId, pool: set<TicketId>)
    requires Order(s, e, pool) && Idle(s, s', r, e, pool)
    ensures Order(s', e, pool)
  {
    hide Pool, Seat, IsTaken;
    assert Taken(s', pool) == Taken(s, pool);
    forall j ensures BuyerOk(s', e, pool, j) { assert BuyerOk(s, e, pool, j); }
    assert Winners(s', e) == Winners(s, e);
  }

  // ---------------------------------------------------------------- a ticket is taken

  ghost predicate TakesLeast(s: Sys, s': Sys, r: ReqId, e: EventId, pool: set<TicketId>, t: TicketId) {
    && OnlyPc(s, s', r) && s.reqs[r].call == Purchase(e) && s.reqs[r].pc.Ready?
    && s'.reqs[r].pc.Claiming? && s'.reqs[r].pc.t == t
    && s'.tickets == s.tickets && s'.tlock == s.tlock[t := r]
    && t in pool && !IsTaken(s, t) && forall u | u in pool && u < t :: IsTaken(s, u)
  }

  lemma TakesMore(s: Sys, s': Sys, r: ReqId, e: EventId, pool: set<TicketId>, t: TicketId)
    requires Order(s, e, pool) && TakesLeast(s, s', r, e, pool, t)
    ensures Pool(s', e, pool) && Taken(s', pool) == Taken(s, pool) + {t} && t !in Taken(s, pool) && t in pool
    ensures forall u | u in pool && u < t :: u in Taken(s, pool)
    ensures Seat(s.reqs[r].pc) == None && Seat(s'.reqs[r].pc) == Some(t)
  {
    hide BuyerOk, Winners;
  }

  lemma TakesWinner(s: Sys, s': Sys, r: ReqId, e: EventId, pool: set<TicketId>, t: TicketId)
    requires Order(s, e, pool) && TakesLeast(s, s', r, e, pool, t)
    ensures |Winners(s', e)| == |Winners(s, e)| + 1
    ensures forall i, j | i in s'.reqs && j in s'.reqs && i != j && Winner(s'.reqs[i], e) && Winner(s'.reqs[j], e) ::
              Seat(s'.reqs[i].pc) != Seat(s'.reqs[j].pc)
  {
    TakesMore(s, s', r, e, pool, t);
    hide Pool, Taken, IsTaken, Seat, IsPrefix, Loser;
    assert Winners(s', e) == Winners(s, e) + {r} && r !in Winners(s, e);
    forall j | j in s.reqs && Winner(s.reqs[j], e) ensures Seat(s.reqs[j].pc).value in Taken(s, pool) {
      assert BuyerOk(s, e, pool, j);
    }
  }

  lemma TakesKeeps(s: Sys, s': Sys, r: ReqId, e: EventId, pool: set<TicketId>, t: TicketId)
    requires Order(s, e, pool) && TakesLeast(s, s', r, e, pool, t)
    ensures Order(s', e, pool)
  {
    TakesMore(s, s', r, e, pool, t);
    TakesWinner(s, s', r, e, pool, t);
    hide Pool, Taken, IsTaken, Seat, Winners;
    forall j ensures BuyerOk(s', e, pool, j) { assert BuyerOk(s, e, pool, j); }
  }

  // ---------------------------------------------------------------- the acts

  // A move that touches neither tickets nor their locks.
  lemma SameSeats(s: Sys, s': Sys, r: ReqId, e: EventId, pool: set<TicketId>)
    requires Order(s, e, pool) && OnlyPc(s, s', r) && s'.tickets == s.tickets && s'.tlock == s.tlock
    requires var pc' := s'.reqs[r].pc;
      && !pc'.ChargeFailed? && !pc'.Releasing?
      && (s.reqs[r].call == Purchase(e) ==>
            Seat(pc') == Seat(s.reqs[r].pc)
            && (Ended(pc') ==> Seat(pc').Some? || (pc'.answer == SOLD_OUT && Taken(s, pool) == pool)))
    requires s.reqs[r].call == Purchase(e) && Seat(s'.reqs[r].pc).Some? ==> !Loser(s'.reqs[r], e)
    ensures Order(s', e, pool)
  {
    assert Pool(s', e, pool) && Taken(s', pool) == Taken(s, pool);
    assert BuyerOk(s, e, pool, r);
    hide Seat, Taken, IsPrefix, Winners;
    assert Idle(s, s', r, e, pool);
    hide Order, Idle;
    IdleKeeps(s, s', r, e, pool);
  }

  // A gate act gives a purchase no ticket and takes none away.
  lemma GateSeat(q: Req, g: GateAct, pc: Pc, e: EventId)
    requires GateMoves(q, g, pc)
    ensures !pc.ChargeFailed? && !pc.Releasing? && Seat(pc) == Seat(q.pc)
    ensures Ended(pc) ==> Ended(q.pc) && pc.answer == q.pc.answer
    ensures Loser(q.(pc := pc), e) == Loser(q, e)
  {}

  lemma OrderGate(s: Sys, r: ReqId, g: GateAct, e: EventId, pool: set<TicketId>)
    requires Order(s, e, pool) && CanGate(s, r, g)
    ensures Order(DoGate(s, r, g), e, pool)
  {
    assert BuyerOk(s, e, pool, r);
    hide Order, Taken, DoGate, CanGate;
    GateFrame(s, r, g);
    GateSeat(s.reqs[r], g, DoGate(s, r, g).reqs[r].pc, e);
    hide Seat, GateMoves, SOLD_OUT, Loser;
    SameSeats(s, DoGate(s, r, g), r, e, pool);
  }

  lemma OrderPay(s: Sys, r: ReqId, y: PayAct, e: EventId, pool: set<TicketId>)
    requires Order(s, e, pool) && CanPay(s, r, y) && !y.ChargeErr?
    ensures Order(DoPay(s, r, y), e, pool)
  {
    PayFrame(s, r, y);
    hide Order, Taken;
    SameSeats(s, DoPay(s, r, y), r, e, pool);
  }

  lemma OrderRefund(s: Sys, r: ReqId, f: RefundAct, e: EventId, pool: set<TicketId>)
    requires LockInv(s) && Order(s, e, pool) && CanRefund(s, r, f)
    ensures Order(DoRefund(s, r, f), e, pool)
  {
    RefundFrame(s, r, f);
    assert ReqLock(s, r);
    hide LockInv, Order, DoRefund, CanRefund, Taken;
    SameSeats(s, DoRefund(s, r, f), r, e, pool);
  }

  // An untaken ticket of the pool is one the claim's SELECT can see.
  lemma UntakenIsCandidate(s: Sys, e: EventId, pool: set<TicketId>, t: TicketId)
    requires SeatInv(s) && Pool(s, e, pool) && t in pool && !IsTaken(s, t)
    ensures Candidate(s, e, t)
  {
    assert RowSeat(s, t);
  }

  lemma OrderClaimLock(s: Sys, r: ReqId, t: TicketId, e: EventId, pool: set<TicketId>)
    requires SeatInv(s) && Order(s, e, pool) && CanClaim(s, r, ClaimLock(t))
    ensures Order(DoClaim(s, r, ClaimLock(t)), e, pool)
  {
    var s' := DoClaim(s, r, ClaimLock(t));
    if s.reqs[r].call == Purchase(e) {
      assert t in AvailableOf(s, e);
      forall u | u in pool && u < t ensures IsTaken(s, u) {
        if !IsTaken(s, u) { UntakenIsCandidate(s, e, pool, u); }
      }
      assert TakesLeast(s, s', r, e, pool, t);
      hide Order, TakesLeast, DoClaim, CanClaim;
      TakesKeeps(s, s', r, e, pool, t);
    } else {
      OrderOther(s, s', r, e, pool);
    }
  }

  // A buyer of another event.
  lemma OrderOther(s: Sys, s': Sys, r: ReqId, e: EventId, pool: set<TicketId>)
    requires Order(s, e, pool) && OnlyPc(s, s', r) && s.reqs[r].call != Purchase(e) && s'.tickets == s.tickets
    requires forall t | t in pool :: t in s'.tlock <==> t in s.tlock
    requires !s'.reqs[r].pc.ChargeFailed? && !s'.reqs[r].pc.Releasing?
    ensures Order(s', e, pool)
  {
    assert Pool(s', e, pool) && Taken(s', pool) == Taken(s, pool);
    hide Seat, Taken, IsPrefix, Winners;
    assert Idle(s, s', r, e, pool);
    hide Order, Idle;
    IdleKeeps(s, s', r, e, pool);
  }

  // The claimed ticket was taken since it was locked; the commit makes the lock a purchase.
  lemma CommitTakesNothing(s: Sys, r: ReqId, mid: MsgId, e: EventId, pool: set<TicketId>)
    requires LockInv(s) && Pool(s, e, pool) && CanClaim(s, r, ClaimCommit(mid))
    ensures var s' := DoClaim(s, r, ClaimCommit(mid)); Pool(s', e, pool) && Taken(s', pool) == Taken(s, pool)
  {
    assert ReqLock(s, r);
    hide LockInv, ReqLock, Outbox.CanQueue, Outbox.DoQueue, ClaimEvent;
  }

  lemma OrderClaimCommit(s: Sys, r: ReqId, mid: MsgId, e: EventId, pool: set<TicketId>)
    requires LockInv(s) && Order(s, e, pool) && CanClaim(s, r, ClaimCommit(mid))
    ensures Order(DoClaim(s, r, ClaimCommit(mid)), e, pool)
  {
    CommitTakesNothing(s, r, mid, e, pool);
    ClaimFrame(s, r, ClaimCommit(mid));
    var s' := DoClaim(s, r, ClaimCommit(mid));
    assert BuyerOk(s, e, pool, r);
    forall t | t in pool ensures IsTaken(s', t) == IsTaken(s, t) { assert t in Taken(s', pool) <==> t in Taken(s, pool); }
    hide LockInv, Outbox.CanQueue, Outbox.DoQueue, IsPrefix, Winners, IsTaken, Pool, Taken;
    assert Idle(s, s', r, e, pool);
    hide Order, Idle, DoClaim, CanClaim;
    IdleKeeps(s, s', r, e, pool);
  }

  lemma OrderClaim(s: Sys, r: ReqId, c: ClaimAct, e: EventId, pool: set<TicketId>)
    requires LockInv(s) && SeatInv(s) && Order(s, e, pool) && CanClaim(s, r, c) && !c.ClaimErr? && !c.ClaimAbort?
    ensures Order(DoClaim(s, r, c), e, pool)
  {
    match c
    case ClaimLock(t) => OrderClaimLock(s, r, t, e, pool);
    case ClaimCommit(mid) => OrderClaimCommit(s, r, mid, e, pool);
    case ClaimNone =>
      if s.reqs[r].call == Purchase(e) {
        forall u | u in pool ensures IsTaken(s, u) { if !IsTaken(s, u) { UntakenIsCandidate(s, e, pool, u); } }
        assert Taken(s, pool) == pool;
      }
      hide LockInv, SeatInv, Order, Taken;
      SameSeats(s, DoClaim(s, r, c), r, e, pool);
    case ClaimAlloc =>
      hide LockInv, SeatInv, Order, Taken, Outbox.CanQueue, Outbox.DoQueue;
      SameSeats(s, DoClaim(s, r, c), r, e, pool);
  }

  // Cancellations lock purchased rows only.
  lemma CancelTakesNothing(s: Sys, r: ReqId, x: CancelAct, t: TicketId)
    requires ReqSeat(s, r) && CanCancel(s, r, x) && !x.CancelCommit?
    ensures IsTaken(DoCancel(s, r, x), t) == IsTaken(s, t)
  {
    CancelFrame(s, r, x);
    hide Rollback, OpenId, Outbox.CanQueue, Outbox.DoQueue, TakeSnapshot, Capture, CancelMoves, CalledOffBy;
    if x.CancelRead? {
      ReadFrame(s, r);
      hide DoCancel;
    }
  }

  lemma OrderCancel(s: Sys, r: ReqId, x: CancelAct, e: EventId, pool: set<TicketId>)
    requires SeatInv(s) && Order(s, e, pool) && CanCancel(s, r, x) && !x.CancelCommit?
    ensures Order(DoCancel(s, r, x), e, pool)
  {
    assert ReqSeat(s, r);
    hide SeatInv;
    CancelFrame(s, r, x);
    var s' := DoCancel(s, r, x);
    forall t | t in pool ensures IsTaken(s', t) == IsTaken(s, t) { CancelTakesNothing(s, r, x, t); }
    hide DoCancel, IsTaken;
    assert Pool(s', e, pool) && Taken(s', pool) == Taken(s, pool);
    hide Taken, IsPrefix, Winners, Seat;
    assert Idle(s, s', r, e, pool);
    hide Order, Idle;
    IdleKeeps(s, s', r, e, pool);
  }

  lemma OrderAct(s: Sys, r: ReqId, a: Act, e: EventId, pool: set<TicketId>)
    requires LockInv(s) && SeatInv(s) && Order(s, e, pool) && CanAct(s, r, a) && Smooth(Do(r, a))
    ensures Order(DoAct(s, r, a), e, pool)
  {
    assert BuyerOk(s, e, pool, r);
    hide LockInv, SeatInv, Order;
    match a
    case Gate(g) => OrderGate(s, r, g, e, pool);
    case Claim(c) => OrderClaim(s, r, c, e, pool);
    case Pay(y) => OrderPay(s, r, y, e, pool);
    case Cancel(x) => OrderCancel(s, r, x, e, pool);
    case Refund(f) => OrderRefund(s, r, f, e, pool);
  }

  lemma OrderArrive(s: Sys, step: Step, e: EventId, pool: set<TicketId>)
    requires Order(s, e, pool) && Enabled(s, step) && !step.Do? && !step.Mint?
    ensures Order(Apply(s, step), e, pool)
  {
    hide Outbox.DoRelay, Outbox.DoWork, Outbox.CanRelay, Outbox.CanWork;
    var s' := Apply(s, step);
    assert Pool(s', e, pool) && Taken(s', pool) == Taken(s, pool);
    hide Taken, IsPrefix;
    forall j ensures BuyerOk(s', e, pool, j) { assert BuyerOk(s, e, pool, j); }
    assert Winners(s', e) == Winners(s, e);
  }

  lemma {:induction false} OrderedRun(s0: Sys, steps: seq<Step>, e: EventId)
    requires Init(s0) && Legal(s0, steps) && forall step | step in steps :: Smooth(step)
    ensures Inv(Run(s0, steps)) && Order(Run(s0, steps), e, AvailableOf(s0, e))
    decreases |steps|
  {
    InvInit(s0);
    InvRun(s0, steps);
    hide Smooth, Enabled, Apply;
    if steps == [] {
      hide Inv;
      OrderStart(s0, e);
    } else {
      OrderedRun(s0, Front(steps), e);
      OrderStep(Run(s0, Front(steps)), Last(steps), e, AvailableOf(s0, e));
    }
  }

  lemma OrderStart(s: Sys, e: EventId)
    requires Init(s)
    ensures Order(s, e, AvailableOf(s, e))
  {
    assert Taken(s, AvailableOf(s, e)) == {} && Winners(s, e) == {};
  }

  lemma OrderStep(s: Sys, step: Step, e: EventId, pool: set<TicketId>)
    requires Inv(s) && Order(s, e, pool) && Enabled(s, step) && Smooth(step)
    ensures Order(Apply(s, step), e, pool)
  {
    assert LockInv(s) && SeatInv(s);
    hide Inv, LockInv, SeatInv, Order, CanAct, DoAct;
    if step.Do? { OrderAct(s, step.r, step.a, e, pool); } else { OrderArrive(s, step, e, pool); }
  }

  /** Nobody is between entering the handler for this event and its answer. */
  ghost predicate AllAnswered(s: Sys, e: EventId) {
    forall r | r in s.reqs && s.reqs[r].call == Purchase(e) ::
      s.reqs[r].pc.Arrived? || s.reqs[r].pc.KeyTaken? || s.reqs[r].pc.Answered? || s.reqs[r].pc.Done?
  }

  function Buyers(s: Sys, e: EventId): set<ReqId> {
    set r | r in s.reqs && s.reqs[r].call == Purchase(e) && Ended(s.reqs[r].pc)
  }

  function Min(a: nat, b: nat): nat {
    if a <= b then a else b
  }

  /**
   n buyers, k available tickets, any interleaving: min(n, k) purchases, on the min(n, k) least
   ids, each buyer a different one, and n - min(n, k) sold-out answers.
   */
  lemma ClaimsAreConfluent(s0: Sys, steps: seq<Step>, e: EventId)
    requires Init(s0) && Legal(s0, steps) && forall step | step in steps :: Smooth(step)
    requires AllAnswered(Run(s0, steps), e)
    ensures var s := Run(s0, steps);
      var pool := AvailableOf(s0, e);
      var n, k := |Buyers(s, e)|, |pool|;
      var sold := pool - AvailableOf(s, e);
      && |sold| == Min(n, k) && (forall t, u | t in sold && u in pool && u < t :: u in sold)
      && |Winners(s, e)| == Min(n, k) && |Losers(s, e)| == n - Min(n, k)
      && (forall r | r in Winners(s, e) :: Seat(s.reqs[r].pc).value in sold)
      && (forall r, j | r in Winners(s, e) && j in Winners(s, e) && r != j :: Seat(s.reqs[r].pc) != Seat(s.reqs[j].pc))
  {
    OrderedRun(s0, steps, e);
    hide Init, Legal, Run, Smooth, AvailableOf, AllAnswered, Winners, Losers, Buyers, Order, Inv;
    SeatsTaken(Run(s0, steps), e, AvailableOf(s0, e));
  }

  // The same of one state, with `pool` the tickets that were available at the start.
  lemma SeatsTaken(s: Sys, e: EventId, pool: set<TicketId>)
    requires Inv(s) && Order(s, e, pool) && AllAnswered(s, e)
    ensures var n, k, sold := |Buyers(s, e)|, |pool|, pool - AvailableOf(s, e);
      && |sold| == Min(n, k) && (forall t, u | t in sold && u in pool && u < t :: u in sold)
      && |Winners(s, e)| == Min(n, k) && |Losers(s, e)| == n - Min(n, k)
      && (forall r | r in Winners(s, e) :: Seat(s.reqs[r].pc).value in sold)
      && (forall r, j | r in Winners(s, e) && j in Winners(s, e) && r != j :: Seat(s.reqs[r].pc) != Seat(s.reqs[j].pc))
  {
    NothingLocked(s, e, pool);
    CountBuyers(s, e, pool);
    hide Inv, AvailableOf, AllAnswered, Pool, IsTaken;
    forall r | r in Winners(s, e) ensures Seat(s.reqs[r].pc).value in Taken(s, pool) {
      assert BuyerOk(s, e, pool, r);
    }
  }

  // With every buyer answered, the taken tickets are the ones no longer available.
  lemma NothingLocked(s: Sys, e: EventId, pool: set<TicketId>)
    requires Inv(s) && Order(s, e, pool) && AllAnswered(s, e)
    ensures Taken(s, pool) == pool - AvailableOf(s, e)
  {
    forall t | t in pool ensures IsTaken(s, t) <==> t !in AvailableOf(s, e) {
      assert RowSeat(s, t) && SeatLock(s, t);
      if t in s.tlock { assert ReqSeat(s, s.tlock[t]) && ReqLock(s, s.tlock[t]); }
    }
  }

  lemma WinnersAreBuyers(q: Req, e: EventId)
    requires q.call == Purchase(e) ==> q.pc.Arrived? || q.pc.KeyTaken? || q.pc.Answered? || q.pc.Done?
    ensures Winner(q, e) ==> q.call == Purchase(e) && Ended(q.pc) && !Loser(q, e)
    ensures Loser(q, e) ==> q.call == Purchase(e) && Ended(q.pc)
  {}

  lemma WinOrLose(s: Sys, e: EventId, pool: set<TicketId>)
    requires Order(s, e, pool) && AllAnswered(s, e)
    ensures Buyers(s, e) == Winners(s, e) + Losers(s, e) && Winners(s, e) !! Losers(s, e)
  {
    hide Winner, Loser, Ended, Seat, Taken, Pool, IsPrefix;
    forall r | r in s.reqs
      ensures r in Buyers(s, e) <==> r in Winners(s, e) || r in Losers(s, e)
      ensures !(r in Winners(s, e) && r in Losers(s, e))
    {
      assert BuyerOk(s, e, pool, r);
      WinnersAreBuyers(s.reqs[r], e);
    }
  }

  lemma CountBuyers(s: Sys, e: EventId, pool: set<TicketId>)
    requires Order(s, e, pool) && AllAnswered(s, e)
    ensures |Winners(s, e)| == |Taken(s, pool)| == Min(|Buyers(s, e)|, |pool|)
    ensures |Losers(s, e)| == |Buyers(s, e)| - |Winners(s, e)|
  {
    var w, l := Winners(s, e), Losers(s, e);
    WinOrLose(s, e, pool);
    hide IsTaken, Seat, Pool, Winner;
    if l == {} {
      Subset(Taken(s, pool), pool);
    } else {
      var r :| r in l;
      assert BuyerOk(s, e, pool, r);
    }
  }

  lemma {:induction false} Subset<T>(a: set<T>, b: set<T>)
    requires a <= b
    ensures |a| <= |b|
  {
    assert b == a + (b - a);
  }
}
