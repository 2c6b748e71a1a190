/** Row locks: who holds which, and the outbox ids drawn under them. */
module LockProofs {
  import opened Types
  import opened Payments
  import opened System
  import opened Frames
  import Outbox
  import OutboxProofs
  import Tx

  /** The ticket row a request has locked: the claimed or cancelled row, or the row a release updated. */
  function HeldTicket(q: Req): Option<TicketId> {
    match q.pc
    case Claiming(t, _, _) => Some(t)
    case Releasing(t, _, _, held, _) => if held then Some(t) else None
    case Cancelling(_, _, _, _) => if q.call.Cancellation? then Some(q.call.ticket) else None
    case CancelReady(_, _, _, _) => if q.call.Cancellation? then Some(q.call.ticket) else None
    case _ => None
  }

  function HeldPayment(q: Req): Option<PaymentId> {
    match q.pc
    case Releasing(_, p, _, _, marked) => if marked then Some(p) else None
    case _ => None
  }

  predicate ShapeOk(q: Req) {
    && (q.pc.Ready? || q.pc.Claiming? || q.pc.Claimed? || q.pc.Charged? || q.pc.ChargeFailed? || q.pc.Releasing?
        ==> q.call.Purchase?)
    && (InAttempt(q.pc) || q.pc.Refunding? || q.pc.Marking? ==> q.call.Cancellation?)
    && (InAttempt(q.pc) ==> 1 <= q.pc.n <= Tx.MAX_TX_ATTEMPTS)
  }

  ghost predicate SeatLock(s: Sys, t: TicketId) {
    t in s.tlock ==> s.tlock[t] in s.reqs && HeldTicket(s.reqs[s.tlock[t]]) == Some(t)
  }

  ghost predicate PayLock(s: Sys, p: PaymentId) {
    p in s.plock ==> s.plock[p] in s.reqs && HeldPayment(s.reqs[s.plock[p]]) == Some(p)
  }

  ghost predicate OpenOwned(s: Sys, o: nat) {
    o in s.box.open ==>
      && o < s.box.next && s.box.open[o] in s.tlock && s.tlock[s.box.open[o]] in s.reqs
      && OpenId(s.reqs[s.tlock[s.box.open[o]]].pc) == Some(o)
  }

  ghost predicate ReqLock(s: Sys, r: ReqId) {
    r in s.reqs ==> var q := s.reqs[r];
      && ShapeOk(q)
      && (HeldTicket(q).Some? ==> HeldTicket(q).value in s.tlock && s.tlock[HeldTicket(q).value] == r)
      && (HeldPayment(q).Some? ==> HeldPayment(q).value in s.plock && s.plock[HeldPayment(q).value] == r)
      && (OpenId(q.pc).Some? ==>
            OpenId(q.pc).value in s.box.open && HeldTicket(q) == Some(s.box.open[OpenId(q.pc).value]))
  }

  ghost predicate LockInv(s: Sys) {
    && (forall t :: SeatLock(s, t))
    && (forall p :: PayLock(s, p))
    && (forall o: nat :: OpenOwned(s, o))
    && (forall r :: ReqLock(s, r))
  }

  // m' is m with r's lock on a given up and r's lock on b taken.
  ghost predicate Swapped<K(!new)>(m: map<K, ReqId>, m': map<K, ReqId>, a: Option<K>, b: Option<K>, r: ReqId) {
    && (forall k :: k in m' <==> (k in m && Some(k) != a) || Some(k) == b)
    && (forall k | k in m' :: m'[k] == if Some(k) == b then r else m[k])
  }

  ghost predicate OpenSwapped(
      m: map<nat, TicketId>, m': map<nat, TicketId>, a: Option<nat>, b: Option<nat>, t: Option<TicketId>) {
    && (forall k: nat :: k in m' <==> (k in m && Some(k) != a) || Some(k) == b)
    && (forall k: nat | k in m' :: if Some(k) == b then Some(m'[k]) == t else m'[k] == m[k])
  }

  /** A move of one request that exchanges its own locks and ids for others nobody has. */
  ghost predicate Exchange(s: Sys, s': Sys, r: ReqId) {
    OnlyPc(s, s', r) && ShapeOk(s'.reqs[r]) && var q, q' := s.reqs[r], s'.reqs[r];
    && Swapped(s.tlock, s'.tlock, HeldTicket(q), HeldTicket(q'), r)
    && (HeldTicket(q').Some? && HeldTicket(q') != HeldTicket(q) ==> HeldTicket(q').value !in s.tlock)
    && Swapped(s.plock, s'.plock, HeldPayment(q), HeldPayment(q'), r)
    && (HeldPayment(q').Some? && HeldPayment(q') != HeldPayment(q) ==> HeldPayment(q').value !in s.plock)
    && OpenSwapped(s.box.open, s'.box.open, OpenId(q.pc), OpenId(q'.pc), HeldTicket(q'))
    && (OpenId(q'.pc).Some? ==> HeldTicket(q').Some? && HeldTicket(q') == HeldTicket(q) && OpenId(q'.pc).value < s'.box.next)
    && (OpenId(q'.pc).Some? && OpenId(q'.pc) != OpenId(q.pc) ==> OpenId(q'.pc).value == s.box.next)
    && s'.box.next >= s.box.next
  }

  lemma ExchangeSeats(s: Sys, s': Sys, r: ReqId)
    requires LockInv(s) && Exchange(s, s', r)
    ensures forall t :: SeatLock(s', t)
    ensures forall p :: PayLock(s', p)
  {
    hide OpenOwned, OpenSwapped, ShapeOk, OpenId;
    assert ReqLock(s, r);
    forall t ensures SeatLock(s', t) { assert SeatLock(s, t); }
    forall p ensures PayLock(s', p) { assert PayLock(s, p); }
  }

  lemma ExchangeOpen(s: Sys, s': Sys, r: ReqId)
    requires LockInv(s) && Exchange(s, s', r)
    ensures forall o: nat :: OpenOwned(s', o)
  {
    hide PayLock, HeldPayment, ShapeOk;
    assert ReqLock(s, r);
    forall o: nat ensures OpenOwned(s', o) {
      assert OpenOwned(s, o);
      if o in s.box.open { assert SeatLock(s, s.box.open[o]); assert ReqLock(s, s.tlock[s.box.open[o]]); }
    }
  }

  lemma ExchangeReqs(s: Sys, s': Sys, r: ReqId)
    requires LockInv(s) && Exchange(s, s', r)
    ensures forall j :: ReqLock(s', j)
  {
    hide PayLock, SeatLock, ShapeOk, HeldTicket, HeldPayment, OpenId;
    forall j | j != r ensures ReqLock(s', j) { OtherReq(s, s', r, j); }
    OwnReq(s, s', r);
  }

  lemma OtherReq(s: Sys, s': Sys, r: ReqId, j: ReqId)
    requires LockInv(s) && Exchange(s, s', r) && j != r
    ensures ReqLock(s', j)
  {
    hide PayLock, SeatLock, ShapeOk, HeldTicket, HeldPayment, OpenId;
    assert ReqLock(s, j) && ReqLock(s, r);
    if j in s.reqs && OpenId(s.reqs[j].pc).Some? { assert OpenOwned(s, OpenId(s.reqs[j].pc).value); }
  }

  lemma OwnReq(s: Sys, s': Sys, r: ReqId)
    requires LockInv(s) && Exchange(s, s', r)
    ensures ReqLock(s', r)
  {
    hide PayLock, SeatLock, ShapeOk, HeldTicket, HeldPayment, OpenId, OpenOwned;
    assert ReqLock(s, r);
  }

  lemma ExchangeKeeps(s: Sys, s': Sys, r: ReqId)
    requires LockInv(s) && Exchange(s, s', r)
    ensures LockInv(s')
  {
    hide Exchange, SeatLock, PayLock, OpenOwned, ReqLock;
    ExchangeSeats(s, s', r);
    ExchangeOpen(s, s', r);
    ExchangeReqs(s, s', r);
  }

  // A move that touches no lock and no outbox id.
  lemma NeutralKeeps(s: Sys, s': Sys, r: ReqId)
    requires LockInv(s) && OnlyPc(s, s', r) && ShapeOk(s'.reqs[r])
    requires s'.tlock == s.tlock && s'.plock == s.plock && s'.box == s.box
    requires HeldTicket(s'.reqs[r]) == HeldTicket(s.reqs[r]) && HeldPayment(s'.reqs[r]) == HeldPayment(s.reqs[r])
    requires OpenId(s'.reqs[r].pc) == OpenId(s.reqs[r].pc)
    ensures LockInv(s')
  {
    hide HeldTicket, HeldPayment, OpenId, ShapeOk;
    assert ReqLock(s, r);
    if OpenId(s.reqs[r].pc).Some? { assert OpenOwned(s, OpenId(s.reqs[r].pc).value); }
    assert Exchange(s, s', r);
    hide LockInv, Exchange;
    ExchangeKeeps(s, s', r);
  }

  function Without<K, V>(m: map<K, V>, k: Option<K>): map<K, V> {
    if k.Some? then m - {k.value} else m
  }

  // A transaction ends: every lock and id the request has is given up.
  ghost predicate GivesUp(s: Sys, s': Sys, r: ReqId) {
    OnlyPc(s, s', r) && ShapeOk(s'.reqs[r]) && var q, q' := s.reqs[r], s'.reqs[r];
    && HeldTicket(q').None? && HeldPayment(q').None? && OpenId(q'.pc).None?
    && s'.tlock == Without(s.tlock, HeldTicket(q)) && s'.plock == Without(s.plock, HeldPayment(q))
    && s'.box.open == Without(s.box.open, OpenId(q.pc)) && s'.box.next == s.box.next
  }

  lemma GiveUpKeeps(s: Sys, s': Sys, r: ReqId)
    requires LockInv(s) && GivesUp(s, s', r)
    ensures LockInv(s')
  {
    hide LockInv, HeldTicket, HeldPayment, OpenId, ShapeOk;
    assert Exchange(s, s', r);
    hide Exchange;
    ExchangeKeeps(s, s', r);
  }

  // ---------------------------------------------------------------- per act

  lemma LockGate(s: Sys, r: ReqId, g: GateAct)
    requires LockInv(s) && CanGate(s, r, g)
    ensures LockInv(DoGate(s, r, g))
  {
    GateFrame(s, r, g);
    GateHolds(s.reqs[r], g, DoGate(s, r, g).reqs[r].pc);
    hide LockInv, DoGate, CanGate, GateMoves, HeldTicket, HeldPayment, OpenId, ShapeOk;
    NeutralKeeps(s, DoGate(s, r, g), r);
  }

  lemma GateHolds(q: Req, g: GateAct, pc: Pc)
    requires GateMoves(q, g, pc)
    ensures var q' := q.(pc := pc);
      && HeldTicket(q) == HeldTicket(q') == None && HeldPayment(q) == HeldPayment(q') == None
      && OpenId(q.pc) == OpenId(pc) == None && ShapeOk(q')
  {}

  lemma LockPay(s: Sys, r: ReqId, y: PayAct)
    requires LockInv(s) && CanPay(s, r, y)
    ensures LockInv(DoPay(s, r, y))
  {
    PayFrame(s, r, y);
    assert ReqLock(s, r);
    hide LockInv, DoPay;
    NeutralKeeps(s, DoPay(s, r, y), r);
  }

  lemma LockRefund(s: Sys, r: ReqId, f: RefundAct)
    requires LockInv(s) && CanRefund(s, r, f)
    ensures LockInv(DoRefund(s, r, f))
  {
    RefundFrame(s, r, f);
    assert ReqLock(s, r);
    hide LockInv, DoRefund;
    NeutralKeeps(s, DoRefund(s, r, f), r);
  }

  lemma LockClaim(s: Sys, r: ReqId, c: ClaimAct)
    requires LockInv(s) && CanClaim(s, r, c)
    ensures LockInv(DoClaim(s, r, c))
  {
    match c
    case ClaimLock(t) => LockClaimLock(s, r, t);
    case ClaimAlloc => LockClaimAlloc(s, r);
    case ClaimCommit(mid) => LockClaimCommit(s, r, mid);
    case ClaimAbort => LockClaimAbort(s, r);
    case _ =>
      ClaimFrame(s, r, c);
      hide LockInv;
      NeutralKeeps(s, DoClaim(s, r, c), r);
  }

  lemma LockClaimLock(s: Sys, r: ReqId, t: TicketId)
    requires LockInv(s) && CanClaim(s, r, ClaimLock(t))
    ensures LockInv(DoClaim(s, r, ClaimLock(t)))
  {
    hide LockInv;
    ExchangeKeeps(s, DoClaim(s, r, ClaimLock(t)), r);
  }

  lemma LockClaimAlloc(s: Sys, r: ReqId)
    requires LockInv(s) && CanClaim(s, r, ClaimAlloc)
    ensures LockInv(DoClaim(s, r, ClaimAlloc))
  {
    assert ReqLock(s, r);
    hide LockInv;
    ExchangeKeeps(s, DoClaim(s, r, ClaimAlloc), r);
  }

  lemma LockClaimCommit(s: Sys, r: ReqId, mid: MsgId)
    requires LockInv(s) && CanClaim(s, r, ClaimCommit(mid))
    ensures LockInv(DoClaim(s, r, ClaimCommit(mid)))
  {
    hide LockInv, DoClaim, Exchange;
    ClaimExchanges(s, r, mid);
    ExchangeKeeps(s, DoClaim(s, r, ClaimCommit(mid)), r);
  }

  lemma ClaimExchanges(s: Sys, r: ReqId, mid: MsgId)
    requires CanClaim(s, r, ClaimCommit(mid))
    ensures Exchange(s, DoClaim(s, r, ClaimCommit(mid)), r)
  {
    hide DoClaim, SoldRow, ClaimMoves, IsPick, Candidate;
    SaleCommitted(s, r, mid);
    ClaimFrame(s, r, ClaimCommit(mid));
  }

  lemma LockClaimAbort(s: Sys, r: ReqId)
    requires LockInv(s) && CanClaim(s, r, ClaimAbort)
    ensures LockInv(DoClaim(s, r, ClaimAbort))
  {
    hide LockInv;
    ExchangeKeeps(s, DoClaim(s, r, ClaimAbort), r);
  }

  lemma LockRelease(s: Sys, r: ReqId, l: ReleaseAct)
    requires LockInv(s) && CanRelease(s, r, l)
    ensures LockInv(DoRelease(s, r, l))
  {
    match l
    case ReleaseTicket => LockReleaseTicket(s, r);
    case ReleasePayment => LockReleasePayment(s, r);
    case ReleaseCommit => LockReleaseCommit(s, r);
    case ReleaseErr => LockReleaseErr(s, r);
  }

  lemma LockReleaseTicket(s: Sys, r: ReqId)
    requires LockInv(s) && CanRelease(s, r, ReleaseTicket)
    ensures LockInv(DoRelease(s, r, ReleaseTicket))
  {
    assert ReqLock(s, r);
    hide LockInv;
    ExchangeKeeps(s, DoRelease(s, r, ReleaseTicket), r);
  }

  lemma LockReleasePayment(s: Sys, r: ReqId)
    requires LockInv(s) && CanRelease(s, r, ReleasePayment)
    ensures LockInv(DoRelease(s, r, ReleasePayment))
  {
    assert ReqLock(s, r);
    hide LockInv;
    ExchangeKeeps(s, DoRelease(s, r, ReleasePayment), r);
  }

  lemma LockReleaseCommit(s: Sys, r: ReqId)
    requires LockInv(s) && CanRelease(s, r, ReleaseCommit)
    ensures LockInv(DoRelease(s, r, ReleaseCommit))
  {
    hide LockInv, FreeRow, Freed, Denial;
    ExchangeKeeps(s, DoRelease(s, r, ReleaseCommit), r);
  }

  lemma LockReleaseErr(s: Sys, r: ReqId)
    requires LockInv(s) && CanRelease(s, r, ReleaseErr)
    ensures LockInv(DoRelease(s, r, ReleaseErr))
  {
    hide LockInv, Denial;
    ExchangeKeeps(s, DoRelease(s, r, ReleaseErr), r);
  }

  lemma LockCancel(s: Sys, r: ReqId, x: CancelAct)
    requires LockInv(s) && CanCancel(s, r, x)
    ensures LockInv(DoCancel(s, r, x))
  {
    match x
    case CancelLock => LockCancelLock(s, r);
    case CancelAlloc => LockCancelAlloc(s, r);
    case CancelCommit(mid) => LockCancelCommit(s, r, mid);
    case CancelRead => LockCancelRead(s, r);
    case CancelPick => LockCancelPick(s, r);
    case _ => LockCancelAbort(s, r, x);
  }

  // A cancellation read ends in an answer or in a snapshot; neither holds a lock.
  lemma ReadHolds(q: Req, pc: Pc)
    requires ShapeOk(q) && q.pc.Attempt?
    requires pc.Answered? || (pc.Snapped? && pc.n == q.pc.n)
    ensures var q' := q.(pc := pc);
      && HeldTicket(q) == HeldTicket(q') == None && HeldPayment(q) == HeldPayment(q') == None
      && OpenId(q.pc) == OpenId(pc) == None && ShapeOk(q')
  {}

  lemma LockCancelRead(s: Sys, r: ReqId)
    requires LockInv(s) && CanCancel(s, r, CancelRead)
    ensures LockInv(DoCancel(s, r, CancelRead))
  {
    ReadFrame(s, r);
    assert ReqLock(s, r);
    hide HeldTicket, HeldPayment, OpenId, ShapeOk, LockInv, DoCancel;
    ReadHolds(s.reqs[r], DoCancel(s, r, CancelRead).reqs[r].pc);
    NeutralKeeps(s, DoCancel(s, r, CancelRead), r);
  }

  lemma LockCancelPick(s: Sys, r: ReqId)
    requires LockInv(s) && CanCancel(s, r, CancelPick)
    ensures LockInv(DoCancel(s, r, CancelPick))
  {
    assert ReqLock(s, r);
    hide LockInv, Capture;
    NeutralKeeps(s, DoCancel(s, r, CancelPick), r);
  }

  lemma LockCancelLock(s: Sys, r: ReqId)
    requires LockInv(s) && CanCancel(s, r, CancelLock)
    ensures LockInv(DoCancel(s, r, CancelLock))
  {
    assert ReqLock(s, r);
    hide LockInv;
    ExchangeKeeps(s, DoCancel(s, r, CancelLock), r);
  }

  lemma LockCancelAlloc(s: Sys, r: ReqId)
    requires LockInv(s) && CanCancel(s, r, CancelAlloc)
    ensures LockInv(DoCancel(s, r, CancelAlloc))
  {
    assert ReqLock(s, r);
    hide LockInv;
    ExchangeKeeps(s, DoCancel(s, r, CancelAlloc), r);
  }

  lemma LockCancelCommit(s: Sys, r: ReqId, mid: MsgId)
    requires LockInv(s) && CanCancel(s, r, CancelCommit(mid))
    ensures LockInv(DoCancel(s, r, CancelCommit(mid)))
  {
    CancelFrame(s, r, CancelCommit(mid));
    CommitFrame(s, r, mid);
    hide LockInv, DoCancel, CancelMoves;
    GiveUpKeeps(s, DoCancel(s, r, CancelCommit(mid)), r);
  }

  lemma LockCancelAbort(s: Sys, r: ReqId, x: CancelAct)
    requires LockInv(s) && CanCancel(s, r, x) && (x.CancelRetry? || x.CancelErr?)
    ensures LockInv(DoCancel(s, r, x))
  {
    assert ReqLock(s, r);
    hide LockInv, GivesUp;
    AbortGivesUp(s, r, x);
    GiveUpKeeps(s, DoCancel(s, r, x), r);
  }

  lemma AbortGivesUp(s: Sys, r: ReqId, x: CancelAct)
    requires ReqLock(s, r) && CanCancel(s, r, x) && (x.CancelRetry? || x.CancelErr?)
    ensures GivesUp(s, DoCancel(s, r, x), r)
  {}

  lemma LockCrash(s: Sys, r: ReqId)
    requires LockInv(s) && CanCrash(s, r)
    ensures LockInv(DoCrash(s, r))
  {
    assert ReqLock(s, r);
    forall t | t in s.tlock && s.tlock[t] == r ensures HeldTicket(s.reqs[r]) == Some(t) { assert SeatLock(s, t); }
    forall p | p in s.plock && s.plock[p] == r ensures HeldPayment(s.reqs[r]) == Some(p) { assert PayLock(s, p); }
    hide LockInv, DoCrash, CanCrash, Exchange, HeldTicket, HeldPayment, ReqLock;
    CrashExchanges(s, r);
    ExchangeKeeps(s, DoCrash(s, r), r);
  }

  lemma CrashExchanges(s: Sys, r: ReqId)
    requires ReqLock(s, r) && CanCrash(s, r)
    requires forall t | t in s.tlock && s.tlock[t] == r :: HeldTicket(s.reqs[r]) == Some(t)
    requires forall p | p in s.plock && s.plock[p] == r :: HeldPayment(s.reqs[r]) == Some(p)
    ensures Exchange(s, DoCrash(s, r), r)
  {}

  lemma LockSame(s: Sys, s': Sys)
    requires LockInv(s) && s'.tlock == s.tlock && s'.plock == s.plock
    requires s'.box.open == s.box.open && s'.box.next == s.box.next && s.reqs.Keys <= s'.reqs.Keys
    requires forall r | r in s.reqs :: s'.reqs[r] == s.reqs[r]
    requires forall r | r in s'.reqs && r !in s.reqs :: s'.reqs[r].pc.Arrived?
    ensures LockInv(s')
  {
    forall t ensures SeatLock(s', t) { assert SeatLock(s, t); }
    forall p ensures PayLock(s', p) { assert PayLock(s, p); }
    forall o: nat ensures OpenOwned(s', o) { assert OpenOwned(s, o); }
    forall r ensures ReqLock(s', r) { assert ReqLock(s, r); }
  }

  lemma LockAct(s: Sys, r: ReqId, a: Act)
    requires LockInv(s) && CanAct(s, r, a)
    ensures LockInv(DoAct(s, r, a))
  {
    hide LockInv;
    match a
    case Gate(g) => LockGate(s, r, g);
    case Claim(c) => LockClaim(s, r, c);
    case Pay(y) => LockPay(s, r, y);
    case Release(l) => LockRelease(s, r, l);
    case Cancel(x) => LockCancel(s, r, x);
    case Refund(f) => LockRefund(s, r, f);
    case Crash => LockCrash(s, r);
  }

  lemma LockKept(s: Sys, step: Step)
    requires LockInv(s) && Enabled(s, step)
    ensures LockInv(Apply(s, step))
  {
    hide LockInv, CanAct, DoAct, Outbox.DoRelay, Outbox.DoWork, Outbox.CanRelay, Outbox.CanWork;
    match step
    case Arrive(_, _, _, _, _) => LockSame(s, Apply(s, step));
    case Mint(_, _, _) => LockSame(s, Apply(s, step));
    case Ship(k, a) =>
      OutboxProofs.RelayFrame(s.box, k, a);
      LockSame(s, Apply(s, step));
    case Work(p, w) =>
      OutboxProofs.WorkerFrame(s.box, p, w);
      LockSame(s, Apply(s, step));
    case Do(r, a) => LockAct(s, r, a);
  }

  lemma LockInit(s: Sys)
    requires Init(s)
    ensures LockInv(s)
  {}
}
