/** Who gets the seat and who gets the money back: refunds and releases, and when releases can go wrong. */
module HoldTheorems {
  import opened Types
  import opened Payments
  import opened System
  import opened Frames
  import opened KeyProofs
  import opened LockProofs
  import opened SeatProofs
  import opened MoneyProofs
  import opened HoldProofs
  import opened CountProofs
  import opened Invariant
  import Outbox

  // ---------------------------------------------------------------- the right refund

  /** Whoever holds a ticket bought by a purchase: its newest payment is the holder's, for its price. */
  lemma HoldersPaymentIsNewest(s: Sys, t: TicketId)
    requires Reachable(s) && t in s.hist.held
    ensures var p := s.hist.held[t];
      t in s.tickets && p in s.payments && s.payments[p].ticket == t && s.tickets[t].status.Bought?
      && s.tickets[t].owner == Some(s.payments[p].user) && s.payments[p].amount == s.tickets[t].price
      && forall p' | p' in s.payments && s.payments[p'].ticket == t :: s.payments[p'].createdAt <= s.payments[p].createdAt
  {
    TicketFacts(s, t);
    hide Reachable, Balanced, SoldOk, RowSeat, SeatLock;
    assert Newest(s, t, s.hist.held[t]);
    forall p | p in s.payments ensures s.payments[p].createdAt == p { PaymentFacts(s, p); }
  }

  // The newest payment row of a ticket, whatever its status.
  function NewestOf(s: Sys, t: TicketId): Option<Found> {
    NewestRow(s.payments, t, s.clock)
  }

  lemma CommitFacts(s: Sys, r: ReqId, mid: MsgId)
    requires Reachable(s) && CanCancel(s, r, CancelCommit(mid))
    ensures var q := s.reqs[r]; var t := q.call.ticket;
      && t in s.tickets && s.tickets[t].status.Bought? && s.tickets[t].owner == Some(q.user)
      && s.tickets[t].ver == q.pc.snap.row.ver
      && (t in s.hist.held ==> s.hist.held[t] in s.payments)
      && NewestOf(s, t) == (if t in s.hist.held then Some(Found(s.hist.held[t], s.payments[s.hist.held[t]])) else None)
  {
    var t := s.reqs[r].call.ticket;
    ReqFacts(s, r);
    TicketFacts(s, t);
    assert Rows(s) by { ReachableInv(s); hide Reachable; }
    hide Reachable, ReqLock, ReqBound, PayPc, ReqFound, ReqHold, Balanced, RowSeat, SeatLock, Newest, HeldOk, SoldOk;
    hide Outbox.CanQueue, CancelEvent;
    NewestIsHolders(s, t);
  }

  /**
   The attempt that commits refunds the ticket's newest payment, which is the holder's own, in full, if and only
   if that row was succeeded when the attempt read it (NewestSettled at its CancelRead). A capture left by an
   aborted attempt never changes that. The code could make the test; it selects among settled rows instead.
   */
  lemma RightRefund(s: Sys, r: ReqId, mid: MsgId)
    requires Reachable(s) && CanCancel(s, r, CancelCommit(mid)) && NewestOf(s, s.reqs[r].call.ticket).Some?
    ensures var q := s.reqs[r];
      var t := q.call.ticket;
      var own := NewestOf(s, t).value;
      var pc := DoCancel(s, r, CancelCommit(mid)).reqs[r].pc;
      && t in s.tickets && own.row.user == q.user && own.row.amount == s.tickets[t].price
      && (q.pc.snap.settled <==> pc.Refunding? && pc.found.id == own.id)
      && (q.pc.snap.settled ==>
            own.id in s.hist.paid && pc.found.row.intent == Intent(s.hist.paid[own.id]) && pc.found.row.amount == own.row.amount)
  {
    ReqFacts(s, r);
    TicketFacts(s, s.reqs[r].call.ticket);
    CommitFacts(s, r, mid);
    hide Reachable, ReqLock, ReqBound, PayPc, Balanced, SoldOk, RowSeat, SeatLock, Newest, NewestOf;
    hide Outbox.CanQueue, Outbox.DoQueue, CancelEvent, CalledOffBy, FreeRow;
  }

  /** What the snapshot of a purchased ticket records of the payment rows: whether the owner's own, the newest, is succeeded. */
  lemma SettledIsOwners(s: Sys, t: TicketId)
    requires Reachable(s) && t in s.tickets && s.tickets[t].status.Bought?
    ensures var own := NewestOf(s, t);
      && (TakeSnapshot(s, t).settled <==> own.Some? && own.value.row.status.Succeeded?)
      && (own.Some? ==> own.value.id in s.payments && own.value.row == s.payments[own.value.id]
                        && own.value.row.ticket == t && s.tickets[t].owner == Some(own.value.row.user))
  {
    TicketFacts(s, t);
    assert Rows(s) by { ReachableInv(s); hide Reachable; }
    hide Reachable, Balanced, RowSeat, SeatLock, Newest, ByTicket;
    NewestIsHolders(s, t);
  }

  // ---------------------------------------------------------------- whose seat a release frees

  /**
   The release matches on ticket id and status alone. It takes back its own claim exactly when the
   row's purchased_at is still the time its own payment was created; otherwise it frees another seat.
   */
  lemma ReleaseFreesOwnIff(s: Sys, r: ReqId)
    requires Reachable(s) && CanRelease(s, r, ReleaseCommit) && s.reqs[r].pc.held
    ensures var t, p := s.reqs[r].pc.t, s.reqs[r].pc.p;
      && t in s.hist.held && s.hist.held[t] in s.hist.fate && p in s.hist.fate
      && (s.hist.held[t] == p <==> s.tickets[t].boughtAt == Some(s.payments[p].createdAt))
      && (s.hist.held[t] == p <==> s.hist.fate[p] == Holding)
      && DoRelease(s, r, ReleaseCommit).hist.fate[s.hist.held[t]] == (if s.hist.held[t] == p then Returned else Stray)
  {
    var t, p := s.reqs[r].pc.t, s.reqs[r].pc.p;
    ReqFacts(s, r);
    TicketFacts(s, t);
    PaymentFacts(s, p);
    hide ReqBound, ReqLock, ReqFound, Balanced, RowSeat, SeatLock;
    PaymentFacts(s, s.hist.held[t]);
    hide Reachable, FreeRow, Denial, Newest, StatusOk, PaidOk;
  }

  // ---------------------------------------------------------------- calm runs

  predicate Running(pc: Pc) {
    !pc.Done? && !pc.Crashed?
  }

  /** A cancellation commits only on a ticket whose claimer has finished. */
  ghost predicate CalmStep(s: Sys, step: Step) {
    step.Do? && step.a.Cancel? && step.a.x.CancelCommit? && step.r in s.reqs && s.reqs[step.r].call.Cancellation? ==>
      var t := s.reqs[step.r].call.ticket;
      t in s.hist.held && s.hist.held[t] in s.hist.claims && s.hist.claims[s.hist.held[t]] in s.reqs ==>
        !Running(s.reqs[s.hist.claims[s.hist.held[t]]].pc)
  }

  ghost predicate Calm(s: Sys, steps: seq<Step>)
    requires Legal(s, steps)
    decreases |steps|
  {
    steps == [] || (Calm(s, Front(steps)) && CalmStep(Run(s, Front(steps)), Last(steps)))
  }

  // A request that may still release.
  predicate Exposed(pc: Pc) {
    pc.Claimed? || pc.ChargeFailed? || pc.Releasing?
  }

  ghost predicate StillHolds(s: Sys, r: ReqId) {
    r in s.reqs && Exposed(s.reqs[r].pc) ==> Holds(s, s.reqs[r].pc.t, s.reqs[r].pc.p)
  }

  ghost predicate CalmInv(s: Sys) {
    && (forall r :: StillHolds(s, r))
    && (forall p | p in s.hist.fate :: s.hist.fate[p] != Stray)
  }

  lemma CalmSame(s: Sys, s': Sys, r: ReqId)
    requires CalmInv(s) && OnlyPc(s, s', r) && s'.hist.held == s.hist.held && s'.hist.fate == s.hist.fate
    requires StillHolds(s', r)
    ensures CalmInv(s')
  {
    forall j ensures StillHolds(s', j) { assert StillHolds(s, j); }
  }

  // A quiet act leaves a request exposed only for the claim it was exposed for.
  predicate Steady(pc: Pc, pc': Pc) {
    Exposed(pc') ==> Exposed(pc) && pc'.t == pc.t && pc'.p == pc.p
  }

  lemma QuietIsSteady(s: Sys, r: ReqId, a: Act)
    requires CanAct(s, r, a) && !Major(a)
    ensures r in DoAct(s, r, a).reqs && Steady(s.reqs[r].pc, DoAct(s, r, a).reqs[r].pc)
  {
    hide DoGate, DoClaim, DoPay, DoRelease, DoCancel, DoRefund, DoCrash;
    hide CanGate, CanClaim, CanPay, CanRelease, CanCancel, CanRefund, CanCrash;
    match a
    case Gate(g) => GateFrame(s, r, g);
    case Claim(c) => CalmQuietClaim(s, r, c);
    case Pay(y) => PayFrame(s, r, y);
    case Release(l) => ReleaseFrame(s, r, l);
    case Cancel(x) => CancelFrame(s, r, x);
    case Refund(f) => RefundFrame(s, r, f);
    case Crash => CrashFrame(s, r);
  }

  lemma CalmQuiet(s: Sys, r: ReqId, a: Act)
    requires CalmInv(s) && CanAct(s, r, a) && !Major(a)
    ensures CalmInv(DoAct(s, r, a))
  {
    TameAct(s, r, a);
    QuietIsSteady(s, r, a);
    assert StillHolds(s, r);
    hide CalmInv, DoAct, CanAct, Major;
    CalmSame(s, DoAct(s, r, a), r);
  }

  lemma CalmQuietClaim(s: Sys, r: ReqId, c: ClaimAct)
    requires CanClaim(s, r, c) && !c.ClaimCommit?
    ensures r in DoClaim(s, r, c).reqs && !Exposed(DoClaim(s, r, c).reqs[r].pc)
  {
    hide IsPick, Candidate, Outbox.CanQueue, Outbox.DoQueue, Rollback;
  }

  lemma CalmMoney(s: Sys, r: ReqId, a: Act)
    requires CalmInv(s) && CanAct(s, r, a) && (a.Pay? || a.Refund?)
    ensures CalmInv(DoAct(s, r, a))
  {
    assert StillHolds(s, r);
    hide CalmInv;
    if a.Pay? { PayFrame(s, r, a.y); } else { RefundFrame(s, r, a.f); }
    hide DoPay, DoRefund;
    CalmSame(s, DoAct(s, r, a), r);
  }

  lemma CalmClaimCommit(s: Sys, r: ReqId, mid: MsgId)
    requires HoldInv(s) && CalmInv(s) && CanClaim(s, r, ClaimCommit(mid))
    ensures CalmInv(DoClaim(s, r, ClaimCommit(mid)))
  {
    var t := s.reqs[r].pc.t;
    assert HeldOk(s, t);
    hide HoldInv, Newest, Outbox.CanQueue, Outbox.DoQueue, ClaimEvent;
    ClaimFrame(s, r, ClaimCommit(mid));
    var s' := DoClaim(s, r, ClaimCommit(mid));
    forall j ensures StillHolds(s', j) { assert StillHolds(s, j); }
  }

  // The ticket is taken from its holder; nobody else can still release that claim.
  lemma CalmTake(s: Sys, s': Sys, r: ReqId, t: TicketId, to: Fate)
    requires MoneyInv(s) && CalmInv(s) && OnlyPc(s, s', r) && !Exposed(s'.reqs[r].pc) && to != Stray
    requires s'.hist.held == s.hist.held - {t}
    requires s'.hist.fate == if t in s.hist.held then s.hist.fate[s.hist.held[t] := to] else s.hist.fate
    requires forall j | j in s.reqs && j != r && Exposed(s.reqs[j].pc) && s.reqs[j].pc.t == t ::
               !(Holds(s, t, s.reqs[j].pc.p))
    ensures CalmInv(s')
  {
    hide MoneyInv;
    forall j ensures StillHolds(s', j) { assert StillHolds(s, j); }
  }

  lemma CalmReleaseCommit(s: Sys, r: ReqId)
    requires MoneyInv(s) && CalmInv(s) && CanRelease(s, r, ReleaseCommit)
    ensures CalmInv(DoRelease(s, r, ReleaseCommit))
  {
    ReleaseFrame(s, r, ReleaseCommit);
    assert StillHolds(s, r) && PayPc(s, r);
    forall j | j in s.reqs && j != r && Exposed(s.reqs[j].pc) ensures s.reqs[j].pc.p != s.reqs[r].pc.p { assert PayPc(s, j); }
    hide MoneyInv, CalmInv;
    var s' := DoRelease(s, r, ReleaseCommit);
    if s.reqs[r].pc.held {
      CalmTake(s, s', r, s.reqs[r].pc.t, Returned);
    } else {
      CalmSame(s, s', r);
    }
  }

  lemma CalmCancelCommit(s: Sys, r: ReqId, mid: MsgId)
    requires MoneyInv(s) && CalmInv(s) && CanCancel(s, r, CancelCommit(mid))
    requires CalmStep(s, Do(r, Cancel(CancelCommit(mid))))
    ensures CalmInv(DoCancel(s, r, CancelCommit(mid)))
  {
    CancelFrame(s, r, CancelCommit(mid));
    var t := s.reqs[r].call.ticket;
    forall j | j in s.reqs && Exposed(s.reqs[j].pc) && s.reqs[j].pc.t == t ensures !Holds(s, t, s.reqs[j].pc.p) {
      assert PayPc(s, j);
    }
    hide MoneyInv, CalmInv, Outbox.CanQueue, Outbox.DoQueue, CancelEvent, FreeRow, CalmStep, Holds, CancelMoves;
    CalmTake(s, DoCancel(s, r, CancelCommit(mid)), r, t, CalledOff);
  }

  lemma CalmAct(s: Sys, r: ReqId, a: Act)
    requires MoneyInv(s) && HoldInv(s) && CalmInv(s) && CanAct(s, r, a) && CalmStep(s, Do(r, a))
    ensures CalmInv(DoAct(s, r, a))
  {
    hide MoneyInv, HoldInv, CalmInv, CalmStep;
    if a.Pay? || a.Refund? {
      CalmMoney(s, r, a);
    } else if !Major(a) {
      CalmQuiet(s, r, a);
    } else {
      match a
      case Claim(c) => CalmClaimCommit(s, r, c.mid);
      case Release(l) => CalmReleaseCommit(s, r);
      case Cancel(x) => CalmCancelCommit(s, r, x.mid);
    }
  }

  lemma CalmElse(s: Sys, s': Sys)
    requires CalmInv(s) && s'.hist.held == s.hist.held && s'.hist.fate == s.hist.fate && s.reqs.Keys <= s'.reqs.Keys
    requires forall r | r in s.reqs :: s'.reqs[r] == s.reqs[r]
    requires forall r | r in s'.reqs && r !in s.reqs :: s'.reqs[r].pc.Arrived?
    ensures CalmInv(s')
  {
    forall j ensures StillHolds(s', j) { assert StillHolds(s, j); }
  }

  lemma CalmKept(s: Sys, step: Step)
    requires Inv(s) && CalmInv(s) && Enabled(s, step) && CalmStep(s, step)
    ensures CalmInv(Apply(s, step))
  {
    assert MoneyInv(s) && HoldInv(s);
    hide Inv, MoneyInv, HoldInv, CalmInv, CalmStep, CanAct, DoAct;
    match step
    case Do(r, a) => CalmAct(s, r, a);
    case _ => CalmElse(s, Apply(s, step));
  }

  lemma {:induction false} CalmRun(s: Sys, steps: seq<Step>)
    requires Init(s) && Legal(s, steps) && Calm(s, steps)
    ensures Inv(Run(s, steps)) && CalmInv(Run(s, steps))
    decreases |steps|
  {
    InvInit(s);
    InvRun(s, steps);
    hide Init, Inv, CalmInv, CalmStep, Enabled, Apply;
    if steps == [] {
      CalmStart(s);
    } else {
      CalmRun(s, Front(steps));
      CalmKept(Run(s, Front(steps)), Last(steps));
    }
  }

  lemma CalmStart(s: Sys)
    requires Init(s)
    ensures CalmInv(s)
  {}

  /**
   If no cancellation commits on a ticket while the request that claimed it is running, every release
   takes back its own claim, and every succeeded payment that no cancellation called off still has its
   payer holding the ticket.
   */
  lemma CalmReleases(s0: Sys, steps: seq<Step>)
    requires Init(s0) && Legal(s0, steps) && Calm(s0, steps)
    ensures var s := Run(s0, steps);
      forall r | CanRelease(s, r, ReleaseCommit) ::
        s.reqs[r].pc.held && Holds(s, s.reqs[r].pc.t, s.reqs[r].pc.p)
    ensures var s := Run(s0, steps);
      forall p | p in s.payments && p in s.hist.fate && s.payments[p].status.Succeeded? && s.hist.fate[p] != CalledOff ::
        var t := s.payments[p].ticket; Holds(s, t, p) && t in s.tickets && s.tickets[t].owner == Some(s.payments[p].user)
  {
    CalmRun(s0, steps);
    hide Init, Calm, Legal, Run, Inv, CalmInv;
    CalmFreesOwn(Run(s0, steps));
    CalmKeepsSeats(Run(s0, steps));
  }

  lemma CalmFreesOwn(s: Sys)
    requires Inv(s) && CalmInv(s)
    ensures forall r | CanRelease(s, r, ReleaseCommit) :: s.reqs[r].pc.held && Holds(s, s.reqs[r].pc.t, s.reqs[r].pc.p)
  {
    assert HoldInv(s);
    hide Inv, HeldOk, SoldOk, FateOk;
    forall r | CanRelease(s, r, ReleaseCommit) ensures s.reqs[r].pc.held && Holds(s, s.reqs[r].pc.t, s.reqs[r].pc.p) {
      assert StillHolds(s, r) && ReqHold(s, r);
    }
  }

  lemma CalmKeepsSeats(s: Sys)
    requires Inv(s) && CalmInv(s)
    ensures forall p | p in s.payments && p in s.hist.fate && s.payments[p].status.Succeeded? && s.hist.fate[p] != CalledOff ::
      var t := s.payments[p].ticket; Holds(s, t, p) && t in s.tickets && s.tickets[t].owner == Some(s.payments[p].user)
  {
    assert HoldInv(s);
    hide Inv, ReqHold, SoldOk, StillHolds, Newest;
    forall p | p in s.payments && p in s.hist.fate && s.payments[p].status.Succeeded? && s.hist.fate[p] != CalledOff
      ensures var t := s.payments[p].ticket; Holds(s, t, p) && t in s.tickets && s.tickets[t].owner == Some(s.payments[p].user)
    {
      assert FateOk(s, p) && HeldOk(s, s.payments[p].ticket);
    }
  }

  // ---------------------------------------------------------------- what is captured

  predicate WasSucceeded(f: Option<Found>) {
    f.Some? ==> f.value.row.status == Succeeded
  }

  // A captured payment was succeeded when it was read.
  predicate CaptureOk(pc: Pc) {
    match pc
    case Attempt(_, captured) => WasSucceeded(captured)
    case Snapped(_, captured, snap) => WasSucceeded(captured) && WasSettled(snap.pick)
    case Cancelling(_, captured, snap, _) => WasSucceeded(captured) && WasSettled(snap.pick)
    case CancelReady(_, captured, _, _) => WasSucceeded(captured)
    case Refunding(found) => found.row.status == Succeeded
    case Marking(found, _) => found.row.status == Succeeded
    case _ => true
  }

  lemma CaptureAct(s: Sys, r: ReqId, a: Act)
    requires r in s.reqs && CanAct(s, r, a) && CaptureOk(s.reqs[r].pc) && OnlyPc(s, DoAct(s, r, a), r)
    ensures CaptureOk(DoAct(s, r, a).reqs[r].pc)
  {
    hide DoGate, DoClaim, DoPay, DoRelease, DoCancel, DoRefund, DoCrash;
    hide CanGate, CanClaim, CanPay, CanRelease, CanCancel, CanRefund, CanCrash;
    match a
    case Gate(g) => GateFrame(s, r, g);
    case Claim(c) => ClaimFrame(s, r, c);
    case Pay(y) => PayFrame(s, r, y);
    case Release(l) => ReleaseFrame(s, r, l);
    case Cancel(x) => hide CaptureOk; CaptureCancel(s, r, x);
    case Refund(f) => RefundFrame(s, r, f);
    case Crash => CrashFrame(s, r);
  }

  lemma CaptureCancel(s: Sys, r: ReqId, x: CancelAct)
    requires r in s.reqs && CanCancel(s, r, x) && CaptureOk(s.reqs[r].pc) && OnlyPc(s, DoCancel(s, r, x), r)
    ensures CaptureOk(DoCancel(s, r, x).reqs[r].pc)
  {
    hide Outbox.CanQueue, Outbox.DoQueue, CancelEvent, FreeRow, CalledOffBy, CancelRollback, NewestSettled, NewestBelow;
    NewestWasSettled(s.payments, s.reqs[r].call.ticket, s.clock);
  }

  lemma CaptureStep(s: Sys, step: Step, r: ReqId)
    requires Enabled(s, step) && (r in s.reqs ==> CaptureOk(s.reqs[r].pc))
    ensures r in Apply(s, step).reqs ==> CaptureOk(Apply(s, step).reqs[r].pc)
  {
    hide CanAct, DoAct, Outbox.DoRelay, Outbox.DoWork, Outbox.CanRelay, Outbox.CanWork;
    if step.Do? {
      OthersMove(s, step.r, step.a);
      if step.r == r { hide CaptureOk; CaptureAct(s, r, step.a); }
    }
  }

  /**
   Over every run: what a cancellation has captured, in whichever attempt, and what it goes on to refund, was succeeded
   when it was read - never a payment it had seen refunded.
   */
  lemma {:induction false} CapturedWasSucceeded(s0: Sys, steps: seq<Step>, r: ReqId)
    requires Init(s0) && Legal(s0, steps)
    ensures r in Run(s0, steps).reqs ==> CaptureOk(Run(s0, steps).reqs[r].pc)
    decreases |steps|
  {
    if steps != [] {
      hide Init, Enabled, Apply, CaptureOk;
      CapturedWasSucceeded(s0, Front(steps), r);
      CaptureStep(Run(s0, Front(steps)), Last(steps), r);
    }
  }

  /** An attempt captures the payment it read exactly if that was succeeded; otherwise an earlier capture stays. */
  lemma CapturePicks(s: Sys, r: ReqId)
    requires Reachable(s) && CanCancel(s, r, CancelPick)
    ensures var pc, pc' := s.reqs[r].pc, DoCancel(s, r, CancelPick).reqs[r].pc;
      pc'.CancelReady?
      && pc'.captured == if pc.snap.pick.Some? && pc.snap.pick.value.row.status == Succeeded then pc.snap.pick else pc.captured
  {
    assert CaptureOk(s.reqs[r].pc) by {
      hide Init, Legal, Run, CanCancel, CaptureOk;
      var s0, steps :| Init(s0) && Legal(s0, steps) && s == Run(s0, steps);
      assert r in s.reqs by { InReqs(s, r); }
      CapturedWasSucceeded(s0, steps, r);
    }
    hide Reachable;
  }

  lemma InReqs(s: Sys, r: ReqId)
    requires CanCancel(s, r, CancelPick)
    ensures r in s.reqs
  {}
}
