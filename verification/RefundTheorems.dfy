/**
 When a payment is refunded at most once. With a provider that remembers refund keys, always. With one that
 ignores them the code does not ensure it, for the refund of a cancellation is selected by ticket, not by
 holder; the exact condition is a test at the commit of each cancellation.
 */
module RefundTheorems {
  import opened Types
  import opened Payments
  import opened System
  import opened Frames
  import opened LockProofs
  import opened KeyProofs
  import opened SeatProofs
  import opened MoneyProofs
  import opened HoldProofs
  import opened CountProofs
  import opened MoneyTheorems
  import opened Invariant
  import opened Runs
  import Outbox
  import OutboxProofs

  // ---------------------------------------------------------------- refunds issued and under way

  ghost predicate Issued(s: Sys, p: PaymentId) {
    exists n :: n in s.prov.refunds && s.prov.refunds[n].payment == p
  }

  // Request r has committed its cancellation and is about to refund payment p.
  predicate Due(s: Sys, r: ReqId, p: PaymentId) {
    r in s.reqs && s.reqs[r].pc.Refunding? && s.reqs[r].pc.found.id == p
  }

  /** No two refunds at the provider name one payment. */
  ghost predicate RefundedOnce(s: Sys) {
    forall n, m | n in s.prov.refunds && m in s.prov.refunds && s.prov.refunds[n].payment == s.prov.refunds[m].payment :: n == m
  }

  /** Nor will they through the requests now running: each payment has one refund, issued or due. */
  ghost predicate Single(s: Sys) {
    && RefundedOnce(s)
    && (forall r, p | Due(s, r, p) :: !Issued(s, p))
    && (forall r, r', p | Due(s, r, p) && Due(s, r', p) :: r == r')
  }

  // The test at the commit of a cancellation: what it captured has no refund, issued or due.
  ghost predicate Unrefunded(s: Sys, captured: Option<Found>) {
    captured.Some? ==> !Issued(s, captured.value.id) && forall r :: !Due(s, r, captured.value.id)
  }

  ghost predicate SafeStep(s: Sys, step: Step) {
    step.Do? && step.a.Cancel? && step.a.x.CancelCommit? && CanAct(s, step.r, step.a) ==>
      Unrefunded(s, s.reqs[step.r].pc.captured)
  }

  // ---------------------------------------------------------------- one step

  // Refunds as they were, and nothing newly due.
  ghost predicate Fewer(s: Sys, s': Sys) {
    s'.prov.refunds == s.prov.refunds && forall r, p | Due(s', r, p) :: Due(s, r, p)
  }

  lemma FewerKeeps(s: Sys, s': Sys)
    requires Single(s) && Fewer(s, s')
    ensures Single(s')
  {
    forall r, p | Due(s', r, p) ensures !Issued(s', p) { assert Due(s, r, p); }
    forall r, r', p | Due(s', r, p) && Due(s', r', p) ensures r == r' { assert Due(s, r, p) && Due(s, r', p); }
  }

  predicate OpensRefund(a: Act) {
    (a.Cancel? && a.x.CancelCommit?) || (a.Refund? && a.f.RefundOk?)
  }

  lemma PayRefunds(s: Sys, r: ReqId, y: PayAct)
    requires CanPay(s, r, y)
    ensures DoPay(s, r, y).prov.refunds == s.prov.refunds
  {
    hide Bill;
  }

  lemma OtherActs(s: Sys, r: ReqId, a: Act)
    requires CanAct(s, r, a) && !OpensRefund(a)
    ensures OnlyPc(s, DoAct(s, r, a), r) && DoAct(s, r, a).prov.refunds == s.prov.refunds
    ensures !DoAct(s, r, a).reqs[r].pc.Refunding?
  {
    hide DoGate, DoClaim, DoPay, DoRelease, DoCancel, DoRefund, DoCrash;
    hide CanGate, CanClaim, CanPay, CanRelease, CanCancel, CanRefund, CanCrash;
    match a
    case Gate(g) => GateFrame(s, r, g);
    case Claim(c) => ClaimFrame(s, r, c);
    case Pay(y) => PayFrame(s, r, y); PayRefunds(s, r, y);
    case Release(l) => ReleaseFrame(s, r, l);
    case Cancel(x) => CancelFrame(s, r, x);
    case Refund(f) => RefundFrame(s, r, f);
    case Crash => CrashFrame(s, r);
  }

  lemma OtherSteps(s: Sys, step: Step)
    requires Enabled(s, step) && (step.Do? ==> !OpensRefund(step.a))
    ensures Fewer(s, Apply(s, step))
  {
    hide CanAct, DoAct, OpensRefund;
    if step.Do? { OtherActs(s, step.r, step.a); }
  }

  // The refund of f is issued under a new number.
  lemma IssueIs(s: Sys, r: ReqId)
    requires CanRefund(s, r, RefundOk) && !ReplaysRefund(s.prov, s.reqs[r].pc.found.id)
    ensures var f, n := s.reqs[r].pc.found, s.prov.issued + 1;
      && DoRefund(s, r, RefundOk).reqs == s.reqs[r := s.reqs[r].(pc := Marking(f, n))]
      && DoRefund(s, r, RefundOk).prov.refunds == s.prov.refunds[n := RefundRequest(f.row.intent, f.row.amount, f.id)]
  {}

  // A remembered refund is one that was issued.
  lemma ReplayIsIssued(s: Sys, p: PaymentId)
    requires LedgerOk(s.prov) && ReplaysRefund(s.prov, p)
    ensures Issued(s, p)
  {
    assert s.prov.refundKeys.value[p] in s.prov.refunds;
  }

  lemma IssueKeeps(s: Sys, r: ReqId)
    requires Single(s) && LedgerOk(s.prov) && CanRefund(s, r, RefundOk)
    ensures Single(DoRefund(s, r, RefundOk))
  {
    var p := s.reqs[r].pc.found.id;
    var s' := DoRefund(s, r, RefundOk);
    assert Due(s, r, p) && !Issued(s, p);
    NotReplayed(s, r, p);
    IssueIs(s, r);
    hide DoRefund, CanRefund, LedgerOk;
    IssuedOnce(s, r);
    forall j, x | Due(s', j, x) ensures Due(s, j, x) && x != p {}
    forall j, x | Due(s', j, x) ensures !Issued(s', x) {
      assert !Issued(s, x);
    }
  }

  lemma NotReplayed(s: Sys, r: ReqId, p: PaymentId)
    requires Single(s) && LedgerOk(s.prov) && Due(s, r, p)
    ensures !ReplaysRefund(s.prov, p)
  {
    hide LedgerOk, ReplaysRefund;
    if ReplaysRefund(s.prov, p) { ReplayIsIssued(s, p); }
  }

  lemma IssuedOnce(s: Sys, r: ReqId)
    requires Single(s) && LedgerOk(s.prov) && CanRefund(s, r, RefundOk)
    ensures RefundedOnce(DoRefund(s, r, RefundOk))
  {
    var p := s.reqs[r].pc.found.id;
    assert Due(s, r, p) && !Issued(s, p);
    NotReplayed(s, r, p);
    IssueIs(s, r);
    hide DoRefund;
    assert s.prov.issued + 1 !in s.prov.refunds;
  }

  lemma CommitIs(s: Sys, r: ReqId, mid: MsgId)
    requires CanCancel(s, r, CancelCommit(mid))
    ensures var captured, s' := s.reqs[r].pc.captured, DoCancel(s, r, CancelCommit(mid));
      && s'.prov == s.prov && OnlyPc(s, s', r) && s.reqs[r].pc.CancelReady?
      && (s'.reqs[r].pc.Refunding? <==> captured.Some?)
      && (captured.Some? ==> s'.reqs[r].pc.found == captured.value)
  {
    CancelCommitted(s, r, mid);
    hide CalledOffBy, FreeRow;
  }

  /** The commit of a cancellation leaves every payment with one refund, issued or due, if and only if it passes the test. */
  lemma CommitSingleIff(s: Sys, r: ReqId, mid: MsgId)
    requires Single(s) && CanCancel(s, r, CancelCommit(mid))
    ensures Single(DoCancel(s, r, CancelCommit(mid))) <==> Unrefunded(s, s.reqs[r].pc.captured)
  {
    var s' := DoCancel(s, r, CancelCommit(mid));
    var captured := s.reqs[r].pc.captured;
    CommitIs(s, r, mid);
    hide DoCancel, CanCancel;
    forall p ensures Issued(s', p) <==> Issued(s, p) {}
    forall j, p | j != r ensures Due(s', j, p) <==> Due(s, j, p) {}
    assert forall p :: !Due(s, r, p);
    if captured.Some? { assert Due(s', r, captured.value.id); }
    if Single(s') && captured.Some? {
      forall j ensures !Due(s, j, captured.value.id) { assert j != r ==> !Due(s', j, captured.value.id); }
    }
  }

  lemma StepSingleIff(s: Sys, step: Step)
    requires Single(s) && LedgerOk(s.prov) && Enabled(s, step)
    ensures Single(Apply(s, step)) <==> SafeStep(s, step)
  {
    hide Single, LedgerOk, DoCancel, CanCancel, DoRefund, CanRefund, Unrefunded;
    if step.Do? && step.a.Cancel? && step.a.x.CancelCommit? {
      CommitSingleIff(s, step.r, step.a.x.mid);
    } else if step.Do? && step.a.Refund? && step.a.f.RefundOk? {
      IssueKeeps(s, step.r);
    } else {
      hide Enabled, Apply;
      OtherSteps(s, step);
      FewerKeeps(s, Apply(s, step));
    }
  }

  // ---------------------------------------------------------------- whole runs

  // Single all along the run.
  ghost predicate AlwaysSingle(s: Sys, steps: seq<Step>)
    requires Legal(s, steps)
    decreases |steps|
  {
    Single(Run(s, steps)) && (steps == [] || AlwaysSingle(s, Front(steps)))
  }

  // Every cancellation that committed passed the test.
  ghost predicate SafeRefunds(s: Sys, steps: seq<Step>)
    requires Legal(s, steps)
    decreases |steps|
  {
    steps == [] || (SafeRefunds(s, Front(steps)) && SafeStep(Run(s, Front(steps)), Last(steps)))
  }

  lemma LedgerPart(s: Sys)
    requires Inv(s)
    ensures LedgerOk(s.prov)
  {}

  lemma InitSingle(s: Sys)
    requires Init(s)
    ensures Single(s)
  {}

  /** All along a run each payment has at most one refund, issued or due, if and only if every cancellation passed the test. */
  lemma {:induction false} RefundOnceIff(s0: Sys, steps: seq<Step>)
    requires Init(s0) && Legal(s0, steps)
    ensures AlwaysSingle(s0, steps) <==> SafeRefunds(s0, steps)
    decreases |steps|
  {
    hide Init, Single, SafeStep, Enabled, Apply, Inv;
    if steps == [] {
      InitSingle(s0);
    } else {
      var before := Run(s0, Front(steps));
      RefundOnceIff(s0, Front(steps));
      InvInit(s0);
      InvRun(s0, Front(steps));
      LedgerPart(before);
      if AlwaysSingle(s0, Front(steps)) {
        assert Single(before);
        StepSingleIff(before, Last(steps));
      }
    }
  }

  // One more refund.
  lemma IssueNext(s: Sys, r: ReqId, p: PaymentId) returns (s': Sys)
    requires Due(s, r, p) && LedgerOk(s.prov) && s.prov.refundKeys.None?
    ensures Goes(s, Do(r, Refund(RefundOk)), s') && LedgerOk(s'.prov) && s'.prov.refundKeys.None?
    ensures var n := s.prov.issued + 1;
      n !in s.prov.refunds && s'.prov.issued == n && n in s'.prov.refunds && s'.prov.refunds[n].payment == p
    ensures forall m | m in s.prov.refunds :: m in s'.prov.refunds && s'.prov.refunds[m] == s.prov.refunds[m]
    ensures forall j, x | j != r && Due(s, j, x) :: Due(s', j, x)
  {
    s' := Apply(s, Do(r, Refund(RefundOk)));
    ServeKeepsOk(s.prov, RefundCall(RefundRequest(s.reqs[r].pc.found.row.intent, s.reqs[r].pc.found.row.amount, p), None));
    IssueIs(s, r);
  }

  // The second refund of a payment.
  lemma IssueAgain(s0: Sys, steps: seq<Step>, s: Sys, r: ReqId, p: PaymentId) returns (steps': seq<Step>, s': Sys)
    requires Leads(s0, steps, s) && LedgerOk(s.prov) && s.prov.refundKeys.None? && Due(s, r, p) && Issued(s, p)
    ensures Leads(s0, steps', s') && !RefundedOnce(s')
  {
    hide Leads, Goes;
    s' := IssueNext(s, r, p);
    steps' := Then(s0, steps, s, Do(r, Refund(RefundOk)), s');
    var m :| m in s.prov.refunds && s.prov.refunds[m].payment == p;
    assert m in s'.prov.refunds && s.prov.issued + 1 in s'.prov.refunds;
  }

  /** Where it fails, and the provider ignores refund keys, the requests now running can refund a payment twice. */
  lemma DoubleIsNear(s: Sys) returns (steps: seq<Step>)
    requires Reachable(s) && s.prov.refundKeys.None? && !Single(s)
    ensures Legal(s, steps) && !RefundedOnce(Run(s, steps))
  {
    assert LedgerOk(s.prov) by { ReachableInv(s); hide Reachable; }
    NoSteps(s);
    hide Reachable, LedgerOk, Legal, Run, Goes, Due;
    var s';
    if !RefundedOnce(s) {
      steps := [];
    } else if r, p :| Due(s, r, p) && Issued(s, p) {
      steps, s' := IssueAgain(s, [], s, r, p);
    } else {
      var r, r', p :| Due(s, r, p) && Due(s, r', p) && r != r';
      var s1 := IssueNext(s, r, p);
      steps := Then(s, [], s, Do(r, Refund(RefundOk)), s1);
      assert Issued(s1, p);
      steps, s' := IssueAgain(s, steps, s1, r', p);
    }
  }

  // ---------------------------------------------------------------- the test on the tables

  // A cancellation commits only when it captured nothing, or when its ticket's newest payment row was succeeded.
  ghost predicate NewestOnly(s: Sys, step: Step) {
    step.Do? && step.a.Cancel? && step.a.x.CancelCommit? && CanAct(s, step.r, step.a) ==>
      s.reqs[step.r].pc.captured.None? || s.reqs[step.r].pc.snap.settled
  }

  ghost predicate NewestRefunds(s: Sys, steps: seq<Step>)
    requires Legal(s, steps)
    decreases |steps|
  {
    steps == [] || (NewestRefunds(s, Front(steps)) && NewestOnly(Run(s, Front(steps)), Last(steps)))
  }

  ghost predicate Wanted(s: Sys, p: PaymentId) {
    Issued(s, p) || exists r :: Due(s, r, p)
  }

  predicate IsOff(s: Sys, p: PaymentId) {
    p in s.payments && p in s.hist.fate && s.hist.fate[p] == CalledOff
  }

  // What is refunded or about to be was called off.
  ghost predicate OffFirst(s: Sys) {
    forall p :: Wanted(s, p) ==> IsOff(s, p)
  }

  lemma NewestIsSafe(s: Sys, step: Step)
    requires Inv(s) && OffFirst(s) && Enabled(s, step) && NewestOnly(s, step)
    ensures SafeStep(s, step)
  {
    if step.Do? && step.a.Cancel? && step.a.x.CancelCommit? && s.reqs[step.r].pc.captured.Some? {
      HeldCapture(s, step.r, step.a.x.mid);
      assert !Wanted(s, s.reqs[step.r].pc.captured.value.id);
    }
  }

  // The payment captured under that test is the holder's, not called off yet.
  lemma HeldCapture(s: Sys, r: ReqId, mid: MsgId)
    requires Inv(s) && CanCancel(s, r, CancelCommit(mid)) && s.reqs[r].pc.captured.Some? && s.reqs[r].pc.snap.settled
    ensures var t, p := s.reqs[r].call.ticket, s.reqs[r].pc.captured.value.id;
      Holds(s, t, p) && p in s.hist.fate && s.hist.fate[p] == System.Holding
  {
    ReqFactsOf(s, r);
    TicketFactsOf(s, s.reqs[r].call.ticket);
    PaymentFactsOf(s, s.reqs[r].pc.captured.value.id);
    hide Inv, ReqBound, ReqLock, PayPc, ReqFound, RowSeat, SeatLock, SoldOk, PaymentOk, PaidOk, Newest;
    hide Outbox.CanQueue, CancelEvent;
  }

  lemma OffClaim(s: Sys, r: ReqId, c: ClaimAct, p: PaymentId)
    requires CanClaim(s, r, c) && IsOff(s, p) && p < s.clock
    ensures IsOff(DoClaim(s, r, c), p)
  {
    if c.ClaimCommit? { SaleCommitted(s, r, c.mid); } else { ClaimFrame(s, r, c); }
    hide DoClaim, CanClaim;
  }

  // A called-off payment holds no ticket.
  lemma NotHeld(s: Sys, t: TicketId, p: PaymentId)
    requires Inv(s) && IsOff(s, p)
    ensures t in s.hist.held ==> s.hist.held[t] != p
  {
    hide Inv;
    PaymentFactsOf(s, p);
    TicketFactsOf(s, t);
    hide PaymentOk, PaidOk, SoldOk, RowSeat, SeatLock, Newest;
  }

  lemma OffRelease(s: Sys, r: ReqId, l: ReleaseAct, p: PaymentId)
    requires Inv(s) && CanRelease(s, r, l) && IsOff(s, p)
    ensures IsOff(DoRelease(s, r, l), p)
  {
    if l.ReleaseCommit? {
      NotHeld(s, s.reqs[r].pc.t, p);
      hide Inv, FreeRow, Denial;
    } else {
      ReleaseQuiet(s, r, l);
      hide Inv, DoRelease;
    }
  }

  lemma OffCancel(s: Sys, r: ReqId, x: CancelAct, p: PaymentId)
    requires CanCancel(s, r, x) && IsOff(s, p)
    ensures IsOff(DoCancel(s, r, x), p)
  {
    CancelFrame(s, r, x);
    if x.CancelCommit? { CancelCommitted(s, r, x.mid); }
    hide DoCancel, CanCancel;
  }

  lemma OffAct(s: Sys, r: ReqId, a: Act, p: PaymentId)
    requires Inv(s) && CanAct(s, r, a) && IsOff(s, p)
    ensures IsOff(DoAct(s, r, a), p)
  {
    hide Inv, DoGate, DoClaim, DoPay, DoRelease, DoCancel, DoRefund, DoCrash;
    match a
    case Claim(c) => PaymentFactsOf(s, p); hide PaidOk, FateOk, StatusOk; OffClaim(s, r, c, p);
    case Release(l) => OffRelease(s, r, l, p);
    case Cancel(x) => OffCancel(s, r, x, p);
    case Pay(y) => PayFrame(s, r, y); OffPay(s, r, y, p);
    case Refund(f) => OffRefund(s, r, f, p);
    case _ => TameAct(s, r, a);
  }

  lemma OffPay(s: Sys, r: ReqId, y: PayAct, p: PaymentId)
    requires CanPay(s, r, y) && IsOff(s, p)
    ensures IsOff(DoPay(s, r, y), p)
  {
    hide Bill, Charging;
  }

  lemma OffRefund(s: Sys, r: ReqId, f: RefundAct, p: PaymentId)
    requires CanRefund(s, r, f) && IsOff(s, p)
    ensures IsOff(DoRefund(s, r, f), p)
  {}

  lemma OffStays(s: Sys, step: Step, p: PaymentId)
    requires Inv(s) && Enabled(s, step) && IsOff(s, p)
    ensures IsOff(Apply(s, step), p)
  {
    hide Inv, CanAct, DoAct;
    if step.Do? { OffAct(s, step.r, step.a, p); }
  }

  // A payment newly wanted is the one the committing cancellation calls off.
  lemma NewlyWanted(s: Sys, step: Step, p: PaymentId)
    requires Inv(s) && Enabled(s, step) && NewestOnly(s, step) && Wanted(Apply(s, step), p) && !Wanted(s, p)
    ensures IsOff(Apply(s, step), p)
  {
    hide Inv, IsOff, Wanted, DoCancel, CanCancel, DoRefund, CanRefund;
    if step.Do? && step.a.Cancel? && step.a.x.CancelCommit? {
      WantedCommit(s, step.r, step.a.x.mid, p);
    } else if step.Do? && step.a.Refund? && step.a.f.RefundOk? {
      IssueWants(s, step.r, p);
    } else {
      hide Enabled, Apply;
      OtherSteps(s, step);
      FewerWants(s, Apply(s, step), p);
    }
  }

  lemma IssueWants(s: Sys, r: ReqId, p: PaymentId)
    requires CanRefund(s, r, RefundOk)
    ensures Wanted(DoRefund(s, r, RefundOk), p) ==> Wanted(s, p)
  {
    if !ReplaysRefund(s.prov, s.reqs[r].pc.found.id) { IssueIs(s, r); }
    assert Due(s, r, s.reqs[r].pc.found.id);
    var s' := DoRefund(s, r, RefundOk);
    hide DoRefund, CanRefund;
    forall j | Due(s', j, p) ensures Due(s, j, p) {}
  }

  lemma FewerWants(s: Sys, s': Sys, p: PaymentId)
    requires Fewer(s, s')
    ensures Wanted(s', p) ==> Wanted(s, p)
  {}

  lemma WantedCommit(s: Sys, r: ReqId, mid: MsgId, p: PaymentId)
    requires Inv(s) && CanCancel(s, r, CancelCommit(mid)) && NewestOnly(s, Do(r, Cancel(CancelCommit(mid))))
    requires Wanted(DoCancel(s, r, CancelCommit(mid)), p) && !Wanted(s, p)
    ensures IsOff(DoCancel(s, r, CancelCommit(mid)), p)
  {
    hide Inv, DoCancel, IsOff;
    CommitWants(s, r, mid, p);
    HeldCapture(s, r, mid);
    CommitOff(s, r, mid);
    HeldRow(s, s.reqs[r].call.ticket);
  }

  // The payment a committing cancellation newly wants is the one it captured.
  lemma CommitWants(s: Sys, r: ReqId, mid: MsgId, p: PaymentId)
    requires CanCancel(s, r, CancelCommit(mid)) && Wanted(DoCancel(s, r, CancelCommit(mid)), p) && !Wanted(s, p)
    ensures s.reqs[r].pc.captured.Some? && s.reqs[r].pc.captured.value.id == p
  {
    CommitIs(s, r, mid);
    var s' := DoCancel(s, r, CancelCommit(mid));
    hide DoCancel, CanCancel;
    forall j | j != r ensures Due(s', j, p) ==> Due(s, j, p) {}
    assert Due(s', r, p);
  }

  lemma HeldRow(s: Sys, t: TicketId)
    requires Inv(s)
    ensures t in s.hist.held ==> s.hist.held[t] in s.payments
  {
    TicketFactsOf(s, t);
    hide Inv, RowSeat, SeatLock, SoldOk, Newest;
  }

  // The commit calls off whatever payment holds the ticket.
  lemma CommitOff(s: Sys, r: ReqId, mid: MsgId)
    requires CanCancel(s, r, CancelCommit(mid))
    ensures var t := s.reqs[r].call.ticket;
      t in s.hist.held && s.hist.held[t] in s.payments ==> IsOff(DoCancel(s, r, CancelCommit(mid)), s.hist.held[t])
  {
    CancelCommitted(s, r, mid);
    hide DoCancel, CanCancel, FreeRow;
  }

  lemma OffKept(s: Sys, step: Step)
    requires Inv(s) && OffFirst(s) && Enabled(s, step) && NewestOnly(s, step)
    ensures OffFirst(Apply(s, step))
  {
    hide Inv, Wanted, IsOff, NewestOnly, Enabled, Apply;
    forall p | Wanted(Apply(s, step), p) ensures IsOff(Apply(s, step), p) {
      if Wanted(s, p) { OffStays(s, step, p); } else { NewlyWanted(s, step, p); }
    }
  }

  /** Refunding only what the ticket's newest payment row says, a cancellation always passes the test. */
  lemma {:induction false} NewestRefundsAreSafe(s0: Sys, steps: seq<Step>)
    requires Init(s0) && Legal(s0, steps) && NewestRefunds(s0, steps)
    ensures SafeRefunds(s0, steps) && OffFirst(Run(s0, steps))
    decreases |steps|
  {
    hide Inv, OffFirst, NewestOnly, SafeStep, Enabled, Apply;
    if steps == [] {
      InitOff(s0);
    } else {
      var before := Run(s0, Front(steps));
      NewestRefundsAreSafe(s0, Front(steps));
      InvInit(s0);
      InvRun(s0, Front(steps));
      hide Init;
      NewestIsSafe(before, Last(steps));
      OffKept(before, Last(steps));
    }
  }

  lemma InitOff(s: Sys)
    requires Init(s)
    ensures OffFirst(s)
  {}

  /** So along such a run no payment is refunded twice, and no more is refunded than was captured. */
  lemma RefundsAreCovered(s0: Sys, steps: seq<Step>)
    requires Init(s0) && Legal(s0, steps) && SafeRefunds(s0, steps)
    ensures var s := Run(s0, steps);
      RefundedOnce(s) && Refunded(s.prov.refunds, s.prov.issued) <= Captured(s.prov.made, s.prov.issued)
  {
    var s := Run(s0, steps);
    assert AlwaysSingle(s0, steps) && Reachable(s) by { hide Single, Init; RefundOnceIff(s0, steps); }
    hide Reachable, SafeRefunds, RefundedOnce, Init;
    RefundedAtMostCaptured(s);
  }

  // ---------------------------------------------------------------- the totals

  /** What the provider has refunded under numbers up to hi. */
  function Refunded(refunds: map<nat, RefundRequest>, hi: nat): int {
    (if hi in refunds then refunds[hi].amount else 0) + if hi == 0 then 0 else Refunded(refunds, hi - 1)
  }

  ghost predicate RefundedBy(s: Sys, p: PaymentId, m: nat) {
    exists n :: n in s.prov.refunds && n <= m && s.prov.refunds[n].payment == p
  }

  // Amounts of the rows below hi that have a refund with a number up to m.
  ghost function RefundedRows(s: Sys, m: nat, hi: nat): int {
    if hi == 0 then 0
    else RefundedRows(s, m, hi - 1)
         + if hi - 1 in s.payments && RefundedBy(s, hi - 1, m) then s.payments[hi - 1].amount else 0
  }

  lemma RefundedByNext(s: Sys, p: PaymentId, m: nat)
    requires RefundedOnce(s) && m > 0
    ensures var now := m in s.prov.refunds && s.prov.refunds[m].payment == p;
      (RefundedBy(s, p, m) <==> RefundedBy(s, p, m - 1) || now) && !(RefundedBy(s, p, m - 1) && now)
  {
    if m in s.prov.refunds && s.prov.refunds[m].payment == p { assert RefundedBy(s, p, m); }
    if RefundedBy(s, p, m - 1) { assert RefundedBy(s, p, m); }
  }

  // Counting refund m adds the amount of the one row it names.
  lemma {:induction false} RefundGrows(s: Sys, m: nat, hi: nat)
    requires Books(s) && RefundedOnce(s) && m > 0
    ensures RefundedRows(s, m, hi) == RefundedRows(s, m - 1, hi)
              + if m in s.prov.refunds && s.prov.refunds[m].payment < hi then s.prov.refunds[m].amount else 0
  {
    if hi > 0 {
      RefundGrows(s, m, hi - 1);
      RefundedByNext(s, hi - 1, m);
      assert RefundRow(s, m);
      hide Books, RefundedOnce, RefundedBy;
    }
  }

  lemma {:induction false} RefundedNone(s: Sys, hi: nat)
    requires Books(s)
    ensures RefundedRows(s, 0, hi) == 0
  {
    if hi > 0 { RefundedNone(s, hi - 1); }
  }

  lemma {:induction false} RefundedIsRows(s: Sys, m: nat)
    requires Rows(s) && Books(s) && RefundedOnce(s)
    ensures Refunded(s.prov.refunds, m) == RefundedRows(s, m, s.clock)
  {
    if m == 0 {
      RefundedNone(s, s.clock);
    } else {
      RefundedIsRows(s, m - 1);
      RefundGrows(s, m, s.clock);
      assert RefundRow(s, m);
      if m in s.prov.refunds { assert PaymentOk(s, s.prov.refunds[m].payment); }
      hide RefundedOnce, LedgerOk, PaidOk, MadeOk;
    }
  }

  lemma {:induction false} RefundedAreSettled(s: Sys, m: nat, hi: nat)
    requires Rows(s) && Books(s)
    ensures RefundedRows(s, m, hi) <= SettledTotal(s.payments, hi)
  {
    if hi > 0 {
      RefundedAreSettled(s, m, hi - 1);
      assert PaymentOk(s, hi - 1);
      if RefundedBy(s, hi - 1, m) {
        var n :| n in s.prov.refunds && n <= m && s.prov.refunds[n].payment == hi - 1;
        assert RefundRow(s, n);
      }
      hide Rows, Books, PaymentOk;
    }
  }

  lemma {:induction false} PassedIsPositive(s: Sys, hi: nat)
    requires Rows(s)
    ensures PassedTotal(s.payments, s.hist.paid, hi) >= 0
  {
    if hi > 0 {
      PassedIsPositive(s, hi - 1);
      assert PaymentOk(s, hi - 1);
    }
  }

  /** While no payment is refunded twice, no more is refunded than was captured. */
  lemma RefundedAtMostCaptured(s: Sys)
    requires Reachable(s) && RefundedOnce(s)
    ensures Refunded(s.prov.refunds, s.prov.issued) <= Captured(s.prov.made, s.prov.issued)
    ensures forall n | n in s.prov.refunds :: n <= s.prov.issued
  {
    assert Rows(s) && Books(s) by { ReachableInv(s); hide Reachable; }
    CapturedTotal(s);
    hide Reachable;
    RefundedIsRows(s, s.prov.issued);
    RefundedAreSettled(s, s.prov.issued, s.clock);
    PassedIsPositive(s, s.clock);
  }

  // ---------------------------------------------------------------- a provider that remembers refund keys

  /**
   The code sends each refund under a key made from the payment. If the provider remembers these keys, no two
   refunds name one payment and no more is refunded than was captured, in every reachable state, whatever the
   cancellations captured.
   */
  lemma KeyedRefundsOnce(s: Sys)
    requires Reachable(s) && s.prov.refundKeys.Some?
    ensures RefundedOnce(s) && Refunded(s.prov.refunds, s.prov.issued) <= Captured(s.prov.made, s.prov.issued)
  {
    assert LedgerOk(s.prov) by { ReachableInv(s); hide Reachable; }
    assert RefundedOnce(s);
    hide Reachable, RefundedOnce, LedgerOk;
    RefundedAtMostCaptured(s);
  }

  /**
   The provider never sees a refund key with other parameters: a refund about to be requested for a payment that
   has one is for the same charge and the same amount.
   */
  lemma RefundKeyMeansOneRequest(s: Sys, r: ReqId, n: nat)
    requires Reachable(s) && CanRefund(s, r, RefundOk) && n in s.prov.refunds
    requires s.prov.refunds[n].payment == s.reqs[r].pc.found.id
    ensures var f := s.reqs[r].pc.found;
      s.prov.refunds[n] == RefundRequest(f.row.intent, f.row.amount, f.id)
  {
    hide Reachable, RefundRow, ReqFound, ReqLock;
    ReqFacts(s, r);
    assert RefundRow(s, n) by { ReachableInv(s); RefundRowOf(s, n); }
    SameRequest(s, r, n);
  }

  lemma RefundRowOf(s: Sys, n: nat)
    requires Inv(s)
    ensures RefundRow(s, n)
  {
    hide LockInv, KeyInv, SeatInv, HoldInv, CountInv, OutboxProofs.Sound, RefundRow, PaidOk, MadeOk, LedgerOk, Rows, Links;
  }

  lemma SameRequest(s: Sys, r: ReqId, n: nat)
    requires RefundRow(s, n) && ReqFound(s, r) && ReqLock(s, r) && CanRefund(s, r, RefundOk) && n in s.prov.refunds
    requires s.prov.refunds[n].payment == s.reqs[r].pc.found.id
    ensures var f := s.reqs[r].pc.found;
      s.prov.refunds[n] == RefundRequest(f.row.intent, f.row.amount, f.id)
  {}

  // Whether the provider remembers refund keys never changes.
  lemma SameMode(s: Sys, step: Step)
    requires Enabled(s, step)
    ensures Apply(s, step).prov.refundKeys.Some? == s.prov.refundKeys.Some?
  {
    hide CanAct, DoAct, OpensRefund;
    if step.Do? {
      if step.a.Refund? && step.a.f.RefundOk? { RefundMode(s, step.r); } else { ActMode(s, step.r, step.a); }
    }
  }

  lemma RefundMode(s: Sys, r: ReqId)
    requires CanAct(s, r, Refund(RefundOk))
    ensures DoAct(s, r, Refund(RefundOk)).prov.refundKeys.Some? == s.prov.refundKeys.Some?
  {}

  lemma ActMode(s: Sys, r: ReqId, a: Act)
    requires CanAct(s, r, a) && !(a.Refund? && a.f.RefundOk?)
    ensures DoAct(s, r, a).prov.refundKeys == s.prov.refundKeys
  {
    hide DoGate, DoClaim, DoPay, DoRelease, DoCancel, DoRefund, DoCrash;
    hide CanGate, CanClaim, CanPay, CanRelease, CanCancel, CanRefund, CanCrash;
    match a
    case Gate(g) => GateFrame(s, r, g);
    case Claim(c) => ClaimFrame(s, r, c);
    case Pay(y) => PayMode(s, r, y);
    case Release(l) => ReleaseFrame(s, r, l);
    case Cancel(x) => CancelFrame(s, r, x);
    case Refund(f) => RefundFrame(s, r, f);
    case Crash => CrashFrame(s, r);
  }

  lemma PayMode(s: Sys, r: ReqId, y: PayAct)
    requires CanPay(s, r, y)
    ensures DoPay(s, r, y).prov.refundKeys == s.prov.refundKeys
  {
    hide Bill;
  }

  lemma {:induction false} RunMode(s: Sys, steps: seq<Step>)
    requires Legal(s, steps)
    ensures Run(s, steps).prov.refundKeys.Some? == s.prov.refundKeys.Some?
    decreases |steps|
  {
    hide Enabled, Apply;
    if steps != [] {
      RunMode(s, Front(steps));
      SameMode(Run(s, Front(steps)), Last(steps));
    }
  }
}
