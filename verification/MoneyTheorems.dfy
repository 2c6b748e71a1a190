/** What the payment invariant says about money: no orphan charge, one-way lifecycles, sound refunds. */
module MoneyTheorems {
  import opened Types
  import opened Payments
  import opened System
  import opened Frames
  import opened KeyProofs
  import opened LockProofs
  import opened MoneyProofs
  import opened Invariant

  // ---------------------------------------------------------------- no orphan charge

  predicate Settled(x: Payment) {
    x.status.Succeeded? || x.status.Refunded?
  }

  /** Every charge at the provider belongs to exactly one payment row, of equal amount and never failed. */
  lemma NoOrphanCharge(s: Sys)
    requires Reachable(s)
    ensures forall n | n in s.prov.made ::
              n in s.hist.payer && s.hist.payer[n] in s.payments
              && var x := s.payments[s.hist.payer[n]];
                 x.amount == s.prov.made[n].amount && !x.status.Failed? && (Settled(x) ==> x.intent == Intent(n))
    ensures forall n, m | n in s.prov.made && m in s.prov.made && s.hist.payer[n] == s.hist.payer[m] :: n == m
    ensures forall p | p in s.payments && Settled(s.payments[p]) ::
              exists n :: n in s.prov.made && s.hist.payer[n] == p && s.payments[p].intent == Intent(n)
  {
    ReachableInv(s);
    forall n | n in s.prov.made
      ensures n in s.hist.payer && s.hist.payer[n] in s.hist.paid && s.hist.paid[s.hist.payer[n]] == n
      ensures s.hist.payer[n] in s.payments && PaymentOk(s, s.hist.payer[n])
      ensures s.payments[s.hist.payer[n]].amount == s.prov.made[n].amount
    {
      assert MadeOk(s, n) && PaidOk(s, s.hist.payer[n]);
    }
    forall p | p in s.payments && Settled(s.payments[p])
      ensures exists n :: n in s.prov.made && s.hist.payer[n] == p && s.payments[p].intent == Intent(n)
    {
      assert PaymentOk(s, p) && PaidOk(s, p);
      assert s.hist.paid[p] in s.prov.made;
    }
  }

  /** The row comes first: a step that creates a charge does so for a pending row that had none. */
  lemma ChargeFollowsRow(s: Sys, step: Step, n: nat)
    requires Reachable(s) && Enabled(s, step) && n !in s.prov.made && n in Apply(s, step).prov.made
    ensures step.Do? && step.a == Pay(ChargeOk)
    ensures n in Apply(s, step).hist.payer
    ensures var p := Apply(s, step).hist.payer[n];
      p in s.payments && s.payments[p].status.Pending? && p !in s.hist.paid && Get(s.hist.claims, p) == Some(step.r)
      && s.payments[p].amount == Apply(s, step).prov.made[n].amount
  {
    ReachableInv(s);
    assert LockInv(s) && KeyInv(s) && MoneyInv(s);
    hide Reachable, Inv;
    MadeBy(s, step, n);
    assert PayPc(s, step.r);
    KeyIsFresh(s, step.r);
    hide LockInv, KeyInv, MoneyInv;
  }

  lemma MadeBy(s: Sys, step: Step, n: nat)
    requires Enabled(s, step) && n !in s.prov.made && n in Apply(s, step).prov.made
    ensures step.Do? && step.a == Pay(ChargeOk)
  {
    hide DoGate, DoClaim, DoPay, DoRelease, DoCancel, DoRefund, DoCrash, Outbox.DoRelay, Outbox.DoWork;
    hide CanGate, CanClaim, CanPay, CanRelease, CanCancel, CanRefund, CanCrash, Outbox.CanRelay, Outbox.CanWork;
    if step.Do? {
      var r := step.r;
      match step.a
      case Gate(g) => GateFrame(s, r, g);
      case Claim(c) => ClaimFrame(s, r, c);
      case Pay(y) => PayFrame(s, r, y);
      case Release(l) => ReleaseFrame(s, r, l);
      case Cancel(x) => CancelFrame(s, r, x);
      case Refund(f) => RefundFrame(s, r, f);
      case Crash => CrashFrame(s, r);
    }
  }

  // Where the claimer is once the charge has succeeded, unless it crashed.
  predicate PassedCharge(pc: Pc) {
    pc.Charged? || ((pc.Answered? || pc.Done?) && pc.answer.status == 200)
  }

  /** A charge has succeeded for a payment exactly when its request, if alive, is past the charge. */
  lemma PaidIffPassed(s: Sys, p: PaymentId)
    requires Reachable(s) && p in s.payments
    ensures p in s.hist.claims && s.hist.claims[p] in s.reqs
    ensures var pc := s.reqs[s.hist.claims[p]].pc; !pc.Crashed? ==> (p in s.hist.paid <==> PassedCharge(pc))
    ensures s.payments[p].status.Failed? ==> p !in s.hist.paid
    ensures Settled(s.payments[p]) ==> p in s.hist.paid
  {
    PaymentFacts(s, p);
    hide Reachable, PaidOk;
  }

  function Captured(made: map<nat, PaymentIntent>, hi: nat): int {
    (if hi in made then made[hi].amount else 0) + if hi == 0 then 0 else Captured(made, hi - 1)
  }

  function SettledTotal(payments: map<PaymentId, Payment>, hi: nat): int {
    if hi == 0 then 0
    else SettledTotal(payments, hi - 1)
         + if hi - 1 in payments && Settled(payments[hi - 1]) then payments[hi - 1].amount else 0
  }

  // Pending rows whose charge succeeded.
  function PassedTotal(payments: map<PaymentId, Payment>, paid: map<PaymentId, nat>, hi: nat): int {
    if hi == 0 then 0
    else PassedTotal(payments, paid, hi - 1)
         + if hi - 1 in payments && payments[hi - 1].status.Pending? && hi - 1 in paid then payments[hi - 1].amount else 0
  }

  // Amounts of the rows below hi whose charge has a number up to m.
  function PaidTotal(payments: map<PaymentId, Payment>, paid: map<PaymentId, nat>, m: nat, hi: nat): int {
    if hi == 0 then 0
    else PaidTotal(payments, paid, m, hi - 1)
         + if hi - 1 in payments && hi - 1 in paid && paid[hi - 1] <= m then payments[hi - 1].amount else 0
  }

  // Counting charge m adds the amount of the one row that paid it.
  lemma {:induction false} PaidGrows(s: Sys, m: nat, hi: nat)
    requires Books(s) && m > 0
    ensures PaidTotal(s.payments, s.hist.paid, m, hi) == PaidTotal(s.payments, s.hist.paid, m - 1, hi)
              + if m in s.prov.made && m in s.hist.payer && s.hist.payer[m] < hi then s.prov.made[m].amount else 0
  {
    assert MadeOk(s, m);
    if hi > 0 {
      PaidGrows(s, m, hi - 1);
      assert PaidOk(s, hi - 1);
      if m in s.prov.made { assert PaidOk(s, s.hist.payer[m]); }
    }
  }

  lemma {:induction false} PaidNone(s: Sys, hi: nat)
    requires Books(s)
    ensures PaidTotal(s.payments, s.hist.paid, 0, hi) == 0
  {
    if hi > 0 {
      PaidNone(s, hi - 1);
      assert PaidOk(s, hi - 1);
    }
  }

  lemma {:induction false} CapturedIsPaid(s: Sys, m: nat)
    requires Rows(s) && Books(s)
    ensures Captured(s.prov.made, m) == PaidTotal(s.payments, s.hist.paid, m, s.clock)
  {
    if m == 0 {
      PaidNone(s, s.clock);
    } else {
      CapturedIsPaid(s, m - 1);
      PaidGrows(s, m, s.clock);
      assert MadeOk(s, m);
      if m in s.prov.made { assert PaidOk(s, s.hist.payer[m]) && PaymentOk(s, s.hist.payer[m]); }
    }
  }

  lemma {:induction false} PaidSplits(s: Sys, hi: nat)
    requires Rows(s) && Books(s)
    ensures PaidTotal(s.payments, s.hist.paid, s.prov.issued, hi) ==
            SettledTotal(s.payments, hi) + PassedTotal(s.payments, s.hist.paid, hi)
  {
    if hi > 0 {
      PaidSplits(s, hi - 1);
      assert PaymentOk(s, hi - 1) && PaidOk(s, hi - 1);
    }
  }

  /** Total captured = settled rows + exactly the pending rows whose charge went through. */
  lemma CapturedTotal(s: Sys)
    requires Reachable(s)
    ensures Captured(s.prov.made, s.prov.issued) ==
            SettledTotal(s.payments, s.clock) + PassedTotal(s.payments, s.hist.paid, s.clock)
    ensures forall n | n in s.prov.made :: n <= s.prov.issued
    ensures forall p | p in s.payments :: p < s.clock
  {
    ReachableInv(s);
    CapturedIsPaid(s, s.prov.issued);
    PaidSplits(s, s.clock);
    forall p | p in s.payments ensures p < s.clock { assert PaymentOk(s, p); }
  }

  // ---------------------------------------------------------------- lifecycle

  /** Pending to succeeded to refunded, or pending to failed; ids change only on those moves. */
  ghost predicate Evolves(x: Payment, y: Payment) {
    && y.ticket == x.ticket && y.user == x.user && y.amount == x.amount && y.createdAt == x.createdAt
    && (y.intent != x.intent <==> x.status.Pending? && Settled(y))
    && (y.refund != x.refund <==> !x.status.Refunded? && y.status.Refunded?)
    && match x.status
       case Pending => true
       case Succeeded => Settled(y)
       case Failed => y.status.Failed?
       case Refunded => y.status.Refunded?
  }

  ghost predicate RowEvolves(s: Sys, s': Sys, p: PaymentId) {
    p in s.payments ==> p in s'.payments && Evolves(s.payments[p], s'.payments[p])
  }

  lemma SameRow(s: Sys, s': Sys, p: PaymentId)
    requires s'.payments == s.payments
    ensures RowEvolves(s, s', p)
  {}

  lemma ActEvolves(s: Sys, r: ReqId, a: Act, p: PaymentId)
    requires LockInv(s) && MoneyInv(s) && CanAct(s, r, a)
    ensures RowEvolves(s, DoAct(s, r, a), p)
  {
    hide LockInv, MoneyInv, RowEvolves;
    match a {
      case Claim(c) => ClaimEvolves(s, r, c, p);
      case Pay(y) => PayEvolves(s, r, y, p);
      case Release(l) => ReleaseEvolves(s, r, l, p);
      case Refund(f) => RefundEvolves(s, r, f, p);
      case Cancel(x) => CancelFrame(s, r, x); SameRow(s, DoCancel(s, r, x), p);
      case _ => TameAct(s, r, a); SameRow(s, DoAct(s, r, a), p);
    }
  }

  lemma ClaimEvolves(s: Sys, r: ReqId, c: ClaimAct, p: PaymentId)
    requires MoneyInv(s) && CanClaim(s, r, c)
    ensures RowEvolves(s, DoClaim(s, r, c), p)
  {
    ClaimFrame(s, r, c);
    assert PaymentOk(s, p);
    hide Outbox.CanQueue, Outbox.DoQueue, SoldRow, ClaimEvent, Rollback, IsPick, Candidate;
  }

  lemma PayEvolves(s: Sys, r: ReqId, y: PayAct, p: PaymentId)
    requires MoneyInv(s) && CanPay(s, r, y)
    ensures RowEvolves(s, DoPay(s, r, y), p)
  {
    PayFrame(s, r, y);
    assert PayPc(s, r);
    if y.Settle? { assert PaymentOk(s, s.reqs[r].pc.p); }
  }

  lemma ReleaseEvolves(s: Sys, r: ReqId, l: ReleaseAct, p: PaymentId)
    requires MoneyInv(s) && CanRelease(s, r, l)
    ensures RowEvolves(s, DoRelease(s, r, l), p)
  {
    assert PayPc(s, r);
    hide FreeRow, Freed, Denial;
    if !l.ReleaseCommit? { ReleaseQuiet(s, r, l); }
  }

  lemma RefundEvolves(s: Sys, r: ReqId, f: RefundAct, p: PaymentId)
    requires LockInv(s) && MoneyInv(s) && CanRefund(s, r, f)
    ensures RowEvolves(s, DoRefund(s, r, f), p)
  {
    RefundFrame(s, r, f);
    assert ReqFound(s, r) && ReqLock(s, r);
    if f.RefundMark? { assert PaymentOk(s, s.reqs[r].pc.found.id); }
    hide LockInv;
  }

  lemma StepEvolves(s: Sys, step: Step, p: PaymentId)
    requires Inv(s) && Enabled(s, step)
    ensures RowEvolves(s, Apply(s, step), p)
  {
    hide RowEvolves, CanAct, DoAct;
    assert LockInv(s) && MoneyInv(s);
    hide Inv;
    if step.Do? { ActEvolves(s, step.r, step.a, p); } else { SameRow(s, Apply(s, step), p); }
  }

  // ---------------------------------------------------------------- charges stay

  /** A paid claim stays the claim of its request, paid by its charge. */
  ghost predicate PaidKept(s: Sys, s': Sys, p: PaymentId) {
    p in s.payments && p in s.hist.claims && p in s.hist.paid ==>
      && p in s'.payments && p in s'.hist.claims && p in s'.hist.paid
      && s'.hist.claims[p] == s.hist.claims[p] && s'.hist.paid[p] == s.hist.paid[p]
  }

  lemma PaidHist(s: Sys, r: ReqId, a: Act, p: PaymentId)
    requires MoneyInv(s) && CanAct(s, r, a)
    ensures p in s.payments && p in s.hist.claims ==>
              p in DoAct(s, r, a).hist.claims && DoAct(s, r, a).hist.claims[p] == s.hist.claims[p]
    ensures p in s.hist.paid ==> p in DoAct(s, r, a).hist.paid && DoAct(s, r, a).hist.paid[p] == s.hist.paid[p]
  {
    assert PaymentOk(s, p) && PayPc(s, r);
    hide MoneyInv, PaymentOk, DoGate, DoClaim, DoRelease, DoCancel, DoRefund, DoCrash;
    hide CanGate, CanClaim, CanRelease, CanCancel, CanRefund, CanCrash;
    match a
    case Gate(g) => GateFrame(s, r, g);
    case Claim(c) => PaidClaim(s, r, c, p);
    case Pay(y) => if !y.ChargeOk? { PayFrame(s, r, y); }
    case Release(l) => ReleaseHist(s, r, l);
    case Cancel(x) => CancelHist(s, r, x);
    case Refund(f) => RefundFrame(s, r, f);
    case Crash => CrashFrame(s, r);
  }

  lemma PaidClaim(s: Sys, r: ReqId, c: ClaimAct, p: PaymentId)
    requires PaymentOk(s, p) && CanClaim(s, r, c)
    ensures p in s.payments && p in s.hist.claims ==>
              p in DoClaim(s, r, c).hist.claims && DoClaim(s, r, c).hist.claims[p] == s.hist.claims[p]
    ensures DoClaim(s, r, c).hist.paid == s.hist.paid
  {
    hide DoClaim, CanClaim;
    ClaimFrame(s, r, c);
    if c.ClaimCommit? { SaleCommitted(s, r, c.mid); }
  }

  lemma PaidStep(s: Sys, step: Step, p: PaymentId)
    requires Inv(s) && Enabled(s, step)
    ensures PaidKept(s, Apply(s, step), p)
  {
    StepEvolves(s, step, p);
    assert MoneyInv(s);
    hide Inv, MoneyInv, CanAct, DoAct, Outbox.CanRelay, Outbox.CanWork, Outbox.DoRelay, Outbox.DoWork, Evolves;
    if step.Do? { PaidHist(s, step.r, step.a, p); }
  }

  /** Along a run from an initial state, no later step undoes a charge. */
  lemma {:induction false} PaidAlong(s0: Sys, a: seq<Step>, b: seq<Step>, p: PaymentId)
    requires Init(s0) && Legal(s0, a) && Legal(s0, b) && a <= b
    ensures PaidKept(Run(s0, a), Run(s0, b), p)
    decreases |b|
  {
    if a == b {
      hide Init, Legal, Run;
    } else {
      hide Init, Inv, Enabled, Apply;
      PaidAlong(s0, a, Front(b), p);
      InvInit(s0);
      InvRun(s0, Front(b));
      PaidStep(Run(s0, Front(b)), Last(b), p);
    }
  }

  lemma EvolvesOn(x: Payment, y: Payment, z: Payment)
    requires Evolves(x, y) && Evolves(y, z)
    requires y.intent.Intent? <==> Settled(y)
    requires x.intent.Intent? <==> Settled(x)
    requires z.intent.Intent? <==> Settled(z)
    requires (x.refund.Some? <==> x.status.Refunded?) && (z.refund.Some? <==> z.status.Refunded?)
    ensures Evolves(x, z)
  {}

  lemma RowShape(s: Sys, p: PaymentId)
    requires Inv(s) && p in s.payments
    ensures s.payments[p].intent.Intent? <==> Settled(s.payments[p])
    ensures s.payments[p].refund.Some? <==> s.payments[p].status.Refunded?
  {
    assert PaymentOk(s, p);
  }

  /** Over every run from every reachable state, each row only moves forward through its lifecycle. */
  lemma {:induction false} PaymentLifecycle(s: Sys, steps: seq<Step>, p: PaymentId)
    requires Reachable(s) && Legal(s, steps) && p in s.payments
    ensures p in Run(s, steps).payments && Evolves(s.payments[p], Run(s, steps).payments[p])
    decreases |steps|
  {
    hide Inv, Reachable, Evolves, Enabled, Apply;
    ReachableInv(s);
    RowShape(s, p);
    if steps == [] {
      EvolvesSelf(s.payments[p]);
    } else {
      var before := Run(s, Front(steps));
      PaymentLifecycle(s, Front(steps), p);
      InvRun(s, Front(steps));
      InvKept(before, Last(steps));
      StepEvolves(before, Last(steps), p);
      RowShape(before, p);
      RowShape(Run(s, steps), p);
      EvolvesOn(s.payments[p], before.payments[p], Run(s, steps).payments[p]);
    }
  }

  lemma EvolvesSelf(x: Payment)
    ensures Evolves(x, x)
  {}

  /** A row carries its provisional id until it succeeds; real ids are the provider's and never shared. */
  lemma IntentIds(s: Sys, p: PaymentId, q: PaymentId)
    requires Reachable(s) && p in s.payments && q in s.payments
    ensures s.payments[p].intent == Provisional(p) <==> !Settled(s.payments[p])
    ensures s.payments[p].intent.Intent? ==> s.payments[p].intent.n in s.prov.made
    ensures s.payments[p].intent == s.payments[q].intent ==> p == q
  {
    PaymentFacts(s, p);
    PaymentFacts(s, q);
    hide Reachable;
  }

  // ---------------------------------------------------------------- refunds

  /** Every refund issued, stale attempts included, names a charge that exists, for its exact amount. */
  lemma RefundSoundness(s: Sys, n: nat)
    requires Reachable(s) && n in s.prov.refunds
    ensures var q := s.prov.refunds[n];
      q.charge.Intent? && q.charge.n in s.prov.made && s.prov.made[q.charge.n].amount == q.amount
      && q.payment in s.payments && s.payments[q.payment].intent == q.charge
  {
    ReachableInv(s);
    var q := s.prov.refunds[n];
    assert RefundRow(s, n) && PaidOk(s, q.payment);
    assert PaymentOk(s, q.payment);
  }
}
