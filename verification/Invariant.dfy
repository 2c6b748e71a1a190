/** The whole invariant, kept by every step of every run. */
module Invariant {
  import opened Types
  import opened Payments
  import opened System
  import opened KeyProofs
  import opened LockProofs
  import opened SeatProofs
  import opened MoneyProofs
  import opened HoldProofs
  import opened CountProofs
  import opened Projection
  import Outbox
  import OutboxProofs

  ghost predicate Inv(s: Sys) {
    && LockInv(s) && KeyInv(s) && MoneyInv(s) && SeatInv(s) && HoldInv(s) && CountInv(s)
    && OutboxProofs.Sound(s.box)
  }

  ghost predicate Reachable(s: Sys) {
    exists s0, steps :: Init(s0) && Legal(s0, steps) && s == Run(s0, steps)
  }

  lemma BoxKept(s: Sys, step: Step)
    requires OutboxProofs.Sound(s.box) && Enabled(s, step)
    ensures OutboxProofs.Sound(Apply(s, step).box)
  {
    hide OutboxProofs.Sound, Enabled, Apply, BoxMove, Outbox.Enabled, Outbox.Apply;
    BoxFollows(s, step);
    if BoxMove(s, step).Some? { OutboxProofs.SoundKept(s.box, BoxMove(s, step).value); }
  }

  lemma InvKept(s: Sys, step: Step)
    requires Inv(s) && Enabled(s, step)
    ensures Inv(Apply(s, step))
  {
    hide LockInv, KeyInv, MoneyInv, SeatInv, HoldInv, CountInv, OutboxProofs.Table, OutboxProofs.Shipping;
    hide OutboxProofs.Working, OutboxProofs.OutboxLocks, Enabled, Apply;
    LockKept(s, step);
    KeyKept(s, step);
    MoneyKept(s, step);
    SeatKept(s, step);
    HoldKept(s, step);
    CountKept(s, step);
    BoxKept(s, step);
  }

  lemma InvInit(s: Sys)
    requires Init(s)
    ensures Inv(s)
  {
    LockInit(s);
    KeyInit(s);
    MoneyInit(s);
    SeatInit(s);
    HoldInit(s);
    CountInit(s);
    OutboxProofs.InitSound(s.box);
    hide LockInv, KeyInv, MoneyInv, SeatInv, HoldInv, CountInv, OutboxProofs.Sound;
  }

  lemma {:induction false} InvRun(s: Sys, steps: seq<Step>)
    requires Inv(s) && Legal(s, steps)
    ensures Inv(Run(s, steps))
    decreases |steps|
  {
    hide Inv, Enabled, Apply;
    if steps != [] {
      InvRun(s, Front(steps));
      InvKept(Run(s, Front(steps)), Last(steps));
    }
  }

  lemma ReachableInv(s: Sys)
    requires Reachable(s)
    ensures Inv(s)
  {
    hide Inv, Init;
    var s0, steps :| Init(s0) && Legal(s0, steps) && s == Run(s0, steps);
    InvInit(s0);
    InvRun(s0, steps);
  }

  lemma {:induction false} RunsConcat(s: Sys, a: seq<Step>, b: seq<Step>)
    requires Legal(s, a) && Legal(Run(s, a), b)
    ensures Legal(s, a + b) && Run(s, a + b) == Run(Run(s, a), b)
    decreases |b|
  {
    hide Enabled, Apply;
    if b == [] {
      assert a + b == a;
    } else {
      RunsConcat(s, a, Front(b));
      assert Front(a + b) == a + Front(b) && Last(a + b) == Last(b);
    }
  }

  lemma ReachableOn(s: Sys, steps: seq<Step>)
    requires Reachable(s) && Legal(s, steps)
    ensures Reachable(Run(s, steps))
  {
    hide Init, Enabled, Apply;
    var s0, before :| Init(s0) && Legal(s0, before) && s == Run(s0, before);
    RunsConcat(s0, before, steps);
  }

  // ---------------------------------------------------------------- what every reachable state gives

  lemma ReqFacts(s: Sys, r: ReqId)
    requires Reachable(s)
    ensures ReqBound(s, r) && ReqLock(s, r) && ReqSeat(s, r) && PayPc(s, r) && ReqFound(s, r) && ReqHold(s, r)
  {
    hide Reachable, ReqBound, ReqLock, ReqSeat, PayPc, ReqFound, ReqHold;
    ReachableInv(s);
    ReqFactsOf(s, r);
  }

  lemma ReqFactsOf(s: Sys, r: ReqId)
    requires Inv(s)
    ensures ReqBound(s, r) && ReqLock(s, r) && ReqSeat(s, r) && PayPc(s, r) && ReqFound(s, r) && ReqHold(s, r)
  {
    hide ReqBound, ReqLock, ReqSeat, PayPc, ReqFound, ReqHold, Rows, Books, CountInv, OutboxProofs.Sound, Minted;
  }

  lemma PaymentFacts(s: Sys, p: PaymentId)
    requires Reachable(s)
    ensures PaymentOk(s, p) && PaidOk(s, p) && FateOk(s, p) && s.hist.claims.Keys == s.payments.Keys
  {
    hide Reachable, PaymentOk, PaidOk, FateOk;
    ReachableInv(s);
    PaymentFactsOf(s, p);
  }

  lemma PaymentFactsOf(s: Sys, p: PaymentId)
    requires Inv(s)
    ensures PaymentOk(s, p) && PaidOk(s, p) && FateOk(s, p) && s.hist.claims.Keys == s.payments.Keys
  {
    hide PaymentOk, PaidOk, FateOk, LockInv, KeyInv, SeatInv, CountInv, OutboxProofs.Sound, LedgerOk, MadeOk, RefundRow;
  }

  lemma TicketFacts(s: Sys, t: TicketId)
    requires Reachable(s)
    ensures RowSeat(s, t) && SeatLock(s, t) && HeldOk(s, t) && SoldOk(s, t) && Balanced(s, t)
  {
    hide Reachable, RowSeat, SeatLock, HeldOk, SoldOk, Balanced;
    ReachableInv(s);
    TicketFactsOf(s, t);
  }

  lemma TicketFactsOf(s: Sys, t: TicketId)
    requires Inv(s)
    ensures RowSeat(s, t) && SeatLock(s, t) && HeldOk(s, t) && SoldOk(s, t) && Balanced(s, t)
  {
    hide RowSeat, SeatLock, HeldOk, SoldOk, Balanced, KeyInv, MoneyInv, OutboxProofs.Sound, PrefixOk;
  }
}
