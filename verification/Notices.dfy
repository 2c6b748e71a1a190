/** What the users are told is true: every event, and so every notification, has its payment or its log entry. */
module Notices {
  import opened Types
  import opened System
  import opened Frames
  import opened LockProofs
  import opened SeatProofs
  import opened MoneyProofs
  import opened CountProofs
  import opened Invariant
  import opened MoneyTheorems
  import Outbox
  import OutboxProofs
  import DeliveryTheorems

  // ---------------------------------------------------------------- what an event says

  predicate IsSale(payments: map<PaymentId, Payment>, p: PaymentId, t: TicketId, u: UserId, amount: int) {
    p in payments && payments[p].ticket == t && payments[p].user == u && payments[p].amount == amount
  }

  predicate IsEntry(logs: seq<CancelLog>, i: nat, t: TicketId, u: UserId, e: EventId, reason: string) {
    i < |logs| && logs[i].ticket == t && logs[i].user == u && logs[i].event == e && logs[i].reason == reason
  }

  /** The event names its ticket's event, and there is a payment, or a log entry, that says the same. */
  ghost predicate Backed(s: Sys, m: Message) {
    && m.ticket in s.tickets && s.tickets[m.ticket].event == m.event
    && match m
       case Purchased(_, t, _, u, amount) => exists p :: IsSale(s.payments, p, t, u, amount)
       case Cancelled(_, t, e, u, reason) => exists i :: IsEntry(s.logs, i, t, u, e, reason)
  }

  ghost predicate RowsBacked(s: Sys) {
    forall id | id in s.box.rows :: Backed(s, s.box.rows[id].msg)
  }

  // ---------------------------------------------------------------- what stays

  ghost predicate SameTerms(s: Sys, s': Sys) {
    forall t | t in s.tickets ::
      t in s'.tickets && s'.tickets[t].event == s.tickets[t].event && s'.tickets[t].price == s.tickets[t].price
  }

  ghost predicate Stays(s: Sys, s': Sys) {
    && SameTerms(s, s') && s.logs <= s'.logs
    && (forall p | p in s.payments :: IsSale(s'.payments, p, s.payments[p].ticket, s.payments[p].user, s.payments[p].amount))
  }

  lemma BackedStays(s: Sys, s': Sys, m: Message)
    requires Stays(s, s') && Backed(s, m)
    ensures Backed(s', m)
  {
    match m
    case Purchased(_, t, _, u, amount) =>
      var p :| IsSale(s.payments, p, t, u, amount);
      assert IsSale(s'.payments, p, t, u, amount);
    case Cancelled(_, t, e, u, reason) =>
      var i :| IsEntry(s.logs, i, t, u, e, reason);
      assert IsEntry(s'.logs, i, t, u, e, reason);
  }

  lemma TermsAct(s: Sys, r: ReqId, a: Act)
    requires CanAct(s, r, a)
    ensures SameTerms(s, DoAct(s, r, a))
  {
    if !Major(a) {
      TameAct(s, r, a);
      hide CanAct, DoAct, Major;
    } else {
      TermsMajor(s, r, a);
      hide CanAct, DoAct, Major;
    }
  }

  lemma TermsMajor(s: Sys, r: ReqId, a: Act)
    requires CanAct(s, r, a) && Major(a)
    ensures SameTerms(s, DoAct(s, r, a))
  {
    hide DoClaim, DoPay, DoCancel, DoRefund, CanClaim, CanPay, CanCancel, CanRefund, CanRelease, Freed, Denial, CalledOffBy;
    match a
    case Claim(c) => SaleCommitted(s, r, c.mid);
    case Pay(y) => PayFrame(s, r, y);
    case Release(l) => TermsRelease(s, r);
    case Cancel(x) => CancelCommitted(s, r, x.mid);
    case Refund(f) => RefundFrame(s, r, f);
  }

  lemma TermsRelease(s: Sys, r: ReqId)
    requires CanRelease(s, r, ReleaseCommit)
    ensures SameTerms(s, DoRelease(s, r, ReleaseCommit))
  {
    hide Freed, Denial;
  }

  lemma TermsStep(s: Sys, step: Step)
    requires Enabled(s, step)
    ensures SameTerms(s, Apply(s, step))
  {
    hide CanAct, DoAct, Outbox.CanRelay, Outbox.CanWork, Outbox.DoRelay, Outbox.DoWork;
    if step.Do? { TermsAct(s, step.r, step.a); }
  }

  /** Over every run: a ticket stays a ticket of its event, at its price. */
  lemma {:induction false} TermsForGood(s: Sys, steps: seq<Step>)
    requires Legal(s, steps)
    ensures SameTerms(s, Run(s, steps))
    decreases |steps|
  {
    hide Enabled, Apply;
    if steps != [] {
      TermsForGood(s, Front(steps));
      TermsStep(Run(s, Front(steps)), Last(steps));
    }
  }

  lemma StepStays(s: Sys, step: Step)
    requires Inv(s) && Enabled(s, step)
    ensures Stays(s, Apply(s, step))
  {
    hide Inv, Enabled, Apply;
    TermsStep(s, step);
    LogsStep(s, step);
    forall p | p in s.payments
      ensures IsSale(Apply(s, step).payments, p, s.payments[p].ticket, s.payments[p].user, s.payments[p].amount)
    {
      StepEvolves(s, step, p);
    }
    hide SameTerms;
  }

  // ---------------------------------------------------------------- what is new

  ghost predicate NewBacked(s: Sys, s': Sys) {
    forall id | id in s'.box.rows ::
      (id in s.box.rows && s'.box.rows[id].msg == s.box.rows[id].msg) || Backed(s', s'.box.rows[id].msg)
  }

  lemma SaleBacked(s: Sys, r: ReqId, mid: MsgId)
    requires ReqSeat(s, r) && CanClaim(s, r, ClaimCommit(mid))
    ensures NewBacked(s, DoClaim(s, r, ClaimCommit(mid)))
  {
    hide DoClaim;
    SaleCommitted(s, r, mid);
    var pc, q, s' := s.reqs[r].pc, s.reqs[r], DoClaim(s, r, ClaimCommit(mid));
    assert IsSale(s'.payments, s.clock, pc.t, q.user, pc.price);
    assert Backed(s', Purchased(mid, pc.t, q.call.event, q.user, pc.price));
    hide Backed;
  }

  lemma CancellationBacked(s: Sys, r: ReqId, mid: MsgId)
    requires ReqSeat(s, r) && CanCancel(s, r, CancelCommit(mid))
    ensures NewBacked(s, DoCancel(s, r, CancelCommit(mid)))
  {
    hide DoCancel, CalledOffBy;
    CancelCommitted(s, r, mid);
    var pc, q, s' := s.reqs[r].pc, s.reqs[r], DoCancel(s, r, CancelCommit(mid));
    assert IsEntry(s'.logs, |s.logs|, q.call.ticket, q.user, pc.snap.row.event, q.call.reason);
    assert Backed(s', Cancelled(mid, q.call.ticket, pc.snap.row.event, q.user, q.call.reason));
    hide Backed;
  }

  lemma ActBacked(s: Sys, r: ReqId, a: Act)
    requires ReqSeat(s, r) && CanAct(s, r, a)
    ensures NewBacked(s, DoAct(s, r, a))
  {
    hide ReqSeat, Backed, NewBacked, DoGate, DoClaim, DoPay, DoRelease, DoCancel, DoRefund, DoCrash;
    hide CanGate, CanClaim, CanPay, CanRelease, CanCancel, CanRefund, CanCrash;
    if a.Claim? && a.c.ClaimCommit? {
      SaleBacked(s, r, a.c.mid);
    } else if a.Cancel? && a.x.CancelCommit? {
      CancellationBacked(s, r, a.x.mid);
    } else {
      RowsAct(s, r, a);
      SameBacked(s, DoAct(s, r, a));
    }
  }

  lemma SameBacked(s: Sys, s': Sys)
    requires s'.box.rows == s.box.rows
    ensures NewBacked(s, s')
  {}

  lemma RowsAct(s: Sys, r: ReqId, a: Act)
    requires CanAct(s, r, a) && !(a.Claim? && a.c.ClaimCommit?) && !(a.Cancel? && a.x.CancelCommit?)
    ensures DoAct(s, r, a).box.rows == s.box.rows
  {
    hide DoGate, DoClaim, DoPay, DoRelease, DoCancel, DoRefund, DoCrash;
    hide CanGate, CanClaim, CanPay, CanRelease, CanCancel, CanRefund, CanCrash;
    match a
    case Pay(y) => PayFrame(s, r, y);
    case Release(l) => ReleaseFrame(s, r, l);
    case Refund(f) => RefundFrame(s, r, f);
    case _ => TameBox(s, r, a);
  }

  lemma StepBacked(s: Sys, step: Step)
    requires Inv(s) && Enabled(s, step)
    ensures NewBacked(s, Apply(s, step))
  {
    hide Inv, CanAct, DoAct, Backed, Outbox.CanRelay, Outbox.CanWork, Outbox.DoRelay, Outbox.DoWork;
    match step
    case Do(r, a) => hide NewBacked; ReqFactsOf(s, r); ActBacked(s, r, a);
    case Ship(k, a) => OutboxProofs.RelayFrame(s.box, k, a);
    case Work(p, w) => OutboxProofs.WorkerFrame(s.box, p, w);
    case _ => {}
  }

  lemma BackedKept(s: Sys, step: Step)
    requires Inv(s) && RowsBacked(s) && Enabled(s, step)
    ensures RowsBacked(Apply(s, step))
  {
    hide Inv, Enabled, Apply, Backed, Stays;
    var s' := Apply(s, step);
    StepStays(s, step);
    StepBacked(s, step);
    forall id | id in s'.box.rows ensures Backed(s', s'.box.rows[id].msg) {
      if id in s.box.rows && s'.box.rows[id].msg == s.box.rows[id].msg { BackedStays(s, s', s.box.rows[id].msg); }
    }
  }

  lemma {:induction false} BackedRun(s0: Sys, steps: seq<Step>)
    requires Init(s0) && Legal(s0, steps)
    ensures RowsBacked(Run(s0, steps))
    decreases |steps|
  {
    if steps != [] {
      hide Init, Inv, Enabled, Apply, RowsBacked;
      BackedRun(s0, Front(steps));
      InvInit(s0);
      InvRun(s0, Front(steps));
      BackedKept(Run(s0, Front(steps)), Last(steps));
    }
  }

  /** Every event in the outbox is backed, in every reachable state. */
  lemma EventsAreBacked(s: Sys, id: nat)
    requires Reachable(s) && id in s.box.rows
    ensures Backed(s, s.box.rows[id].msg)
  {
    hide Init, Backed;
    var s0, steps :| Init(s0) && Legal(s0, steps) && s == Run(s0, steps);
    BackedRun(s0, steps);
  }

  /**
   From claim to inbox: whoever is told that a ticket is confirmed has a payment for it of the amount the text
   states, and whoever is told of a cancellation has a log entry for that ticket.
   */
  lemma NotesAreTrue(s: Sys, m: MsgId)
    requires Reachable(s) && m in s.box.notes
    ensures var note := s.box.notes[m];
      && (note.kind.TicketPurchased? ==>
            exists p :: p in s.payments && s.payments[p].ticket == note.ticket && s.payments[p].user == note.user
              && note.body == "Your ticket is confirmed. Amount charged: " + Outbox.Decimal(s.payments[p].amount) + " cents.")
      && (note.kind.TicketCancelled? ==>
            && note.body == "Your ticket was cancelled and a refund is on its way."
            && exists i :: 0 <= i < |s.logs| && s.logs[i].ticket == note.ticket && s.logs[i].user == note.user)
  {
    hide Outbox.Decimal;
    NoteHasRow(s, m);
    var id := s.box.home[m];
    EventsAreBacked(s, id);
    hide Reachable;
    match s.box.rows[id].msg
    case Purchased(_, t, _, u, amount) => var p :| IsSale(s.payments, p, t, u, amount);
    case Cancelled(_, t, e, u, reason) => var i :| IsEntry(s.logs, i, t, u, e, reason);
  }

  lemma NoteHasRow(s: Sys, m: MsgId)
    requires Reachable(s) && m in s.box.notes
    ensures m in s.box.home && s.box.home[m] in s.box.rows
    ensures DeliveryTheorems.Tells(s.box.notes[m], s.box.rows[s.box.home[m]].msg)
  {
    hide Outbox.Decimal;
    assert OutboxProofs.Sound(s.box) by { ReachableInv(s); hide Reachable; }
    hide Reachable;
    assert OutboxProofs.NoteOk(s.box, m);
  }
}
