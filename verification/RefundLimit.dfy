/**
 A payment refunded twice, from every initial state whose provider ignores refund keys: the second refund goes
 through the cancellation of another user, whose own payment is still pending.
 */
module RefundLimit {
  import opened Types
  import opened Payments
  import opened System
  import opened Runs
  import Invariant
  import MoneyProofs
  import RefundTheorems

  // The one settled row of the ticket is the one selected.
  lemma OnlyRefundable(s: Sys, t: TicketId, p: PaymentId)
    requires p < s.clock && Refundable(s.payments, t, p) && forall x | x in s.payments && Refundable(s.payments, t, x) :: x == p
    ensures ByTicket(s, t) == Some(Found(p, s.payments[p]))
  {
    MoneyProofs.NewestIs(s.payments, t, s.clock);
  }

  // The refund is issued; recording it fails.
  function Unrecorded(s: Sys, r: ReqId, q: Req, f: Found): Sys {
    var n := s.prov.issued + 1;
    s.(reqs := s.reqs[r := q.(pc := Answered(Answer(200, JsonBody(CancelBody(Some(RefundIssued(n)))))))],
       prov := s.prov.(issued := n, refunds := s.prov.refunds[n := RefundRequest(f.row.intent, f.row.amount, f.id)]))
  }

  function Requested(s: Sys, r: ReqId, q: Req, f: Found): Sys {
    Unrecorded(s, r, q, f).(reqs := s.reqs[r := q.(pc := Marking(f, s.prov.issued + 1))])
  }

  lemma Requests(s: Sys, r: ReqId, q: Req, f: Found)
    requires At(s, r, q, System.Refunding(f)) && s.prov.refundKeys.None?
    ensures Goes(s, Do(r, Refund(RefundOk)), Requested(s, r, q, f))
  {}

  lemma Unmarked(s: Sys, r: ReqId, q: Req, f: Found)
    requires At(s, r, q, System.Refunding(f))
    ensures Goes(Requested(s, r, q, f), Do(r, Refund(RefundMarkErr)), Unrecorded(s, r, q, f))
  {
    assert Requested(s, r, q, f).reqs[r := Unrecorded(s, r, q, f).reqs[r]] == Unrecorded(s, r, q, f).reqs;
  }

  lemma RefundsUnrecorded(s0: Sys, steps: seq<Step>, s: Sys, r: ReqId, q: Req, f: Found) returns (steps': seq<Step>)
    requires Leads(s0, steps, s) && At(s, r, q, System.Refunding(f)) && s.prov.refundKeys.None?
    ensures Leads(s0, steps', Unrecorded(s, r, q, f))
  {
    hide Leads, Goes, Unrecorded, Requested;
    Requests(s, r, q, f);
    Unmarked(s, r, q, f);
    steps' := Then(s0, steps, s, Do(r, Refund(RefundOk)), Requested(s, r, q, f));
    steps' := Then(s0, steps', Requested(s, r, q, f), Do(r, Refund(RefundMarkErr)), Unrecorded(s, r, q, f));
  }

  // The holder u leaves, and payment p, the only settled one of the ticket, is refunded.
  lemma LeavePaid(s0: Sys, steps: seq<Step>, s: Sys, r: ReqId, u: UserId, t: TicketId, mid: MsgId, p: PaymentId)
    returns (steps': seq<Step>, s': Sys)
    requires Leads(s0, steps, s) && Still(s) && t in s.tickets && r !in s.reqs && mid !in s.box.home
    requires s.tickets[t].status.Bought? && s.tickets[t].owner == Some(u)
    requires p < s.clock && Refundable(s.payments, t, p) && s.payments[p].status.Succeeded? && s.prov.refundKeys.None?
    requires forall x | x in s.payments && Refundable(s.payments, t, x) :: x == p
    ensures Leads(s0, steps', s') && Still(s') && s'.reqs.Keys == s.reqs.Keys + {r}
    ensures s'.payments == s.payments && s'.clock == s.clock && s'.box.home.Keys == s.box.home.Keys + {mid}
    ensures s'.tickets == s.tickets[t := FreeRow(s.tickets[t])]
    ensures var n := s.prov.issued + 1;
      s'.prov == s.prov.(issued := n, refunds := s.prov.refunds[n := RefundRequest(s.payments[p].intent, s.payments[p].amount, p)])
    ensures s'.logs == s.logs + [CancelLog(t, u, s.tickets[t].event, "", r)]
  {
    hide Leads, ByTicket, FreeRow, CalledOffBy;
    var f := Found(p, s.payments[p]);
    OnlyRefundable(s, t, p);
    steps' := Leave(s0, steps, s, r, u, t, mid);
    var s1 := Vacated(s, r, u, t, mid);
    assert At(s1, r, Leaver(u, t), System.Refunding(f));
    steps' := RefundsUnrecorded(s0, steps', s1, r, Leaver(u, t), f);
    s' := Unrecorded(s1, r, Leaver(u, t), f);
  }

  lemma PaidSale(s0: Sys) returns (steps: seq<Step>, s: Sys, t: TicketId)
    requires Init(s0) && s0.prov == EMPTY
    ensures Leads(s0, steps, s) && Still(s) && OnlySeat(s, t, t) && s.clock == s0.clock + 1
    ensures s.tickets[t].status.Bought? && s.tickets[t].owner == Some(0)
    ensures s.reqs.Keys == {0} && s.box.home.Keys == {0} && s.logs == []
    ensures s.payments == map[s0.clock := Payment(t, 0, Intent(1), PRICE, Succeeded, None, s0.clock)]
    ensures s.prov == Ledger(1, map[1 := PaymentIntent(1, PRICE)], map[], s.prov.byKey, None)
  {
    hide Leads;
    var s1;
    steps, s1, t := OpenSeat(s0);
    steps, s := SellPaid(s0, steps, s1, 0, 0, t, t, 0);
  }

  // User 0 buys, pays, cancels and is refunded.
  lemma FirstRefund(s0: Sys) returns (steps: seq<Step>, s: Sys, t: TicketId)
    requires Init(s0) && s0.prov == EMPTY
    ensures Leads(s0, steps, s) && OnSale(s, t, t) && s.clock == s0.clock + 1
    ensures s.reqs.Keys == {0, 1} && s.box.home.Keys == {0, 1}
    ensures s.payments == map[s0.clock := Payment(t, 0, Intent(1), PRICE, Succeeded, None, s0.clock)]
    ensures s.prov.issued == 2 && s.prov.refundKeys.None? && s.prov.made == map[1 := PaymentIntent(1, PRICE)]
    ensures s.prov.refunds == map[2 := RefundRequest(Intent(1), PRICE, s0.clock)]
    ensures |s.logs| == 1 && s.logs[0].user == 0 && s.logs[0].ticket == t
  {
    hide Leads;
    var s1;
    steps, s1, t := PaidSale(s0);
    steps, s := LeavePaid(s0, steps, s1, 1, 0, t, 1, s0.clock);
  }

  // User 1 buys, is not charged yet, cancels, and payment p is refunded.
  lemma SecondRefund(s0: Sys, steps: seq<Step>, s: Sys, t: TicketId, p: PaymentId) returns (steps': seq<Step>, s': Sys)
    requires Leads(s0, steps, s) && OnSale(s, t, t) && s.clock == p + 1 && s.reqs.Keys == {0, 1} && s.box.home.Keys == {0, 1}
    requires s.prov.refundKeys.None? && s.payments == map[p := Payment(t, 0, Intent(1), PRICE, Succeeded, None, p)]
    ensures Leads(s0, steps', s') && s'.payments == s.payments[p + 1 := Payment(t, 1, Provisional(p + 1), PRICE, Pending, None, p + 1)]
    ensures var n := s.prov.issued + 1;
      s'.prov == s.prov.(issued := n, refunds := s.prov.refunds[n := RefundRequest(Intent(1), PRICE, p)])
    ensures |s'.logs| == |s.logs| + 1 && s'.logs[..|s.logs|] == s.logs
    ensures s'.logs[|s.logs|].user == 1 && s'.logs[|s.logs|].ticket == t
  {
    hide Leads, Queued;
    var s1;
    steps', s1 := SellsPending(s0, steps, s, t, p);
    steps', s' := LeavePaid(s0, steps', s1, 3, 1, t, 3, p);
  }

  lemma SellsPending(s0: Sys, steps: seq<Step>, s: Sys, t: TicketId, p: PaymentId) returns (steps': seq<Step>, s': Sys)
    requires Leads(s0, steps, s) && OnSale(s, t, t) && s.clock == p + 1 && s.reqs.Keys == {0, 1} && s.box.home.Keys == {0, 1}
    ensures Leads(s0, steps', s') && Still(s') && s'.clock == p + 2 && s'.reqs.Keys == {0, 1, 2} && s'.box.home.Keys == {0, 1, 2}
    ensures s'.payments == s.payments[p + 1 := Payment(t, 1, Provisional(p + 1), PRICE, Pending, None, p + 1)]
    ensures s'.prov == s.prov && s'.logs == s.logs && t in s'.tickets
    ensures s'.tickets[t].status.Bought? && s'.tickets[t].owner == Some(1) && s'.tickets[t].event == s.tickets[t].event
  {
    hide Leads;
    steps' := Sell(s0, steps, s, 2, 1, t, t, 2);
    s' := SoldTo(s, 2, 1, t, t, 2);
  }

  /**
   User 0 buys, pays and cancels, and is refunded; recording it fails. User 1 buys the seat, has not been charged
   yet, and cancels: the payment of user 0 is refunded again. 1000 cents are refunded on 500 captured.
   */
  lemma RefundedTwice(s0: Sys) returns (steps: seq<Step>, t: TicketId, p: PaymentId, p': PaymentId)
    requires Init(s0) && s0.prov == EMPTY
    ensures Legal(s0, steps)
    ensures var s := Run(s0, steps);
      && {p, p'} <= s.payments.Keys && s.payments[p].user == 0 && s.payments[p'].user == 1 && s.payments[p'].status.Pending?
      && |s.logs| == 2 && s.logs[0].user == 0 && s.logs[1].user == 1 && s.logs[0].ticket == s.logs[1].ticket == t
      && s.prov.made == map[1 := PaymentIntent(1, PRICE)]
      && s.prov.refunds == map[2 := RefundRequest(Intent(1), PRICE, p), 3 := RefundRequest(Intent(1), PRICE, p)]
      && !RefundTheorems.RefundedOnce(s)
  {
    hide Init, Legal, Run;
    var s1, s2;
    p, p' := s0.clock, s0.clock + 1;
    steps, s1, t := FirstRefund(s0);
    steps, s2 := SecondRefund(s0, steps, s1, t, p);
    assert 2 in s2.prov.refunds && 3 in s2.prov.refunds;
  }

  // Along every run from s0 no two refunds name one payment.
  ghost predicate NeverTwice(s0: Sys) {
    forall steps :: Legal(s0, steps) ==> RefundTheorems.RefundedOnce(Run(s0, steps))
  }

  /** From every initial state: no run refunds a payment twice if and only if the provider remembers refund keys. */
  lemma NeverTwiceIffKeyed(s0: Sys)
    requires Init(s0)
    ensures NeverTwice(s0) <==> s0.prov.refundKeys.Some?
  {
    hide Legal, Run, RefundTheorems.RefundedOnce;
    if s0.prov.refundKeys.Some? {
      forall steps | Legal(s0, steps) ensures RefundTheorems.RefundedOnce(Run(s0, steps)) {
        RefundTheorems.RunMode(s0, steps);
        assert Invariant.Reachable(Run(s0, steps));
        RefundTheorems.KeyedRefundsOnce(Run(s0, steps));
      }
    } else {
      var steps, t, p, p' := RefundedTwice(s0);
    }
  }
}
