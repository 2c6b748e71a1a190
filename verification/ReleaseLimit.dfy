/**
 Why the premise on releases is needed: from every initial state, a run in which a release after a
 declined card frees the seat of another customer, who has paid for it. The first claim is cancelled and
 the seat sold again while the charge is still being made.
 */
module ReleaseLimit {
  import opened Types
  import opened Payments
  import opened System
  import opened Runs
  import Outbox

  // User 0 claims as request 0, is declined, and cancels meanwhile as request 1.
  lemma FirstSale(s0: Sys) returns (steps: seq<Step>, s: Sys, t: TicketId)
    requires Init(s0)
    ensures Leads(s0, steps, s) && OnSale(s, t, t) && s.clock == s0.clock + 1 && s.prov.byKey == map[] && s.reqs.Keys == {0, 1}
    ensures At(s, 0, Buyer(0, t), ChargeFailed(t, s0.clock, CardDeclined)) && s.box.home.Keys == {0, 1}
    ensures s.payments.Keys == {s0.clock} && s.payments[s0.clock].user == 0 && s.hist.paid == map[]
  {
    hide Leads, ByTicket, Capture, CalledOffBy;
    var s1;
    steps, s1, t := DeclinedSale(s0);
    steps := Leave(s0, steps, s1, 1, 0, t, 1);
    s := Vacated(s1, 1, 0, t, 1);
    CalledOffPaid(s1.hist, t);
  }

  lemma DeclinedSale(s0: Sys) returns (steps: seq<Step>, s: Sys, t: TicketId)
    requires Init(s0)
    ensures Leads(s0, steps, s) && Still(s) && OnlySeat(s, t, t) && s.clock == s0.clock + 1 && s.prov == s0.prov
    ensures s.tickets[t].status.Bought? && s.tickets[t].owner == Some(0) && s.reqs.Keys == {0} && s.box.home.Keys == {0}
    ensures At(s, 0, Buyer(0, t), ChargeFailed(t, s0.clock, CardDeclined))
    ensures s.payments.Keys == {s0.clock} && s.payments[s0.clock].user == 0 && s.hist.paid == map[]
  {
    hide Leads;
    var s1, p := s0, s0.clock;
    steps, s1, t := OpenSeat(s0);
    steps := Sell(s0, steps, s1, 0, 0, t, t, 0);
    var s2 := SoldTo(s1, 0, 0, t, t, 0);
    steps := Declines(s0, steps, s2, 0, Buyer(0, t), t, p);
    s := s2.(reqs := s2.reqs[0 := Buyer(0, t).(pc := ChargeFailed(t, p, CardDeclined))]);
  }

  lemma CalledOffPaid(h: Hist, t: TicketId)
    ensures CalledOffBy(h, t).paid == h.paid
  {}

  /** A declined buyer's release frees the seat a later buyer holds and has been charged for. */
  lemma ReleaseFreesAnotherSeat(s0: Sys) returns (steps: seq<Step>, t: TicketId, p: PaymentId, p': PaymentId)
    requires Init(s0)
    ensures Legal(s0, steps) && p != p'
    ensures var s := Run(s0, steps);
      && {p, p'} <= s.payments.Keys && s.payments[p].user == 0 && s.payments[p].status.Failed?
      && s.payments[p'].user == 1 && s.payments[p'].status.Succeeded? && s.payments[p'].ticket == t
      && s.hist.paid.Keys == {p'} && t in s.tickets && s.tickets[t].status.Available?
      && p' in s.hist.fate && s.hist.fate[p'] == Stray
  {
    hide Init, Legal, Run;
    var s1, s2;
    p, p' := s0.clock, s0.clock + 1;
    steps, s1, t := FirstSale(s0);
    steps, s2 := SellPaid(s0, steps, s1, 2, 1, t, t, 2);
    steps := GiveBack(s0, steps, s2, 0, Buyer(0, t), t, p);
    assert Run(s0, steps) == GivenBack(s2, 0, Buyer(0, t), t, p);
  }
}
