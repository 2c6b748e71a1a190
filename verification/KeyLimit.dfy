/** Requests, from every initial state, that end 402, 404 or 409 and leave their key in flight for good. */
module KeyLimit {
  import opened Types
  import opened Payments
  import opened System
  import opened Runs
  import Invariant
  import KeyTheorems

  function Keyed(user: UserId, call: System.Call, k: Key): Req {
    Req(user, call, Some(k), 0, Arrived)
  }

  // The handler has answered with a rejection; the write after it goes through and stores nothing.
  lemma Closes(s0: Sys, steps: seq<Step>, s: Sys, r: ReqId, q: Req, a: Answer) returns (steps': seq<Step>, s': Sys)
    requires Leads(s0, steps, s) && At(s, r, q, Answered(a)) && a.status < 500 && a.content.TextBody?
    requires q.key.Some? && q.key.value in s.keys
    ensures Leads(s0, steps', s') && At(s', r, q, Done(a, Handled)) && s'.keys == s.keys
  {
    hide Leads;
    s' := Apply(s, Do(r, Gate(Finish(true))));
    steps' := Then(s0, steps, s, Do(r, Gate(Finish(true))), s');
  }

  // A cancellation of a ticket nobody has.
  lemma NotFound(s0: Sys, k: Key) returns (steps: seq<Step>, s: Sys, q: Req, a: Answer)
    requires Init(s0)
    ensures Leads(s0, steps, s) && At(s, 0, q, Answered(a)) && a.status == 404 && a.content.TextBody?
    ensures q.key == Some(k) && k in s.keys && s.keys[k].response.None?
  {
    hide Leads;
    var t := NewName(s0);
    q := Keyed(0, Cancellation(t, ""), k);
    NoSteps(s0);
    steps := Enter(s0, [], s0, 0, q);
    var s1 := Entered(s0, 0, q);
    a := Text(404, "Ticket not found or not owned by caller");
    s := s1.(reqs := s1.reqs[0 := q.(pc := Answered(a))]);
    steps := Then(s0, steps, s1, Do(0, Cancel(CancelRead)), s);
  }

  // A purchase for an event without tickets.
  lemma SoldOut(s0: Sys, k: Key) returns (steps: seq<Step>, s: Sys, q: Req, a: Answer)
    requires Init(s0)
    ensures Leads(s0, steps, s) && At(s, 0, q, Answered(a)) && a.status == 409 && a.content.TextBody?
    ensures q.key == Some(k) && k in s.keys && s.keys[k].response.None?
  {
    hide Leads;
    var e := NewName(s0);
    q := Keyed(0, Purchase(e), k);
    NoSteps(s0);
    steps := Enter(s0, [], s0, 0, q);
    var s1 := Entered(s0, 0, q);
    a := Text(409, "No tickets available for this event");
    s := s1.(reqs := s1.reqs[0 := q.(pc := Answered(a))]);
    steps := Then(s0, steps, s1, Do(0, Claim(ClaimNone)), s);
  }

  // A purchase whose card is declined, up to the charge.
  lemma Claims(s0: Sys, k: Key) returns (steps: seq<Step>, s: Sys, t: TicketId, q: Req)
    requires Init(s0)
    ensures Leads(s0, steps, s) && Still(s) && At(s, 0, q, Claimed(t, s0.clock, PRICE)) && s0.clock in s.payments
    ensures t in s.tickets && s.tickets[t].status.Bought?
    ensures q.key == Some(k) && k in s.keys && s.keys[k].response.None?
  {
    hide Leads;
    var s1;
    steps, s1, t := OpenSeat(s0);
    q := Keyed(0, Purchase(t), k);
    steps := Enter(s0, steps, s1, 0, q);
    steps := Buy(s0, steps, Entered(s1, 0, q), 0, q, t, 0);
    s := Sold(Entered(s1, 0, q), 0, q, t, 0);
  }

  lemma Declined(s0: Sys, k: Key) returns (steps: seq<Step>, s: Sys, q: Req, a: Answer)
    requires Init(s0)
    ensures Leads(s0, steps, s) && At(s, 0, q, Answered(a)) && a.status == 402 && a.content.TextBody?
    ensures q.key == Some(k) && k in s.keys && s.keys[k].response.None?
  {
    hide Leads, Freed, FreeRow;
    var s1, t;
    var p := s0.clock;
    steps, s1, t, q := Claims(s0, k);
    steps := Declines(s0, steps, s1, 0, q, t, p);
    var s2 := s1.(reqs := s1.reqs[0 := q.(pc := ChargeFailed(t, p, CardDeclined))]);
    steps := GiveBack(s0, steps, s2, 0, q, t, p);
    s := GivenBack(s2, 0, q, t, p);
    a := Denial(CardDeclined);
  }

  /**
   A keyed request can end with each of the three client errors, its write of the key having gone through; nothing
   is stored, and by EndedForGood nothing ever is.
   */
  lemma RejectedInFlight(s0: Sys, k: Key, status: nat) returns (steps: seq<Step>)
    requires Init(s0) && status in {402, 404, 409}
    ensures Legal(s0, steps)
    ensures var s := Run(s0, steps);
      && KeyTheorems.Uses(s, 0, k) && s.reqs[0].pc.Done? && s.reqs[0].pc.via.Handled? && s.reqs[0].pc.answer.status == status
      && KeyTheorems.KeyEnded(s, k) && s.keys[k].response.None?
  {
    hide Legal, Run;
    var s, q, a, s';
    if status == 404 {
      steps, s, q, a := NotFound(s0, k);
    } else if status == 409 {
      steps, s, q, a := SoldOut(s0, k);
    } else {
      steps, s, q, a := Declined(s0, k);
    }
    steps, s' := Closes(s0, steps, s, 0, q, a);
    assert Invariant.Reachable(s') by { assert Init(s0) && Legal(s0, steps) && s' == Run(s0, steps); }
    hide Invariant.Reachable, Init;
    KeyTheorems.RejectionsAreNotStored(s', k, 0);
  }
}
