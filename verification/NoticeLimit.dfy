/**
 "Amount charged" is written before the charge: the event is committed with the claim. When the text is true of the
 charge, and from every initial state with a relay a run in which it is told and no charge is ever made.
 */
module NoticeLimit {
  import opened Types
  import opened Payments
  import opened System
  import opened Frames
  import opened Runs
  import opened MoneyProofs
  import opened MoneyTheorems
  import opened Invariant
  import opened Notices
  import Outbox
  import OutboxProofs
  import Telling

  /** The commit that enqueues a purchase event inserts its payment, uncharged. */
  lemma EnqueuedUncharged(s: Sys, r: ReqId, mid: MsgId)
    requires Reachable(s) && CanClaim(s, r, ClaimCommit(mid))
    ensures var s', p := DoClaim(s, r, ClaimCommit(mid)), s.clock;
      && mid !in s.box.home && mid in s'.box.home
      && IsSale(s'.payments, p, s.reqs[r].pc.t, s.reqs[r].user, s.reqs[r].pc.price)
      && s'.payments[p].status.Pending? && p !in s'.hist.paid && s'.prov == s.prov
  {
    hide Reachable, DoClaim;
    ClockUnpaid(s);
    SaleCommitted(s, r, mid);
  }

  lemma ClockUnpaid(s: Sys)
    requires Reachable(s)
    ensures s.clock !in s.hist.paid
  {
    PaymentFacts(s, s.clock);
    hide Reachable;
  }

  /**
   What a confirmation is worth: its payment has been charged if the row is settled, has not if it failed; and while
   it is pending, unless the buyer's request crashed, exactly if that request is past the charge.
   */
  lemma ConfirmedIsChargedIff(s: Sys, id: nat)
    requires Reachable(s) && id in s.box.rows && s.box.rows[id].msg.Purchased?
    ensures var m := s.box.rows[id].msg;
      exists p :: IsSale(s.payments, p, m.ticket, m.user, m.amount) && p in s.hist.claims && s.hist.claims[p] in s.reqs
        && var row, pc := s.payments[p], s.reqs[s.hist.claims[p]].pc;
        && (Settled(row) ==> p in s.hist.paid) && (row.status.Failed? ==> p !in s.hist.paid)
        && (!pc.Crashed? ==> (p in s.hist.paid <==> PassedCharge(pc)))
  {
    EventsAreBacked(s, id);
    var m := s.box.rows[id].msg;
    var p :| IsSale(s.payments, p, m.ticket, m.user, m.amount);
    PaidIffPassed(s, p);
    hide Reachable;
  }

  // User 0 buys, is declined, and the seat is given back.
  lemma DeclinedBuyer(s0: Sys) returns (steps: seq<Step>, s: Sys, t: TicketId)
    requires Init(s0)
    ensures Leads(s0, steps, s) && s.box == Queued(s0.box, Purchased(0, t, t, 0, PRICE))
    ensures s.prov.made == map[] && s.payments.Keys == {s0.clock}
    ensures s.payments[s0.clock].user == 0 && s.payments[s0.clock].ticket == t && s.payments[s0.clock].status.Failed?
    ensures At(s, 0, Buyer(0, t), Answered(Answer(402, TextBody("Card declined"))))
  {
    hide Leads, Freed, FreeRow;
    var s1, p := s0, s0.clock;
    steps, s1, t := OpenSeat(s0);
    steps := Sell(s0, steps, s1, 0, 0, t, t, 0);
    var s2 := SoldTo(s1, 0, 0, t, t, 0);
    steps := Declines(s0, steps, s2, 0, Buyer(0, t), t, p);
    var s3 := s2.(reqs := s2.reqs[0 := Buyer(0, t).(pc := ChargeFailed(t, p, CardDeclined))]);
    steps := GiveBack(s0, steps, s3, 0, Buyer(0, t), t, p);
    s := GivenBack(s3, 0, Buyer(0, t), t, p);
  }

  // The one row committed can be told, and has not been.
  lemma OneRow(d0: Outbox.Delivery, m: Message)
    requires Outbox.Init(d0) && m.Purchased?
    ensures var d, n := Queued(d0, m), d0.next;
      n in d.rows && d.rows[n].msg == m && d.relays == d0.relays && Telling.CanTell(d, n)
  {}

  /** A buyer whose card was declined, who was told so and has lost the seat, is told the amount charged; nothing ever was. */
  lemma ConfirmedUncharged(s0: Sys) returns (steps: seq<Step>, id: nat)
    requires Init(s0) && s0.box.relays != map[]
    ensures Legal(s0, steps)
    ensures var s := Run(s0, steps);
      && id in s.box.rows && s.box.rows[id].msg.mid in s.box.notes
      && var note := s.box.notes[s.box.rows[id].msg.mid];
      && note.user == 0 && note.body == "Your ticket is confirmed. Amount charged: " + Outbox.Decimal(PRICE) + " cents."
      && s.prov.made == map[] && (forall p | p in s.payments :: s.payments[p].status.Failed?)
      && 0 in s.reqs && s.reqs[0].user == 0 && s.reqs[0].pc == Answered(Answer(402, TextBody("Card declined")))
  {
    hide Init, Legal, Run, OutboxProofs.Sound, Queued, Telling.CanTell, Telling.Leads, Outbox.Decimal, Outbox.Init, Reachable;
    var s, t;
    steps, s, t := DeclinedBuyer(s0);
    SoundAndFresh(s0, steps, s);
    OneRow(s0.box, Purchased(0, t, t, 0, PRICE));
    id := s0.box.next;
    var bs, d := Telling.Tell(s.box, id);
    steps := Delivers(s0, steps, s, bs, d);
    IsReached(s0, steps, s.(box := d));
    NoteHasRow(s.(box := d), 0);
    HomeOf(s.(box := d), id);
  }

  lemma SoundAndFresh(s0: Sys, steps: seq<Step>, s: Sys)
    requires Init(s0) && Leads(s0, steps, s)
    ensures OutboxProofs.Sound(s.box) && Outbox.Init(s0.box)
  {
    InvInit(s0);
    InvRun(s0, steps);
    hide Legal, Run, OutboxProofs.Sound, Outbox.Init;
  }

  lemma IsReached(s0: Sys, steps: seq<Step>, s: Sys)
    requires Init(s0) && Leads(s0, steps, s)
    ensures Reachable(s)
  {
    hide Init, Legal, Run;
  }

  lemma HomeOf(s: Sys, id: nat)
    requires Reachable(s) && id in s.box.rows
    ensures s.box.rows[id].msg.mid in s.box.home && s.box.home[s.box.rows[id].msg.mid] == id
  {
    assert OutboxProofs.Sound(s.box) by { ReachableInv(s); hide Reachable; }
    hide Reachable;
  }
}
