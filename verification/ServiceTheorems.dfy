/** Inventory, conservation, and delivery, for whole runs of the service. */
module ServiceTheorems {
  import opened Types
  import opened System
  import opened Frames
  import opened SeatProofs
  import opened CountProofs
  import opened Projection
  import opened Invariant
  import Outbox
  import OutboxProofs
  import DeliveryTheorems

  // ---------------------------------------------------------------- inventory

  /**
   A ticket is available or purchased; it is purchased exactly when owner, time and QR code are all
   set, available exactly when none is; an event has the tickets minted for it; QR codes are not shared.
   */
  lemma Inventory(s: Sys)
    requires Reachable(s)
    ensures forall t | t in s.tickets :: var x := s.tickets[t];
              && (x.status.Available? || x.status.Bought?)
              && (x.status.Bought? <==> x.owner.Some? && x.boughtAt.Some? && x.qr.Some?)
              && (x.status.Available? <==> x.owner.None? && x.boughtAt.None? && x.qr.None?)
    ensures forall e: EventId :: |TicketsOf(s, e)| == Count(s.hist.minted, e)
    ensures forall t, u | t in s.tickets && u in s.tickets ::
              s.tickets[t].qr.Some? && s.tickets[t].qr == s.tickets[u].qr ==> t == u
  {
    ReachableInv(s);
    forall t | t in s.tickets ensures SeatOk(t, s.tickets[t]) { assert RowSeat(s, t); }
  }

  // ---------------------------------------------------------------- conservation

  /** Purchase events = cancellation events + releases + 1 if held; cancellation events = log rows. */
  lemma Conservation(s: Sys, t: TicketId)
    requires Reachable(s)
    ensures Sales(s, t, s.box.next) + Flag(t in s.hist.seed) ==
            Calls(s, t, s.box.next) + Count(s.hist.frees, t) + Flag(IsHeld(s, t))
    ensures Calls(s, t, s.box.next) == LogsOf(s.logs, t)
    ensures forall id | id in s.box.rows :: id < s.box.next
  {
    ReachableInv(s);
    assert Balanced(s, t);
  }

  /** No prefix of a ticket's events, in outbox order, cancels more than was sold. */
  lemma NeverMoreCancelled(s: Sys, t: TicketId, hi: nat)
    requires Reachable(s) && hi <= s.box.next
    ensures Calls(s, t, hi) <= Sales(s, t, hi) + Flag(t in s.hist.seed)
  {
    ReachableInv(s);
    assert PrefixOk(s, t, hi);
  }

  // ---------------------------------------------------------------- delivery

  predicate NoWorkerError(steps: seq<Step>) {
    forall step | step in steps :: !(step.Work? && step.worker.HandleErr?)
  }

  lemma {:induction false} NoErrorProjects(s: Sys, steps: seq<Step>)
    requires Legal(s, steps) && NoWorkerError(steps)
    ensures DeliveryTheorems.NoHandlerFailure(BoxTrace(s, steps))
    decreases |steps|
  {
    if steps != [] {
      NoErrorProjects(s, Front(steps));
      NotAnError(Run(s, Front(steps)), Last(steps));
      hide Enabled, Apply, BoxMove;
    }
  }

  lemma NotAnError(s: Sys, step: Step)
    requires Enabled(s, step) && !(step.Work? && step.worker.HandleErr?)
    ensures var m := BoxMove(s, step); m.Some? ==> !(m.value.Worker? && m.value.w.HandleErr?)
  {
    hide CanGate, CanClaim, CanPay, CanRelease, CanCancel, CanRefund, CanCrash;
  }

  /** Claims and cancellations under any interleaving, any relays, duplicates, crashes: each effect once. */
  lemma ServiceExactlyOnce(s0: Sys, steps: seq<Step>)
    requires Init(s0) && Legal(s0, steps) && NoWorkerError(steps)
    ensures var d := Run(s0, steps).box;
      d.notes.Keys <= DeliveryTheorems.RowMids(d)
      && (DeliveryTheorems.Quiet(d) ==> d.notes.Keys == DeliveryTheorems.RowMids(d))
  {
    assert Outbox.Init(s0.box);
    hide Init, Enabled, Apply, BoxTrace, DeliveryTheorems.Quiet;
    Projects(s0, steps);
    NoErrorProjects(s0, steps);
    DeliveryTheorems.ExactlyOnceEffect(s0.box, BoxTrace(s0, steps));
  }

  /** With one relay, per ticket and topic, events first appear in the log in the order they committed. */
  lemma ServicePerTicketOrder(s0: Sys, steps: seq<Step>, k: RelayId, a: nat, b: nat)
    requires Init(s0) && s0.box.relays.Keys == {k} && Legal(s0, steps)
    requires var d := Run(s0, steps).box;
      a in d.rows && b in d.rows && a < b && DeliveryTheorems.SameStream(d.rows[a].msg, d.rows[b].msg)
      && d.rows[b].msg in Outbox.LogOf(d, Outbox.PartOf(d.rows[b].msg))
    ensures var d := Run(s0, steps).box;
      var log := Outbox.LogOf(d, Outbox.PartOf(d.rows[b].msg));
      d.rows[a].msg in log && DeliveryTheorems.First(log, d.rows[a].msg) < DeliveryTheorems.First(log, d.rows[b].msg)
  {
    assert Outbox.Init(s0.box);
    hide Init, Enabled, Apply, BoxTrace;
    Projects(s0, steps);
    DeliveryTheorems.PerTicketOrder(s0.box, k, BoxTrace(s0, steps), a, b);
  }

  // ---------------------------------------------------------------- end to end

  function NotesAbout(d: Outbox.Delivery, topic: Topic, t: TicketId): set<MsgId> {
    set m | m in d.notes && d.notes[m].kind == topic && d.notes[m].ticket == t
  }

  function MidsBelow(d: Outbox.Delivery, topic: Topic, t: TicketId, hi: nat): set<MsgId> {
    set m | m in d.home && d.home[m] < hi && IsEvent(d.rows, topic, t, d.home[m])
  }

  lemma MidsStep(d: Outbox.Delivery, topic: Topic, t: TicketId, hi: nat)
    requires OutboxProofs.Table(d) && hi > 0
    ensures MidsBelow(d, topic, t, hi) ==
            MidsBelow(d, topic, t, hi - 1) + if IsEvent(d.rows, topic, t, hi - 1) then {d.rows[hi - 1].msg.mid} else {}
    ensures IsEvent(d.rows, topic, t, hi - 1) ==> d.rows[hi - 1].msg.mid !in MidsBelow(d, topic, t, hi - 1)
  {}

  // Message ids and outbox ids of a ticket's events correspond one to one.
  lemma {:induction false} MidsCount(d: Outbox.Delivery, topic: Topic, t: TicketId, hi: nat)
    requires OutboxProofs.Table(d)
    ensures |MidsBelow(d, topic, t, hi)| == Events(d.rows, topic, t, hi)
  {
    hide MidsBelow, OutboxProofs.Table;
    if hi == 0 {
      NoMids(d, topic, t);
    } else {
      MidsCount(d, topic, t, hi - 1);
      MidsStep(d, topic, t, hi);
    }
  }

  lemma NoMids(d: Outbox.Delivery, topic: Topic, t: TicketId)
    ensures MidsBelow(d, topic, t, 0) == {}
  {}

  lemma NotesAreMids(d: Outbox.Delivery, topic: Topic, t: TicketId)
    requires OutboxProofs.Table(d) && OutboxProofs.Working(d) && d.notes.Keys == DeliveryTheorems.RowMids(d)
    ensures NotesAbout(d, topic, t) == MidsBelow(d, topic, t, d.next)
  {
    hide NotesAbout, MidsBelow;
    forall m ensures m in NotesAbout(d, topic, t) <==> m in MidsBelow(d, topic, t, d.next) { NoteIsMid(d, topic, t, m); }
  }

  lemma NoteIsMid(d: Outbox.Delivery, topic: Topic, t: TicketId, m: MsgId)
    requires OutboxProofs.Table(d) && OutboxProofs.Working(d) && d.notes.Keys == DeliveryTheorems.RowMids(d)
    ensures m in NotesAbout(d, topic, t) <==> m in MidsBelow(d, topic, t, d.next)
  {
    assert OutboxProofs.NoteOk(d, m);
  }

  lemma NotesCount(d: Outbox.Delivery, topic: Topic, t: TicketId)
    requires OutboxProofs.Sound(d) && d.notes.Keys == DeliveryTheorems.RowMids(d)
    ensures |NotesAbout(d, topic, t)| == Events(d.rows, topic, t, d.next)
  {
    hide OutboxProofs.Table, OutboxProofs.OutboxLocks, OutboxProofs.Shipping, OutboxProofs.Working, NotesAbout, MidsBelow;
    MidsCount(d, topic, t, d.next);
    NotesAreMids(d, topic, t);
  }

  /**
   From claim to inbox: once everything is delivered, the notifications about a ticket account for it
   exactly - one per purchase, one per cancellation, the difference being releases and the holder.
   */
  lemma NotificationsAddUp(s0: Sys, steps: seq<Step>, t: TicketId)
    requires Init(s0) && Legal(s0, steps) && NoWorkerError(steps) && DeliveryTheorems.Quiet(Run(s0, steps).box)
    ensures var s := Run(s0, steps);
      && |NotesAbout(s.box, TicketCancelled, t)| == LogsOf(s.logs, t)
      && |NotesAbout(s.box, TicketPurchased, t)| + Flag(t in s.hist.seed) ==
         LogsOf(s.logs, t) + Count(s.hist.frees, t) + Flag(IsHeld(s, t))
  {
    ServiceExactlyOnce(s0, steps);
    var s := Run(s0, steps);
    InvInit(s0);
    InvRun(s0, steps);
    assert Balanced(s, t) && OutboxProofs.Sound(s.box);
    hide Init, Legal, Run, Inv, DeliveryTheorems.Quiet, DeliveryTheorems.RowMids, OutboxProofs.Sound, NotesAbout;
    NotesCount(s.box, TicketPurchased, t);
    NotesCount(s.box, TicketCancelled, t);
  }
}
