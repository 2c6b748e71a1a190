/** The notification worker of outbox/consumer.go: fetch, handle, commit the offset afterwards. */
module Consuming {
  import opened Types
  import opened Outbox
  import opened OutboxProofs
  import opened Wires

  class NotificationConsumer {
    const wire: Wire

    constructor (wire: Wire)
      ensures this.wire == wire
    {
      this.wire := wire;
    }

    ghost predicate Reading(p: Part, committed: nat, pos: nat, stage: Stage)
      reads wire
    {
      ReaderOf(wire.d, p) == Reader(committed, pos, stage)
    }

    /** The next message after the position in memory, if the log has one. */
    method FetchMessage(p: Part, ghost committed: nat, ghost pos: nat) returns (msg: Option<Message>)
      requires wire.Valid() && Reading(p, committed, pos, Waiting)
      modifies wire`readers, wire`trace, wire`d
      ensures wire.Valid() && old(wire.trace) <= wire.trace && LogOf(wire.d, p) == old(LogOf(wire.d, p))
      ensures msg.Some? <==> pos < |LogOf(wire.d, p)|
      ensures msg.Some? ==> msg.value == LogOf(wire.d, p)[pos]
      ensures Reading(p, committed, pos, if msg.Some? then Handling else Waiting)
    {
      hide Init, Legal, Outbox.Run;
      var log := if p in wire.logs then wire.logs[p] else [];
      var r := if p in wire.readers then wire.readers[p] else Reader(0, 0, Waiting);
      if r.pos >= |log| {
        return None;
      }
      wire.readers := wire.readers[p := r.(stage := Handling)];
      wire.Step(Worker(p, Poll));
      return Some(log[r.pos]);
    }

    /**
     INSERT ... ON CONFLICT (message_id) DO NOTHING: a message already told is left as it is, any
     other is told once, in the words its topic calls for. `fails` says that the database does.
     */
    method Handle(p: Part, msg: Message, fails: bool, ghost committed: nat, ghost pos: nat) returns (ok: bool)
      requires wire.Valid() && Reading(p, committed, pos, Handling)
      requires pos < |LogOf(wire.d, p)| && msg == LogOf(wire.d, p)[pos]
      modifies wire`notes, wire`readers, wire`trace, wire`d
      ensures wire.Valid() && old(wire.trace) <= wire.trace && LogOf(wire.d, p) == old(LogOf(wire.d, p))
      ensures ok ==> Reading(p, committed, pos, Handled) && msg.mid in wire.notes
      ensures !ok ==> Reading(p, committed, pos + 1, Waiting) && wire.notes == old(wire.notes)
      ensures forall m | m in old(wire.notes) :: m in wire.notes && wire.notes[m] == old(wire.notes)[m]
      ensures wire.notes.Keys <= old(wire.notes).Keys + {msg.mid}
      ensures ok && msg.mid !in old(wire.notes) && msg.Purchased? ==>
        wire.notes[msg.mid] == Notification(msg.ticket, msg.user, TicketPurchased,
                                            "Your ticket is confirmed. Amount charged: " + Decimal(msg.amount) + " cents.")
      ensures ok && msg.mid !in old(wire.notes) && msg.Cancelled? ==>
        wire.notes[msg.mid] == Notification(msg.ticket, msg.user, TicketCancelled,
                                            "Your ticket was cancelled and a refund is on its way.")
      ensures ok <==> !fails
    {
      hide Init, Legal, Outbox.Run, Decimal;
      var r := wire.readers[p];
      if fails {
        // The loop logs and goes on: nothing is committed, but the position in memory has moved.
        wire.readers := wire.readers[p := Reader(r.committed, r.pos + 1, Waiting)];
        wire.Step(Worker(p, HandleErr));
        return false;
      }
      var note;
      match msg {
        case Purchased(_, ticket, _, user, cents) =>
          note := Notification(ticket, user, TicketPurchased,
                               "Your ticket is confirmed. Amount charged: " + Decimal(cents) + " cents.");
        case Cancelled(_, ticket, _, user, _) =>
          note := Notification(ticket, user, TicketCancelled, "Your ticket was cancelled and a refund is on its way.");
      }
      if msg.mid !in wire.notes { wire.notes := wire.notes[msg.mid := note]; }
      wire.readers := wire.readers[p := r.(stage := Handled)];
      wire.Step(Worker(p, HandleOk));
      return true;
    }

    // CommitMessages; a failure is only logged.
    method CommitMessage(p: Part, ghost committed: nat, ghost pos: nat) returns (ok: bool)
      requires wire.Valid() && Reading(p, committed, pos, Handled)
      modifies wire`readers, wire`trace, wire`d
      ensures wire.Valid() && old(wire.trace) <= wire.trace && LogOf(wire.d, p) == old(LogOf(wire.d, p))
      ensures Reading(p, if ok then pos + 1 else committed, pos + 1, Waiting)
    {
      hide Init, Legal, Outbox.Run;
      ok := *;
      var r := wire.readers[p];
      wire.readers := wire.readers[p := Reader(if ok then r.pos + 1 else r.committed, r.pos + 1, Waiting)];
      wire.Step(Worker(p, if ok then CommitOffset else CommitErr));
    }

    // One message, if there is one.
    method Round(p: Part)
      requires wire.Valid() && ReaderOf(wire.d, p).stage.Waiting?
      modifies wire
      ensures wire.Valid() && old(wire.trace) <= wire.trace && ReaderOf(wire.d, p).stage.Waiting?
      ensures ReaderOf(wire.d, p).pos ==
        old(ReaderOf(wire.d, p).pos) + if old(ReaderOf(wire.d, p).pos) < |old(LogOf(wire.d, p))| then 1 else 0
      ensures |old(LogOf(wire.d, p))| <= |LogOf(wire.d, p)|
    {
      hide wire.Valid, ReaderOf, LogOf;
      ghost var committed, pos := ReaderOf(wire.d, p).committed, ReaderOf(wire.d, p).pos;
      var msg := FetchMessage(p, committed, pos);
      if msg.Some? {
        wire.OthersAround(p);
        var fails: bool := *;
        var ok := Handle(p, msg.value, fails, committed, pos);
        if ok {
          wire.OthersAround(p);
          ok := CommitMessage(p, committed, pos);
        }
      }
    }

    /**
     The loop over one partition, for a number of rounds: each takes up one message while there is one, and at the end
     every message before the position reached has been told or its handler has failed; the committed offset is not past it.
     */
    method Run(p: Part, rounds: nat)
      requires wire.Valid() && ReaderOf(wire.d, p).stage.Waiting?
      modifies wire
      ensures wire.Valid() && old(wire.trace) <= wire.trace && ReaderOf(wire.d, p).stage.Waiting?
      ensures ReaderOf(wire.d, p).committed <= ReaderOf(wire.d, p).pos <= |LogOf(wire.d, p)|
      ensures
        var from, n := old(ReaderOf(wire.d, p)).pos, |old(LogOf(wire.d, p))|;
        ReaderOf(wire.d, p).pos >= if from + rounds <= n then from + rounds else n
      ensures forall i | 0 <= i < ReaderOf(wire.d, p).pos :: Told(wire.d, LogOf(wire.d, p)[i].mid)
    {
      hide wire.Valid, Told, ReaderOf, LogOf;
      ghost var from, n := ReaderOf(wire.d, p).pos, |LogOf(wire.d, p)|;
      for round := 0 to rounds
        invariant wire.Valid() && old(wire.trace) <= wire.trace && ReaderOf(wire.d, p).stage.Waiting?
        invariant |LogOf(wire.d, p)| >= n && (ReaderOf(wire.d, p).pos >= n || ReaderOf(wire.d, p).pos >= from + round)
      {
        wire.OthersAround(p);
        Round(p);
      }
      wire.Facts();
      AllToldBelow(wire.d, p);
    }
  }

  lemma AllToldBelow(d: Delivery, p: Part)
    requires Sound(d)
    ensures ReaderOf(d, p).committed <= ReaderOf(d, p).pos <= |LogOf(d, p)|
    ensures forall i | 0 <= i < ReaderOf(d, p).pos :: Told(d, LogOf(d, p)[i].mid)
  {
    assert ReaderOk(d, p);
  }
}
