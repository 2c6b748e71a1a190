/** The outbox table, the broker and the notifications table, shared by relays, workers and handlers. */
module Wires {
  import opened Types
  import opened Outbox
  import opened OutboxProofs

  class Wire {
    var rows: map<nat, Row>
    var next: nat
    var olock: map<nat, RelayId>
    var logs: map<Part, seq<Message>>
    var readers: map<Part, Reader>
    var notes: map<MsgId, Notification>
    ghost const start: Delivery
    ghost var trace: seq<BoxStep>
    ghost var d: Delivery

    /** The tables and logs are those of the machine after the steps taken so far. */
    ghost predicate Valid()
      reads this
    {
      && rows == d.rows && next == d.next && olock == d.olock && logs == d.logs && readers == d.readers && notes == d.notes
      && Init(start) && Legal(start, trace) && Run(start, trace) == d
    }

    constructor (ghost start: Delivery, next: nat)
      requires Init(start) && start.next == next
      ensures Valid() && this.start == start && trace == []
    {
      rows, this.next, olock, logs, readers, notes := map[], next, map[], map[], map[], map[];
      this.start, trace, d := start, [], start;
    }

    ghost method Step(b: BoxStep)
      requires Legal(start, trace) && Run(start, trace) == d && Enabled(d, b)
      modifies this`trace, this`d
      ensures trace == old(trace) + [b] && d == Apply(old(d), b)
      ensures Legal(start, trace) && Run(start, trace) == d
    {
      hide Enabled, Apply;
      ghost var before := trace;
      trace := trace + [b];
      d := Apply(d, b);
      assert Front(trace) == before && Last(trace) == b;
    }

    lemma Facts()
      requires Valid()
      ensures Sound(d)
    {
      hide Init, Sound;
      InitSound(start);
      SoundRun(start, trace);
    }

    lemma Agrees()
      requires Valid()
      ensures rows == d.rows
    {
      hide Init, Legal, Run;
    }

    lemma Locks()
      requires Valid()
      ensures olock == d.olock
    {
      hide Init, Legal, Run;
    }

    lemma PassesNow(from: nat)
      requires Valid() && from <= |trace|
      ensures Passes(start, trace, from, d) && Legal(start, trace) && Run(start, trace) == d
    {
      hide Init, Legal, Run;
      assert trace[..|trace|] == trace;
    }

    // The state after a prefix of the steps was passed through.
    lemma PassedThrough(before: seq<BoxStep>, from: nat)
      requires Valid() && before <= trace && from <= |before|
      ensures Legal(start, before) && Passes(start, trace, from, Run(start, before))
    {
      hide Init, Run;
      LegalPrefix(start, before, trace);
      hide Legal;
      assert trace[..|before|] == before;
    }

    ghost predicate Alive(k: RelayId, pc: RelayPc)
      reads this
    {
      k in d.relays && d.relays[k] == pc
    }

    /**
     What handlers, workers and other relays do between two statements of relay k: any legal steps
     that are not its own.
     */
    method Others(k: RelayId)
      requires Valid() && k in d.relays
      modifies this
      ensures Valid() && old(trace) <= trace && k in d.relays && d.relays[k] == old(d.relays[k])
      ensures forall i | |old(trace)| <= i < |trace| :: !(trace[i].Relay? && trace[i].k == k)
    {}

    /** The same around a worker that reads partition p. */
    method OthersAround(p: Part)
      requires Valid()
      modifies this
      ensures Valid() && old(trace) <= trace && ReaderOf(d, p) == old(ReaderOf(d, p)) && LogOf(old(d), p) <= LogOf(d, p)
      ensures forall i | |old(trace)| <= i < |trace| :: !(trace[i].Worker? && trace[i].p == p)
    {}
  }

  lemma {:induction false} LegalPrefix(d: Delivery, a: seq<BoxStep>, b: seq<BoxStep>)
    requires Legal(d, b) && a <= b
    ensures Legal(d, a)
    decreases |b|
  {
    hide Enabled, Apply;
    if a != b { LegalPrefix(d, a, Front(b)); }
  }

  /** The run goes through delivery state s, after its first `from` steps. */
  ghost predicate Passes(start: Delivery, trace: seq<BoxStep>, from: nat, s: Delivery) {
    exists i :: from <= i <= |trace| && Legal(start, trace[..i]) && Run(start, trace[..i]) == s
  }

  // What was passed through stays passed through, by longer runs and counted from earlier.
  lemma PassesOn(start: Delivery, before: seq<BoxStep>, trace: seq<BoxStep>, from: nat, later: nat, s: Delivery)
    requires before <= trace && from <= later && Passes(start, before, later, s)
    ensures Passes(start, trace, from, s)
  {
    hide Legal, Run;
    var i :| later <= i <= |before| && Legal(start, before[..i]) && Run(start, before[..i]) == s;
    assert trace[..i] == before[..i];
  }

  /** Both states were passed through. */
  ghost predicate Polled(start: Delivery, trace: seq<BoxStep>, from: nat, seen: Delivery, met: Delivery) {
    Passes(start, trace, from, seen) && Passes(start, trace, from, met)
  }

  lemma PolledOn(start: Delivery, before: seq<BoxStep>, trace: seq<BoxStep>, from: nat, later: nat, seen: Delivery, met: Delivery)
    requires before <= trace && from <= later && Polled(start, before, later, seen, met)
    ensures Polled(start, trace, from, seen, met)
  {
    hide Passes;
    PassesOn(start, before, trace, from, later, seen);
    PassesOn(start, before, trace, from, later, met);
  }
}
