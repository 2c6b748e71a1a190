/**
 What delivery guarantees the whole service, exactly: runs of relays and workers are runs of the service,
 so what the outbox can still tell, the service can, and every run of the service projects back.
 */
module ServiceDelivery {
  import opened Types
  import opened System
  import opened Invariant
  import opened Projection
  import opened Outbox
  import OutboxProofs
  import DeliveryTheorems
  import Drain
  import opened Telling

  // ---------------------------------------------------------------- runs of relays and workers

  function LiftStep(b: BoxStep): Step
    requires !b.Queue?
  {
    if b.Relay? then Ship(b.k, b.a) else Work(b.p, b.w)
  }

  function Lift(bs: seq<BoxStep>): seq<Step>
    requires Outward(bs)
  {
    if bs == [] then []
    else
      OutwardParts(bs);
      Lift(Front(bs)) + [LiftStep(Last(bs))]
  }

  lemma LiftOne(s: Sys, b: BoxStep)
    requires !b.Queue? && Outbox.Enabled(s.box, b)
    ensures System.Enabled(s, LiftStep(b)) && System.Apply(s, LiftStep(b)) == s.(box := Outbox.Apply(s.box, b))
  {
    hide CanRelay, CanWork, DoRelay, DoWork;
  }

  /** Whatever relays and workers do alone, they can do within the service, and nothing else changes. */
  lemma {:induction false} LiftRun(s: Sys, bs: seq<BoxStep>)
    requires Outbox.Legal(s.box, bs) && Outward(bs)
    ensures System.Legal(s, Lift(bs)) && System.Run(s, Lift(bs)) == s.(box := Outbox.Run(s.box, bs))
    decreases |bs|
  {
    hide System.Enabled, System.Apply, Outbox.Enabled, Outbox.Apply;
    if bs != [] {
      OutwardParts(bs);
      LiftRun(s, Front(bs));
      var before := Lift(Front(bs));
      LiftOne(System.Run(s, before), Last(bs));
      assert Front(Lift(bs)) == before && Last(Lift(bs)) == LiftStep(Last(bs));
    }
  }

  // ---------------------------------------------------------------- what the service can still tell

  lemma StaysTold(s: Sys, steps: seq<Step>, id: nat)
    requires OutboxProofs.Sound(s.box) && System.Legal(s, steps) && IsTold(s.box, id)
    ensures IsTold(System.Run(s, steps).box, id)
  {
    hide System.Run, System.Legal, Outbox.Run, Outbox.Legal, IsTold, OutboxProofs.Sound;
    Projects(s, steps);
    ToldStays(s.box, BoxTrace(s, steps), id);
  }

  lemma StaysLost(s: Sys, steps: seq<Step>, id: nat)
    requires OutboxProofs.Sound(s.box) && System.Legal(s, steps) && Lost(s.box, id)
    ensures !IsTold(System.Run(s, steps).box, id)
  {
    Projects(s, steps);
    LostForGood(s.box, BoxTrace(s, steps), id);
    hide System.Run, System.Legal, Outbox.Run, Outbox.Legal, IsTold, OutboxProofs.Sound;
  }

  // Some continuation of the service tells row id.
  ghost predicate MayTell(s: Sys, id: nat) {
    exists steps :: System.Legal(s, steps) && IsTold(System.Run(s, steps).box, id)
  }

  lemma SoundBox(s: Sys)
    requires Reachable(s)
    ensures OutboxProofs.Sound(s.box)
  {
    hide Reachable;
    ReachableInv(s);
  }

  lemma RunTells(s: Sys, id: nat)
    requires OutboxProofs.Sound(s.box) && CanTell(s.box, id) && s.box.relays != map[]
    ensures MayTell(s, id)
  {
    hide OutboxProofs.Sound, CanTell, IsTold, System.Run, System.Legal, Outbox.Run, Outbox.Legal;
    var bs, d := Tell(s.box, id);
    LiftRun(s, bs);
    assert System.Legal(s, Lift(bs)) && IsTold(System.Run(s, Lift(bs)).box, id);
  }

  /** A committed message not told yet is told by some continuation if and only if a copy of it is left. */
  lemma TellableIff(s: Sys, id: nat)
    requires Reachable(s) && s.box.relays != map[] && id in s.box.rows && !IsTold(s.box, id)
    ensures MayTell(s, id) <==> CanTell(s.box, id)
  {
    SoundBox(s);
    hide Reachable, OutboxProofs.Sound, IsTold, CanTell, System.Run, System.Legal;
    if CanTell(s.box, id) {
      RunTells(s, id);
    } else {
      forall steps | System.Legal(s, steps) ensures !IsTold(System.Run(s, steps).box, id) { StaysLost(s, steps, id); }
    }
  }

  // ---------------------------------------------------------------- a cancellation and its purchase

  // Every continuation of the service that tells row c has told row a.
  ghost predicate ToldFirst(s: Sys, a: nat, c: nat) {
    forall steps :: System.Legal(s, steps) && IsTold(System.Run(s, steps).box, c) ==> IsTold(System.Run(s, steps).box, a)
  }

  /**
   In every reachable state with a relay, a cancellation not told yet is never told before the purchase,
   whatever the service does next, if and only if the purchase is told already, or handler failures have
   left no copy of the cancellation to tell.
   */
  lemma CancellationWaitsIff(s: Sys, a: nat, c: nat)
    requires Reachable(s) && s.box.relays != map[]
    requires a in s.box.rows && s.box.rows[a].msg.Purchased?
    requires c in s.box.rows && s.box.rows[c].msg.Cancelled? && !IsTold(s.box, c)
    ensures ToldFirst(s, a, c) <==> IsTold(s.box, a) || !CanTell(s.box, c)
    ensures s.box.failed == {} ==> CanTell(s.box, c)
  {
    SoundBox(s);
    if s.box.failed == {} { NothingLost(s.box, c); }
    hide Reachable, OutboxProofs.Sound, IsTold, CanTell, System.Run, System.Legal;
    if IsTold(s.box, a) {
      forall steps | System.Legal(s, steps) ensures IsTold(System.Run(s, steps).box, a) { StaysTold(s, steps, a); }
    } else if CanTell(s.box, c) {
      Overtakes(s, a, c);
    } else {
      forall steps | System.Legal(s, steps) ensures !IsTold(System.Run(s, steps).box, c) { StaysLost(s, steps, c); }
    }
  }

  // A run of relays and workers that tells the cancellation and not the purchase.
  lemma Overtakes(s: Sys, a: nat, c: nat)
    requires OutboxProofs.Sound(s.box) && s.box.relays != map[]
    requires a in s.box.rows && s.box.rows[a].msg.Purchased? && !IsTold(s.box, a)
    requires c in s.box.rows && s.box.rows[c].msg.Cancelled? && CanTell(s.box, c)
    ensures !ToldFirst(s, a, c)
  {
    hide OutboxProofs.Sound, IsTold, CanTell, System.Run, System.Legal, Outbox.Run, Outbox.Legal;
    var bs, d := TellBefore(s.box, a, c);
    LiftRun(s, bs);
    assert System.Legal(s, Lift(bs)) && IsTold(System.Run(s, Lift(bs)).box, c) && !IsTold(System.Run(s, Lift(bs)).box, a);
  }

  // The row a cancellation commits is one that can be told and has not been.
  lemma FreshRow(d: Delivery, oid: nat, m: Message)
    requires OutboxProofs.Sound(d) && CanQueue(d, CommitRow(oid, m))
    ensures var d' := DoQueue(d, CommitRow(oid, m));
      oid in d'.rows && d'.rows[oid].msg == m && CanTell(d', oid) && !IsTold(d', oid)
    ensures forall a | a in d.rows ::
      var d' := DoQueue(d, CommitRow(oid, m)); a in d'.rows && d'.rows[a] == d.rows[a] && (IsTold(d', a) <==> IsTold(d, a))
  {
    assert OutboxProofs.NoteOk(d, m.mid);
    assert forall a | a in d.rows :: a != oid;
  }

  /**
   The guard the handler lacks: at the commit that enqueues a cancellation, the order is safe from then on if
   and only if the purchase has been told by then.
   */
  lemma EnqueueSafeIff(s: Sys, r: ReqId, mid: MsgId, a: nat)
    requires Reachable(s) && s.box.relays != map[] && CanCancel(s, r, CancelCommit(mid))
    requires a in s.box.rows && s.box.rows[a].msg.Purchased?
    ensures ToldFirst(DoCancel(s, r, CancelCommit(mid)), a, s.reqs[r].pc.drawn) <==> IsTold(s.box, a)
  {
    var step := Do(r, Cancel(CancelCommit(mid)));
    var q := s.reqs[r];
    var s' := System.Apply(s, step);
    SoundBox(s);
    assert s'.box == DoQueue(s.box, CommitRow(q.pc.drawn, CancelEvent(q, mid)));
    hide DoCancel, ToldFirst, Outbox.DoQueue, Outbox.CanQueue, Reachable, OutboxProofs.Sound, CanTell, IsTold;
    FreshRow(s.box, q.pc.drawn, CancelEvent(q, mid));
    assert Reachable(s') by { OneMore(s, step); }
    assert s'.box.relays == s.box.relays by { QueueRelays(s.box, CommitRow(q.pc.drawn, CancelEvent(q, mid))); }
    CancellationWaitsIff(s', a, q.pc.drawn);
  }

  lemma QueueRelays(d: Delivery, q: QueueAct)
    requires CanQueue(d, q)
    ensures DoQueue(d, q).relays == d.relays
  {}

  lemma OneMore(s: Sys, step: Step)
    requires Reachable(s) && System.Enabled(s, step)
    ensures Reachable(System.Apply(s, step))
  {
    hide Reachable, System.Enabled, System.Apply;
    assert Front([step]) == [] && Last([step]) == step;
    ReachableOn(s, [step]);
  }

  // ---------------------------------------------------------------- which commits are safe

  // Every commit of an offset in the run was safe; handlers may fail anywhere.
  ghost predicate SafeCommits(s: Sys, steps: seq<Step>)
    requires System.Legal(s, steps)
    decreases |steps|
  {
    steps == [] ||
    (SafeCommits(s, Front(steps))
     && (Last(steps).Work? && Last(steps).worker.CommitOffset? ==>
           SafeCommit(System.Run(s, Front(steps)).box, Last(steps).p)))
  }

  lemma MoveIsWork(s: Sys, step: Step)
    requires System.Enabled(s, step) && BoxMove(s, step).Some? && BoxMove(s, step).value.Worker?
    ensures step == Work(BoxMove(s, step).value.p, BoxMove(s, step).value.w)
  {
    hide CanAct;
    if step.Do? { ActMoveQueues(s, step.r, step.a); }
  }

  lemma ActMoveQueues(s: Sys, r: ReqId, a: Act)
    requires CanAct(s, r, a)
    ensures ActMove(s, r, a).Some? ==> ActMove(s, r, a).value.Queue?
  {}

  lemma {:induction false} SafeTrace(s: Sys, steps: seq<Step>)
    requires System.Legal(s, steps) && SafeCommits(s, steps)
    ensures Outbox.Legal(s.box, BoxTrace(s, steps)) && Guarded(s.box, BoxTrace(s, steps))
    decreases |steps|
  {
    Projects(s, steps);
    if steps != [] {
      var before := Front(steps);
      SafeTrace(s, before);
      Projects(s, before);
      hide System.Enabled, System.Apply, Outbox.Enabled, Outbox.Apply, BoxMove, SafeCommit;
      var m := BoxMove(System.Run(s, before), Last(steps));
      if m.Some? {
        if m.value.Worker? { MoveIsWork(System.Run(s, before), Last(steps)); }
        assert Front(BoxTrace(s, steps)) == BoxTrace(s, before) && Last(BoxTrace(s, steps)) == m.value;
      } else {
        assert BoxTrace(s, steps) == BoxTrace(s, before);
      }
    }
  }

  /** Handlers may fail: if every commit is safe, all committed messages are told once nothing is pending. */
  lemma SafeCommitsLoseNothing(s0: Sys, steps: seq<Step>)
    requires System.Init(s0) && System.Legal(s0, steps) && SafeCommits(s0, steps)
    requires DeliveryTheorems.Quiet(System.Run(s0, steps).box)
    ensures System.Run(s0, steps).box.notes.Keys == DeliveryTheorems.RowMids(System.Run(s0, steps).box)
  {
    assert Outbox.Init(s0.box);
    hide System.Init, System.Legal, System.Run, Outbox.Init, Outbox.Legal, Outbox.Run;
    Projects(s0, steps);
    SafeTrace(s0, steps);
    SafeCommitsDeliverAll(s0.box, BoxTrace(s0, steps));
  }

  /**
   A commit past an untold message loses it for good, whatever the service does next, if and only if no other
   copy is left: its row is published, the partition does not repeat it later, and no relay still carries it.
   */
  lemma UnsafeCommitLosesIff(s: Sys, p: Part, i: nat, id: nat)
    requires Reachable(s) && s.box.relays != map[] && CanWork(s.box, p, CommitOffset)
    requires ReaderOf(s.box, p).committed <= i <= ReaderOf(s.box, p).pos < |LogOf(s.box, p)|
    requires id in s.box.rows && s.box.rows[id].msg == LogOf(s.box, p)[i] && !IsTold(s.box, id)
    ensures !SafeCommit(s.box, p)
    ensures var m := LogOf(s.box, p)[i];
      !MayTell(System.Apply(s, Work(p, CommitOffset)), id) <==>
        s.box.rows[id].published && m !in LogOf(s.box, p)[ReaderOf(s.box, p).pos + 1..]
        && forall k | k in s.box.relays :: !Carries(s.box.relays[k], m)
  {
    var s' := System.Apply(s, Work(p, CommitOffset));
    assert OutboxProofs.LogOk(s.box, p) by { SoundBox(s); hide Reachable; }
    hide Reachable, CanWork, DoWork, LogOf, ReaderOf, MayTell, SafeCommit, IsTold, CanTell;
    assert Reachable(s') by { OneMore(s, Work(p, CommitOffset)); }
    LeftToTell(s.box, p, i, id);
    TellableIff(s', id);
  }
}
