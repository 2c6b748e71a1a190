/** Seen from the outbox, a run of the service is a run of the outbox machine. */
module Projection {
  import opened Types
  import opened System
  import opened Frames
  import Outbox
  import OutboxProofs
  import DeliveryTheorems
  import Drain

  function RollbackMove(box: Outbox.Delivery, oid: Option<nat>): Option<Outbox.BoxStep> {
    if oid.Some? && oid.value in box.open then Some(Outbox.Queue(Outbox.AbortRow(oid.value))) else None
  }

  function ActMove(s: Sys, r: ReqId, a: Act): Option<Outbox.BoxStep>
    requires CanAct(s, r, a)
  {
    var q := s.reqs[r];
    match a
    case Claim(ClaimAlloc) => Some(Outbox.Queue(Outbox.Alloc(q.pc.t)))
    case Claim(ClaimCommit(mid)) => Some(Outbox.Queue(Outbox.CommitRow(q.pc.oid.value, ClaimEvent(q, mid))))
    case Claim(ClaimAbort) => RollbackMove(s.box, q.pc.oid)
    case Cancel(CancelAlloc) => Some(Outbox.Queue(Outbox.Alloc(q.call.ticket)))
    case Cancel(CancelCommit(mid)) => Some(Outbox.Queue(Outbox.CommitRow(q.pc.drawn, CancelEvent(q, mid))))
    case Cancel(CancelRetry) => RollbackMove(s.box, OpenId(q.pc))
    case Cancel(CancelErr) => RollbackMove(s.box, OpenId(q.pc))
    case Crash => RollbackMove(s.box, OpenId(q.pc))
    case _ => None
  }

  /** The outbox step a step of the service takes, if any. */
  function BoxMove(s: Sys, step: Step): Option<Outbox.BoxStep>
    requires Enabled(s, step)
  {
    match step
    case Do(r, a) => ActMove(s, r, a)
    case Ship(k, a) => Some(Outbox.Relay(k, a))
    case Work(p, w) => Some(Outbox.Worker(p, w))
    case Arrive(_, _, _, _, _) => None
    case Mint(_, _, _) => None
  }

  ghost predicate Follows(d: Outbox.Delivery, d': Outbox.Delivery, m: Option<Outbox.BoxStep>) {
    if m.Some? then Outbox.Enabled(d, m.value) && d' == Outbox.Apply(d, m.value) else d' == d
  }

  lemma ClaimFollows(s: Sys, r: ReqId, c: ClaimAct)
    requires CanClaim(s, r, c)
    ensures Follows(s.box, DoClaim(s, r, c).box, ActMove(s, r, Claim(c)))
  {
    hide Outbox.CanQueue, Outbox.DoQueue, IsPick, Candidate, SoldRow, ClaimEvent;
    if c.ClaimAbort? && RollbackMove(s.box, s.reqs[r].pc.oid).Some? { CanAbort(s.box, s.reqs[r].pc.oid.value); }
  }

  lemma CanAbort(d: Outbox.Delivery, o: nat)
    requires o in d.open
    ensures Outbox.CanQueue(d, Outbox.AbortRow(o))
  {}

  lemma CancelFollows(s: Sys, r: ReqId, x: CancelAct)
    requires CanCancel(s, r, x)
    ensures Follows(s.box, DoCancel(s, r, x).box, ActMove(s, r, Cancel(x)))
  {
    hide Outbox.CanQueue, Outbox.DoQueue, TakeSnapshot, Capture, CancelEvent, FreeRow, CalledOffBy;
    if x.CancelRead? {
      ReadFrame(s, r);
      hide DoCancel;
    } else if x.CancelRetry? || x.CancelErr? {
      AbortFollows(s, r, x);
    }
  }

  lemma AbortFollows(s: Sys, r: ReqId, x: CancelAct)
    requires CanCancel(s, r, x) && (x.CancelRetry? || x.CancelErr?)
    ensures Follows(s.box, DoCancel(s, r, x).box, ActMove(s, r, Cancel(x)))
  {
    hide Outbox.CanQueue, Outbox.DoQueue, OpenId;
    var o := OpenId(s.reqs[r].pc);
    if o.Some? && o.value in s.box.open { CanAbort(s.box, o.value); }
  }

  lemma CrashFollows(s: Sys, r: ReqId)
    requires CanCrash(s, r)
    ensures Follows(s.box, DoCrash(s, r).box, ActMove(s, r, Crash))
  {
    hide Outbox.CanQueue, Outbox.DoQueue;
    var o := OpenId(s.reqs[r].pc);
    if o.Some? && o.value in s.box.open { CanAbort(s.box, o.value); }
  }

  lemma BoxFollows(s: Sys, step: Step)
    requires Enabled(s, step)
    ensures Follows(s.box, Apply(s, step).box, BoxMove(s, step))
  {
    hide DoGate, DoClaim, DoPay, DoRelease, DoCancel, DoRefund, DoCrash, Outbox.DoRelay, Outbox.DoWork, Outbox.DoQueue;
    hide CanGate, CanClaim, CanPay, CanRelease, CanCancel, CanRefund, CanCrash;
    match step
    case Do(r, a) => ActFollows(s, r, a);
    case _ =>
  }

  lemma ActFollows(s: Sys, r: ReqId, a: Act)
    requires CanAct(s, r, a)
    ensures Follows(s.box, DoAct(s, r, a).box, ActMove(s, r, a))
  {
    hide DoGate, DoClaim, DoPay, DoRelease, DoCancel, DoRefund, DoCrash, Follows;
    match a
    case Gate(g) => GateFrame(s, r, g); StaysPut(s.box);
    case Claim(c) => ClaimFollows(s, r, c);
    case Pay(y) => PayFrame(s, r, y); StaysPut(s.box);
    case Release(l) => ReleaseFrame(s, r, l); StaysPut(s.box);
    case Cancel(x) => CancelFollows(s, r, x);
    case Refund(f) => RefundFrame(s, r, f); StaysPut(s.box);
    case Crash => CrashFollows(s, r);
  }

  lemma StaysPut(d: Outbox.Delivery)
    ensures Follows(d, d, None)
  {}

  function BoxTrace(s: Sys, steps: seq<Step>): seq<Outbox.BoxStep>
    requires Legal(s, steps)
    decreases |steps|
  {
    if steps == [] then []
    else
      var m := BoxMove(Run(s, Front(steps)), Last(steps));
      BoxTrace(s, Front(steps)) + if m.Some? then [m.value] else []
  }

  /** Every run of the service projects to a legal run of the outbox, relays, broker and worker. */
  lemma {:induction false} Projects(s: Sys, steps: seq<Step>)
    requires Legal(s, steps)
    ensures Outbox.Legal(s.box, BoxTrace(s, steps))
    ensures Outbox.Run(s.box, BoxTrace(s, steps)) == Run(s, steps).box
    decreases |steps|
  {
    if steps != [] {
      var before := Front(steps);
      Projects(s, before);
      hide Enabled, Apply, Outbox.Enabled, Outbox.Apply, BoxMove;
      BoxFollows(Run(s, before), Last(steps));
      var m := BoxMove(Run(s, before), Last(steps));
      if m.Some? {
        Drain.Snoc(s.box, BoxTrace(s, before), m.value);
      } else {
        assert BoxTrace(s, steps) == BoxTrace(s, before);
      }
    }
  }
}
