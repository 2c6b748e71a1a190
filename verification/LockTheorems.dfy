/** Lock discipline: nothing locked across a call to another system, and no deadlock. */
module LockTheorems {
  import opened Types
  import opened System
  import opened LockProofs
  import opened SeatProofs
  import opened Invariant
  import Outbox
  import OutboxProofs

  // ---------------------------------------------------------------- no lock across a call

  predicate Calling(pc: Pc) {
    pc.Claimed? || pc.Refunding?
  }

  ghost predicate HoldsNoRow(s: Sys, r: ReqId) {
    r !in s.tlock.Values && r !in s.plock.Values
  }

  /** No request holds a row lock while it charges or refunds, no relay while it produces. */
  lemma NoLockAcrossCalls(s: Sys)
    requires Reachable(s)
    ensures forall r | r in s.reqs && Calling(s.reqs[r].pc) :: HoldsNoRow(s, r)
    ensures forall k | k in s.box.relays && s.box.relays[k].Producing? :: k !in s.box.olock.Values
  {
    assert LockInv(s) && OutboxProofs.OutboxLocks(s.box) by { ReachableInv(s); hide Reachable, LockInv; }
    hide Reachable;
    forall r | r in s.reqs && Calling(s.reqs[r].pc) ensures HoldsNoRow(s, r) {
      forall t | t in s.tlock ensures s.tlock[t] != r { assert SeatLock(s, t); }
      forall p | p in s.plock ensures s.plock[p] != r { assert PayLock(s, p); }
    }
  }

  // ---------------------------------------------------------------- waiting

  datatype Agent = Request(r: ReqId) | Relay(k: RelayId)

  // The ticket row a statement is about to lock, waiting if somebody has it. The claim never waits.
  function WantsTicket(s: Sys, q: Req): Option<TicketId> {
    match q.pc
    case Snapped(_, _, _) => if q.call.Cancellation? then Some(q.call.ticket) else None
    case ChargeFailed(t, _, _) => if MatchesRelease(s, t) then Some(t) else None
    case _ => None
  }

  function WantsPayment(q: Req): Option<PaymentId> {
    match q.pc
    case Charged(_, p, _, _) => Some(p)
    case Releasing(_, p, _, _, marked) => if marked then None else Some(p)
    case Marking(found, _) => Some(found.id)
    case _ => None
  }

  ghost predicate Waits(s: Sys, a: Agent, b: Agent) {
    match a
    case Request(r) =>
      r in s.reqs && b.Request?
      && ((WantsTicket(s, s.reqs[r]).Some? && WantsTicket(s, s.reqs[r]).value in s.tlock
             && s.tlock[WantsTicket(s, s.reqs[r]).value] == b.r)
          || (WantsPayment(s.reqs[r]).Some? && WantsPayment(s.reqs[r]).value in s.plock
             && s.plock[WantsPayment(s.reqs[r]).value] == b.r))
    case Relay(k) =>
      k in s.box.relays && b.Relay? && (s.box.relays[k].Produced? || s.box.relays[k].Failing?)
      && exists id :: id in Outbox.Ids(s.box.relays[k].batch) && id in s.box.olock && s.box.olock[id] == b.k
  }

  /** Those who wait for a ticket, then those who wait for a payment, then those who wait for nothing. */
  function Rank(s: Sys, a: Agent): nat {
    match a
    case Request(r) =>
      if r !in s.reqs then 0
      else if s.reqs[r].pc.Releasing? then (if s.reqs[r].pc.marked then 0 else 1)
      else if WantsTicket(s, s.reqs[r]).Some? || WantsPayment(s.reqs[r]).Some? then 2
      else 0
    case Relay(k) => if k in s.box.relays && !s.box.relays[k].Fetching? then 1 else 0
  }

  lemma WaitsDown(s: Sys, a: Agent, b: Agent)
    requires LockInv(s) && OutboxProofs.OutboxLocks(s.box) && Waits(s, a, b)
    ensures Rank(s, b) < Rank(s, a)
  {
    if a.Request? {
      var q := s.reqs[a.r];
      if WantsTicket(s, q).Some? { assert SeatLock(s, WantsTicket(s, q).value); }
      if WantsPayment(q).Some? { assert PayLock(s, WantsPayment(q).value); }
    }
  }

  ghost predicate WaitPath(s: Sys, path: seq<Agent>) {
    forall i | 0 <= i < |path| - 1 :: Waits(s, path[i], path[i + 1])
  }

  lemma {:induction false} PathGoesDown(s: Sys, path: seq<Agent>)
    requires LockInv(s) && OutboxProofs.OutboxLocks(s.box) && WaitPath(s, path) && |path| > 1
    ensures Rank(s, path[|path| - 1]) < Rank(s, path[0])
    decreases |path|
  {
    hide LockInv, OutboxProofs.OutboxLocks, Waits, Rank;
    WaitsDown(s, path[|path| - 2], path[|path| - 1]);
    if |path| > 2 { PathGoesDown(s, path[..|path| - 1]); }
  }

  /** The wait-for graph has no cycle in any reachable state: no deadlock. */
  lemma NoDeadlock(s: Sys, path: seq<Agent>)
    requires Reachable(s) && |path| > 1 && WaitPath(s, path)
    ensures path[0] != path[|path| - 1]
  {
    ReachableInv(s);
    PathGoesDown(s, path);
  }

  /** Drawing an outbox id never has to wait: whoever has the ticket's row lock has its only open id. */
  lemma DrawNeverWaits(s: Sys, r: ReqId)
    requires Reachable(s) && r in s.reqs
    ensures s.reqs[r].pc.Claiming? && s.reqs[r].pc.oid.None? ==> CanClaim(s, r, ClaimAlloc)
    ensures s.reqs[r].pc.Cancelling? && s.reqs[r].pc.oid.None? ==> CanCancel(s, r, CancelAlloc)
  {
    assert LockInv(s) by { ReachableInv(s); hide Reachable; }
    hide Reachable;
    CanDraw(s, r);
  }

  lemma CanDraw(s: Sys, r: ReqId)
    requires LockInv(s) && r in s.reqs
    ensures s.reqs[r].pc.Claiming? && s.reqs[r].pc.oid.None? ==> CanClaim(s, r, ClaimAlloc)
    ensures s.reqs[r].pc.Cancelling? && s.reqs[r].pc.oid.None? ==> CanCancel(s, r, CancelAlloc)
  {
    assert ReqLock(s, r);
    forall o | o in s.box.open ensures s.box.open[o] in s.tlock && OpenOwned(s, o) { assert OpenOwned(s, o); }
    hide LockInv;
  }
}
