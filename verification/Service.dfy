/**
 The handlers of handlers/ticket.go behind the middleware of idempotency/middleware.go, statement by
 statement against the tables and the provider, with every other request free to act in between. Each
 method is proved to perform a legal run of the machine, so what is proved of the machine holds of it.
 */
module Service {
  import opened Types
  import opened Payments
  import opened System
  import opened Frames
  import opened KeyProofs
  import opened LockProofs
  import opened SeatProofs
  import opened MoneyProofs
  import opened Invariant
  import opened MoneyTheorems
  import HoldProofs
  import opened Store
  import LockTheorems
  import Tx
  import Outbox

  const NO_SNAPSHOT := Snapshot(Ticket(0, 0, Available, None, None, None, 0), None, None, false)

  datatype Sale = Sold(t: TicketId, qr: Qr, price: int, p: PaymentId) | Unsold(answer: Answer)

  datatype AttemptEnd = Commits | Rejects(answer: Answer) | Errs(error: Tx.Error)

  /** The statements that may fail, apart from those of a cancellation attempt; a handler is given the ones that do. */
  datatype Stmt =
    | InsertKeyRow | ReadKeyRow | WriteKeyRow
    | SelectSeat | WriteSale | CommitSale | SettleRow
    | FreeSeat | FailRow | CommitFailure
    | MarkRow

  /**
   What a cancellation attempt would meet: an error before its read, at its UPDATE, or after it up to and including
   COMMIT; and what a statement reports that does not get its row lock.
   */
  datatype AttemptFaults = AttemptFaults(
    begin: Option<Tx.Error>, update: Option<Tx.Error>, commit: Option<Tx.Error>, wait: Tx.Error)

  /** How a purchase ends. */
  datatype PurchaseEnd =
    | NoSeat
    | NoClaim
    | NoMoney(e: ProviderError)
    | Paid(t: TicketId, p: PaymentId, n: nat, price: int)

  function AfterAbort(n: nat, captured: Option<Found>, retryable: bool): Pc {
    if retryable && n < Tx.MAX_TX_ATTEMPTS then Attempt(n + 1, captured)
    else Answered(Text(500, "Failed to cancel ticket"))
  }

  // What the retry helper is told of an attempt: a rejection is an error it does not retry.
  function ErrorOf(end: AttemptEnd): Option<Tx.Error> {
    match end
    case Commits => None
    case Rejects(_) => Some(Tx.Plain)
    case Errs(e) => Some(e)
  }

  function Errors(ends: seq<AttemptEnd>): seq<Option<Tx.Error>> {
    seq(|ends|, i requires 0 <= i < |ends| => ErrorOf(ends[i]))
  }

  /** For sale, and nobody has it locked. */
  predicate ForSale(s: Sys, e: EventId, t: TicketId) {
    t in s.tickets && s.tickets[t].event == e && s.tickets[t].status == Available && t !in s.tlock
  }

  predicate FirstForSale(s: Sys, e: EventId, t: TicketId) {
    ForSale(s, e, t) && forall u | u in s.tickets && ForSale(s, e, u) :: t <= u
  }

  predicate NoneForSale(s: Sys, e: EventId) {
    forall u | u in s.tickets :: !ForSale(s, e, u)
  }

  predicate Owns(s: Sys, user: UserId, t: TicketId) {
    t in s.tickets && s.tickets[t].owner == Some(user)
  }

  /** 404 if there is no such ticket or it is somebody else's, 409 if it is the caller's and not purchased. */
  predicate Rejection(s: Sys, user: UserId, t: TicketId, a: Answer) {
    if !Owns(s, user, t) then a == Answer(404, TextBody("Ticket not found or not owned by caller"))
    else s.tickets[t].status != Bought && a == Answer(409, TextBody("Only purchased tickets can be cancelled"))
  }

  predicate MayCancel(s: Sys, user: UserId, t: TicketId) {
    Owns(s, user, t) && s.tickets[t].status == Bought
  }

  // The UPDATE of ticket t, read in one state, cannot go through in another.
  predicate Contended(seen: Sys, met: Sys, t: TicketId) {
    t in met.tlock || Get(met.tickets, t).None? || Get(seen.tickets, t).None? || met.tickets[t].ver != seen.tickets[t].ver
  }

  /** Request r has a committed cancellation in the log. */
  ghost predicate Logged(logs: seq<CancelLog>, r: ReqId) {
    exists i :: 0 <= i < |logs| && logs[i].req == r
  }

  predicate By(step: Step, r: ReqId) {
    step.Do? && step.r == r
  }

  class TicketService {
    const db: Database
    const provider: FakeProvider
    ghost const start: Sys
    ghost var trace: seq<Step>
    ghost var sys: Sys

    ghost predicate Valid()
      reads this, db, provider
    {
      && db.Shows(sys) && provider.Valid() && provider.Book() == sys.prov
      && Init(start) && Legal(start, trace) && Run(start, trace) == sys
    }

    constructor (db: Database, provider: FakeProvider, ghost start: Sys)
      requires Init(start) && db.Shows(start) && provider.Valid() && provider.Book() == start.prov
      ensures Valid() && this.db == db && this.provider == provider && this.start == start && trace == []
    {
      this.db, this.provider, this.start := db, provider, start;
      trace, sys := [], start;
    }

    // Request r is at pc; the rest of its record is that of q.
    ghost predicate At(r: ReqId, q: Req, pc: Pc)
      reads this
    {
      r in sys.reqs && sys.reqs[r] == q.(pc := pc)
    }

    /** One act of the machine. */
    ghost method Step(r: ReqId, a: Act)
      requires Init(start) && Legal(start, trace) && Run(start, trace) == sys && CanAct(sys, r, a)
      modifies this`trace, this`sys
      ensures trace == old(trace) + [Do(r, a)] && sys == DoAct(old(sys), r, a)
      ensures Legal(start, trace) && Run(start, trace) == sys
    {
      hide DoAct, CanAct;
      Extend(Do(r, a));
    }

    ghost method Extend(step: Step)
      requires Init(start) && Legal(start, trace) && Run(start, trace) == sys && Enabled(sys, step)
      modifies this`trace, this`sys
      ensures trace == old(trace) + [step] && sys == Apply(old(sys), step)
      ensures Legal(start, trace) && Run(start, trace) == sys
    {
      hide Enabled, Apply;
      ghost var before := trace;
      trace := trace + [step];
      sys := Apply(sys, step);
      assert Front(trace) == before && Last(trace) == step;
    }

    lemma Facts()
      requires Valid()
      ensures Reachable(sys) && sys.logs == db.logs
    {
      hide Init;
    }

    /**
     Anything the rest of the world does between two statements of request r: callers may rely on
     this contract only, which allows any legal run that contains no act of r. (That the log only
     grows follows from the run being legal: LogsGrow.)
     */
    method Others(r: ReqId)
      requires Valid() && r in sys.reqs
      modifies this`trace, this`sys, db, provider
      ensures Valid() && old(trace) <= trace && r in sys.reqs && sys.reqs[r] == old(sys.reqs[r])
      ensures forall i | |old(trace)| <= i < |trace| :: !By(trace[i], r)
      ensures old(db.logs) <= db.logs
    {}

    // ---------------------------------------------------------------- the claim

    // SELECT ... ORDER BY id LIMIT 1 FOR UPDATE SKIP LOCKED
    method LockLeast(r: ReqId, event: EventId, ghost q: Req) returns (t: Option<TicketId>, price: int)
      requires Valid() && At(r, q, Ready) && q.call == Purchase(event)
      modifies this`trace, this`sys, db`tlock
      ensures Valid() && |trace| == |old(trace)| + 1 && old(trace) <= trace
      ensures t.Some? ==> FirstForSale(old(sys), event, t.value) && old(sys).tickets[t.value].price == price
      ensures t.Some? ==> At(r, q, Claiming(t.value, price, None))
      ensures t.None? ==> At(r, q, Answered(Answer(409, TextBody("No tickets available for this event"))))
      ensures t.None? ==> NoneForSale(old(sys), event)
    {
      hide Init, Legal, Run, FakeProvider.Valid, FakeProvider.Book;
      var seen := set u | u in db.tickets && db.tickets[u].event == event && db.tickets[u].status.Available? && u !in db.tlock;
      assert forall u :: Candidate(sys, event, u) <==> u in seen;
      if seen == {} {
        Step(r, Claim(ClaimNone));
        return None, 0;
      }
      var least := Least(seen);
      assert IsPick(sys, event, least);
      db.tlock := db.tlock[least := r];
      Step(r, Claim(ClaimLock(least)));
      return Some(least), db.tickets[least].price;
    }

    // The outbox row's id, drawn by Enqueue's INSERT under the ticket's row lock.
    method DrawForClaim(r: ReqId, t: TicketId, price: int, ghost q: Req) returns (id: nat)
      requires Valid() && At(r, q, Claiming(t, price, None)) && q.call.Purchase?
      modifies this`trace, this`sys, db`nextId
      ensures Valid() && |trace| == |old(trace)| + 1 && old(trace) <= trace
      ensures At(r, q, Claiming(t, price, Some(id)))
    {
      hide Init, Legal, Run, Reachable, FakeProvider.Valid, FakeProvider.Book, CanClaim, DoClaim;
      Facts();
      LockTheorems.DrawNeverWaits(sys, r);
      DrawIs(sys, r);
      id := db.nextId;
      db.nextId := db.nextId + 1;
      Step(r, Claim(ClaimAlloc));
    }

    // COMMIT: the sold ticket, the pending payment and the outbox row appear together.
    method CommitClaim(r: ReqId, t: TicketId, qr: Qr, price: int, id: nat, event: EventId, user: UserId, ghost q: Req)
      returns (p: PaymentId)
      requires Valid() && At(r, q, Claiming(t, price, Some(id))) && q.call == Purchase(event) && q.user == user
      requires qr == Qr(t) && price >= 0
      modifies this`trace, this`sys, db
      ensures Valid() && |trace| == |old(trace)| + 1 && old(trace) <= trace
      ensures At(r, q, Claimed(t, p, price)) && p !in old(db.payments)
      ensures Booked(db.tickets, db.payments, db.outbox, t, p, event, user, price)
    {
      hide Init, Legal, Run, Reachable, FakeProvider.Valid, FakeProvider.Book, CanClaim, DoClaim, CanAct, DoAct, Booked;
      Facts();
      CommitReady(sys, r, db.uuids);
      ActIsClaim(sys, r, ClaimCommit(db.uuids));
      SaleCommitted(sys, r, db.uuids);
      p := db.now;
      var mid := db.uuids;
      var row := db.tickets[t];
      db.CommitSale(
        t, row.(status := Bought, owner := Some(user), boughtAt := Some(db.now), qr := Some(qr), ver := row.ver + 1),
        p, Payment(t, user, Provisional(p), price, Pending, None, db.now),
        id, Purchased(mid, t, event, user, price));
      NowBooked(db.tickets, db.payments, db.outbox, t, p, event, user, price, id, mid);
      assert db.tickets == sys.tickets[t := SoldRow(sys.tickets[t], t, user, sys.clock)];
      Step(r, Claim(ClaimCommit(mid)));
    }

    // ROLLBACK: the row lock goes, the drawn id is lost.
    method AbortClaim(r: ReqId, t: TicketId, price: int, id: Option<nat>, ghost q: Req)
      requires Valid() && At(r, q, Claiming(t, price, id)) && q.call.Purchase?
      modifies this`trace, this`sys, db`tlock
      ensures Valid() && |trace| == |old(trace)| + 1 && old(trace) <= trace
      ensures At(r, q, Answered(Text(500, "Failed to purchase ticket")))
    {
      hide Init, Legal, Run, FakeProvider.Valid, FakeProvider.Book;
      db.tlock := db.tlock - {t};
      Step(r, Claim(ClaimAbort));
    }

    /**
     The claim transaction of PurchaseTicket. A sale is of the least available unlocked ticket of a state passed
     through, at its price; ticket, pending payment and event are committed together. 409 means there was none, 500
     that a statement failed or that the price is one no payment can have.
     */
    method ClaimTicket(r: ReqId, event: EventId, user: UserId, faults: set<Stmt>, ghost q: Req)
      returns (claim: Sale, ghost seen: Sys)
      requires Valid() && At(r, q, Ready) && q.call == Purchase(event) && q.user == user
      modifies this`trace, this`sys, db, provider
      ensures Valid() && old(trace) <= trace && Passes(start, trace, |old(trace)|, seen)
      ensures ClaimEnds(seen, event, faults, claim)
      ensures claim.Sold? ==> At(r, q, Claimed(claim.t, claim.p, claim.price))
      ensures claim.Sold? ==> Booked(db.tickets, db.payments, db.outbox, claim.t, claim.p, event, user, claim.price)
      ensures claim.Unsold? ==> At(r, q, Answered(claim.answer)) && NoLocks(db.tlock, r)
    {
      hide Valid, Booked, Passes, NoLocks, FirstForSale, NoneForSale;
      Others(r);
      seen := sys;
      ghost var before := trace;
      claim := TryClaim(r, event, user, faults, q);
      PassedThrough(before, |old(trace)|);
      if claim.Unsold? { HoldsNothing(r); }
    }

    lemma PassedThrough(before: seq<Step>, from: nat)
      requires Valid() && before <= trace && from <= |before|
      ensures Legal(start, before) && Passes(start, trace, from, Run(start, before))
    {
      hide Init, Legal, Run, FakeProvider.Valid, FakeProvider.Book;
      LegalPrefix(start, before, trace);
      assert trace[..|before|] == before;
    }

    lemma HoldsNothing(r: ReqId)
      requires Valid() && r in sys.reqs && sys.reqs[r].pc.Answered?
      ensures NoLocks(db.tlock, r)
    {
      hide Init, Legal, Run, FakeProvider.Valid, FakeProvider.Book, Reachable;
      Facts();
      Unlocked(sys, r);
    }

    method TryClaim(r: ReqId, event: EventId, user: UserId, faults: set<Stmt>, ghost q: Req) returns (claim: Sale)
      requires Valid() && At(r, q, Ready) && q.call == Purchase(event) && q.user == user
      modifies this`trace, this`sys, db, provider
      ensures Valid() && old(trace) <= trace && ClaimEnds(old(sys), event, faults, claim)
      ensures claim.Sold? ==> At(r, q, Claimed(claim.t, claim.p, claim.price))
      ensures claim.Sold? ==> Booked(db.tickets, db.payments, db.outbox, claim.t, claim.p, event, user, claim.price)
      ensures claim.Unsold? ==> At(r, q, Answered(claim.answer))
    {
      hide Valid, Booked, FirstForSale, NoneForSale;
      if SelectSeat in faults {
        ClaimFails(r, q);
        return Unsold(Text(500, "Failed to purchase ticket"));
      }
      var t, price := LockLeast(r, event, q);
      if t.None? {
        return Unsold(Text(409, "No tickets available for this event"));
      }
      var qr := Qr(t.value);
      Others(r);
      if WriteSale in faults {
        FaultAt(old(sys), event, faults, t.value);
        AbortClaim(r, t.value, price, None, q);
        return Unsold(Text(500, "Failed to purchase ticket"));
      }
      var id := DrawForClaim(r, t.value, price, q);
      Others(r);
      if CommitSale in faults || price < 0 { // amount_cents has a CHECK
        FaultAt(old(sys), event, faults, t.value);
        AbortClaim(r, t.value, price, Some(id), q);
        return Unsold(Text(500, "Failed to purchase ticket"));
      }
      var p := CommitClaim(r, t.value, qr, price, id, event, user, q);
      return Sold(t.value, qr, price, p);
    }

    // No connection, or the SELECT failed.
    method ClaimFails(r: ReqId, ghost q: Req)
      requires Valid() && At(r, q, Ready) && q.call.Purchase?
      modifies this`trace, this`sys
      ensures Valid() && old(trace) <= trace && At(r, q, Answered(Text(500, "Failed to purchase ticket")))
    {
      hide Init, Legal, Run, FakeProvider.Valid, FakeProvider.Book;
      Step(r, Claim(ClaimErr));
    }

    // ---------------------------------------------------------------- the charge

    /** A new charge of the price, under the client's key or the payment's own, neither of which was used; or none. */
    method ChargeCard(r: ReqId, t: TicketId, p: PaymentId, price: int, key: Option<Key>,
                      ghost q: Req) returns (reply: Reply)
      requires Valid() && At(r, q, Claimed(t, p, price)) && q.key == key
      modifies this`trace, this`sys, provider
      ensures Valid() && |trace| == |old(trace)| + 1 && old(trace) <= trace && !reply.RefundReply?
      ensures reply.ChargeReply? ==> At(r, q, Charged(t, p, price, reply.charge.n))
      ensures reply.NoReply? ==> At(r, q, ChargeFailed(t, p, reply.error))
      ensures reply.ChargeReply? ==>
        NewCharge(old(provider.Book()), provider.Book(), if key.Some? then ClientKey(key.value) else PaymentKey(p), reply.charge)
        && reply.charge.amount == price
      ensures reply.NoReply? ==> provider.Book() == old(provider.Book())
      ensures reply.NoReply? <==> old(provider.chargeErr).Some?
      ensures reply.NoReply? ==> old(provider.chargeErr) == Some(reply.error)
    {
      hide Init, Legal, Run, FakeProvider.Valid, FakeProvider.Book, Reachable;
      Facts();
      UnusedKey(sys, r);
      var idemKey := if key.Some? then ClientKey(key.value) else PaymentKey(p);
      reply := provider.Charge(ChargeRequest(price, Some(idemKey)));
      if reply.NoReply? {
        Step(r, Pay(ChargeErr(reply.error)));
      } else {
        Step(r, Pay(ChargeOk));
      }
    }

    /** MarkStatus after a successful charge, of a row nobody has locked: not fatal if it fails, and then the row is as before. */
    method SettlePayment(r: ReqId, t: TicketId, p: PaymentId, price: int, n: nat, fails: bool, ghost q: Req)
      requires Valid() && At(r, q, Charged(t, p, price, n))
      modifies this`trace, this`sys, db
      ensures Valid() && |trace| == |old(trace)| + 1 && old(trace) <= trace
      ensures At(r, q, Answered(Answer(200, JsonBody(PurchaseBody(t, Qr(t), n, price)))))
      ensures PaidBy(sys, r, p, t, n, price) && p in old(db.payments) && old(db.payments)[p].status.Pending?
      ensures db.payments ==
        if fails then old(db.payments)
        else old(db.payments)[p := old(db.payments)[p].(status := Succeeded, intent := Intent(n))]
    {
      hide Init, Legal, Run, FakeProvider.Valid, FakeProvider.Book;
      Facts();
      ChargedRow(sys, r);
      PayRowFree(sys, r, p);
      if fails {
        Step(r, Pay(SettleErr));
      } else {
        db.MarkStatus(p, Succeeded, Some(Intent(n)));
        Step(r, Pay(Settle));
      }
    }

    // ---------------------------------------------------------------- the release

    // UPDATE tickets ... WHERE id = $1 AND status = 'purchased'. Reports whether a row matched.
    method ReleaseRow(r: ReqId, t: TicketId, p: PaymentId, e: ProviderError, fails: bool, ghost q: Req)
      returns (held: bool, ok: bool)
      requires Valid() && At(r, q, ChargeFailed(t, p, e))
      modifies this`trace, this`sys, db`tlock
      ensures Valid() && |trace| == |old(trace)| + 1 && old(trace) <= trace
      ensures held <==> ok && t in old(db.tickets) && old(db.tickets)[t].status.Bought?
      ensures ok <==> !fails && !(t in old(db.tickets) && old(db.tickets)[t].status.Bought? && t in old(db.tlock))
      ensures if ok then At(r, q, Releasing(t, p, e, held, false)) else At(r, q, Answered(Denial(e)))
    {
      hide Init, Legal, Run, FakeProvider.Valid, FakeProvider.Book, Denial;
      held := t in db.tickets && db.tickets[t].status.Bought?;
      if fails || (held && t in db.tlock) { // the wait for the row lock was cut short
        Step(r, Release(ReleaseErr));
        return false, false;
      }
      if held { db.tlock := db.tlock[t := r]; }
      Step(r, Release(ReleaseTicket));
      ok := true;
    }

    // UPDATE payments SET status = 'failed' WHERE id = $2. Nobody else has the row locked.
    method FailPayment(r: ReqId, t: TicketId, p: PaymentId, e: ProviderError, held: bool, fails: bool,
                       ghost q: Req) returns (ok: bool)
      requires Valid() && At(r, q, Releasing(t, p, e, held, false))
      modifies this`trace, this`sys, db`tlock, db`plock
      ensures Valid() && |trace| == |old(trace)| + 1 && old(trace) <= trace && (ok <==> !fails)
      ensures if ok then At(r, q, Releasing(t, p, e, held, true)) else At(r, q, Answered(Denial(e)))
    {
      hide Init, Legal, Run, FakeProvider.Valid, FakeProvider.Book, Denial, Reachable;
      Facts();
      PayRowFree(sys, r, p);
      ok := !fails;
      if ok {
        db.plock := db.plock[p := r];
        Step(r, Release(ReleasePayment));
      } else {
        if held { db.tlock := db.tlock - {t}; }
        Step(r, Release(ReleaseErr));
      }
    }

    // COMMIT of the release: both updates.
    method CommitRelease(r: ReqId, t: TicketId, p: PaymentId, e: ProviderError, held: bool, ghost q: Req)
      requires Valid() && At(r, q, Releasing(t, p, e, held, true))
      modifies this`trace, this`sys, db
      ensures Valid() && |trace| == |old(trace)| + 1 && old(trace) <= trace && At(r, q, Answered(Denial(e)))
      ensures p in old(db.payments) && db.payments == old(db.payments)[p := old(db.payments)[p].(status := System.Failed)]
      ensures held ==> t in old(db.tickets) && db.tickets == old(db.tickets)[t := FreeRow(old(db.tickets)[t])]
      ensures !held ==> db.tickets == old(db.tickets)
    {
      hide Init, Legal, Run, Reachable, FakeProvider.Valid, FakeProvider.Book, Denial, DoRelease, CanRelease, FreeRow;
      Facts();
      ReleaseReady(sys, r);
      ReleaseEnds(sys, r);
      db.CommitFailure(t, if held then Some(FreeRow(db.tickets[t])) else None, p, db.payments[p].(status := System.Failed));
      Step(r, Release(ReleaseCommit));
    }

    // ROLLBACK of the release: neither.
    method AbortRelease(r: ReqId, t: TicketId, p: PaymentId, e: ProviderError, held: bool, ghost q: Req)
      requires Valid() && At(r, q, Releasing(t, p, e, held, true))
      modifies this`trace, this`sys, db`tlock, db`plock
      ensures Valid() && |trace| == |old(trace)| + 1 && old(trace) <= trace && At(r, q, Answered(Denial(e)))
    {
      hide Init, Legal, Run, Reachable, FakeProvider.Valid, FakeProvider.Book, Denial, DoRelease, CanRelease;
      Facts();
      ReleaseReady(sys, r);
      ReleaseEnds(sys, r);
      db.Unlock(if held then Some(t) else None, p);
      Step(r, Release(ReleaseErr));
    }

    /**
     Gives the seat back after a failed charge and marks the payment failed, both or neither: the payment is
     failed and the row that matched, if one did, available; or the payment is pending as before. The second happens
     only if a statement fails or the ticket, purchased, is locked in a state passed through.
     */
    method ReleaseAfterFailedCharge(r: ReqId, t: TicketId, p: PaymentId, e: ProviderError, faults: set<Stmt>, ghost q: Req)
      returns (ghost matched: bool, ghost done: bool, ghost met: Sys)
      requires Valid() && At(r, q, ChargeFailed(t, p, e))
      modifies this`trace, this`sys, db, provider
      ensures Valid() && old(trace) <= trace && At(r, q, Answered(Denial(e)))
      ensures Passes(start, trace, |old(trace)|, met)
      ensures done <==>
        faults !! {FreeSeat, FailRow, CommitFailure} && !(IsBought(met, t) && t in met.tlock)
      ensures FreeSeat !in faults && !(IsBought(met, t) && t in met.tlock) ==> (matched <==> IsBought(met, t))
      ensures p in db.payments && db.payments[p].status == (if done then System.Failed else Pending)
      ensures done && matched ==> t in db.tickets && db.tickets[t].status.Available? && db.tickets[t].owner.None?
    {
      hide Valid, Denial, Passes;
      Others(r);
      StayPending(r, p);
      met := sys;
      ghost var before := trace;
      Shown();
      var held, ok := ReleaseRow(r, t, p, e, FreeSeat in faults, q);
      matched, done := held, false;
      if ok {
        Others(r);
        StayPending(r, p);
        ok := FailPayment(r, t, p, e, held, FailRow in faults, q);
        if ok { done := EndRelease(r, t, p, e, held, CommitFailure in faults, q); }
      }
      PassedThrough(before, |old(trace)|);
    }

    lemma Shown()
      requires Valid()
      ensures db.Shows(sys) && Legal(start, trace) && Run(start, trace) == sys
    {
      hide Init, Legal, Run, FakeProvider.Valid, FakeProvider.Book;
    }

    // Both rows are locked: COMMIT or roll back.
    method EndRelease(r: ReqId, t: TicketId, p: PaymentId, e: ProviderError, held: bool, fails: bool, ghost q: Req)
      returns (ghost done: bool)
      requires Valid() && At(r, q, Releasing(t, p, e, held, true))
      modifies this`trace, this`sys, db, provider
      ensures Valid() && old(trace) <= trace && At(r, q, Answered(Denial(e))) && (done <==> !fails)
      ensures p in db.payments && db.payments[p].status == (if done then System.Failed else Pending)
      ensures done && held ==> t in db.tickets && db.tickets[t].status.Available? && db.tickets[t].owner.None?
    {
      hide Valid, Denial;
      Others(r);
      StayPending(r, p);
      done := !fails;
      if fails {
        AbortRelease(r, t, p, e, held, q);
      } else {
        CommitRelease(r, t, p, e, held, q);
      }
    }

    // While the request has not answered, its payment is pending.
    lemma StayPending(r: ReqId, p: PaymentId)
      requires Valid() && r in sys.reqs && StillPending(sys.reqs[r].pc, p)
      ensures p in db.payments && db.payments[p].status.Pending?
    {
      hide Init, Legal, Run, FakeProvider.Valid, FakeProvider.Book, Reachable;
      Facts();
      PendingRow(sys, r);
    }

    /**
     Buys a ticket: claim, charge, then settle or give back. `end` is how it went, and decides status and body; it is
     read off what a state passed through had for sale, the statements that failed, and the provider's error.
     */
    method PurchaseTicket(r: ReqId, event: EventId, user: UserId, key: Option<Key>, faults: set<Stmt>, ghost q: Req)
      returns (answer: Answer, ghost end: PurchaseEnd, ghost seen: Sys)
      requires Valid() && At(r, q, Ready) && q.call == Purchase(event) && q.user == user && q.key == key
      modifies this`trace, this`sys, db, provider
      ensures Valid() && old(trace) <= trace && At(r, q, Answered(answer)) && Passes(start, trace, |old(trace)|, seen)
      ensures Sells(seen, event, faults, end) && Answers(end, answer)
      ensures if end.Paid? then PaidBy(sys, r, end.p, end.t, end.n, end.price) else NotCharged(sys, r)
    {
      hide Valid, PaidBy, NotCharged, Passes, FirstForSale, NoneForSale, Answers;
      var claim;
      claim, seen := ClaimTicket(r, event, user, faults, q);
      ghost var before := trace;
      if claim.Unsold? {
        Uncharged(r);
        end := if claim.answer.status == 409 then NoSeat else NoClaim;
        Unsolds(claim.answer, end);
        return claim.answer, end, seen;
      }
      answer, end := FinishSale(r, claim.t, claim.qr, claim.price, claim.p, key, faults, q);
      SoldSells(seen, event, faults, claim, end);
      PassesOn(start, before, trace, |old(trace)|, seen);
    }

    // The charge of a committed claim, and what follows it.
    method FinishSale(r: ReqId, t: TicketId, qr: Qr, price: int, p: PaymentId, key: Option<Key>, faults: set<Stmt>,
                      ghost q: Req)
      returns (answer: Answer, ghost end: PurchaseEnd)
      requires Valid() && At(r, q, Claimed(t, p, price)) && qr == Qr(t) && q.key == key
      modifies this`trace, this`sys, db, provider
      ensures Valid() && old(trace) <= trace && At(r, q, Answered(answer)) && Answers(end, answer)
      ensures end.NoMoney? || (end.Paid? && end.t == t && end.p == p && end.price == price)
      ensures if end.Paid? then PaidBy(sys, r, end.p, end.t, end.n, end.price) else NotCharged(sys, r)
    {
      hide Valid, PaidBy, NotCharged, Passes;
      Others(r);
      var reply := ChargeCard(r, t, p, price, key, q);
      if reply.NoReply? {
        ghost var matched, done, met := ReleaseAfterFailedCharge(r, t, p, reply.error, faults, q);
        Uncharged(r);
        end := NoMoney(reply.error);
        match reply.error {
          case CardDeclined => return Text(402, "Card declined"), end;
          case Unavailable => return Text(502, "Payment provider unavailable"), end;
          case OtherError => return Text(502, "Payment failed"), end;
        }
      }
      Others(r);
      SettlePayment(r, t, p, price, reply.charge.n, SettleRow in faults, q);
      end := Paid(t, p, reply.charge.n, price);
      return Answer(200, JsonBody(PurchaseBody(t, qr, reply.charge.n, price))), end;
    }

    lemma Uncharged(r: ReqId)
      requires Valid() && r in sys.reqs && sys.reqs[r].pc.Answered? && sys.reqs[r].pc.answer.status != 200
      ensures NotCharged(sys, r)
    {
      hide Init, Legal, Run, FakeProvider.Valid, FakeProvider.Book, Reachable;
      Facts();
      RejectedNotCharged(sys, r);
    }

    // ---------------------------------------------------------------- the cancellation

    // SELECT status, event_id: the first statement, which fixes what the transaction can see.
    method ReadTicket(r: ReqId, t: TicketId, user: UserId, n: nat, captured: Option<Found>, ghost q: Req)
      returns (reply: Option<Answer>, row: Option<Ticket>, payments: map<PaymentId, Payment>, now: nat, ghost snap: Snapshot)
      requires Valid() && At(r, q, Attempt(n, captured)) && q.call.Cancellation? && q.call.ticket == t && q.user == user
      modifies this`trace, this`sys
      ensures Valid() && |trace| == |old(trace)| + 1 && old(trace) <= trace
      ensures reply.Some? ==> At(r, q, Answered(reply.value)) && Rejection(old(sys), user, t, reply.value)
      ensures reply.None? ==> MayCancel(old(sys), user, t) && row == Some(old(sys).tickets[t])
                              && At(r, q, Snapped(n, captured, snap)) && snap.row == row.value
                              && snap.pick == NewestBelow(payments, t, now)
    {
      hide Init, Legal, Run, FakeProvider.Valid, FakeProvider.Book;
      row := if t in db.tickets && db.tickets[t].owner == Some(user) then Some(db.tickets[t]) else None;
      payments, now, snap := db.payments, db.now, NO_SNAPSHOT;
      if row.None? {
        reply := Some(Text(404, "Ticket not found or not owned by caller"));
      } else if !row.value.status.Bought? {
        reply := Some(Text(409, "Only purchased tickets can be cancelled"));
      } else {
        reply, snap := None, TakeSnapshot(sys, t);
      }
      Step(r, Cancel(CancelRead));
    }

    // UPDATE tickets: another transaction's newer version of the row is a serialization failure.
    method LockForCancel(r: ReqId, t: TicketId, row: Ticket, faults: AttemptFaults, n: nat, captured: Option<Found>,
                         ghost snap: Snapshot, ghost q: Req)
      returns (ok: bool, error: Tx.Error)
      requires Valid() && At(r, q, Snapped(n, captured, snap)) && q.call.Cancellation? && q.call.ticket == t && snap.row == row
      modifies this`trace, this`sys, db`tlock
      ensures Valid() && old(trace) <= trace
      ensures ok ==> At(r, q, Cancelling(n, captured, snap, None))
      ensures !ok ==> At(r, q, Snapped(n, captured, snap))
      ensures ok <==> faults.update.None? && t in old(sys).tickets && old(sys).tickets[t].ver == row.ver && t !in old(sys).tlock
      ensures !ok ==>
        error == if faults.update.Some? then faults.update.value
                 else if t in old(sys).tickets && old(sys).tickets[t].ver != row.ver then Tx.PgError("40001")
                 else faults.wait
    {
      hide Init, Legal, Run, FakeProvider.Valid, FakeProvider.Book;
      var conflict := t in db.tickets && db.tickets[t].ver != row.ver;
      error := if faults.update.Some? then faults.update.value
               else if conflict then Tx.PgError("40001") else faults.wait;
      ok := faults.update.None? && t in db.tickets && !conflict && t !in db.tlock;
      if ok {
        db.tlock := db.tlock[t := r];
        Step(r, Cancel(CancelLock));
      }
    }

    method DrawForCancel(r: ReqId, t: TicketId, n: nat, captured: Option<Found>, ghost snap: Snapshot, ghost q: Req)
      returns (id: nat)
      requires Valid() && At(r, q, Cancelling(n, captured, snap, None)) && q.call.Cancellation? && q.call.ticket == t
      modifies this`trace, this`sys, db`nextId
      ensures Valid() && |trace| == |old(trace)| + 1 && old(trace) <= trace
      ensures At(r, q, Cancelling(n, captured, snap, Some(id)))
    {
      hide Init, Legal, Run, Reachable, FakeProvider.Valid, FakeProvider.Book;
      Facts();
      LockTheorems.DrawNeverWaits(sys, r);
      id := db.nextId;
      db.nextId := db.nextId + 1;
      Step(r, Cancel(CancelAlloc));
    }

    // ByTicket, on the transaction's snapshot; the captured variable outlives the attempt.
    method PickPayment(r: ReqId, t: TicketId, payments: map<PaymentId, Payment>, now: nat, id: nat, n: nat,
                       captured: Option<Found>, ghost snap: Snapshot, ghost q: Req)
      returns (payment: Option<Found>)
      requires Valid() && At(r, q, Cancelling(n, captured, snap, Some(id))) && q.call.Cancellation?
      requires snap.pick == NewestBelow(payments, t, now)
      modifies this`trace, this`sys
      ensures Valid() && |trace| == |old(trace)| + 1 && old(trace) <= trace
      ensures At(r, q, CancelReady(n, payment, snap, id))
      ensures var found := NewestBelow(payments, t, now);
        payment == if found.Some? && found.value.row.status == Succeeded then found else captured
    {
      hide Init, Legal, Run, FakeProvider.Valid, FakeProvider.Book;
      var found := NewestBelow(payments, t, now);
      NewestWasSettled(payments, t, now);
      payment := captured;
      if found.Some? && !found.value.row.status.Refunded? {
        payment := found;
      }
      Step(r, Cancel(CancelPick));
    }

    // COMMIT: ticket, log and outbox row together.
    method CommitCancel(r: ReqId, t: TicketId, user: UserId, row: Ticket, reason: string, id: nat, n: nat,
                        payment: Option<Found>, ghost snap: Snapshot, ghost q: Req)
      requires Valid() && At(r, q, CancelReady(n, payment, snap, id))
      requires q.call == Cancellation(t, reason) && q.user == user && snap.row == row
      modifies this`trace, this`sys, db
      ensures Valid() && |trace| == |old(trace)| + 1 && old(trace) <= trace && t !in db.tlock
      ensures At(r, q, AfterCommit(payment))
      ensures db.logs == old(db.logs) + [CancelLog(t, user, row.event, reason, r)]
      ensures Announced(db.tickets, db.logs, db.outbox, r, t, user, row.event, reason)
    {
      hide Init, Legal, Run, Reachable, FakeProvider.Valid, FakeProvider.Book, CanCancel, DoCancel, Announced;
      Facts();
      CancelReadyToCommit(sys, r, db.uuids);
      CancelCommitted(sys, r, db.uuids);
      var mid := db.uuids;
      var now := db.tickets[t];
      db.CommitCancellation(
        t, now.(status := Available, owner := None, boughtAt := None, qr := None, ver := now.ver + 1),
        CancelLog(t, user, row.event, reason, r), id, Cancelled(mid, t, row.event, user, reason));
      NowAnnounced(db.tickets, db.logs, db.outbox, r, t, user, row.event, reason, id, mid);
      Step(r, Cancel(CancelCommit(mid)));
    }

    // ROLLBACK of an attempt, after a retryable error or another one.
    method AbortCancel(r: ReqId, t: TicketId, n: nat, captured: Option<Found>, retry: bool, ghost q: Req, ghost pc: Pc)
      requires Valid() && At(r, q, pc) && InAttempt(pc) && pc.n == n && pc.captured == captured
      requires q.call.Cancellation? && q.call.ticket == t
      modifies this`trace, this`sys, db`tlock
      ensures Valid() && |trace| == |old(trace)| + 1 && old(trace) <= trace
      ensures At(r, q, AfterAbort(n, captured, retry))
    {
      hide Init, Legal, Run, Reachable, FakeProvider.Valid, FakeProvider.Book, DoCancel;
      Facts();
      OwnLock(sys, r);
      CancelAborted(sys, r, retry);
      if t in db.tlock && db.tlock[t] == r { db.tlock := db.tlock - {t}; }
      Step(r, Cancel(if retry then CancelRetry else CancelErr));
    }

    // INSERT the log entry and the outbox row, read the payment, COMMIT.
    method WriteCancel(r: ReqId, t: TicketId, user: UserId, reason: string, row: Ticket, payments: map<PaymentId, Payment>,
                       now: nat, faults: AttemptFaults, n: nat, captured: Option<Found>, ghost snap: Snapshot, ghost q: Req)
      returns (end: AttemptEnd, payment: Option<Found>)
      requires Valid() && At(r, q, Cancelling(n, captured, snap, None)) && q.call == Cancellation(t, reason) && q.user == user
      requires snap.row == row && snap.pick == NewestBelow(payments, t, now)
      modifies this`trace, this`sys, db, provider
      ensures Valid() && old(trace) <= trace
      ensures end == if faults.commit.Some? then Errs(faults.commit.value) else Commits
      ensures end.Commits? ==>
        At(r, q, AfterCommit(payment)) && Announced(db.tickets, db.logs, db.outbox, r, t, user, row.event, reason)
      ensures end.Errs? ==> At(r, q, AfterAbort(n, payment, Tx.IsRetryable(end.error)))
    {
      hide Valid, NewestBelow, Announced, Tx.IsRetryable;
      var id := DrawForCancel(r, t, n, captured, snap, q);
      Others(r);
      payment := PickPayment(r, t, payments, now, id, n, captured, snap, q);
      Others(r);
      if faults.commit.Some? {
        AbortCancel(r, t, n, payment, Tx.IsRetryable(faults.commit.value), q, CancelReady(n, payment, snap, id));
        return Errs(faults.commit.value), payment;
      }
      CommitCancel(r, t, user, row, reason, id, n, payment, snap, q);
      return Commits, payment;
    }

    /**
     One run of the cancellation closure inside its transaction: ticket freed, log entry and event all there, or
     none of them and no lock. Only the captured payment outlives an attempt that was rolled back. What the attempt
     read, in state `seen`, decides between a commit and a rejection; an error is one it was given, or the row was
     locked or changed in another state passed through.
     */
    method CancelOnce(r: ReqId, t: TicketId, user: UserId, reason: string, faults: AttemptFaults, n: nat,
                      captured: Option<Found>, ghost q: Req)
      returns (end: AttemptEnd, payment: Option<Found>, ghost seen: Sys)
      requires Valid() && At(r, q, Attempt(n, captured)) && q.call == Cancellation(t, reason) && q.user == user
      modifies this`trace, this`sys, db, provider
      ensures Valid() && old(trace) <= trace && Passes(start, trace, |old(trace)|, seen)
      ensures AttemptEnds(seen, user, t, faults, end)
      ensures end.Commits? ==>
        At(r, q, AfterCommit(payment)) && Announced(db.tickets, db.logs, db.outbox, r, t, user, seen.tickets[t].event, reason)
      ensures end.Rejects? ==> At(r, q, Answered(end.answer))
      ensures end.Errs? ==> At(r, q, AfterAbort(n, payment, Tx.IsRetryable(end.error)))
      ensures end.Errs? ==> Excused(start, trace, |old(trace)|, t, faults, end.error)
      ensures !end.Commits? ==> !Logged(db.logs, r) && NoLocks(db.tlock, r)
    {
      hide Valid, Announced, Logged, NoLocks, Passes, Contended, MayCancel, Rejection, Tx.IsRetryable;
      ghost var met;
      end, payment, seen, met := TryCancel(r, t, user, reason, faults, n, captured, q);
      if !end.Commits? {
        if end.Rejects? { RejectionStatus(seen, user, t, end); }
        NothingLeft(r);
      }
      if end.Errs? { ExcusedBy(start, trace, |old(trace)|, t, faults, end.error, seen, met); }
    }

    lemma NothingLeft(r: ReqId)
      requires Valid() && r in sys.reqs
      requires sys.reqs[r].pc.Attempt? || (sys.reqs[r].pc.Answered? && sys.reqs[r].pc.answer.status != 200)
      ensures !Logged(db.logs, r) && NoLocks(db.tlock, r)
    {
      hide Init, Legal, Run, FakeProvider.Valid, FakeProvider.Book, Reachable;
      Facts();
      RolledBack(sys, r);
    }

    method TryCancel(r: ReqId, t: TicketId, user: UserId, reason: string, faults: AttemptFaults, n: nat,
                     captured: Option<Found>, ghost q: Req)
      returns (end: AttemptEnd, payment: Option<Found>, ghost seen: Sys, ghost met: Sys)
      requires Valid() && At(r, q, Attempt(n, captured)) && q.call == Cancellation(t, reason) && q.user == user
      modifies this`trace, this`sys, db, provider
      ensures Valid() && old(trace) <= trace
      ensures Passes(start, trace, |old(trace)|, seen) && Passes(start, trace, |old(trace)|, met)
      ensures AttemptEnds(seen, user, t, faults, end)
      ensures end.Commits? ==>
        At(r, q, AfterCommit(payment)) && Announced(db.tickets, db.logs, db.outbox, r, t, user, seen.tickets[t].event, reason)
      ensures end.Rejects? ==> At(r, q, Answered(end.answer))
      ensures end.Errs? ==> At(r, q, AfterAbort(n, payment, Tx.IsRetryable(end.error)))
      ensures end.Errs? ==> Given(faults, end.error) || (OfRow(faults, end.error) && Contended(seen, met, t))
    {
      hide Valid, TakeSnapshot, NewestBelow, Announced, Passes, MayCancel, Rejection, Contended, Tx.IsRetryable;
      payment := captured;
      Others(r);
      seen, met := sys, sys;
      ghost var before, from := trace, |old(trace)|;
      if faults.begin.Some? {
        AbortCancel(r, t, n, payment, Tx.IsRetryable(faults.begin.value), q, Attempt(n, payment));
        PassedThrough(before, from);
        return Errs(faults.begin.value), payment, seen, met;
      }
      var reply, row, payments, now, snap := ReadTicket(r, t, user, n, payment, q);
      if reply.Some? {
        PassedThrough(before, from);
        return Rejects(reply.value), payment, seen, met;
      }
      ghost var at := |trace|;
      end, payment, met := UpdateAndWrite(r, t, user, reason, row.value, payments, now, faults, n, payment, snap, q);
      PassedThrough(before, from);
      PassesEarlier(start, trace, from, at, met);
      RowTaken(seen, met, user, t, row.value);
    }

    // The UPDATE of the ticket row and what follows it.
    method UpdateAndWrite(r: ReqId, t: TicketId, user: UserId, reason: string, row: Ticket, payments: map<PaymentId,
                          Payment>,
                          now: nat, faults: AttemptFaults, n: nat, captured: Option<Found>, ghost snap: Snapshot, ghost q: Req)
      returns (end: AttemptEnd, payment: Option<Found>, ghost met: Sys)
      requires Valid() && At(r, q, Snapped(n, captured, snap)) && q.call == Cancellation(t, reason) && q.user == user
      requires snap.row == row && snap.pick == NewestBelow(payments, t, now)
      modifies this`trace, this`sys, db, provider
      ensures Valid() && old(trace) <= trace && !end.Rejects? && Passes(start, trace, |old(trace)|, met)
      ensures end.Commits? ==> faults.update.None? && faults.commit.None?
      ensures end.Commits? ==>
        At(r, q, AfterCommit(payment)) && Announced(db.tickets, db.logs, db.outbox, r, t, user, row.event, reason)
      ensures end.Errs? ==> At(r, q, AfterAbort(n, payment, Tx.IsRetryable(end.error)))
      ensures end.Errs? ==> Given(faults, end.error) || (OfRow(faults, end.error) && RowGone(met, t, row))
    {
      hide Valid, NewestBelow, Announced, Passes, Tx.IsRetryable;
      Others(r);
      met := sys;
      ghost var before := trace;
      var ok, error := LockForCancel(r, t, row, faults, n, captured, snap, q);
      if !ok {
        AbortCancel(r, t, n, captured, Tx.IsRetryable(error), q, Snapped(n, captured, snap));
        end, payment := Errs(error), captured;
      } else {
        Others(r);
        end, payment := WriteCancel(r, t, user, reason, row, payments, now, faults, n, captured, snap, q);
      }
      PassedThrough(before, |old(trace)|);
    }

    /**
     The retry loop around it, deciding as InSerializableTx does: at most three attempts, retried only after a
     serialization failure or a deadlock. `ends` is how each attempt went, `seen` what the last one read.
     */
    method CancelInTx(r: ReqId, t: TicketId, user: UserId, reason: string, aborts: seq<AttemptFaults>, ghost q: Req)
      returns (reply: Option<Answer>, payment: Option<Found>, ghost ends: seq<AttemptEnd>, ghost seen: Sys)
      requires Valid() && At(r, q, Attempt(1, None)) && q.call == Cancellation(t, reason) && q.user == user
      requires |aborts| == Tx.MAX_TX_ATTEMPTS
      modifies this`trace, this`sys, db, provider
      ensures Valid() && old(trace) <= trace && Passes(start, trace, |old(trace)|, seen)
      ensures 1 <= |ends| <= |aborts| && Retries(ends)
      ensures AttemptEnds(seen, user, t, aborts[|ends| - 1], Last(ends)) && Replies(Last(ends), reply)
      ensures AllExcused(start, trace, |old(trace)|, t, aborts, ends)
      ensures reply.None? ==>
        At(r, q, AfterCommit(payment)) && Announced(db.tickets, db.logs, db.outbox, r, t, user, seen.tickets[t].event, reason)
      ensures reply.Some? ==> At(r, q, Answered(reply.value))
    {
      hide Valid, Announced, Logged, NoLocks, Passes, Excused, AllExcused, AttemptEnds, Tx.IsRetryable, Tx.Conflict;
      payment, ends, seen := None, [], sys;
      var attempt := 1;
      NoneExcused(start, trace, |trace|, t, aborts);
      while attempt <= Tx.MAX_TX_ATTEMPTS
        invariant Valid() && old(trace) <= trace && 1 <= attempt <= Tx.MAX_TX_ATTEMPTS + 1
        invariant At(r, q, if attempt <= Tx.MAX_TX_ATTEMPTS then Attempt(attempt, payment)
                           else Answered(Text(500, "Failed to cancel ticket")))
        invariant |ends| == attempt - 1 && forall i | 0 <= i < |ends| :: ends[i].Errs? && Tx.Conflict(ends[i].error)
        invariant AllExcused(start, trace, |old(trace)|, t, aborts, ends)
        invariant ends != [] ==> Passes(start, trace, |old(trace)|, seen)
                                 && AttemptEnds(seen, user, t, aborts[|ends| - 1], Last(ends))
      {
        ghost var before := trace;
        var end;
        end, payment, seen := CancelOnce(r, t, user, reason, aborts[attempt - 1], attempt, payment, q);
        PassesEarlier(start, trace, |old(trace)|, |before|, seen);
        OneMoreEnd(start, before, trace, |old(trace)|, t, aborts, ends, end);
        ends := ends + [end];
        match end {
          case Commits =>
            return None, payment, ends, seen;
          case Rejects(answer) => return Some(answer), payment, ends, seen;
          case Errs(error) =>
            Conflicting(error);
            if !Tx.IsRetryable(error) {
              return Some(Text(500, "Failed to cancel ticket")), payment, ends, seen;
            }
        }
        attempt := attempt + 1;
      }
      return Some(Text(500, "Failed to cancel ticket")), payment, ends, seen;
    }

    // ---------------------------------------------------------------- the refund

    method RefundPayment(r: ReqId, payment: Found, ghost q: Req) returns (reply: Reply)
      requires Valid() && At(r, q, System.Refunding(payment))
      modifies this`trace, this`sys, provider
      ensures Valid() && |trace| == |old(trace)| + 1 && old(trace) <= trace && !reply.ChargeReply?
      ensures reply.RefundReply? ==> At(r, q, Marking(payment, reply.n))
      ensures reply.NoReply? ==> At(r, q, Answered(Answer(200, JsonBody(CancelBody(Some(RefundPending))))))
      ensures reply.NoReply? <==> old(provider.refundErr).Some?
      ensures reply.RefundReply? ==> reply.n !in old(provider.Book()).refunds
      ensures reply.RefundReply? ==>
        provider.Book().refunds ==
        old(provider.Book()).refunds[reply.n := RefundRequest(payment.row.intent, payment.row.amount, payment.id)]
    {
      hide Init, Legal, Run, FakeProvider.Valid, FakeProvider.Book;
      reply := provider.Refund(RefundRequest(payment.row.intent, payment.row.amount, payment.id));
      if reply.NoReply? {
        Step(r, Refund(RefundErr));
      } else {
        Step(r, Refund(RefundOk));
      }
    }

    /** markRefunded: a guarded update in a transaction of its own, of a row nobody has locked; a failure is only logged. */
    method RecordRefund(r: ReqId, payment: Found, refund: nat, fails: bool, ghost q: Req)
      requires Valid() && At(r, q, Marking(payment, refund)) && q.call.Cancellation?
      modifies this`trace, this`sys, db`payments
      ensures Valid() && |trace| == |old(trace)| + 1 && old(trace) <= trace
      ensures At(r, q, Answered(Answer(200, JsonBody(CancelBody(Some(RefundIssued(refund)))))))
      ensures payment.id in old(db.payments)
      ensures var row := old(db.payments)[payment.id];
        db.payments == if !fails && row.status.Succeeded?
                       then old(db.payments)[payment.id := row.(status := Refunded, refund := Some(refund))]
                       else old(db.payments)
    {
      hide Init, Legal, Run, FakeProvider.Valid, FakeProvider.Book, Reachable;
      Facts();
      FoundRow(sys, r);
      PayRowFree(sys, r, payment.id);
      if fails {
        Step(r, Refund(RefundMarkErr));
      } else {
        var marked := db.MarkRefunded(payment.id, refund);
        Step(r, Refund(RefundMark));
      }
    }

    /**
     Cancels a ticket in one retried serializable transaction, then refunds outside it. `ends` is how the attempts went
     and `seen` what the last one read; they decide the status. `refund` is the provider's reply, if it was asked.
     */
    method CancelTicket(r: ReqId, t: TicketId, user: UserId, reason: string, faults: set<Stmt>,
                        aborts: seq<AttemptFaults>, ghost q: Req)
      returns (answer: Answer, ghost ends: seq<AttemptEnd>, ghost seen: Sys, ghost refund: Option<Reply>)
      requires Valid() && At(r, q, Attempt(1, None)) && q.call == Cancellation(t, reason) && q.user == user
      requires |aborts| == Tx.MAX_TX_ATTEMPTS
      modifies this`trace, this`sys, db, provider
      ensures Valid() && old(trace) <= trace && At(r, q, Answered(answer)) && Passes(start, trace, |old(trace)|, seen)
      ensures Retries(ends) && AllExcused(start, trace, |old(trace)|, t, aborts, ends)
      ensures answer.status in {200, 404, 409, 500}
      ensures answer.status == 404 <==> Last(ends).Rejects? && !(t in seen.tickets && seen.tickets[t].owner == Some(user))
      ensures answer.status == 409 <==>
        Last(ends).Rejects? && t in seen.tickets && seen.tickets[t].owner == Some(user) && seen.tickets[t].status != Bought
      ensures answer.status == 500 <==> Last(ends).Errs?
      ensures answer.status == 200 <==> Last(ends).Commits?
      ensures answer.status == 200 <==> Logged(db.logs, r)
      ensures answer.status == 200 ==> MayCancel(seen, user, t) && answer.content == JsonBody(CancelBody(RefundOf(refund)))
      ensures answer.status != 200 ==> answer.content == TextBody(Words(answer.status))
    {
      hide Valid, Retries, AllExcused, Announced, Logged, NoLocks, Passes;
      var reply, payment;
      reply, payment, ends, seen := CancelInTx(r, t, user, reason, aborts, q);
      refund := None;
      if reply.Some? {
        NothingLeft(r);
        return reply.value, ends, seen, refund;
      }
      AnnouncedIsLogged(db.tickets, db.logs, db.outbox, r, t, user, seen.tickets[t].event, reason);
      if payment.None? {
        return Answer(200, JsonBody(CancelBody(None))), ends, seen, refund;
      }
      ghost var before := trace;
      ghost var answered;
      answer, answered := GiveRefund(r, payment.value, MarkRow in faults, q);
      refund := Some(answered);
      PassesOn(start, before, trace, |old(trace)|, seen);
      ExcusedOn(start, before, trace, |old(trace)|, t, aborts, ends);
    }

    // The refund of a committed cancellation: pending or issued, the answer is 200.
    method GiveRefund(r: ReqId, payment: Found, fails: bool, ghost q: Req) returns (answer: Answer, ghost reply: Reply)
      requires Valid() && At(r, q, System.Refunding(payment)) && q.call.Cancellation? && Logged(db.logs, r)
      modifies this`trace, this`sys, db, provider
      ensures Valid() && old(trace) <= trace && At(r, q, Answered(answer))
      ensures !reply.ChargeReply? && answer == Answer(200, JsonBody(CancelBody(RefundOf(Some(reply))))) && Logged(db.logs, r)
    {
      hide Valid;
      ghost var i :| 0 <= i < |db.logs| && db.logs[i].req == r;
      Others(r);
      var refund := RefundPayment(r, payment, q);
      if refund.NoReply? {
        return Answer(200, JsonBody(CancelBody(Some(RefundPending)))), refund;
      }
      Others(r);
      RecordRefund(r, payment, refund.n, fails, q);
      return Answer(200, JsonBody(CancelBody(Some(RefundIssued(refund.n))))), refund;
    }

    // ---------------------------------------------------------------- the idempotency gate

    // The handler behind the middleware.
    method Handle(r: ReqId, user: UserId, call: System.Call, key: Option<Key>, faults: set<Stmt>,
                  aborts: seq<AttemptFaults>, ghost q: Req)
      returns (answer: Answer)
      requires Valid() && At(r, q, Entry(call)) && q.call == call && q.user == user && q.key == key
      requires |aborts| == Tx.MAX_TX_ATTEMPTS
      modifies this`trace, this`sys, db, provider
      ensures Valid() && old(trace) <= trace && At(r, q, Answered(answer))
      ensures call.Purchase? ==> (answer.status == 200 <==> !NotCharged(sys, r))
      ensures call.Cancellation? ==> (answer.status == 200 <==> Logged(db.logs, r))
    {
      hide Valid, Logged, Passes, Sells, AllExcused, Retries;
      match call
      case Purchase(event) =>
        ghost var end, seen;
        answer, end, seen := PurchaseTicket(r, event, user, key, faults, q);
      case Cancellation(t, reason) =>
        ghost var ends, seen, refund;
        answer, ends, seen, refund := CancelTicket(r, t, user, reason, faults, aborts, q);
    }

    // The insert: the handler is entered if it wins, or if the request has no key.
    method Reserve(r: ReqId, user: UserId, key: Option<Key>, body: Body, ghost q: Req) returns (mine: bool)
      requires Valid() && At(r, q, Arrived) && q.user == user && q.key == key && q.body == body
      modifies this`trace, this`sys, db`keys
      ensures Valid() && |trace| == |old(trace)| + 1 && old(trace) <= trace
      ensures mine <==> key.None? || key.value !in old(db.keys)
      ensures db.keys == if mine && key.Some? then old(db.keys)[key.value := KeyRow(user, body, None)] else old(db.keys)
      ensures At(r, q, if mine then Entry(q.call) else KeyTaken)
    {
      hide Init, Legal, Run, FakeProvider.Valid, FakeProvider.Book, Entry;
      mine := true;
      if key.Some? { mine := db.InsertKey(key.value, user, body); }
      Step(r, Gate(GateAct.Reserve));
    }

    method Refuse(r: ReqId, ghost q: Req, ghost g: GateAct) returns (answer: Answer)
      requires Valid() && At(r, q, if g.ReserveErr? then Arrived else KeyTaken) && q.key.Some? && (g.ReserveErr? || g.LoadErr?)
      modifies this`trace, this`sys
      ensures Valid() && |trace| == |old(trace)| + 1 && old(trace) <= trace && At(r, q, Done(answer, Refused))
      ensures answer == Answer(500, TextBody("Could not process request"))
    {
      hide Init, Legal, Run, FakeProvider.Valid, FakeProvider.Book;
      answer := Text(500, "Could not process request");
      Step(r, Gate(g));
    }

    // What a request is told whose key was taken: replay, 422, 409, or 500 if the key is somebody else's.
    method Existing(r: ReqId, user: UserId, key: Key, body: Body, ghost q: Req) returns (answer: Answer, via: Via)
      requires Valid() && At(r, q, KeyTaken) && q.user == user && q.key == Some(key) && q.body == body
      modifies this`trace, this`sys
      ensures Valid() && |trace| == |old(trace)| + 1 && old(trace) <= trace && At(r, q, Done(answer, via)) && !via.Handled?
      ensures Told(old(sys).keys, key, user, body, answer, via)
    {
      hide Init, Legal, Run, FakeProvider.Valid, FakeProvider.Book;
      var existing := db.LoadKey(key, user);
      via := Refused;
      if existing.None? {
        answer := Text(500, "Could not process request");
      } else if existing.value.hash != body {
        answer := Text(422, "Idempotency-Key was already used with a different request body");
      } else if existing.value.response.None? {
        answer := Text(409, "A request with this Idempotency-Key is still in progress, retry shortly");
      } else {
        answer := Answer(existing.value.response.value.status, JsonBody(existing.value.response.value.value));
        via := Replayed;
      }
      Step(r, Gate(Load));
    }

    // After the handler: a server error releases the key, anything else is stored against it.
    method FinishKey(r: ReqId, key: Option<Key>, answer: Answer, fails: bool, ghost q: Req)
      requires Valid() && At(r, q, Answered(answer)) && q.key == key
      modifies this`trace, this`sys, db`keys
      ensures Valid() && |trace| == |old(trace)| + 1 && old(trace) <= trace && At(r, q, Done(answer, Handled))
      ensures key.None? ==> db.keys == old(db.keys)
      ensures key.Some? ==> Finishes(old(db.keys), db.keys, key.value, answer, fails)
    {
      hide Init, Legal, Run, FakeProvider.Valid, FakeProvider.Book, Reachable;
      Facts();
      KeyInFlight(sys, r);
      if key.Some? && !fails {
        if answer.status >= 500 {
          db.ReleaseKey(key.value);
        } else {
          var stored := db.CompleteKey(key.value, answer.status, answer.content);
        }
      }
      Step(r, Gate(Finish(!fails)));
    }

    // The gate in front of the handler: the request enters it, or is answered here.
    // It enters exactly when it has no key or the insert finds the key free, in state `taken`; otherwise `seen` is what it loads.
    method Enter(r: ReqId, user: UserId, key: Option<Key>, body: Body, faults: set<Stmt>, ghost q: Req)
      returns (mine: bool, answer: Answer, via: Via, ghost taken: Sys, ghost seen: Sys)
      requires Valid() && At(r, q, Arrived) && q.user == user && q.key == key && q.body == body
      modifies this`trace, this`sys, db, provider
      ensures Valid() && old(trace) <= trace
      ensures Passes(start, trace, |old(trace)|, taken) && Passes(start, trace, |old(trace)|, seen)
      ensures mine <==> Admits(taken, key, faults)
      ensures At(r, q, if mine then Entry(q.call) else Done(answer, via)) && !via.Handled?
      ensures !mine ==> TurnedAway(seen, key.value, user, body, faults, answer, via)
    {
      hide Valid, Entry, Passes, Told;
      answer, via := Text(500, ""), Refused;
      taken, seen := sys, sys;
      ghost var before := trace;
      Shown();
      if key.Some? && InsertKeyRow in faults {
        answer := Refuse(r, q, ReserveErr);
        mine := false;
      } else {
        mine := Reserve(r, user, key, body, q);
        if !mine {
          ghost var rest := trace;
          seen, answer, via := Lookup(r, user, key.value, body, faults, q);
          PassesEarlier(start, trace, |before|, |rest|, seen);
        }
      }
      PassedThrough(before, |before|);
    }

    // The load after a lost insert.
    method Lookup(r: ReqId, user: UserId, key: Key, body: Body, faults: set<Stmt>, ghost q: Req)
      returns (ghost seen: Sys, answer: Answer, via: Via)
      requires Valid() && At(r, q, KeyTaken) && q.user == user && q.key == Some(key) && q.body == body
      modifies this`trace, this`sys, db, provider
      ensures Valid() && old(trace) <= trace && At(r, q, Done(answer, via)) && !via.Handled?
      ensures Passes(start, trace, |old(trace)|, seen)
      ensures if ReadKeyRow in faults then via.Refused? && answer == Answer(500, TextBody("Could not process request"))
              else Told(seen.keys, key, user, body, answer, via)
    {
      hide Valid, Passes, Told;
      Others(r);
      seen := sys;
      ghost var before := trace;
      if ReadKeyRow in faults {
        answer := Refuse(r, q, LoadErr);
        via := Refused;
      } else {
        answer, via := Existing(r, user, key, body, q);
      }
      PassedThrough(before, |old(trace)|);
    }

    // run: the handler, then the key.
    method RunHandler(r: ReqId, user: UserId, call: System.Call, key: Option<Key>, faults: set<Stmt>,
                      aborts: seq<AttemptFaults>, ghost q: Req)
      returns (answer: Answer)
      requires Valid() && At(r, q, Entry(call)) && q.call == call && q.user == user && q.key == key
      requires |aborts| == Tx.MAX_TX_ATTEMPTS
      modifies this`trace, this`sys, db, provider
      ensures Valid() && old(trace) <= trace && At(r, q, Done(answer, Handled))
      ensures call.Cancellation? && answer.status == 200 ==> Logged(db.logs, r)
      ensures call.Purchase? && answer.status == 200 ==> !NotCharged(sys, r)
    {
      hide Valid, Entry, NotCharged;
      answer := Handle(r, user, call, key, faults, aborts, q);
      ghost var before := trace;
      StillCharged(before, r);
      Others(r);
      FinishKey(r, key, answer, WriteKeyRow in faults, q);
      StillCharged(before, r);
    }

    // Steps taken since a prefix of the trace undo no charge.
    lemma StillCharged(before: seq<Step>, r: ReqId)
      requires Valid() && before <= trace
      ensures Legal(start, before) && (before == trace ==> Run(start, before) == sys)
      ensures !NotCharged(Run(start, before), r) ==> !NotCharged(sys, r)
    {
      hide Init, FakeProvider.Valid, FakeProvider.Book;
      LegalPrefix(start, before, trace);
      if !NotCharged(Run(start, before), r) {
        var s := Run(start, before);
        var p :| p in s.payments && p in s.hist.claims && s.hist.claims[p] == r && p in s.hist.paid;
        PaidAlong(start, before, trace, p);
      }
    }

    // Through the gate, and through the handler if the gate lets the request in.
    method Pass(r: ReqId, user: UserId, call: System.Call, key: Option<Key>, body: Body, faults: set<Stmt>,
                aborts: seq<AttemptFaults>, ghost q: Req)
      returns (answer: Answer, via: Via, ghost taken: Sys, ghost seen: Sys)
      requires Valid() && At(r, q, Arrived) && q.call == call && q.user == user && q.key == key && q.body == body
      requires |aborts| == Tx.MAX_TX_ATTEMPTS
      modifies this`trace, this`sys, db, provider
      ensures Valid() && old(trace) <= trace && At(r, q, Done(answer, via))
      ensures Passes(start, trace, |old(trace)|, taken) && Passes(start, trace, |old(trace)|, seen)
      ensures via.Handled? <==> Admits(taken, key, faults)
      ensures !via.Handled? ==> TurnedAway(seen, key.value, user, body, faults, answer, via)
      ensures via.Handled? && call.Cancellation? && answer.status == 200 ==> Logged(db.logs, r)
      ensures via.Handled? && call.Purchase? && answer.status == 200 ==> !NotCharged(sys, r)
    {
      hide Valid, Entry, Logged, NotCharged, Passes, TurnedAway;
      var mine;
      mine, answer, via, taken, seen := Enter(r, user, key, body, faults, q);
      if mine {
        ghost var before := trace;
        answer := RunHandler(r, user, call, key, faults, aborts, q);
        via := Handled;
        PassesOn(start, before, trace, |old(trace)|, taken);
        PassesOn(start, before, trace, |old(trace)|, seen);
      }
    }

    /**
     The middleware around a handler, and the handler. The handler runs exactly when there is no key, or the key is
     free in state `taken` and the insert goes through. Whoever is turned away is told what the key's row in state
     `seen` calls for.
     */
    method Serve(r: ReqId, user: UserId, call: System.Call, key: Option<Key>, body: Body, faults: set<Stmt>,
                 aborts: seq<AttemptFaults>)
      returns (answer: Answer, via: Via, ghost taken: Sys, ghost seen: Sys)
      requires Valid() && r in sys.reqs && sys.reqs[r] == Req(user, call, key, body, Arrived)
      requires |aborts| == Tx.MAX_TX_ATTEMPTS
      modifies this`trace, this`sys, db, provider
      ensures Valid() && old(trace) <= trace && At(r, old(sys.reqs[r]), Done(answer, via))
      ensures Passes(start, trace, |old(trace)|, taken) && Passes(start, trace, |old(trace)|, seen)
      ensures via.Handled? <==> Admits(taken, key, faults)
      ensures !via.Handled? ==> TurnedAway(seen, key.value, user, body, faults, answer, via)
      ensures !via.Handled? || answer.status != 200 ==> NotCharged(sys, r) && !Logged(db.logs, r)
      ensures via.Handled? && answer.status == 200 ==> if call.Purchase? then !NotCharged(sys, r) else Logged(db.logs, r)
    {
      ghost var q := sys.reqs[r];
      hide Valid, Entry, NotCharged, Logged, Passes, TurnedAway;
      Others(r);
      ghost var at := |trace|;
      answer, via, taken, seen := Pass(r, user, call, key, body, faults, aborts, q);
      PassesEarlier(start, trace, |old(trace)|, at, taken);
      PassesEarlier(start, trace, |old(trace)|, at, seen);
      if !via.Handled? || answer.status != 200 { LeftNothing(r); }
    }

    lemma LeftNothing(r: ReqId)
      requires Valid() && r in sys.reqs && sys.reqs[r].pc.Done?
      requires !sys.reqs[r].pc.via.Handled? || sys.reqs[r].pc.answer.status != 200
      ensures NotCharged(sys, r) && !Logged(db.logs, r)
    {
      hide Init, Legal, Run, FakeProvider.Valid, FakeProvider.Book, Reachable;
      Facts();
      NothingDone(sys, r);
    }

    // ---------------------------------------------------------------- minting

    /**
     CreateTickets: for those who may, one insert per ticket, all in one transaction. `unread`: no connection, or the
     permission cannot be read. `fails` is the first statement of the transaction that fails (see InsertTickets).
     */
    method CreateTickets(event: EventId, price: int, quantity: int, user: UserId, users: map<UserId, Role>,
                         events: map<EventId, Event>, unread: bool, fails: Option<nat>)
      returns (status: nat)
      requires Valid()
      modifies this`trace, this`sys, db`tickets
      ensures Valid() && old(trace) <= trace
      ensures
        var admin := user in users && users[user] == Admin;
        var owner := user in users && users[user] == EventOrganizer && event in events && events[event].organizer == user;
        status == if quantity <= 0 then 400
                  else if unread then 500
                  else if !admin && !owner then 403
                  else if event !in events || (fails.Some? && fails.value <= quantity + 1) then 500
                  else 201
      ensures status != 201 ==> db.tickets == old(db.tickets)
      ensures status == 201 ==>
        && old(db.tickets.Keys) <= db.tickets.Keys && |db.tickets.Keys - old(db.tickets.Keys)| == quantity
        && (forall t | t in old(db.tickets) :: db.tickets[t] == old(db.tickets)[t])
        && (forall t | t in db.tickets && t !in old(db.tickets) ::
              db.tickets[t] == Ticket(event, price, Available, None, None, None, 0))
    {
      hide Valid;
      if quantity <= 0 {
        return 400;
      }
      if unread {
        return 500;
      }
      if !MayMint(users, events, user, event) {
        return 403;
      }
      var ok, rows := db.InsertTickets(event, price, quantity, fails);
      if !ok || event !in events { // event_id references events
        return 500; // the deferred rollback
      }
      Added(db.tickets, rows);
      CommitMint(event, price, rows);
      return 201;
    }

    method CommitMint(event: EventId, price: int, rows: map<TicketId, Ticket>)
      requires Valid() && rows != map[] && rows.Keys !! db.tickets.Keys
      requires forall t | t in rows :: rows[t] == Ticket(event, price, Available, None, None, None, 0)
      modifies this`trace, this`sys, db`tickets
      ensures Valid() && old(trace) <= trace && db.tickets == old(db.tickets) + rows
    {
      hide Init, Legal, Run, FakeProvider.Valid, FakeProvider.Book, Enabled, Apply;
      Mints(sys, event, price, rows);
      db.tickets := db.tickets + rows;
      Extend(Mint(event, price, rows.Keys));
    }
  }

  lemma Mints(s: Sys, event: EventId, price: int, rows: map<TicketId, Ticket>)
    requires rows != map[] && rows.Keys !! s.tickets.Keys
    requires forall t | t in rows :: rows[t] == Ticket(event, price, Available, None, None, None, 0)
    ensures Enabled(s, Mint(event, price, rows.Keys))
    ensures var s' := Apply(s, Mint(event, price, rows.Keys)); s' == s.(tickets := s.tickets + rows, hist := s'.hist)
  {
    hide MintRows;
    MintIs(s.tickets, event, price, rows);
    assert rows.Keys != {};
  }

  lemma MintIs(tickets: map<TicketId, Ticket>, event: EventId, price: int, rows: map<TicketId, Ticket>)
    requires forall t | t in rows :: rows[t] == Ticket(event, price, Available, None, None, None, 0)
    ensures MintRows(tickets, event, price, rows.Keys) == tickets + rows
  {
    assert rows == map t | t in rows.Keys :: Ticket(event, price, Available, None, None, None, 0);
  }

  lemma Added<K, V>(m: map<K, V>, rows: map<K, V>)
    requires rows.Keys !! m.Keys
    ensures (m + rows).Keys - m.Keys == rows.Keys && m.Keys <= (m + rows).Keys
  {}

  /** The sale is in the tables: a purchased ticket with its QR code, a pending payment, an unpublished event. */
  ghost predicate Booked(tickets: map<TicketId, Ticket>, payments: map<PaymentId, Payment>, outbox: map<nat, Outbox.Row>,
                         t: TicketId, p: PaymentId, event: EventId, user: UserId, price: int) {
    && t in tickets && tickets[t].status.Bought? && tickets[t].owner == Some(user) && tickets[t].qr == Some(Qr(t))
    && tickets[t].boughtAt == Some(p)
    && p in payments && payments[p] == Payment(t, user, Provisional(p), price, Pending, None, p)
    && exists id, mid :: id in outbox && outbox[id] == Outbox.Row(Purchased(mid, t, event, user, price), false, 0)
  }

  lemma NowBooked(tickets: map<TicketId, Ticket>, payments: map<PaymentId, Payment>, outbox: map<nat, Outbox.Row>,
                  t: TicketId, p: PaymentId, event: EventId, user: UserId, price: int, id: nat, mid: MsgId)
    requires t in tickets && tickets[t].status.Bought? && tickets[t].owner == Some(user) && tickets[t].qr == Some(Qr(t))
    requires tickets[t].boughtAt == Some(p)
    requires p in payments && payments[p] == Payment(t, user, Provisional(p), price, Pending, None, p)
    requires id in outbox && outbox[id] == Outbox.Row(Purchased(mid, t, event, user, price), false, 0)
    ensures Booked(tickets, payments, outbox, t, p, event, user, price)
  {}

  /** The run goes through state s, after its first `from` steps. */
  ghost predicate Passes(start: Sys, trace: seq<Step>, from: nat, s: Sys) {
    exists i :: from <= i <= |trace| && Legal(start, trace[..i]) && Run(start, trace[..i]) == s
  }

  // What was passed through stays passed through.
  lemma PassesOn(start: Sys, before: seq<Step>, trace: seq<Step>, from: nat, s: Sys)
    requires before <= trace && Passes(start, before, from, s)
    ensures Passes(start, trace, from, s)
  {
    hide Legal, Run;
    var i :| from <= i <= |before| && Legal(start, before[..i]) && Run(start, before[..i]) == s;
    assert trace[..i] == before[..i];
  }

  /** What a claim comes to, given what was for sale and which statements fail. */
  predicate ClaimEnds(seen: Sys, event: EventId, faults: set<Stmt>, claim: Sale) {
    match claim
    case Sold(t, qr, price, _) =>
      && faults !! {SelectSeat, WriteSale, CommitSale}
      && FirstForSale(seen, event, t) && seen.tickets[t].price == price && price >= 0 && qr == Qr(t)
    case Unsold(a) =>
      || (a == Answer(409, TextBody("No tickets available for this event")) && NoneForSale(seen, event))
      || (a == Answer(500, TextBody("Failed to purchase ticket")) && ClaimFault(seen, event, faults))
  }

  // The SELECT fails; or it finds a row and a later statement fails or its price is negative.
  predicate ClaimFault(seen: Sys, event: EventId, faults: set<Stmt>) {
    || SelectSeat in faults
    || exists t | t in seen.tickets ::
         FirstForSale(seen, event, t) && (WriteSale in faults || CommitSale in faults || seen.tickets[t].price < 0)
  }

  lemma FaultAt(seen: Sys, event: EventId, faults: set<Stmt>, t: TicketId)
    requires FirstForSale(seen, event, t) && (WriteSale in faults || CommitSale in faults || seen.tickets[t].price < 0)
    ensures ClaimFault(seen, event, faults)
  {}

  lemma SoldSells(seen: Sys, event: EventId, faults: set<Stmt>, claim: Sale, end: PurchaseEnd)
    requires ClaimEnds(seen, event, faults, claim) && claim.Sold?
    requires end.NoMoney? || (end.Paid? && end.t == claim.t && end.price == claim.price)
    ensures Sells(seen, event, faults, end)
  {}

  /** How a purchase can end, given what was for sale and which statements fail. */
  predicate Sells(seen: Sys, event: EventId, faults: set<Stmt>, end: PurchaseEnd) {
    match end
    case NoSeat => NoneForSale(seen, event)
    case NoClaim => ClaimFault(seen, event, faults)
    case NoMoney(_) => faults !! {SelectSeat, WriteSale, CommitSale} && !NoneForSale(seen, event)
    case Paid(t, _, _, price) =>
      faults !! {SelectSeat, WriteSale, CommitSale} && FirstForSale(seen, event, t) && seen.tickets[t].price == price
  }

  /** The answer to a purchase that ended so. */
  predicate Answers(end: PurchaseEnd, a: Answer) {
    match end
    case NoSeat => a == Answer(409, TextBody("No tickets available for this event"))
    case NoClaim => a == Answer(500, TextBody("Failed to purchase ticket"))
    case NoMoney(CardDeclined) => a == Answer(402, TextBody("Card declined"))
    case NoMoney(Unavailable) => a == Answer(502, TextBody("Payment provider unavailable"))
    case NoMoney(OtherError) => a == Answer(502, TextBody("Payment failed"))
    case Paid(t, _, n, price) => a == Answer(200, JsonBody(PurchaseBody(t, Qr(t), n, price)))
  }

  lemma Unsolds(a: Answer, end: PurchaseEnd)
    requires || a == Answer(409, TextBody("No tickets available for this event"))
             || a == Answer(500, TextBody("Failed to purchase ticket"))
    requires end == if a.status == 409 then NoSeat else NoClaim
    ensures Answers(end, a)
  {}

  predicate IsBought(s: Sys, t: TicketId) {
    t in s.tickets && s.tickets[t].status == Bought
  }

  // Only a release locks a payment row, its own, and such a row is pending.
  lemma PayRowFree(s: Sys, r: ReqId, p: PaymentId)
    requires Reachable(s) && r in s.reqs
    requires var pc := s.reqs[r].pc;
      || (pc.Charged? && pc.p == p) || (pc.Releasing? && pc.p == p && !pc.marked)
      || (pc.Marking? && pc.found.id == p && s.reqs[r].call.Cancellation?)
    ensures p !in s.plock
  {
    assert PayLock(s, p) by { ReachableInv(s); hide Reachable; }
    if p in s.plock {
      ReqFacts(s, s.plock[p]);
      ReqFacts(s, r);
      hide Reachable, ReqBound, ReqLock, ReqSeat, HoldProofs.ReqHold;
      assert false;
    }
  }

  predicate NoLocks(tlock: map<TicketId, ReqId>, r: ReqId) {
    forall t | t in tlock :: tlock[t] != r
  }

  /** What an attempt comes to, given what it read and what it would meet. */
  predicate AttemptEnds(seen: Sys, user: UserId, t: TicketId, faults: AttemptFaults, end: AttemptEnd) {
    match end
    case Commits => MayCancel(seen, user, t) && faults.begin.None? && faults.update.None? && faults.commit.None?
    case Rejects(a) => Rejection(seen, user, t, a) && faults.begin.None?
    case Errs(_) => true
  }

  lemma RejectionStatus(seen: Sys, user: UserId, t: TicketId, end: AttemptEnd)
    requires end.Rejects? && Rejection(seen, user, t, end.answer)
    ensures end.answer.status == 404 || end.answer.status == 409
  {}

  // The error is one the attempt was given.
  predicate Given(faults: AttemptFaults, e: Tx.Error) {
    faults.begin == Some(e) || faults.update == Some(e) || faults.commit == Some(e)
  }

  // The error is what an UPDATE reports of a row that another transaction has changed or locked.
  predicate OfRow(faults: AttemptFaults, e: Tx.Error) {
    e == faults.wait || e == Tx.PgError("40001")
  }

  predicate RowGone(met: Sys, t: TicketId, row: Ticket) {
    t in met.tlock || t !in met.tickets || met.tickets[t].ver != row.ver
  }

  lemma RowTaken(seen: Sys, met: Sys, user: UserId, t: TicketId, row: Ticket)
    requires MayCancel(seen, user, t) && seen.tickets[t] == row
    ensures RowGone(met, t, row) ==> Contended(seen, met, t)
  {}

  /** The error was given; or it is one of the row, which was locked or changed between two states passed through. */
  ghost predicate Excused(start: Sys, trace: seq<Step>, from: nat, t: TicketId, faults: AttemptFaults, e: Tx.Error) {
    || Given(faults, e)
    || (OfRow(faults, e)
        && exists seen, met :: Passes(start, trace, from, seen) && Passes(start, trace, from, met) && Contended(seen, met, t))
  }

  lemma ExcusedBy(start: Sys, trace: seq<Step>, from: nat, t: TicketId, faults: AttemptFaults, e: Tx.Error,
                  seen: Sys, met: Sys)
    requires Passes(start, trace, from, seen) && Passes(start, trace, from, met)
    requires Given(faults, e) || (OfRow(faults, e) && Contended(seen, met, t))
    ensures Excused(start, trace, from, t, faults, e)
  {
    hide Passes, Contended, Given, OfRow;
  }

  /** Every attempt that ended in an error has an excuse. */
  ghost predicate AllExcused(start: Sys, trace: seq<Step>, from: nat, t: TicketId, aborts: seq<AttemptFaults>,
                             ends: seq<AttemptEnd>)
    requires |ends| <= |aborts|
  {
    forall i | 0 <= i < |ends| && ends[i].Errs? :: Excused(start, trace, from, t, aborts[i], ends[i].error)
  }

  lemma NoneExcused(start: Sys, trace: seq<Step>, from: nat, t: TicketId, aborts: seq<AttemptFaults>)
    ensures AllExcused(start, trace, from, t, aborts, [])
  {}

  lemma ExcuseStays(start: Sys, before: seq<Step>, trace: seq<Step>, from: nat, from': nat, t: TicketId,
                    faults: AttemptFaults, e: Tx.Error)
    requires before <= trace && from <= from' && Excused(start, before, from', t, faults, e)
    ensures Excused(start, trace, from, t, faults, e)
  {
    hide Passes, Contended, Given, OfRow;
    if !Given(faults, e) {
      var seen, met :| Passes(start, before, from', seen) && Passes(start, before, from', met) && Contended(seen, met, t);
      PassesEarlier(start, before, from, from', seen);
      PassesEarlier(start, before, from, from', met);
      PassesOn(start, before, trace, from, seen);
      PassesOn(start, before, trace, from, met);
    }
  }

  lemma ExcusedOn(start: Sys, before: seq<Step>, trace: seq<Step>, from: nat, t: TicketId,
                  aborts: seq<AttemptFaults>, ends: seq<AttemptEnd>)
    requires |ends| <= |aborts| && before <= trace && AllExcused(start, before, from, t, aborts, ends)
    ensures AllExcused(start, trace, from, t, aborts, ends)
  {
    hide Excused;
    forall i | 0 <= i < |ends| && ends[i].Errs? ensures Excused(start, trace, from, t, aborts[i], ends[i].error) {
      ExcuseStays(start, before, trace, from, from, t, aborts[i], ends[i].error);
    }
  }

  lemma OneMoreEnd(start: Sys, before: seq<Step>, trace: seq<Step>, from: nat, t: TicketId, aborts: seq<AttemptFaults>,
                   ends: seq<AttemptEnd>, end: AttemptEnd)
    requires |ends| < |aborts| && from <= |before| && before <= trace && AllExcused(start, before, from, t, aborts, ends)
    requires end.Errs? ==> Excused(start, trace, |before|, t, aborts[|ends|], end.error)
    ensures AllExcused(start, trace, from, t, aborts, ends + [end])
  {
    ExcusedOn(start, before, trace, from, t, aborts, ends);
    hide Excused;
    if end.Errs? { ExcuseStays(start, trace, trace, from, |before|, t, aborts[|ends|], end.error); }
  }

  /** At most three attempts; another one exactly after a serialization failure or a deadlock. */
  predicate Retries(ends: seq<AttemptEnd>) {
    && 1 <= |ends| <= 3
    && (forall i | 0 <= i < |ends| - 1 :: ends[i].Errs? && Tx.Conflict(ends[i].error))
    && (|ends| < 3 && Last(ends).Errs? ==> !Tx.Conflict(Last(ends).error))
  }

  /** These are runs the retry helper allows. */
  lemma RetriesAreRetried(ends: seq<AttemptEnd>)
    requires Retries(ends)
    ensures Tx.Retried(Errors(ends))
  {
    hide Tx.Conflict, Tx.IsRetryable;
    forall i | 0 <= i < |ends| && ends[i].Errs? ensures Tx.IsRetryable(ends[i].error) <==> Tx.Conflict(ends[i].error) {
      Conflicting(ends[i].error);
    }
    assert !Tx.IsRetryable(Tx.Plain) by { Conflicting(Tx.Plain); NotAConflict(); }
  }

  lemma NotAConflict()
    ensures !Tx.Conflict(Tx.Plain)
  {}

  lemma Conflicting(e: Tx.Error)
    ensures Tx.IsRetryable(e) <==> Tx.Conflict(e)
  {
    Tx.RetryableIff(e);
  }

  predicate Replies(last: AttemptEnd, reply: Option<Answer>) {
    match last
    case Commits => reply.None?
    case Rejects(a) => reply == Some(a)
    case Errs(_) => reply == Some(Answer(500, TextBody("Failed to cancel ticket")))
  }

  /** What a cancelled caller is told of the refund: nothing if none was due, pending if the provider failed. */
  function RefundOf(refund: Option<Reply>): Option<RefundState> {
    match refund
    case None => None
    case Some(NoReply(_)) => Some(RefundPending)
    case Some(RefundReply(n)) => Some(RefundIssued(n))
    case Some(ChargeReply(_)) => None
  }

  function Words(status: nat): string {
    if status == 404 then "Ticket not found or not owned by caller"
    else if status == 409 then "Only purchased tickets can be cancelled"
    else "Failed to cancel ticket"
  }

  lemma PassesEarlier(start: Sys, trace: seq<Step>, from: nat, later: nat, s: Sys)
    requires from <= later && Passes(start, trace, later, s)
    ensures Passes(start, trace, from, s)
  {
    hide Legal, Run;
  }

  /** The cancellation is in the tables: the ticket for sale again, the last log entry, an unpublished event. */
  ghost predicate Announced(tickets: map<TicketId, Ticket>, logs: seq<CancelLog>, outbox: map<nat, Outbox.Row>,
                            r: ReqId, t: TicketId, user: UserId, event: EventId, reason: string) {
    && t in tickets && tickets[t].status.Available? && tickets[t].owner.None? && tickets[t].qr.None?
    && logs != [] && Last(logs) == CancelLog(t, user, event, reason, r)
    && exists id, mid :: id in outbox && outbox[id] == Outbox.Row(Cancelled(mid, t, event, user, reason), false, 0)
  }

  lemma NowAnnounced(tickets: map<TicketId, Ticket>, logs: seq<CancelLog>, outbox: map<nat, Outbox.Row>,
                     r: ReqId, t: TicketId, user: UserId, event: EventId, reason: string, id: nat, mid: MsgId)
    requires t in tickets && tickets[t].status.Available? && tickets[t].owner.None? && tickets[t].qr.None?
    requires logs != [] && Last(logs) == CancelLog(t, user, event, reason, r)
    requires id in outbox && outbox[id] == Outbox.Row(Cancelled(mid, t, event, user, reason), false, 0)
    ensures Announced(tickets, logs, outbox, r, t, user, event, reason)
  {}

  lemma AnnouncedIsLogged(tickets: map<TicketId, Ticket>, logs: seq<CancelLog>, outbox: map<nat, Outbox.Row>,
                          r: ReqId, t: TicketId, user: UserId, event: EventId, reason: string)
    requires Announced(tickets, logs, outbox, r, t, user, event, reason)
    ensures Logged(logs, r)
  {
    assert logs[|logs| - 1].req == r;
  }

  // Between attempts, and after a rejection, nothing of the request is left in the tables.
  lemma RolledBack(s: Sys, r: ReqId)
    requires Reachable(s) && r in s.reqs
    requires s.reqs[r].pc.Attempt? || (s.reqs[r].pc.Answered? && s.reqs[r].pc.answer.status != 200)
    ensures !Logged(s.logs, r) && NoLocks(s.tlock, r)
  {
    Unlocked(s, r);
    assert KeyInv(s) by { ReachableInv(s); hide Reachable; }
    hide Reachable;
    forall i: nat | i < |s.logs| ensures s.logs[i].req != r { assert LogOwned(s, i); }
  }

  lemma {:induction false} LegalPrefix(s: Sys, a: seq<Step>, b: seq<Step>)
    requires Legal(s, b) && a <= b
    ensures Legal(s, a)
    decreases |b|
  {
    hide Enabled, Apply;
    if a != b { LegalPrefix(s, a, Front(b)); }
  }

  lemma Unlocked(s: Sys, r: ReqId)
    requires Reachable(s) && r in s.reqs && (s.reqs[r].pc.Answered? || s.reqs[r].pc.Attempt?)
    ensures NoLocks(s.tlock, r)
  {
    forall t | t in s.tlock ensures s.tlock[t] != r { TicketFacts(s, t); }
  }

  /** Payment p of ticket t was inserted by request r, and charge n of its amount has been made for it. */
  ghost predicate PaidBy(s: Sys, r: ReqId, p: PaymentId, t: TicketId, n: nat, price: int) {
    && p in s.payments && s.payments[p].ticket == t && s.payments[p].amount == price
    && p in s.hist.claims && s.hist.claims[p] == r && p in s.hist.paid && s.hist.paid[p] == n
  }

  // No payment of request r was ever charged.
  ghost predicate NotCharged(s: Sys, r: ReqId) {
    forall p | p in s.payments && p in s.hist.claims && s.hist.claims[p] == r :: p !in s.hist.paid
  }

  lemma RejectedNotCharged(s: Sys, r: ReqId)
    requires Reachable(s) && r in s.reqs && s.reqs[r].pc.Answered? && s.reqs[r].pc.answer.status != 200
    ensures NotCharged(s, r)
  {
    forall p | p in s.payments && p in s.hist.claims && s.hist.claims[p] == r ensures p !in s.hist.paid {
      PaymentFacts(s, p);
    }
  }

  lemma ChargedRow(s: Sys, r: ReqId)
    requires Reachable(s) && r in s.reqs && s.reqs[r].pc.Charged?
    ensures var pc := s.reqs[r].pc; PaidBy(s, r, pc.p, pc.t, pc.n, pc.amount) && s.payments[pc.p].status.Pending?
  {
    ReachableInv(s);
    assert PayPc(s, r);
  }

  predicate StillPending(pc: Pc, p: PaymentId) {
    (pc.ChargeFailed? || pc.Releasing?) && pc.p == p
  }

  lemma PendingRow(s: Sys, r: ReqId)
    requires Reachable(s) && r in s.reqs && (s.reqs[r].pc.ChargeFailed? || s.reqs[r].pc.Releasing?)
    ensures s.reqs[r].pc.p in s.payments && s.payments[s.reqs[r].pc.p].status.Pending?
  {
    ReqFacts(s, r);
    hide Reachable, ReqBound, ReqLock, ReqFound, ReqSeat, HoldProofs.ReqHold;
  }

  /** The ledger has one charge more, under a key that was free. */
  ghost predicate NewCharge(l: Ledger, l': Ledger, key: ProviderKey, c: PaymentIntent) {
    && key !in l.byKey && c.n !in l.made && l'.made == l.made[c.n := c]
    && l'.byKey == l.byKey[key := c.n] && l'.refunds == l.refunds
  }

  lemma UnusedKey(s: Sys, r: ReqId)
    requires Reachable(s) && r in s.reqs && s.reqs[r].pc.Claimed?
    ensures ChargeKey(s.reqs[r], s.reqs[r].pc.p) !in s.prov.byKey && s.prov.issued + 1 !in s.prov.made
  {
    ReachableInv(s);
    KeyIsFresh(s, r);
  }

  /** The key was in flight. Unless the write fails it is gone after a server error and has the response of a 200; else it stays. */
  ghost predicate Finishes(keys: map<Key, KeyRow>, keys': map<Key, KeyRow>, k: Key, a: Answer, fails: bool) {
    && k in keys && keys[k].response.None? && (a.status == 200 ==> a.content.JsonBody?)
    && keys' == if !fails && a.status >= 500 then keys - {k}
                else if !fails && a.status == 200 then keys[k := keys[k].(response := Some(Response(200, a.content.value)))]
                else keys
  }

  /** The handler is entered: there is no key, or the insert finds it free. */
  predicate Admits(taken: Sys, key: Option<Key>, faults: set<Stmt>) {
    key.None? || (InsertKeyRow !in faults && key.value !in taken.keys)
  }

  /** What the row of a taken key has its user told; a row of another user's counts as none. */
  predicate Told(keys: map<Key, KeyRow>, key: Key, user: UserId, body: Body, a: Answer, via: Via) {
    if !(key in keys && keys[key].user == user) then
      via.Refused? && a == Answer(500, TextBody("Could not process request"))
    else if keys[key].hash != body then
      via.Refused? && a == Answer(422, TextBody("Idempotency-Key was already used with a different request body"))
    else if keys[key].response.None? then
      via.Refused? && a == Answer(409, TextBody("A request with this Idempotency-Key is still in progress, retry shortly"))
    else
      via.Replayed? && a == Answer(keys[key].response.value.status, JsonBody(keys[key].response.value.value))
  }

  predicate TurnedAway(seen: Sys, key: Key, user: UserId, body: Body, faults: set<Stmt>, a: Answer, via: Via) {
    if InsertKeyRow in faults || ReadKeyRow in faults then
      via.Refused? && a == Answer(500, TextBody("Could not process request"))
    else Told(seen.keys, key, user, body, a, via)
  }

  // The key of a request that has answered but not ended is its own and has no response.
  lemma KeyInFlight(s: Sys, r: ReqId)
    requires Reachable(s) && r in s.reqs && s.reqs[r].pc.Answered?
    ensures s.reqs[r].key.Some? ==> s.reqs[r].key.value in s.keys && s.keys[s.reqs[r].key.value].response.None?
    ensures AnswerOk(s.reqs[r].pc.answer)
  {
    assert KeyInv(s) by { ReachableInv(s); hide Reachable, KeyInv; }
    hide Reachable;
    assert ReqBound(s, r) && PcAnswerOk(s.reqs[r].pc);
    if s.reqs[r].key.Some? { assert KeyOwned(s, s.reqs[r].key.value); }
    hide KeyInv;
  }

  // Both ways a release can end.
  lemma ReleaseEnds(s: Sys, r: ReqId)
    requires r in s.reqs && s.reqs[r].pc.Releasing? && s.reqs[r].pc.marked && s.reqs[r].pc.p in s.payments
    requires s.reqs[r].pc.held ==> s.reqs[r].pc.t in s.tickets
    ensures CanRelease(s, r, ReleaseCommit) && CanRelease(s, r, ReleaseErr)
    ensures var pc, s' := s.reqs[r].pc, DoRelease(s, r, ReleaseErr);
      s' == Goto(s, r, Answered(Denial(pc.e))).(
        tlock := if pc.held then s.tlock - {pc.t} else s.tlock, plock := s.plock - {pc.p})
    ensures var pc, s' := s.reqs[r].pc, DoRelease(s, r, ReleaseCommit);
      s' == Goto(s, r, Answered(Denial(pc.e))).(
        tickets := if pc.held then s.tickets[pc.t := FreeRow(s.tickets[pc.t])] else s.tickets,
        tlock := if pc.held then s.tlock - {pc.t} else s.tlock,
        payments := s.payments[pc.p := s.payments[pc.p].(status := System.Failed)],
        plock := s.plock - {pc.p}, hist := s'.hist)
  {
    hide Freed, FreeRow, Denial;
  }

  lemma ReleaseReady(s: Sys, r: ReqId)
    requires Reachable(s) && r in s.reqs && s.reqs[r].pc.Releasing?
    ensures s.reqs[r].pc.p in s.payments && (s.reqs[r].pc.held ==> s.reqs[r].pc.t in s.tickets)
  {
    ReqFacts(s, r);
    hide Reachable, ReqBound, ReqLock, ReqFound, HoldProofs.ReqHold;
  }

  lemma DrawIs(s: Sys, r: ReqId)
    requires CanClaim(s, r, ClaimAlloc)
    ensures DoClaim(s, r, ClaimAlloc) == Goto(s, r, Claiming(s.reqs[r].pc.t, s.reqs[r].pc.price, Some(s.box.next))).(
              box := s.box.(open := s.box.open[s.box.next := s.reqs[r].pc.t], next := s.box.next + 1))
  {}

  lemma ActIsClaim(s: Sys, r: ReqId, c: ClaimAct)
    ensures CanAct(s, r, Claim(c)) <==> CanClaim(s, r, c)
    ensures CanClaim(s, r, c) ==> DoAct(s, r, Claim(c)) == DoClaim(s, r, c)
  {}

  // A claim that has drawn its id can commit: its row is still available and its id still its own.
  lemma CommitReady(s: Sys, r: ReqId, mid: MsgId)
    requires Reachable(s) && r in s.reqs && s.reqs[r].pc.Claiming? && s.reqs[r].pc.oid.Some? && s.reqs[r].call.Purchase?
    requires s.reqs[r].pc.price >= 0 && mid !in s.box.home
    ensures CanClaim(s, r, ClaimCommit(mid)) && s.clock !in s.payments
    ensures s.reqs[r].pc.t in s.tickets && s.tickets[s.reqs[r].pc.t].status.Available?
  {
    ReqFacts(s, r);
    PaymentFacts(s, s.clock);
    hide Reachable, ReqBound, PayPc, ReqFound, HoldProofs.ReqHold, HoldProofs.FateOk, PaidOk;
  }

  /** Over every legal run the cancellation log only grows. */
  lemma {:induction false} LogsGrow(s: Sys, steps: seq<Step>)
    requires Legal(s, steps)
    ensures s.logs <= Run(s, steps).logs
    decreases |steps|
  {
    hide Enabled, Apply;
    if steps != [] {
      LogsGrow(s, Front(steps));
      LogsStep(Run(s, Front(steps)), Last(steps));
    }
  }

  /** A request that ended without a 200 of its own has charged nothing and cancelled nothing. */
  lemma NothingDone(s: Sys, r: ReqId)
    requires Reachable(s) && r in s.reqs && s.reqs[r].pc.Done?
    requires !s.reqs[r].pc.via.Handled? || s.reqs[r].pc.answer.status != 200
    ensures NotCharged(s, r) && !Logged(s.logs, r)
  {
    hide NotCharged;
    assert NotCharged(s, r) by { DoneUncharged(s, r); }
    assert KeyInv(s) by { ReachableInv(s); hide Reachable; }
    hide Reachable;
    forall i: nat | i < |s.logs| ensures s.logs[i].req != r { assert LogOwned(s, i); }
  }

  lemma DoneUncharged(s: Sys, r: ReqId)
    requires Reachable(s) && r in s.reqs && s.reqs[r].pc.Done?
    requires !s.reqs[r].pc.via.Handled? || s.reqs[r].pc.answer.status != 200
    ensures NotCharged(s, r)
  {
    hide Reachable;
    forall p | p in s.payments && p in s.hist.claims && s.hist.claims[p] == r ensures p !in s.hist.paid {
      PaymentFacts(s, p);
    }
  }

  lemma FoundRow(s: Sys, r: ReqId)
    requires Reachable(s) && r in s.reqs && s.reqs[r].pc.Marking? && s.reqs[r].call.Cancellation?
    ensures s.reqs[r].pc.found.id in s.payments
  {
    ReqFacts(s, r);
    hide Reachable, ReqBound, ReqLock, PayPc, ReqSeat, HoldProofs.ReqHold;
  }

  // The attempt still has its row, and its id is still its own.
  lemma CancelReadyToCommit(s: Sys, r: ReqId, mid: MsgId)
    requires Reachable(s) && r in s.reqs && s.reqs[r].pc.CancelReady? && s.reqs[r].call.Cancellation? && mid !in s.box.home
    ensures CanCancel(s, r, CancelCommit(mid)) && s.reqs[r].call.ticket in s.tickets
  {
    ReqFacts(s, r);
    hide Reachable, ReqBound, PayPc, ReqFound, HoldProofs.ReqHold;
  }

  lemma CancelAborted(s: Sys, r: ReqId, retry: bool)
    requires r in s.reqs && s.reqs[r].call.Cancellation? && InAttempt(s.reqs[r].pc)
    ensures var x := if retry then CancelRetry else CancelErr;
      CanCancel(s, r, x) && var q, s' := s.reqs[r], DoCancel(s, r, x);
      && s'.reqs == s.reqs[r := q.(pc := AfterAbort(q.pc.n, q.pc.captured, retry))]
      && s'.tlock == (if q.pc.Cancelling? || q.pc.CancelReady? then s.tlock - {q.call.ticket} else s.tlock)
      && s'.box == s.box.(open := s'.box.open)
      && s' == s.(reqs := s'.reqs, tlock := s'.tlock, box := s'.box)
  {
    hide OpenId;
  }

  // A request has its ticket's row lock exactly while it is past its UPDATE.
  lemma OwnLock(s: Sys, r: ReqId)
    requires Reachable(s) && r in s.reqs && s.reqs[r].call.Cancellation? && InAttempt(s.reqs[r].pc)
    ensures var t := s.reqs[r].call.ticket;
      t in s.tlock && s.tlock[t] == r <==> s.reqs[r].pc.Cancelling? || s.reqs[r].pc.CancelReady?
  {
    ReqFacts(s, r);
    TicketFacts(s, s.reqs[r].call.ticket);
    hide Reachable, ReqBound, PayPc, ReqFound, ReqSeat, HoldProofs.ReqHold, HoldProofs.HeldOk, HoldProofs.SoldOk;
  }
}
