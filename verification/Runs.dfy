/**
 Whole runs of the service, phase by phase: minting a seat, entering a handler, buying, paying, giving
 back, calling off, delivering. Each phase says exactly which state it leads to.
 */
module Runs {
  import opened Types
  import opened Payments
  import opened System
  import opened Frames
  import Invariant
  import Outbox
  import Telling
  import ServiceDelivery

  // A relay fetches with the batch size the code uses.
  predicate Batched(step: Step) {
    step.Ship? && step.relay.FetchLock? ==> step.relay.limit == Outbox.BATCH_SIZE
  }

  predicate AllBatched(steps: seq<Step>) {
    forall step | step in steps :: Batched(step)
  }

  ghost predicate Goes(s: Sys, step: Step, s': Sys) {
    Enabled(s, step) && Apply(s, step) == s' && Batched(step)
  }

  ghost predicate Leads(s0: Sys, steps: seq<Step>, s: Sys) {
    Legal(s0, steps) && Run(s0, steps) == s && AllBatched(steps)
  }

  lemma NoSteps(s: Sys)
    ensures Leads(s, [], s)
  {}

  lemma Then(s0: Sys, steps: seq<Step>, s: Sys, step: Step, s': Sys) returns (steps': seq<Step>)
    requires Leads(s0, steps, s) && Goes(s, step, s')
    ensures Leads(s0, steps', s')
  {
    hide Enabled, Apply;
    steps' := steps + [step];
    assert Front(steps') == steps && Last(steps') == step;
  }

  lemma {:induction false} LiftBatched(bs: seq<Outbox.BoxStep>)
    requires Telling.Outward(bs)
    ensures AllBatched(ServiceDelivery.Lift(bs))
    decreases |bs|
  {
    if bs != [] {
      Telling.OutwardParts(bs);
      LiftBatched(Front(bs));
      assert Last(bs) in bs;
    }
  }

  /** What relays and workers do alone they do within the service. */
  lemma Delivers(s0: Sys, steps: seq<Step>, s: Sys, bs: seq<Outbox.BoxStep>, d: Outbox.Delivery) returns (steps': seq<Step>)
    requires Leads(s0, steps, s) && Telling.Leads(s.box, bs, d)
    ensures Leads(s0, steps', s.(box := d))
  {
    hide Enabled, Apply, Outbox.Enabled, Outbox.Apply;
    ServiceDelivery.LiftRun(s, bs);
    LiftBatched(bs);
    Invariant.RunsConcat(s0, steps, ServiceDelivery.Lift(bs));
    steps' := steps + ServiceDelivery.Lift(bs);
  }

  // ---------------------------------------------------------------- a seat of its own event

  const PRICE := 500

  // No transaction is open.
  predicate Still(s: Sys) {
    s.tlock == map[] && s.plock == map[] && s.box.open == map[]
  }

  // The one ticket of its event.
  predicate OnlySeat(s: Sys, e: EventId, t: TicketId) {
    t in s.tickets && s.tickets[t].event == e && s.tickets[t].price == PRICE
    && forall u | u in s.tickets && s.tickets[u].event == e :: u == t
  }

  lemma {:induction false} Above(xs: set<nat>) returns (n: nat)
    ensures forall x | x in xs :: x < n
    decreases |xs|
  {
    if xs == {} {
      n := 0;
    } else {
      var x :| x in xs;
      var m := Above(xs - {x});
      n := if m <= x then x + 1 else m;
      forall y | y in xs ensures y < n { assert y == x || y in xs - {x}; }
    }
  }

  // A number above every ticket and every event there is.
  lemma NewName(s: Sys) returns (n: nat)
    ensures forall t | t in s.tickets :: t < n && s.tickets[t].event < n
  {
    var a := Above(s.tickets.Keys);
    var events := set t | t in s.tickets :: s.tickets[t].event;
    var b := Above(events);
    n := if a < b then b else a;
    forall t | t in s.tickets ensures t < n && s.tickets[t].event < n {
      assert t in s.tickets.Keys && s.tickets[t].event in events;
    }
  }

  lemma MintSeat(s0: Sys, steps: seq<Step>, s: Sys, e: EventId, t: TicketId) returns (steps': seq<Step>, s': Sys)
    requires Leads(s0, steps, s) && t !in s.tickets && forall u | u in s.tickets :: s.tickets[u].event != e
    ensures Leads(s0, steps', s') && OnlySeat(s', e, t)
    ensures s' == s.(tickets := s.tickets[t := Ticket(e, PRICE, Available, None, None, None, 0)], hist := s'.hist)
    ensures s'.hist == s.hist.(minted := s'.hist.minted)
  {
    hide Leads;
    s' := Apply(s, Mint(e, PRICE, {t}));
    assert s'.tickets == s.tickets[t := Ticket(e, PRICE, Available, None, None, None, 0)];
    steps' := Then(s0, steps, s, Mint(e, PRICE, {t}), s');
  }

  // ---------------------------------------------------------------- entering the handler

  predicate At(s: Sys, r: ReqId, q: Req, pc: Pc) {
    r in s.reqs && s.reqs[r] == q.(pc := pc)
  }

  predicate KeyFree(s: Sys, q: Req) {
    q.key.Some? ==> q.key.value !in s.keys
  }

  function Entered(s: Sys, r: ReqId, q: Req): Sys {
    s.(reqs := s.reqs[r := q.(pc := Entry(q.call))],
       keys := if q.key.Some? then s.keys[q.key.value := KeyRow(q.user, q.body, None)] else s.keys,
       hist := if q.key.Some? then s.hist.(owner := s.hist.owner[q.key.value := r]) else s.hist)
  }

  lemma Arrives(s: Sys, r: ReqId, q: Req)
    requires r !in s.reqs && KeyFree(s, q)
    ensures Goes(s, Arrive(r, q.user, q.call, q.key, q.body), s.(reqs := s.reqs[r := q.(pc := Arrived)]))
    ensures Goes(s.(reqs := s.reqs[r := q.(pc := Arrived)]), Do(r, Gate(Reserve)), Entered(s, r, q))
  {
    var s1 := s.(reqs := s.reqs[r := q.(pc := Arrived)]);
    assert s1.reqs[r := s1.reqs[r].(pc := Entry(q.call))] == s.reqs[r := q.(pc := Entry(q.call))];
  }

  lemma Enter(s0: Sys, steps: seq<Step>, s: Sys, r: ReqId, q: Req) returns (steps': seq<Step>)
    requires Leads(s0, steps, s) && r !in s.reqs && KeyFree(s, q)
    ensures Leads(s0, steps', Entered(s, r, q))
  {
    hide Goes, Leads, Entered;
    Arrives(s, r, q);
    var s1 := s.(reqs := s.reqs[r := q.(pc := Arrived)]);
    steps' := Then(s0, steps, s, Arrive(r, q.user, q.call, q.key, q.body), s1);
    steps' := Then(s0, steps', s1, Do(r, Gate(Reserve)), Entered(s, r, q));
  }

  // ---------------------------------------------------------------- a claim

  /** The outbox after a transaction has drawn its id and committed its row. */
  function Queued(d: Outbox.Delivery, m: Message): Outbox.Delivery {
    d.(rows := d.rows[d.next := Outbox.Row(m, false, 0)], next := d.next + 1, home := d.home[m.mid := d.next])
  }

  lemma QueuedIs(d: Outbox.Delivery, m: Message)
    ensures Queued(d, m).home == d.home[m.mid := d.next] && Queued(d, m).open == d.open
  {}

  function NewPayment(s: Sys, q: Req, t: TicketId): Payment {
    Payment(t, q.user, Provisional(s.clock), PRICE, Pending, None, s.clock)
  }

  function SaleOf(q: Req, t: TicketId, mid: MsgId): Message
    requires q.call.Purchase?
  {
    Purchased(mid, t, q.call.event, q.user, PRICE)
  }

  function Sold(s: Sys, r: ReqId, q: Req, t: TicketId, mid: MsgId): Sys
    requires q.call.Purchase? && t in s.tickets
  {
    s.(reqs := s.reqs[r := q.(pc := Claimed(t, s.clock, PRICE))],
       tickets := s.tickets[t := SoldRow(s.tickets[t], t, q.user, s.clock)],
       payments := s.payments[s.clock := NewPayment(s, q, t)],
       box := Queued(s.box, SaleOf(q, t, mid)),
       clock := s.clock + 1,
       hist := s.hist.(claims := s.hist.claims[s.clock := r], held := s.hist.held[t := s.clock],
                       fate := s.hist.fate[s.clock := Holding]))
  }

  predicate Buyable(s: Sys, r: ReqId, q: Req, t: TicketId, mid: MsgId) {
    && Still(s) && q.call.Purchase? && OnlySeat(s, q.call.event, t) && s.tickets[t].status.Available?
    && At(s, r, q, Ready) && mid !in s.box.home
  }

  // The row locked, then an id drawn.
  function Locked(s: Sys, r: ReqId, t: TicketId): Sys
    requires r in s.reqs
  {
    Goto(s, r, Claiming(t, PRICE, None)).(tlock := map[t := r])
  }

  function DrewId(s: Sys, r: ReqId, t: TicketId): Sys
    requires r in s.reqs
  {
    Goto(s, r, Claiming(t, PRICE, Some(s.box.next))).(
      tlock := map[t := r], box := s.box.(open := map[s.box.next := t], next := s.box.next + 1))
  }

  lemma Locks(s: Sys, r: ReqId, q: Req, t: TicketId, mid: MsgId)
    requires Buyable(s, r, q, t, mid)
    ensures Goes(s, Do(r, Claim(ClaimLock(t))), Locked(s, r, t))
  {
    assert s.tlock[t := r] == map[t := r];
  }

  lemma Draws(s: Sys, r: ReqId, q: Req, t: TicketId, mid: MsgId)
    requires Buyable(s, r, q, t, mid)
    ensures Goes(Locked(s, r, t), Do(r, Claim(ClaimAlloc)), DrewId(s, r, t))
  {
    var s1 := Locked(s, r, t);
    assert s1.reqs[r := q.(pc := Claiming(t, PRICE, Some(s.box.next)))] == DrewId(s, r, t).reqs;
    assert s.box.open[s.box.next := t] == map[s.box.next := t];
  }

  lemma BoxOfClaim(s: Sys, r: ReqId, q: Req, t: TicketId, mid: MsgId)
    requires Buyable(s, r, q, t, mid) && CanClaim(DrewId(s, r, t), r, ClaimCommit(mid))
    ensures DoClaim(DrewId(s, r, t), r, ClaimCommit(mid)).box == Queued(s.box, SaleOf(q, t, mid))
  {
    hide SoldRow, IsPick, Candidate;
    assert DrewId(s, r, t).box.open - {s.box.next} == map[];
  }

  lemma Commits(s: Sys, r: ReqId, q: Req, t: TicketId, mid: MsgId)
    requires Buyable(s, r, q, t, mid)
    ensures Goes(DrewId(s, r, t), Do(r, Claim(ClaimCommit(mid))), Sold(s, r, q, t, mid))
  {
    var s2 := DrewId(s, r, t);
    assert CanClaim(s2, r, ClaimCommit(mid));
    SaleCommitted(s2, r, mid);
    hide CanClaim, SoldRow, IsPick, Candidate;
    var s' := DoClaim(s2, r, ClaimCommit(mid));
    assert s'.tlock == map[];
    assert s'.box == Queued(s.box, SaleOf(q, t, mid)) by { BoxOfClaim(s, r, q, t, mid); }
    hide Queued, SaleOf, NewPayment, DoClaim;
    assert s'.reqs == s.reqs[r := q.(pc := Claimed(t, s.clock, PRICE))];
  }

  /** Request r claims the seat, up to the charge. */
  lemma Buy(s0: Sys, steps: seq<Step>, s: Sys, r: ReqId, q: Req, t: TicketId, mid: MsgId) returns (steps': seq<Step>)
    requires Leads(s0, steps, s) && Buyable(s, r, q, t, mid)
    ensures Leads(s0, steps', Sold(s, r, q, t, mid))
  {
    hide Goes, Leads, Sold, Locked, DrewId;
    Locks(s, r, q, t, mid);
    Draws(s, r, q, t, mid);
    Commits(s, r, q, t, mid);
    steps' := Then(s0, steps, s, Do(r, Claim(ClaimLock(t))), Locked(s, r, t));
    steps' := Then(s0, steps', Locked(s, r, t), Do(r, Claim(ClaimAlloc)), DrewId(s, r, t));
    steps' := Then(s0, steps', DrewId(s, r, t), Do(r, Claim(ClaimCommit(mid))), Sold(s, r, q, t, mid));
  }

  // ---------------------------------------------------------------- the charge

  function Paid(s: Sys, r: ReqId, q: Req, t: TicketId, p: PaymentId): Sys {
    var n := s.prov.issued + 1;
    s.(reqs := s.reqs[r := q.(pc := Charged(t, p, PRICE, n))],
       prov := s.prov.(issued := n, made := s.prov.made[n := PaymentIntent(n, PRICE)], byKey := s.prov.byKey[ChargeKey(q, p) := n]),
       hist := s.hist.(paid := s.hist.paid[p := n], payer := s.hist.payer[n := p]))
  }

  lemma Pays(s0: Sys, steps: seq<Step>, s: Sys, r: ReqId, q: Req, t: TicketId, p: PaymentId) returns (steps': seq<Step>)
    requires Leads(s0, steps, s) && At(s, r, q, Claimed(t, p, PRICE)) && ChargeKey(q, p) !in s.prov.byKey
    ensures Leads(s0, steps', Paid(s, r, q, t, p))
  {
    hide Leads;
    steps' := Then(s0, steps, s, Do(r, Pay(ChargeOk)), Paid(s, r, q, t, p));
  }

  function SettledRow(s: Sys, r: ReqId, q: Req, t: TicketId, p: PaymentId, n: nat): Sys
    requires p in s.payments
  {
    s.(reqs := s.reqs[r := q.(pc := Answered(Bill(t, n, PRICE)))],
       payments := s.payments[p := s.payments[p].(status := Succeeded, intent := Intent(n))])
  }

  lemma Settles(s0: Sys, steps: seq<Step>, s: Sys, r: ReqId, q: Req, t: TicketId, p: PaymentId, n: nat)
    returns (steps': seq<Step>)
    requires Leads(s0, steps, s) && At(s, r, q, Charged(t, p, PRICE, n)) && p in s.payments && p !in s.plock
    ensures Leads(s0, steps', SettledRow(s, r, q, t, p, n))
  {
    hide Leads, Bill;
    steps' := Then(s0, steps, s, Do(r, Pay(Settle)), SettledRow(s, r, q, t, p, n));
  }

  lemma Declines(s0: Sys, steps: seq<Step>, s: Sys, r: ReqId, q: Req, t: TicketId, p: PaymentId) returns (steps': seq<Step>)
    requires Leads(s0, steps, s) && At(s, r, q, Claimed(t, p, PRICE))
    ensures Leads(s0, steps', s.(reqs := s.reqs[r := q.(pc := ChargeFailed(t, p, CardDeclined))]))
  {
    hide Leads;
    steps' := Then(s0, steps, s, Do(r, Pay(ChargeErr(CardDeclined))),
                   s.(reqs := s.reqs[r := q.(pc := ChargeFailed(t, p, CardDeclined))]));
  }

  // ---------------------------------------------------------------- the release

  function GivenBack(s: Sys, r: ReqId, q: Req, t: TicketId, p: PaymentId): Sys
    requires t in s.tickets && p in s.payments
  {
    s.(reqs := s.reqs[r := q.(pc := Answered(Denial(CardDeclined)))],
       tickets := s.tickets[t := FreeRow(s.tickets[t])],
       payments := s.payments[p := s.payments[p].(status := Failed)],
       hist := Freed(s.hist, t, p))
  }

  predicate Returnable(s: Sys, r: ReqId, q: Req, t: TicketId, p: PaymentId) {
    Still(s) && t in s.tickets && s.tickets[t].status.Bought? && p in s.payments && At(s, r, q, ChargeFailed(t, p, CardDeclined))
  }

  function RowTaken(s: Sys, r: ReqId, q: Req, t: TicketId, p: PaymentId): Sys {
    s.(reqs := s.reqs[r := q.(pc := Releasing(t, p, CardDeclined, true, false))], tlock := map[t := r])
  }

  function BothTaken(s: Sys, r: ReqId, q: Req, t: TicketId, p: PaymentId): Sys {
    s.(reqs := s.reqs[r := q.(pc := Releasing(t, p, CardDeclined, true, true))], tlock := map[t := r], plock := map[p := r])
  }

  lemma TakesRow(s: Sys, r: ReqId, q: Req, t: TicketId, p: PaymentId)
    requires Returnable(s, r, q, t, p)
    ensures Goes(s, Do(r, Release(ReleaseTicket)), RowTaken(s, r, q, t, p))
  {
    assert s.tlock[t := r] == map[t := r];
  }

  lemma TakesPayment(s: Sys, r: ReqId, q: Req, t: TicketId, p: PaymentId)
    requires Returnable(s, r, q, t, p)
    ensures Goes(RowTaken(s, r, q, t, p), Do(r, Release(ReleasePayment)), BothTaken(s, r, q, t, p))
  {
    assert s.plock[p := r] == map[p := r];
    assert RowTaken(s, r, q, t, p).reqs[r := BothTaken(s, r, q, t, p).reqs[r]] == BothTaken(s, r, q, t, p).reqs;
  }

  lemma Releases(s: Sys, r: ReqId, q: Req, t: TicketId, p: PaymentId)
    requires Returnable(s, r, q, t, p)
    ensures Goes(BothTaken(s, r, q, t, p), Do(r, Release(ReleaseCommit)), GivenBack(s, r, q, t, p))
  {
    hide Freed, FreeRow, Denial;
    var s2 := BothTaken(s, r, q, t, p);
    assert s2.tlock - {t} == map[] && s2.plock - {p} == map[];
    assert s2.reqs[r := GivenBack(s, r, q, t, p).reqs[r]] == GivenBack(s, r, q, t, p).reqs;
  }

  /** Request r, whose card was declined, releases whatever purchased row is there. */
  lemma GiveBack(s0: Sys, steps: seq<Step>, s: Sys, r: ReqId, q: Req, t: TicketId, p: PaymentId) returns (steps': seq<Step>)
    requires Leads(s0, steps, s) && Returnable(s, r, q, t, p)
    ensures Leads(s0, steps', GivenBack(s, r, q, t, p))
  {
    hide Goes, Leads, RowTaken, BothTaken, GivenBack;
    TakesRow(s, r, q, t, p);
    TakesPayment(s, r, q, t, p);
    Releases(s, r, q, t, p);
    steps' := Then(s0, steps, s, Do(r, Release(ReleaseTicket)), RowTaken(s, r, q, t, p));
    steps' := Then(s0, steps', RowTaken(s, r, q, t, p), Do(r, Release(ReleasePayment)), BothTaken(s, r, q, t, p));
    steps' := Then(s0, steps', BothTaken(s, r, q, t, p), Do(r, Release(ReleaseCommit)), GivenBack(s, r, q, t, p));
  }

  // ---------------------------------------------------------------- the cancellation

  function NoticeOf(s: Sys, q: Req, mid: MsgId): Message
    requires q.call.Cancellation? && q.call.ticket in s.tickets
  {
    Cancelled(mid, q.call.ticket, s.tickets[q.call.ticket].event, q.user, q.call.reason)
  }

  function Undone(s: Sys, r: ReqId, q: Req, mid: MsgId): Sys
    requires q.call.Cancellation? && q.call.ticket in s.tickets
  {
    var t := q.call.ticket;
    s.(reqs := s.reqs[r := q.(pc := AfterCommit(Capture(None, ByTicket(s, t))))],
       tickets := s.tickets[t := FreeRow(s.tickets[t])],
       logs := s.logs + [CancelLog(t, q.user, s.tickets[t].event, q.call.reason, r)],
       box := Queued(s.box, NoticeOf(s, q, mid)),
       hist := CalledOffBy(s.hist, t))
  }

  predicate Cancellable(s: Sys, r: ReqId, q: Req, mid: MsgId) {
    && Still(s) && q.call.Cancellation? && q.call.ticket in s.tickets
    && s.tickets[q.call.ticket].status.Bought? && s.tickets[q.call.ticket].owner == Some(q.user)
    && At(s, r, q, Attempt(1, None)) && mid !in s.box.home
  }

  function Read(s: Sys, r: ReqId, q: Req): Sys
    requires q.call.Cancellation? && q.call.ticket in s.tickets
  {
    s.(reqs := s.reqs[r := q.(pc := Snapped(1, None, TakeSnapshot(s, q.call.ticket)))])
  }

  function RowLocked(s: Sys, r: ReqId, q: Req): Sys
    requires q.call.Cancellation? && q.call.ticket in s.tickets
  {
    s.(reqs := s.reqs[r := q.(pc := Cancelling(1, None, TakeSnapshot(s, q.call.ticket), None))], tlock := map[q.call.ticket := r])
  }

  function IdDrawn(s: Sys, r: ReqId, q: Req): Sys
    requires q.call.Cancellation? && q.call.ticket in s.tickets
  {
    s.(reqs := s.reqs[r := q.(pc := Cancelling(1, None, TakeSnapshot(s, q.call.ticket), Some(s.box.next)))],
       tlock := map[q.call.ticket := r],
       box := s.box.(open := map[s.box.next := q.call.ticket], next := s.box.next + 1))
  }

  function Picked(s: Sys, r: ReqId, q: Req): Sys
    requires q.call.Cancellation? && q.call.ticket in s.tickets
  {
    var snap := TakeSnapshot(s, q.call.ticket);
    IdDrawn(s, r, q).(reqs := s.reqs[r := q.(pc := CancelReady(1, Capture(None, snap.pick), snap, s.box.next))])
  }

  lemma Reads(s: Sys, r: ReqId, q: Req, mid: MsgId)
    requires Cancellable(s, r, q, mid)
    ensures Goes(s, Do(r, Cancel(CancelRead)), Read(s, r, q))
  {
    hide TakeSnapshot;
  }

  lemma LocksRow(s: Sys, r: ReqId, q: Req, mid: MsgId)
    requires Cancellable(s, r, q, mid)
    ensures Goes(Read(s, r, q), Do(r, Cancel(CancelLock)), RowLocked(s, r, q))
  {
    hide ByTicket, NewestSettled;
    assert s.tlock[q.call.ticket := r] == map[q.call.ticket := r];
    assert Read(s, r, q).reqs[r := RowLocked(s, r, q).reqs[r]] == RowLocked(s, r, q).reqs;
  }

  lemma DrawsId(s: Sys, r: ReqId, q: Req, mid: MsgId)
    requires Cancellable(s, r, q, mid)
    ensures Goes(RowLocked(s, r, q), Do(r, Cancel(CancelAlloc)), IdDrawn(s, r, q))
  {
    hide TakeSnapshot;
    assert s.box.open[s.box.next := q.call.ticket] == map[s.box.next := q.call.ticket];
    assert RowLocked(s, r, q).reqs[r := IdDrawn(s, r, q).reqs[r]] == IdDrawn(s, r, q).reqs;
  }

  lemma PicksOne(s: Sys, r: ReqId, q: Req, mid: MsgId)
    requires Cancellable(s, r, q, mid)
    ensures Goes(IdDrawn(s, r, q), Do(r, Cancel(CancelPick)), Picked(s, r, q))
  {
    hide TakeSnapshot, Capture;
    assert IdDrawn(s, r, q).reqs[r := Picked(s, r, q).reqs[r]] == Picked(s, r, q).reqs;
  }

  lemma CanCommitCancel(s: Sys, r: ReqId, q: Req, mid: MsgId)
    requires Cancellable(s, r, q, mid)
    ensures CanCancel(Picked(s, r, q), r, CancelCommit(mid))
  {
    hide TakeSnapshot, Capture;
  }

  lemma CommitsCancel(s: Sys, r: ReqId, q: Req, mid: MsgId)
    requires Cancellable(s, r, q, mid)
    ensures Goes(Picked(s, r, q), Do(r, Cancel(CancelCommit(mid))), Undone(s, r, q, mid))
  {
    hide CanCancel, DoCancel, Picked, Undone;
    CanCommitCancel(s, r, q, mid);
    CommitIs(s, r, q, mid);
  }

  lemma CommitIs(s: Sys, r: ReqId, q: Req, mid: MsgId)
    requires Cancellable(s, r, q, mid) && CanCancel(Picked(s, r, q), r, CancelCommit(mid))
    ensures DoCancel(Picked(s, r, q), r, CancelCommit(mid)) == Undone(s, r, q, mid)
  {
    hide CanCancel, DoCancel, ByTicket, NewestSettled, Capture, CalledOffBy, FreeRow, NoticeOf, Queued;
    var s1 := Picked(s, r, q);
    CancelCommitted(s1, r, mid);
    var s' := DoCancel(s1, r, CancelCommit(mid));
    assert s'.tlock == map[];
    assert s'.reqs == Undone(s, r, q, mid).reqs;
    BoxOfCancel(s, r, q, mid);
  }

  lemma BoxOfCancel(s: Sys, r: ReqId, q: Req, mid: MsgId)
    requires Cancellable(s, r, q, mid) && CanCancel(Picked(s, r, q), r, CancelCommit(mid))
    ensures DoCancel(Picked(s, r, q), r, CancelCommit(mid)).box == Queued(s.box, NoticeOf(s, q, mid))
  {
    hide CalledOffBy, FreeRow, ByTicket, NewestSettled, Capture;
    assert IdDrawn(s, r, q).box.open - {s.box.next} == map[];
  }

  /** The holder cancels, at the first attempt, up to the refund. */
  lemma CallOff(s0: Sys, steps: seq<Step>, s: Sys, r: ReqId, q: Req, mid: MsgId) returns (steps': seq<Step>)
    requires Leads(s0, steps, s) && Cancellable(s, r, q, mid)
    ensures Leads(s0, steps', Undone(s, r, q, mid))
  {
    hide Goes, Leads, Read, RowLocked, IdDrawn, Picked, Undone;
    Reads(s, r, q, mid);
    LocksRow(s, r, q, mid);
    DrawsId(s, r, q, mid);
    PicksOne(s, r, q, mid);
    CommitsCancel(s, r, q, mid);
    steps' := Then(s0, steps, s, Do(r, Cancel(CancelRead)), Read(s, r, q));
    steps' := Then(s0, steps', Read(s, r, q), Do(r, Cancel(CancelLock)), RowLocked(s, r, q));
    steps' := Then(s0, steps', RowLocked(s, r, q), Do(r, Cancel(CancelAlloc)), IdDrawn(s, r, q));
    steps' := Then(s0, steps', IdDrawn(s, r, q), Do(r, Cancel(CancelPick)), Picked(s, r, q));
    steps' := Then(s0, steps', Picked(s, r, q), Do(r, Cancel(CancelCommit(mid))), Undone(s, r, q, mid));
  }

  // ---------------------------------------------------------------- larger phases

  function Buyer(user: UserId, e: EventId): Req {
    Req(user, Purchase(e), None, 0, Arrived)
  }

  function Leaver(user: UserId, t: TicketId): Req {
    Req(user, Cancellation(t, ""), None, 0, Arrived)
  }

  // A seat for sale, with nothing going on.
  predicate OnSale(s: Sys, e: EventId, t: TicketId) {
    Still(s) && OnlySeat(s, e, t) && s.tickets[t].status.Available?
  }

  /** Any initial state gets a new seat of a new event. */
  lemma OpenSeat(s0: Sys) returns (steps: seq<Step>, s: Sys, t: TicketId)
    requires Init(s0)
    ensures Leads(s0, steps, s) && OnSale(s, t, t) && s == s0.(tickets := s.tickets, hist := s.hist)
    ensures s.hist == s0.hist.(minted := s.hist.minted) && t !in s0.tickets
    ensures s.tickets == s0.tickets[t := Ticket(t, PRICE, Available, None, None, None, 0)]
  {
    t := NewName(s0);
    NoSteps(s0);
    steps, s := MintSeat(s0, [], s0, t, t);
  }

  function SoldTo(s: Sys, r: ReqId, u: UserId, e: EventId, t: TicketId, mid: MsgId): Sys
    requires t in s.tickets
  {
    Sold(s, r, Buyer(u, e), t, mid)
  }

  /** A new request buys the seat, up to the charge. */
  lemma Sell(s0: Sys, steps: seq<Step>, s: Sys, r: ReqId, u: UserId, e: EventId, t: TicketId, mid: MsgId)
    returns (steps': seq<Step>)
    requires Leads(s0, steps, s) && OnSale(s, e, t) && r !in s.reqs && mid !in s.box.home
    ensures Leads(s0, steps', SoldTo(s, r, u, e, t, mid))
  {
    hide Leads;
    var q := Buyer(u, e);
    steps' := Enter(s0, steps, s, r, q);
    steps' := Buy(s0, steps', Entered(s, r, q), r, q, t, mid);
    assert Sold(Entered(s, r, q), r, q, t, mid) == SoldTo(s, r, u, e, t, mid) by { EnteredSold(s, r, q, t, mid); }
  }

  lemma EnteredSold(s: Sys, r: ReqId, q: Req, t: TicketId, mid: MsgId)
    requires t in s.tickets && q.call.Purchase? && q.key.None?
    ensures Sold(Entered(s, r, q), r, q, t, mid) == Sold(s, r, q, t, mid)
  {
    var pc := Claimed(t, s.clock, PRICE);
    assert Entered(s, r, q).reqs[r := q.(pc := pc)] == s.reqs[r := q.(pc := pc)];
  }

  // The same sale, charged.
  function Billed(s: Sys, r: ReqId, u: UserId, e: EventId, t: TicketId, mid: MsgId): Sys
    requires t in s.tickets
  {
    Paid(SoldTo(s, r, u, e, t, mid), r, Buyer(u, e), t, s.clock)
  }

  // What a sale comes to, when its charge is made and recorded.
  ghost predicate SaleDone(s: Sys, s': Sys, r: ReqId, u: UserId, e: EventId, t: TicketId, mid: MsgId)
    requires t in s.tickets
  {
    var n := s.prov.issued + 1;
    && r in s'.reqs && s' == s.(reqs := s.reqs[r := s'.reqs[r]], tickets := s'.tickets, payments := s'.payments, prov := s'.prov,
                               box := s'.box, clock := s.clock + 1, hist := s'.hist)
    && s'.tickets == s.tickets[t := SoldRow(s.tickets[t], t, u, s.clock)]
    && s'.payments == s.payments[s.clock := Payment(t, u, Intent(n), PRICE, Succeeded, None, s.clock)]
    && s'.prov == s.prov.(issued := n, made := s.prov.made[n := PaymentIntent(n, PRICE)], byKey := s.prov.byKey[PaymentKey(s.clock) := n])
    && s'.box == Queued(s.box, SaleOf(Buyer(u, e), t, mid))
    && s'.hist.held == s.hist.held[t := s.clock] && s'.hist.fate == s.hist.fate[s.clock := Holding]
    && s'.hist.paid == s.hist.paid[s.clock := n]
  }

  lemma Bills(s0: Sys, steps: seq<Step>, s: Sys, r: ReqId, u: UserId, e: EventId, t: TicketId, mid: MsgId)
    returns (steps': seq<Step>)
    requires Leads(s0, steps, s) && OnSale(s, e, t) && r !in s.reqs && mid !in s.box.home
    requires PaymentKey(s.clock) !in s.prov.byKey
    ensures Leads(s0, steps', Billed(s, r, u, e, t, mid))
  {
    hide Leads, SoldRow;
    steps' := Sell(s0, steps, s, r, u, e, t, mid);
    steps' := Pays(s0, steps', SoldTo(s, r, u, e, t, mid), r, Buyer(u, e), t, s.clock);
  }

  lemma BilledIs(s: Sys, r: ReqId, u: UserId, e: EventId, t: TicketId, mid: MsgId)
    requires OnSale(s, e, t)
    ensures var q := Buyer(u, e);
      var s1 := Billed(s, r, u, e, t, mid);
      var n := s.prov.issued + 1;
      && At(s1, r, q, Charged(t, s.clock, PRICE, n)) && s1.plock == map[]
      && s1.reqs == s.reqs[r := q.(pc := Charged(t, s.clock, PRICE, n))]
      && s1.payments == s.payments[s.clock := NewPayment(s, q, t)]
      && s1 == SoldTo(s, r, u, e, t, mid).(reqs := s1.reqs, prov := s1.prov, hist := s1.hist)
  {
    hide SoldRow, SaleOf, Queued;
  }

  lemma DoneSale(s: Sys, r: ReqId, u: UserId, e: EventId, t: TicketId, mid: MsgId)
    requires OnSale(s, e, t)
    ensures s.clock in Billed(s, r, u, e, t, mid).payments
    ensures SaleDone(s, SettledRow(Billed(s, r, u, e, t, mid), r, Buyer(u, e), t, s.clock, s.prov.issued + 1), r, u, e, t, mid)
  {
    hide SoldRow, Bill, SaleOf, Queued, Billed, SoldTo;
    BilledIs(s, r, u, e, t, mid);
    BilledBooks(s, r, u, e, t, mid);
    var q, n := Buyer(u, e), s.prov.issued + 1;
    UpdatedTwice(s.reqs, r, q.(pc := Charged(t, s.clock, PRICE, n)), q.(pc := Answered(Bill(t, n, PRICE))));
    UpdatedTwice(s.payments, s.clock, NewPayment(s, q, t), Payment(t, u, Intent(n), PRICE, Succeeded, None, s.clock));
  }

  lemma UpdatedTwice<K, V>(m: map<K, V>, k: K, v: V, v': V)
    ensures m[k := v][k := v'] == m[k := v']
  {}

  lemma BilledBooks(s: Sys, r: ReqId, u: UserId, e: EventId, t: TicketId, mid: MsgId)
    requires OnSale(s, e, t)
    ensures var s', n := Billed(s, r, u, e, t, mid), s.prov.issued + 1;
      && s' == s.(reqs := s'.reqs, tickets := s'.tickets, payments := s'.payments, prov := s'.prov, box := s'.box,
                  clock := s.clock + 1, hist := s'.hist)
      && s'.tickets == s.tickets[t := SoldRow(s.tickets[t], t, u, s.clock)]
      && s'.prov == s.prov.(issued := n, made := s.prov.made[n := PaymentIntent(n, PRICE)], byKey := s.prov.byKey[PaymentKey(s.clock) := n])
      && s'.box == Queued(s.box, SaleOf(Buyer(u, e), t, mid))
      && s'.hist.held == s.hist.held[t := s.clock] && s'.hist.fate == s.hist.fate[s.clock := Holding]
      && s'.hist.paid == s.hist.paid[s.clock := n]
  {
    hide SoldRow, SaleOf, Queued, NewPayment;
  }

  /** A new request buys the seat, is charged and settles. */
  lemma SellPaid(s0: Sys, steps: seq<Step>, s: Sys, r: ReqId, u: UserId, e: EventId, t: TicketId, mid: MsgId)
    returns (steps': seq<Step>, s': Sys)
    requires Leads(s0, steps, s) && OnSale(s, e, t) && r !in s.reqs && mid !in s.box.home
    requires PaymentKey(s.clock) !in s.prov.byKey
    ensures Leads(s0, steps', s') && SaleDone(s, s', r, u, e, t, mid)
  {
    hide Leads, SaleDone, Billed, SettledRow;
    steps' := Bills(s0, steps, s, r, u, e, t, mid);
    BilledIs(s, r, u, e, t, mid);
    DoneSale(s, r, u, e, t, mid);
    var n := s.prov.issued + 1;
    steps' := Settles(s0, steps', Billed(s, r, u, e, t, mid), r, Buyer(u, e), t, s.clock, n);
    s' := SettledRow(Billed(s, r, u, e, t, mid), r, Buyer(u, e), t, s.clock, n);
  }

  function Vacated(s: Sys, r: ReqId, u: UserId, t: TicketId, mid: MsgId): Sys
    requires t in s.tickets
  {
    Undone(s, r, Leaver(u, t), mid)
  }

  /** A new request of the holder cancels, up to the refund. */
  lemma Leave(s0: Sys, steps: seq<Step>, s: Sys, r: ReqId, u: UserId, t: TicketId, mid: MsgId) returns (steps': seq<Step>)
    requires Leads(s0, steps, s) && Still(s) && t in s.tickets && r !in s.reqs && mid !in s.box.home
    requires s.tickets[t].status.Bought? && s.tickets[t].owner == Some(u)
    ensures Leads(s0, steps', Vacated(s, r, u, t, mid))
  {
    hide Leads, ByTicket, FreeRow, CalledOffBy, Capture;
    var q := Leaver(u, t);
    steps' := Enter(s0, steps, s, r, q);
    steps' := CallOff(s0, steps', Entered(s, r, q), r, q, mid);
    assert Undone(Entered(s, r, q), r, q, mid) == Vacated(s, r, u, t, mid) by { EnteredUndone(s, r, q, mid); }
  }

  lemma EnteredUndone(s: Sys, r: ReqId, q: Req, mid: MsgId)
    requires q.call.Cancellation? && q.call.ticket in s.tickets && q.key.None?
    ensures Undone(Entered(s, r, q), r, q, mid) == Undone(s, r, q, mid)
  {
    hide FreeRow, CalledOffBy, Capture;
    var pc := AfterCommit(Capture(None, ByTicket(s, q.call.ticket)));
    assert Entered(s, r, q).reqs[r := q.(pc := pc)] == s.reqs[r := q.(pc := pc)];
  }
}
