/** Conservation: purchase events, cancellation events, releases and held tickets add up. */
module CountProofs {
  import opened Types
  import opened System
  import opened Frames
  import opened SeatProofs
  import opened OutboxProofs
  import opened Projection
  import Outbox

  // ---------------------------------------------------------------- counting rows

  predicate IsEvent(rows: map<nat, Outbox.Row>, topic: Topic, t: TicketId, id: nat) {
    id in rows && rows[id].msg.ticket == t && rows[id].msg.Topic() == topic
  }

  /** Events of a ticket on a topic among the outbox ids below hi. */
  function Events(rows: map<nat, Outbox.Row>, topic: Topic, t: TicketId, hi: nat): nat {
    if hi == 0 then 0 else Events(rows, topic, t, hi - 1) + if IsEvent(rows, topic, t, hi - 1) then 1 else 0
  }

  function LogsOf(logs: seq<CancelLog>, t: TicketId): nat
    decreases |logs|
  {
    if logs == [] then 0 else LogsOf(Front(logs), t) + if Last(logs).ticket == t then 1 else 0
  }

  lemma {:induction false} EventsSame(
    rows: map<nat, Outbox.Row>, rows': map<nat, Outbox.Row>, topic: Topic, t: TicketId, hi: nat)
    requires rows'.Keys == rows.Keys && forall id | id in rows :: rows'[id].msg == rows[id].msg
    ensures Events(rows', topic, t, hi) == Events(rows, topic, t, hi)
  {
    if hi > 0 { EventsSame(rows, rows', topic, t, hi - 1); }
  }

  lemma {:induction false} EventsAdd(rows: map<nat, Outbox.Row>, oid: nat, row: Outbox.Row, topic: Topic, t: TicketId, hi: nat)
    requires oid !in rows
    ensures Events(rows[oid := row], topic, t, hi) ==
            Events(rows, topic, t, hi) + if oid < hi && row.msg.ticket == t && row.msg.Topic() == topic then 1 else 0
  {
    if hi > 0 { EventsAdd(rows, oid, row, topic, t, hi - 1); }
  }

  // No event of the ticket in between: the count stays.
  lemma {:induction false} EventsFlat(rows: map<nat, Outbox.Row>, topic: Topic, t: TicketId, lo: nat, hi: nat)
    requires lo <= hi && forall id | id in rows && rows[id].msg.ticket == t :: id < lo || id >= hi
    ensures Events(rows, topic, t, hi) == Events(rows, topic, t, lo)
  {
    if lo < hi { EventsFlat(rows, topic, t, lo, hi - 1); }
  }

  // ---------------------------------------------------------------- the law

  function Flag(b: bool): nat {
    if b then 1 else 0
  }

  function Sales(s: Sys, t: TicketId, hi: nat): nat {
    Events(s.box.rows, TicketPurchased, t, hi)
  }

  function Calls(s: Sys, t: TicketId, hi: nat): nat {
    Events(s.box.rows, TicketCancelled, t, hi)
  }

  // A ticket somebody has: bought and not yet given back.
  predicate IsHeld(s: Sys, t: TicketId) {
    t in s.tickets && s.tickets[t].status.Bought?
  }

  /** Purchases (and tickets sold at the start) = cancellations + releases that freed it + 1 if held. */
  ghost predicate Balanced(s: Sys, t: TicketId) {
    && Sales(s, t, s.box.next) + Flag(t in s.hist.seed) ==
       Calls(s, t, s.box.next) + Count(s.hist.frees, t) + Flag(IsHeld(s, t))
    && Calls(s, t, s.box.next) == LogsOf(s.logs, t)
  }

  // No prefix of the ticket's events has more cancellations than purchases.
  ghost predicate PrefixOk(s: Sys, t: TicketId, hi: nat) {
    hi <= s.box.next ==> Calls(s, t, hi) <= Sales(s, t, hi) + Flag(t in s.hist.seed)
  }

  ghost predicate CountInv(s: Sys) {
    && (forall t :: Balanced(s, t))
    && (forall t, hi: nat :: PrefixOk(s, t, hi))
  }

  // ---------------------------------------------------------------- preservation

  /** No event is committed, nothing changes hands; ids may be drawn. */
  ghost predicate NoEvent(s: Sys, s': Sys) {
    && s'.box.rows.Keys == s.box.rows.Keys && (forall id | id in s.box.rows :: s'.box.rows[id].msg == s.box.rows[id].msg)
    && s'.box.next >= s.box.next && s'.logs == s.logs
    && s'.hist.seed == s.hist.seed && s'.hist.frees == s.hist.frees
    && (forall t :: IsHeld(s', t) == IsHeld(s, t))
  }

  lemma CountSame(s: Sys, s': Sys)
    requires Table(s.box) && CountInv(s) && NoEvent(s, s')
    ensures CountInv(s')
  {
    hide IsHeld;
    forall t, hi: nat ensures Sales(s', t, hi) == Sales(s, t, hi) && Calls(s', t, hi) == Calls(s, t, hi) {
      EventsSame(s.box.rows, s'.box.rows, TicketPurchased, t, hi);
      EventsSame(s.box.rows, s'.box.rows, TicketCancelled, t, hi);
    }
    forall t
      ensures Sales(s, t, s'.box.next) == Sales(s, t, s.box.next) && Calls(s, t, s'.box.next) == Calls(s, t, s.box.next)
    {
      EventsFlat(s.box.rows, TicketPurchased, t, s.box.next, s'.box.next);
      EventsFlat(s.box.rows, TicketCancelled, t, s.box.next, s'.box.next);
    }
    hide Sales, Calls, Table;
    forall t ensures Balanced(s', t) { assert Balanced(s, t); }
    forall t, hi: nat ensures PrefixOk(s', t, hi) {
      assert PrefixOk(s, t, hi) && PrefixOk(s, t, s.box.next);
      PrefixBeyond(s, s', t, hi);
    }
  }

  lemma PrefixBeyond(s: Sys, s': Sys, t: TicketId, hi: nat)
    requires Table(s.box)
    ensures hi >= s.box.next ==> Sales(s, t, hi) == Sales(s, t, s.box.next) && Calls(s, t, hi) == Calls(s, t, s.box.next)
  {
    if hi >= s.box.next {
      EventsFlat(s.box.rows, TicketPurchased, t, s.box.next, hi);
      EventsFlat(s.box.rows, TicketCancelled, t, s.box.next, hi);
    }
  }

  /** Ticket t's event m is committed under oid, after all its earlier ones. */
  ghost predicate Event(s: Sys, s': Sys, oid: nat, m: Message) {
    && oid < s.box.next && oid !in s.box.rows && s'.box.next == s.box.next
    && s'.box.rows == s.box.rows[oid := Outbox.Row(m, false, 0)]
    && (forall id | id in s.box.rows && s.box.rows[id].msg.ticket == m.ticket :: id < oid)
    && s'.hist.seed == s.hist.seed && s'.hist.frees == s.hist.frees
    && (m.Purchased? ==> s'.logs == s.logs)
    && (m.Cancelled? ==> s'.logs != [] && Front(s'.logs) == s.logs && Last(s'.logs).ticket == m.ticket)
    && IsHeld(s, m.ticket) == m.Cancelled? && IsHeld(s', m.ticket) == m.Purchased?
    && (forall t: TicketId | t != m.ticket :: IsHeld(s', t) == IsHeld(s, t))
  }

  lemma EventCounts(s: Sys, s': Sys, oid: nat, m: Message, t: TicketId, hi: nat)
    requires Event(s, s', oid, m)
    ensures Sales(s', t, hi) == Sales(s, t, hi) + Flag(oid < hi && t == m.ticket && m.Purchased?)
    ensures Calls(s', t, hi) == Calls(s, t, hi) + Flag(oid < hi && t == m.ticket && m.Cancelled?)
    ensures t == m.ticket && oid < hi <= s.box.next ==>
              Sales(s, t, hi) == Sales(s, t, s.box.next) && Calls(s, t, hi) == Calls(s, t, s.box.next)
  {
    EventsAdd(s.box.rows, oid, Outbox.Row(m, false, 0), TicketPurchased, t, hi);
    EventsAdd(s.box.rows, oid, Outbox.Row(m, false, 0), TicketCancelled, t, hi);
    if t == m.ticket && oid < hi <= s.box.next {
      EventsFlat(s.box.rows, TicketPurchased, t, hi, s.box.next);
      EventsFlat(s.box.rows, TicketCancelled, t, hi, s.box.next);
    }
  }

  lemma EventKeeps(s: Sys, s': Sys, oid: nat, m: Message)
    requires CountInv(s) && Event(s, s', oid, m)
    ensures CountInv(s')
  {
    hide IsHeld, Sales, Calls;
    forall t ensures Balanced(s', t) {
      assert Balanced(s, t);
      EventCounts(s, s', oid, m, t, s.box.next);
    }
    forall t, hi: nat ensures PrefixOk(s', t, hi) {
      assert PrefixOk(s, t, hi) && Balanced(s, t);
      EventCounts(s, s', oid, m, t, hi);
    }
  }

  /** A release frees ticket t: no event, but the history counts it. */
  ghost predicate FreesOne(s: Sys, s': Sys, t: TicketId) {
    && s'.box == s.box && s'.logs == s.logs && s'.hist.seed == s.hist.seed
    && IsHeld(s, t) && !IsHeld(s', t) && s'.hist.frees == s.hist.frees[t := Count(s.hist.frees, t) + 1]
    && (forall u: TicketId | u != t :: IsHeld(s', u) == IsHeld(s, u))
  }

  lemma FreeKeeps(s: Sys, s': Sys, t: TicketId)
    requires CountInv(s) && FreesOne(s, s', t)
    ensures CountInv(s')
  {
    hide IsHeld, Events;
    forall u ensures Balanced(s', u) { assert Balanced(s, u); }
    forall u, hi: nat ensures PrefixOk(s', u, hi) { assert PrefixOk(s, u, hi); }
  }

  // ---------------------------------------------------------------- the acts

  lemma CountClaimCommit(s: Sys, r: ReqId, mid: MsgId)
    requires Table(s.box) && CountInv(s) && CanClaim(s, r, ClaimCommit(mid))
    ensures CountInv(DoClaim(s, r, ClaimCommit(mid)))
  {
    hide CountInv;
    ClaimFrame(s, r, ClaimCommit(mid));
    var s' := DoClaim(s, r, ClaimCommit(mid));
    var m := ClaimEvent(s.reqs[r], mid);
    assert Event(s, s', s.reqs[r].pc.oid.value, m);
    hide Event;
    EventKeeps(s, s', s.reqs[r].pc.oid.value, m);
  }

  lemma CountCancelCommit(s: Sys, r: ReqId, mid: MsgId)
    requires Table(s.box) && ReqSeat(s, r) && CountInv(s) && CanCancel(s, r, CancelCommit(mid))
    ensures CountInv(DoCancel(s, r, CancelCommit(mid)))
  {
    hide CountInv, Event, DoCancel;
    CancelIsEvent(s, r, mid);
    EventKeeps(s, DoCancel(s, r, CancelCommit(mid)), s.reqs[r].pc.drawn, CancelEvent(s.reqs[r], mid));
  }

  lemma CancelIsEvent(s: Sys, r: ReqId, mid: MsgId)
    requires Table(s.box) && ReqSeat(s, r) && CanCancel(s, r, CancelCommit(mid))
    ensures Event(s, DoCancel(s, r, CancelCommit(mid)), s.reqs[r].pc.drawn, CancelEvent(s.reqs[r], mid))
  {
    CancelCommitted(s, r, mid);
    CancelHist(s, r, CancelCommit(mid));
    hide DoCancel;
    assert Front(s.logs + [CancelLog(s.reqs[r].call.ticket, s.reqs[r].user, s.reqs[r].pc.snap.row.event, s.reqs[r].call.reason, r)]) == s.logs;
  }

  lemma CountReleaseCommit(s: Sys, r: ReqId)
    requires Table(s.box) && ReqSeat(s, r) && CountInv(s) && CanRelease(s, r, ReleaseCommit)
    ensures CountInv(DoRelease(s, r, ReleaseCommit))
  {
    hide CountInv, Table;
    ReleaseFrame(s, r, ReleaseCommit);
    var s' := DoRelease(s, r, ReleaseCommit);
    if s.reqs[r].pc.held {
      assert FreesOne(s, s', s.reqs[r].pc.t);
      FreeKeeps(s, s', s.reqs[r].pc.t);
    } else {
      CountSame(s, s');
    }
  }

  // An act that commits nothing moves the outbox by a drawn or returned id at most.
  lemma TameBox(s: Sys, r: ReqId, a: Act)
    requires CanAct(s, r, a) && !Major(a)
    ensures DoAct(s, r, a).box.rows == s.box.rows && DoAct(s, r, a).box.next >= s.box.next
  {
    ActFollows(s, r, a);
    TameMove(s, r, a);
    hide DoAct, CanAct, ActMove, Outbox.CanRelay, Outbox.CanWork, Outbox.DoRelay, Outbox.DoWork;
  }

  lemma TameMove(s: Sys, r: ReqId, a: Act)
    requires CanAct(s, r, a) && !Major(a)
    ensures var m := ActMove(s, r, a); m.None? || (m.value.Queue? && !m.value.q.CommitRow?)
  {
    hide CanGate, CanPay, CanRelease, CanRefund, CanCrash, OpenId, Outbox.CanQueue;
  }

  lemma CountQuiet(s: Sys, r: ReqId, a: Act)
    requires Table(s.box) && CountInv(s) && CanAct(s, r, a) && !Major(a)
    ensures CountInv(DoAct(s, r, a))
  {
    hide CountInv, Table, DoAct, CanAct, Major;
    TameAct(s, r, a);
    TameBox(s, r, a);
    CountSame(s, DoAct(s, r, a));
  }

  lemma CountMoney(s: Sys, r: ReqId, a: Act)
    requires Table(s.box) && CountInv(s) && CanAct(s, r, a) && (a.Pay? || a.Refund?)
    ensures CountInv(DoAct(s, r, a))
  {
    hide CountInv, Table;
    if a.Pay? { PayFrame(s, r, a.y); } else { RefundFrame(s, r, a.f); }
    hide DoPay, DoRefund;
    CountSame(s, DoAct(s, r, a));
  }

  lemma CountAct(s: Sys, r: ReqId, a: Act)
    requires Table(s.box) && SeatInv(s) && CountInv(s) && CanAct(s, r, a)
    ensures CountInv(DoAct(s, r, a))
  {
    assert ReqSeat(s, r);
    hide Table, SeatInv, CountInv, ReqSeat;
    if a.Pay? || a.Refund? {
      CountMoney(s, r, a);
    } else if !Major(a) {
      CountQuiet(s, r, a);
    } else {
      match a
      case Claim(c) => CountClaimCommit(s, r, c.mid);
      case Release(l) => CountReleaseCommit(s, r);
      case Cancel(x) => CountCancelCommit(s, r, x.mid);
    }
  }

  lemma CountKept(s: Sys, step: Step)
    requires Table(s.box) && SeatInv(s) && CountInv(s) && Enabled(s, step)
    ensures CountInv(Apply(s, step))
  {
    hide Table, SeatInv, CountInv, CanAct, DoAct, Outbox.DoRelay, Outbox.DoWork, Outbox.CanRelay, Outbox.CanWork;
    match step
    case Do(r, a) => CountAct(s, r, a);
    case Ship(k, a) => RelayFrame(s.box, k, a); CountSame(s, Apply(s, step));
    case Work(p, w) => WorkerFrame(s.box, p, w); CountSame(s, Apply(s, step));
    case _ => CountSame(s, Apply(s, step));
  }

  lemma CountInit(s: Sys)
    requires Init(s)
    ensures CountInv(s)
  {
    forall topic, t, hi: nat ensures Events(s.box.rows, topic, t, hi) == 0 { NoEvents(s.box.rows, topic, t, hi); }
  }

  lemma {:induction false} NoEvents(rows: map<nat, Outbox.Row>, topic: Topic, t: TicketId, hi: nat)
    requires rows == map[]
    ensures Events(rows, topic, t, hi) == 0
  {
    if hi > 0 { NoEvents(rows, topic, t, hi - 1); }
  }
}
