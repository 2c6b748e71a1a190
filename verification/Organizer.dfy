/** What an organiser sees: the MyEvents aggregate over the tickets of each event. */
module Organizer {
  import opened Types
  import opened System
  import opened SeatProofs
  import opened HoldProofs
  import opened Invariant
  import opened Store
  import opened ServiceTheorems

  /** One row of the report. */
  datatype EventReport = EventReport(event: EventId, total: nat, sold: nat, available: nat, revenue: int)

  function SoldOf(s: Sys, e: EventId): set<TicketId> {
    set t | t in TicketsOf(s, e) && s.tickets[t].status.Bought?
  }

  function FreeOf(s: Sys, e: EventId): set<TicketId> {
    set t | t in TicketsOf(s, e) && s.tickets[t].status.Available?
  }

  /** The event's tickets in that status. */
  function InStatus(s: Sys, e: EventId, status: SeatStatus): (ts: set<TicketId>)
    ensures ts <= s.tickets.Keys
  {
    set t | t in s.tickets && s.tickets[t].event == e && s.tickets[t].status == status
  }

  /** sum(price) over a set of tickets. */
  function PriceSum(s: Sys, ts: set<TicketId>): int
    requires ts <= s.tickets.Keys
  {
    if ts == {} then 0 else var t := Least(ts); s.tickets[t].price + PriceSum(s, ts - {t})
  }

  /** The sum does not depend on the order of the tickets. */
  lemma {:induction false} PriceSumIs(s: Sys, ts: set<TicketId>, t: TicketId)
    requires ts <= s.tickets.Keys && t in ts
    ensures PriceSum(s, ts) == s.tickets[t].price + PriceSum(s, ts - {t}) && PriceSum(s, {}) == 0
    decreases |ts|
  {
    var least := Least(ts);
    if t != least {
      PriceSumIs(s, ts - {least}, t);
      assert ts - {least} - {t} == ts - {t} - {least};
      assert Least(ts - {t}) == least;
    }
  }

  /** The LEFT JOIN with its filtered aggregates, for one event. */
  function Aggregate(s: Sys, e: EventId): EventReport {
    EventReport(e, |TicketsOf(s, e)|, |SoldOf(s, e)|, |FreeOf(s, e)|, PriceSum(s, SoldOf(s, e)))
  }

  /** The figures of one event: its tickets, those purchased, those for sale, and what the purchased ones cost. */
  ghost predicate Figures(s: Sys, report: EventReport) {
    && report.total == |TicketsOf(s, report.event)|
    && report.sold == |InStatus(s, report.event, Bought)| && report.revenue == PriceSum(s, InStatus(s, report.event, Bought))
    && report.available == |InStatus(s, report.event, Available)|
  }

  lemma AggregateIs(s: Sys, e: EventId)
    ensures Aggregate(s, e).event == e && Figures(s, Aggregate(s, e))
  {
    assert SoldOf(s, e) == InStatus(s, e, Bought) && FreeOf(s, e) == InStatus(s, e, Available);
  }

  /** In every reachable state the report adds up: sold plus available is the number of tickets minted. */
  lemma ReportAddsUp(s: Sys, e: EventId)
    requires Reachable(s)
    ensures var report := Aggregate(s, e);
      && report.sold == |InStatus(s, e, Bought)| && report.available == |InStatus(s, e, Available)|
      && report.sold + report.available == report.total == Count(s.hist.minted, e)
  {
    hide Reachable, InStatus, SoldOf, FreeOf, TicketsOf, PriceSum;
    Inventory(s);
    AggregateIs(s, e);
    TwoStatuses(s, e);
  }

  lemma TwoStatuses(s: Sys, e: EventId)
    requires forall t | t in s.tickets :: s.tickets[t].status.Available? || s.tickets[t].status.Bought?
    ensures |InStatus(s, e, Bought)| + |InStatus(s, e, Available)| == |TicketsOf(s, e)|
  {
    var sold, left := InStatus(s, e, Bought), InStatus(s, e, Available);
    assert sold + left == TicketsOf(s, e) && sold !! left;
  }

  /** What the holders' payments amount to. */
  function HeldSum(s: Sys, ts: set<TicketId>): int {
    if ts == {} then 0
    else
      var t := Least(ts);
      HeldSum(s, ts - {t})
      + if t in s.hist.held && s.hist.held[t] in s.payments then s.payments[s.hist.held[t]].amount else 0
  }

  lemma {:induction false} SumsAgree(s: Sys, ts: set<TicketId>)
    requires HoldInv(s) && ts <= s.tickets.Keys && forall t | t in ts :: s.tickets[t].status.Bought? && t !in s.hist.seed
    ensures PriceSum(s, ts) == HeldSum(s, ts)
    decreases |ts|
  {
    if ts != {} {
      var t := Least(ts);
      SumsAgree(s, ts - {t});
      assert HeldOk(s, t) && SoldOk(s, t);
    }
  }

  /**
   Revenue is the holders' payments, tickets sold before the history apart: a claim counts from the
   moment it commits, whether or not its charge has succeeded yet.
   */
  lemma RevenueIsHeldPayments(s: Sys, e: EventId)
    requires Reachable(s) && SoldOf(s, e) !! s.hist.seed
    ensures Aggregate(s, e).revenue == HeldSum(s, SoldOf(s, e))
    ensures forall t | t in SoldOf(s, e) ::
              t in s.hist.held && s.hist.held[t] in s.payments
              && (s.payments[s.hist.held[t]].status.Pending? || s.payments[s.hist.held[t]].status.Succeeded?)
  {
    ReachableInv(s);
    SumsAgree(s, SoldOf(s, e));
    forall t | t in SoldOf(s, e)
      ensures t in s.hist.held && s.hist.held[t] in s.payments
      ensures s.payments[s.hist.held[t]].status.Pending? || s.payments[s.hist.held[t]].status.Succeeded?
    {
      assert HeldOk(s, t) && SoldOk(s, t);
    }
  }

  // ---------------------------------------------------------------- the listing

  /** WHERE $2 = 'admin' OR e.organizer_id = $1 */
  function Visible(events: map<EventId, Event>, user: UserId, role: Role): (ids: set<EventId>)
    ensures ids <= events.Keys
  {
    set e | e in events && (role.Admin? || events[e].organizer == user)
  }

  function Earliest(events: map<EventId, Event>, ids: set<EventId>): (e: EventId)
    requires ids != {} && ids <= events.Keys
    ensures e in ids && forall x | x in ids :: events[e].startTime <= events[x].startTime
  {
    var times := set e | e in ids :: events[e].startTime;
    assert times != {} by { var x :| x in ids; assert events[x].startTime in times; }
    var first := Least(times);
    var best := set e | e in ids && events[e].startTime == first;
    assert best != {} by { var y :| y in ids && events[y].startTime == first; assert y in best; }
    assert forall x | x in ids :: events[x].startTime in times;
    Least(best)
  }

  predicate ByTime(events: map<EventId, Event>, a: EventId, b: EventId) {
    a in events && b in events && events[a].startTime <= events[b].startTime
  }

  /** ORDER BY e.start_time; equal times in id order. */
  function InTimeOrder(events: map<EventId, Event>, ids: set<EventId>): (order: seq<EventId>)
    requires ids <= events.Keys
  {
    if ids == {} then [] else var e := Earliest(events, ids); [e] + InTimeOrder(events, ids - {e})
  }

  // The order lists every id once, by start time.
  lemma {:induction false} OrderIs(events: map<EventId, Event>, ids: set<EventId>)
    requires ids <= events.Keys
    ensures var order := InTimeOrder(events, ids);
      && (forall e :: e in order <==> e in ids)
      && (forall i, j | 0 <= i < j < |order| :: order[i] != order[j])
      && (forall i, j | 0 <= i < j < |order| :: ByTime(events, order[i], order[j]))
    decreases |ids|
  {
    if ids != {} {
      var e := Earliest(events, ids);
      OrderIs(events, ids - {e});
      OneEarlier(events, ids, e, InTimeOrder(events, ids - {e}));
    }
  }

  lemma OneEarlier(events: map<EventId, Event>, ids: set<EventId>, e: EventId, rest: seq<EventId>)
    requires e in ids && ids <= events.Keys && forall x | x in ids :: events[e].startTime <= events[x].startTime
    requires forall x :: x in rest <==> x in ids - {e}
    requires forall i, j | 0 <= i < j < |rest| :: rest[i] != rest[j]
    requires forall i, j | 0 <= i < j < |rest| :: ByTime(events, rest[i], rest[j])
    ensures var order := [e] + rest;
      && (forall x :: x in order <==> x in ids)
      && (forall i, j | 0 <= i < j < |order| :: order[i] != order[j])
      && (forall i, j | 0 <= i < j < |order| :: ByTime(events, order[i], order[j]))
  {
    var order := [e] + rest;
    forall i, j | 0 <= i < j < |order|
      ensures order[i] != order[j] && ByTime(events, order[i], order[j])
    {
      assert order[j] == rest[j - 1] && rest[j - 1] in rest;
      if i > 0 { assert order[i] == rest[i - 1]; }
    }
  }

  /** One report for each visible event, by start time, with that event's figures. */
  ghost predicate Lists(s: Sys, events: map<EventId, Event>, user: UserId, role: Role, reports: seq<EventReport>) {
    && (forall e :: IsReported(reports, e) <==> e in events && (role.Admin? || events[e].organizer == user))
    && (forall i | 0 <= i < |reports| :: Figures(s, reports[i]))
    && (forall i, j | 0 <= i < j < |reports| :: reports[i].event != reports[j].event)
    && (forall i, j | 0 <= i < j < |reports| :: ByTime(events, reports[i].event, reports[j].event))
  }

  ghost predicate IsReported(reports: seq<EventReport>, e: EventId) {
    exists i :: 0 <= i < |reports| && reports[i].event == e
  }

  /**
   The handler: refused unless the caller is an organiser or an admin; then one report for each event of the
   caller's, or each event there is for an admin, by start time. `down`: no connection, or the role cannot be read;
   `fails`: the query does.
   */
  method MyEvents(s: Sys, events: map<EventId, Event>, user: UserId, role: Role, down: bool, fails: bool)
    returns (status: nat, reports: seq<EventReport>)
    ensures status == if down then 500 else if role.Attendee? then 403 else if fails then 500 else 200
    ensures if status == 200 then Lists(s, events, user, role, reports) else reports == []
  {
    hide Lists, Aggregate, InTimeOrder, Visible;
    reports := [];
    if down {
      return 500, [];
    }
    if role.Attendee? {
      return 403, [];
    }
    if fails {
      return 500, [];
    }
    var rows := InTimeOrder(events, Visible(events, user, role));
    for i := 0 to |rows|
      invariant |reports| == i && forall j | 0 <= j < i :: reports[j] == Aggregate(s, rows[j])
    {
      reports := reports + [Aggregate(s, rows[i])];
    }
    InOrderLists(s, events, user, role, rows, reports);
    status := 200;
  }

  lemma InOrderLists(s: Sys, events: map<EventId, Event>, user: UserId, role: Role, rows: seq<EventId>, reports: seq<EventReport>)
    requires rows == InTimeOrder(events, Visible(events, user, role)) && |reports| == |rows|
    requires forall i | 0 <= i < |rows| :: reports[i] == Aggregate(s, rows[i])
    ensures Lists(s, events, user, role, reports)
  {
    hide InTimeOrder, Aggregate, Figures, IsReported, ByTime;
    OrderIs(events, Visible(events, user, role));
    forall i | 0 <= i < |rows| ensures reports[i].event == rows[i] && Figures(s, reports[i]) { AggregateIs(s, rows[i]); }
    ReportedIff(rows, reports);
    Ascends(events, rows, reports);
  }

  lemma ReportedIff(rows: seq<EventId>, reports: seq<EventReport>)
    requires |reports| == |rows| && forall i | 0 <= i < |rows| :: reports[i].event == rows[i]
    ensures forall e :: IsReported(reports, e) <==> e in rows
  {
    forall e | e in rows ensures IsReported(reports, e) {
      var i :| 0 <= i < |rows| && rows[i] == e;
      assert reports[i].event == e;
    }
  }

  lemma Ascends(events: map<EventId, Event>, rows: seq<EventId>, reports: seq<EventReport>)
    requires |reports| == |rows| && forall i | 0 <= i < |rows| :: reports[i].event == rows[i] && rows[i] in events
    requires forall i, j | 0 <= i < j < |rows| :: rows[i] != rows[j]
    requires forall i, j | 0 <= i < j < |rows| :: ByTime(events, rows[i], rows[j])
    ensures forall i, j | 0 <= i < j < |reports| :: reports[i].event != reports[j].event
    ensures forall i, j | 0 <= i < j < |reports| :: ByTime(events, reports[i].event, reports[j].event)
  {
    forall i, j | 0 <= i < j < |reports| ensures ByTime(events, reports[i].event, reports[j].event) {
      assert reports[i].event == rows[i] && reports[j].event == rows[j];
    }
  }
}
