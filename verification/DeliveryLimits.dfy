/** Where the delivery guarantees stop: exact conditions, and runs of the service, from every initial state, that fail them. */
module DeliveryLimits {
  import opened Types
  import opened System
  import opened Outbox
  import opened Runs
  import Payments
  import Invariant
  import OutboxProofs
  import DeliveryTheorems
  import Drain
  import Projection
  import ServiceDelivery
  import Telling

  lemma StillSound(s0: Sys, steps: seq<Step>, s: Sys)
    requires System.Init(s0) && Leads(s0, steps, s)
    ensures OutboxProofs.Sound(s.box)
  {
    Invariant.InvInit(s0);
    Invariant.InvRun(s0, steps);
    hide System.Init, System.Legal, System.Run, OutboxProofs.Sound;
  }

  // ---------------------------------------------------------------- a cancellation before its purchase

  // User 0 buys and cancels at once: rows n and n + 1 are committed and neither is published.
  lemma BuyAndLeave(s0: Sys) returns (steps: seq<Step>, s: Sys, t: TicketId)
    requires System.Init(s0)
    ensures Leads(s0, steps, s)
    ensures s.box == Queued(Queued(s0.box, Purchased(0, t, t, 0, PRICE)), Cancelled(1, t, t, 0, ""))
  {
    hide Leads, ByTicket, Capture, CalledOffBy, Queued;
    steps, s, t := OpenSeat(s0);
    assert s.box == s0.box;
    steps := Sell(s0, steps, s, 0, 0, t, t, 0);
    var s1 := SoldTo(s, 0, 0, t, t, 0);
    QueuedIs(s.box, SaleOf(Buyer(0, t), t, 0));
    steps := Leave(s0, steps, s1, 1, 0, t, 1);
    s := Vacated(s1, 1, 0, t, 1);
  }

  lemma JustLeft(s0: Sys) returns (steps: seq<Step>, s: Sys, a: nat, c: nat)
    requires System.Init(s0)
    ensures Leads(s0, steps, s) && OutboxProofs.Sound(s.box) && s.box.relays == s0.box.relays && s.box.failed == {}
    ensures a in s.box.rows && c in s.box.rows && a < c && s.box.rows[a].msg.Purchased? && s.box.rows[c].msg.Cancelled?
    ensures s.box.rows[a].msg.ticket == s.box.rows[c].msg.ticket && !Telling.IsTold(s.box, a) && Telling.CanTell(s.box, c)
  {
    hide Leads, Telling.CanTell, Telling.IsTold, OutboxProofs.Sound, Outbox.Init, Queued;
    assert Outbox.Init(s0.box);
    var t;
    steps, s, t := BuyAndLeave(s0);
    hide System.Init;
    StillSound(s0, steps, s);
    Unsent(s0.box, Purchased(0, t, t, 0, PRICE), Cancelled(1, t, t, 0, ""));
    a, c := s0.box.next, s0.box.next + 1;
  }

  /** A cancellation told, its purchase not: one relay is enough, and nothing ever failed. */
  lemma CancellationFirst(s0: Sys) returns (steps: seq<Step>, a: nat, c: nat)
    requires System.Init(s0) && s0.box.relays != map[]
    ensures System.Legal(s0, steps)
    ensures var d := System.Run(s0, steps).box;
      && a in d.rows && c in d.rows && a < c && d.rows[a].msg.Purchased? && d.rows[c].msg.Cancelled?
      && d.rows[a].msg.ticket == d.rows[c].msg.ticket
      && Telling.IsTold(d, c) && !Telling.IsTold(d, a) && d.failed == {}
  {
    hide System.Init, System.Legal, System.Run, OutboxProofs.Sound, Telling.CanTell, Telling.IsTold, Telling.Leads;
    var s;
    steps, s, a, c := JustLeft(s0);
    var bs, d := Telling.TellBefore(s.box, a, c);
    Telling.Reached(s.box, bs, d);
    steps := Delivers(s0, steps, s, bs, d);
  }

  // Of two rows just committed neither is told and both can be.
  lemma Unsent(d0: Delivery, m0: Message, m1: Message)
    requires Outbox.Init(d0)
    ensures var d, n := Queued(Queued(d0, m0), m1), d0.next;
      && n in d.rows && n + 1 in d.rows && d.rows[n].msg == m0 && d.rows[n + 1].msg == m1
      && Telling.CanTell(d, n) && Telling.CanTell(d, n + 1) && !Telling.IsTold(d, n) && !Telling.IsTold(d, n + 1)
      && d.failed == {} && d.relays == d0.relays
  {}

  // ---------------------------------------------------------------- two relays

  // The relay takes the only row that is pending and unlocked.
  lemma FetchAlone(d: Delivery, k: RelayId, id: nat) returns (steps: seq<BoxStep>, d': Delivery)
    requires k in d.relays && d.relays[k].Idle? && id in d.rows && id < d.next
    requires forall x: nat :: IsPending(d.rows, d.olock.Keys, x) <==> x == id
    ensures Telling.Leads(d, steps, d')
    ensures d' == d.(relays := d.relays[k := Fetching([Record(id, d.rows[id].msg)])], olock := d.olock[id := k])
  {
    var r := Record(id, d.rows[id].msg);
    OutboxProofs.FetchIsInOrder(d.rows, d.olock.Keys, d.next, BATCH_SIZE);
    OneFetched(d, id);
    hide Telling.Leads, FetchUnpublished;
    Telling.NoSteps(d);
    steps := Telling.Then(d, [], d, Relay(k, FetchLock(BATCH_SIZE)));
    d' := Outbox.Apply(d, Relay(k, FetchLock(BATCH_SIZE)));
    assert Ids([r]) == {id} by { assert r in [r]; }
    assert LockAll(d.olock, {id}, k) == d.olock[id := k];
  }

  lemma OneFetched(d: Delivery, id: nat)
    requires id in d.rows && id < d.next && forall x: nat :: IsPending(d.rows, d.olock.Keys, x) <==> x == id
    ensures FetchUnpublished(d.rows, d.olock.Keys, d.next, BATCH_SIZE) == [Record(id, d.rows[id].msg)]
  {
    OutboxProofs.PendingRowsAre(d.rows, d.olock.Keys, d.next);
    var q := PendingRows(d.rows, d.olock.Keys, d.next);
    hide PendingRows;
    Drain.AscendingUnique(q, [Record(id, d.rows[id].msg)]);
  }

  // The relay carries its one row from the fetch to the log.
  lemma SendAlone(d: Delivery, k: RelayId, r: Record) returns (steps: seq<BoxStep>, d': Delivery)
    requires k in d.relays && d.relays[k] == Fetching([r])
    ensures Telling.Leads(d, steps, d')
    ensures d' == d.(logs := d'.logs, relays := d.relays[k := Producing([r], {PartOf(r.msg)})], olock := Unlock(d.olock, k))
    ensures LogOf(d', PartOf(r.msg)) == LogOf(d, PartOf(r.msg)) + [r.msg]
  {
    var p := PartOf(r.msg);
    hide Telling.Leads;
    Telling.NoSteps(d);
    steps := Telling.Then(d, [], d, Relay(k, FetchDone));
    var d1 := Outbox.Apply(d, Relay(k, FetchDone));
    steps := Telling.Then(d, steps, d1, Relay(k, Append(p, 1)));
    d' := Outbox.Apply(d1, Relay(k, Append(p, 1)));
    assert [r][..1] == [r] && [r][..0] == [] && Slice([r], p) == Slice([], p) + [r.msg];
    assert {} + {p} == {p};
  }

  // After the first relay's fetch: it keeps its row locked while the second event is committed.
  function Lingering(d0: Delivery, i: RelayId, m0: Message): Delivery {
    Queued(d0, m0).(relays := d0.relays[i := Fetching([Record(d0.next, m0)])], olock := map[d0.next := i])
  }

  lemma FirstFetch(d0: Delivery, i: RelayId, m0: Message) returns (steps: seq<BoxStep>)
    requires Outbox.Init(d0) && i in d0.relays
    ensures Telling.Leads(Queued(d0, m0), steps, Lingering(d0, i, m0))
  {
    hide Telling.Leads;
    var d';
    steps, d' := FetchAlone(Queued(d0, m0), i, d0.next);
  }

  // The second relay takes the second event and writes it; then the first relay writes the first.
  lemma Overtake(d0: Delivery, i: RelayId, j: RelayId, m0: Message, m1: Message)
    returns (steps: seq<BoxStep>, d': Delivery)
    requires Outbox.Init(d0) && i in d0.relays && j in d0.relays && i != j && PartOf(m0) == PartOf(m1)
    ensures Telling.Leads(Queued(Lingering(d0, i, m0), m1), steps, d')
    ensures d'.rows == map[d0.next := Row(m0, false, 0), d0.next + 1 := Row(m1, false, 0)]
    ensures LogOf(d', PartOf(m0)) == [m1, m0]
  {
    hide Telling.Leads;
    var n := d0.next;
    var d := Queued(Lingering(d0, i, m0), m1);
    var d1, d2, more;
    steps, d1 := FetchAlone(d, j, n + 1);
    more, d2 := SendAlone(d1, j, Record(n + 1, m1));
    Telling.Join(d, steps, d1, more, d2);
    steps := steps + more;
    more, d' := SendAlone(d2, i, Record(n, m0));
    Telling.Join(d, steps, d2, more, d');
    steps := steps + more;
  }

  lemma Overtaken(d: Delivery, n: nat, m0: Message, m1: Message)
    requires d.rows == map[n := Row(m0, false, 0), n + 1 := Row(m1, false, 0)]
    requires LogOf(d, PartOf(m0)) == [m1, m0] && m0 != m1 && DeliveryTheorems.SameStream(m0, m1)
    ensures !DeliveryTheorems.FirstsInOrder(d)
  {
    assert !DeliveryTheorems.FirstBefore(d, n, n + 1);
  }

  lemma TwoOf(ks: set<RelayId>) returns (i: RelayId, j: RelayId)
    requires |ks| > 1
    ensures i in ks && j in ks && i != j
  {
    i :| i in ks;
    assert |ks - {i}| == |ks| - 1;
    j :| j in ks - {i};
  }

  // ---------------------------------------------------------------- order holds if and only if there is one relay

  predicate BatchedBox(b: BoxStep) {
    b.Relay? && b.a.FetchLock? ==> b.a.limit == BATCH_SIZE
  }

  // Every run of the outbox machine whose fetches use the code's batch size keeps per-ticket order.
  ghost predicate OutboxKeepsOrder(d0: Delivery) {
    forall steps :: Outbox.Legal(d0, steps) && (forall b | b in steps :: BatchedBox(b)) ==>
      DeliveryTheorems.FirstsInOrder(Outbox.Run(d0, steps))
  }

  ghost predicate ServiceKeepsOrder(s0: Sys) {
    forall steps :: System.Legal(s0, steps) && AllBatched(steps) ==>
      DeliveryTheorems.FirstsInOrder(System.Run(s0, steps).box)
  }

  lemma OneRelayOrders(d0: Delivery, steps: seq<BoxStep>)
    requires Outbox.Init(d0) && |d0.relays| <= 1 && Outbox.Legal(d0, steps)
    ensures DeliveryTheorems.FirstsInOrder(Outbox.Run(d0, steps))
  {
    var k := OneOf(d0.relays.Keys);
    var d := Outbox.Run(d0, steps);
    forall a, b ensures DeliveryTheorems.FirstBefore(d, a, b) {
      if a in d.rows && b in d.rows && a < b && DeliveryTheorems.SameStream(d.rows[a].msg, d.rows[b].msg)
         && d.rows[b].msg in LogOf(d, PartOf(d.rows[b].msg)) {
        DeliveryTheorems.PerTicketOrder(d0, k, steps, a, b);
      }
    }
  }

  lemma OneOf(ks: set<RelayId>) returns (k: RelayId)
    requires |ks| <= 1
    ensures ks <= {k}
  {
    if ks == {} {
      k := 0;
    } else {
      k :| k in ks;
      assert |ks - {k}| == 0;
    }
  }

  // A row committed, alone in its transaction.
  lemma Write(d: Delivery, m: Message) returns (steps: seq<BoxStep>)
    requires d.open == map[] && m.mid !in d.home
    ensures Outbox.Legal(d, steps) && Outbox.Run(d, steps) == Queued(d, m) && forall b | b in steps :: BatchedBox(b)
  {
    var d1 := DoQueue(d, Alloc(m.ticket));
    Drain.OneStep(d, Queue(Alloc(m.ticket)));
    Drain.OneStep(d1, Queue(CommitRow(d.next, m)));
    Drain.RunConcat(d, [Queue(Alloc(m.ticket))], [Queue(CommitRow(d.next, m))]);
    steps := [Queue(Alloc(m.ticket)), Queue(CommitRow(d.next, m))];
    assert d1.open - {d.next} == map[];
  }

  // The same for the outbox alone: the two events are written by any two transactions.
  lemma Reorders(d0: Delivery, m0: Message, m1: Message) returns (steps: seq<BoxStep>)
    requires Outbox.Init(d0) && |d0.relays| > 1
    requires m0.mid != m1.mid && DeliveryTheorems.SameStream(m0, m1)
    ensures Outbox.Legal(d0, steps) && (forall b | b in steps :: BatchedBox(b))
    ensures !DeliveryTheorems.FirstsInOrder(Outbox.Run(d0, steps))
  {
    hide Outbox.Legal, Outbox.Run, DeliveryTheorems.FirstsInOrder, BatchedBox;
    var i, j := TwoOf(d0.relays.Keys);
    steps := Write(d0, m0);
    var more := FirstFetch(d0, i, m0);
    steps := Extend(d0, steps, Queued(d0, m0), more, Lingering(d0, i, m0));
    more := Write(Lingering(d0, i, m0), m1);
    steps := Append2(d0, steps, Lingering(d0, i, m0), more);
    var d';
    more, d' := Overtake(d0, i, j, m0, m1);
    steps := Extend(d0, steps, Queued(Lingering(d0, i, m0), m1), more, d');
    Overtaken(d', d0.next, m0, m1);
  }

  lemma Append2(d0: Delivery, a: seq<BoxStep>, d1: Delivery, b: seq<BoxStep>) returns (steps: seq<BoxStep>)
    requires Outbox.Legal(d0, a) && Outbox.Run(d0, a) == d1 && Outbox.Legal(d1, b)
    requires (forall x | x in a :: BatchedBox(x)) && (forall x | x in b :: BatchedBox(x))
    ensures Outbox.Legal(d0, steps) && Outbox.Run(d0, steps) == Outbox.Run(d1, b) && forall x | x in steps :: BatchedBox(x)
  {
    Drain.RunConcat(d0, a, b);
    steps := a + b;
  }

  lemma Extend(d0: Delivery, a: seq<BoxStep>, d1: Delivery, b: seq<BoxStep>, d2: Delivery) returns (steps: seq<BoxStep>)
    requires Outbox.Legal(d0, a) && Outbox.Run(d0, a) == d1 && Telling.Leads(d1, b, d2)
    requires forall x | x in a :: BatchedBox(x)
    ensures Outbox.Legal(d0, steps) && Outbox.Run(d0, steps) == d2 && forall x | x in steps :: BatchedBox(x)
  {
    hide Outbox.Legal, Outbox.Run;
    steps := Append2(d0, a, d1, b);
  }

  /** From any initial outbox: every run keeps each ticket's events of one topic in order if and only if there is at most one relay. */
  lemma OrderIffOneRelay(d0: Delivery)
    requires Outbox.Init(d0)
    ensures OutboxKeepsOrder(d0) <==> |d0.relays| <= 1
  {
    hide Outbox.Init, Outbox.Legal, Outbox.Run, DeliveryTheorems.FirstsInOrder, BatchedBox;
    if |d0.relays| <= 1 {
      forall steps | Outbox.Legal(d0, steps) ensures DeliveryTheorems.FirstsInOrder(Outbox.Run(d0, steps)) {
        OneRelayOrders(d0, steps);
      }
    } else {
      var steps := Reorders(d0, Purchased(0, 0, 0, 0, PRICE), Purchased(1, 0, 0, 1, PRICE));
      assert !OutboxKeepsOrder(d0);
    }
  }

  // User 0 buys and is declined while relay i holds the sale's row; the seat is sold again to user 1.
  lemma SoldTwice(s0: Sys, i: RelayId) returns (steps: seq<Step>, s: Sys, m0: Message, m1: Message)
    requires System.Init(s0) && i in s0.box.relays
    ensures Leads(s0, steps, s) && s.box == Queued(Lingering(s0.box, i, m0), m1)
    ensures m0.mid != m1.mid && DeliveryTheorems.SameStream(m0, m1)
  {
    hide Leads, Telling.Leads, Lingering, Queued, Freed;
    var t;
    steps, s, t := OpenSeat(s0);
    m0, m1 := SaleOf(Buyer(0, t), t, 0), SaleOf(Buyer(1, t), t, 1);
    steps := Sell(s0, steps, s, 0, 0, t, t, 0);
    var s1 := SoldTo(s, 0, 0, t, t, 0);
    var bs := FirstFetch(s0.box, i, m0);
    steps := Delivers(s0, steps, s1, bs, Lingering(s0.box, i, m0));
    LingeringHome(s0.box, i, m0);
    var s2;
    steps, s2 := Refuse(s0, steps, s1.(box := Lingering(s0.box, i, m0)), 0, Buyer(0, t), t, s.clock);
    steps := Sell(s0, steps, s2, 1, 1, t, t, 1);
    s := SoldTo(s2, 1, 1, t, t, 1);
  }

  // The card of request r is declined and the seat goes back.
  lemma Refuse(s0: Sys, steps: seq<Step>, s: Sys, r: ReqId, q: Req, t: TicketId, p: PaymentId)
    returns (steps': seq<Step>, s': Sys)
    requires Leads(s0, steps, s) && Still(s) && At(s, r, q, Claimed(t, p, PRICE))
    requires t in s.tickets && s.tickets[t].status.Bought? && p in s.payments
    ensures Leads(s0, steps', s') && Still(s') && s'.box == s.box && s'.reqs.Keys == s.reqs.Keys
    ensures s'.tickets == s.tickets[t := FreeRow(s.tickets[t])]
  {
    hide Leads, Freed;
    steps' := Declines(s0, steps, s, r, q, t, p);
    var s1 := s.(reqs := s.reqs[r := q.(pc := ChargeFailed(t, p, Payments.CardDeclined))]);
    steps' := GiveBack(s0, steps', s1, r, q, t, p);
    s' := GivenBack(s1, r, q, t, p);
  }

  lemma LingeringHome(d0: Delivery, i: RelayId, m0: Message)
    ensures Lingering(d0, i, m0).home == d0.home[m0.mid := d0.next] && Lingering(d0, i, m0).open == d0.open
  {}

  lemma ServiceReorders(s0: Sys) returns (steps: seq<Step>)
    requires System.Init(s0) && |s0.box.relays| > 1
    ensures System.Legal(s0, steps) && AllBatched(steps) && !DeliveryTheorems.FirstsInOrder(System.Run(s0, steps).box)
  {
    hide Telling.Leads, DeliveryTheorems.FirstsInOrder, Lingering, Queued, System.Legal, System.Run, AllBatched;
    var i, j := TwoOf(s0.box.relays.Keys);
    var s, m0, m1;
    steps, s, m0, m1 := SoldTwice(s0, i);
    var bs, d := Overtake(s0.box, i, j, m0, m1);
    steps := Delivers(s0, steps, s, bs, d);
    Overtaken(d, s0.box.next, m0, m1);
  }

  /** The same for the service: with two relays, a seat given back and sold again can be announced in the wrong order. */
  lemma ServiceOrderIffOneRelay(s0: Sys)
    requires System.Init(s0)
    ensures ServiceKeepsOrder(s0) <==> |s0.box.relays| <= 1
  {
    if |s0.box.relays| <= 1 {
      assert Outbox.Init(s0.box);
      hide System.Init, Outbox.Init, System.Legal, System.Run, Outbox.Legal, Outbox.Run, DeliveryTheorems.FirstsInOrder;
      forall steps | System.Legal(s0, steps) ensures DeliveryTheorems.FirstsInOrder(System.Run(s0, steps).box) {
        Projection.Projects(s0, steps);
        OneRelayOrders(s0.box, Projection.BoxTrace(s0, steps));
      }
    } else {
      hide System.Init, System.Legal, System.Run, DeliveryTheorems.FirstsInOrder;
      var steps := ServiceReorders(s0);
      assert !ServiceKeepsOrder(s0);
    }
  }

  // ---------------------------------------------------------------- a message skipped

  lemma OpenTwo(s0: Sys) returns (steps: seq<Step>, s: Sys, t: TicketId)
    requires System.Init(s0)
    ensures Leads(s0, steps, s) && OnSale(s, t, t) && OnSale(s, t + 3, t + 3)
    ensures s.box == s0.box && s.reqs == map[]
  {
    hide Leads;
    t := NewName(s0);
    NoSteps(s0);
    steps, s := MintSeat(s0, [], s0, t, t);
    steps, s := MintSeat(s0, steps, s, t + 3, t + 3);
  }

  // Two seats whose events share a partition are sold.
  lemma TwoSales(s0: Sys) returns (steps: seq<Step>, s: Sys, m0: Message, m1: Message)
    requires System.Init(s0)
    ensures Leads(s0, steps, s) && s.box == Queued(Queued(s0.box, m0), m1)
    ensures m0.mid == 0 && m1.mid == 1 && PartOf(m0) == PartOf(m1)
  {
    hide Leads, Queued;
    var t;
    steps, s, t := OpenTwo(s0);
    m0, m1 := SaleOf(Buyer(0, t), t, 0), SaleOf(Buyer(0, t + 3), t + 3, 1);
    steps := Sell(s0, steps, s, 0, 0, t, t, 0);
    var s1 := SoldTo(s, 0, 0, t, t, 0);
    QueuedIs(s.box, m0);
    steps := Sell(s0, steps, s1, 1, 0, t + 3, t + 3, 1);
    s := SoldTo(s1, 1, 0, t + 3, t + 3, 1);
  }

  lemma BothFetched(d: Delivery, n: nat, m0: Message, m1: Message)
    requires d.rows == map[n := Row(m0, false, 0), n + 1 := Row(m1, false, 0)] && d.next == n + 2
    ensures FetchUnpublished(d.rows, {}, d.next, BATCH_SIZE) == [Record(n, m0), Record(n + 1, m1)]
  {
    var b := [Record(n, m0), Record(n + 1, m1)];
    hide PendingRows;
    Drain.PendingIn(d.rows, d.next, b[0]);
    forall x ensures x in PendingRows(d.rows, {}, d.next) <==> x in b { Drain.PendingIn(d.rows, d.next, x); }
    Drain.AscendingUnique(PendingRows(d.rows, {}, d.next), b);
  }

  lemma BothMarked(n: nat, m0: Message, m1: Message)
    ensures SetPublished(map[n := Row(m0, false, 0), n + 1 := Row(m1, false, 0)], Ids([Record(n, m0), Record(n + 1, m1)]))
         == map[n := Row(m0, true, 0), n + 1 := Row(m1, true, 0)]
  {
    var b := [Record(n, m0), Record(n + 1, m1)];
    assert Ids(b) == {n, n + 1} by { assert b[0] in b && b[1] in b; }
  }

  lemma SliceTwo(x: Record, y: Record, p: Part)
    ensures Slice([x, y], p) == (if PartOf(x.msg) == p then [x.msg] else []) + (if PartOf(y.msg) == p then [y.msg] else [])
  {
    assert [x, y][..1] == [x] && [x][..0] == [];
    assert Slice([x], p) == Slice([], p) + (if PartOf(x.msg) == p then [x.msg] else []);
  }

  // One pass of one relay publishes both rows.
  lemma PassBoth(d0: Delivery, k: RelayId, m0: Message, m1: Message) returns (steps: seq<BoxStep>, d': Delivery)
    requires Outbox.Init(d0) && k in d0.relays && PartOf(m0) == PartOf(m1)
    ensures Telling.Leads(Queued(Queued(d0, m0), m1), steps, d')
    ensures var d := Queued(Queued(d0, m0), m1); var n := d0.next;
      d' == d.(rows := map[n := Row(m0, true, 0), n + 1 := Row(m1, true, 0)], logs := d'.logs)
    ensures forall p :: LogOf(d', p) == if p == PartOf(m0) then [m0, m1] else []
  {
    var d, n := Queued(Queued(d0, m0), m1), d0.next;
    var batch := [Record(n, m0), Record(n + 1, m1)];
    BothFetched(d, n, m0, m1);
    BothMarked(n, m0, m1);
    Drain.PassPublishes(d, k, BATCH_SIZE);
    Telling.PassOutward(d, k);
    hide Drain.PassSteps, FetchUnpublished, SetPublished, Ids, Slice, Outbox.Legal, Outbox.Run;
    steps := Drain.PassSteps(d, k, BATCH_SIZE);
    d' := Outbox.Run(d, steps);
    forall p ensures LogOf(d', p) == if p == PartOf(m0) then [m0, m1] else [] {
      assert LogOf(d, p) == [];
      SliceTwo(batch[0], batch[1], p);
    }
  }

  // The handler of the first message fails, the second is handled and its offset committed.
  lemma Skip(s0: Sys, steps: seq<Step>, s: Sys, p: Part) returns (steps': seq<Step>, s': Sys)
    requires Leads(s0, steps, s) && s.box.readers == map[] && s.box.notes == map[] && |LogOf(s.box, p)| == 2
    ensures Leads(s0, steps', s')
    ensures s' == s.(box := s.box.(readers := map[p := Reader(2, 2, Waiting)], notes := s'.box.notes, failed := s'.box.failed))
    ensures s'.box.notes.Keys == {LogOf(s.box, p)[1].mid}
  {
    var s1;
    hide Leads, Telling.Leads;
    steps', s1 := Fails(s0, steps, s, p);
    assert LogOf(s1.box, p) == LogOf(s.box, p);
    var bs, d' := Telling.ReadNext(s1.box, p);
    steps' := Delivers(s0, steps', s1, bs, d');
    s' := s1.(box := d');
    assert d'.readers == map[p := Reader(2, 2, Waiting)];
  }

  lemma Fails(s0: Sys, steps: seq<Step>, s: Sys, p: Part) returns (steps': seq<Step>, s': Sys)
    requires Leads(s0, steps, s) && s.box.readers == map[] && |LogOf(s.box, p)| == 2
    ensures Leads(s0, steps', s')
    ensures s' == s.(box := s.box.(readers := map[p := Reader(0, 1, Waiting)], failed := s'.box.failed))
  {
    hide Leads;
    var s1 := s.(box := s.box.(readers := map[p := Reader(0, 0, Handling)]));
    assert Goes(s, Work(p, Poll), s1);
    s' := s1.(box := DoWork(s1.box, p, HandleErr));
    assert Goes(s1, Work(p, HandleErr), s');
    assert s'.box.readers == map[p := Reader(0, 1, Waiting)];
    hide Goes;
    steps' := Then(s0, steps, s, Work(p, Poll), s1);
    steps' := Then(s0, steps', s1, Work(p, HandleErr), s');
  }

  lemma Skipped(d: Delivery, n: nat, m0: Message, m1: Message)
    requires d.rows == map[n := Row(m0, true, 0), n + 1 := Row(m1, true, 0)] && m0.mid == 0 && m1.mid == 1
    requires forall p :: LogOf(d, p) == if p == PartOf(m0) then [m0, m1] else []
    requires d.readers == map[PartOf(m0) := Reader(2, 2, Waiting)] && d.notes.Keys == {1}
    requires forall k | k in d.relays :: d.relays[k].Idle?
    ensures DeliveryTheorems.Quiet(d) && Telling.Lost(d, n)
  {}

  /**
   A handler failure followed by a later commit on the same partition: nothing is pending, a committed message
   is untold, and no continuation of the service tells it.
   */
  lemma FailureThenCommitSkips(s0: Sys) returns (steps: seq<Step>, id: nat)
    requires System.Init(s0) && s0.box.relays != map[]
    ensures System.Legal(s0, steps)
    ensures var s := System.Run(s0, steps);
      && DeliveryTheorems.Quiet(s.box) && id in s.box.rows && !Telling.IsTold(s.box, id)
      && !ServiceDelivery.MayTell(s, id)
  {
    hide System.Legal, System.Run, Telling.Leads, ServiceDelivery.MayTell, OutboxProofs.Sound;
    var k :| k in s0.box.relays;
    id := s0.box.next;
    var s, m0, m1, s';
    steps, s, m0, m1 := TwoSales(s0);
    var bs, d := PassBoth(s0.box, k, m0, m1);
    steps := Delivers(s0, steps, s, bs, d);
    steps, s' := Skip(s0, steps, s.(box := d), PartOf(m0));
    assert forall p :: LogOf(s'.box, p) == LogOf(d, p);
    Skipped(s'.box, id, m0, m1);
    StillSound(s0, steps, s');
    NeverTold(s', id);
  }

  lemma NeverTold(s: Sys, id: nat)
    requires OutboxProofs.Sound(s.box) && Telling.Lost(s.box, id)
    ensures !ServiceDelivery.MayTell(s, id) && !Telling.IsTold(s.box, id)
  {
    hide OutboxProofs.Sound, System.Legal, System.Run;
    forall steps | System.Legal(s, steps) ensures !Telling.IsTold(System.Run(s, steps).box, id) {
      ServiceDelivery.StaysLost(s, steps, id);
    }
  }
}
