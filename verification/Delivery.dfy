/** Whole-run guarantees of delivery: nothing lost, each effect once, per-ticket order, draining. */
module DeliveryTheorems {
  import opened Types
  import opened Outbox
  import opened OutboxProofs

  // ---------------------------------------------------------------- exactly-once effect

  function RowMids(d: Delivery): set<MsgId> {
    set id | id in d.rows :: d.rows[id].msg.mid
  }

  /** Nothing is pending and every reader has committed the end of its partition. */
  ghost predicate Quiet(d: Delivery) {
    && (forall id | id in d.rows :: d.rows[id].published)
    && (forall p :: ReaderOf(d, p).committed == |LogOf(d, p)|)
  }

  predicate NoHandlerFailure(steps: seq<BoxStep>) {
    forall b | b in steps :: !(b.Worker? && b.w.HandleErr?)
  }

  lemma {:induction false} FailedStays(d: Delivery, steps: seq<BoxStep>)
    requires Legal(d, steps) && NoHandlerFailure(steps)
    ensures Run(d, steps).failed == d.failed
    decreases |steps|
  {
    if steps != [] {
      FailedStays(d, Front(steps));
      FailedStep(Run(d, Front(steps)), Last(steps));
    }
  }

  lemma FailedStep(d: Delivery, b: BoxStep)
    requires Enabled(d, b) && !(b.Worker? && b.w.HandleErr?)
    ensures Apply(d, b).failed == d.failed
  {
    hide Grows, DoRelay, CanRelay, DoWork, CanWork, DoQueue, CanQueue;
    match b
    case Queue(q) => FailedQueue(d, q);
    case Relay(k, a) => RelayFrame(d, k, a);
    case Worker(p, w) => FailedWork(d, p, w);
  }

  lemma FailedQueue(d: Delivery, q: QueueAct)
    requires CanQueue(d, q)
    ensures DoQueue(d, q).failed == d.failed
  {}

  lemma FailedWork(d: Delivery, p: Part, w: WorkerAct)
    requires CanWork(d, p, w) && !w.HandleErr?
    ensures DoWork(d, p, w).failed == d.failed
  {
    hide LogOf, ReaderOf, Notify;
  }

  /** A row marked published is in the log of its partition, whatever relays and crashes there were. */
  lemma PublishedIsInLog(d0: Delivery, steps: seq<BoxStep>, id: nat)
    requires Init(d0) && Legal(d0, steps)
    requires id in Run(d0, steps).rows && Run(d0, steps).rows[id].published
    ensures var d := Run(d0, steps);
      d.rows[id].msg in LogOf(d, PartOf(d.rows[id].msg))
  {
    InitSound(d0);
    SoundRun(d0, steps);
    assert RowOk(Run(d0, steps), id);
  }

  /** The note says what the event says: whose ticket, and what became of it. */
  predicate Tells(note: Notification, m: Message) {
    && note.ticket == m.ticket && note.user == m.user
    && (m.Purchased? ==>
          note.kind.TicketPurchased? && note.body == "Your ticket is confirmed. Amount charged: " + Decimal(m.amount) + " cents.")
    && (m.Cancelled? ==>
          note.kind.TicketCancelled? && note.body == "Your ticket was cancelled and a refund is on its way.")
  }

  /** Each notification tells what one committed row says, and no two rows share a message id. */
  lemma NotificationsComeFromRows(d0: Delivery, steps: seq<BoxStep>)
    requires Init(d0) && Legal(d0, steps)
    ensures var d := Run(d0, steps);
      && (forall m | m in d.notes :: m in d.home && d.home[m] in d.rows && d.rows[d.home[m]].msg.mid == m
                                     && Tells(d.notes[m], d.rows[d.home[m]].msg))
      && (forall a, b | a in d.rows && b in d.rows && d.rows[a].msg.mid == d.rows[b].msg.mid :: a == b)
  {
    InitSound(d0);
    SoundRun(d0, steps);
    var d := Run(d0, steps);
    forall m | m in d.notes
      ensures m in d.home && d.home[m] in d.rows && d.rows[d.home[m]].msg.mid == m
              && Tells(d.notes[m], d.rows[d.home[m]].msg)
    {
      assert NoteOk(d, m);
    }
  }

  lemma QuietTold(d: Delivery, id: nat)
    requires Sound(d) && Quiet(d) && id in d.rows
    ensures Told(d, d.rows[id].msg.mid)
  {
    var m := d.rows[id].msg;
    var p := PartOf(m);
    assert RowOk(d, id) && ReaderOk(d, p);
    var i :| 0 <= i < |LogOf(d, p)| && LogOf(d, p)[i] == m;
    assert Told(d, LogOf(d, p)[i].mid);
  }

  /**
   Once nothing is pending, the notified messages are exactly the committed ones if and only if
   every message whose handler ever failed was handled on another delivery.
   */
  lemma EffectIffRetried(d0: Delivery, steps: seq<BoxStep>)
    requires Init(d0) && Legal(d0, steps) && Quiet(Run(d0, steps))
    ensures var d := Run(d0, steps);
      d.notes.Keys == RowMids(d) <==> d.failed <= d.notes.Keys
  {
    InitSound(d0);
    SoundRun(d0, steps);
    var d := Run(d0, steps);
    forall m | m in d.notes ensures m in RowMids(d) { assert NoteOk(d, m); }
    forall m | m in RowMids(d) ensures Told(d, m) {
      var id :| id in d.rows && d.rows[id].msg.mid == m;
      QuietTold(d, id);
    }
    forall m | m in d.failed ensures m in RowMids(d) {
      assert d.rows[d.home[m]].msg.mid == m;
    }
  }

  /** Exactly-once effect, for every run without handler failures: crashes, duplicates and any relays. */
  lemma ExactlyOnceEffect(d0: Delivery, steps: seq<BoxStep>)
    requires Init(d0) && Legal(d0, steps) && NoHandlerFailure(steps)
    ensures var d := Run(d0, steps);
      d.notes.Keys <= RowMids(d) && (Quiet(d) ==> d.notes.Keys == RowMids(d))
  {
    FailedStays(d0, steps);
    InitSound(d0);
    SoundRun(d0, steps);
    var d := Run(d0, steps);
    forall m | m in d.notes ensures m in RowMids(d) { assert NoteOk(d, m); }
    if Quiet(d) { EffectIffRetried(d0, steps); }
  }

  /** A notification, once written, is never rewritten or removed. */
  lemma {:induction false} NotifiedOnce(d: Delivery, steps: seq<BoxStep>, m: MsgId)
    requires Legal(d, steps) && m in d.notes
    ensures m in Run(d, steps).notes && Run(d, steps).notes[m] == d.notes[m]
    decreases |steps|
  {
    if steps != [] {
      NotifiedOnce(d, Front(steps), m);
      NoteStays(Run(d, Front(steps)), Last(steps), m);
    }
  }

  lemma NoteStays(d: Delivery, b: BoxStep, m: MsgId)
    requires Enabled(d, b) && m in d.notes
    ensures m in Apply(d, b).notes && Apply(d, b).notes[m] == d.notes[m]
  {
    match b
    case Queue(q) => hide CanQueue;
    case Relay(k, a) =>
      RelayFrame(d, k, a);
      hide DoRelay, CanRelay, Grows;
    case Worker(p, w) => NoteStaysWork(d, p, w, m);
  }

  lemma NoteStaysWork(d: Delivery, p: Part, w: WorkerAct, m: MsgId)
    requires CanWork(d, p, w) && m in d.notes
    ensures m in DoWork(d, p, w).notes && DoWork(d, p, w).notes[m] == d.notes[m]
  {
    hide LogOf, ReaderOf, Render;
  }

  // ---------------------------------------------------------------- per-ticket order

  predicate SameStream(x: Message, y: Message) {
    x.ticket == y.ticket && x.Topic() == y.Topic()
  }

  // Row a must come before message m: same ticket and topic, smaller outbox id.
  ghost predicate Precedes(d: Delivery, a: nat, m: Message) {
    a in d.rows && SameStream(d.rows[a].msg, m) && m.mid in d.home && a < d.home[m.mid]
  }

  ghost predicate InOrder(d: Delivery, log: seq<Message>) {
    forall i, a | 0 <= i < |log| && Precedes(d, a, log[i]) :: d.rows[a].msg in log[..i]
  }

  ghost predicate BatchInOrder(d: Delivery, batch: seq<Record>) {
    forall i, a | 0 <= i < |batch| && Precedes(d, a, batch[i].msg) ::
      d.rows[a].msg in LogOf(d, PartOf(batch[i].msg)) || Record(a, d.rows[a].msg) in batch[..i]
  }

  ghost predicate OrderInv(d: Delivery, k: RelayId) {
    && (forall j | j in d.relays :: j == k)
    && (forall p :: InOrder(d, LogOf(d, p)))
    && (k in d.relays ==> BatchInOrder(d, Batch(d.relays[k])))
  }

  lemma {:induction false} SliceInOrder(d: Delivery, log: seq<Message>, batch: seq<Record>, p: Part)
    requires InOrder(d, log)
    requires forall i, a | 0 <= i < |batch| && PartOf(batch[i].msg) == p && Precedes(d, a, batch[i].msg) ::
               d.rows[a].msg in log || Record(a, d.rows[a].msg) in batch[..i]
    ensures InOrder(d, log + Slice(batch, p))
  {
    if batch == [] {
      assert log + Slice(batch, p) == log;
    } else {
      var n := |batch| - 1;
      var init := batch[..n];
      forall i, a | 0 <= i < n && PartOf(init[i].msg) == p && Precedes(d, a, init[i].msg)
        ensures d.rows[a].msg in log || Record(a, d.rows[a].msg) in init[..i]
      {
        assert init[i] == batch[i] && init[..i] == batch[..i];
      }
      SliceInOrder(d, log, init, p);
      var pre := log + Slice(init, p);
      var m := batch[n].msg;
      if PartOf(m) == p {
        var all := pre + [m];
        assert log + Slice(batch, p) == all;
        SliceIs(init, p);
        forall i, a | 0 <= i < |all| && Precedes(d, a, all[i])
          ensures d.rows[a].msg in all[..i]
        {
          if i < |pre| {
            assert all[i] == pre[i] && all[..i] == pre[..i];
          } else {
            assert all[..i] == pre;
            if d.rows[a].msg !in log {
              assert Record(a, d.rows[a].msg) in init;
              assert d.rows[a].msg in Slice(init, p);
            }
          }
        }
      } else {
        assert log + Slice(batch, p) == pre;
      }
    }
  }

  lemma FetchBatchInOrder(d: Delivery, limit: nat)
    requires Sound(d) && d.olock == map[]
    ensures BatchInOrder(d, FetchUnpublished(d.rows, d.olock.Keys, d.next, limit))
  {
    var b := FetchUnpublished(d.rows, d.olock.Keys, d.next, limit);
    FetchIsInOrder(d.rows, d.olock.Keys, d.next, limit);
    forall i, a | 0 <= i < |b| && Precedes(d, a, b[i].msg)
      ensures d.rows[a].msg in LogOf(d, PartOf(b[i].msg)) || Record(a, d.rows[a].msg) in b[..i]
    {
      assert b[i] in b;
      assert d.home[b[i].msg.mid] == b[i].id;
      if d.rows[a].published { assert RowOk(d, a); }
    }
  }

  lemma OrderQueue(d: Delivery, k: RelayId, q: QueueAct)
    requires Sound(d) && OrderInv(d, k) && CanQueue(d, q)
    ensures OrderInv(DoQueue(d, q), k)
  {
    QueueFrame(d, q);
    TableQueue(d, q);
    var d' := DoQueue(d, q);
    // A row committed now has the largest id of its ticket, so it precedes nothing sent or fetched.
    forall m, a | FromRow(d, m) && Precedes(d', a, m) ensures Precedes(d, a, m) && d'.rows[a] == d.rows[a] {
      assert d'.home[m.mid] == d.home[m.mid];
    }
    forall p ensures InOrder(d', LogOf(d', p)) {
      assert InOrder(d, LogOf(d, p)) && LogOk(d, p) && LogOf(d', p) == LogOf(d, p);
      forall i, a | 0 <= i < |LogOf(d, p)| && Precedes(d', a, LogOf(d, p)[i])
        ensures d'.rows[a].msg in LogOf(d, p)[..i]
      {
        assert FromRow(d, LogOf(d, p)[i]);
      }
    }
    if k in d.relays {
      var b := Batch(d.relays[k]);
      assert RelayOk(d, d.relays[k]);
      forall i, a | 0 <= i < |b| && Precedes(d', a, b[i].msg)
        ensures d'.rows[a].msg in LogOf(d', PartOf(b[i].msg)) || Record(a, d'.rows[a].msg) in b[..i]
      {
        assert RecordOk(d, b[i]);
        assert FromRow(d, b[i].msg);
      }
    }
  }

  lemma SameRowsOrder(d: Delivery, d': Delivery, log: seq<Message>)
    requires Grows(d, d') && d'.rows.Keys == d.rows.Keys && d'.home == d.home && InOrder(d, log)
    ensures InOrder(d', log)
  {
    forall i, a | 0 <= i < |log| && Precedes(d', a, log[i]) ensures d'.rows[a].msg in log[..i] {
      assert Precedes(d, a, log[i]);
    }
  }

  lemma SameRowsBatch(d: Delivery, d': Delivery, b: seq<Record>)
    requires Grows(d, d') && d'.rows.Keys == d.rows.Keys && d'.home == d.home && BatchInOrder(d, b)
    ensures BatchInOrder(d', b)
  {
    forall i, a | 0 <= i < |b| && Precedes(d', a, b[i].msg)
      ensures d'.rows[a].msg in LogOf(d', PartOf(b[i].msg)) || Record(a, d'.rows[a].msg) in b[..i]
    {
      assert Precedes(d, a, b[i].msg);
      assert LogOf(d, PartOf(b[i].msg)) <= LogOf(d', PartOf(b[i].msg));
    }
  }

  lemma OrderRelay(d: Delivery, k: RelayId, a: RelayAct)
    requires Sound(d) && OrderInv(d, k) && CanRelay(d, k, a)
    ensures OrderInv(DoRelay(d, k, a), k)
  {
    OrderRelayLogs(d, k, a);
    RelayFrame(d, k, a);
    var d' := DoRelay(d, k, a);
    var r := d.relays[k];
    SameRowsBatch(d, d', Batch(r));
    if a.FetchLock? {
      assert d.olock == map[];
      FetchBatchInOrder(d, a.limit);
      SameRowsBatch(d, d', FetchUnpublished(d.rows, d.olock.Keys, d.next, a.limit));
    }
    hide InOrder, BatchInOrder, Sound, Grows, FetchUnpublished;
  }

  lemma OrderRelayLogs(d: Delivery, k: RelayId, a: RelayAct)
    requires Sound(d) && OrderInv(d, k) && CanRelay(d, k, a)
    ensures var d' := DoRelay(d, k, a); forall p :: InOrder(d', LogOf(d', p))
  {
    RelayFrame(d, k, a);
    var d' := DoRelay(d, k, a);
    forall p ensures InOrder(d', LogOf(d', p)) {
      if a.Append? && a.part == p {
        OrderAppend(d, k, p, a.upto);
      } else {
        assert LogOf(d', p) == LogOf(d, p);
        SameRowsOrder(d, d', LogOf(d, p));
      }
    }
  }

  lemma OrderAppend(d: Delivery, k: RelayId, p: Part, upto: nat)
    requires Sound(d) && OrderInv(d, k) && CanRelay(d, k, Append(p, upto))
    ensures var d' := DoRelay(d, k, Append(p, upto)); InOrder(d', LogOf(d', p))
  {
    RelayFrame(d, k, Append(p, upto));
    var d' := DoRelay(d, k, Append(p, upto));
    var b := d.relays[k].batch[..upto];
    var full := Batch(d.relays[k]);
    forall i, a | 0 <= i < |b| && PartOf(b[i].msg) == p && Precedes(d, a, b[i].msg)
      ensures d.rows[a].msg in LogOf(d, p) || Record(a, d.rows[a].msg) in b[..i]
    {
      assert b[i] == full[i] && b[..i] == full[..i];
    }
    SliceInOrder(d, LogOf(d, p), b, p);
    SameRowsOrder(d, d', LogOf(d, p) + Slice(b, p));
  }

  lemma OrderKept(d: Delivery, k: RelayId, b: BoxStep)
    requires Sound(d) && OrderInv(d, k) && Enabled(d, b)
    ensures OrderInv(Apply(d, b), k)
  {
    match b
    case Queue(q) => OrderQueue(d, k, q);
    case Relay(j, a) => OrderRelay(d, k, a);
    case Worker(p, w) =>
      WorkerFrame(d, p, w);
      var d' := DoWork(d, p, w);
      forall q ensures InOrder(d', LogOf(d', q)) {
        assert LogOf(d', q) == LogOf(d, q);
        SameRowsOrder(d, d', LogOf(d, q));
      }
      if k in d.relays { SameRowsBatch(d, d', Batch(d.relays[k])); }
  }

  lemma {:induction false} OrderRun(d: Delivery, k: RelayId, steps: seq<BoxStep>)
    requires Sound(d) && OrderInv(d, k) && Legal(d, steps)
    ensures OrderInv(Run(d, steps), k)
    decreases |steps|
  {
    if steps != [] {
      SoundRun(d, Front(steps));
      OrderRun(d, k, Front(steps));
      OrderKept(Run(d, Front(steps)), k, Last(steps));
    }
  }

  function First(log: seq<Message>, m: Message): (i: nat)
    requires m in log
    ensures i < |log| && log[i] == m && m !in log[..i]
  {
    if log[0] == m then 0
    else
      assert log == [log[0]] + log[1..];
      var i := First(log[1..], m);
      assert log[..i + 1] == [log[0]] + log[1..][..i];
      i + 1
  }

  // What is told of a ticket's events of one topic, in the order of its log.
  ghost predicate FirstBefore(d: Delivery, a: nat, b: nat) {
    a in d.rows && b in d.rows && a < b && SameStream(d.rows[a].msg, d.rows[b].msg)
    && d.rows[b].msg in LogOf(d, PartOf(d.rows[b].msg)) ==>
      var log := LogOf(d, PartOf(d.rows[b].msg));
      d.rows[a].msg in log && First(log, d.rows[a].msg) < First(log, d.rows[b].msg)
  }

  ghost predicate FirstsInOrder(d: Delivery) {
    forall a, b :: FirstBefore(d, a, b)
  }

  /**
   With one relay, a ticket's events of one topic first appear in the partition log in outbox id
   order, and none appears while an earlier one is missing: through crashes, failed and repeated
   writes, and whatever order the transactions of different tickets commit in.
   */
  lemma PerTicketOrder(d0: Delivery, k: RelayId, steps: seq<BoxStep>, a: nat, b: nat)
    requires Init(d0) && d0.relays.Keys <= {k} && Legal(d0, steps)
    requires var d := Run(d0, steps);
      a in d.rows && b in d.rows && a < b && SameStream(d.rows[a].msg, d.rows[b].msg)
      && d.rows[b].msg in LogOf(d, PartOf(d.rows[b].msg))
    ensures var d := Run(d0, steps);
      var log := LogOf(d, PartOf(d.rows[b].msg));
      d.rows[a].msg in log && First(log, d.rows[a].msg) < First(log, d.rows[b].msg)
  {
    InitSound(d0);
    SoundRun(d0, steps);
    OrderRun(d0, k, steps);
    hide Init, Legal, Run, First;
    OrderGives(Run(d0, steps), k, a, b);
  }

  lemma OrderGives(d: Delivery, k: RelayId, a: nat, b: nat)
    requires Sound(d) && OrderInv(d, k) && a in d.rows && b in d.rows && a < b
    requires SameStream(d.rows[a].msg, d.rows[b].msg) && d.rows[b].msg in LogOf(d, PartOf(d.rows[b].msg))
    ensures var log := LogOf(d, PartOf(d.rows[b].msg));
      d.rows[a].msg in log && First(log, d.rows[a].msg) < First(log, d.rows[b].msg)
  {
    var log := LogOf(d, PartOf(d.rows[b].msg));
    var i := First(log, d.rows[b].msg);
    assert InOrder(d, log) && Precedes(d, a, log[i]);
    assert log == log[..i] + log[i..];
  }

  /** Outbox id order is commit order within a ticket: a committing row follows every committed one. */
  lemma IdOrderIsCommitOrder(d0: Delivery, steps: seq<BoxStep>, oid: nat, m: Message, a: nat)
    requires Init(d0) && Legal(d0, steps)
    requires CanQueue(Run(d0, steps), CommitRow(oid, m))
    requires a in Run(d0, steps).rows && Run(d0, steps).rows[a].msg.ticket == m.ticket
    ensures a < oid
  {
    InitSound(d0);
    SoundRun(d0, steps);
  }
}
