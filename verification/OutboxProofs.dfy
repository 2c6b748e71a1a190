/** What every step of the outbox, relays, broker and worker keeps, and what follows for whole runs. */
module OutboxProofs {
  import opened Types
  import opened Outbox

  function Batch(r: RelayPc): seq<Record> {
    match r
    case Idle => []
    case Fetching(b) => b
    case Producing(b, _) => b
    case Produced(b) => b
    case Failing(b) => b
  }

  // ---------------------------------------------------------------- invariants

  ghost predicate Table(d: Delivery) {
    && (forall id | id in d.rows :: id < d.next && id !in d.open)
    && (forall o | o in d.open :: o < d.next)
    && (forall id | id in d.rows :: d.rows[id].msg.mid in d.home && d.home[d.rows[id].msg.mid] == id)
    && (forall m | m in d.home :: d.home[m] in d.rows && d.rows[d.home[m]].msg.mid == m)
    // a ticket's open id comes after all its committed ids, and there is one open id a ticket
    && (forall o, c | o in d.open && c in d.rows && d.rows[c].msg.ticket == d.open[o] :: c < o)
    && (forall o, o' | o in d.open && o' in d.open && d.open[o] == d.open[o'] :: o == o')
  }

  ghost predicate FromRow(d: Delivery, m: Message) {
    m.mid in d.home && d.home[m.mid] in d.rows && d.rows[d.home[m.mid]].msg == m
  }

  ghost predicate Shipped(d: Delivery, m: Message) {
    m in LogOf(d, PartOf(m))
  }

  ghost predicate LogOk(d: Delivery, p: Part) {
    forall m | m in LogOf(d, p) :: FromRow(d, m) && PartOf(m) == p
  }

  ghost predicate RecordOk(d: Delivery, x: Record) {
    x.id in d.rows && d.rows[x.id].msg == x.msg
  }

  ghost predicate RelayOk(d: Delivery, r: RelayPc) {
    && (forall x | x in Batch(r) :: RecordOk(d, x))
    && (r.Producing? ==> forall x | x in r.batch && PartOf(x.msg) in r.acked :: Shipped(d, x.msg))
    && (r.Produced? ==> forall x | x in r.batch :: Shipped(d, x.msg))
  }

  ghost predicate RowOk(d: Delivery, id: nat) {
    id in d.rows && d.rows[id].published ==> Shipped(d, d.rows[id].msg)
  }

  ghost predicate Shipping(d: Delivery) {
    && (forall p :: LogOk(d, p))
    && (forall k | k in d.relays :: RelayOk(d, d.relays[k]))
    && (forall id: nat :: RowOk(d, id))
  }

  ghost predicate Told(d: Delivery, m: MsgId) {
    m in d.notes || m in d.failed
  }

  ghost predicate ReaderOk(d: Delivery, p: Part) {
    var r := ReaderOf(d, p);
    var log := LogOf(d, p);
    && r.committed <= r.pos <= |log|
    && (!r.stage.Waiting? ==> r.pos < |log|)
    && (forall i | 0 <= i < r.pos :: Told(d, log[i].mid))
    && (r.stage.Handled? ==> log[r.pos].mid in d.notes)
  }

  ghost predicate NoteOk(d: Delivery, m: MsgId) {
    m in d.notes ==> m in d.home && d.home[m] in d.rows && d.notes[m] == Render(d.rows[d.home[m]].msg)
  }

  ghost predicate Working(d: Delivery) {
    && (forall m: MsgId :: NoteOk(d, m))
    && d.failed <= d.home.Keys
    && (forall p :: ReaderOk(d, p))
  }

  ghost predicate OutboxLocks(d: Delivery) {
    forall o | o in d.olock ::
      d.olock[o] in d.relays && d.relays[d.olock[o]].Fetching? && o in Ids(d.relays[d.olock[o]].batch)
  }

  ghost predicate Sound(d: Delivery) {
    Table(d) && Shipping(d) && Working(d) && OutboxLocks(d)
  }

  // ---------------------------------------------------------------- the fetch

  lemma {:induction false} PendingRowsAre(rows: map<nat, Row>, locked: set<nat>, hi: nat)
    ensures var q := PendingRows(rows, locked, hi);
      && (forall x | x in q :: x.id < hi && IsPending(rows, locked, x.id) && x.msg == rows[x.id].msg)
      && (forall i, j | 0 <= i < j < |q| :: q[i].id < q[j].id)
      && (forall id: nat | id < hi && IsPending(rows, locked, id) :: Record(id, rows[id].msg) in q)
  {
    if hi > 0 {
      PendingRowsAre(rows, locked, hi - 1);
      var q := PendingRows(rows, locked, hi - 1);
      var q' := PendingRows(rows, locked, hi);
      if IsPending(rows, locked, hi - 1) {
        assert q' == q + [Record(hi - 1, rows[hi - 1].msg)];
        assert Record(hi - 1, rows[hi - 1].msg) == q'[|q|];
      }
      forall id: nat | id < hi && IsPending(rows, locked, id)
        ensures Record(id, rows[id].msg) in q'
      {
        if id < hi - 1 { assert Record(id, rows[id].msg) in q; }
      }
    }
  }

  /** A fetched batch is pending rows in id order, and no pending row it left out has a smaller id. */
  lemma FetchIsInOrder(rows: map<nat, Row>, locked: set<nat>, hi: nat, limit: nat)
    ensures var b := FetchUnpublished(rows, locked, hi, limit);
      && |b| <= limit
      && (forall x | x in b :: x.id < hi && IsPending(rows, locked, x.id) && x.msg == rows[x.id].msg)
      && (forall i, j | 0 <= i < j < |b| :: b[i].id < b[j].id)
      && (forall i, id: nat | 0 <= i < |b| && id < b[i].id && IsPending(rows, locked, id) ::
            Record(id, rows[id].msg) in b[..i])
  {
    PendingRowsAre(rows, locked, hi);
    var q := PendingRows(rows, locked, hi);
    var b := FetchUnpublished(rows, locked, hi, limit);
    forall i, id: nat | 0 <= i < |b| && id < b[i].id && IsPending(rows, locked, id)
      ensures Record(id, rows[id].msg) in b[..i]
    {
      assert b[i] in q;
      var j :| 0 <= j < |q| && q[j] == Record(id, rows[id].msg);
      assert j < i by { if j > i { assert false; } }
      assert b[..i][j] == q[j];
    }
  }

  // ---------------------------------------------------------------- slices

  lemma {:induction false} SliceIs(batch: seq<Record>, p: Part)
    ensures forall m | m in Slice(batch, p) :: PartOf(m) == p && exists x :: x in batch && x.msg == m
    ensures forall x | x in batch && PartOf(x.msg) == p :: x.msg in Slice(batch, p)
  {
    if batch != [] {
      var n := |batch| - 1;
      SliceIs(batch[..n], p);
      assert batch == batch[..n] + [batch[n]];
    }
  }

  // ---------------------------------------------------------------- frames

  // Rows keep their message, published stays published, logs only grow.
  ghost predicate Grows(d: Delivery, d': Delivery) {
    && (forall id | id in d.rows :: id in d'.rows && d'.rows[id].msg == d.rows[id].msg
                                    && (d.rows[id].published ==> d'.rows[id].published))
    && (forall m | m in d.home :: m in d'.home && d'.home[m] == d.home[m])
    && (forall p :: LogOf(d, p) <= LogOf(d', p))
  }

  lemma QueueFrame(d: Delivery, q: QueueAct)
    requires Table(d) && CanQueue(d, q)
    ensures Grows(d, DoQueue(d, q))
    ensures var d' := DoQueue(d, q);
      d' == d.(rows := d'.rows, open := d'.open, next := d'.next, home := d'.home)
  {}

  lemma RelayFrame(d: Delivery, k: RelayId, a: RelayAct)
    requires CanRelay(d, k, a)
    ensures Grows(d, DoRelay(d, k, a)) && DoRelay(d, k, a).rows.Keys == d.rows.Keys
    ensures var d' := DoRelay(d, k, a);
      d' == d.(rows := d'.rows, olock := d'.olock, logs := d'.logs, relays := d'.relays)
  {}

  lemma WorkerFrame(d: Delivery, p: Part, w: WorkerAct)
    requires CanWork(d, p, w)
    ensures Grows(d, DoWork(d, p, w))
    ensures var d' := DoWork(d, p, w);
      d' == d.(readers := d'.readers, notes := d'.notes, failed := d'.failed)
  {}

  lemma StepGrows(d: Delivery, b: BoxStep)
    requires Table(d) && Enabled(d, b)
    ensures Grows(d, Apply(d, b))
  {
    match b
    case Queue(q) => QueueFrame(d, q);
    case Relay(k, a) => RelayFrame(d, k, a);
    case Worker(p, w) => WorkerFrame(d, p, w);
  }

  lemma GrowsKeeps(d: Delivery, d': Delivery)
    requires Grows(d, d')
    ensures forall m | FromRow(d, m) :: FromRow(d', m)
    ensures forall m | Shipped(d, m) :: Shipped(d', m)
    ensures forall r | RelayOk(d, r) :: RelayOk(d', r)
    ensures forall p | LogOk(d, p) && LogOf(d, p) == LogOf(d', p) :: LogOk(d', p)
  {
    forall m | Shipped(d, m) ensures Shipped(d', m) {
      assert LogOf(d, PartOf(m)) <= LogOf(d', PartOf(m));
    }
    forall r | RelayOk(d, r) ensures RelayOk(d', r) {
      forall x | x in Batch(r) ensures RecordOk(d', x) { assert RecordOk(d, x); }
    }
  }

  // ---------------------------------------------------------------- preservation

  lemma InitSound(d: Delivery)
    requires Init(d)
    ensures Sound(d)
  {}

  lemma TableKept(d: Delivery, b: BoxStep)
    requires Table(d) && Enabled(d, b)
    ensures Table(Apply(d, b))
  {
    match b
    case Queue(q) => TableQueue(d, q);
    case Relay(k, a) => RelayFrame(d, k, a);
    case Worker(p, w) => WorkerFrame(d, p, w);
  }

  lemma TableQueue(d: Delivery, q: QueueAct)
    requires Table(d) && CanQueue(d, q)
    ensures Table(DoQueue(d, q))
  {}

  lemma ShippingKept(d: Delivery, b: BoxStep)
    requires Table(d) && Shipping(d) && Enabled(d, b)
    ensures Shipping(Apply(d, b))
  {
    hide Shipping, Table, DoQueue, CanQueue, DoWork, CanWork, DoRelay, CanRelay, Grows;
    match b
    case Queue(q) => ShippingQueue(d, q);
    case Worker(p, w) => WorkerFrame(d, p, w); ShippingStays(d, DoWork(d, p, w));
    case Relay(k, a) => ShippingRelay(d, k, a);
  }

  lemma ShippingQueue(d: Delivery, q: QueueAct)
    requires Table(d) && Shipping(d) && CanQueue(d, q)
    ensures Shipping(DoQueue(d, q))
  {
    QueueFrame(d, q);
    hide Shipping;
    ShippingStays(d, DoQueue(d, q));
  }

  lemma ShippingStays(d: Delivery, d': Delivery)
    requires Shipping(d) && Grows(d, d') && d'.logs == d.logs && d'.relays == d.relays
    requires forall id | id in d'.rows && d'.rows[id].published :: id in d.rows && d.rows[id].published
    ensures Shipping(d')
  {
    GrowsKeeps(d, d');
    forall id: nat ensures RowOk(d', id) { assert RowOk(d, id); }
  }

  lemma ShippingRelay(d: Delivery, k: RelayId, a: RelayAct)
    requires Table(d) && Shipping(d) && CanRelay(d, k, a)
    ensures Shipping(DoRelay(d, k, a))
  {
    if a.Append? {
      ShippingAppend(d, k, a.part, a.upto);
    } else {
      ShippingPc(d, k, a);
      ShippingRows(d, k, a);
    }
  }

  lemma ShippingPc(d: Delivery, k: RelayId, a: RelayAct)
    requires Table(d) && Shipping(d) && CanRelay(d, k, a) && !a.Append?
    ensures var d' := DoRelay(d, k, a);
      (forall p :: LogOk(d', p)) && (forall j | j in d'.relays :: RelayOk(d', d'.relays[j]))
  {
    hide Table, RowOk, RelayOk, Grows, DoRelay, CanRelay;
    RelayFrame(d, k, a);
    GrowsKeeps(d, DoRelay(d, k, a));
    ShippingOwn(d, k, a);
    OtherRelays(d, k, a);
  }

  lemma OtherRelays(d: Delivery, k: RelayId, a: RelayAct)
    requires CanRelay(d, k, a) && !a.Append?
    ensures DoRelay(d, k, a).logs == d.logs && DoRelay(d, k, a).relays.Keys == d.relays.Keys
    ensures forall j | j in d.relays && j != k :: DoRelay(d, k, a).relays[j] == d.relays[j]
  {}

  lemma ShippingOwn(d: Delivery, k: RelayId, a: RelayAct)
    requires Table(d) && Shipping(d) && CanRelay(d, k, a) && !a.Append?
    ensures RelayOk(DoRelay(d, k, a), DoRelay(d, k, a).relays[k])
  {
    RelayFrame(d, k, a);
    assert RelayOk(d, d.relays[k]);
    GrowsKeeps(d, DoRelay(d, k, a));
    if a.FetchLock? { FetchIsInOrder(d.rows, d.olock.Keys, d.next, a.limit); }
    hide Table, Shipping, Grows, FetchUnpublished;
  }

  lemma ShippingRows(d: Delivery, k: RelayId, a: RelayAct)
    requires Table(d) && Shipping(d) && CanRelay(d, k, a) && !a.Append?
    ensures var d' := DoRelay(d, k, a);
      forall id: nat :: RowOk(d', id)
  {
    RelayFrame(d, k, a);
    var d' := DoRelay(d, k, a);
    GrowsKeeps(d, d');
    var r := d.relays[k];
    assert RelayOk(d, r);
    forall id: nat ensures RowOk(d', id) {
      assert RowOk(d, id);
      if a.MarkPublished? && id in Ids(r.batch) {
        var x :| x in r.batch && x.id == id;
        assert RecordOk(d, x) && Shipped(d', x.msg);
      }
    }
  }

  lemma ShippingAppend(d: Delivery, k: RelayId, p: Part, upto: nat)
    requires Table(d) && Shipping(d) && CanRelay(d, k, Append(p, upto))
    ensures Shipping(DoRelay(d, k, Append(p, upto)))
  {
    RelayFrame(d, k, Append(p, upto));
    var d' := DoRelay(d, k, Append(p, upto));
    GrowsKeeps(d, d');
    var r := d.relays[k];
    assert RelayOk(d, r);
    var part := Slice(r.batch[..upto], p);
    SliceIs(r.batch[..upto], p);
    forall m | m in part ensures FromRow(d', m) {
      var x :| x in r.batch[..upto] && x.msg == m;
      assert RecordOk(d, x);
    }
    assert LogOk(d, p) && LogOf(d', p) == LogOf(d, p) + part;
    assert LogOk(d', p);
    if upto == |r.batch| { assert r.batch[..upto] == r.batch; }
    assert RelayOk(d', d'.relays[k]);
    forall id: nat ensures RowOk(d', id) { assert RowOk(d, id); }
    forall q ensures LogOk(d', q) { assert LogOk(d, q); if q != p { assert LogOf(d', q) == LogOf(d, q); } }
  }

  lemma WorkingKept(d: Delivery, b: BoxStep)
    requires Table(d) && Shipping(d) && Working(d) && Enabled(d, b)
    ensures Working(Apply(d, b))
  {
    StepGrows(d, b);
    match b
    case Queue(q) => QueueFrame(d, q); SameWorker(d, DoQueue(d, q));
    case Relay(k, a) => RelayFrame(d, k, a); SameWorker(d, DoRelay(d, k, a));
    case Worker(p, w) => WorkingWorker(d, p, w);
  }

  lemma SameWorker(d: Delivery, d': Delivery)
    requires Working(d) && Grows(d, d')
    requires d'.readers == d.readers && d'.notes == d.notes && d'.failed == d.failed
    ensures Working(d')
  {
    forall m: MsgId ensures NoteOk(d', m) { assert NoteOk(d, m); }
    forall p ensures ReaderOk(d', p) {
      assert ReaderOk(d, p) && LogOf(d, p) <= LogOf(d', p);
      forall i | 0 <= i < ReaderOf(d, p).pos ensures Told(d', LogOf(d', p)[i].mid) {
        assert Told(d, LogOf(d, p)[i].mid);
      }
    }
  }

  lemma WorkingNotes(d: Delivery, p: Part, w: WorkerAct)
    requires Table(d) && Shipping(d) && Working(d) && CanWork(d, p, w)
    ensures var d' := DoWork(d, p, w);
      (forall m: MsgId :: NoteOk(d', m)) && d'.failed <= d'.home.Keys
  {
    WorkerFrame(d, p, w);
    var d' := DoWork(d, p, w);
    var r := ReaderOf(d, p);
    assert LogOk(d, p);
    if w.HandleOk? || w.HandleErr? { assert FromRow(d, LogOf(d, p)[r.pos]); }
    hide Table, ReaderOk, RelayOk, RowOk, LogOk, Grows;
    forall m: MsgId ensures NoteOk(d', m) { assert NoteOk(d, m); }
  }

  lemma WorkingOwn(d: Delivery, p: Part, w: WorkerAct)
    requires Working(d) && CanWork(d, p, w)
    ensures ReaderOk(DoWork(d, p, w), p)
  {
    var d' := DoWork(d, p, w);
    var r := ReaderOf(d, p);
    assert ReaderOk(d, p) && LogOf(d', p) == LogOf(d, p);
    forall m: MsgId | Told(d, m) ensures Told(d', m) {}
    hide NoteOk, Render, Working;
    forall i | 0 <= i < ReaderOf(d', p).pos ensures Told(d', LogOf(d', p)[i].mid) {
      if i != r.pos { assert Told(d, LogOf(d, p)[i].mid); }
    }
  }

  lemma WorkingWorker(d: Delivery, p: Part, w: WorkerAct)
    requires Table(d) && Shipping(d) && Working(d) && CanWork(d, p, w)
    ensures Working(DoWork(d, p, w))
  {
    hide Table, Shipping, NoteOk, FromRow, Render, Grows, CanWork, DoWork, Told, ReaderOf, LogOf;
    WorkerFrame(d, p, w);
    var d' := DoWork(d, p, w);
    WorkingNotes(d, p, w);
    WorkingOwn(d, p, w);
    WorkerLeaves(d, p, w);
    forall q | q != p ensures ReaderOk(d', q) { assert ReaderOk(d, q); }
  }

  // A worker forgets nobody who was told, and touches no other partition.
  lemma WorkerLeaves(d: Delivery, p: Part, w: WorkerAct)
    requires CanWork(d, p, w)
    ensures var d' := DoWork(d, p, w);
      && d.notes.Keys <= d'.notes.Keys && (forall m: MsgId | Told(d, m) :: Told(d', m))
      && (forall q | q != p :: ReaderOf(d', q) == ReaderOf(d, q)) && (forall q :: LogOf(d', q) == LogOf(d, q))
  {}

  lemma OutboxLocksKept(d: Delivery, b: BoxStep)
    requires OutboxLocks(d) && Enabled(d, b)
    ensures OutboxLocks(Apply(d, b))
  {
    match b
    case Queue(q) => assert DoQueue(d, q).olock == d.olock && DoQueue(d, q).relays == d.relays;
    case Worker(p, w) => WorkerFrame(d, p, w);
    case Relay(k, a) => OutboxLocksRelay(d, k, a);
  }

  lemma OutboxLocksRelay(d: Delivery, k: RelayId, a: RelayAct)
    requires OutboxLocks(d) && CanRelay(d, k, a)
    ensures OutboxLocks(DoRelay(d, k, a))
  {
  }

  lemma SoundKept(d: Delivery, b: BoxStep)
    requires Sound(d) && Enabled(d, b)
    ensures Sound(Apply(d, b))
  {
    TableKept(d, b);
    ShippingKept(d, b);
    WorkingKept(d, b);
    OutboxLocksKept(d, b);
  }

  lemma {:induction false} SoundRun(d: Delivery, steps: seq<BoxStep>)
    requires Sound(d) && Legal(d, steps)
    ensures Sound(Run(d, steps)) && Grows(d, Run(d, steps))
    decreases |steps|
  {
    if steps != [] {
      SoundRun(d, Front(steps));
      SoundKept(Run(d, Front(steps)), Last(steps));
      StepGrows(Run(d, Front(steps)), Last(steps));
    }
  }
}
