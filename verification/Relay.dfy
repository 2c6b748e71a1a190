/** The relay of outbox/relay.go, over the statements of outbox/store.go: claim a batch, produce it, record the outcome. */
module Relaying {
  import opened Types
  import opened Outbox
  import opened OutboxProofs
  import opened Wires
  import Drain

  function Messages(batch: seq<Record>): seq<Message> {
    seq(|batch|, i requires 0 <= i < |batch| => batch[i].msg)
  }

  function IdList(batch: seq<Record>): seq<nat> {
    seq(|batch|, i requires 0 <= i < |batch| => batch[i].id)
  }

  ghost predicate Delivered(d: Delivery, batch: seq<Record>) {
    forall x | x in batch :: x.id in d.rows && d.rows[x.id].msg == x.msg && Shipped(d, x.msg)
  }

  lemma ProducedIsDelivered(d: Delivery, k: RelayId)
    requires Sound(d) && k in d.relays && d.relays[k].Produced?
    ensures Delivered(d, d.relays[k].batch)
  {
    assert RelayOk(d, d.relays[k]);
    forall x | x in d.relays[k].batch ensures x.id in d.rows && d.rows[x.id].msg == x.msg && Shipped(d, x.msg) {
      assert x in Batch(d.relays[k]);
      assert RecordOk(d, x);
    }
  }

  /** What can fail in a poll; a poll is given those that do. */
  datatype RelayStmt = FetchRows | CommitRows | WriteBatch | MarkRows

  /** How a poll went: the batch it took, out of which state, and the state in which it marked it. */
  datatype Tick = Tick(ok: bool, records: seq<Record>, seen: Delivery, met: Delivery)

  /** The batches of the polls that delivered theirs. */
  function Delivereds(polls: seq<Tick>): seq<seq<Record>>
    decreases |polls|
  {
    if polls == [] then []
    else Delivereds(Front(polls)) + if Last(polls).ok then [Last(polls).records] else []
  }

  lemma OneMorePoll(polls: seq<Tick>, poll: Tick)
    ensures Delivereds(polls + [poll]) == if poll.ok then Delivereds(polls) + [poll.records] else Delivereds(polls)
  {
    assert Front(polls + [poll]) == polls && Last(polls + [poll]) == poll;
  }

  /** Not yet published, and no relay has it locked. */
  predicate Waits(d: Delivery, id: nat) {
    id in d.rows && !d.rows[id].published && id !in d.olock
  }

  /** The batch is the oldest waiting rows as they are stored, all of them if they fit. */
  ghost predicate Oldest(d: Delivery, batch: seq<Record>, limit: nat) {
    && |batch| <= limit
    && (forall i | 0 <= i < |batch| :: Waits(d, batch[i].id) && batch[i].msg == d.rows[batch[i].id].msg)
    && (forall i, j | 0 <= i < j < |batch| :: batch[i].id < batch[j].id)
    && (forall id: nat | Waits(d, id) && (|batch| < limit || exists i :: 0 <= i < |batch| && id <= batch[i].id) :: Taken(batch, id))
  }

  ghost predicate Taken(batch: seq<Record>, id: nat) {
    exists i :: 0 <= i < |batch| && batch[i].id == id
  }

  lemma WaitsBelow(d: Delivery)
    requires Table(d)
    ensures forall id: nat | Waits(d, id) :: id < d.next
  {}

  lemma FetchedIsOldest(d: Delivery, limit: nat)
    requires Table(d)
    ensures Oldest(d, Outbox.FetchUnpublished(d.rows, d.olock.Keys, d.next, limit), limit)
  {
    hide Table;
    var q := PendingRows(d.rows, d.olock.Keys, d.next);
    var b := Outbox.FetchUnpublished(d.rows, d.olock.Keys, d.next, limit);
    PendingRowsAre(d.rows, d.olock.Keys, d.next);
    WaitsBelow(d);
    forall id: nat | Waits(d, id) && (|b| < limit || exists i :: 0 <= i < |b| && id <= b[i].id) ensures Taken(b, id) {
      var j :| 0 <= j < |q| && q[j] == Record(id, d.rows[id].msg);
      if j >= |b| {
        assert false;
      }
      assert b[j].id == id;
    }
  }

  /** The relay has the batch's rows locked, every other lock is as it was. */
  ghost predicate Locked(olock: map<nat, RelayId>, olock': map<nat, RelayId>, batch: seq<Record>, k: RelayId) {
    && (forall x | x in batch :: x.id in olock' && olock'[x.id] == k)
    && (forall id: nat | forall x | x in batch :: x.id != id :: Get(olock', id) == Get(olock, id))
  }

  lemma LocksBatch(olock: map<nat, RelayId>, batch: seq<Record>, k: RelayId)
    ensures Locked(olock, LockAll(olock, Ids(batch), k), batch, k) && (batch == [] ==> Locked(olock, olock, batch, k))
  {}

  /** A row of the batch is locked by another relay. */
  predicate Blocked(olock: map<nat, RelayId>, batch: seq<Record>) {
    exists x :: x in batch && x.id in olock
  }

  /** The batch's rows count one more attempt; no other row changes. */
  predicate Counted(rows: map<nat, Row>, rows': map<nat, Row>, batch: seq<Record>) {
    && rows'.Keys == rows.Keys
    && (forall id | id in rows :: rows'[id] ==
          if exists x :: x in batch && x.id == id then Row(rows[id].msg, rows[id].published, rows[id].attempts + 1) else rows[id])
  }

  /** The batch's rows are published; no other row changes, and nothing else of these. */
  predicate Marked(rows: map<nat, Row>, rows': map<nat, Row>, batch: seq<Record>) {
    && rows'.Keys == rows.Keys
    && (forall id | id in rows :: rows'[id] ==
          if exists x :: x in batch && x.id == id then Row(rows[id].msg, true, rows[id].attempts) else rows[id])
  }

  lemma SetIsMarked(rows: map<nat, Row>, batch: seq<Record>)
    ensures Marked(rows, SetPublished(rows, Ids(batch)), batch)
  {
    forall id ensures id in Ids(batch) <==> exists x :: x in batch && x.id == id {}
  }

  lemma BumpedIsCounted(rows: map<nat, Row>, batch: seq<Record>)
    ensures Counted(rows, BumpAttempts(rows, Ids(batch)), batch)
  {
    forall id ensures id in Ids(batch) <==> exists x :: x in batch && x.id == id {}
  }

  class Relay {
    const wire: Wire
    const k: RelayId
    const batchSize: nat

    // NewRelay
    constructor (wire: Wire, k: RelayId)
      ensures this.wire == wire && this.k == k && batchSize == BATCH_SIZE
    {
      this.wire, this.k, batchSize := wire, k, BATCH_SIZE;
    }

    // SELECT ... WHERE published_at IS NULL ORDER BY id LIMIT n, skipping locked rows.
    method Select() returns (records: seq<Record>)
      ensures records == Outbox.FetchUnpublished(wire.rows, wire.olock.Keys, wire.next, batchSize)
    {
      records := [];
      var id := 0;
      while id < wire.next && |records| < batchSize
        invariant id <= wire.next && |records| <= batchSize
        invariant records == PendingRows(wire.rows, wire.olock.Keys, id)
      {
        if id in wire.rows && !wire.rows[id].published && id !in wire.olock {
          records := records + [Record(id, wire.rows[id].msg)];
        }
        id := id + 1;
      }
      PendingPrefix(wire.rows, wire.olock.Keys, id, wire.next);
    }

    /** Claims a batch: the oldest unpublished rows nobody has locked, up to the limit, now locked. */
    method FetchUnpublished() returns (records: seq<Record>)
      requires wire.Valid() && wire.Alive(k, Idle)
      modifies wire`olock, wire`trace, wire`d
      ensures wire.Valid() && old(wire.trace) <= wire.trace && Oldest(old(wire.d), records, batchSize)
      ensures records == Outbox.FetchUnpublished(wire.rows, old(wire.olock).Keys, wire.next, batchSize)
      ensures wire.Alive(k, if records == [] then Idle else Fetching(records))
      ensures Locked(old(wire.olock), wire.olock, records, k)
    {
      hide Init, Legal, Outbox.Run, Outbox.FetchUnpublished, LockAll, Ids, Oldest, Sound, Locked;
      wire.Facts();
      SoundTable(wire.d);
      FetchedIsOldest(wire.d, batchSize);
      records := Select();
      LocksBatch(wire.olock, records, k);
      if records != [] { wire.olock := LockAll(wire.olock, Ids(records), k); }
      wire.Step(Relay(k, FetchLock(batchSize)));
    }

    // The fetch transaction commits: the locks go, nothing else is held from here on.
    method CommitFetch(records: seq<Record>)
      requires wire.Valid() && wire.Alive(k, Fetching(records))
      modifies wire`olock, wire`trace, wire`d
      ensures wire.Valid() && old(wire.trace) <= wire.trace && wire.Alive(k, Producing(records, {}))
    {
      hide Init, Legal, Outbox.Run, Unlock;
      wire.olock := Unlock(wire.olock, k);
      wire.Step(Relay(k, FetchDone));
    }

    // It fails to commit: rolled back, locks gone, nothing claimed.
    method AbortFetch(ghost records: seq<Record>)
      requires wire.Valid() && wire.Alive(k, Fetching(records))
      modifies wire`olock, wire`trace, wire`d
      ensures wire.Valid() && old(wire.trace) <= wire.trace && wire.Alive(k, Idle)
    {
      hide Init, Legal, Outbox.Run, Unlock;
      wire.olock := Unlock(wire.olock, k);
      wire.Step(Relay(k, Crash));
    }

    // One attempt at one partition: some prefix of its share of the batch reaches the log.
    method AppendTo(p: Part, records: seq<Record>, upto: nat, acked: set<Part>) returns (now: set<Part>)
      requires wire.Valid() && wire.Alive(k, Producing(records, acked)) && upto <= |records|
      modifies wire`logs, wire`trace, wire`d
      ensures wire.Valid() && old(wire.trace) <= wire.trace && wire.Alive(k, Producing(records, now))
      ensures now == if upto == |records| then acked + {p} else acked
      ensures wire.logs == old(wire.logs)[p := LogOf(old(wire.d), p) + Slice(records[..upto], p)]
    {
      hide Init, Legal, Outbox.Run, Slice;
      var log := if p in wire.logs then wire.logs[p] else [];
      wire.logs := wire.logs[p := log + Slice(records[..upto], p)];
      now := if upto == |records| then acked + {p} else acked;
      wire.Step(Relay(k, Append(p, upto)));
    }

    /**
     The broker client: up to three attempts at every partition, anything else running in between. It reports success
     only if every partition the batch needs has acknowledged all of it; unless `fails`, the broker does.
     */
    method WriteMessages(records: seq<Record>, fails: bool) returns (ok: bool)
      requires wire.Valid() && wire.Alive(k, Producing(records, {}))
      modifies wire
      ensures wire.Valid() && old(wire.trace) <= wire.trace && (ok <==> !fails)
      ensures wire.Alive(k, if ok then Produced(records) else Failing(records))
    {
      hide wire.Valid;
      var acked: set<Part> := {};
      for attempt := 0 to 3
        invariant wire.Valid() && old(wire.trace) <= wire.trace && wire.Alive(k, Producing(records, acked))
        invariant !fails && attempt > 0 ==> forall p | p in Drain.ALL_PARTS :: p in acked
      {
        for i := 0 to |Drain.ALL_PARTS|
          invariant wire.Valid() && old(wire.trace) <= wire.trace && wire.Alive(k, Producing(records, acked))
          invariant !fails ==> forall j | 0 <= j < i :: Drain.ALL_PARTS[j] in acked
        {
          wire.Others(k);
          var upto: nat := *;
          if !fails { upto := |records|; }
          if Drain.ALL_PARTS[i] !in acked && upto <= |records| {
            acked := AppendTo(Drain.ALL_PARTS[i], records, upto, acked);
          }
        }
      }
      wire.Others(k);
      forall x | x in records ensures PartOf(x.msg) in Drain.ALL_PARTS { Drain.PartsAreAll(x.msg); }
      ok := EndWrite(records, acked, !fails);
    }

    method EndWrite(records: seq<Record>, acked: set<Part>, noTimeout: bool) returns (ok: bool)
      requires wire.Valid() && wire.Alive(k, Producing(records, acked))
      modifies wire`trace, wire`d
      ensures wire.Valid() && old(wire.trace) <= wire.trace
      ensures wire.Alive(k, if ok then Produced(records) else Failing(records))
      ensures ok <==> noTimeout && forall x | x in records :: PartOf(x.msg) in acked
    {
      hide Init, Legal, Outbox.Run, PartOf;
      ok := noTimeout && forall x | x in records :: PartOf(x.msg) in acked;
      wire.Step(Relay(k, if ok then WriteOk else WriteErr));
    }

    // UPDATE outbox SET published_at: waits for rows another relay has locked, or gives up.
    method MarkPublished(ids: seq<nat>, fails: bool, ghost records: seq<Record>) returns (ok: bool)
      requires wire.Valid() && wire.Alive(k, Produced(records)) && ids == IdList(records)
      modifies wire`rows, wire`trace, wire`d
      ensures ok <==> !fails && !Blocked(old(wire.olock), records)
      ensures wire.Valid() && old(wire.trace) <= wire.trace && wire.Alive(k, Idle)
      ensures if ok then Marked(old(wire.rows), wire.rows, records) else wire.rows == old(wire.rows)
      ensures ok ==> Delivered(wire.d, records) && AllPublished(wire.rows, records)
    {
      hide Init, Legal, Outbox.Run, SetPublished, Sound, Delivered, AllPublished, Marked;
      SetIsMarked(wire.rows, records);
      wire.Facts();
      ProducedIsDelivered(wire.d, k);
      MarkedAll(wire.d, k, records);
      IdsOf(ids, records);
      var marked := set id | id in ids;
      assert marked == Ids(records);
      ok := !fails && marked !! wire.olock.Keys;
      if ok { wire.rows := SetPublished(wire.rows, marked); }
      wire.Step(Relay(k, if ok then RelayAct.MarkPublished else MarkErr));
    }

    // UPDATE outbox SET attempts = attempts + 1.
    method MarkFailed(ids: seq<nat>, fails: bool, ghost records: seq<Record>) returns (ok: bool)
      requires wire.Valid() && wire.Alive(k, Failing(records)) && ids == IdList(records)
      modifies wire`rows, wire`trace, wire`d
      ensures wire.Valid() && old(wire.trace) <= wire.trace && wire.Alive(k, Idle)
      ensures ok <==> !fails && !Blocked(old(wire.olock), records)
      ensures if ok then Counted(old(wire.rows), wire.rows, records) else wire.rows == old(wire.rows)
    {
      hide Init, Legal, Outbox.Run, BumpAttempts, Counted;
      BumpedIsCounted(wire.rows, records);
      IdsOf(ids, records);
      var marked := set id | id in ids;
      assert marked == Ids(records);
      ok := !fails && marked !! wire.olock.Keys;
      if ok { wire.rows := BumpAttempts(wire.rows, marked); }
      wire.Step(Relay(k, if ok then RelayAct.MarkFailed else MarkErr));
    }

    /**
     One poll. On success the batch is the oldest rows waiting in a state passed through, every row of it is published
     and its message is in the broker's log. On an error the count is zero and the relay is idle again; something
     failed, or another relay had locked a row of the batch.
     */
    method PublishBatch(faults: set<RelayStmt>)
      returns (n: nat, ok: bool, ghost records: seq<Record>, ghost seen: Delivery, ghost met: Delivery)
      requires wire.Valid() && wire.Alive(k, Idle)
      modifies wire
      ensures wire.Valid() && old(wire.trace) <= wire.trace && wire.Alive(k, Idle)
      ensures Polled(wire.start, wire.trace, |old(wire.trace)|, seen, met) && (ok ==> Oldest(seen, records, batchSize))
      ensures ok ==> n == |records| && Delivered(wire.d, records)
      ensures ok ==> AllPublished(wire.rows, records)
      ensures !ok ==> n == 0 && (faults != {} || Blocked(met.olock, records))
    {
      hide wire.Valid, Delivered, AllPublished, Oldest, Blocked, Passes;
      wire.Others(k);
      seen, met, records := wire.d, wire.d, [];
      ghost var before := wire.trace;
      wire.PassesNow(|old(wire.trace)|);
      if FetchRows in faults {
        return 0, false, [], seen, met;
      }
      var batch := FetchUnpublished();
      records := batch;
      if CommitRows in faults {
        if batch != [] { AbortFetch(batch); }
        wire.PassedThrough(before, |old(wire.trace)|);
        return 0, false, batch, seen, met;
      }
      if |batch| == 0 {
        NothingDelivered(wire.d);
        wire.Agrees();
        wire.PassedThrough(before, |old(wire.trace)|);
        return 0, true, [], seen, met;
      }
      wire.Others(k);
      CommitFetch(batch);
      ghost var at := |wire.trace|;
      n, ok, met := Produce(batch, faults);
      wire.PassedThrough(before, |old(wire.trace)|);
      PassesOn(wire.start, wire.trace, wire.trace, |old(wire.trace)|, at, met);
    }

    // The write to the broker and the record of how it went.
    method Produce(batch: seq<Record>, faults: set<RelayStmt>) returns (n: nat, ok: bool, ghost met: Delivery)
      requires wire.Valid() && wire.Alive(k, Producing(batch, {}))
      modifies wire
      ensures wire.Valid() && old(wire.trace) <= wire.trace && wire.Alive(k, Idle)
      ensures Passes(wire.start, wire.trace, |old(wire.trace)|, met)
      ensures ok ==> n == |batch| && Delivered(wire.d, batch) && AllPublished(wire.rows, batch)
      ensures !ok ==> n == 0 && (faults != {} || Blocked(met.olock, batch))
    {
      hide wire.Valid, Delivered, AllPublished, Blocked, Passes;
      var msgs: seq<Message>, ids: seq<nat> := [], [];
      for i := 0 to |batch|
        invariant msgs == Messages(batch[..i]) && ids == IdList(batch[..i])
      {
        msgs, ids := msgs + [batch[i].msg], ids + [batch[i].id];
      }
      assert batch[..|batch|] == batch;
      ok := WriteMessages(batch, WriteBatch in faults);
      wire.Others(k);
      met := wire.d;
      ghost var before := wire.trace;
      wire.Locks();
      wire.PassesNow(|old(wire.trace)|);
      if !ok {
        var recorded := MarkFailed(ids, MarkRows in faults, batch);
        n := 0;
      } else {
        ok := MarkPublished(ids, MarkRows in faults, batch);
        n := if ok then |batch| else 0;
      }
      wire.PassedThrough(before, |old(wire.trace)|);
    }

    /**
     Polls once a tick, given what fails in each; an error only means that the batch is tried again on a later tick.
     Every poll without one took the oldest rows waiting in a state passed through. It counts one for every row of the
     batches delivered, and all of these are in the logs and published when it ends.
     */
    method Run(faults: seq<set<RelayStmt>>)
      returns (published: nat, ghost batches: seq<seq<Record>>, ghost polls: seq<Tick>)
      requires wire.Valid() && wire.Alive(k, Idle)
      modifies wire
      ensures wire.Valid() && old(wire.trace) <= wire.trace && wire.Alive(k, Idle)
      ensures published == RowCount(batches) && AllDone(wire.d, batches) && wire.rows == wire.d.rows
      ensures |polls| == |faults| && batches == Delivereds(polls)
      ensures forall i | 0 <= i < |polls| :: Polled(wire.start, wire.trace, |old(wire.trace)|, polls[i].seen, polls[i].met)
      ensures forall i | 0 <= i < |polls| ::
                if polls[i].ok then Oldest(polls[i].seen, polls[i].records, batchSize)
                else faults[i] != {} || Blocked(polls[i].met.olock, polls[i].records)
    {
      hide wire.Valid, Polled, AllDone, RowCount, Delivered, AllPublished, Delivereds, Oldest, Blocked;
      published, batches, polls := 0, [], [];
      NoneDone(wire.d);
      for tick := 0 to |faults|
        invariant wire.Valid() && old(wire.trace) <= wire.trace && wire.Alive(k, Idle)
        invariant published == RowCount(batches) && AllDone(wire.d, batches)
        invariant |polls| == tick && batches == Delivereds(polls)
        invariant forall i | 0 <= i < |polls| :: Polled(wire.start, wire.trace, |old(wire.trace)|, polls[i].seen, polls[i].met)
        invariant forall i | 0 <= i < |polls| ::
                    if polls[i].ok then Oldest(polls[i].seen, polls[i].records, batchSize)
                    else faults[i] != {} || Blocked(polls[i].met.olock, polls[i].records)
      {
        ghost var before := wire.trace;
        StillDone(before, batches);
        wire.Others(k);
        ghost var at := |wire.trace|;
        var n, ok, batch, seen, met := PublishBatch(faults[tick]);
        PolledOn(wire.start, wire.trace, wire.trace, |old(wire.trace)|, at, seen, met);
        forall i | 0 <= i < |polls| ensures Polled(wire.start, wire.trace, |old(wire.trace)|, polls[i].seen, polls[i].met) {
          PolledOn(wire.start, before, wire.trace, |old(wire.trace)|, |old(wire.trace)|, polls[i].seen, polls[i].met);
        }
        StillDone(before, batches);
        wire.Agrees();
        OneMorePoll(polls, Tick(ok, batch, seen, met));
        polls := polls + [Tick(ok, batch, seen, met)];
        if ok {
          OneMoreDone(wire.d, batches, batch);
          batches := batches + [batch];
        }
        published := published + n;
      }
      wire.Agrees();
    }

    // Steps taken since a prefix of the trace undo no delivery.
    lemma StillDone(before: seq<BoxStep>, batches: seq<seq<Record>>)
      requires wire.Valid() && before <= wire.trace
      ensures Legal(wire.start, before)
      ensures AllDone(Outbox.Run(wire.start, before), batches) ==> AllDone(wire.d, batches)
      ensures before == wire.trace ==> Outbox.Run(wire.start, before) == wire.d
    {
      InitSound(wire.start);
      hide Init, AllDone, Sound;
      GrowsAlong(wire.start, before, wire.trace);
      DoneGrows(Outbox.Run(wire.start, before), wire.d, batches);
    }
  }

  lemma SoundTable(d: Delivery)
    requires Sound(d)
    ensures Table(d)
  {}

  function RowCount(batches: seq<seq<Record>>): nat {
    if batches == [] then 0 else RowCount(Front(batches)) + |Last(batches)|
  }

  // Every row of the batches is in its log and published.
  ghost predicate AllDone(d: Delivery, batches: seq<seq<Record>>) {
    forall b | b in batches :: Delivered(d, b) && AllPublished(d.rows, b)
  }

  lemma NoneDone(d: Delivery)
    ensures AllDone(d, []) && RowCount([]) == 0 && Delivereds([]) == []
  {}

  lemma OneMoreDone(d: Delivery, batches: seq<seq<Record>>, batch: seq<Record>)
    requires AllDone(d, batches) && Delivered(d, batch) && AllPublished(d.rows, batch)
    ensures AllDone(d, batches + [batch]) && RowCount(batches + [batch]) == RowCount(batches) + |batch|
  {
    hide Delivered, AllPublished;
    assert Front(batches + [batch]) == batches;
  }

  lemma DoneGrows(d: Delivery, d': Delivery, batches: seq<seq<Record>>)
    requires Grows(d, d')
    ensures AllDone(d, batches) ==> AllDone(d', batches)
  {
    if AllDone(d, batches) {
      forall b | b in batches ensures Delivered(d', b) && AllPublished(d'.rows, b) {
        assert Delivered(d, b) && AllPublished(d.rows, b);
        forall x | x in b ensures Shipped(d', x.msg) {
          assert Shipped(d, x.msg) && LogOf(d, PartOf(x.msg)) <= LogOf(d', PartOf(x.msg));
        }
      }
    }
  }

  lemma {:induction false} GrowsAlong(d: Delivery, a: seq<BoxStep>, b: seq<BoxStep>)
    requires Sound(d) && Legal(d, b) && a <= b
    ensures Legal(d, a) && Grows(Outbox.Run(d, a), Outbox.Run(d, b))
    decreases |b|
  {
    if a == b {
      hide Sound;
    } else {
      GrowsAlong(d, a, Front(b));
      SoundRun(d, Front(b));
      StepGrows(Outbox.Run(d, Front(b)), Last(b));
      hide Enabled, Apply;
    }
  }

  ghost predicate AllPublished(rows: map<nat, Row>, records: seq<Record>) {
    forall x | x in records :: x.id in rows && rows[x.id].published
  }

  lemma NothingDelivered(d: Delivery)
    ensures Delivered(d, []) && AllPublished(d.rows, [])
  {}

  lemma MarkedAll(d: Delivery, k: RelayId, records: seq<Record>)
    requires Delivered(d, records)
    ensures var d' := d.(rows := SetPublished(d.rows, Ids(records)), relays := d.relays[k := Idle]);
      Delivered(d', records) && AllPublished(d'.rows, records)
  {}

  lemma IdsOf(ids: seq<nat>, records: seq<Record>)
    requires ids == IdList(records)
    ensures forall id :: id in ids <==> id in Ids(records)
  {
    forall x | x in records ensures x.id in IdList(records) {
      var i :| 0 <= i < |records| && records[i] == x;
      assert IdList(records)[i] == x.id;
    }
  }

  // The rows below a smaller id come first.
  lemma {:induction false} PendingPrefix(rows: map<nat, Row>, locked: set<nat>, lo: nat, hi: nat)
    requires lo <= hi
    ensures PendingRows(rows, locked, lo) <= PendingRows(rows, locked, hi)
  {
    if lo < hi { PendingPrefix(rows, locked, lo, hi - 1); }
  }
}
