/**
 Which messages can still be told, exactly: the runs that tell them, and the invariant of those that
 are lost. From this follow when a cancellation can overtake its purchase and which commits are safe.
 */
module Telling {
  import opened Types
  import opened Outbox
  import opened OutboxProofs
  import opened DeliveryTheorems
  import opened Drain

  // A relay that may still write the message to its partition.
  ghost predicate Carries(r: RelayPc, m: Message) {
    (r.Fetching? || r.Producing?) && exists x :: x in r.batch && x.msg == m
  }

  // The partition has the message at or after the committed offset.
  ghost predicate Ahead(d: Delivery, m: Message) {
    exists i :: ReaderOf(d, PartOf(m)).committed <= i < |LogOf(d, PartOf(m))| && LogOf(d, PartOf(m))[i] == m
  }

  ghost predicate IsTold(d: Delivery, id: nat) {
    id in d.rows && d.rows[id].msg.mid in d.notes
  }

  /** A row whose message some later delivery can reach. */
  ghost predicate CanTell(d: Delivery, id: nat) {
    id in d.rows && var m := d.rows[id].msg;
    !d.rows[id].published || Ahead(d, m) || exists k :: k in d.relays && Carries(d.relays[k], m)
  }

  // ---------------------------------------------------------------- what is lost stays lost

  ghost predicate Lost(d: Delivery, id: nat) {
    id in d.rows && !IsTold(d, id) && !CanTell(d, id)
  }

  lemma SameMessage(d: Delivery, id: nat, m: Message)
    requires Table(d) && id in d.rows && FromRow(d, m) && m.mid == d.rows[id].msg.mid
    ensures m == d.rows[id].msg
  {}

  lemma OtherMessage(d: Delivery, id: nat, m: Message)
    requires Table(d) && id in d.rows && FromRow(d, m) && m != d.rows[id].msg
    ensures m.mid != d.rows[id].msg.mid
  {}

  lemma LostQueue(d: Delivery, q: QueueAct, id: nat)
    requires Sound(d) && Lost(d, id) && CanQueue(d, q)
    ensures Lost(DoQueue(d, q), id)
  {
    var m := d.rows[id].msg;
    var d' := DoQueue(d, q);
    assert !Ahead(d, m) && LogOf(d', PartOf(m)) == LogOf(d, PartOf(m)) && ReaderOf(d', PartOf(m)) == ReaderOf(d, PartOf(m));
    forall k | k in d'.relays ensures !Carries(d'.relays[k], m) { assert !Carries(d.relays[k], m); }
  }

  // A relay takes up unpublished rows only, and the lost row is published.
  lemma LostCarries(d: Delivery, k: RelayId, a: RelayAct, id: nat)
    requires Sound(d) && Lost(d, id) && CanRelay(d, k, a)
    ensures k in DoRelay(d, k, a).relays && !Carries(DoRelay(d, k, a).relays[k], d.rows[id].msg)
  {
    var m := d.rows[id].msg;
    if a.FetchLock? {
      FetchIsInOrder(d.rows, d.olock.Keys, d.next, a.limit);
      hide FetchUnpublished, LockAll;
    }
    assert !Carries(d.relays[k], m);
  }

  lemma LostRelay(d: Delivery, k: RelayId, a: RelayAct, id: nat)
    requires Sound(d) && Lost(d, id) && CanRelay(d, k, a)
    ensures Lost(DoRelay(d, k, a), id)
  {
    LostCarries(d, k, a, id);
    RelayFrame(d, k, a);
    var d' := DoRelay(d, k, a);
    var m := d.rows[id].msg;
    forall j | j in d'.relays ensures !Carries(d'.relays[j], m) { assert j != k ==> d'.relays[j] == d.relays[j]; }
    LostLog(d, k, a, id);
    hide DoRelay, CanRelay, Sound;
  }

  lemma LostLog(d: Delivery, k: RelayId, a: RelayAct, id: nat)
    requires Sound(d) && Lost(d, id) && CanRelay(d, k, a)
    ensures !Ahead(DoRelay(d, k, a), d.rows[id].msg)
  {
    var m := d.rows[id].msg;
    var p := PartOf(m);
    assert !Carries(d.relays[k], m) && !Ahead(d, m) by { hide Carries, Ahead, DoRelay; }
    hide Sound, DoRelay, CanRelay;
    RelayReaders(d, k, a, p);
    if a.Append? && a.part == p {
      Appended(d, k, p, a.upto, m);
    } else {
      OtherLog(d, k, a, p);
    }
    hide LogOf, ReaderOf, Carries;
  }

  // What a relay appends is messages it carries.
  lemma Appended(d: Delivery, k: RelayId, p: Part, upto: nat, m: Message)
    requires CanRelay(d, k, Append(p, upto)) && !Carries(d.relays[k], m)
    ensures var log, log' := LogOf(d, p), LogOf(DoRelay(d, k, Append(p, upto)), p);
      log <= log' && forall i | |log| <= i < |log'| :: log'[i] != m
  {
    var batch := d.relays[k].batch[..upto];
    SliceIs(batch, p);
    assert m !in Slice(batch, p);
  }

  lemma OtherLog(d: Delivery, k: RelayId, a: RelayAct, p: Part)
    requires CanRelay(d, k, a) && !(a.Append? && a.part == p)
    ensures LogOf(DoRelay(d, k, a), p) == LogOf(d, p)
  {}

  // The message at the reader's position is not the lost one.
  lemma LostNotes(d: Delivery, p: Part, w: WorkerAct, id: nat)
    requires Sound(d) && Lost(d, id) && CanWork(d, p, w)
    ensures d.rows[id].msg.mid !in DoWork(d, p, w).notes
  {
    var m := d.rows[id].msg;
    var r := ReaderOf(d, p);
    assert ReaderOk(d, p) && LogOk(d, p) && !Ahead(d, m);
    if w.HandleOk? { OtherMessage(d, id, LogOf(d, p)[r.pos]); }
    hide Sound, LogOk, ReaderOk, FromRow, Render;
  }

  lemma LostWork(d: Delivery, p: Part, w: WorkerAct, id: nat)
    requires Sound(d) && Lost(d, id) && CanWork(d, p, w)
    ensures Lost(DoWork(d, p, w), id)
  {
    LostNotes(d, p, w, id);
    WorkerFrame(d, p, w);
    var m := d.rows[id].msg;
    assert ReaderOk(d, p) && !Ahead(d, m);
    hide Sound, Notify;
    var d' := DoWork(d, p, w);
    assert LogOf(d', PartOf(m)) == LogOf(d, PartOf(m));
    assert ReaderOf(d', PartOf(m)).committed >= ReaderOf(d, PartOf(m)).committed;
    hide DoWork, CanWork, ReaderOk, ReaderOf, LogOf;
    forall k | k in d'.relays ensures !Carries(d'.relays[k], m) { assert !Carries(d.relays[k], m); }
  }

  lemma LostKept(d: Delivery, b: BoxStep, id: nat)
    requires Sound(d) && Lost(d, id) && Enabled(d, b)
    ensures Lost(Apply(d, b), id) && Apply(d, b).rows[id].msg == d.rows[id].msg
  {
    StepGrows(d, b);
    hide Sound, Lost, CanQueue, CanRelay, CanWork, DoQueue, DoRelay, DoWork;
    match b
    case Queue(q) => LostQueue(d, q, id);
    case Relay(k, a) => LostRelay(d, k, a, id);
    case Worker(p, w) => LostWork(d, p, w, id);
  }

  lemma {:induction false} LostForGood(d: Delivery, steps: seq<BoxStep>, id: nat)
    requires Sound(d) && Lost(d, id) && Legal(d, steps)
    ensures Lost(Run(d, steps), id) && Run(d, steps).rows[id].msg == d.rows[id].msg
    decreases |steps|
  {
    hide Sound, Lost, Enabled, Apply;
    if steps != [] {
      LostForGood(d, Front(steps), id);
      SoundRun(d, Front(steps));
      LostKept(Run(d, Front(steps)), Last(steps), id);
    }
  }

  // ---------------------------------------------------------------- what can be told is told by some run

  /** Steps of relays, with the batch size the code uses, and of workers whose handlers succeed. */
  predicate Outward(steps: seq<BoxStep>) {
    forall b | b in steps ::
      match b
      case Queue(_) => false
      case Relay(_, a) => a.FetchLock? ==> a.limit == BATCH_SIZE
      case Worker(_, w) => !w.HandleErr?
  }

  lemma OutwardParts(steps: seq<BoxStep>)
    requires Outward(steps) && steps != []
    ensures Outward(Front(steps)) && !Last(steps).Queue?
  {
    assert Last(steps) in steps;
    forall b | b in Front(steps) ensures b in steps {}
  }

  ghost predicate Leads(d: Delivery, steps: seq<BoxStep>, d': Delivery) {
    Legal(d, steps) && Run(d, steps) == d' && Outward(steps)
  }

  lemma Then(d: Delivery, steps: seq<BoxStep>, d1: Delivery, b: BoxStep) returns (steps': seq<BoxStep>)
    requires Leads(d, steps, d1) && Enabled(d1, b) && Outward([b])
    ensures Leads(d, steps', Apply(d1, b))
  {
    hide Enabled, Apply;
    Snoc(d, steps, b);
    steps' := steps + [b];
    forall x | x in steps' ensures x in steps || x in [b] {}
  }

  lemma Join(d: Delivery, a: seq<BoxStep>, d1: Delivery, b: seq<BoxStep>, d2: Delivery)
    requires Leads(d, a, d1) && Leads(d1, b, d2)
    ensures Leads(d, a + b, d2)
  {
    RunConcat(d, a, b);
  }

  lemma {:induction false} CrashAll(d: Delivery, ks: set<RelayId>) returns (steps: seq<BoxStep>, d': Delivery)
    requires ks <= d.relays.Keys
    ensures Leads(d, steps, d') && d' == d.(relays := d'.relays, olock := d'.olock) && d'.relays.Keys == d.relays.Keys
    ensures forall k | k in d.relays :: d'.relays[k] == if k in ks then Idle else d.relays[k]
    decreases |ks|
  {
    if ks == {} {
      steps, d' := [], d;
    } else {
      var k :| k in ks;
      var d1;
      steps, d1 := CrashAll(d, ks - {k});
      steps := Then(d, steps, d1, Relay(k, Crash));
      d' := Apply(d1, Relay(k, Crash));
    }
  }

  lemma AllIdle(d: Delivery)
    requires OutboxLocks(d) && forall k | k in d.relays :: d.relays[k].Idle?
    ensures d.olock == map[]
  {}

  lemma PassOutward(d: Delivery, k: RelayId)
    ensures Outward(PassSteps(d, k, BATCH_SIZE))
  {
    AppendsOutward(k, ALL_PARTS, |FetchUnpublished(d.rows, d.olock.Keys, d.next, BATCH_SIZE)|);
  }

  lemma {:induction false} AppendsOutward(k: RelayId, ps: seq<Part>, n: nat)
    ensures Outward(Appends(k, ps, n))
    decreases |ps|
  {
    if ps != [] { AppendsOutward(k, Front(ps), n); }
  }

  lemma {:induction false} PassesOutward(d: Delivery, k: RelayId, passes: nat)
    requires Resting(d, k)
    ensures Outward(PassesSteps(d, k, BATCH_SIZE, passes))
  {
    hide Legal, Run, PassSteps, PassesSteps, Resting, Outward;
    if passes == 0 {
      NoPasses(d, k);
    } else {
      PassesOutward(d, k, passes - 1);
      var last := PassesUnfold(d, k, passes);
      OutwardBoth(PassesSteps(d, k, BATCH_SIZE, passes - 1), last);
    }
  }

  lemma NoPasses(d: Delivery, k: RelayId)
    requires Resting(d, k)
    ensures Outward(PassesSteps(d, k, BATCH_SIZE, 0))
  {
    hide Legal, Run, PassSteps, Resting;
  }

  lemma PassesUnfold(d: Delivery, k: RelayId, passes: nat) returns (last: seq<BoxStep>)
    requires Resting(d, k) && passes > 0
    ensures Outward(last) && PassesSteps(d, k, BATCH_SIZE, passes) == PassesSteps(d, k, BATCH_SIZE, passes - 1) + last
  {
    hide Legal, Run, PassSteps, Resting, Outward;
    var d1 := Run(d, PassesSteps(d, k, BATCH_SIZE, passes - 1));
    last := PassSteps(d1, k, BATCH_SIZE);
    PassOutward(d1, k);
  }

  lemma OutwardBoth(a: seq<BoxStep>, b: seq<BoxStep>)
    requires Outward(a) && Outward(b)
    ensures Outward(a + b)
  {}

  // d' is d after some passes; a row pending in d is still pending or was appended meanwhile.
  ghost predicate Passed(d: Delivery, d': Delivery, id: nat) {
    id in d.rows && d' == d.(rows := d'.rows, logs := d'.logs) && id in d'.rows && d'.rows[id].msg == d.rows[id].msg
    && var m := d.rows[id].msg;
       var n := |LogOf(d, PartOf(m))|;
       n <= |LogOf(d', PartOf(m))| && (d'.rows[id].published ==> m in LogOf(d', PartOf(m))[n..])
  }

  lemma PassedMore(d: Delivery, d1: Delivery, d2: Delivery, batch: seq<Record>, id: nat)
    requires Passed(d, d1, id) && d2 == d1.(rows := SetPublished(d1.rows, Ids(batch)), logs := d2.logs)
    requires forall x | x in batch :: x.id in d1.rows && x.msg == d1.rows[x.id].msg
    requires forall p :: LogOf(d2, p) == LogOf(d1, p) + Slice(batch, p)
    ensures Passed(d, d2, id)
  {
    var m := d.rows[id].msg;
    var n := |LogOf(d, PartOf(m))|;
    SliceIs(batch, PartOf(m));
    assert LogOf(d2, PartOf(m))[n..] == LogOf(d1, PartOf(m))[n..] + Slice(batch, PartOf(m));
    if id in Ids(batch) {
      var x :| x in batch && x.id == id;
    }
  }

  lemma {:induction false} PassesShip(d: Delivery, k: RelayId, passes: nat, id: nat)
    requires Resting(d, k) && id in d.rows && !d.rows[id].published
    ensures Passed(d, AfterPasses(d, k, BATCH_SIZE, passes), id)
  {
    hide Legal, Run, PassSteps, PassesSteps, AfterPasses, Passed, FetchUnpublished, SetPublished, Ids, Slice, LogOf;
    if passes == 0 {
      NonePassed(d, k, id);
    } else {
      PassesShip(d, k, passes - 1, id);
      var d1 := AfterPasses(d, k, BATCH_SIZE, passes - 1);
      OnePassMore(d, k, BATCH_SIZE, passes);
      PassPublishes(d1, k, BATCH_SIZE);
      FetchIsInOrder(d1.rows, {}, d1.next, BATCH_SIZE);
      PassedMore(d, d1, AfterPasses(d, k, BATCH_SIZE, passes), FetchUnpublished(d1.rows, {}, d1.next, BATCH_SIZE), id);
    }
  }

  lemma NonePassed(d: Delivery, k: RelayId, id: nat)
    requires Resting(d, k) && id in d.rows && !d.rows[id].published
    ensures Passed(d, AfterPasses(d, k, BATCH_SIZE, 0), id)
  {
    hide Resting;
  }

  // Crash every relay and drain: the row's message is appended.
  lemma Republish(d: Delivery, id: nat) returns (steps: seq<BoxStep>, d': Delivery)
    requires Sound(d) && id in d.rows && !d.rows[id].published && d.relays != map[]
    ensures Leads(d, steps, d') && d'.rows.Keys >= {id} && d'.rows[id].msg == d.rows[id].msg
    ensures d'.notes == d.notes && d'.readers == d.readers && Ahead(d', d.rows[id].msg)
  {
    hide Legal, Run, Shipping, Table;
    var d1;
    steps, d1 := CrashAll(d, d.relays.Keys);
    var k :| k in d.relays;
    assert Resting(d1, k) by { SoundRun(d, steps); AllIdle(d1); }
    var passes := CeilDiv(PendingCount(d1), BATCH_SIZE);
    PassesShip(d1, k, passes, id);
    DrainsInCeilPasses(d1, k, BATCH_SIZE, passes);
    d' := AfterPasses(d1, k, BATCH_SIZE, passes);
    PassesOutward(d1, k, passes);
    var more := PassesSteps(d1, k, BATCH_SIZE, passes);
    Join(d, steps, d1, more, d');
    steps := steps + more;
    SoundRun(d, steps);
    EmptyIsPublished(d', id);
    AppendedIsAhead(d, d1, d', id);
  }

  lemma EmptyIsPublished(d: Delivery, id: nat)
    requires Table(d) && id in d.rows && PendingCount(d) == 0
    ensures d.olock == map[] ==> d.rows[id].published
  {
    PendingRowsAre(d.rows, {}, d.next);
  }

  lemma AppendedIsAhead(d: Delivery, d1: Delivery, d': Delivery, id: nat)
    requires Passed(d1, d', id) && d'.rows[id].published && d1.rows == d.rows && d1.logs == d.logs && d1.readers == d.readers
    requires forall p :: ReaderOk(d, p)
    ensures Ahead(d', d.rows[id].msg)
  {
    var m := d.rows[id].msg;
    var n := |LogOf(d, PartOf(m))|;
    assert ReaderOk(d, PartOf(m));
    var i :| 0 <= i < |LogOf(d', PartOf(m))[n..]| && LogOf(d', PartOf(m))[n..][i] == m;
    assert LogOf(d', PartOf(m))[n + i] == m;
  }

  // A relay that carries the message writes it.
  lemma WriteOut(d: Delivery, k: RelayId, id: nat) returns (steps: seq<BoxStep>, d': Delivery)
    requires Sound(d) && id in d.rows && k in d.relays && Carries(d.relays[k], d.rows[id].msg)
    ensures Leads(d, steps, d') && d'.rows == d.rows
    ensures d'.notes == d.notes && d'.readers == d.readers && Ahead(d', d.rows[id].msg)
  {
    var m := d.rows[id].msg;
    var p := PartOf(m);
    var batch := d.relays[k].batch;
    assert ReaderOk(d, p);
    SliceIs(batch, p);
    hide Legal, Run, Sound;
    var d1;
    steps, d1 := Produce(d, k);
    hide Leads;
    steps := Then(d, steps, d1, Relay(k, Append(p, |batch|)));
    d' := Apply(d1, Relay(k, Append(p, |batch|)));
    assert batch[..|batch|] == batch;
    assert LogOf(d', p) == LogOf(d, p) + Slice(batch, p);
    var i :| 0 <= i < |Slice(batch, p)| && Slice(batch, p)[i] == m;
    assert LogOf(d', p)[|LogOf(d, p)| + i] == m;
  }

  // A relay that has fetched closes its transaction.
  lemma Produce(d: Delivery, k: RelayId) returns (steps: seq<BoxStep>, d': Delivery)
    requires k in d.relays && (d.relays[k].Fetching? || d.relays[k].Producing?)
    ensures Leads(d, steps, d') && d' == d.(relays := d'.relays, olock := d'.olock)
    ensures k in d'.relays && d'.relays[k].Producing? && d'.relays[k].batch == d.relays[k].batch
  {
    hide Legal, Run;
    steps, d' := [], d;
    NoSteps(d);
    if d.relays[k].Fetching? {
      steps := Then(d, steps, d, Relay(k, FetchDone));
      d' := Apply(d, Relay(k, FetchDone));
    }
  }

  lemma NoSteps(d: Delivery)
    ensures Leads(d, [], d)
  {}

  // ---------------------------------------------------------------- one reader

  // Reads, handles and commits the next message.
  lemma ReadNext(d: Delivery, p: Part) returns (steps: seq<BoxStep>, d': Delivery)
    requires CanWork(d, p, Poll)
    ensures Leads(d, steps, d')
    ensures var r := ReaderOf(d, p);
      d' == d.(readers := d.readers[p := Reader(r.pos + 1, r.pos + 1, Waiting)], notes := Notify(d.notes, LogOf(d, p)[r.pos]))
  {
    hide Legal, Run, Notify;
    NoSteps(d);
    steps := Then(d, [], d, Worker(p, Poll));
    var d1 := Apply(d, Worker(p, Poll));
    steps := Then(d, steps, d1, Worker(p, HandleOk));
    var d2 := Apply(d1, Worker(p, HandleOk));
    steps := Then(d, steps, d2, Worker(p, CommitOffset));
    d' := Apply(d2, Worker(p, CommitOffset));
    assert d'.readers == d.readers[p := Reader(ReaderOf(d, p).pos + 1, ReaderOf(d, p).pos + 1, Waiting)];
  }

  function Mids(log: seq<Message>): set<MsgId> {
    set m | m in log :: m.mid
  }

  // The reader of p is at pos with nothing in hand, and has told at least what lies between.
  ghost predicate ReadTo(d: Delivery, d': Delivery, p: Part, from: nat, pos: nat) {
    && d' == d.(readers := d'.readers, notes := d'.notes) && from <= pos <= |LogOf(d, p)|
    && ReaderOf(d', p).pos == pos && ReaderOf(d', p).stage.Waiting?
    && d'.notes.Keys == d.notes.Keys + Mids(LogOf(d, p)[from..pos])
  }

  lemma {:induction false} ReadOn(d: Delivery, p: Part, from: nat, pos: nat) returns (steps: seq<BoxStep>, d': Delivery)
    requires ReaderOf(d, p).pos == from <= pos <= |LogOf(d, p)| && ReaderOf(d, p).stage.Waiting?
    ensures Leads(d, steps, d') && ReadTo(d, d', p, from, pos)
    decreases pos - from
  {
    if pos == from {
      steps, d' := [], d;
      assert LogOf(d, p)[from..from] == [] && Mids([]) == {};
    } else {
      hide Legal, Run, Leads, Notify, ReadTo;
      var d1, more;
      steps, d1 := ReadOn(d, p, from, pos - 1);
      CanRead(d, d1, p, from, pos);
      more, d' := ReadNext(d1, p);
      Join(d, steps, d1, more, d');
      steps := steps + more;
      ReadMore(d, d1, d', p, from, pos);
    }
  }

  lemma CanRead(d: Delivery, d1: Delivery, p: Part, from: nat, pos: nat)
    requires from < pos <= |LogOf(d, p)| && ReadTo(d, d1, p, from, pos - 1)
    ensures CanWork(d1, p, Poll)
  {}

  lemma ReadMore(d: Delivery, d1: Delivery, d': Delivery, p: Part, from: nat, pos: nat)
    requires from < pos <= |LogOf(d, p)| && ReadTo(d, d1, p, from, pos - 1)
    requires d' == d1.(readers := d1.readers[p := Reader(pos, pos, Waiting)], notes := Notify(d1.notes, LogOf(d1, p)[pos - 1]))
    ensures ReadTo(d, d', p, from, pos)
  {
    MidsMore(LogOf(d, p), from, pos);
    hide Mids, Render;
  }

  lemma MidsMore(log: seq<Message>, from: nat, pos: nat)
    requires from < pos <= |log|
    ensures Mids(log[from..pos]) == Mids(log[from..pos - 1]) + {log[pos - 1].mid}
  {
    assert log[from..pos] == log[from..pos - 1] + [log[pos - 1]];
  }

  // ---------------------------------------------------------------- exactly the rest can be told

  // What d' has told that d had not comes from partition p.
  ghost predicate OnlyFrom(d: Delivery, d': Delivery, p: Part) {
    forall x | x in d'.notes :: x in d.notes || exists m :: m in LogOf(d', p) && m.mid == x
  }

  lemma WhereAhead(d: Delivery, m: Message) returns (i: nat)
    requires Ahead(d, m)
    ensures ReaderOf(d, PartOf(m)).committed <= i < |LogOf(d, PartOf(m))| && LogOf(d, PartOf(m))[i] == m
  {
    i :| ReaderOf(d, PartOf(m)).committed <= i < |LogOf(d, PartOf(m))| && LogOf(d, PartOf(m))[i] == m;
  }

  // From a state where the message is ahead of the reader: restart and read up to it.
  lemma ReadUp(d: Delivery, id: nat) returns (steps: seq<BoxStep>, d': Delivery)
    requires Sound(d) && id in d.rows && Ahead(d, d.rows[id].msg)
    ensures Leads(d, steps, d') && d'.rows == d.rows && IsTold(d', id)
    ensures OnlyFrom(d, d', PartOf(d.rows[id].msg))
  {
    hide Legal, Run, Sound, Leads, Ahead, ReadTo, OnlyFrom, IsTold, LogOf, ReaderOf, PartOf;
    var p := PartOf(d.rows[id].msg);
    var i := WhereAhead(d, d.rows[id].msg);
    var from := ReaderOf(d, p).committed;
    var d1;
    steps, d1 := Rewind(d, p);
    var more;
    more, d' := ReadOn(d1, p, from, i + 1);
    Join(d, steps, d1, more, d');
    steps := steps + more;
    UpTo(d, d1, d', p, from, i, id);
  }

  // Restarting takes the reader back to its committed offset.
  lemma Rewind(d: Delivery, p: Part) returns (steps: seq<BoxStep>, d': Delivery)
    ensures Leads(d, steps, d') && d' == d.(readers := d'.readers) && LogOf(d', p) == LogOf(d, p)
    ensures ReaderOf(d', p) == Reader(ReaderOf(d, p).committed, ReaderOf(d, p).committed, Waiting)
  {
    NoSteps(d);
    hide Leads;
    steps := Then(d, [], d, Worker(p, Restart));
    d' := Apply(d, Worker(p, Restart));
  }

  lemma UpTo(d: Delivery, d1: Delivery, d': Delivery, p: Part, from: nat, i: nat, id: nat)
    requires d1 == d.(readers := d1.readers) && LogOf(d1, p) == LogOf(d, p)
    requires from <= i < |LogOf(d, p)| && ReadTo(d1, d', p, from, i + 1)
    requires id in d.rows && d.rows[id].msg == LogOf(d, p)[i]
    ensures d'.rows == d.rows && IsTold(d', id) && OnlyFrom(d, d', p)
  {
    var read := LogOf(d, p)[from..i + 1];
    assert read[i - from] == d.rows[id].msg;
    forall x | x in d'.notes && x !in d.notes ensures exists m :: m in LogOf(d', p) && m.mid == x {
      var m :| m in read && m.mid == x;
      assert m in LogOf(d', p);
    }
  }

  /** Some run of relays and workers, without failures, tells a message that can be told, and only from its partition. */
  lemma Tell(d: Delivery, id: nat) returns (steps: seq<BoxStep>, d': Delivery)
    requires Sound(d) && CanTell(d, id) && d.relays != map[]
    ensures Leads(d, steps, d') && IsTold(d', id) && d'.rows[id].msg == d.rows[id].msg
    ensures OnlyFrom(d, d', PartOf(d.rows[id].msg))
  {
    hide Legal, Run, Table, Shipping, Working, OutboxLocks, Leads, Ahead, OnlyFrom;
    var d1;
    if Ahead(d, d.rows[id].msg) {
      steps, d1 := [], d;
      NoSteps(d);
    } else if !d.rows[id].published {
      steps, d1 := Republish(d, id);
    } else {
      var k :| k in d.relays && Carries(d.relays[k], d.rows[id].msg);
      steps, d1 := WriteOut(d, k, id);
    }
    assert Sound(d1) by { Reached(d, steps, d1); }
    var more;
    more, d' := ReadUp(d1, id);
    Join(d, steps, d1, more, d');
    steps := steps + more;
    SameSource(d, d1, d', PartOf(d.rows[id].msg));
  }

  lemma Reached(d: Delivery, steps: seq<BoxStep>, d': Delivery)
    requires Sound(d) && Leads(d, steps, d')
    ensures Sound(d') && Grows(d, d') && d'.failed == d.failed
  {
    SoundRun(d, steps);
    FailedStays(d, steps);
    hide Sound, Legal, Run, Grows;
  }

  lemma SameSource(d: Delivery, d1: Delivery, d': Delivery, p: Part)
    requires d1.notes == d.notes && OnlyFrom(d1, d', p)
    ensures OnlyFrom(d, d', p)
  {}

  /** Without handler failures, and with a relay, every committed message can still be told. */
  lemma NothingLost(d: Delivery, id: nat)
    requires Sound(d) && d.failed == {} && id in d.rows && !IsTold(d, id)
    ensures CanTell(d, id)
  {
    var m := d.rows[id].msg;
    var p := PartOf(m);
    assert ReaderOk(d, p) && RowOk(d, id);
    if d.rows[id].published {
      var i :| 0 <= i < |LogOf(d, p)| && LogOf(d, p)[i] == m;
      assert i < ReaderOf(d, p).pos ==> Told(d, LogOf(d, p)[i].mid);
      assert ReaderOf(d, p).committed <= i;
    }
  }

  // ---------------------------------------------------------------- a cancellation and its purchase

  lemma OtherTopicUntold(d: Delivery, d': Delivery, a: nat, p: Part)
    requires Sound(d') && a in d.rows && a in d'.rows && d'.rows[a].msg == d.rows[a].msg && !IsTold(d, a)
    requires OnlyFrom(d, d', p) && p.topic != d.rows[a].msg.Topic()
    ensures !IsTold(d', a)
  {
    assert LogOk(d', p);
    forall m | m in LogOf(d', p) ensures m.mid != d.rows[a].msg.mid {
      if m.mid == d.rows[a].msg.mid { SameMessage(d', a, m); }
    }
  }

  // Relays and workers tell the cancellation while the purchase stays untold: the topics are read apart.
  lemma TellBefore(d: Delivery, a: nat, c: nat) returns (steps: seq<BoxStep>, d': Delivery)
    requires Sound(d) && d.relays != map[] && a in d.rows && c in d.rows
    requires d.rows[a].msg.Purchased? && d.rows[c].msg.Cancelled? && !IsTold(d, a) && CanTell(d, c)
    ensures Leads(d, steps, d') && IsTold(d', c) && !IsTold(d', a)
  {
    hide Sound, CanTell, IsTold;
    steps, d' := Tell(d, c);
    Reached(d, steps, d');
    OtherTopicUntold(d, d', a, PartOf(d.rows[c].msg));
  }

  lemma ToldStays(d: Delivery, steps: seq<BoxStep>, id: nat)
    requires Sound(d) && Legal(d, steps) && IsTold(d, id)
    ensures IsTold(Run(d, steps), id)
  {
    NotifiedOnce(d, steps, d.rows[id].msg.mid);
    SoundRun(d, steps);
    hide Legal, Run, Sound;
  }

  // ---------------------------------------------------------------- which commits are safe

  /** Everything from the committed offset up to the message in hand has been told. */
  ghost predicate SafeCommit(d: Delivery, p: Part) {
    var r := ReaderOf(d, p);
    forall i | r.committed <= i <= r.pos && i < |LogOf(d, p)| :: LogOf(d, p)[i].mid in d.notes
  }

  // Every commit of the run met that guard; handlers may fail anywhere.
  ghost predicate Guarded(d: Delivery, steps: seq<BoxStep>)
    requires Legal(d, steps)
    decreases |steps|
  {
    steps == [] ||
    (Guarded(d, Front(steps))
     && (Last(steps).Worker? && Last(steps).w.CommitOffset? ==> SafeCommit(Run(d, Front(steps)), Last(steps).p)))
  }

  // Nothing below a committed offset is untold.
  ghost predicate BehindTold(d: Delivery, p: Part) {
    forall i | 0 <= i < ReaderOf(d, p).committed && i < |LogOf(d, p)| :: LogOf(d, p)[i].mid in d.notes
  }

  lemma BehindKept(d: Delivery, b: BoxStep, p: Part)
    requires Sound(d) && BehindTold(d, p) && Enabled(d, b)
    requires b.Worker? && b.w.CommitOffset? ==> SafeCommit(d, b.p)
    ensures BehindTold(Apply(d, b), p)
  {
    assert ReaderOk(d, p);
    hide Sound, DoWork, CanWork, DoQueue, CanQueue, DoRelay, CanRelay;
    if b.Worker? && b.p == p {
      hide ReaderOk, BehindTold, SafeCommit;
      BehindOwn(d, p, b.w);
    } else {
      StepGrows(d, b);
      var d' := Apply(d, b);
      forall m: MsgId | m in d.notes ensures m in d'.notes { NoteStays(d, b, m); }
      assert LogOf(d, p) <= LogOf(d', p);
      ReaderStays(d, b, p);
      hide Apply, Enabled, Grows;
    }
  }

  lemma BehindOwn(d: Delivery, p: Part, w: WorkerAct)
    requires BehindTold(d, p) && CanWork(d, p, w) && (w.CommitOffset? ==> SafeCommit(d, p))
    ensures BehindTold(DoWork(d, p, w), p)
  {
    hide Render;
    assert LogOf(DoWork(d, p, w), p) == LogOf(d, p);
  }

  lemma ReaderStays(d: Delivery, b: BoxStep, p: Part)
    requires Enabled(d, b) && !(b.Worker? && b.p == p)
    ensures ReaderOf(Apply(d, b), p) == ReaderOf(d, p)
  {
    hide DoRelay, CanRelay, DoWork, CanWork, DoQueue, CanQueue, ReaderOf, Grows;
    match b
    case Queue(q) => QueueReaders(d, q, p);
    case Relay(k, a) => RelayReaders(d, k, a, p);
    case Worker(o, w) => OtherReader(d, o, w, p);
  }

  lemma QueueReaders(d: Delivery, q: QueueAct, p: Part)
    requires CanQueue(d, q)
    ensures ReaderOf(DoQueue(d, q), p) == ReaderOf(d, p)
  {}

  lemma RelayReaders(d: Delivery, k: RelayId, a: RelayAct, p: Part)
    requires CanRelay(d, k, a)
    ensures ReaderOf(DoRelay(d, k, a), p) == ReaderOf(d, p)
  {
    RelayFrame(d, k, a);
    hide DoRelay, CanRelay, Grows;
  }

  lemma OtherReader(d: Delivery, o: Part, w: WorkerAct, p: Part)
    requires CanWork(d, o, w) && o != p
    ensures ReaderOf(DoWork(d, o, w), p) == ReaderOf(d, p)
  {
    hide Notify, LogOf;
  }

  lemma {:induction false} GuardedRun(d: Delivery, steps: seq<BoxStep>)
    requires Init(d) && Legal(d, steps) && Guarded(d, steps)
    ensures Sound(Run(d, steps)) && forall p :: BehindTold(Run(d, steps), p)
    decreases |steps|
  {
    InitSound(d);
    SoundRun(d, steps);
    if steps == [] {
      hide Sound;
    } else {
      GuardedRun(d, Front(steps));
      SoundRun(d, Front(steps));
      hide Init, Sound, Enabled, Apply, BehindTold, SafeCommit;
      forall p ensures BehindTold(Run(d, steps), p) { BehindKept(Run(d, Front(steps)), Last(steps), p); }
    }
  }

  /** Handlers may fail: if every commit is safe, then once nothing is pending all committed messages are told. */
  lemma SafeCommitsDeliverAll(d0: Delivery, steps: seq<BoxStep>)
    requires Init(d0) && Legal(d0, steps) && Guarded(d0, steps) && Quiet(Run(d0, steps))
    ensures Run(d0, steps).notes.Keys == RowMids(Run(d0, steps))
  {
    GuardedRun(d0, steps);
    var d := Run(d0, steps);
    forall x | x in d.notes ensures x in RowMids(d) { assert NoteOk(d, x); }
    forall id | id in d.rows ensures d.rows[id].msg.mid in d.notes {
      var p := PartOf(d.rows[id].msg);
      assert RowOk(d, id) && BehindTold(d, p);
    }
  }

  lemma AheadAfter(d: Delivery, p: Part, m: Message)
    requires CanWork(d, p, CommitOffset) && PartOf(m) == p && ReaderOf(d, p).pos < |LogOf(d, p)|
    ensures var d' := DoWork(d, p, CommitOffset);
      && d'.rows == d.rows && d'.relays == d.relays && d'.notes == d.notes
      && (Ahead(d', m) <==> m in LogOf(d, p)[ReaderOf(d, p).pos + 1..])
  {
    var d' := DoWork(d, p, CommitOffset);
    var next := ReaderOf(d, p).pos + 1;
    assert LogOf(d', p) == LogOf(d, p) && ReaderOf(d', p).committed == next;
    if m in LogOf(d, p)[next..] {
      var i :| 0 <= i < |LogOf(d, p)[next..]| && LogOf(d, p)[next..][i] == m;
      assert LogOf(d', p)[next + i] == m;
    }
    if Ahead(d', m) {
      var i :| next <= i < |LogOf(d, p)| && LogOf(d, p)[i] == m;
      assert LogOf(d, p)[next..][i - next] == m;
    }
  }

  // After the commit of an offset an untold message it passed can be told from another copy only.
  lemma LeftToTell(d: Delivery, p: Part, i: nat, id: nat)
    requires CanWork(d, p, CommitOffset) && LogOk(d, p)
    requires ReaderOf(d, p).committed <= i <= ReaderOf(d, p).pos < |LogOf(d, p)|
    requires id in d.rows && d.rows[id].msg == LogOf(d, p)[i] && !IsTold(d, id)
    ensures !SafeCommit(d, p)
    ensures var d', m := DoWork(d, p, CommitOffset), LogOf(d, p)[i];
      && d'.relays == d.relays && id in d'.rows && !IsTold(d', id)
      && (!CanTell(d', id) <==>
            d.rows[id].published && m !in LogOf(d, p)[ReaderOf(d, p).pos + 1..]
            && forall k | k in d.relays :: !Carries(d.relays[k], m))
  {
    AheadAfter(d, p, LogOf(d, p)[i]);
    hide DoWork, CanWork, LogOf, ReaderOf, Ahead, Carries;
  }
}
