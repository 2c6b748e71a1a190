/** One relay pass, uninterrupted, and how many passes empty the outbox. */
module Drain {
  import opened Types
  import opened Outbox
  import opened OutboxProofs

  lemma {:induction false} RunConcat(d: Delivery, a: seq<BoxStep>, b: seq<BoxStep>)
    requires Legal(d, a) && Legal(Run(d, a), b)
    ensures Legal(d, a + b) && Run(d, a + b) == Run(Run(d, a), b)
    decreases |b|
  {
    if b == [] {
      assert a + b == a;
    } else {
      RunConcat(d, a, Front(b));
      assert Front(a + b) == a + Front(b) && Last(a + b) == Last(b);
    }
  }

  lemma OneStep(d: Delivery, b: BoxStep)
    requires Enabled(d, b)
    ensures Legal(d, [b]) && Run(d, [b]) == Apply(d, b)
  {
    assert Front([b]) == [] && Last([b]) == b;
  }

  lemma Snoc(d: Delivery, s: seq<BoxStep>, b: BoxStep)
    requires Legal(d, s) && Enabled(Run(d, s), b)
    ensures Legal(d, s + [b]) && Run(d, s + [b]) == Apply(Run(d, s), b)
  {
    assert Front(s + [b]) == s && Last(s + [b]) == b;
  }

  const ALL_PARTS: seq<Part> := [
    Part(TicketPurchased, 0), Part(TicketPurchased, 1), Part(TicketPurchased, 2),
    Part(TicketCancelled, 0), Part(TicketCancelled, 1), Part(TicketCancelled, 2)]

  lemma PartsAreAll(m: Message)
    ensures PartOf(m) in ALL_PARTS
  {
    assert Bucket(m.ticket) == 0 || Bucket(m.ticket) == 1 || Bucket(m.ticket) == 2;
    assert PartOf(m) == ALL_PARTS[Bucket(m.ticket) + if m.Purchased? then 0 else 3];
  }

  function Appends(k: RelayId, ps: seq<Part>, n: nat): seq<BoxStep> {
    if ps == [] then [] else Appends(k, Front(ps), n) + [Relay(k, Append(Last(ps), n))]
  }

  lemma AppendStep(d: Delivery, k: RelayId, batch: seq<Record>, acked: set<Part>, p: Part)
    requires k in d.relays && d.relays[k] == Producing(batch, acked)
    ensures var b := Relay(k, Append(p, |batch|));
      Enabled(d, b) && var d' := Apply(d, b);
      && d' == d.(logs := d'.logs, relays := d.relays[k := Producing(batch, acked + {p})])
      && (forall q :: LogOf(d', q) == if q == p then LogOf(d, q) + Slice(batch, q) else LogOf(d, q))
  {
    assert batch[..|batch|] == batch;
  }

  function Parts(ps: seq<Part>): set<Part> {
    set p | p in ps
  }

  // d after a complete write that reached the listed partitions.
  ghost predicate Wrote(d: Delivery, d': Delivery, k: RelayId, batch: seq<Record>, ps: set<Part>) {
    && d' == d.(logs := d'.logs, relays := d.relays[k := Producing(batch, ps)])
    && (forall p :: LogOf(d', p) == if p in ps then LogOf(d, p) + Slice(batch, p) else LogOf(d, p))
  }

  lemma WroteMore(d: Delivery, d1: Delivery, k: RelayId, batch: seq<Record>, ps: set<Part>, p: Part)
    requires Wrote(d, d1, k, batch, ps) && p !in ps
    ensures var b := Relay(k, Append(p, |batch|));
      Enabled(d1, b) && Wrote(d, Apply(d1, b), k, batch, ps + {p})
  {
    AppendStep(d1, k, batch, ps, p);
  }

  lemma AppendsMore(d: Delivery, k: RelayId, batch: seq<Record>, ps: seq<Part>, p: Part)
    requires Legal(d, Appends(k, ps, |batch|)) && p !in ps
    requires Wrote(d, Run(d, Appends(k, ps, |batch|)), k, batch, Parts(ps))
    ensures Legal(d, Appends(k, ps + [p], |batch|))
    ensures Wrote(d, Run(d, Appends(k, ps + [p], |batch|)), k, batch, Parts(ps + [p]))
  {
    hide Wrote, Apply, Enabled, Slice, LogOf, Legal, Run;
    var s := Appends(k, ps, |batch|);
    WroteMore(d, Run(d, s), k, batch, Parts(ps), p);
    assert Front(ps + [p]) == ps && Last(ps + [p]) == p;
    assert Parts(ps + [p]) == Parts(ps) + {p};
    Snoc(d, s, Relay(k, Append(p, |batch|)));
  }

  // A complete write reaches every listed partition once and is acknowledged for it.
  lemma {:induction false} AppendsRun(d: Delivery, k: RelayId, batch: seq<Record>, ps: seq<Part>)
    requires k in d.relays && d.relays[k] == Producing(batch, {})
    requires forall i, j | 0 <= i < j < |ps| :: ps[i] != ps[j]
    ensures Legal(d, Appends(k, ps, |batch|))
    ensures Wrote(d, Run(d, Appends(k, ps, |batch|)), k, batch, Parts(ps))
    decreases |ps|
  {
    hide Wrote, Legal, Run, Appends, Parts;
    if ps == [] {
      AppendsNone(d, k, batch);
    } else {
      AppendsRun(d, k, batch, Front(ps));
      AppendsMore(d, k, batch, Front(ps), Last(ps));
      assert ps == Front(ps) + [Last(ps)];
    }
  }

  lemma AppendsNone(d: Delivery, k: RelayId, batch: seq<Record>)
    requires k in d.relays && d.relays[k] == Producing(batch, {})
    ensures Legal(d, Appends(k, [], |batch|)) && Wrote(d, Run(d, Appends(k, [], |batch|)), k, batch, Parts([]))
  {
    assert Parts([]) == {} && d.relays == d.relays[k := Producing(batch, {})];
  }

  /** What publishBatch does when nothing fails. */
  function PassSteps(d: Delivery, k: RelayId, limit: nat): seq<BoxStep> {
    var batch := FetchUnpublished(d.rows, d.olock.Keys, d.next, limit);
    if batch == [] then [Relay(k, FetchLock(limit))]
    else
      [Relay(k, FetchLock(limit)), Relay(k, FetchDone)] + Appends(k, ALL_PARTS, |batch|)
      + [Relay(k, WriteOk), Relay(k, MarkPublished)]
  }

  ghost predicate Resting(d: Delivery, k: RelayId) {
    k in d.relays && d.relays[k].Idle? && d.olock == map[]
  }

  lemma TakeBatch(d: Delivery, k: RelayId, limit: nat)
    requires Resting(d, k)
    requires FetchUnpublished(d.rows, d.olock.Keys, d.next, limit) != []
    ensures var s := [Relay(k, FetchLock(limit)), Relay(k, FetchDone)];
      Legal(d, s) && Run(d, s) ==
        d.(relays := d.relays[k := Producing(FetchUnpublished(d.rows, d.olock.Keys, d.next, limit), {})])
  {
    var d1 := DoRelay(d, k, FetchLock(limit));
    OneStep(d, Relay(k, FetchLock(limit)));
    OneStep(d1, Relay(k, FetchDone));
    RunConcat(d, [Relay(k, FetchLock(limit))], [Relay(k, FetchDone)]);
    assert Unlock(d1.olock, k) == map[];
  }

  lemma Acknowledge(d: Delivery, k: RelayId)
    requires k in d.relays && d.relays[k].Producing? && d.olock == map[]
    requires forall x | x in d.relays[k].batch :: PartOf(x.msg) in d.relays[k].acked
    ensures var s := [Relay(k, WriteOk), Relay(k, MarkPublished)];
      Legal(d, s) && Run(d, s) ==
        d.(rows := SetPublished(d.rows, Ids(d.relays[k].batch)), relays := d.relays[k := Idle])
  {
    var d1 := DoRelay(d, k, WriteOk);
    OneStep(d, Relay(k, WriteOk));
    OneStep(d1, Relay(k, MarkPublished));
    RunConcat(d, [Relay(k, WriteOk)], [Relay(k, MarkPublished)]);
    assert [Relay(k, WriteOk)] + [Relay(k, MarkPublished)] == [Relay(k, WriteOk), Relay(k, MarkPublished)];
    assert d1.relays[k := Idle] == d.relays[k := Idle];
  }

  // Everything up to the acknowledged write.
  lemma Deliver(d: Delivery, k: RelayId, limit: nat)
    requires Resting(d, k)
    requires FetchUnpublished(d.rows, d.olock.Keys, d.next, limit) != []
    ensures var batch := FetchUnpublished(d.rows, d.olock.Keys, d.next, limit);
      var s := [Relay(k, FetchLock(limit)), Relay(k, FetchDone)] + Appends(k, ALL_PARTS, |batch|);
      Legal(d, s) && Wrote(d.(relays := d.relays[k := Producing(batch, {})]), Run(d, s), k, batch, Parts(ALL_PARTS))
  {
    hide Legal, Run, FetchUnpublished, Wrote, Appends;
    var batch := FetchUnpublished(d.rows, d.olock.Keys, d.next, limit);
    var s1 := [Relay(k, FetchLock(limit)), Relay(k, FetchDone)];
    TakeBatch(d, k, limit);
    AppendsRun(Run(d, s1), k, batch, ALL_PARTS);
    RunConcat(d, s1, Appends(k, ALL_PARTS, |batch|));
  }

  /** A pass publishes exactly the fetched batch, appends it to the logs, and rests again. */
  lemma PassPublishes(d: Delivery, k: RelayId, limit: nat)
    requires Resting(d, k)
    ensures Legal(d, PassSteps(d, k, limit)) && Resting(Run(d, PassSteps(d, k, limit)), k)
    ensures var d' := Run(d, PassSteps(d, k, limit));
      var batch := FetchUnpublished(d.rows, {}, d.next, limit);
      && d' == d.(rows := SetPublished(d.rows, Ids(batch)), logs := d'.logs)
      && (forall p :: LogOf(d', p) == LogOf(d, p) + Slice(batch, p))
  {
    assert d.olock.Keys == {};
    if FetchUnpublished(d.rows, {}, d.next, limit) == [] {
      OneStep(d, Relay(k, FetchLock(limit)));
      assert SetPublished(d.rows, Ids([])) == d.rows;
    } else {
      FullPass(d, k, limit);
    }
  }

  lemma FullPass(d: Delivery, k: RelayId, limit: nat)
    requires Resting(d, k) && FetchUnpublished(d.rows, d.olock.Keys, d.next, limit) != []
    ensures Legal(d, PassSteps(d, k, limit))
    ensures var d' := Run(d, PassSteps(d, k, limit));
      var batch := FetchUnpublished(d.rows, d.olock.Keys, d.next, limit);
      && d' == d.(rows := SetPublished(d.rows, Ids(batch)), logs := d'.logs)
      && (forall p :: LogOf(d', p) == LogOf(d, p) + Slice(batch, p))
  {
    hide Legal, Run, FetchUnpublished, Appends, Slice, Ids, SetPublished, PartOf;
    var batch := FetchUnpublished(d.rows, d.olock.Keys, d.next, limit);
    Deliver(d, k, limit);
    var s := [Relay(k, FetchLock(limit)), Relay(k, FetchDone)] + Appends(k, ALL_PARTS, |batch|);
    var d1 := d.(relays := d.relays[k := Producing(batch, {})]);
    var d2 := Run(d, s);
    assert Wrote(d1, d2, k, batch, Parts(ALL_PARTS));
    PassLogs(d1, d2, k, batch);
    assert d2 == d1.(logs := d2.logs, relays := d1.relays[k := Producing(batch, Parts(ALL_PARTS))]);
    forall x | x in batch ensures PartOf(x.msg) in Parts(ALL_PARTS) { PartsAreAll(x.msg); }
    Acknowledge(d2, k);
    RunConcat(d, s, [Relay(k, WriteOk), Relay(k, MarkPublished)]);
    assert Run(d, PassSteps(d, k, limit)).relays == d.relays;
  }

  lemma PassLogs(d1: Delivery, d2: Delivery, k: RelayId, batch: seq<Record>)
    requires Wrote(d1, d2, k, batch, Parts(ALL_PARTS))
    ensures forall p :: LogOf(d2, p) == LogOf(d1, p) + Slice(batch, p)
  {
    forall p ensures LogOf(d2, p) == LogOf(d1, p) + Slice(batch, p) {
      if p !in ALL_PARTS { NoSlice(batch, p); }
    }
  }

  lemma NoSlice(batch: seq<Record>, p: Part)
    requires p !in ALL_PARTS
    ensures Slice(batch, p) == []
  {
    SliceIs(batch, p);
    if Slice(batch, p) != [] {
      var m := Slice(batch, p)[0];
      assert m in Slice(batch, p);
      PartsAreAll(m);
      assert false;
    }
  }

  // ---------------------------------------------------------------- how many passes

  /** SELECT count(*) FROM outbox WHERE published_at IS NULL */
  function PendingCount(d: Delivery): nat {
    |PendingRows(d.rows, {}, d.next)|
  }

  predicate Ascending(s: seq<Record>) {
    forall i, j | 0 <= i < j < |s| :: s[i].id < s[j].id
  }

  lemma {:induction false} AscendingUnique(a: seq<Record>, b: seq<Record>)
    requires Ascending(a) && Ascending(b) && forall x :: x in a <==> x in b
    ensures a == b
    decreases |a|
  {
    assert |a| > 0 ==> a[0] in b;
    assert |b| > 0 ==> b[0] in a;
    if a != [] {
      var x, y := Last(a), Last(b);
      assert x in b && y in a;
      assert x == y;
      assert forall z :: z in Front(a) <==> z in a && z != x;
      assert forall z :: z in Front(b) <==> z in b && z != x;
      AscendingUnique(Front(a), Front(b));
      assert a == Front(a) + [x] && b == Front(b) + [x];
    }
  }

  lemma TailNotDone(q: seq<Record>, n: nat, x: Record)
    requires Ascending(q) && n <= |q|
    ensures x in q[n..] <==> x in q && x.id !in Ids(q[..n])
  {
    assert q == q[..n] + q[n..];
    assert forall i, j | 0 <= i < n <= j < |q| :: q[i].id != q[j].id;
  }

  lemma PendingIn(rows: map<nat, Row>, hi: nat, x: Record)
    ensures x in PendingRows(rows, {}, hi) <==> x.id < hi && IsPending(rows, {}, x.id) && x.msg == rows[x.id].msg
    ensures Ascending(PendingRows(rows, {}, hi))
  {
    PendingRowsAre(rows, {}, hi);
  }

  // Publishing the first n pending rows leaves the others, in order.
  lemma PublishPrefix(rows: map<nat, Row>, hi: nat, n: nat)
    requires n <= |PendingRows(rows, {}, hi)|
    ensures var q := PendingRows(rows, {}, hi);
      PendingRows(SetPublished(rows, Ids(q[..n])), {}, hi) == q[n..]
  {
    hide PendingRows, Ids;
    var q := PendingRows(rows, {}, hi);
    var rows' := SetPublished(rows, Ids(q[..n]));
    var q' := PendingRows(rows', {}, hi);
    PendingIn(rows, hi, Record(0, Cancelled(0, 0, 0, 0, "")));
    PendingIn(rows', hi, Record(0, Cancelled(0, 0, 0, 0, "")));
    forall x: Record ensures x in q' <==> x in q[n..] {
      PendingIn(rows, hi, x);
      PendingIn(rows', hi, x);
      TailNotDone(q, n, x);
    }
    AscendingUnique(q', q[n..]);
  }

  function Monus(n: nat, k: nat): nat {
    if n <= k then 0 else n - k
  }

  /** A pass takes min(limit, pending) rows off the queue. */
  lemma PassCounts(d: Delivery, k: RelayId, limit: nat)
    requires Resting(d, k)
    ensures Legal(d, PassSteps(d, k, limit))
    ensures PendingCount(Run(d, PassSteps(d, k, limit))) == Monus(PendingCount(d), limit)
  {
    PassPublishes(d, k, limit);
    var q := PendingRows(d.rows, {}, d.next);
    var n := if |q| <= limit then |q| else limit;
    assert FetchUnpublished(d.rows, {}, d.next, limit) == q[..n];
    PublishPrefix(d.rows, d.next, n);
  }

  function PassesSteps(d: Delivery, k: RelayId, limit: nat, passes: nat): seq<BoxStep>
    requires Resting(d, k)
    ensures Legal(d, PassesSteps(d, k, limit, passes)) && Resting(Run(d, PassesSteps(d, k, limit, passes)), k)
  {
    if passes == 0 then []
    else
      var before := PassesSteps(d, k, limit, passes - 1);
      var d1 := Run(d, before);
      PassPublishes(d1, k, limit);
      RunConcat(d, before, PassSteps(d1, k, limit));
      before + PassSteps(d1, k, limit)
  }

  // What `passes` passes can take.
  function Capacity(passes: nat, limit: nat): nat {
    if passes == 0 then 0 else Capacity(passes - 1, limit) + limit
  }

  lemma {:induction false} CapacityIs(passes: nat, limit: nat)
    ensures Capacity(passes, limit) == passes * limit
  {
    if passes > 0 {
      CapacityIs(passes - 1, limit);
      assert passes * limit == (passes - 1) * limit + limit;
    }
  }

  lemma OneLess(n: nat, passes: nat, limit: nat)
    requires passes > 0
    ensures Monus(Monus(n, Capacity(passes - 1, limit)), limit) == Monus(n, Capacity(passes, limit))
  {}

  // The state after a number of uninterrupted passes.
  function AfterPasses(d: Delivery, k: RelayId, limit: nat, passes: nat): Delivery
    requires Resting(d, k)
  {
    Run(d, PassesSteps(d, k, limit, passes))
  }

  lemma OnePassMore(d: Delivery, k: RelayId, limit: nat, passes: nat)
    requires Resting(d, k) && passes > 0
    ensures var d1 := AfterPasses(d, k, limit, passes - 1);
      && Resting(d1, k) && Legal(d1, PassSteps(d1, k, limit))
      && AfterPasses(d, k, limit, passes) == Run(d1, PassSteps(d1, k, limit))
  {
    hide Legal, Run, PassSteps, Resting;
    var before := PassesSteps(d, k, limit, passes - 1);
    var d1 := Run(d, before);
    PassPublishes(d1, k, limit);
    RunConcat(d, before, PassSteps(d1, k, limit));
  }

  // The unpublished rows left then.
  function LeftAfter(d: Delivery, k: RelayId, limit: nat, passes: nat): nat
    requires Resting(d, k)
  {
    PendingCount(AfterPasses(d, k, limit, passes))
  }

  lemma OnePassLess(d: Delivery, k: RelayId, limit: nat, passes: nat)
    requires Resting(d, k) && passes > 0
    ensures LeftAfter(d, k, limit, passes) == Monus(LeftAfter(d, k, limit, passes - 1), limit)
  {
    hide Legal, Run, PassSteps, PassesSteps, AfterPasses, PendingCount, Resting, Monus;
    OnePassMore(d, k, limit, passes);
    PassCounts(AfterPasses(d, k, limit, passes - 1), k, limit);
  }

  lemma NoPassYet(d: Delivery, k: RelayId, limit: nat)
    requires Resting(d, k)
    ensures LeftAfter(d, k, limit, 0) == Monus(PendingCount(d), Capacity(0, limit))
  {
    hide PendingCount, Resting;
  }

  lemma {:induction false} PendingAfter(d: Delivery, k: RelayId, limit: nat, passes: nat)
    requires Resting(d, k)
    ensures LeftAfter(d, k, limit, passes) == Monus(PendingCount(d), Capacity(passes, limit))
  {
    hide LeftAfter, PendingCount, Resting, Monus, Capacity;
    if passes == 0 {
      NoPassYet(d, k, limit);
    } else {
      PendingAfter(d, k, limit, passes - 1);
      OnePassLess(d, k, limit, passes);
      OneLess(PendingCount(d), passes, limit);
    }
  }

  function CeilDiv(n: nat, b: nat): nat
    requires b > 0
  {
    (n + b - 1) / b
  }

  lemma CeilIs(n: nat, b: nat, p: nat)
    requires b > 0
    ensures n <= p * b <==> p >= CeilDiv(n, b)
  {
    var c := CeilDiv(n, b);
    assert n + b - 1 == c * b + (n + b - 1) % b;
    assert n <= c * b < n + b;
    if p >= c {
      assert p * b >= c * b;
    } else {
      assert p * b <= (c - 1) * b;
    }
  }

  /** With the broker up and no new rows, the outbox is empty after p passes iff p >= ceil(n / batchSize). */
  lemma DrainsInCeilPasses(d: Delivery, k: RelayId, limit: nat, passes: nat)
    requires Resting(d, k) && limit > 0
    ensures LeftAfter(d, k, limit, passes) == 0 <==> passes >= CeilDiv(PendingCount(d), limit)
  {
    PendingAfter(d, k, limit, passes);
    CapacityIs(passes, limit);
    CeilIs(PendingCount(d), limit, passes);
  }
}
