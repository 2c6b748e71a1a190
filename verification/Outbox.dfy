/**
 The transactional outbox, its relays, the broker and the notification worker, as one
 state machine. Handlers enter it only through Alloc, CommitRow and AbortRow, which are the
 three things a transaction does to the outbox table: draw a sequence number while it holds
 the ticket row lock, commit the row, or roll back.
 */
module Outbox {
  import opened Types

  datatype Row = Row(msg: Message, published: bool, attempts: nat)

  /** What the relay reads from a row: the message and the id to mark afterwards. */
  datatype Record = Record(id: nat, msg: Message)

  datatype Part = Part(topic: Topic, bucket: nat)

  const PARTITIONS := 3

  // What NewRelay sets.
  const BATCH_SIZE := 100

  // A key hash of the broker's. Which function it is matters to the list of partitions a pass writes to (Drain.ALL_PARTS)
  // and to the choice of two tickets that share one (DeliveryLimits.OpenTwo).
  function Bucket(t: TicketId): nat {
    t % PARTITIONS
  }

  function PartOf(m: Message): Part {
    Part(m.Topic(), Bucket(m.ticket))
  }

  datatype RelayPc =
    | Idle
    | Fetching(batch: seq<Record>)                     // fetch transaction open, rows locked
    | Producing(batch: seq<Record>, acked: set<Part>) // no transaction, no lock
    | Produced(batch: seq<Record>)                     // write acknowledged, mark next
    | Failing(batch: seq<Record>)                      // write failed, bookkeeping next

  datatype Stage = Waiting | Handling | Handled

  // One partition's reader: the committed offset, the position in memory, and what is
  // happening to the message at that position.
  datatype Reader = Reader(committed: nat, pos: nat, stage: Stage)

  datatype Notification = Notification(ticket: TicketId, user: UserId, kind: Topic, body: string)

  datatype Delivery = Delivery(
    rows: map<nat, Row>,            // committed outbox rows by id
    open: map<nat, TicketId>,       // ids drawn by transactions still open
    next: nat,                      // the sequence
    olock: map<nat, RelayId>,       // row locks on the outbox
    logs: map<Part, seq<Message>>,  // append-only partition logs
    relays: map<RelayId, RelayPc>,
    readers: map<Part, Reader>,
    notes: map<MsgId, Notification>, // UNIQUE (message_id)
    home: map<MsgId, nat>,          // history: the row each message id was committed with
    failed: set<MsgId>              // history: messages whose handler returned an error
  )

  function LogOf(d: Delivery, p: Part): seq<Message> {
    if p in d.logs then d.logs[p] else []
  }

  function ReaderOf(d: Delivery, p: Part): Reader {
    if p in d.readers then d.readers[p] else Reader(0, 0, Waiting)
  }

  /** %d */
  function Decimal(n: int): string
    decreases n < 0, n
  {
    if n < 0 then "-" + Decimal(-n)
    else if n < 10 then [DIGITS[n]]
    else Decimal(n / 10) + [DIGITS[n % 10]]
  }

  const DIGITS := "0123456789"

  // The number a string of digits stands for.
  function NumberOf(s: string): int
    decreases |s|
  {
    if s == "" then 0 else 10 * NumberOf(Front(s)) + (Last(s) as int - '0' as int)
  }

  /** The numeral of an amount reads back as the amount; it is digits only, without a leading zero. */
  lemma {:induction false} DecimalReads(n: nat)
    ensures NumberOf(Decimal(n)) == n
    ensures Decimal(n) != "" && (forall c | c in Decimal(n) :: '0' <= c <= '9')
    ensures n > 0 ==> Decimal(n)[0] != '0'
  {
    if n >= 10 {
      DecimalReads(n / 10);
      assert Front(Decimal(n)) == Decimal(n / 10) && Last(Decimal(n)) == DIGITS[n % 10];
    } else {
      assert Front(Decimal(n)) == "" && Last(Decimal(n)) == DIGITS[n];
      assert Front(Decimal(n)) == [];
    }
  }

  /** What the worker writes for an event. */
  function Render(m: Message): Notification {
    match m
    case Purchased(_, t, _, u, cents) =>
      Notification(t, u, TicketPurchased, "Your ticket is confirmed. Amount charged: " + Decimal(cents) + " cents.")
    case Cancelled(_, t, _, u, _) =>
      Notification(t, u, TicketCancelled, "Your ticket was cancelled and a refund is on its way.")
  }

  predicate IsPending(rows: map<nat, Row>, locked: set<nat>, id: nat) {
    id in rows && !rows[id].published && id !in locked
  }

  /** The unpublished, unlocked rows with ids below hi, in id order. */
  function PendingRows(rows: map<nat, Row>, locked: set<nat>, hi: nat): seq<Record> {
    if hi == 0 then []
    else
      PendingRows(rows, locked, hi - 1)
      + (if IsPending(rows, locked, hi - 1) then [Record(hi - 1, rows[hi - 1].msg)] else [])
  }

  function Take<T>(s: seq<T>, n: nat): seq<T> {
    if |s| <= n then s else s[..n]
  }

  /** SELECT ... WHERE published_at IS NULL ORDER BY id LIMIT n FOR UPDATE SKIP LOCKED */
  function FetchUnpublished(rows: map<nat, Row>, locked: set<nat>, hi: nat, limit: nat): seq<Record> {
    Take(PendingRows(rows, locked, hi), limit)
  }

  /** The messages of a batch that go to one partition, in batch order. */
  function Slice(batch: seq<Record>, p: Part): seq<Message> {
    if batch == [] then []
    else
      var n := |batch| - 1;
      Slice(batch[..n], p) + (if PartOf(batch[n].msg) == p then [batch[n].msg] else [])
  }

  function Ids(batch: seq<Record>): set<nat> {
    set r | r in batch :: r.id
  }

  function SetPublished(rows: map<nat, Row>, ids: set<nat>): map<nat, Row> {
    map id | id in rows :: if id in ids then rows[id].(published := true) else rows[id]
  }

  function BumpAttempts(rows: map<nat, Row>, ids: set<nat>): map<nat, Row> {
    map id | id in rows :: if id in ids then rows[id].(attempts := rows[id].attempts + 1) else rows[id]
  }

  function Unlock(locks: map<nat, RelayId>, k: RelayId): map<nat, RelayId> {
    map id | id in locks && locks[id] != k :: locks[id]
  }

  function LockAll(locks: map<nat, RelayId>, ids: set<nat>, k: RelayId): map<nat, RelayId> {
    map id | id in locks.Keys + ids :: if id in ids then k else locks[id]
  }

  // ---------------------------------------------------------------- steps

  /** What a handler's transaction does to the table. */
  datatype QueueAct =
    | Alloc(ticket: TicketId)           // nextval, while the transaction holds the ticket's row lock
    | CommitRow(oid: nat, msg: Message)
    | AbortRow(oid: nat)

  datatype RelayAct =
    | FetchLock(limit: nat)
    | FetchDone
    | Append(part: Part, upto: nat)
    | WriteOk
    | WriteErr
    | MarkPublished
    | MarkFailed
    | MarkErr
    | Crash

  datatype WorkerAct = Poll | HandleOk | HandleErr | CommitOffset | CommitErr | Restart

  datatype BoxStep =
    | Queue(q: QueueAct)
    | Relay(k: RelayId, a: RelayAct)
    | Worker(p: Part, w: WorkerAct)

  predicate CanQueue(d: Delivery, q: QueueAct) {
    match q
    case Alloc(t) => t !in d.open.Values
    case CommitRow(oid, m) => oid in d.open && d.open[oid] == m.ticket && m.mid !in d.home
    case AbortRow(oid) => oid in d.open
  }

  function DoQueue(d: Delivery, q: QueueAct): Delivery
    requires CanQueue(d, q)
  {
    match q
    case Alloc(t) => d.(open := d.open[d.next := t], next := d.next + 1)
    case CommitRow(oid, m) =>
      d.(rows := d.rows[oid := Row(m, false, 0)], open := d.open - {oid}, home := d.home[m.mid := oid])
    case AbortRow(oid) => d.(open := d.open - {oid})
  }

  // An UPDATE of these rows does not have to wait for another transaction's lock.
  predicate RowsFree(d: Delivery, ids: set<nat>) {
    ids !! d.olock.Keys
  }

  predicate CanRelay(d: Delivery, k: RelayId, a: RelayAct) {
    k in d.relays && var r := d.relays[k];
    match a
    case FetchLock(_) => r.Idle?
    case FetchDone => r.Fetching?
    case Append(_, upto) => r.Producing? && upto <= |r.batch|
    case WriteOk => r.Producing? && forall x | x in r.batch :: PartOf(x.msg) in r.acked
    case WriteErr => r.Producing?
    case MarkPublished => r.Produced? && RowsFree(d, Ids(r.batch))
    case MarkFailed => r.Failing? && RowsFree(d, Ids(r.batch))
    case MarkErr => r.Produced? || r.Failing?
    case Crash => true
  }

  function DoRelay(d: Delivery, k: RelayId, a: RelayAct): Delivery
    requires CanRelay(d, k, a)
  {
    var r := d.relays[k];
    match a
    case FetchLock(limit) =>
      var batch := FetchUnpublished(d.rows, d.olock.Keys, d.next, limit);
      if batch == [] then d
      else d.(relays := d.relays[k := Fetching(batch)], olock := LockAll(d.olock, Ids(batch), k))
    case FetchDone => d.(relays := d.relays[k := Producing(r.batch, {})], olock := Unlock(d.olock, k))
    case Append(p, upto) =>
      // One delivery attempt to one partition: a prefix of that partition's share of the batch
      // reaches the log. Attempts repeat; only a complete one is acknowledged.
      d.(logs := d.logs[p := LogOf(d, p) + Slice(r.batch[..upto], p)],
         relays := d.relays[k := if upto == |r.batch| then Producing(r.batch, r.acked + {p}) else r])
    case WriteOk => d.(relays := d.relays[k := Produced(r.batch)])
    case WriteErr => d.(relays := d.relays[k := Failing(r.batch)])
    case MarkPublished => d.(rows := SetPublished(d.rows, Ids(r.batch)), relays := d.relays[k := Idle])
    case MarkFailed => d.(rows := BumpAttempts(d.rows, Ids(r.batch)), relays := d.relays[k := Idle])
    case MarkErr => d.(relays := d.relays[k := Idle])
    case Crash => d.(relays := d.relays[k := Idle], olock := Unlock(d.olock, k))
  }

  predicate CanWork(d: Delivery, p: Part, w: WorkerAct) {
    var r := ReaderOf(d, p);
    match w
    case Poll => r.stage.Waiting? && r.pos < |LogOf(d, p)|
    case HandleOk => r.stage.Handling? && r.pos < |LogOf(d, p)|
    case HandleErr => r.stage.Handling? && r.pos < |LogOf(d, p)|
    case CommitOffset => r.stage.Handled?
    case CommitErr => r.stage.Handled?
    case Restart => true
  }

  // INSERT ... ON CONFLICT (message_id) DO NOTHING
  function Notify(notes: map<MsgId, Notification>, m: Message): map<MsgId, Notification> {
    if m.mid in notes then notes else notes[m.mid := Render(m)]
  }

  function DoWork(d: Delivery, p: Part, w: WorkerAct): Delivery
    requires CanWork(d, p, w)
  {
    var r := ReaderOf(d, p);
    match w
    case Poll => d.(readers := d.readers[p := r.(stage := Handling)])
    case HandleOk =>
      d.(readers := d.readers[p := r.(stage := Handled)], notes := Notify(d.notes, LogOf(d, p)[r.pos]))
    case HandleErr =>
      // The loop logs and continues: the position moves on without a commit.
      d.(readers := d.readers[p := Reader(r.committed, r.pos + 1, Waiting)],
         failed := d.failed + {LogOf(d, p)[r.pos].mid})
    case CommitOffset => d.(readers := d.readers[p := Reader(r.pos + 1, r.pos + 1, Waiting)])
    case CommitErr => d.(readers := d.readers[p := Reader(r.committed, r.pos + 1, Waiting)])
    case Restart => d.(readers := d.readers[p := Reader(r.committed, r.committed, Waiting)])
  }

  predicate Enabled(d: Delivery, b: BoxStep) {
    match b
    case Queue(q) => CanQueue(d, q)
    case Relay(k, a) => CanRelay(d, k, a)
    case Worker(p, w) => CanWork(d, p, w)
  }

  function Apply(d: Delivery, b: BoxStep): Delivery
    requires Enabled(d, b)
  {
    match b
    case Queue(q) => DoQueue(d, q)
    case Relay(k, a) => DoRelay(d, k, a)
    case Worker(p, w) => DoWork(d, p, w)
  }

  predicate Init(d: Delivery) {
    && d.rows == map[] && d.open == map[] && d.olock == map[] && d.logs == map[]
    && d.readers == map[] && d.notes == map[] && d.home == map[] && d.failed == {}
    && forall k | k in d.relays :: d.relays[k].Idle?
  }

  // ---------------------------------------------------------------- runs

  predicate Legal(d: Delivery, steps: seq<BoxStep>)
    decreases |steps|, 0
  {
    steps == [] || (Legal(d, Front(steps)) && Enabled(Run(d, Front(steps)), Last(steps)))
  }

  function Run(d: Delivery, steps: seq<BoxStep>): Delivery
    requires Legal(d, steps)
    decreases |steps|, 1
  {
    if steps == [] then d else Apply(Run(d, Front(steps)), Last(steps))
  }
}
