/**
 The ticket service as one interleaved state machine: every request, the tables they share, the
 payment provider, and the delivery of events. A step is one statement or one transaction
 boundary of one request, or one move of a relay or worker; anything may run between two steps.
 */
module System {
  import opened Types
  import opened Payments
  import Outbox
  import Tx

  // ---------------------------------------------------------------- rows

  datatype SeatStatus = Available | Reserved | Bought | Voided

  // GenerateQRCodeBase64 of the ticket id: different tickets get different codes.
  datatype Qr = Qr(ticket: TicketId)

  /** A row of tickets; ver counts the committed updates of the row, as Postgres row versions do. */
  datatype Ticket = Ticket(
    event: EventId, price: int, status: SeatStatus,
    owner: Option<UserId>, boughtAt: Option<nat>, qr: Option<Qr>, ver: nat)

  datatype PayStatus = Pending | Succeeded | Failed | Refunded

  datatype Payment = Payment(
    ticket: TicketId, user: UserId, intent: IntentId, amount: int,
    status: PayStatus, refund: Option<nat>, createdAt: nat)

  datatype CancelLog = CancelLog(ticket: TicketId, user: UserId, event: EventId, reason: string, req: ReqId)

  datatype RefundState = RefundPending | RefundIssued(refund: nat)

  /** What a handler writes with json.Encode. */
  datatype Json =
    | PurchaseBody(ticket: TicketId, qr: Qr, charge: nat, amount: int)
    | CancelBody(refund: Option<RefundState>)

  /** A response body: JSON, or the plain text http.Error writes. */
  datatype Content = JsonBody(value: Json) | TextBody(text: string)

  datatype Answer = Answer(status: nat, content: Content)

  datatype Response = Response(status: nat, value: Json)

  // response_body is JSONB, so only JSON can be stored.
  datatype KeyRow = KeyRow(user: UserId, hash: Body, response: Option<Response>)

  datatype Found = Found(id: PaymentId, row: Payment)

  // ---------------------------------------------------------------- requests

  datatype Call = Purchase(event: EventId) | Cancellation(ticket: TicketId, reason: string)

  /**
   What a cancellation attempt could see; the code reads row and pick. settled says that the ticket's
   newest payment row, whatever its status, was succeeded; claim is history.
   */
  datatype Snapshot = Snapshot(row: Ticket, pick: Option<Found>, claim: Option<PaymentId>, settled: bool)

  datatype Via = Handled | Replayed | Refused

  datatype Pc =
    | Arrived
    | KeyTaken                                                    // insert hit the primary key, load next
    | Ready                                                       // purchase handler entered
    | Claiming(t: TicketId, price: int, oid: Option<nat>)         // claim transaction open, row locked
    | Claimed(t: TicketId, p: PaymentId, amount: int)             // committed, charge next
    | Charged(t: TicketId, p: PaymentId, amount: int, n: nat)     // charge succeeded, settle next
    | ChargeFailed(t: TicketId, p: PaymentId, e: ProviderError)   // release next
    | Releasing(t: TicketId, p: PaymentId, e: ProviderError, held: bool, marked: bool) // release transaction open
    | Attempt(n: nat, captured: Option<Found>)                    // cancellation attempt n
    | Snapped(n: nat, captured: Option<Found>, snap: Snapshot)    // its reads are done
    | Cancelling(n: nat, captured: Option<Found>, snap: Snapshot, oid: Option<nat>) // ticket row updated, locked
    | CancelReady(n: nat, captured: Option<Found>, snap: Snapshot, drawn: nat)      // closure returned, commit next
    | Refunding(found: Found)                                     // committed, refund next
    | Marking(found: Found, refund: nat)                          // refunded, mark next
    | Answered(answer: Answer)                                    // handler returned, key write next
    | Done(answer: Answer, via: Via)
    | Crashed(inside: bool)                                       // inside: the handler had been entered

  datatype Req = Req(user: UserId, call: Call, key: Option<Key>, body: Body, pc: Pc)

  // How a claim (a payment row) stopped holding its ticket.
  datatype Fate = Holding | CalledOff | Returned | Stray

  datatype Hist = Hist(
    claims: map<PaymentId, ReqId>,   // who inserted the payment
    paid: map<PaymentId, nat>,       // payments whose charge succeeded, and the charge
    payer: map<nat, PaymentId>,      // and back
    held: map<TicketId, PaymentId>,  // the claim that holds each ticket bought by purchase
    fate: map<PaymentId, Fate>,
    owner: map<Key, ReqId>,          // who last reserved a key
    frees: map<TicketId, nat>,       // releases that freed the ticket
    minted: map<EventId, nat>,
    seed: set<TicketId>)             // tickets already sold when the history starts

  datatype Sys = Sys(
    tickets: map<TicketId, Ticket>,
    tlock: map<TicketId, ReqId>,
    payments: map<PaymentId, Payment>,
    plock: map<PaymentId, ReqId>,
    keys: map<Key, KeyRow>,
    logs: seq<CancelLog>,
    prov: Ledger,
    box: Outbox.Delivery,
    reqs: map<ReqId, Req>,
    clock: nat,                      // payment ids and created_at, in claim order
    hist: Hist)

  // ---------------------------------------------------------------- acts

  datatype GateAct = Reserve | ReserveErr | Load | LoadErr | Finish(ok: bool)
  datatype ClaimAct = ClaimLock(t: TicketId) | ClaimNone | ClaimErr | ClaimAlloc | ClaimCommit(mid: MsgId) | ClaimAbort
  datatype PayAct = ChargeOk | ChargeErr(e: ProviderError) | Settle | SettleErr
  datatype ReleaseAct = ReleaseTicket | ReleasePayment | ReleaseCommit | ReleaseErr
  datatype CancelAct =
    CancelRead | CancelLock | CancelAlloc | CancelPick | CancelCommit(mid: MsgId) | CancelRetry | CancelErr
  datatype RefundAct = RefundOk | RefundErr | RefundMark | RefundMarkErr

  datatype Act =
    | Gate(g: GateAct)
    | Claim(c: ClaimAct)
    | Pay(y: PayAct)
    | Release(l: ReleaseAct)
    | Cancel(x: CancelAct)
    | Refund(f: RefundAct)
    | Crash

  datatype Step =
    | Arrive(r: ReqId, user: UserId, call: Call, key: Option<Key>, body: Body)
    | Do(r: ReqId, a: Act)
    | Mint(event: EventId, price: int, ids: set<TicketId>)
    | Ship(k: RelayId, relay: Outbox.RelayAct)
    | Work(p: Outbox.Part, worker: Outbox.WorkerAct)

  function Goto(s: Sys, r: ReqId, pc: Pc): Sys
    requires r in s.reqs
  {
    s.(reqs := s.reqs[r := s.reqs[r].(pc := pc)])
  }

  function Text(status: nat, text: string): Answer {
    Answer(status, TextBody(text))
  }

  // The handler as it is entered.
  function Entry(call: Call): Pc {
    if call.Purchase? then Ready else Attempt(1, None)
  }

  // ---------------------------------------------------------------- the idempotency gate

  predicate CanGate(s: Sys, r: ReqId, g: GateAct) {
    r in s.reqs && var q := s.reqs[r];
    match g
    case Reserve => q.pc.Arrived?
    case ReserveErr => q.pc.Arrived? && q.key.Some?
    case Load => q.pc.KeyTaken? && q.key.Some?
    case LoadErr => q.pc.KeyTaken?
    case Finish(_) => q.pc.Answered?
  }

  // LoadKey is scoped by user: another user's row reads as absent.
  function LoadKey(keys: map<Key, KeyRow>, key: Key, user: UserId): Option<KeyRow> {
    if key in keys && keys[key].user == user then Some(keys[key]) else None
  }

  /** What a request that lost the insert is told. */
  function GateAnswer(row: Option<KeyRow>, hash: Body): (Answer, Via) {
    if row.None? then (Text(500, "Could not process request"), Refused)
    else if row.value.hash != hash then
      (Text(422, "Idempotency-Key was already used with a different request body"), Refused)
    else if row.value.response.None? then
      (Text(409, "A request with this Idempotency-Key is still in progress, retry shortly"), Refused)
    else
      (Answer(row.value.response.value.status, JsonBody(row.value.response.value.value)), Replayed)
  }

  function AfterLoad(reply: (Answer, Via)): Pc {
    Done(reply.0, reply.1)
  }

  /** ReleaseKey after a 5xx, CompleteKey otherwise; a text body cannot be stored. */
  function KeyWrite(keys: map<Key, KeyRow>, k: Key, a: Answer, ok: bool): map<Key, KeyRow> {
    if !ok || k !in keys then keys
    else if a.status >= 500 then (if keys[k].response.None? then keys - {k} else keys)
    else if a.content.JsonBody? then keys[k := keys[k].(response := Some(Response(a.status, a.content.value)))]
    else keys
  }

  function DoGate(s: Sys, r: ReqId, g: GateAct): Sys
    requires CanGate(s, r, g)
  {
    var q := s.reqs[r];
    match g
    case Reserve =>
      if q.key.None? then Goto(s, r, Entry(q.call))
      else if q.key.value in s.keys then Goto(s, r, KeyTaken)
      else
        Goto(s, r, Entry(q.call)).(
          keys := s.keys[q.key.value := KeyRow(q.user, q.body, None)],
          hist := s.hist.(owner := s.hist.owner[q.key.value := r]))
    case ReserveErr => Goto(s, r, Done(Text(500, "Could not process request"), Refused))
    case Load => Goto(s, r, AfterLoad(GateAnswer(LoadKey(s.keys, q.key.value, q.user), q.body)))
    case LoadErr => Goto(s, r, Done(Text(500, "Could not process request"), Refused))
    case Finish(ok) =>
      Goto(s, r, Done(q.pc.answer, Handled)).(
        keys := if q.key.Some? then KeyWrite(s.keys, q.key.value, q.pc.answer, ok) else s.keys)
  }

  // ---------------------------------------------------------------- the claim

  predicate Candidate(s: Sys, e: EventId, t: TicketId) {
    t in s.tickets && s.tickets[t].event == e && s.tickets[t].status.Available? && t !in s.tlock
  }

  // SELECT ... WHERE event_id AND status = 'available' ORDER BY id LIMIT 1 FOR UPDATE SKIP LOCKED
  predicate IsPick(s: Sys, e: EventId, t: TicketId) {
    Candidate(s, e, t) && forall u | u in s.tickets && Candidate(s, e, u) :: t <= u
  }

  predicate CanClaim(s: Sys, r: ReqId, c: ClaimAct) {
    r in s.reqs && var q := s.reqs[r];
    q.call.Purchase? &&
    match c
    case ClaimLock(t) => q.pc.Ready? && IsPick(s, q.call.event, t)
    case ClaimNone => q.pc.Ready? && forall u | u in s.tickets :: !Candidate(s, q.call.event, u)
    case ClaimErr => q.pc.Ready?
    case ClaimAlloc => q.pc.Claiming? && q.pc.oid.None? && Outbox.CanQueue(s.box, Outbox.Alloc(q.pc.t))
    case ClaimCommit(mid) =>
      q.pc.Claiming? && q.pc.oid.Some? && q.pc.price >= 0
      && q.pc.t in s.tickets && s.tickets[q.pc.t].status.Available?
      && Outbox.CanQueue(s.box, Outbox.CommitRow(q.pc.oid.value, ClaimEvent(q, mid)))
    case ClaimAbort => q.pc.Claiming?
  }

  function ClaimEvent(q: Req, mid: MsgId): Message
    requires q.call.Purchase? && q.pc.Claiming?
  {
    Purchased(mid, q.pc.t, q.call.event, q.user, q.pc.price)
  }

  function SoldRow(row: Ticket, t: TicketId, user: UserId, now: nat): Ticket {
    row.(status := Bought, owner := Some(user), boughtAt := Some(now), qr := Some(Qr(t)), ver := row.ver + 1)
  }

  function FreeRow(row: Ticket): Ticket {
    row.(status := Available, owner := None, boughtAt := None, qr := None, ver := row.ver + 1)
  }

  // Rolling back a transaction that may have drawn an outbox id.
  function Rollback(box: Outbox.Delivery, oid: Option<nat>): Outbox.Delivery {
    if oid.Some? && oid.value in box.open then Outbox.DoQueue(box, Outbox.AbortRow(oid.value)) else box
  }

  function DoClaim(s: Sys, r: ReqId, c: ClaimAct): Sys
    requires CanClaim(s, r, c)
  {
    var q := s.reqs[r];
    match c
    case ClaimLock(t) => Goto(s, r, Claiming(t, s.tickets[t].price, None)).(tlock := s.tlock[t := r])
    case ClaimNone => Goto(s, r, Answered(Text(409, "No tickets available for this event")))
    case ClaimErr => Goto(s, r, Answered(Text(500, "Failed to purchase ticket")))
    case ClaimAlloc =>
      Goto(s, r, Claiming(q.pc.t, q.pc.price, Some(s.box.next))).(box := Outbox.DoQueue(s.box, Outbox.Alloc(q.pc.t)))
    case ClaimCommit(mid) =>
      var t, p := q.pc.t, s.clock;
      Goto(s, r, Claimed(t, p, q.pc.price)).(
        tickets := s.tickets[t := SoldRow(s.tickets[t], t, q.user, s.clock)],
        tlock := s.tlock - {t},
        payments := s.payments[p := Payment(t, q.user, Provisional(p), q.pc.price, Pending, None, s.clock)],
        box := Outbox.DoQueue(s.box, Outbox.CommitRow(q.pc.oid.value, ClaimEvent(q, mid))),
        clock := s.clock + 1,
        hist := s.hist.(claims := s.hist.claims[p := r], held := s.hist.held[t := p],
                        fate := s.hist.fate[p := Holding]))
    case ClaimAbort =>
      Goto(s, r, Answered(Text(500, "Failed to purchase ticket"))).(
        tlock := s.tlock - {q.pc.t}, box := Rollback(s.box, q.pc.oid))
  }

  // ---------------------------------------------------------------- the charge

  predicate CanPay(s: Sys, r: ReqId, y: PayAct) {
    r in s.reqs && var q := s.reqs[r];
    match y
    case ChargeOk => q.pc.Claimed?
    case ChargeErr(_) => q.pc.Claimed?
    case Settle => q.pc.Charged? && q.pc.p in s.payments && q.pc.p !in s.plock
    case SettleErr => q.pc.Charged?
  }

  /** The client's key if there is one, otherwise one made from the payment row. */
  function ChargeKey(q: Req, p: PaymentId): ProviderKey {
    if q.key.Some? then ClientKey(q.key.value) else PaymentKey(p)
  }

  function Denial(e: ProviderError): Answer {
    match e
    case CardDeclined => Text(402, "Card declined")
    case Unavailable => Text(502, "Payment provider unavailable")
    case OtherError => Text(502, "Payment failed")
  }

  function Bill(t: TicketId, n: nat, amount: int): Answer {
    Answer(200, JsonBody(PurchaseBody(t, Qr(t), n, amount)))
  }

  function DoPay(s: Sys, r: ReqId, y: PayAct): Sys
    requires CanPay(s, r, y)
  {
    var q := s.reqs[r];
    match y
    case ChargeOk =>
      var (prov, c) := Charging(s.prov, ChargeRequest(q.pc.amount, Some(ChargeKey(q, q.pc.p))));
      Goto(s, r, Charged(q.pc.t, q.pc.p, q.pc.amount, c.n)).(
        prov := prov,
        hist := s.hist.(paid := s.hist.paid[q.pc.p := c.n], payer := s.hist.payer[c.n := q.pc.p]))
    case ChargeErr(e) => Goto(s, r, ChargeFailed(q.pc.t, q.pc.p, e))
    case Settle =>
      // MarkStatus: no status guard
      Goto(s, r, Answered(Bill(q.pc.t, q.pc.n, q.pc.amount))).(
        payments := s.payments[q.pc.p := s.payments[q.pc.p].(status := Succeeded, intent := Intent(q.pc.n))])
    case SettleErr => Goto(s, r, Answered(Bill(q.pc.t, q.pc.n, q.pc.amount)))
  }

  // ---------------------------------------------------------------- the release

  // UPDATE tickets ... WHERE id = $1 AND status = 'purchased': any purchased row matches.
  predicate MatchesRelease(s: Sys, t: TicketId) {
    t in s.tickets && s.tickets[t].status.Bought?
  }

  predicate CanRelease(s: Sys, r: ReqId, l: ReleaseAct) {
    r in s.reqs && var q := s.reqs[r];
    match l
    case ReleaseTicket => q.pc.ChargeFailed? && (MatchesRelease(s, q.pc.t) ==> q.pc.t !in s.tlock)
    case ReleasePayment => q.pc.Releasing? && !q.pc.marked && q.pc.p !in s.plock
    case ReleaseCommit =>
      q.pc.Releasing? && q.pc.marked && q.pc.p in s.payments && (q.pc.held ==> q.pc.t in s.tickets)
    case ReleaseErr => q.pc.ChargeFailed? || q.pc.Releasing?
  }

  function Count(m: map<nat, nat>, k: nat): nat {
    if k in m then m[k] else 0
  }

  /** History of a release by request r's payment p freeing ticket t. */
  function Freed(h: Hist, t: TicketId, p: PaymentId): Hist {
    h.(held := h.held - {t},
       frees := h.frees[t := Count(h.frees, t) + 1],
       fate := if t in h.held then h.fate[h.held[t] := if h.held[t] == p then Returned else Stray] else h.fate)
  }

  function DoRelease(s: Sys, r: ReqId, l: ReleaseAct): Sys
    requires CanRelease(s, r, l)
  {
    var q := s.reqs[r];
    match l
    case ReleaseTicket =>
      if MatchesRelease(s, q.pc.t) then
        Goto(s, r, Releasing(q.pc.t, q.pc.p, q.pc.e, true, false)).(tlock := s.tlock[q.pc.t := r])
      else Goto(s, r, Releasing(q.pc.t, q.pc.p, q.pc.e, false, false))
    case ReleasePayment =>
      Goto(s, r, Releasing(q.pc.t, q.pc.p, q.pc.e, q.pc.held, true)).(plock := s.plock[q.pc.p := r])
    case ReleaseCommit =>
      Goto(s, r, Answered(Denial(q.pc.e))).(
        tickets := if q.pc.held then s.tickets[q.pc.t := FreeRow(s.tickets[q.pc.t])] else s.tickets,
        tlock := if q.pc.held then s.tlock - {q.pc.t} else s.tlock,
        payments := s.payments[q.pc.p := s.payments[q.pc.p].(status := Failed)],
        plock := s.plock - {q.pc.p},
        hist := if q.pc.held then Freed(s.hist, q.pc.t, q.pc.p) else s.hist)
    case ReleaseErr =>
      Goto(s, r, Answered(Denial(q.pc.e))).(
        tlock := if q.pc.Releasing? && q.pc.held then s.tlock - {q.pc.t} else s.tlock,
        plock := if q.pc.Releasing? && q.pc.marked then s.plock - {q.pc.p} else s.plock)
  }

  // ---------------------------------------------------------------- the cancellation

  predicate InAttempt(pc: Pc) {
    pc.Attempt? || pc.Snapped? || pc.Cancelling? || pc.CancelReady?
  }

  predicate CanCancel(s: Sys, r: ReqId, x: CancelAct) {
    r in s.reqs && var q := s.reqs[r];
    q.call.Cancellation? && var t := q.call.ticket;
    match x
    case CancelRead => q.pc.Attempt?
    case CancelLock =>
      // the row must be as the snapshot saw it, otherwise serialization fails
      q.pc.Snapped? && t in s.tickets && t !in s.tlock && s.tickets[t].ver == q.pc.snap.row.ver
    case CancelAlloc => q.pc.Cancelling? && q.pc.oid.None? && Outbox.CanQueue(s.box, Outbox.Alloc(t))
    case CancelPick => q.pc.Cancelling? && q.pc.oid.Some?
    case CancelCommit(mid) =>
      q.pc.CancelReady? && t in s.tickets
      && Outbox.CanQueue(s.box, Outbox.CommitRow(q.pc.drawn, CancelEvent(q, mid)))
    case CancelRetry => InAttempt(q.pc)
    case CancelErr => InAttempt(q.pc)
  }

  function CancelEvent(q: Req, mid: MsgId): Message
    requires q.call.Cancellation? && q.pc.CancelReady?
  {
    Cancelled(mid, q.call.ticket, q.pc.snap.row.event, q.user, q.call.reason)
  }

  predicate Refundable(payments: map<PaymentId, Payment>, t: TicketId, p: PaymentId) {
    p in payments && payments[p].ticket == t && (payments[p].status.Succeeded? || payments[p].status.Refunded?)
  }

  // The newest row among those below hi: ORDER BY created_at DESC LIMIT 1.
  function NewestBelow(payments: map<PaymentId, Payment>, t: TicketId, hi: nat): Option<Found> {
    if hi == 0 then None
    else
      var rest := NewestBelow(payments, t, hi - 1);
      if Refundable(payments, t, hi - 1) && (rest.None? || rest.value.row.createdAt <= payments[hi - 1].createdAt)
      then Some(Found(hi - 1, payments[hi - 1]))
      else rest
  }

  /** ByTicket: settled or refunded payments of the ticket, whoever made them; pending ones are not seen. */
  function ByTicket(s: Sys, t: TicketId): Option<Found> {
    NewestBelow(s.payments, t, s.clock)
  }

  // The newest payment row of the ticket below hi, whatever its status.
  function NewestRow(payments: map<PaymentId, Payment>, t: TicketId, hi: nat): Option<Found> {
    if hi == 0 then None
    else
      var rest := NewestRow(payments, t, hi - 1);
      if hi - 1 in payments && payments[hi - 1].ticket == t
         && (rest.None? || rest.value.row.createdAt <= payments[hi - 1].createdAt)
      then Some(Found(hi - 1, payments[hi - 1]))
      else rest
  }

  predicate NewestSettled(s: Sys, t: TicketId) {
    var newest := NewestRow(s.payments, t, s.clock);
    newest.Some? && newest.value.row.status.Succeeded?
  }

  function TakeSnapshot(s: Sys, t: TicketId): Snapshot
    requires t in s.tickets
  {
    Snapshot(s.tickets[t], ByTicket(s, t), Get(s.hist.held, t), NewestSettled(s, t))
  }

  // The captured variable is assigned only when the selected payment is not yet refunded.
  function Capture(captured: Option<Found>, pick: Option<Found>): Option<Found> {
    if pick.Some? && !pick.value.row.status.Refunded? then pick else captured
  }

  function AttemptNo(pc: Pc): nat
    requires InAttempt(pc)
  {
    pc.n
  }

  function OpenId(pc: Pc): Option<nat> {
    match pc
    case Claiming(_, _, oid) => oid
    case Cancelling(_, _, _, oid) => oid
    case CancelReady(_, _, _, drawn) => Some(drawn)
    case _ => None
  }

  // Rolling back a cancellation attempt: the row lock and the outbox id go, captured stays.
  function CancelRollback(s: Sys, r: ReqId): Sys
    requires r in s.reqs && s.reqs[r].call.Cancellation?
  {
    var q := s.reqs[r];
    s.(tlock := if q.pc.Cancelling? || q.pc.CancelReady? then s.tlock - {q.call.ticket} else s.tlock,
       box := Rollback(s.box, OpenId(q.pc)))
  }

  function CalledOffBy(h: Hist, t: TicketId): Hist {
    h.(held := h.held - {t}, fate := if t in h.held then h.fate[h.held[t] := CalledOff] else h.fate)
  }

  // Where the read of a cancellation attempt leads.
  function AfterRead(s: Sys, q: Req): Pc
    requires q.call.Cancellation? && q.pc.Attempt?
  {
    var t := q.call.ticket;
    if t !in s.tickets || s.tickets[t].owner != Some(q.user) then
      Answered(Text(404, "Ticket not found or not owned by caller"))
    else if !s.tickets[t].status.Bought? then
      Answered(Text(409, "Only purchased tickets can be cancelled"))
    else Snapped(q.pc.n, q.pc.captured, TakeSnapshot(s, t))
  }

  // Where a committed cancellation goes on: the refund, if a payment was captured.
  function AfterCommit(captured: Option<Found>): Pc {
    if captured.Some? then Refunding(captured.value) else Answered(Answer(200, JsonBody(CancelBody(None))))
  }

  function DoCancel(s: Sys, r: ReqId, x: CancelAct): Sys
    requires CanCancel(s, r, x)
  {
    var q := s.reqs[r];
    var t := q.call.ticket;
    match x
    case CancelRead => Goto(s, r, AfterRead(s, q))
    case CancelLock =>
      Goto(s, r, Cancelling(q.pc.n, q.pc.captured, q.pc.snap, None)).(tlock := s.tlock[t := r])
    case CancelAlloc =>
      Goto(s, r, Cancelling(q.pc.n, q.pc.captured, q.pc.snap, Some(s.box.next))).(
        box := Outbox.DoQueue(s.box, Outbox.Alloc(t)))
    case CancelPick =>
      Goto(s, r, CancelReady(q.pc.n, Capture(q.pc.captured, q.pc.snap.pick), q.pc.snap, q.pc.oid.value))
    case CancelCommit(mid) =>
      Goto(s, r, AfterCommit(q.pc.captured)).(
        tickets := s.tickets[t := FreeRow(s.tickets[t])],
        tlock := s.tlock - {t},
        logs := s.logs + [CancelLog(t, q.user, q.pc.snap.row.event, q.call.reason, r)],
        box := Outbox.DoQueue(s.box, Outbox.CommitRow(q.pc.drawn, CancelEvent(q, mid))),
        hist := CalledOffBy(s.hist, t))
    case CancelRetry =>
      var pc := if AttemptNo(q.pc) < Tx.MAX_TX_ATTEMPTS then Attempt(AttemptNo(q.pc) + 1, q.pc.captured)
                else Answered(Text(500, "Failed to cancel ticket"));
      Goto(CancelRollback(s, r), r, pc)
    case CancelErr => Goto(CancelRollback(s, r), r, Answered(Text(500, "Failed to cancel ticket")))
  }

  // ---------------------------------------------------------------- the refund

  predicate CanRefund(s: Sys, r: ReqId, f: RefundAct) {
    r in s.reqs && var q := s.reqs[r];
    match f
    case RefundOk => q.pc.Refunding?
    case RefundErr => q.pc.Refunding?
    case RefundMark => q.pc.Marking? && q.pc.found.id in s.payments && q.pc.found.id !in s.plock
    case RefundMarkErr => q.pc.Marking?
  }

  /** UPDATE payments SET status = 'refunded' ... WHERE id = $3 AND status = 'succeeded' */
  function MarkRefunded(payments: map<PaymentId, Payment>, p: PaymentId, n: nat): map<PaymentId, Payment>
    requires p in payments
  {
    if payments[p].status.Succeeded? then payments[p := payments[p].(status := Refunded, refund := Some(n))]
    else payments
  }

  function DoRefund(s: Sys, r: ReqId, f: RefundAct): Sys
    requires CanRefund(s, r, f)
  {
    var q := s.reqs[r];
    match f
    case RefundOk =>
      var (prov, n) := Payments.Refunding(s.prov, RefundRequest(q.pc.found.row.intent, q.pc.found.row.amount, q.pc.found.id));
      Goto(s, r, Marking(q.pc.found, n)).(prov := prov)
    case RefundErr => Goto(s, r, Answered(Answer(200, JsonBody(CancelBody(Some(RefundPending))))))
    case RefundMark =>
      Goto(s, r, Answered(Answer(200, JsonBody(CancelBody(Some(RefundIssued(q.pc.refund))))))).(
        payments := MarkRefunded(s.payments, q.pc.found.id, q.pc.refund))
    case RefundMarkErr => Goto(s, r, Answered(Answer(200, JsonBody(CancelBody(Some(RefundIssued(q.pc.refund)))))))
  }

  // ---------------------------------------------------------------- crashes

  predicate Inside(pc: Pc) {
    !(pc.Arrived? || pc.KeyTaken? || pc.Done? || pc.Crashed?)
  }

  predicate CanCrash(s: Sys, r: ReqId) {
    r in s.reqs && !s.reqs[r].pc.Done? && !s.reqs[r].pc.Crashed?
  }

  // The connection is gone: its transaction rolls back and its row locks are released.
  function DoCrash(s: Sys, r: ReqId): Sys
    requires CanCrash(s, r)
  {
    var pc := s.reqs[r].pc;
    Goto(s, r, Crashed(Inside(pc))).(
      tlock := map t | t in s.tlock && s.tlock[t] != r :: s.tlock[t],
      plock := map p | p in s.plock && s.plock[p] != r :: s.plock[p],
      box := Rollback(s.box, OpenId(pc)))
  }

  // ---------------------------------------------------------------- the machine

  predicate CanAct(s: Sys, r: ReqId, a: Act) {
    match a
    case Gate(g) => CanGate(s, r, g)
    case Claim(c) => CanClaim(s, r, c)
    case Pay(y) => CanPay(s, r, y)
    case Release(l) => CanRelease(s, r, l)
    case Cancel(x) => CanCancel(s, r, x)
    case Refund(f) => CanRefund(s, r, f)
    case Crash => CanCrash(s, r)
  }

  function DoAct(s: Sys, r: ReqId, a: Act): Sys
    requires CanAct(s, r, a)
  {
    match a
    case Gate(g) => DoGate(s, r, g)
    case Claim(c) => DoClaim(s, r, c)
    case Pay(y) => DoPay(s, r, y)
    case Release(l) => DoRelease(s, r, l)
    case Cancel(x) => DoCancel(s, r, x)
    case Refund(f) => DoRefund(s, r, f)
    case Crash => DoCrash(s, r)
  }

  predicate Enabled(s: Sys, step: Step) {
    match step
    case Arrive(r, _, _, _, _) => r !in s.reqs
    case Do(r, a) => CanAct(s, r, a)
    case Mint(_, _, ids) => ids !! s.tickets.Keys && ids != {}
    case Ship(k, a) => Outbox.CanRelay(s.box, k, a)
    case Work(p, w) => Outbox.CanWork(s.box, p, w)
  }

  /** The rows CreateTickets inserts, in one transaction. */
  function MintRows(tickets: map<TicketId, Ticket>, e: EventId, price: int, ids: set<TicketId>): map<TicketId, Ticket> {
    tickets + map t | t in ids :: Ticket(e, price, Available, None, None, None, 0)
  }

  function Apply(s: Sys, step: Step): Sys
    requires Enabled(s, step)
  {
    match step
    case Arrive(r, user, call, key, body) => s.(reqs := s.reqs[r := Req(user, call, key, body, Arrived)])
    case Do(r, a) => DoAct(s, r, a)
    case Mint(e, price, ids) =>
      s.(tickets := MintRows(s.tickets, e, price, ids),
         hist := s.hist.(minted := s.hist.minted[e := Count(s.hist.minted, e) + |ids|]))
    case Ship(k, a) => s.(box := Outbox.DoRelay(s.box, k, a))
    case Work(p, w) => s.(box := Outbox.DoWork(s.box, p, w))
  }

  predicate Legal(s: Sys, steps: seq<Step>)
    decreases |steps|, 0
  {
    steps == [] || (Legal(s, Front(steps)) && Enabled(Run(s, Front(steps)), Last(steps)))
  }

  function Run(s: Sys, steps: seq<Step>): Sys
    requires Legal(s, steps)
    decreases |steps|, 1
  {
    if steps == [] then s else Apply(Run(s, Front(steps)), Last(steps))
  }

  // ---------------------------------------------------------------- the start

  // A row as minted, or one sold before payments existed.
  ghost predicate SeatOk(t: TicketId, row: Ticket) {
    match row.status
    case Available => row.owner.None? && row.boughtAt.None? && row.qr.None?
    case Bought => row.owner.Some? && row.boughtAt.Some? && row.qr == Some(Qr(t))
    case Reserved => false
    case Voided => false
  }

  function TicketsOf(s: Sys, e: EventId): set<TicketId> {
    set t | t in s.tickets && s.tickets[t].event == e
  }

  ghost predicate Init(s: Sys) {
    && (forall t | t in s.tickets :: SeatOk(t, s.tickets[t]))
    && s.tlock == map[] && s.payments == map[] && s.plock == map[] && s.keys == map[] && s.logs == []
    && (s.prov == EMPTY || s.prov == EMPTY_KEYED) && Outbox.Init(s.box) && s.reqs == map[]
    && s.hist.claims == map[] && s.hist.paid == map[] && s.hist.payer == map[] && s.hist.held == map[]
    && s.hist.fate == map[] && s.hist.owner == map[] && s.hist.frees == map[]
    && s.hist.seed == (set t | t in s.tickets && s.tickets[t].status.Bought?)
    && (forall e: EventId :: Count(s.hist.minted, e) == |TicketsOf(s, e)|)
  }
}
