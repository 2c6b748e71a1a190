/** Idempotency keys: one run at a time, one effect, and replays that never change. */
module KeyTheorems {
  import opened Types
  import opened Payments
  import opened System
  import opened Frames
  import opened KeyProofs
  import opened LockProofs
  import opened MoneyProofs
  import opened Invariant
  import Outbox

  ghost predicate Uses(s: Sys, r: ReqId, k: Key) {
    r in s.reqs && s.reqs[r].key == Some(k)
  }

  // Requests whose run of the handler still counts: in it, crashed in it, or ended below 500.
  lemma OneOwner(s: Sys, k: Key, r: ReqId, r': ReqId)
    requires KeyInv(s) && Uses(s, r, k) && Uses(s, r', k) && Bound(s.reqs[r].pc) && Bound(s.reqs[r'].pc)
    ensures r == r'
  {
    assert ReqBound(s, r) && ReqBound(s, r');
  }

  /** At most one request per key is inside the handler, and at most one ever ends below 500. */
  lemma OneRunPerKey(s: Sys, k: Key, r: ReqId, r': ReqId)
    requires Reachable(s) && Uses(s, r, k) && Uses(s, r', k)
    requires Inside(s.reqs[r].pc) || EndedBelow500(s.reqs[r].pc)
    requires Inside(s.reqs[r'].pc) || EndedBelow500(s.reqs[r'].pc)
    ensures r == r'
  {
    BothParts(s);
    hide Reachable, KeyInv, LockInv;
    OneOwner(s, k, r, r');
  }

  // The request whose charge created n.
  ghost predicate ChargedBy(s: Sys, n: nat, r: ReqId) {
    n in s.prov.made && n in s.hist.payer && s.hist.payer[n] in s.hist.claims && s.hist.claims[s.hist.payer[n]] == r
  }

  lemma ChargerIsPost(s: Sys, n: nat, r: ReqId)
    requires Reachable(s) && ChargedBy(s, n, r)
    ensures r in s.reqs && PostCharge(s.reqs[r].pc) && s.hist.payer[n] in s.hist.paid && s.hist.paid[s.hist.payer[n]] == n
  {
    ReachableInv(s);
    assert MadeOk(s, n) && PaidOk(s, s.hist.payer[n]);
    assert PaymentOk(s, s.hist.payer[n]);
  }

  /** All requests sharing a key create at most one charge. */
  lemma OneChargePerKey(s: Sys, k: Key, r: ReqId, r': ReqId, n: nat, n': nat)
    requires Reachable(s) && Uses(s, r, k) && Uses(s, r', k) && ChargedBy(s, n, r) && ChargedBy(s, n', r')
    ensures r == r' && n == n'
  {
    BothParts(s);
    ChargerIsPost(s, n, r);
    ChargerIsPost(s, n', r');
    OnePaymentEach(s, s.hist.payer[n], s.hist.payer[n']);
    hide Reachable, KeyInv, LockInv;
    OneOwner(s, k, r, r');
  }

  // A request inserts one payment.
  lemma OnePaymentEach(s: Sys, p: PaymentId, p': PaymentId)
    requires Reachable(s) && p in s.hist.claims && p' in s.hist.claims
    ensures s.hist.claims[p] == s.hist.claims[p'] ==> p == p'
  {
    ReachableInv(s);
    assert MoneyInv(s);
    hide Inv, Reachable, PaymentOk, Books, Links;
  }

  /** And they commit at most one cancellation. */
  lemma OneCancellationPerKey(s: Sys, k: Key, i: nat, j: nat)
    requires Reachable(s) && i < |s.logs| && j < |s.logs|
    requires Uses(s, s.logs[i].req, k) && Uses(s, s.logs[j].req, k)
    ensures i == j
  {
    BothParts(s);
    hide Reachable, LockInv;
    assert LogOwned(s, i) && LogOwned(s, j);
    OneOwner(s, k, s.logs[i].req, s.logs[j].req);
  }

  /** A key is given up only by a run that ended in a server error, charged nothing and cancelled nothing. */
  lemma KeyReleasedOnlyCleanly(s: Sys, step: Step, k: Key)
    requires Reachable(s) && Enabled(s, step) && k in s.keys && k !in Apply(s, step).keys
    ensures step.Do? && step.a == Gate(Finish(true)) && Uses(s, step.r, k)
    ensures s.reqs[step.r].pc.Answered? && s.reqs[step.r].pc.answer.status >= 500
    ensures forall n :: !ChargedBy(s, n, step.r)
    ensures forall i | 0 <= i < |s.logs| :: s.logs[i].req != step.r
  {
    BothParts(s);
    KeyGone(s, step, k);
    hide Reachable, LockInv, Enabled, Apply;
    forall n ensures !ChargedBy(s, n, step.r) {
      if ChargedBy(s, n, step.r) { ChargerIsPost(s, n, step.r); }
    }
    forall i: nat | i < |s.logs| ensures s.logs[i].req != step.r { assert LogOwned(s, i); }
  }

  lemma KeysStay(s: Sys, r: ReqId, a: Act)
    requires CanAct(s, r, a) && !a.Gate?
    ensures DoAct(s, r, a).keys == s.keys
  {
    hide DoClaim, DoPay, DoRelease, DoCancel, DoRefund, DoCrash;
    hide CanClaim, CanPay, CanRelease, CanCancel, CanRefund, CanCrash;
    match a
    case Claim(c) => ClaimFrame(s, r, c);
    case Pay(y) => PayFrame(s, r, y);
    case Release(l) => ReleaseFrame(s, r, l);
    case Cancel(x) => CancelFrame(s, r, x);
    case Refund(f) => RefundFrame(s, r, f);
    case Crash => CrashFrame(s, r);
  }

  lemma GateGone(s: Sys, r: ReqId, g: GateAct, k: Key)
    requires CanGate(s, r, g) && k in s.keys && k !in DoGate(s, r, g).keys
    ensures g == Finish(true) && Uses(s, r, k) && s.reqs[r].pc.Answered? && s.reqs[r].pc.answer.status >= 500
  {
    GateFrame(s, r, g);
    hide GateAnswer, LoadKey, GateMoves, Entry;
  }

  lemma KeyGone(s: Sys, step: Step, k: Key)
    requires Enabled(s, step) && k in s.keys && k !in Apply(s, step).keys
    ensures step.Do? && step.a == Gate(Finish(true)) && Uses(s, step.r, k)
    ensures s.reqs[step.r].pc.Answered? && s.reqs[step.r].pc.answer.status >= 500
  {
    hide CanAct, DoAct, Outbox.DoRelay, Outbox.DoWork, Outbox.CanRelay, Outbox.CanWork;
    if step.Do? { ActGone(s, step.r, step.a, k); }
  }

  lemma ActGone(s: Sys, r: ReqId, a: Act, k: Key)
    requires CanAct(s, r, a) && k in s.keys && k !in DoAct(s, r, a).keys
    ensures a == Gate(Finish(true)) && Uses(s, r, k) && s.reqs[r].pc.Answered? && s.reqs[r].pc.answer.status >= 500
  {
    if a.Gate? {
      hide DoGate, CanGate;
      GateGone(s, r, a.g, k);
    } else {
      hide CanAct, DoAct;
      KeysStay(s, r, a);
    }
  }

  // ---------------------------------------------------------------- a key whose request has ended

  predicate Over(pc: Pc) {
    pc.Done? || pc.Crashed?
  }

  // The request that holds the key was answered or crashed.
  ghost predicate KeyEnded(s: Sys, k: Key) {
    k in s.keys && k in s.hist.owner && s.hist.owner[k] in s.reqs && Over(s.reqs[s.hist.owner[k]].pc)
  }

  lemma EndedGate(s: Sys, r: ReqId, g: GateAct, k: Key)
    requires KeyInv(s) && CanGate(s, r, g) && KeyEnded(s, k)
    ensures KeyEnded(DoGate(s, r, g), k) && DoGate(s, r, g).keys[k] == s.keys[k]
  {
    assert ReqBound(s, r);
    hide KeyInv, CanGate, DoGate, ReqBound, Over;
    KeyOfEnded(s, r, g, k);
    GateFrame(s, r, g);
    hide GateMoves;
    OverStays(s, r, Gate(g));
  }

  // A gate act of a request leaves the row and the owner of a key that is not its own as they were.
  lemma KeyOfEnded(s: Sys, r: ReqId, g: GateAct, k: Key)
    requires ReqBound(s, r) && CanGate(s, r, g) && KeyEnded(s, k)
    ensures var s' := DoGate(s, r, g);
      && k in s'.keys && s'.keys[k] == s.keys[k] && k in s'.hist.owner && s'.hist.owner[k] == s.hist.owner[k]
  {
    hide GateAnswer, LoadKey, Entry;
  }

  lemma OverStays(s: Sys, r: ReqId, a: Act)
    requires CanAct(s, r, a)
    ensures !Over(s.reqs[r].pc)
  {}

  lemma OwnersStay(s: Sys, r: ReqId, a: Act)
    requires CanAct(s, r, a) && !a.Gate?
    ensures DoAct(s, r, a).keys == s.keys && DoAct(s, r, a).hist.owner == s.hist.owner && OnlyPc(s, DoAct(s, r, a), r)
  {
    KeysStay(s, r, a);
    OthersMove(s, r, a);
    hide DoGate, DoClaim, DoPay, DoRelease, DoCancel, DoRefund, DoCrash;
    hide CanGate, CanClaim, CanPay, CanRelease, CanCancel, CanRefund, CanCrash;
    match a
    case Claim(c) => ClaimFrame(s, r, c);
    case Pay(y) => PayFrame(s, r, y);
    case Release(l) => ReleaseHist(s, r, l);
    case Cancel(x) => CancelHist(s, r, x);
    case Refund(f) => RefundFrame(s, r, f);
    case Crash => CrashFrame(s, r);
  }

  lemma EndedAct(s: Sys, r: ReqId, a: Act, k: Key)
    requires KeyInv(s) && CanAct(s, r, a) && KeyEnded(s, k)
    ensures KeyEnded(DoAct(s, r, a), k) && DoAct(s, r, a).keys[k] == s.keys[k]
  {
    if a.Gate? {
      hide KeyInv, CanGate, DoGate, KeyEnded;
      EndedGate(s, r, a.g, k);
    } else {
      OverStays(s, r, a);
      OwnersStay(s, r, a);
      hide KeyInv, CanAct, DoAct, Over;
    }
  }

  lemma EndedStep(s: Sys, step: Step, k: Key)
    requires KeyInv(s) && Enabled(s, step) && KeyEnded(s, k)
    ensures KeyEnded(Apply(s, step), k) && Apply(s, step).keys[k] == s.keys[k]
  {
    hide KeyInv, CanAct, DoAct, Outbox.DoRelay, Outbox.DoWork;
    if step.Do? { EndedAct(s, step.r, step.a, k); }
  }

  /** Once the request that holds a key is answered or has crashed, the key's row never changes again: stored or in flight. */
  lemma {:induction false} EndedForGood(s: Sys, steps: seq<Step>, k: Key)
    requires Reachable(s) && Legal(s, steps) && KeyEnded(s, k)
    ensures KeyEnded(Run(s, steps), k) && Run(s, steps).keys[k] == s.keys[k]
    decreases |steps|
  {
    hide Inv, KeyEnded, Enabled, Apply;
    if steps != [] {
      EndedForGood(s, Front(steps), k);
      ReachableOn(s, Front(steps));
      hide Reachable;
      ReachableInv(Run(s, Front(steps)));
      assert KeyInv(Run(s, Front(steps))) by { KeyPart(Run(s, Front(steps))); }
      EndedStep(Run(s, Front(steps)), Last(steps), k);
    }
  }

  /** A key with a stored response has ended. */
  lemma StoredIsEnded(s: Sys, k: Key)
    requires Reachable(s) && k in s.keys && s.keys[k].response.Some?
    ensures KeyEnded(s, k)
  {
    ReachableInv(s);
    assert KeyOwned(s, k);
  }

  lemma KeyPart(s: Sys)
    requires Inv(s)
    ensures KeyInv(s)
  {}

  /** What a request that arrives under an ended key can come to. */
  predicate Late(row: KeyRow, user: UserId, hash: Body, pc: Pc) {
    || pc.Arrived? || pc.KeyTaken? || pc == Crashed(false)
    || pc == Done(Text(500, "Could not process request"), Refused)
    || (row.response.Some? && user == row.user && hash == row.hash &&
          pc == Done(Answer(row.response.value.status, JsonBody(row.response.value.value)), Replayed))
    || (row.response.None? && user == row.user && hash == row.hash &&
          pc == Done(Text(409, "A request with this Idempotency-Key is still in progress, retry shortly"), Refused))
    || (user == row.user && hash != row.hash &&
          pc == Done(Text(422, "Idempotency-Key was already used with a different request body"), Refused))
  }

  // A request that has not entered the handler moves only its own program counter.
  ghost predicate OnlyMoves(s: Sys, s': Sys, r: ReqId) {
    r in s.reqs && r in s'.reqs && s' == Goto(s, r, s'.reqs[r].pc)
  }

  lemma LateGate(s: Sys, r: ReqId, g: GateAct, k: Key)
    requires KeyEnded(s, k) && Uses(s, r, k) && CanGate(s, r, g)
    requires Late(s.keys[k], s.reqs[r].user, s.reqs[r].body, s.reqs[r].pc)
    ensures OnlyMoves(s, DoGate(s, r, g), r)
    ensures Late(s.keys[k], s.reqs[r].user, s.reqs[r].body, DoGate(s, r, g).reqs[r].pc)
  {
    if g.Load? {
      LateLoad(s, r, k);
    } else {
      hide KeyWrite, Entry, GateAnswer, LoadKey;
    }
  }

  lemma LateLoad(s: Sys, r: ReqId, k: Key)
    requires KeyEnded(s, k) && Uses(s, r, k) && CanGate(s, r, Load)
    ensures OnlyMoves(s, DoGate(s, r, Load), r)
    ensures Late(s.keys[k], s.reqs[r].user, s.reqs[r].body, DoGate(s, r, Load).reqs[r].pc)
  {
    AnswerIsLate(s.keys[k], s.reqs[r].user, s.reqs[r].body);
    hide GateAnswer, AfterLoad, Late;
  }

  lemma AnswerIsLate(row: KeyRow, user: UserId, hash: Body)
    ensures Late(row, user, hash, AfterLoad(GateAnswer(if row.user == user then Some(row) else None, hash)))
  {}

  lemma LateCrash(s: Sys, r: ReqId)
    requires LockInv(s) && CanCrash(s, r) && (s.reqs[r].pc.Arrived? || s.reqs[r].pc.KeyTaken?)
    ensures OnlyMoves(s, DoCrash(s, r), r) && DoCrash(s, r).reqs[r].pc == Crashed(false)
  {
    forall t | t in s.tlock ensures s.tlock[t] != r { assert SeatLock(s, t); }
    forall p | p in s.plock ensures s.plock[p] != r { assert PayLock(s, p); }
    hide LockInv;
    var s' := DoCrash(s, r);
    assert s'.tlock == s.tlock && s'.plock == s.plock && s'.box == s.box;
  }

  lemma LateAct(s: Sys, r: ReqId, a: Act, k: Key)
    requires LockInv(s) && KeyEnded(s, k) && Uses(s, r, k) && CanAct(s, r, a)
    requires Late(s.keys[k], s.reqs[r].user, s.reqs[r].body, s.reqs[r].pc)
    ensures OnlyMoves(s, DoAct(s, r, a), r)
    ensures Late(s.keys[k], s.reqs[r].user, s.reqs[r].body, DoAct(s, r, a).reqs[r].pc)
  {
    hide LockInv, OnlyMoves, DoGate, CanGate, DoClaim, DoPay, DoRelease, DoCancel, DoRefund, DoCrash;
    hide CanClaim, CanPay, CanRelease, CanCancel, CanRefund, KeyEnded;
    if a.Gate? {
      LateGate(s, r, a.g, k);
    } else if a.Crash? {
      LateCrash(s, r);
    } else {
      LateIdle(s, r, a);
    }
  }

  // Outside the handler there is nothing but the gate and a crash.
  lemma LateIdle(s: Sys, r: ReqId, a: Act)
    requires CanAct(s, r, a) && !a.Gate? && !a.Crash?
    ensures Inside(s.reqs[r].pc)
  {}

  lemma LateStep(s: Sys, step: Step, k: Key, r: ReqId)
    requires LockInv(s) && KeyInv(s) && Enabled(s, step) && KeyEnded(s, k) && Uses(s, r, k)
    requires Late(s.keys[k], s.reqs[r].user, s.reqs[r].body, s.reqs[r].pc)
    ensures var s' := Apply(s, step);
      Uses(s', r, k) && s'.reqs[r].user == s.reqs[r].user && s'.reqs[r].body == s.reqs[r].body
      && Late(s.keys[k], s.reqs[r].user, s.reqs[r].body, s'.reqs[r].pc)
    ensures step.Do? && step.r == r ==> OnlyMoves(s, Apply(s, step), r)
  {
    hide LockInv, KeyInv, CanAct, DoAct, Outbox.DoRelay, Outbox.DoWork, Outbox.CanRelay, Outbox.CanWork, Late, KeyEnded;
    if step.Do? {
      if step.r == r { LateAct(s, r, step.a, k); } else { OthersMove(s, step.r, step.a); }
    }
  }

  /**
   Whatever else runs in between: a request arriving under an ended key is told, if user and body match, the
   stored status and JSON value, or 409 when none is stored; 422 if the body differs; a server error if the
   database fails or the key is another user's; and no step it takes changes anything but its own progress.
   */
  lemma {:induction false} ReplayIsStable(s: Sys, steps: seq<Step>, k: Key, r: ReqId)
    requires Reachable(s) && Legal(s, steps) && KeyEnded(s, k) && Uses(s, r, k)
    requires s.reqs[r].pc.Arrived? || s.reqs[r].pc.KeyTaken?
    ensures var s' := Run(s, steps);
      Uses(s', r, k) && s'.reqs[r].user == s.reqs[r].user && s'.reqs[r].body == s.reqs[r].body
      && Late(s.keys[k], s.reqs[r].user, s.reqs[r].body, s'.reqs[r].pc)
    ensures forall step | Enabled(Run(s, steps), step) && step.Do? && step.r == r ::
              OnlyMoves(Run(s, steps), Apply(Run(s, steps), step), r)
    decreases |steps|
  {
    hide KeyEnded, Enabled, Apply, OnlyMoves, KeyInv, LockInv;
    var s' := Run(s, steps);
    if steps != [] {
      var before := Run(s, Front(steps));
      ReplayIsStable(s, Front(steps), k, r);
      ReachableOn(s, Front(steps));
      EndedForGood(s, Front(steps), k);
      BothParts(before);
      LateStep(before, Last(steps), k, r);
    }
    ReachableOn(s, steps);
    EndedForGood(s, steps, k);
    BothParts(s');
    hide Reachable, Run, Legal, Uses, Late;
    forall step | Enabled(s', step) && step.Do? && step.r == r ensures OnlyMoves(s', Apply(s', step), r) {
      LateStep(s', step, k, r);
    }
  }

  lemma BothParts(s: Sys)
    requires Reachable(s)
    ensures LockInv(s) && KeyInv(s)
  {
    ReachableInv(s);
    hide LockInv, KeyInv;
  }

  // The row of key k, if it is the user's own.
  ghost predicate Own(keys: map<Key, KeyRow>, k: Key, user: UserId) {
    k in keys && keys[k].user == user
  }

  lemma GateAnswers(keys: map<Key, KeyRow>, k: Key, user: UserId, hash: Body)
    ensures var (a, via) := GateAnswer(LoadKey(keys, k, user), hash);
      && !via.Handled?
      && (via.Replayed? <==> Own(keys, k, user) && keys[k].hash == hash && keys[k].response.Some?)
      && (via.Replayed? ==> a == Answer(keys[k].response.value.status, JsonBody(keys[k].response.value.value)))
      && (via.Refused? && a.status == 409 <==> Own(keys, k, user) && keys[k].hash == hash && keys[k].response.None?)
      && (via.Refused? && a.status == 422 <==> Own(keys, k, user) && keys[k].hash != hash)
      && (via.Refused? && a.status == 500 <==> !Own(keys, k, user))
  {}

  /**
   A load that reaches the database answers: the stored response, 409, 422, or 500 when the key is a foreign one or
   was given up since the insert failed.
   */
  lemma LoadAnswers(s: Sys, k: Key, r: ReqId)
    requires Uses(s, r, k) && s.reqs[r].pc.KeyTaken?
    ensures CanGate(s, r, Load)
    ensures var q := s.reqs[r];
      var pc := DoGate(s, r, Load).reqs[r].pc;
      && pc.Done? && !pc.via.Handled?
      && (pc.via.Replayed? <==> Own(s.keys, k, q.user) && s.keys[k].hash == q.body && s.keys[k].response.Some?)
      && (pc.via.Replayed? ==>
            pc.answer == Answer(s.keys[k].response.value.status, JsonBody(s.keys[k].response.value.value)))
      && (pc.via.Refused? && pc.answer.status == 409 <==>
            Own(s.keys, k, q.user) && s.keys[k].hash == q.body && s.keys[k].response.None?)
      && (pc.via.Refused? && pc.answer.status == 422 <==> Own(s.keys, k, q.user) && s.keys[k].hash != q.body)
      && (pc.via.Refused? && pc.answer.status == 500 <==> !Own(s.keys, k, q.user))
  {
    GateAnswers(s.keys, k, s.reqs[r].user, s.reqs[r].body);
    hide KeyWrite, GateAnswer, LoadKey, Own;
  }

  // ---------------------------------------------------------------- what is stored

  /**
   The write after the handler stores the response if and only if it succeeds and the answer is a 200, and gives
   the key up if and only if it succeeds after a server error. In every other case the key stays in flight.
   */
  lemma FinishStoresIff(s: Sys, k: Key, r: ReqId, ok: bool)
    requires Reachable(s) && Uses(s, r, k) && CanGate(s, r, Finish(ok))
    ensures var a, keys := s.reqs[r].pc.answer, DoGate(s, r, Finish(ok)).keys;
      && k in s.keys && s.keys[k].response.None?
      && (k !in keys <==> ok && a.status >= 500)
      && (k in keys && keys[k].response.Some? <==> ok && a.status == 200)
      && (k in keys ==> keys[k].response == (if ok && a.status == 200 then Some(Response(200, a.content.value)) else None))
      && (forall j | j != k :: Get(keys, j) == Get(s.keys, j))
  {
    assert KeyInv(s) by { ReachableInv(s); hide Reachable, KeyInv; }
    hide Reachable;
    assert ReqBound(s, r) && KeyOwned(s, k) && PcAnswerOk(s.reqs[r].pc);
    hide GateAnswer, LoadKey, KeyInv, Entry;
  }

  /**
   Only successes are ever stored: the rejections handlers write are plain text, which the JSONB
   column refuses, so the key of a 402, 404 or 409 stays in flight, for good.
   */
  lemma RejectionsAreNotStored(s: Sys, k: Key, r: ReqId)
    requires Reachable(s) && Uses(s, r, k) && s.reqs[r].pc.Done? && s.reqs[r].pc.via.Handled?
    requires s.reqs[r].pc.answer.status < 500
    ensures KeyEnded(s, k) && s.hist.owner[k] == r
    ensures s.keys[k].response.Some? ==>
              s.reqs[r].pc.answer == Answer(200, JsonBody(s.keys[k].response.value.value))
    ensures s.reqs[r].pc.answer.status != 200 ==> s.keys[k].response.None?
  {
    ReachableInv(s);
    assert ReqBound(s, r) && KeyOwned(s, k) && PcAnswerOk(s.reqs[r].pc);
  }

  // ---------------------------------------------------------------- after a failed charge

  /** 402 exactly for a declined card, 502 for any other failure, each in its own words. */
  predicate Declines(a: Answer, e: ProviderError) {
    match e
    case CardDeclined => a == Answer(402, TextBody("Card declined"))
    case Unavailable => a == Answer(502, TextBody("Payment provider unavailable"))
    case OtherError => a == Answer(502, TextBody("Payment failed"))
  }

  // Where a request can be once its charge has failed with e.
  predicate AfterFailure(pc: Pc, e: ProviderError) {
    || pc.Crashed?
    || ((pc.ChargeFailed? || pc.Releasing?) && pc.e == e)
    || (pc.Answered? && Declines(pc.answer, e))
    || (pc.Done? && pc.via.Handled? && Declines(pc.answer, e))
  }

  lemma FailureAct(s: Sys, r: ReqId, a: Act, e: ProviderError)
    requires r in s.reqs && CanAct(s, r, a) && AfterFailure(s.reqs[r].pc, e) && OnlyPc(s, DoAct(s, r, a), r)
    ensures AfterFailure(DoAct(s, r, a).reqs[r].pc, e)
  {
    hide DoGate, DoClaim, DoPay, DoRelease, DoCancel, DoRefund, DoCrash;
    match a
    case Gate(g) => GateFrame(s, r, g);
    case Release(l) => ReleaseFrame(s, r, l);
    case Crash => CrashFrame(s, r);
    case Claim(_) => assert false;
    case Pay(_) => assert false;
    case Cancel(_) => assert false;
    case Refund(_) => assert false;
  }

  lemma FailureStep(s: Sys, step: Step, r: ReqId, e: ProviderError)
    requires Enabled(s, step) && r in s.reqs && AfterFailure(s.reqs[r].pc, e)
    ensures r in Apply(s, step).reqs && AfterFailure(Apply(s, step).reqs[r].pc, e)
  {
    hide CanAct, DoAct, AfterFailure, Outbox.DoRelay, Outbox.DoWork, Outbox.CanRelay, Outbox.CanWork;
    if step.Do? {
      OthersMove(s, step.r, step.a);
      if step.r == r { FailureInside(s, r, step.a); FailureAct(s, r, step.a, e); }
    }
  }

  lemma FailureInside(s: Sys, r: ReqId, a: Act)
    requires CanAct(s, r, a)
    ensures r in s.reqs
  {}

  /** Whatever runs in between and however the release ends: a request whose charge failed answers as the error calls for. */
  lemma {:induction false} FailedChargeAnswer(s: Sys, steps: seq<Step>, r: ReqId)
    requires Legal(s, steps) && r in s.reqs && s.reqs[r].pc.ChargeFailed?
    ensures r in Run(s, steps).reqs && AfterFailure(Run(s, steps).reqs[r].pc, s.reqs[r].pc.e)
    decreases |steps|
  {
    if steps != [] {
      hide Enabled, Apply, AfterFailure;
      FailedChargeAnswer(s, Front(steps), r);
      FailureStep(Run(s, Front(steps)), Last(steps), r, s.reqs[r].pc.e);
    }
  }

  /** So the key is given up exactly when the write goes through and the card was not what failed; a declined buyer's stays. */
  lemma FailedChargeKey(s: Sys, steps: seq<Step>, r: ReqId, k: Key, ok: bool)
    requires Reachable(s) && Legal(s, steps) && r in s.reqs && s.reqs[r].pc.ChargeFailed?
    requires Uses(Run(s, steps), r, k) && CanGate(Run(s, steps), r, Finish(ok))
    ensures k in Run(s, steps).keys
    ensures var keys := DoGate(Run(s, steps), r, Finish(ok)).keys;
      && (k !in keys <==> ok && !s.reqs[r].pc.e.CardDeclined?)
      && (k in keys ==> keys[k].response.None?)
  {
    FailedChargeAnswer(s, steps, r);
    ReachableOn(s, steps);
    hide Reachable, Legal, Run;
    FinishStoresIff(Run(s, steps), k, r, ok);
    hide DoGate, Uses;
  }
}
