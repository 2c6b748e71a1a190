/** The idempotency protocol: who owns a key, and what a key remembers. */
module KeyProofs {
  import opened Types
  import opened Payments
  import opened System
  import opened Frames
  import Outbox

  // The request's key is certainly still its own.
  predicate Bound(pc: Pc) {
    Inside(pc) || (pc.Done? && pc.via.Handled? && pc.answer.status < 500) || (pc.Crashed? && pc.inside)
  }

  predicate EndedBelow500(pc: Pc) {
    (pc.Answered? || (pc.Done? && pc.via.Handled?)) && pc.answer.status < 500
  }

  // Where a request can be once its charge has succeeded, or once its cancellation has committed.
  predicate PostCharge(pc: Pc) {
    pc.Charged? || (EndedBelow500(pc) && pc.answer.status == 200) || (pc.Crashed? && pc.inside)
  }

  predicate PostCancel(pc: Pc) {
    pc.Refunding? || pc.Marking? || (EndedBelow500(pc) && pc.answer.status == 200) || (pc.Crashed? && pc.inside)
  }

  // Handlers answer 200 with JSON and everything else with text.
  predicate AnswerOk(a: Answer) {
    a.content.JsonBody? <==> a.status == 200
  }

  predicate PcAnswerOk(pc: Pc) {
    pc.Answered? || (pc.Done? && pc.via.Handled?) ==> AnswerOk(pc.answer)
  }

  ghost predicate KeyOwned(s: Sys, k: Key) {
    k in s.keys ==>
      && k in s.hist.owner && s.hist.owner[k] in s.reqs && s.reqs[s.hist.owner[k]].key == Some(k)
      && (s.keys[k].response.Some? ==>
            var a := s.keys[k].response.value;
            s.reqs[s.hist.owner[k]].pc == Done(Answer(a.status, JsonBody(a.value)), Handled))
  }

  ghost predicate ReqBound(s: Sys, r: ReqId) {
    r in s.reqs && s.reqs[r].key.Some? && Bound(s.reqs[r].pc) ==>
      var k := s.reqs[r].key.value;
      k in s.keys && k in s.hist.owner && s.hist.owner[k] == r
      && s.keys[k].user == s.reqs[r].user && s.keys[k].hash == s.reqs[r].body
  }

  ghost predicate KeySpent(s: Sys, k: Key) {
    ClientKey(k) in s.prov.byKey ==>
      k in s.keys && k in s.hist.owner && s.hist.owner[k] in s.reqs && PostCharge(s.reqs[s.hist.owner[k]].pc)
  }

  ghost predicate LogOwned(s: Sys, i: nat) {
    i < |s.logs| ==>
      s.logs[i].req in s.reqs && s.reqs[s.logs[i].req].call.Cancellation? && PostCancel(s.reqs[s.logs[i].req].pc)
  }

  ghost predicate LogsDistinct(s: Sys) {
    forall i, j | 0 <= i < j < |s.logs| :: s.logs[i].req != s.logs[j].req
  }

  ghost predicate KeyInv(s: Sys) {
    && (forall k :: KeyOwned(s, k))
    && (forall r :: ReqBound(s, r))
    && (forall k :: KeySpent(s, k))
    && (forall i: nat :: LogOwned(s, i))
    && LogsDistinct(s)
    && (forall r | r in s.reqs :: PcAnswerOk(s.reqs[r].pc))
  }

  // ---------------------------------------------------------------- preservation

  // A request inside its handler moves, and nothing about keys changes.
  ghost predicate InnerMove(s: Sys, s': Sys, r: ReqId) {
    && OnlyPc(s, s', r)
    && Inside(s.reqs[r].pc) && Bound(s'.reqs[r].pc)
    && PcAnswerOk(s'.reqs[r].pc)
    && (PostCharge(s.reqs[r].pc) ==> PostCharge(s'.reqs[r].pc))
    && (PostCancel(s.reqs[r].pc) ==> PostCancel(s'.reqs[r].pc))
  }

  lemma InnerMoveKeeps(s: Sys, s': Sys, r: ReqId)
    requires KeyInv(s) && InnerMove(s, s', r)
    requires s'.keys == s.keys && s'.hist.owner == s.hist.owner
    requires s'.prov.byKey == s.prov.byKey && s'.logs == s.logs
    ensures KeyInv(s')
  {
    forall k ensures KeyOwned(s', k) { assert KeyOwned(s, k); assert ReqBound(s, r); }
    forall q ensures ReqBound(s', q) { assert ReqBound(s, q); }
    forall k ensures KeySpent(s', k) { assert KeySpent(s, k); }
    forall i: nat ensures LogOwned(s', i) { assert LogOwned(s, i); }
  }

  lemma KeyClaim(s: Sys, r: ReqId, c: ClaimAct)
    requires KeyInv(s) && CanClaim(s, r, c)
    ensures KeyInv(DoClaim(s, r, c))
  {
    ClaimFrame(s, r, c);
    hide KeyInv, DoClaim, CanClaim;
    InnerMoveKeeps(s, DoClaim(s, r, c), r);
  }

  lemma KeyRelease(s: Sys, r: ReqId, l: ReleaseAct)
    requires KeyInv(s) && CanRelease(s, r, l)
    ensures KeyInv(DoRelease(s, r, l))
  {
    ReleaseFrame(s, r, l);
    ReleaseHist(s, r, l);
    hide KeyInv, DoRelease, CanRelease;
    InnerMoveKeeps(s, DoRelease(s, r, l), r);
  }

  lemma KeyRefund(s: Sys, r: ReqId, f: RefundAct)
    requires KeyInv(s) && CanRefund(s, r, f)
    ensures KeyInv(DoRefund(s, r, f))
  {
    RefundFrame(s, r, f);
    hide KeyInv, DoRefund, CanRefund;
    InnerMoveKeeps(s, DoRefund(s, r, f), r);
  }

  lemma KeyPay(s: Sys, r: ReqId, y: PayAct)
    requires KeyInv(s) && CanPay(s, r, y)
    ensures KeyInv(DoPay(s, r, y))
  {
    if y.ChargeOk? {
      KeyCharge(s, r);
    } else {
      PayFrame(s, r, y);
      hide KeyInv, DoPay, CanPay;
      InnerMoveKeeps(s, DoPay(s, r, y), r);
    }
  }

  lemma KeyCharge(s: Sys, r: ReqId)
    requires KeyInv(s) && CanPay(s, r, ChargeOk)
    ensures KeyInv(DoPay(s, r, ChargeOk))
  {
    var s' := DoPay(s, r, ChargeOk);
    forall k ensures KeyOwned(s', k) { assert KeyOwned(s, k); }
    forall q ensures ReqBound(s', q) { assert ReqBound(s, q); }
    forall k ensures KeySpent(s', k) { assert KeySpent(s, k) && ReqBound(s, r); }
    forall i: nat ensures LogOwned(s', i) { assert LogOwned(s, i); }
  }

  lemma KeyCancel(s: Sys, r: ReqId, x: CancelAct)
    requires KeyInv(s) && CanCancel(s, r, x)
    ensures KeyInv(DoCancel(s, r, x))
  {
    CancelFrame(s, r, x);
    CancelHist(s, r, x);
    hide KeyInv, DoCancel, CanCancel;
    if x.CancelCommit? {
      KeyCancelCommit(s, r, x.mid);
    } else {
      InnerMoveKeeps(s, DoCancel(s, r, x), r);
    }
  }

  lemma KeyCancelCommit(s: Sys, r: ReqId, mid: MsgId)
    requires KeyInv(s) && CanCancel(s, r, CancelCommit(mid))
    ensures KeyInv(DoCancel(s, r, CancelCommit(mid)))
  {
    hide Outbox.CanQueue, Outbox.DoQueue, FreeRow, CancelEvent;
    var s' := DoCancel(s, r, CancelCommit(mid));
    forall k ensures KeyOwned(s', k) { assert KeyOwned(s, k); }
    forall q ensures ReqBound(s', q) { assert ReqBound(s, q); }
    forall k ensures KeySpent(s', k) { assert KeySpent(s, k); }
    forall i: nat ensures LogOwned(s', i) { assert LogOwned(s, i); }
    forall i: nat | i < |s.logs| ensures s.logs[i].req != r { assert LogOwned(s, i); }
  }

  lemma KeyCrash(s: Sys, r: ReqId)
    requires KeyInv(s) && CanCrash(s, r)
    ensures KeyInv(DoCrash(s, r))
  {
    CrashFrame(s, r);
    var s' := DoCrash(s, r);
    hide DoCrash;
    if Inside(s.reqs[r].pc) {
      InnerMoveKeeps(s, s', r);
    } else {
      forall k ensures KeyOwned(s', k) { assert KeyOwned(s, k); }
      forall q ensures ReqBound(s', q) { assert ReqBound(s, q); }
      forall k ensures KeySpent(s', k) { assert KeySpent(s, k); }
      forall i: nat ensures LogOwned(s', i) { assert LogOwned(s, i); }
    }
  }

  lemma KeyGate(s: Sys, r: ReqId, g: GateAct)
    requires KeyInv(s) && CanGate(s, r, g)
    ensures KeyInv(DoGate(s, r, g))
  {
    hide KeyInv, DoGate;
    match g
    case Reserve => KeyReserve(s, r);
    case Finish(ok) => KeyFinish(s, r, ok);
    case _ => KeyRefuse(s, r, g);
  }

  lemma KeyReserve(s: Sys, r: ReqId)
    requires KeyInv(s) && CanGate(s, r, Reserve)
    ensures KeyInv(DoGate(s, r, Reserve))
  {
    var q := s.reqs[r];
    if q.key.Some? && q.key.value !in s.keys {
      KeyReserveFresh(s, r);
    } else {
      var pc := if q.key.None? then Entry(q.call) else KeyTaken;
      assert DoGate(s, r, Reserve) == Goto(s, r, pc);
      KeyEnter(s, r, pc);
    }
  }

  lemma KeyEnter(s: Sys, r: ReqId, pc: Pc)
    requires KeyInv(s) && r in s.reqs && s.reqs[r].pc.Arrived?
    requires s.reqs[r].key.None? || pc == KeyTaken
    requires pc == Entry(s.reqs[r].call) || pc == KeyTaken
    ensures KeyInv(Goto(s, r, pc))
  {
    var s' := Goto(s, r, pc);
    forall k ensures KeyOwned(s', k) { assert KeyOwned(s, k); }
    forall q ensures ReqBound(s', q) { assert ReqBound(s, q); }
    forall k ensures KeySpent(s', k) { assert KeySpent(s, k); }
    forall i: nat ensures LogOwned(s', i) { assert LogOwned(s, i); }
  }

  lemma KeyReserveFresh(s: Sys, r: ReqId)
    requires KeyInv(s) && CanGate(s, r, Reserve) && s.reqs[r].key.Some? && s.reqs[r].key.value !in s.keys
    ensures KeyInv(DoGate(s, r, Reserve))
  {
    var q := s.reqs[r];
    var k0 := q.key.value;
    var pc := Entry(q.call);
    var s' := DoGate(s, r, Reserve);
    ReserveFresh(s, r);
    assert pc.Ready? || pc.Attempt?;
    hide DoGate;
    forall k ensures KeyOwned(s', k) { assert KeyOwned(s, k); }
    forall q ensures ReqBound(s', q) { assert ReqBound(s, q); }
    forall k ensures KeySpent(s', k) { assert KeySpent(s, k); }
    forall i: nat ensures LogOwned(s', i) { assert LogOwned(s, i); }
  }

  lemma KeyFinish(s: Sys, r: ReqId, ok: bool)
    requires KeyInv(s) && CanGate(s, r, Finish(ok))
    ensures KeyInv(DoGate(s, r, Finish(ok)))
  {
    hide GateAnswer, LoadKey;
    var s' := DoGate(s, r, Finish(ok));
    assert ReqBound(s, r);
    forall k ensures KeyOwned(s', k) { assert KeyOwned(s, k); }
    forall q ensures ReqBound(s', q) { assert ReqBound(s, q); }
    forall k ensures KeySpent(s', k) { assert KeySpent(s, k); }
    forall i: nat ensures LogOwned(s', i) { assert LogOwned(s, i); }
  }

  lemma KeyRefuse(s: Sys, r: ReqId, g: GateAct)
    requires KeyInv(s) && CanGate(s, r, g) && (g.ReserveErr? || g.Load? || g.LoadErr?)
    ensures KeyInv(DoGate(s, r, g))
  {
    GateFrame(s, r, g);
    var s' := DoGate(s, r, g);
    hide DoGate;
    forall k ensures KeyOwned(s', k) { assert KeyOwned(s, k); }
    forall q ensures ReqBound(s', q) { assert ReqBound(s, q); }
    forall k ensures KeySpent(s', k) { assert KeySpent(s, k); }
    forall i: nat ensures LogOwned(s', i) { assert LogOwned(s, i); }
  }

  lemma KeyArrive(s: Sys, step: Step)
    requires KeyInv(s) && step.Arrive? && step.r !in s.reqs
    ensures KeyInv(s.(reqs := s.reqs[step.r := Req(step.user, step.call, step.key, step.body, Arrived)]))
  {
    var s' := s.(reqs := s.reqs[step.r := Req(step.user, step.call, step.key, step.body, Arrived)]);
    forall k ensures KeyOwned(s', k) { assert KeyOwned(s, k); }
    forall q ensures ReqBound(s', q) { assert ReqBound(s, q); }
    forall k ensures KeySpent(s', k) { assert KeySpent(s, k); }
    forall i: nat ensures LogOwned(s', i) { assert LogOwned(s, i); }
  }

  lemma KeySame(s: Sys, s': Sys)
    requires KeyInv(s)
    requires s'.reqs == s.reqs && s'.keys == s.keys && s'.logs == s.logs && s'.prov == s.prov
    requires s'.hist.owner == s.hist.owner
    ensures KeyInv(s')
  {
    forall k ensures KeyOwned(s', k) { assert KeyOwned(s, k); }
    forall q ensures ReqBound(s', q) { assert ReqBound(s, q); }
    forall k ensures KeySpent(s', k) { assert KeySpent(s, k); }
    forall i: nat ensures LogOwned(s', i) { assert LogOwned(s, i); }
  }

  lemma KeyAct(s: Sys, r: ReqId, a: Act)
    requires KeyInv(s) && CanAct(s, r, a)
    ensures KeyInv(DoAct(s, r, a))
  {
    hide KeyInv;
    match a
    case Gate(g) => KeyGate(s, r, g);
    case Claim(c) => KeyClaim(s, r, c);
    case Pay(y) => KeyPay(s, r, y);
    case Release(l) => KeyRelease(s, r, l);
    case Cancel(x) => KeyCancel(s, r, x);
    case Refund(f) => KeyRefund(s, r, f);
    case Crash => KeyCrash(s, r);
  }

  lemma KeyKept(s: Sys, step: Step)
    requires KeyInv(s) && Enabled(s, step)
    ensures KeyInv(Apply(s, step))
  {
    hide KeyInv, CanAct, DoAct;
    match step
    case Arrive(_, _, _, _, _) => KeyArrive(s, step);
    case Mint(_, _, _) => KeySame(s, Apply(s, step));
    case Ship(_, _) => KeySame(s, Apply(s, step));
    case Work(_, _) => KeySame(s, Apply(s, step));
    case Do(r, a) => KeyAct(s, r, a);
  }

  lemma KeyInit(s: Sys)
    requires Init(s)
    ensures KeyInv(s)
  {}
}
