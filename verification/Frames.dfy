/** What each family of acts leaves alone, and how it moves the request's program counter. */
module Frames {
  import opened Types
  import opened Payments
  import opened System
  import Outbox

  ghost predicate OnlyPc(s: Sys, s': Sys, r: ReqId) {
    r in s.reqs && r in s'.reqs && s'.reqs == s.reqs[r := s.reqs[r].(pc := s'.reqs[r].pc)]
  }

  predicate Refusal(pc: Pc) {
    pc.Answered? && pc.answer.content.TextBody? && pc.answer.status != 200
  }

  ghost predicate ClaimMoves(pc: Pc, pc': Pc) {
    match pc
    case Ready => pc'.Claiming? || Refusal(pc')
    case Claiming(t, price, _) =>
      (pc'.Claiming? && pc'.t == t && pc'.price == price) || (pc'.Claimed? && pc'.t == t && pc'.amount == price)
      || (Refusal(pc') && pc'.answer.status == 500)
    case _ => false
  }

  lemma ClaimFrame(s: Sys, r: ReqId, c: ClaimAct)
    requires CanClaim(s, r, c)
    ensures OnlyPc(s, DoClaim(s, r, c), r)
    ensures ClaimMoves(s.reqs[r].pc, DoClaim(s, r, c).reqs[r].pc)
    ensures var s' := DoClaim(s, r, c);
      && s'.keys == s.keys && s'.logs == s.logs && s'.prov == s.prov && s'.plock == s.plock
      && s'.hist == s.hist.(claims := s'.hist.claims, held := s'.hist.held, fate := s'.hist.fate)
    ensures var s' := DoClaim(s, r, c);
      !c.ClaimCommit? ==> s'.tickets == s.tickets && s'.payments == s.payments && s'.hist == s.hist && s'.clock == s.clock
  {
    hide IsPick, Candidate, Outbox.CanQueue, Outbox.DoQueue, Rollback, SoldRow, ClaimEvent;
  }

  ghost predicate PayMoves(pc: Pc, pc': Pc) {
    match pc
    case Claimed(t, p, amount) =>
      (pc'.Charged? && pc'.t == t && pc'.p == p && pc'.amount == amount) || (pc'.ChargeFailed? && pc'.t == t && pc'.p == p)
    case Charged(t, p, amount, n) => pc' == Answered(Bill(t, n, amount))
    case _ => false
  }

  lemma PayFrame(s: Sys, r: ReqId, y: PayAct)
    requires CanPay(s, r, y)
    ensures OnlyPc(s, DoPay(s, r, y), r)
    ensures PayMoves(s.reqs[r].pc, DoPay(s, r, y).reqs[r].pc)
    ensures var s' := DoPay(s, r, y);
      s' == s.(reqs := s'.reqs, payments := s'.payments, prov := s'.prov, hist := s'.hist)
    ensures !y.ChargeOk? ==> DoPay(s, r, y).prov == s.prov && DoPay(s, r, y).hist == s.hist
    ensures !y.Settle? ==> DoPay(s, r, y).payments == s.payments
    ensures y.ChargeOk? ==>
              DoPay(s, r, y).hist == s.hist.(paid := DoPay(s, r, y).hist.paid, payer := DoPay(s, r, y).hist.payer)
  {
    hide Charging, Bill;
  }

  ghost predicate ReleaseMoves(pc: Pc, pc': Pc) {
    && (pc.ChargeFailed? || pc.Releasing?)
    && (pc' == Answered(Denial(pc.e)) || (pc'.Releasing? && pc'.t == pc.t && pc'.p == pc.p && pc'.e == pc.e))
  }

  lemma ReleaseFrame(s: Sys, r: ReqId, l: ReleaseAct)
    requires CanRelease(s, r, l)
    ensures OnlyPc(s, DoRelease(s, r, l), r)
    ensures ReleaseMoves(s.reqs[r].pc, DoRelease(s, r, l).reqs[r].pc)
    ensures var s' := DoRelease(s, r, l);
      && s'.keys == s.keys && s'.logs == s.logs && s'.prov == s.prov && s'.box == s.box && s'.clock == s.clock
  {
    hide FreeRow, Freed, Denial, MatchesRelease, Count, DoRelease, CanRelease;
    ReleasePc(s, r, l);
    ReleaseRest(s, r, l);
  }

  lemma ReleasePc(s: Sys, r: ReqId, l: ReleaseAct)
    requires CanRelease(s, r, l)
    ensures OnlyPc(s, DoRelease(s, r, l), r)
    ensures ReleaseMoves(s.reqs[r].pc, DoRelease(s, r, l).reqs[r].pc)
  {
    hide FreeRow, Freed, Denial, MatchesRelease, Count;
  }

  lemma ReleaseRest(s: Sys, r: ReqId, l: ReleaseAct)
    requires CanRelease(s, r, l)
    ensures var s' := DoRelease(s, r, l);
      && s'.keys == s.keys && s'.logs == s.logs && s'.prov == s.prov && s'.box == s.box && s'.clock == s.clock
  {
    hide FreeRow, Freed, Denial, MatchesRelease, Count;
  }

  lemma ReleaseQuiet(s: Sys, r: ReqId, l: ReleaseAct)
    requires CanRelease(s, r, l) && !l.ReleaseCommit?
    ensures var s' := DoRelease(s, r, l); s'.tickets == s.tickets && s'.payments == s.payments && s'.hist == s.hist
  {
    hide FreeRow, Freed, Denial, MatchesRelease, Count;
  }

  lemma FreedFrame(h: Hist, t: TicketId, p: PaymentId)
    ensures Freed(h, t, p) == h.(held := Freed(h, t, p).held, frees := Freed(h, t, p).frees, fate := Freed(h, t, p).fate)
  {}

  lemma ReleaseHist(s: Sys, r: ReqId, l: ReleaseAct)
    requires CanRelease(s, r, l)
    ensures var h := DoRelease(s, r, l).hist; h == s.hist.(held := h.held, frees := h.frees, fate := h.fate)
  {
    hide FreeRow, Denial, MatchesRelease, Freed;
    if l.ReleaseCommit? {
      FreedFrame(s.hist, s.reqs[r].pc.t, s.reqs[r].pc.p);
    } else {
      ReleaseQuiet(s, r, l);
    }
  }

  ghost predicate CancelMoves(pc: Pc, pc': Pc) {
    && InAttempt(pc)
    && (InAttempt(pc') || Refusal(pc') || pc'.Refunding? || pc' == Answered(Answer(200, JsonBody(CancelBody(None)))))
  }

  lemma RollbackFrame(s: Sys, r: ReqId)
    requires r in s.reqs && s.reqs[r].call.Cancellation?
    ensures var s' := CancelRollback(s, r); s' == s.(tlock := s'.tlock, box := s'.box)
  {
    hide Rollback, OpenId;
  }

  lemma ReadFrame(s: Sys, r: ReqId)
    requires CanCancel(s, r, CancelRead)
    ensures var pc := AfterRead(s, s.reqs[r]);
      && DoCancel(s, r, CancelRead) == Goto(s, r, pc)
      && (Refusal(pc) || (pc.Snapped? && pc.n == s.reqs[r].pc.n && pc.captured == s.reqs[r].pc.captured))
  {
    hide TakeSnapshot, CancelRollback, Capture, CalledOffBy, FreeRow, CancelEvent, Outbox.CanQueue, Outbox.DoQueue;
  }

  lemma CancelFrame(s: Sys, r: ReqId, x: CancelAct)
    requires CanCancel(s, r, x)
    ensures OnlyPc(s, DoCancel(s, r, x), r)
    ensures CancelMoves(s.reqs[r].pc, DoCancel(s, r, x).reqs[r].pc)
    ensures var s' := DoCancel(s, r, x);
      && s'.keys == s.keys && s'.prov == s.prov && s'.plock == s.plock && s'.payments == s.payments && s'.clock == s.clock
    ensures !x.CancelCommit? ==> var s' := DoCancel(s, r, x);
      && s'.tickets == s.tickets && s'.logs == s.logs && s'.hist == s.hist
      && !s'.reqs[r].pc.Refunding? && (s'.reqs[r].pc.Answered? ==> Refusal(s'.reqs[r].pc))
  {
    hide Outbox.CanQueue, Outbox.DoQueue, TakeSnapshot, Capture, CalledOffBy, CancelEvent, FreeRow, CancelRollback;
    if x.CancelRead? {
      ReadFrame(s, r);
      hide DoCancel, CanCancel;
    } else {
      RollbackFrame(s, r);
    }
  }

  lemma CommitFrame(s: Sys, r: ReqId, mid: MsgId)
    requires CanCancel(s, r, CancelCommit(mid))
    ensures var s' := DoCancel(s, r, CancelCommit(mid));
      && s'.tlock == s.tlock - {s.reqs[r].call.ticket}
      && s'.box == Outbox.DoQueue(s.box, Outbox.CommitRow(s.reqs[r].pc.drawn, CancelEvent(s.reqs[r], mid)))
      && (s'.reqs[r].pc.Refunding? || s'.reqs[r].pc.Answered?)
  {
    hide Outbox.CanQueue, Outbox.DoQueue, CalledOffBy, FreeRow;
  }

  lemma CancelHist(s: Sys, r: ReqId, x: CancelAct)
    requires CanCancel(s, r, x)
    ensures var h := DoCancel(s, r, x).hist; h == s.hist.(held := h.held, fate := h.fate)
  {
    hide Outbox.CanQueue, Outbox.DoQueue, CancelEvent, FreeRow, TakeSnapshot, Rollback;
    if !x.CancelCommit? { CancelFrame(s, r, x); }
  }

  ghost predicate RefundMoves(pc: Pc, pc': Pc) {
    && (pc.Refunding? || pc.Marking?)
    && (pc.Refunding? && pc'.Marking? ==> pc'.found == pc.found)
    && (pc'.Marking? ==> pc.Refunding?)
    && (pc'.Marking? || (pc'.Answered? && pc'.answer.status == 200 && pc'.answer.content.JsonBody?))
  }

  lemma RefundFrame(s: Sys, r: ReqId, f: RefundAct)
    requires CanRefund(s, r, f)
    ensures OnlyPc(s, DoRefund(s, r, f), r)
    ensures RefundMoves(s.reqs[r].pc, DoRefund(s, r, f).reqs[r].pc)
    ensures var s' := DoRefund(s, r, f);
      s' == s.(reqs := s'.reqs, payments := s'.payments, prov := s'.prov)
    ensures DoRefund(s, r, f).prov.byKey == s.prov.byKey && DoRefund(s, r, f).prov.made == s.prov.made
    ensures !f.RefundMark? ==> DoRefund(s, r, f).payments == s.payments
    ensures !f.RefundOk? ==> DoRefund(s, r, f).prov == s.prov
  {
    hide MarkRefunded;
  }

  lemma CrashFrame(s: Sys, r: ReqId)
    requires CanCrash(s, r)
    ensures OnlyPc(s, DoCrash(s, r), r)
    ensures DoCrash(s, r).reqs[r].pc == Crashed(Inside(s.reqs[r].pc))
    ensures var s' := DoCrash(s, r);
      s' == s.(reqs := s'.reqs, tlock := s'.tlock, plock := s'.plock, box := s'.box)
  {
    hide Rollback;
  }

  ghost predicate GateMoves(q: Req, g: GateAct, pc': Pc) {
    match g
    case Reserve => q.pc.Arrived? && (pc' == Entry(q.call) || (q.key.Some? && pc' == KeyTaken))
    case ReserveErr => q.pc.Arrived? && pc'.Done? && pc'.via.Refused?
    case Load => q.pc.KeyTaken? && pc'.Done? && !pc'.via.Handled?
    case LoadErr => q.pc.KeyTaken? && pc'.Done? && pc'.via.Refused?
    case Finish(_) => q.pc.Answered? && pc' == Done(q.pc.answer, Handled)
  }

  lemma GateNotHandled(row: Option<KeyRow>, hash: Body)
    ensures !GateAnswer(row, hash).1.Handled?
  {}

  lemma GateFrame(s: Sys, r: ReqId, g: GateAct)
    requires CanGate(s, r, g)
    ensures OnlyPc(s, DoGate(s, r, g), r)
    ensures GateMoves(s.reqs[r], g, DoGate(s, r, g).reqs[r].pc)
    ensures var s' := DoGate(s, r, g);
      s' == s.(reqs := s'.reqs, keys := s'.keys, hist := s.hist.(owner := s'.hist.owner))
    ensures !g.Reserve? && !g.Finish? ==> DoGate(s, r, g).keys == s.keys
    ensures !g.Reserve? ==> DoGate(s, r, g).hist == s.hist
  {
    hide KeyWrite, LoadKey, Entry, GateAnswer, DoGate, CanGate;
    GatePc(s, r, g);
    GateRest(s, r, g);
  }

  lemma GatePc(s: Sys, r: ReqId, g: GateAct)
    requires CanGate(s, r, g)
    ensures OnlyPc(s, DoGate(s, r, g), r)
    ensures GateMoves(s.reqs[r], g, DoGate(s, r, g).reqs[r].pc)
  {
    hide KeyWrite, LoadKey, Entry, GateAnswer;
    forall row, hash ensures !GateAnswer(row, hash).1.Handled? { GateNotHandled(row, hash); }
  }

  lemma GateRest(s: Sys, r: ReqId, g: GateAct)
    requires CanGate(s, r, g)
    ensures var s' := DoGate(s, r, g);
      s' == s.(reqs := s'.reqs, keys := s'.keys, hist := s.hist.(owner := s'.hist.owner))
    ensures !g.Reserve? && !g.Finish? ==> DoGate(s, r, g).keys == s.keys
    ensures !g.Reserve? ==> DoGate(s, r, g).hist == s.hist
  {
    hide DoGate;
    match g {
      case Reserve => ReserveRest(s, r);
      case Finish(ok) => FinishRest(s, r, ok);
      case _ => RefuseRest(s, r, g);
    }
  }

  lemma ReserveRest(s: Sys, r: ReqId)
    requires CanGate(s, r, Reserve)
    ensures var s' := DoGate(s, r, Reserve);
      s' == s.(reqs := s'.reqs, keys := s'.keys, hist := s.hist.(owner := s'.hist.owner))
  {
    hide Entry;
    if s.reqs[r].key.Some? && s.reqs[r].key.value !in s.keys {
      ReserveFresh(s, r);
      hide DoGate, CanGate;
    } else {
      assert s.hist.(owner := s.hist.owner) == s.hist;
    }
  }

  lemma ReserveFresh(s: Sys, r: ReqId)
    requires CanGate(s, r, Reserve) && s.reqs[r].key.Some? && s.reqs[r].key.value !in s.keys
    ensures var q, k := s.reqs[r], s.reqs[r].key.value;
      DoGate(s, r, Reserve) == s.(reqs := s.reqs[r := q.(pc := Entry(q.call))], keys := s.keys[k := KeyRow(q.user, q.body, None)],
                                  hist := s.hist.(owner := s.hist.owner[k := r]))
  {
    hide Entry;
  }

  lemma FinishRest(s: Sys, r: ReqId, ok: bool)
    requires CanGate(s, r, Finish(ok))
    ensures var s' := DoGate(s, r, Finish(ok)); s' == s.(reqs := s'.reqs, keys := s'.keys)
  {
    hide KeyWrite;
  }

  lemma RefuseRest(s: Sys, r: ReqId, g: GateAct)
    requires CanGate(s, r, g) && !g.Reserve? && !g.Finish?
    ensures var s' := DoGate(s, r, g); s' == s.(reqs := s'.reqs)
  {
    hide LoadKey, GateAnswer, AfterLoad;
  }

  // ---------------------------------------------------------------- what the two commits leave

  lemma SaleCommitted(s: Sys, r: ReqId, mid: MsgId)
    requires CanClaim(s, r, ClaimCommit(mid))
    ensures var pc, q, s' := s.reqs[r].pc, s.reqs[r], DoClaim(s, r, ClaimCommit(mid));
      && s'.reqs == s.reqs[r := q.(pc := Claimed(pc.t, s.clock, pc.price))]
      && s'.tickets == s.tickets[pc.t := SoldRow(s.tickets[pc.t], pc.t, q.user, s.clock)] && s'.tlock == s.tlock - {pc.t}
      && s'.payments == s.payments[s.clock := Payment(pc.t, q.user, Provisional(s.clock), pc.price, Pending, None, s.clock)]
      && s'.box.rows == s.box.rows[pc.oid.value := Outbox.Row(Purchased(mid, pc.t, q.call.event, q.user, pc.price), false, 0)]
      && s'.box.next == s.box.next && s'.box.home == s.box.home[mid := pc.oid.value]
      && s'.clock == s.clock + 1 && s'.keys == s.keys && s'.logs == s.logs && s'.prov == s.prov && s'.plock == s.plock
      && s'.box.open == s.box.open - {pc.oid.value}
      && s'.hist == s.hist.(claims := s.hist.claims[s.clock := r], held := s.hist.held[pc.t := s.clock],
                            fate := s.hist.fate[s.clock := Holding])
  {}

  lemma CancelCommitted(s: Sys, r: ReqId, mid: MsgId)
    requires CanCancel(s, r, CancelCommit(mid))
    ensures var pc, q, s' := s.reqs[r].pc, s.reqs[r], DoCancel(s, r, CancelCommit(mid));
      && s'.reqs == s.reqs[r := q.(pc := if pc.captured.Some? then System.Refunding(pc.captured.value)
                                         else Answered(Answer(200, JsonBody(CancelBody(None)))))]
      && s'.tickets == s.tickets[q.call.ticket := FreeRow(s.tickets[q.call.ticket])]
      && s'.tlock == s.tlock - {q.call.ticket}
      && s'.logs == s.logs + [CancelLog(q.call.ticket, q.user, pc.snap.row.event, q.call.reason, r)]
      && s'.box.rows == s.box.rows[pc.drawn :=
           Outbox.Row(Cancelled(mid, q.call.ticket, pc.snap.row.event, q.user, q.call.reason), false, 0)]
      && s'.box.next == s.box.next && s'.box.home == s.box.home[mid := pc.drawn]
      && s'.payments == s.payments && s'.clock == s.clock && s'.keys == s.keys && s'.prov == s.prov && s'.plock == s.plock
      && s'.box.open == s.box.open - {pc.drawn} && s'.hist == CalledOffBy(s.hist, q.call.ticket)
  {
    hide CalledOffBy;
  }

  // ---------------------------------------------------------------- acts that move no row and no money

  predicate Major(a: Act) {
    match a
    case Claim(c) => c.ClaimCommit?
    case Pay(y) => y.ChargeOk? || y.Settle?
    case Release(l) => l.ReleaseCommit?
    case Cancel(x) => x.CancelCommit?
    case Refund(f) => f.RefundOk? || f.RefundMark?
    case _ => false
  }

  ghost predicate SameBooks(s: Sys, s': Sys) {
    && s'.tickets == s.tickets && s'.payments == s.payments && s'.prov == s.prov && s'.clock == s.clock
    && s'.logs == s.logs && s'.hist == s.hist.(owner := s'.hist.owner)
  }

  ghost predicate Tame(s: Sys, s': Sys, r: ReqId) {
    OnlyPc(s, s', r) && SameBooks(s, s')
  }

  lemma TameAct(s: Sys, r: ReqId, a: Act)
    requires CanAct(s, r, a) && !Major(a)
    ensures Tame(s, DoAct(s, r, a), r)
  {
    hide DoGate, DoClaim, DoPay, DoRelease, DoCancel, DoRefund, DoCrash;
    hide CanGate, CanClaim, CanPay, CanRelease, CanCancel, CanRefund, CanCrash;
    match a
    case Gate(g) => GateFrame(s, r, g);
    case Claim(c) => ClaimFrame(s, r, c);
    case Pay(y) => PayFrame(s, r, y);
    case Release(l) => ReleaseFrame(s, r, l); ReleaseQuiet(s, r, l);
    case Cancel(x) => CancelFrame(s, r, x);
    case Refund(f) => RefundFrame(s, r, f);
    case Crash => CrashFrame(s, r);
  }

  // An act moves its own request only.
  lemma OthersMove(s: Sys, r: ReqId, a: Act)
    requires CanAct(s, r, a)
    ensures OnlyPc(s, DoAct(s, r, a), r)
  {
    hide DoGate, DoClaim, DoPay, DoRelease, DoCancel, DoRefund, DoCrash;
    hide CanGate, CanClaim, CanPay, CanRelease, CanCancel, CanRefund, CanCrash;
    match a
    case Gate(g) => GateFrame(s, r, g);
    case Claim(c) => ClaimFrame(s, r, c);
    case Pay(y) => PayFrame(s, r, y);
    case Release(l) => ReleaseFrame(s, r, l);
    case Cancel(x) => CancelFrame(s, r, x);
    case Refund(f) => RefundFrame(s, r, f);
    case Crash => CrashFrame(s, r);
  }

  // ---------------------------------------------------------------- the log

  lemma LogsStep(s: Sys, step: Step)
    requires Enabled(s, step)
    ensures s.logs <= Apply(s, step).logs
  {
    hide DoGate, DoClaim, DoPay, DoRelease, DoRefund, DoCrash, CanGate, CanClaim, CanPay, CanRelease, CanRefund, CanCrash;
    hide Outbox.DoRelay, Outbox.DoWork, Outbox.CanRelay, Outbox.CanWork, CanCancel, DoCancel;
    if step.Do? {
      var r := step.r;
      match step.a
      case Gate(g) => GateFrame(s, r, g);
      case Claim(c) => ClaimFrame(s, r, c);
      case Pay(y) => PayFrame(s, r, y);
      case Release(l) => ReleaseFrame(s, r, l);
      case Cancel(x) => LogsCancel(s, r, x);
      case Refund(f) => RefundFrame(s, r, f);
      case Crash => CrashFrame(s, r);
    }
  }

  lemma LogsCancel(s: Sys, r: ReqId, x: CancelAct)
    requires CanCancel(s, r, x)
    ensures s.logs <= DoCancel(s, r, x).logs
  {
    if x.CancelCommit? { CancelCommitted(s, r, x.mid); }
    CancelFrame(s, r, x);
    hide DoCancel, CancelMoves;
  }
}
