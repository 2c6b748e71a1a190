/** The payment provider: the ledger a customer would see, and FakeProvider, which implements it. */
module Payments {
  import opened Types

  // A client's Idempotency-Key header, or the fallback "payment_" + payment id.
  datatype ProviderKey = ClientKey(key: Key) | PaymentKey(payment: PaymentId)

  // "pending_" + uuid until the processor answers, then "pi_fake_<n>".
  datatype IntentId = Provisional(payment: PaymentId) | Intent(n: nat)

  datatype ChargeRequest = ChargeRequest(amount: int, key: Option<ProviderKey>)

  datatype PaymentIntent = PaymentIntent(n: nat, amount: int)

  // The refund's own key is "refund_" + payment id.
  datatype RefundRequest = RefundRequest(charge: IntentId, amount: int, payment: PaymentId)

  datatype ProviderError = CardDeclined | Unavailable | OtherError

  /**
   Every object issued so far: charges and refunds share one sequence of ids. The refund first issued under
   each refund key, if the provider remembers refund keys; FakeProvider does not, Stripe does.
   */
  datatype Ledger = Ledger(
    issued: nat,
    made: map<nat, PaymentIntent>,
    refunds: map<nat, RefundRequest>,
    byKey: map<ProviderKey, nat>,
    refundKeys: Option<map<PaymentId, nat>>)

  const EMPTY := Ledger(0, map[], map[], map[], None)

  // The same for a provider that remembers refund keys.
  const EMPTY_KEYED := EMPTY.(refundKeys := Some(map[]))

  datatype Call =
    | ChargeCall(charge: ChargeRequest, fault: Option<ProviderError>)
    | RefundCall(refund: RefundRequest, fault: Option<ProviderError>)

  datatype Reply = NoReply(error: ProviderError) | ChargeReply(charge: PaymentIntent) | RefundReply(n: nat)

  predicate Replays(l: Ledger, key: Option<ProviderKey>) {
    key.Some? && key.value in l.byKey && l.byKey[key.value] in l.made
  }

  /** A fresh charge under the next id, or the one already made for the key. */
  function Charging(l: Ledger, req: ChargeRequest): (Ledger, PaymentIntent) {
    if Replays(l, req.key) then (l, l.made[l.byKey[req.key.value]])
    else
      var n := l.issued + 1;
      var c := PaymentIntent(n, req.amount);
      (l.(issued := n, made := l.made[n := c],
          byKey := if req.key.Some? then l.byKey[req.key.value := n] else l.byKey), c)
  }

  predicate ReplaysRefund(l: Ledger, p: PaymentId) {
    l.refundKeys.Some? && p in l.refundKeys.value
  }

  /** A fresh refund, or the one issued under the payment's refund key if the provider remembers it. */
  function Refunding(l: Ledger, req: RefundRequest): (Ledger, nat) {
    if ReplaysRefund(l, req.payment) then (l, l.refundKeys.value[req.payment])
    else
      var n := l.issued + 1;
      (l.(issued := n, refunds := l.refunds[n := req],
          refundKeys := if l.refundKeys.Some? then Some(l.refundKeys.value[req.payment := n]) else None), n)
  }

  /** Charges and refunds are numbered 1, 2, 3, ... without a gap. */
  lemma {:induction false} IdsAreDense(calls: seq<Call>)
    ensures After(EMPTY, calls).issued == |After(EMPTY, calls).made| + |After(EMPTY, calls).refunds|
    decreases |calls|
  {
    if calls != [] {
      IdsAreDense(Front(calls));
      AfterOk(Front(calls));
      NewId(After(EMPTY, Front(calls)), Last(calls));
    }
  }

  lemma NewId(l: Ledger, call: Call)
    requires LedgerOk(l)
    ensures var l' := Serve(l, call).0;
      l'.issued - |l'.made| - |l'.refunds| == l.issued - |l.made| - |l.refunds|
  {
    hide RefundKeysOk;
  }

  function Serve(l: Ledger, call: Call): (Ledger, Reply) {
    if call.fault.Some? then (l, NoReply(call.fault.value))
    else if call.ChargeCall? then
      var (l', c) := Charging(l, call.charge); (l', ChargeReply(c))
    else
      var (l', n) := Refunding(l, call.refund); (l', RefundReply(n))
  }

  ghost predicate LedgerOk(l: Ledger) {
    && (forall n | n in l.made :: 0 < n <= l.issued && l.made[n].n == n && n !in l.refunds)
    && (forall n | n in l.refunds :: 0 < n <= l.issued)
    && (forall k | k in l.byKey :: l.byKey[k] in l.made)
    && (forall k, k' | k in l.byKey && k' in l.byKey && l.byKey[k] == l.byKey[k'] :: k == k')
    && (l.refundKeys.Some? ==> RefundKeysOk(l.refunds, l.refundKeys.value))
  }

  // Each refund is the one remembered under its key.
  ghost predicate RefundKeysOk(refunds: map<nat, RefundRequest>, keys: map<PaymentId, nat>) {
    && (forall p | p in keys :: keys[p] in refunds && refunds[keys[p]].payment == p)
    && (forall n | n in refunds :: refunds[n].payment in keys && keys[refunds[n].payment] == n)
  }

  lemma ServeKeepsOk(l: Ledger, call: Call)
    requires LedgerOk(l)
    ensures LedgerOk(Serve(l, call).0)
  {}

  // ---------------------------------------------------------------- call sequences

  function After(l: Ledger, calls: seq<Call>): Ledger
    decreases |calls|
  {
    if calls == [] then l else Serve(After(l, Front(calls)), Last(calls)).0
  }

  function ReplyAt(l: Ledger, calls: seq<Call>, i: nat): Reply
    requires i < |calls|
  {
    Serve(After(l, calls[..i]), calls[i]).1
  }

  lemma {:induction false} AfterOk(calls: seq<Call>)
    ensures LedgerOk(After(EMPTY, calls)) && After(EMPTY, calls).refundKeys.None?
    decreases |calls|
  {
    if calls != [] {
      AfterOk(Front(calls));
      ServeKeepsOk(After(EMPTY, Front(calls)), Last(calls));
    }
  }

  // What one call leaves for all later ones.
  ghost predicate Keeps(l: Ledger, l': Ledger) {
    && l.issued <= l'.issued
    && (forall n | n in l.made :: n in l'.made && l'.made[n] == l.made[n])
    && (forall n | n in l.refunds :: n in l'.refunds && l'.refunds[n] == l.refunds[n])
    && (forall k | k in l.byKey :: k in l'.byKey && l'.byKey[k] == l.byKey[k])
  }

  lemma ServeKeeps(l: Ledger, call: Call)
    requires LedgerOk(l)
    ensures Keeps(l, Serve(l, call).0)
  {}

  lemma {:induction false} AfterKeeps(calls: seq<Call>, i: nat)
    requires i <= |calls|
    ensures Keeps(After(EMPTY, calls[..i]), After(EMPTY, calls))
    decreases |calls|
  {
    if i == |calls| {
      assert calls[..i] == calls;
    } else {
      assert Front(calls)[..i] == calls[..i];
      AfterKeeps(Front(calls), i);
      AfterOk(Front(calls));
      ServeKeeps(After(EMPTY, Front(calls)), Last(calls));
    }
  }

  /** In every call sequence a keyed charge returns what the first successful charge with that key returned. */
  lemma SameKeySameCharge(calls: seq<Call>, i: nat, j: nat)
    requires i < j < |calls| && calls[i].ChargeCall? && calls[j].ChargeCall?
    requires calls[i].charge.key.Some? && calls[j].charge.key == calls[i].charge.key
    requires ReplyAt(EMPTY, calls, i).ChargeReply? && ReplyAt(EMPTY, calls, j).ChargeReply?
    ensures ReplyAt(EMPTY, calls, j) == ReplyAt(EMPTY, calls, i)
  {
    AfterOk(calls[..i]);
    AfterOk(calls[..i + 1]);
    assert Front(calls[..i + 1]) == calls[..i] && Last(calls[..i + 1]) == calls[i];
    AfterKeeps(calls[..j], i + 1);
    assert calls[..j][..i + 1] == calls[..i + 1];
  }

  function IdOf(r: Reply): nat
    requires !r.NoReply?
  {
    if r.ChargeReply? then r.charge.n else r.n
  }

  /** Two replies carry one id only when both are charges under one key: ids are otherwise all distinct. */
  lemma IdsDistinct(calls: seq<Call>, i: nat, j: nat)
    requires i < j < |calls|
    requires !ReplyAt(EMPTY, calls, i).NoReply? && !ReplyAt(EMPTY, calls, j).NoReply?
    ensures IdOf(ReplyAt(EMPTY, calls, i)) == IdOf(ReplyAt(EMPTY, calls, j)) <==>
            calls[i].ChargeCall? && calls[j].ChargeCall?
            && calls[i].charge.key.Some? && calls[j].charge.key == calls[i].charge.key
  {
    AfterOk(calls[..i]);
    AfterOk(calls[..i + 1]);
    AfterOk(calls[..j]);
    assert Front(calls[..i + 1]) == calls[..i] && Last(calls[..i + 1]) == calls[i];
    AfterKeeps(calls[..j], i + 1);
    assert calls[..j][..i + 1] == calls[..i + 1];
    assert calls[..j][..i] == calls[..i] && calls[..j][i] == calls[i];
    if calls[i].ChargeCall? {
      UnkeyedNotReplayed(calls[..j], i);
    }
    if calls[i].ChargeCall? && calls[j].ChargeCall?
       && calls[i].charge.key.Some? && calls[j].charge.key == calls[i].charge.key {
      SameKeySameCharge(calls, i, j);
    }
  }

  // A charge answered is under the caller's key or under none.
  lemma OwnKey(l: Ledger, call: Call)
    requires LedgerOk(l) && Serve(l, call).1.ChargeReply?
    ensures var l', reply := Serve(l, call).0, Serve(l, call).1;
      call.ChargeCall? && forall k | k in l'.byKey && l'.byKey[k] == reply.charge.n :: call.charge.key == Some(k)
  {
    hide RefundKeysOk, Refunding;
  }

  // No call gives an old charge another key.
  lemma OldKeys(l: Ledger, call: Call)
    requires LedgerOk(l)
    ensures var l' := Serve(l, call).0;
      forall k | k in l'.byKey && l'.byKey[k] in l.made :: k in l.byKey && l.byKey[k] == l'.byKey[k]
  {
    hide RefundKeysOk;
  }

  // The charge made by call i is reachable later only through call i's own key.
  lemma {:induction false} UnkeyedNotReplayed(calls: seq<Call>, i: nat)
    requires i < |calls| && ReplyAt(EMPTY, calls, i).ChargeReply?
    ensures forall k | k in After(EMPTY, calls).byKey && After(EMPTY, calls).byKey[k] == ReplyAt(EMPTY, calls, i).charge.n ::
              calls[i].charge.key == Some(k)
    decreases |calls|
  {
    AfterOk(Front(calls));
    hide LedgerOk, Serve;
    if i == |calls| - 1 {
      assert calls[..i] == Front(calls);
      OwnKey(After(EMPTY, Front(calls)), Last(calls));
    } else {
      OldKeys(After(EMPTY, Front(calls)), Last(calls));
      assert Front(calls)[..i] == calls[..i] && Front(calls)[i] == calls[i];
      UnkeyedNotReplayed(Front(calls), i);
      assert Front(calls[..i + 1]) == calls[..i] && Last(calls[..i + 1]) == calls[i];
      AfterOk(calls[..i]);
      AfterKeeps(Front(calls), i + 1);
      assert Front(calls)[..i + 1] == calls[..i + 1];
    }
  }

  predicate AllKeyed(calls: seq<Call>) {
    forall c | c in calls && c.ChargeCall? :: c.charge.key.Some?
  }

  /** When every request is keyed, the number of keys is the number of charges created. */
  lemma {:induction false} KeysCountCharges(calls: seq<Call>)
    requires AllKeyed(calls)
    ensures |After(EMPTY, calls).byKey| == |After(EMPTY, calls).made|
    decreases |calls|
  {
    if calls != [] {
      KeysCountCharges(Front(calls));
      AfterOk(Front(calls));
      assert Last(calls) in calls;
    }
  }

  /** Every charge request that was answered, replays included. */
  function AnsweredCharges(calls: seq<Call>): seq<ChargeRequest>
    decreases |calls|
  {
    if calls == [] then []
    else AnsweredCharges(Front(calls))
         + if Last(calls).ChargeCall? && Last(calls).fault.None? then [Last(calls).charge] else []
  }

  /** No more charges are created than were answered, whatever the keys. */
  lemma {:induction false} MadeAtMostAnswered(calls: seq<Call>)
    ensures |After(EMPTY, calls).made| <= |AnsweredCharges(calls)|
    decreases |calls|
  {
    if calls != [] { MadeAtMostAnswered(Front(calls)); }
  }

  // ---------------------------------------------------------------- the fake

  /** The charges a table of keys leads to are those of the ledger. */
  ghost predicate Mirrors(byKey: map<ProviderKey, PaymentIntent>, l: Ledger) {
    && byKey.Keys == l.byKey.Keys
    && (forall k | k in byKey :: l.byKey[k] in l.made && byKey[k] == l.made[l.byKey[k]])
  }

  // What a charge call does to the ledger and to such a table.
  lemma ChargeMirrors(l: Ledger, byKey: map<ProviderKey, PaymentIntent>, req: ChargeRequest, fault: Option<ProviderError>)
    requires LedgerOk(l) && Mirrors(byKey, l)
    ensures var (l', reply) := Serve(l, ChargeCall(req, fault));
      && l'.refundKeys == l.refundKeys
      && if fault.Some? then l' == l && reply == NoReply(fault.value)
         else if req.key.Some? && req.key.value in byKey then l' == l && reply == ChargeReply(byKey[req.key.value])
         else
           var c := PaymentIntent(l.issued + 1, req.amount);
           reply == ChargeReply(c) && l'.issued == l.issued + 1
           && Mirrors(if req.key.Some? then byKey[req.key.value := c] else byKey, l')
  {
    hide RefundKeysOk;
  }

  lemma AfterOneMore(calls: seq<Call>, call: Call)
    ensures After(EMPTY, calls + [call]) == Serve(After(EMPTY, calls), call).0
    ensures ReplyAt(EMPTY, calls + [call], |calls|) == Serve(After(EMPTY, calls), call).1
    ensures AnsweredCharges(calls + [call]) ==
            AnsweredCharges(calls) + if call.ChargeCall? && call.fault.None? then [call.charge] else []
  {
    assert Front(calls + [call]) == calls && (calls + [call])[..|calls|] == calls;
  }

  class FakeProvider {
    var chargeErr: Option<ProviderError>
    var refundErr: Option<ProviderError>
    var charges: seq<ChargeRequest>
    var refunds: seq<RefundRequest>
    var byKey: map<ProviderKey, PaymentIntent>
    var seqNo: nat
    ghost var calls: seq<Call>

    ghost function Book(): Ledger
      reads this
    {
      After(EMPTY, calls)
    }

    ghost predicate Valid()
      reads this
    {
      && LedgerOk(Book()) && Book().refundKeys.None?
      && seqNo == Book().issued
      && Mirrors(byKey, Book())
      && charges == AnsweredCharges(calls)
    }

    constructor ()
      ensures Valid() && calls == [] && chargeErr.None? && refundErr.None?
    {
      chargeErr, refundErr, charges, refunds, byKey, seqNo := None, None, [], [], map[], 0;
      calls := [];
    }

    method Charge(req: ChargeRequest) returns (reply: Reply)
      requires Valid()
      modifies this
      ensures Valid() && calls == old(calls) + [ChargeCall(req, chargeErr)]
      ensures reply == ReplyAt(EMPTY, calls, |calls| - 1)
      ensures (Book(), reply) == Serve(old(Book()), ChargeCall(req, chargeErr))
      ensures chargeErr == old(chargeErr) && refundErr == old(refundErr) && refunds == old(refunds)
      ensures chargeErr.Some? ==> reply == NoReply(chargeErr.value) && byKey == old(byKey) && seqNo == old(seqNo)
      ensures chargeErr.None? && req.key.Some? && req.key.value in old(byKey) ==>
                reply == ChargeReply(old(byKey)[req.key.value]) && byKey == old(byKey) && seqNo == old(seqNo)
      ensures chargeErr.None? && (req.key.None? || req.key.value !in old(byKey)) ==>
                && seqNo == old(seqNo) + 1 && reply == ChargeReply(PaymentIntent(seqNo, req.amount))
                && byKey == if req.key.Some? then old(byKey)[req.key.value := reply.charge] else old(byKey)
      ensures charges == if reply.NoReply? then old(charges) else old(charges) + [req]
    {
      ghost var before := Book();
      hide LedgerOk, Mirrors, Serve, After, ReplyAt, AnsweredCharges;
      AfterOneMore(calls, ChargeCall(req, chargeErr));
      ServeKeepsOk(before, ChargeCall(req, chargeErr));
      ChargeMirrors(before, byKey, req, chargeErr);
      calls := calls + [ChargeCall(req, chargeErr)];
      if chargeErr.Some? {
        return NoReply(chargeErr.value);
      }
      if req.key.Some? {
        if req.key.value in byKey {
          charges := charges + [req];
          return ChargeReply(byKey[req.key.value]);
        }
      }
      seqNo := seqNo + 1;
      var charge := PaymentIntent(seqNo, req.amount);
      if req.key.Some? {
        byKey := byKey[req.key.value := charge];
      }
      charges := charges + [req];
      return ChargeReply(charge);
    }

    method Refund(req: RefundRequest) returns (reply: Reply)
      requires Valid()
      modifies this
      ensures Valid() && calls == old(calls) + [RefundCall(req, refundErr)]
      ensures reply == ReplyAt(EMPTY, calls, |calls| - 1)
      ensures (Book(), reply) == Serve(old(Book()), RefundCall(req, refundErr))
      ensures chargeErr == old(chargeErr) && refundErr == old(refundErr) && charges == old(charges) && byKey == old(byKey)
      ensures refundErr.Some? ==> reply == NoReply(refundErr.value) && Book() == old(Book()) && seqNo == old(seqNo)
      ensures refundErr.None? ==>
                && seqNo == old(seqNo) + 1 && reply == RefundReply(seqNo) && seqNo !in old(Book()).refunds
                && Book().refunds == old(Book()).refunds[seqNo := req] && Book().made == old(Book()).made
      ensures refunds == if reply.NoReply? then old(refunds) else old(refunds) + [req]
    {
      ghost var before := calls;
      calls := calls + [RefundCall(req, refundErr)];
      assert Front(calls) == before && calls[..|calls| - 1] == before;
      ServeKeepsOk(After(EMPTY, before), Last(calls));
      if refundErr.Some? {
        return NoReply(refundErr.value);
      }
      seqNo := seqNo + 1;
      refunds := refunds + [req];
      return RefundReply(seqNo);
    }

    /** Every charge attempt that was answered: a replay is listed again but creates nothing. */
    method Charges() returns (out: seq<ChargeRequest>)
      requires Valid()
      ensures out == AnsweredCharges(calls) && |Book().made| <= |out|
    {
      MadeAtMostAnswered(calls);
      out := charges;
    }

    /** The number of PaymentIntents a customer would see, for callers that always send a key. */
    method DistinctCharges() returns (n: nat)
      requires Valid()
      ensures AllKeyed(calls) ==> n == |Book().made|
    {
      n := |byKey|;
      if AllKeyed(calls) {
        KeysCountCharges(calls);
        assert |byKey| == |byKey.Keys| == |Book().byKey.Keys| == |Book().byKey|;
      }
    }
  }
}
