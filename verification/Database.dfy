/** The tables as the stores see them: each statement of the payment and idempotency stores. */
module Store {
  import opened Types
  import opened Payments
  import opened System
  import Outbox

  datatype Role = Attendee | EventOrganizer | Admin

  datatype Event = Event(organizer: UserId, startTime: nat)

  /** MayMintTickets: an admin, or an organiser who owns the event. */
  predicate MayMint(users: map<UserId, Role>, events: map<EventId, Event>, user: UserId, event: EventId) {
    user in users
    && (users[user].Admin? || (users[user].EventOrganizer? && event in events && events[event].organizer == user))
  }

  class Database {
    var tickets: map<TicketId, Ticket>
    var tlock: map<TicketId, ReqId>
    var payments: map<PaymentId, Payment>
    var plock: map<PaymentId, ReqId>
    var keys: map<Key, KeyRow>
    var logs: seq<CancelLog>
    var outbox: map<nat, Outbox.Row>
    var nextId: nat // the outbox sequence
    var now: nat    // names payments in claim order
    var uuids: nat  // message ids not used yet are the ones from here on

    /** The rows are those of a state of the machine. */
    ghost predicate Shows(s: Sys)
      reads this
    {
      && tickets == s.tickets && tlock == s.tlock && payments == s.payments && plock == s.plock
      && keys == s.keys && logs == s.logs && outbox == s.box.rows && nextId == s.box.next && now == s.clock
      && forall m | m in s.box.home :: m < uuids
    }

    constructor (tickets: map<TicketId, Ticket>)
      ensures this.tickets == tickets && tlock == map[] && payments == map[] && plock == map[] && keys == map[]
      ensures logs == [] && outbox == map[] && nextId == 0 && now == 0 && uuids == 0
    {
      this.tickets := tickets;
      tlock, payments, plock, keys, logs, outbox, nextId, now, uuids := map[], map[], map[], map[], [], map[], 0, 0, 0;
    }

    // ---------------------------------------------------------------- commits

    /** A claim's writes become visible together, and its row lock goes. */
    method CommitSale(t: TicketId, row: Ticket, p: PaymentId, payment: Payment, id: nat, event: Message)
      modifies this`tickets, this`tlock, this`payments, this`outbox, this`now, this`uuids
      ensures tickets == old(tickets)[t := row] && tlock == old(tlock) - {t}
      ensures payments == old(payments)[p := payment] && outbox == old(outbox)[id := Outbox.Row(event, false, 0)]
      ensures now == old(now) + 1 && uuids == old(uuids) + 1
    {
      tickets, tlock := tickets[t := row], tlock - {t};
      payments, outbox := payments[p := payment], outbox[id := Outbox.Row(event, false, 0)];
      now, uuids := now + 1, uuids + 1;
    }

    /** A cancellation's writes. */
    method CommitCancellation(t: TicketId, row: Ticket, entry: CancelLog, id: nat, event: Message)
      modifies this`tickets, this`tlock, this`logs, this`outbox, this`uuids
      ensures tickets == old(tickets)[t := row] && tlock == old(tlock) - {t} && logs == old(logs) + [entry]
      ensures outbox == old(outbox)[id := Outbox.Row(event, false, 0)] && uuids == old(uuids) + 1
    {
      tickets, tlock, logs := tickets[t := row], tlock - {t}, logs + [entry];
      outbox, uuids := outbox[id := Outbox.Row(event, false, 0)], uuids + 1;
    }

    /** A release's writes: the ticket row if one matched, and the failed payment. */
    method CommitFailure(t: TicketId, row: Option<Ticket>, p: PaymentId, payment: Payment)
      modifies this`tickets, this`tlock, this`payments, this`plock
      ensures tickets == (if row.Some? then old(tickets)[t := row.value] else old(tickets))
      ensures tlock == (if row.Some? then old(tlock) - {t} else old(tlock))
      ensures payments == old(payments)[p := payment] && plock == old(plock) - {p}
    {
      if row.Some? { tickets, tlock := tickets[t := row.value], tlock - {t}; }
      payments, plock := payments[p := payment], plock - {p};
    }

    /** A release rolls back: its locks go. */
    method Unlock(t: Option<TicketId>, p: PaymentId)
      modifies this`tlock, this`plock
      ensures tlock == (if t.Some? then old(tlock) - {t.value} else old(tlock)) && plock == old(plock) - {p}
    {
      if t.Some? { tlock := tlock - {t.value}; }
      plock := plock - {p};
    }

    // ---------------------------------------------------------------- tickets

    /**
     The minting loop: rows inserted so far are the transaction's own until it commits. Statement 0 is BEGIN, then come
     the inserts, then COMMIT; `fails` is the first of them that fails.
     */
    method InsertTickets(event: EventId, price: int, quantity: nat, fails: Option<nat>)
      returns (ok: bool, rows: map<TicketId, Ticket>)
      ensures ok <==> fails.None? || fails.value > quantity + 1
      ensures rows.Keys !! tickets.Keys && (ok ==> |rows.Keys| == quantity)
      ensures forall t | t in rows :: rows[t] == Ticket(event, price, Available, None, None, None, 0)
    {
      rows := map[];
      var row := Ticket(event, price, Available, None, None, None, 0);
      if fails == Some(0) {
        return false, rows;
      }
      for i := 0 to quantity
        invariant |rows.Keys| == i && rows.Keys !! tickets.Keys && (fails.Some? ==> fails.value > i)
        invariant forall t | t in rows :: rows[t] == row
      {
        if fails == Some(i + 1) {
          return false, rows;
        }
        rows := InsertOne(rows, row);
      }
      ok := fails != Some(quantity + 1);
    }

    // One INSERT, under an id the tables and the transaction do not have yet.
    method InsertOne(rows: map<TicketId, Ticket>, row: Ticket) returns (more: map<TicketId, Ticket>)
      requires rows.Keys !! tickets.Keys && forall t | t in rows :: rows[t] == row
      ensures |more.Keys| == |rows.Keys| + 1 && more.Keys !! tickets.Keys && forall t | t in more :: more[t] == row
    {
      var id := Fresh(tickets.Keys + rows.Keys);
      OneMore(rows, id, row);
      more := rows[id := row];
    }

    // ---------------------------------------------------------------- payments

    /** An empty intent id leaves the stored one; the status is set whatever it was. */
    method MarkStatus(p: PaymentId, status: PayStatus, intent: Option<IntentId>)
      modifies this`payments
      ensures payments ==
        if p !in old(payments) then old(payments)
        else old(payments)[p := old(payments)[p].(
               status := status, intent := if intent.Some? then intent.value else old(payments)[p].intent)]
    {
      if p in payments {
        var row := payments[p];
        payments := payments[p := row.(status := status, intent := if intent.Some? then intent.value else row.intent)];
      }
    }

    /** Guarded by status = 'succeeded'; reports whether the row was there to be refunded. */
    method MarkRefunded(p: PaymentId, refund: nat) returns (ok: bool)
      modifies this`payments
      ensures ok <==> p in old(payments) && old(payments)[p].status.Succeeded?
      ensures payments == if ok then old(payments)[p := old(payments)[p].(status := Refunded, refund := Some(refund))]
                          else old(payments)
    {
      ok := p in payments && payments[p].status.Succeeded?;
      if ok { payments := payments[p := payments[p].(status := Refunded, refund := Some(refund))]; }
    }

    // ---------------------------------------------------------------- idempotency keys

    /** The primary key decides: the first insert wins. */
    method InsertKey(key: Key, user: UserId, hash: Body) returns (ok: bool)
      modifies this`keys
      ensures ok <==> key !in old(keys)
      ensures keys == if ok then old(keys)[key := KeyRow(user, hash, None)] else old(keys)
    {
      ok := key !in keys;
      if ok { keys := keys[key := KeyRow(user, hash, None)]; }
    }

    method LoadKey(key: Key, user: UserId) returns (row: Option<KeyRow>)
      ensures row == System.LoadKey(keys, key, user)
      ensures row.Some? <==> key in keys && keys[key].user == user
    {
      if key in keys && keys[key].user == user {
        return Some(keys[key]);
      }
      return None;
    }

    /** The column is JSONB: a body that is not JSON is an error and stores nothing. */
    method CompleteKey(key: Key, status: nat, body: Content) returns (ok: bool)
      modifies this`keys
      ensures ok <==> body.JsonBody?
      ensures keys == if ok && key in old(keys)
                      then old(keys)[key := old(keys)[key].(response := Some(Response(status, body.value)))]
                      else old(keys)
    {
      if !body.JsonBody? {
        return false;
      }
      if key in keys { keys := keys[key := keys[key].(response := Some(Response(status, body.value)))]; }
      return true;
    }

    /** Deletes a reservation that has no response yet. */
    method ReleaseKey(key: Key)
      modifies this`keys
      ensures keys == if key in old(keys) && old(keys)[key].response.None? then old(keys) - {key} else old(keys)
    {
      if key in keys && keys[key].response.None? { keys := keys - {key}; }
    }
  }

  lemma OneMore<K, V>(m: map<K, V>, k: K, v: V)
    requires k !in m
    ensures |m[k := v].Keys| == |m.Keys| + 1 && m[k := v].Keys == m.Keys + {k}
  {
    assert m[k := v].Keys == m.Keys + {k};
  }

  // A name not used so far.
  function Fresh(s: set<nat>): (n: nat)
    ensures n !in s
  {
    if s == {} then 0 else Greatest(s) + 1
  }

  predicate IsGreatest(s: set<nat>, m: nat) {
    m in s && forall x | x in s :: x <= m
  }

  function Greatest(s: set<nat>): (m: nat)
    requires s != {}
    ensures IsGreatest(s, m)
  {
    GreatestExists(s);
    var m :| m in s && IsGreatest(s, m);
    m
  }

  lemma {:induction false} GreatestExists(s: set<nat>)
    requires s != {}
    ensures exists m :: IsGreatest(s, m)
    decreases |s|
  {
    var x :| x in s;
    if s == {x} {
      assert IsGreatest(s, x);
    } else {
      GreatestExists(s - {x});
      var m :| IsGreatest(s - {x}, m);
      var top := if x > m then x else m;
      forall y | y in s ensures y <= top { assert y == x || y in s - {x}; }
      assert IsGreatest(s, top);
    }
  }

  predicate IsLeast(s: set<nat>, m: nat) {
    m in s && forall x | x in s :: m <= x
  }

  function Least(s: set<nat>): (m: nat)
    requires s != {}
    ensures IsLeast(s, m)
  {
    LeastExists(s);
    var m :| m in s && IsLeast(s, m);
    m
  }

  lemma {:induction false} LeastExists(s: set<nat>)
    requires s != {}
    ensures exists m :: IsLeast(s, m)
    decreases |s|
  {
    var x :| x in s;
    if s == {x} {
      assert IsLeast(s, x);
    } else {
      LeastExists(s - {x});
      var m :| IsLeast(s - {x}, m);
      var least := if x < m then x else m;
      forall y | y in s ensures least <= y { assert y == x || y in s - {x}; }
      assert IsLeast(s, least);
    }
  }
}
