/** Names and small datatypes shared by every part of the model. */
module Types {

  // UUIDs are names. Only ticket ids are ever compared by order (ORDER BY id).
  type TicketId = nat
  type EventId = nat
  type UserId = nat
  type ReqId = nat
  type PaymentId = nat
  type MsgId = nat
  type RelayId = nat
  type Key = nat
  type Body = nat // a request body, known only through its hash

  datatype Option<+T> = None | Some(value: T)

  function Get<K, V>(m: map<K, V>, k: K): Option<V> {
    if k in m then Some(m[k]) else None
  }

  function Front<T>(s: seq<T>): seq<T>
    requires s != []
  {
    s[..|s| - 1]
  }

  function Last<T>(s: seq<T>): T
    requires s != []
  {
    s[|s| - 1]
  }

  datatype Topic = TicketPurchased | TicketCancelled

  /** An event as it is stored in the outbox payload and sent to the broker. */
  datatype Message =
    | Purchased(mid: MsgId, ticket: TicketId, event: EventId, user: UserId, amount: int)
    | Cancelled(mid: MsgId, ticket: TicketId, event: EventId, user: UserId, reason: string)
  {
    function Topic(): Topic {
      if Purchased? then TicketPurchased else TicketCancelled
    }
  }
}
