/**
 * The shared store every handler reads and updates: one object whose fields
 * are the tables. Each handler is one atomic update of it.
 */
module Storage {
  import opened Models

  class Store {
    var users: seq<User>
    var arrangements: seq<Arrangement>
    var orders: seq<Order>
    var details: seq<OrderDetail>
    var payments: seq<Payment>
    var nextOrderId: int
    var nextDetailId: int

    /** The tables as one value. */
    function Snapshot(): Tables
      reads this
    {
      Tables(users, arrangements, orders, details, payments, nextOrderId, nextDetailId)
    }

    ghost predicate Valid()
      reads this
    {
      TablesValid(Snapshot())
    }

    constructor (t: Tables)
      requires TablesValid(t)
      ensures Valid() && Snapshot() == t
    {
      users, arrangements, orders, details, payments := t.users, t.arrangements, t.orders, t.details, t.payments;
      nextOrderId, nextDetailId := t.nextOrderId, t.nextDetailId;
    }
  }
}
