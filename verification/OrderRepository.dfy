/**
 * The order store (the OrderRepository interface and the table behind it):
 * a map from id to order plus the next identity value. Only findById,
 * save and deleteById are used by the controller.
 */
module Repository {
  import opened Wrappers
  import opened Model

  /**
   * The table's invariant: identity values start at 1, every stored key is
   * below the next one to hand out, and each row carries its own key as id.
   */
  ghost predicate TableInvariant(rows: map<int, Order>, nextId: int) {
    && 1 <= nextId
    && forall k :: k in rows ==> k < nextId && rows[k].id == Some(k)
  }

  /** The key a save writes: the order's own id, or the next identity value when it has none. */
  function SaveKey(order: Order, nextId: int): int {
    if order.id.Some? then order.id.value else nextId
  }

  /** The order as a save stores and returns it: the given order with its key as id. */
  function Persisted(order: Order, nextId: int): Order {
    order.SetId(Some(SaveKey(order, nextId)))
  }

  /** The identity counter after a row is written under `key`. */
  function NextIdAfter(nextId: int, key: int): int {
    if key < nextId then nextId else key + 1
  }

  /**
   * After a save, the returned order carries an id; looking that id up
   * gives back the order's name, date, address and total; an order without
   * id receives a key no row had; no other row changes; and the table
   * invariant still holds.
   */
  lemma SaveThenFindById(rows: map<int, Order>, nextId: int, order: Order)
    requires TableInvariant(rows, nextId)
    ensures var saved := Persisted(order, nextId);
            var rows' := rows[saved.id.value := saved];
            && saved.id.Some?
            && saved.id.value in rows'
            && rows'[saved.id.value].customerName == order.customerName
            && rows'[saved.id.value].orderDate == order.orderDate
            && rows'[saved.id.value].shippingAddress == order.shippingAddress
            && rows'[saved.id.value].total == order.total
            && (order.id.None? ==> saved.id.value !in rows)
            && (order.id.Some? ==> saved.id == order.id)
            && (forall k :: k != saved.id.value ==> (k in rows' <==> k in rows))
            && (forall k :: k in rows && k != saved.id.value ==> rows'[k] == rows[k])
            && TableInvariant(rows', NextIdAfter(nextId, saved.id.value))
  {
  }

  /** Saving an order taken from the table writes it back under the same key and leaves the counter alone. */
  lemma SaveStoredOrderOverwrites(rows: map<int, Order>, nextId: int, key: int, order: Order)
    requires TableInvariant(rows, nextId)
    requires key in rows && order.id == rows[key].id
    ensures Persisted(order, nextId) == order
    ensures SaveKey(order, nextId) == key
    ensures NextIdAfter(nextId, key) == nextId
  {
  }

  /** The repository object the controller is given. */
  class OrderRepository {
    var rows: map<int, Order>
    var nextId: int

    ghost predicate Valid()
      reads this
    {
      TableInvariant(rows, nextId)
    }

    /** An empty table; the identity column starts at 1. */
    constructor ()
      ensures Valid()
      ensures rows == map[] && nextId == 1
    {
      rows := map[];
      nextId := 1;
    }

    /** findById: the stored order, or nothing; absence is not an error. */
    method FindById(id: int) returns (found: Option<Order>)
      requires Valid()
      ensures found.Some? <==> id in rows
      ensures found.Some? ==> found.value == rows[id] && found.value.id == Some(id)
    {
      if id in rows {
        found := Some(rows[id]);
      } else {
        found := None;
      }
    }

    /**
     * save: an order without id gets the next identity value; an order
     * with an id is written under that id, replacing what was there.
     */
    method Save(order: Order) returns (saved: Order)
      requires Valid()
      modifies this
      ensures Valid()
      ensures saved == Persisted(order, old(nextId))
      ensures rows == old(rows)[saved.id.value := saved]
      ensures nextId == NextIdAfter(old(nextId), saved.id.value)
    {
      SaveThenFindById(rows, nextId, order);
      var key := SaveKey(order, nextId);
      saved := order.SetId(Some(key));
      rows := rows[key := saved];
      nextId := NextIdAfter(nextId, key);
    }

    /** deleteById: the row with that id is gone; nothing else changes. */
    method DeleteById(id: int)
      requires Valid()
      modifies this
      ensures Valid()
      ensures rows == old(rows) - {id} && nextId == old(nextId)
    {
      DeleteThenFindById(rows, nextId, id);
      rows := rows - {id};
    }
  }

  /**
   * After deleteById, a lookup of that id finds nothing, every other row is
   * as before, and the table invariant still holds.
   */
  lemma DeleteThenFindById(rows: map<int, Order>, nextId: int, id: int)
    requires TableInvariant(rows, nextId)
    ensures TableInvariant(rows - {id}, nextId)
    ensures id !in rows - {id}
    ensures forall k :: k != id ==> (k in rows - {id} <==> k in rows)
    ensures forall k :: k in rows && k != id ==> (rows - {id})[k] == rows[k]
  {
  }
}
