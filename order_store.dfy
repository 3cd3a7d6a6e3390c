/**
 * The order collection as the route sees it: a sequence of records that only
 * ever grows by one insertion at a time. A new record's id is the number of
 * records already stored, so ids stay unique.
 */
module Orders {
  import opened CheckoutTypes

  class OrderStore {
    var orders: seq<Order>

    ghost predicate Valid()
      reads this
    {
      IdsAreIndices(orders)
    }

    constructor ()
      ensures Valid() && orders == []
    {
      orders := [];
    }

    /**
     * `Order.create`: insert one fully formed record under a fresh id and return
     * it. Nothing already stored changes.
     */
    method Create(userId: UserId, address: Address, items: seq<CartItem>, amount: int, paymentType: string)
      returns (order: Order)
      requires Valid()
      modifies this
      ensures Valid()
      ensures order == Order(|old(orders)|, userId, address, items, amount, paymentType)
      ensures forall k :: 0 <= k < |old(orders)| ==> old(orders)[k].id != order.id
      ensures orders == old(orders) + [order]
    {
      order := Order(|orders|, userId, address, items, amount, paymentType);
      orders := orders + [order];
    }
  }
}
