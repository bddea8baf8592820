/** The `orders` collection as the controllers use it: an order holds the
    cart it was paid for, the gateway's result, the buyer and a status. */
module Orders {
  import opened Common
  import opened UserModel

  type OrderId = nat
  type ProductId = nat

  /** A line of the cart the client posts at checkout; `price` in cents. */
  datatype CartItem = CartItem(product: ProductId, price: int)

  /** The result object the payment gateway hands to the sale callback. */
  datatype PaymentResult = PaymentResult(success: bool, transaction: string)

  /** `status` is None until an admin sets one: the order schema's default
      applies then. */
  datatype Order = Order(
    id: OrderId,
    products: seq<CartItem>,
    payment: PaymentResult,
    buyer: UserId,
    status: Option<string>)

  ghost predicate DistinctIds(orders: seq<Order>) {
    forall i, j :: 0 <= i < j < |orders| ==> orders[i].id != orders[j].id
  }

  /** `findById(orderId)`: the position of the order with that identifier. */
  function FindOrder(orders: seq<Order>, id: OrderId): (r: Option<nat>)
    ensures r.Some? ==> r.value < |orders| && orders[r.value].id == id
    ensures r.None? ==> forall j :: 0 <= j < |orders| ==> orders[j].id != id
  {
    if orders == [] then None
    else if orders[0].id == id then Some(0)
    else match FindOrder(orders[1..], id)
      case None => None
      case Some(k) => Some(k + 1)
  }

  /** The orders whose buyer is `buyer`, kept in the order of `orders`. */
  function OfBuyer(orders: seq<Order>, buyer: UserId): (r: seq<Order>)
    ensures |r| <= |orders|
    ensures forall o :: o in r <==> o in orders && o.buyer == buyer
  {
    if orders == [] then []
    else (if orders[0].buyer == buyer then [orders[0]] else []) + OfBuyer(orders[1..], buyer)
  }

  /** Selecting by buyer keeps store order: the orders of a prefix come
      before those of the rest. */
  lemma {:induction false} OfBuyerAppend(a: seq<Order>, b: seq<Order>, buyer: UserId)
    ensures OfBuyer(a + b, buyer) == OfBuyer(a, buyer) + OfBuyer(b, buyer)
  {
    if a == [] {
      assert a + b == b;
    } else {
      assert (a + b)[0] == a[0];
      assert (a + b)[1..] == a[1..] + b;
      OfBuyerAppend(a[1..], b, buyer);
    }
  }

  /** The `orders` collection in insertion (creation) order. */
  class OrderCollection {
    var orders: seq<Order>

    ghost predicate Valid()
      reads this
    {
      DistinctIds(orders)
    }

    constructor ()
      ensures Valid() && orders == []
    {
      orders := [];
    }
  }
}
