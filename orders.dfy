/** Order placement, which is computed locally from the cart. */
module Orders {
  import opened Wrappers
  import opened Catalog
  import opened Client
  import opened Seqs

  const ConfirmedStatus := "confirmed"
  const OrderPlacedMessage := "주문이 완료되었습니다"

  /** An order, without its timestamp id and creation time. */
  datatype Order = Order(items: seq<CartItem>, totalAmount: int, status: string)

  function LineTotal(i: CartItem): int {
    i.product.price * i.quantity
  }

  /** `items.reduce((sum, i) => sum + price * quantity, acc)`: a left fold. */
  function Reduce(acc: int, items: seq<CartItem>): (r: int)
    ensures r == acc + Total(items)
    decreases items
  {
    if items == [] then acc else Reduce(acc + LineTotal(items[0]), items[1..])
  }

  /** The sum of the line totals. */
  function Total(items: seq<CartItem>): int {
    if items == [] then 0 else LineTotal(items[0]) + Total(items[1..])
  }

  lemma {:induction false} TotalAppend(a: seq<CartItem>, b: seq<CartItem>)
    ensures Total(a + b) == Total(a) + Total(b)
  {
    if a == [] {
      assert a + b == b;
    } else {
      assert (a + b)[0] == a[0];
      assert (a + b)[1..] == a[1..] + b;
      TotalAppend(a[1..], b);
    }
  }

  function Selected(ids: seq<int>): CartItem -> bool {
    (i: CartItem) => i.id in ids
  }

  /** `createOrder`: the cart items whose id is listed, their total, and a
      confirmed status, in a success envelope. */
  function CreateOrder(cart: seq<CartItem>, ids: seq<int>): (r: ApiResponse<Order>)
    ensures r.success && r.message == Some(OrderPlacedMessage) && r.data.status == ConfirmedStatus
    ensures r.data.totalAmount == Total(r.data.items)
    ensures forall x :: x in r.data.items <==> x in cart && x.id in ids
  {
    var items := Filter(cart, Selected(ids));
    assert forall x :: x in items <==> x in cart && x.id in ids by {
      forall x ensures x in items <==> x in cart && x.id in ids {
        FilterMembership(cart, Selected(ids), x);
      }
    }
    ApiResponse(Order(items, Reduce(0, items), ConfirmedStatus), true, Some(OrderPlacedMessage))
  }

  /** A listed item appears in the order as often as in the cart, however
      often its id is listed; an unlisted one not at all. */
  lemma OrderCounts(cart: seq<CartItem>, ids: seq<int>, x: CartItem)
    ensures Count(CreateOrder(cart, ids).data.items, x) == if x.id in ids then Count(cart, x) else 0
  {
    FilterCount(cart, Selected(ids), x);
  }

  /** The order keeps the cart's order: ordering from two cart segments is
      ordering from each, concatenated, and the totals add up. */
  lemma OrderKeepsCartOrder(a: seq<CartItem>, b: seq<CartItem>, ids: seq<int>)
    ensures CreateOrder(a + b, ids).data.items == CreateOrder(a, ids).data.items + CreateOrder(b, ids).data.items
    ensures CreateOrder(a + b, ids).data.totalAmount
         == CreateOrder(a, ids).data.totalAmount + CreateOrder(b, ids).data.totalAmount
  {
    FilterAppend(a, b, Selected(ids));
    TotalAppend(CreateOrder(a, ids).data.items, CreateOrder(b, ids).data.items);
  }

  /** Ordering nothing gives an empty order worth 0. */
  lemma EmptySelection(cart: seq<CartItem>)
    ensures CreateOrder(cart, []).data.items == [] && CreateOrder(cart, []).data.totalAmount == 0
  {
  }
}
