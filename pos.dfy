/** The restaurant order form of `POS.tsx` (`OrderForm`): a cart of order
    lines, one per menu product, grown by tapping a product, shrunk by
    removing a line, and sent to the kitchen only when it is not empty. The
    pure cart updates are functions; the form that stores the cart is a class. */
module Pos {

  datatype KitchenStatus = Pending | Preparing | Ready

  datatype OrderLine = OrderLine(id: string, productId: string, name: string,
                                 quantity: int, price: real, status: KitchenStatus)

  /** The part of a menu product the form reads. */
  datatype MenuItem = MenuItem(id: string, name: string, price: real)

  datatype OrderType = Salao | Balcao | Delivery

  /** No two lines of the cart are for the same product. */
  predicate DistinctProducts(cart: seq<OrderLine>)
  {
    forall i, j :: 0 <= i < j < |cart| ==> cart[i].productId != cart[j].productId
  }

  predicate HasProduct(cart: seq<OrderLine>, productId: string)
  {
    exists i :: 0 <= i < |cart| && cart[i].productId == productId
  }

  /** The `map` of an existing product: every line for the product gets one
      more unit, every other line is kept as it is. */
  function Bump(cart: seq<OrderLine>, productId: string): (r: seq<OrderLine>)
    ensures |r| == |cart|
    ensures forall i :: 0 <= i < |cart| && cart[i].productId == productId ==>
              r[i] == cart[i].(quantity := cart[i].quantity + 1)
    ensures forall i :: 0 <= i < |cart| && cart[i].productId != productId ==> r[i] == cart[i]
  {
    if cart == [] then []
    else [if cart[0].productId == productId then cart[0].(quantity := cart[0].quantity + 1) else cart[0]]
         + Bump(cart[1..], productId)
  }

  /** `addToCart`: one more unit of a product already on the order, or a new
      `PENDING` line with quantity 1 and the menu price; `newId` is the
      generated line id. */
  function AddedToCart(cart: seq<OrderLine>, product: MenuItem, newId: string): (r: seq<OrderLine>)
    ensures HasProduct(cart, product.id) ==> |r| == |cart| && r == Bump(cart, product.id)
    ensures !HasProduct(cart, product.id) ==>
              r == cart + [OrderLine(newId, product.id, product.name, 1, product.price, Pending)]
    ensures HasProduct(r, product.id)
  {
    if HasProduct(cart, product.id) then Bump(cart, product.id)
    else
      var r := cart + [OrderLine(newId, product.id, product.name, 1, product.price, Pending)];
      assert r[|cart|].productId == product.id;
      r
  }

  /** The trash button's `filter((_, i) => i !== idx)`: the line at `idx` is
      dropped and the others keep their order; an index past the end removes
      nothing. */
  function RemovedAt(cart: seq<OrderLine>, idx: nat): (r: seq<OrderLine>)
    ensures idx < |cart| ==> |r| == |cart| - 1
    ensures idx >= |cart| ==> r == cart
    ensures forall i :: 0 <= i < idx && i < |r| ==> r[i] == cart[i]
    ensures forall i :: idx <= i < |r| ==> r[i] == cart[i + 1]
  {
    if idx < |cart| then cart[..idx] + cart[idx + 1..] else cart
  }

  function QuantityTotal(cart: seq<OrderLine>): int
  {
    if cart == [] then 0 else cart[0].quantity + QuantityTotal(cart[1..])
  }

  /** The amount a line shows: its price times its quantity. */
  function LineTotal(line: OrderLine): real
  {
    line.price * line.quantity as real
  }

  function CartValue(cart: seq<OrderLine>): real
  {
    if cart == [] then 0.0 else LineTotal(cart[0]) + CartValue(cart[1..])
  }

  function CountOf(cart: seq<OrderLine>, productId: string): nat
  {
    if cart == [] then 0
    else (if cart[0].productId == productId then 1 else 0) + CountOf(cart[1..], productId)
  }

  function PriceOf(cart: seq<OrderLine>, productId: string): real
  {
    if cart == [] then 0.0
    else (if cart[0].productId == productId then cart[0].price else 0.0) + PriceOf(cart[1..], productId)
  }

  lemma {:induction false} BumpTotals(cart: seq<OrderLine>, productId: string)
    ensures QuantityTotal(Bump(cart, productId)) == QuantityTotal(cart) + CountOf(cart, productId)
    ensures CartValue(Bump(cart, productId)) == CartValue(cart) + PriceOf(cart, productId)
  {
    if cart != [] {
      BumpTotals(cart[1..], productId);
      assert Bump(cart, productId)[1..] == Bump(cart[1..], productId);
    }
  }

  /** In a cart with distinct products, a product that is present is on
      exactly one line, and the price summed over its lines is that line's. */
  lemma {:induction false} SingleLine(cart: seq<OrderLine>, productId: string, k: nat)
    requires DistinctProducts(cart)
    requires k < |cart| && cart[k].productId == productId
    ensures CountOf(cart, productId) == 1 && PriceOf(cart, productId) == cart[k].price
  {
    if k == 0 {
      NoLine(cart[1..], productId);
    } else {
      SingleLine(cart[1..], productId, k - 1);
    }
  }

  lemma {:induction false} NoLine(cart: seq<OrderLine>, productId: string)
    requires forall i :: 0 <= i < |cart| ==> cart[i].productId != productId
    ensures CountOf(cart, productId) == 0 && PriceOf(cart, productId) == 0.0
  {
    if cart != [] {
      NoLine(cart[1..], productId);
    }
  }

  lemma {:induction false} TotalsAppend(cart: seq<OrderLine>, line: OrderLine)
    ensures QuantityTotal(cart + [line]) == QuantityTotal(cart) + line.quantity
    ensures CartValue(cart + [line]) == CartValue(cart) + LineTotal(line)
  {
    if cart != [] {
      assert (cart + [line])[1..] == cart[1..] + [line];
      TotalsAppend(cart[1..], line);
    }
  }

  /** Adding a product keeps one line per product, and the order then holds
      exactly one more unit; its value grows by the price of the product's
      line, which is the menu price when the line is new. */
  lemma AddToCartProperties(cart: seq<OrderLine>, product: MenuItem, newId: string)
    requires DistinctProducts(cart)
    ensures DistinctProducts(AddedToCart(cart, product, newId))
    ensures QuantityTotal(AddedToCart(cart, product, newId)) == QuantityTotal(cart) + 1
    ensures !HasProduct(cart, product.id) ==>
              CartValue(AddedToCart(cart, product, newId)) == CartValue(cart) + product.price
    ensures forall k :: 0 <= k < |cart| && cart[k].productId == product.id ==>
              CartValue(AddedToCart(cart, product, newId)) == CartValue(cart) + cart[k].price
  {
    var line := OrderLine(newId, product.id, product.name, 1, product.price, Pending);
    if HasProduct(cart, product.id) {
      var k :| 0 <= k < |cart| && cart[k].productId == product.id;
      SingleLine(cart, product.id, k);
      BumpTotals(cart, product.id);
      forall j | 0 <= j < |cart| && cart[j].productId == product.id
        ensures j == k
      {
      }
    } else {
      TotalsAppend(cart, line);
      assert LineTotal(line) == product.price;
    }
  }

  /** Removing a line takes away exactly that line's units and value. */
  lemma {:induction false} RemoveLineTotals(cart: seq<OrderLine>, idx: nat)
    requires idx < |cart|
    ensures QuantityTotal(RemovedAt(cart, idx)) == QuantityTotal(cart) - cart[idx].quantity
    ensures CartValue(RemovedAt(cart, idx)) == CartValue(cart) - LineTotal(cart[idx])
  {
    if idx == 0 {
      assert RemovedAt(cart, idx) == cart[1..];
    } else {
      RemoveLineTotals(cart[1..], idx - 1);
      assert RemovedAt(cart, idx) == [cart[0]] + RemovedAt(cart[1..], idx - 1);
    }
  }

  /** Removing a line keeps the products distinct. */
  lemma RemoveLineKeepsDistinct(cart: seq<OrderLine>, idx: nat)
    requires DistinctProducts(cart)
    ensures DistinctProducts(RemovedAt(cart, idx))
  {
    var r := RemovedAt(cart, idx);
    forall i, j | 0 <= i < j < |r|
      ensures r[i].productId != r[j].productId
    {
      var i' := if i < idx then i else i + 1;
      var j' := if j < idx then j else j + 1;
      assert r[i] == cart[i'] && r[j] == cart[j'];
    }
  }

  /** The order form: waiter, service type and the cart being built. */
  class OrderForm {
    var waiter: string
    var orderType: OrderType
    var cart: seq<OrderLine>

    ghost predicate Valid()
      reads this`cart
    {
      DistinctProducts(cart)
    }

    /** The form opens with waiter "Admin", table service and an empty cart. */
    constructor ()
      ensures Valid()
      ensures waiter == "Admin" && orderType == Salao && cart == []
    {
      waiter := "Admin";
      orderType := Salao;
      cart := [];
    }

    method AddToCart(product: MenuItem, newId: string)
      requires Valid()
      modifies this`cart
      ensures Valid()
      ensures cart == AddedToCart(old(cart), product, newId)
      ensures QuantityTotal(cart) == QuantityTotal(old(cart)) + 1
    {
      AddToCartProperties(cart, product, newId);
      cart := AddedToCart(cart, product, newId);
    }

    method RemoveLine(idx: nat)
      requires Valid()
      modifies this`cart
      ensures Valid()
      ensures cart == RemovedAt(old(cart), idx)
      ensures idx < |old(cart)| ==> QuantityTotal(cart) == QuantityTotal(old(cart)) - old(cart)[idx].quantity
    {
      if idx < |cart| {
        RemoveLineTotals(cart, idx);
      }
      RemoveLineKeepsDistinct(cart, idx);
      cart := RemovedAt(cart, idx);
    }

    /** The send button is enabled exactly when the cart has a line. */
    function CanSend(): (enabled: bool)
      reads this`cart
      ensures enabled <==> cart != []
    {
      |cart| != 0
    }
  }
}
