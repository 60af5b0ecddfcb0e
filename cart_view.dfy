/** The cart panel: subtotal, the delivery fee waived above 500 ETB, the total,
    and the quantity requests its minus and plus controls send. */
module CartView {
  import opened Collections
  import opened Catalog

  /** Orders above this subtotal are delivered free. */
  const FreeDeliveryAbove: int := 500
  const FlatDeliveryFee: int := 50

  function DeliveryFee(subtotal: int): int
  {
    if subtotal > FreeDeliveryAbove then 0 else FlatDeliveryFee
  }

  function Total(cart: seq<CartItem>): int
  {
    Subtotal(cart) + DeliveryFee(Subtotal(cart))
  }

  /** The fee is waived exactly above 500 ETB, so 500 itself still pays 50; the total
      never falls below the subtotal and exceeds it by the fee alone. */
  lemma DeliveryFeeRule(cart: seq<CartItem>)
    ensures DeliveryFee(Subtotal(cart)) == 0 <==> Subtotal(cart) > 500
    ensures DeliveryFee(Subtotal(cart)) != 0 ==> DeliveryFee(Subtotal(cart)) == 50
    ensures Total(cart) >= Subtotal(cart)
    ensures Total(cart) - Subtotal(cart) in {0, 50}
  {
  }

  lemma BoundaryFee()
    ensures DeliveryFee(500) == 50 && DeliveryFee(501) == 0
  {
  }

  /** The order summary block: shown only for a non-empty cart. */
  datatype Summary = Summary(subtotal: int, deliveryFee: int, total: int, freeDeliveryNote: bool)

  function OrderSummary(cart: seq<CartItem>): Option<Summary>
  {
    if |cart| > 0 then
      var sub := Subtotal(cart);
      var fee := DeliveryFee(sub);
      Some(Summary(sub, fee, sub + fee, fee == 0))
    else None
  }

  /** The summary and its checkout button appear exactly for a non-empty cart; the
      free-delivery note exactly when the fee is waived, that is above 500 ETB. */
  lemma OrderSummarySpec(cart: seq<CartItem>)
    ensures OrderSummary(cart).Some? <==> cart != []
    ensures OrderSummary(cart).Some? ==>
      var s := OrderSummary(cart).value;
      && s.subtotal == Subtotal(cart)
      && s.total == Total(cart)
      && (s.freeDeliveryNote <==> s.deliveryFee == 0)
      && (s.freeDeliveryNote <==> Subtotal(cart) > 500)
  {
  }

  /** `updateCartItem(item.id, q)` as a value. */
  datatype QuantityRequest = QuantityRequest(id: int, quantity: int)

  function MinusRequest(item: CartItem): QuantityRequest
  {
    QuantityRequest(item.product.id, item.quantity - 1)
  }

  function PlusRequest(item: CartItem): QuantityRequest
  {
    QuantityRequest(item.product.id, item.quantity + 1)
  }

  function Apply(cart: seq<CartItem>, r: QuantityRequest): seq<CartItem>
  {
    UpdateCartItem(cart, r.id, r.quantity)
  }

  lemma LineStep(price: int, q: int)
    ensures price * (q + 1) == price * q + price
  {
  }

  /** Plus on an entry raises the item count by one and the subtotal by its price. */
  lemma PlusEffect(cart: seq<CartItem>, k: nat)
    requires DistinctIds(cart)
    requires k < |cart| && cart[k].quantity >= 0
    ensures var after := Apply(cart, PlusRequest(cart[k]));
      && ItemCount(after) == ItemCount(cart) + 1
      && Subtotal(after) == Subtotal(cart) + cart[k].product.price
      && ItemQuantity(after, cart[k].product.id) == cart[k].quantity + 1
  {
    var item := cart[k];
    var r := PlusRequest(item);
    assert r.quantity != 0;
    PlusRaises(cart, k, Apply(cart, r));
    PlusQuantity(cart, k, Apply(cart, r));
  }

  lemma PlusRaises(cart: seq<CartItem>, k: nat, after: seq<CartItem>)
    requires DistinctIds(cart)
    requires k < |cart| && cart[k].quantity >= 0
    requires after == SetQuantity(cart, cart[k].product.id, cart[k].quantity + 1)
    ensures ItemCount(after) == ItemCount(cart) + 1
    ensures Subtotal(after) == Subtotal(cart) + cart[k].product.price
  {
    SetQuantityTotals(cart, cart[k].product.id, cart[k].quantity + 1, k);
    StepUp(Subtotal(cart), cart[k].product.price, cart[k].quantity, Subtotal(after));
  }

  /** Replacing a line of `q` by one of `q + 1` adds one price to a sum. */
  lemma StepUp(sum: int, price: int, q: int, newSum: int)
    requires newSum == sum - price * q + price * (q + 1)
    ensures newSum == sum + price
  {
    LineStep(price, q);
  }

  lemma PlusQuantity(cart: seq<CartItem>, k: nat, after: seq<CartItem>)
    requires k < |cart|
    requires after == SetQuantity(cart, cart[k].product.id, cart[k].quantity + 1)
    ensures ItemQuantity(after, cart[k].product.id) == cart[k].quantity + 1
  {
    assert InCart(cart, cart[k].product.id);
    SetQuantityQuantity(cart, cart[k].product.id, cart[k].quantity + 1);
  }

  /** Minus on an entry of quantity 1 removes it; on a larger quantity it lowers the
      item count by one and the subtotal by its price. */
  lemma MinusEffect(cart: seq<CartItem>, k: nat)
    requires DistinctIds(cart)
    requires k < |cart| && cart[k].quantity >= 1
    ensures var after := Apply(cart, MinusRequest(cart[k]));
      && ItemCount(after) == ItemCount(cart) - 1
      && Subtotal(after) == Subtotal(cart) - cart[k].product.price
      && ItemQuantity(after, cart[k].product.id) == cart[k].quantity - 1
      && (cart[k].quantity == 1 ==> !InCart(after, cart[k].product.id))
  {
    var after := Apply(cart, MinusRequest(cart[k]));
    assert after == UpdateCartItem(cart, cart[k].product.id, cart[k].quantity - 1);
    if cart[k].quantity == 1 {
      MinusRemoves(cart, k);
    } else {
      MinusLowers(cart, k);
    }
  }

  lemma MinusRemoves(cart: seq<CartItem>, k: nat)
    requires DistinctIds(cart)
    requires k < |cart| && cart[k].quantity == 1
    ensures var after := UpdateCartItem(cart, cart[k].product.id, 0);
      && ItemCount(after) == ItemCount(cart) - 1
      && Subtotal(after) == Subtotal(cart) - cart[k].product.price
      && !InCart(after, cart[k].product.id)
      && ItemQuantity(after, cart[k].product.id) == 0
  {
    RemoveTotals(cart, cart[k].product.id, k);
    UpdateToZeroRemoves(cart, cart[k].product.id);
    QuantityAfterUpdate(cart, cart[k].product.id, 0);
  }

  lemma MinusLowers(cart: seq<CartItem>, k: nat)
    requires DistinctIds(cart)
    requires k < |cart| && cart[k].quantity > 1
    ensures var after := UpdateCartItem(cart, cart[k].product.id, cart[k].quantity - 1);
      && ItemCount(after) == ItemCount(cart) - 1
      && Subtotal(after) == Subtotal(cart) - cart[k].product.price
      && ItemQuantity(after, cart[k].product.id) == cart[k].quantity - 1
  {
    var q := cart[k].quantity;
    SetQuantityTotals(cart, cart[k].product.id, q - 1, k);
    LineStep(cart[k].product.price, q - 1);
    assert InCart(cart, cart[k].product.id);
    QuantityAfterUpdate(cart, cart[k].product.id, q - 1);
  }
}
