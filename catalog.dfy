/** Menu items and the shopping cart. The two cart reducers are written out
    identically in the shell and on the order page; they are defined once here
    and used by both. */
module Catalog {
  import opened Collections

  /** A menu item; prices are whole ETB. */
  datatype Product = Product(
    id: int,
    name: string,
    description: string,
    price: int,
    category: string,
    image: string,
    size: string,
    popular: bool,
    spicy: bool,
    available: bool)

  /** `{...item, quantity}`. */
  datatype CartItem = CartItem(product: Product, quantity: int)

  /** `activeCategory === 'all' ? items : items.filter(i => i.category === activeCategory)`. */
  function CategoryFilter(items: seq<Product>, category: string): seq<Product>
  {
    if category == "all" then items else Filter(items, (p: Product) => p.category == category)
  }

  /** 'all' shows the whole menu; another category shows exactly its items, in menu order. */
  lemma CategoryFilterSpec(items: seq<Product>, category: string)
    ensures category == "all" ==> CategoryFilter(items, category) == items
    ensures category != "all" ==>
      forall p :: p in CategoryFilter(items, category) <==> p in items && p.category == category
    ensures IsSublist(CategoryFilter(items, category), items)
    ensures category != "all" ==>
      forall p :: multiset(CategoryFilter(items, category))[p] == if p.category == category then multiset(items)[p] else 0
  {
    if category == "all" {
      SublistRefl(items);
    } else {
      forall p ensures p in CategoryFilter(items, category) <==> p in items && p.category == category {
        FilterMembership(items, (p: Product) => p.category == category, p);
      }
      FilterIsSublist(items, (p: Product) => p.category == category);
      forall p ensures multiset(CategoryFilter(items, category))[p] ==
                         if p.category == category then multiset(items)[p] else 0 {
        FilterMultiset(items, (p: Product) => p.category == category, p);
      }
    }
  }

  // ---------------------------------------------------------------------------
  // Cart queries

  predicate InCart(cart: seq<CartItem>, id: int)
  {
    exists i :: 0 <= i < |cart| && cart[i].product.id == id
  }

  predicate DistinctIds(cart: seq<CartItem>)
  {
    forall i, j :: 0 <= i < j < |cart| ==> cart[i].product.id != cart[j].product.id
  }

  /** `cartItems.find(i => i.id === id)?.quantity ?? 0`. */
  function ItemQuantity(cart: seq<CartItem>, id: int): int
  {
    if cart == [] then 0
    else if cart[0].product.id == id then cart[0].quantity
    else ItemQuantity(cart[1..], id)
  }

  /** Past a first entry with another id, the id is in the cart iff it is in the rest. */
  lemma InCartTail(cart: seq<CartItem>, id: int)
    requires cart != [] && cart[0].product.id != id
    ensures InCart(cart, id) <==> InCart(cart[1..], id)
  {
    if InCart(cart, id) {
      var i :| 0 <= i < |cart| && cart[i].product.id == id;
      assert cart[1..][i - 1] == cart[i];
    }
    if InCart(cart[1..], id) {
      var i :| 0 <= i < |cart[1..]| && cart[1..][i].product.id == id;
      assert cart[i + 1] == cart[1..][i];
    }
  }

  /** The lookup gives 0 for an id not in the cart, and the quantity of the id's
      first entry otherwise. */
  lemma {:induction false} ItemQuantitySpec(cart: seq<CartItem>, id: int)
    ensures !InCart(cart, id) ==> ItemQuantity(cart, id) == 0
    ensures InCart(cart, id) ==>
      exists i :: 0 <= i < |cart| && cart[i].product.id == id && ItemQuantity(cart, id) == cart[i].quantity
        && forall j :: 0 <= j < i ==> cart[j].product.id != id
  {
    if cart != [] && cart[0].product.id != id {
      InCartTail(cart, id);
      ItemQuantitySpec(cart[1..], id);
      if InCart(cart, id) {
        var i :| 0 <= i < |cart[1..]| && cart[1..][i].product.id == id
                 && ItemQuantity(cart[1..], id) == cart[1..][i].quantity
                 && forall j :: 0 <= j < i ==> cart[1..][j].product.id != id;
        assert cart[i + 1] == cart[1..][i];
        forall j | 0 <= j < i + 1 ensures cart[j].product.id != id {
          if j > 0 { assert cart[j] == cart[1..][j - 1]; }
        }
      }
    }
  }

  /** With one entry per id, the lookup gives that entry's quantity. */
  lemma {:induction false} ItemQuantityOfEntry(cart: seq<CartItem>, k: nat)
    requires DistinctIds(cart)
    requires k < |cart|
    ensures ItemQuantity(cart, cart[k].product.id) == cart[k].quantity
  {
    if k > 0 {
      assert cart[1..][k - 1] == cart[k];
      ItemQuantityOfEntry(cart[1..], k - 1);
    }
  }

  /** `cartItems.reduce((sum, i) => sum + i.price * i.quantity, 0)`. */
  function Subtotal(cart: seq<CartItem>): int
  {
    if cart == [] then 0 else cart[0].product.price * cart[0].quantity + Subtotal(cart[1..])
  }

  /** `cartItems.reduce((sum, i) => sum + i.quantity, 0)`. */
  function ItemCount(cart: seq<CartItem>): int
  {
    if cart == [] then 0 else cart[0].quantity + ItemCount(cart[1..])
  }

  /** The two-line example: 2 x 280 + 1 x 60 = 620 ETB. */
  lemma SubtotalExample(pizza: Product, fries: Product)
    requires pizza.price == 280 && fries.price == 60
    ensures Subtotal([CartItem(pizza, 2), CartItem(fries, 1)]) == 620
  {
    var cart := [CartItem(pizza, 2), CartItem(fries, 1)];
    assert cart[1..] == [CartItem(fries, 1)];
    assert cart[1..][1..] == [];
    assert Subtotal(cart[1..]) == 60 + Subtotal(cart[1..][1..]);
  }

  /** The totals of two carts placed one after the other add up. */
  lemma {:induction false} SubtotalAppend(cart: seq<CartItem>, more: seq<CartItem>)
    ensures Subtotal(cart + more) == Subtotal(cart) + Subtotal(more)
    ensures ItemCount(cart + more) == ItemCount(cart) + ItemCount(more)
  {
    if cart == [] {
      assert cart + more == more;
    } else {
      assert (cart + more)[1..] == cart[1..] + more;
      SubtotalAppend(cart[1..], more);
    }
  }

  /** Positive quantities give a non-negative subtotal for non-negative prices, and a
      positive item count for a non-empty cart. */
  lemma {:induction false} TotalsNonNegative(cart: seq<CartItem>)
    requires forall i :: 0 <= i < |cart| ==> cart[i].quantity >= 1 && cart[i].product.price >= 0
    ensures Subtotal(cart) >= 0
    ensures ItemCount(cart) >= |cart|
  {
    if cart != [] {
      TotalsNonNegative(cart[1..]);
    }
  }

  // ---------------------------------------------------------------------------
  // Cart reducers

  /** `prev.map(i => i.id === id ? {...i, quantity: i.quantity + 1} : i)`. */
  function Increment(cart: seq<CartItem>, id: int): seq<CartItem>
  {
    if cart == [] then []
    else [if cart[0].product.id == id then cart[0].(quantity := cart[0].quantity + 1) else cart[0]]
         + Increment(cart[1..], id)
  }

  /** `addToCart`: one more of an item already in the cart, or the item appended with quantity 1. */
  function AddToCart(cart: seq<CartItem>, item: Product): seq<CartItem>
  {
    if InCart(cart, item.id) then Increment(cart, item.id) else cart + [CartItem(item, 1)]
  }

  /** `prev.map(i => i.id === id ? {...i, quantity} : i)`. */
  function SetQuantity(cart: seq<CartItem>, id: int, quantity: int): seq<CartItem>
  {
    if cart == [] then []
    else [if cart[0].product.id == id then cart[0].(quantity := quantity) else cart[0]]
         + SetQuantity(cart[1..], id, quantity)
  }

  /** `prev.filter(i => i.id !== id)`. */
  function RemoveItem(cart: seq<CartItem>, id: int): seq<CartItem>
  {
    Filter(cart, (c: CartItem) => c.product.id != id)
  }

  /** `updateCartItem`: quantity 0 removes the item, any other quantity replaces it. */
  function UpdateCartItem(cart: seq<CartItem>, id: int, quantity: int): seq<CartItem>
  {
    if quantity == 0 then RemoveItem(cart, id) else SetQuantity(cart, id, quantity)
  }

  lemma {:induction false} IncrementEffect(cart: seq<CartItem>, id: int)
    ensures var r := Increment(cart, id);
      && |r| == |cart|
      && forall i :: 0 <= i < |cart| ==>
           r[i] == if cart[i].product.id == id then cart[i].(quantity := cart[i].quantity + 1) else cart[i]
  {
    if cart != [] {
      IncrementEffect(cart[1..], id);
    }
  }

  lemma {:induction false} SetQuantityEffect(cart: seq<CartItem>, id: int, quantity: int)
    ensures var r := SetQuantity(cart, id, quantity);
      && |r| == |cart|
      && forall i :: 0 <= i < |cart| ==>
           r[i] == if cart[i].product.id == id then cart[i].(quantity := quantity) else cart[i]
  {
    if cart != [] {
      SetQuantityEffect(cart[1..], id, quantity);
    }
  }

  /** Adding an item already in the cart raises its entry by one and leaves the other
      entries alone; a new item is appended with quantity 1. */
  lemma AddToCartEffect(cart: seq<CartItem>, item: Product)
    ensures InCart(cart, item.id) ==>
      var r := AddToCart(cart, item);
      && |r| == |cart|
      && forall i :: 0 <= i < |cart| ==>
           r[i] == if cart[i].product.id == item.id then cart[i].(quantity := cart[i].quantity + 1) else cart[i]
    ensures !InCart(cart, item.id) ==> AddToCart(cart, item) == cart + [CartItem(item, 1)]
  {
    IncrementEffect(cart, item.id);
  }

  /** Ids stay pairwise distinct under both reducers. */
  lemma AddToCartDistinct(cart: seq<CartItem>, item: Product)
    requires DistinctIds(cart)
    ensures DistinctIds(AddToCart(cart, item))
  {
    IncrementEffect(cart, item.id);
  }

  lemma UpdateCartItemDistinct(cart: seq<CartItem>, id: int, quantity: int)
    requires DistinctIds(cart)
    ensures DistinctIds(UpdateCartItem(cart, id, quantity))
  {
    if quantity == 0 {
      RemoveDistinct(cart, id);
    } else {
      SetQuantityEffect(cart, id, quantity);
    }
  }

  lemma {:induction false} RemoveDistinct(cart: seq<CartItem>, id: int)
    requires DistinctIds(cart)
    ensures DistinctIds(RemoveItem(cart, id))
    ensures !InCart(RemoveItem(cart, id), id)
  {
    if cart != [] {
      RemoveDistinct(cart[1..], id);
      var rest := RemoveItem(cart[1..], id);
      if cart[0].product.id != id {
        assert RemoveItem(cart, id) == [cart[0]] + rest;
        forall j | 0 <= j < |rest| ensures rest[j].product.id != cart[0].product.id {
          assert rest[j] in cart[1..];
          var k :| 0 <= k < |cart[1..]| && cart[1..][k] == rest[j];
          assert cart[k + 1] == rest[j];
        }
      }
    }
  }

  /** Quantity 0 removes exactly the entries with that id, keeping the rest in order. */
  lemma UpdateToZeroRemoves(cart: seq<CartItem>, id: int)
    ensures !InCart(UpdateCartItem(cart, id, 0), id)
    ensures forall c :: c in UpdateCartItem(cart, id, 0) <==> c in cart && c.product.id != id
    ensures IsSublist(UpdateCartItem(cart, id, 0), cart)
  {
    forall c ensures c in RemoveItem(cart, id) <==> c in cart && c.product.id != id {
      FilterMembership(cart, (c: CartItem) => c.product.id != id, c);
    }
    FilterIsSublist(cart, (c: CartItem) => c.product.id != id);
  }

  /** A non-zero quantity replaces only that entry's quantity. */
  lemma UpdateNonZeroSets(cart: seq<CartItem>, id: int, quantity: int)
    requires quantity != 0
    ensures var r := UpdateCartItem(cart, id, quantity);
      && |r| == |cart|
      && forall i :: 0 <= i < |cart| ==>
           r[i] == if cart[i].product.id == id then cart[i].(quantity := quantity) else cart[i]
  {
    SetQuantityEffect(cart, id, quantity);
  }

  lemma {:induction false} IncrementQuantity(cart: seq<CartItem>, id: int)
    ensures ItemQuantity(Increment(cart, id), id) == ItemQuantity(cart, id) + (if InCart(cart, id) then 1 else 0)
  {
    if cart != [] {
      assert Increment(cart, id)[1..] == Increment(cart[1..], id);
      if cart[0].product.id == id {
        assert InCart(cart, id);
      } else {
        InCartTail(cart, id);
        IncrementQuantity(cart[1..], id);
      }
    }
  }

  lemma {:induction false} SetQuantityQuantity(cart: seq<CartItem>, id: int, quantity: int)
    ensures ItemQuantity(SetQuantity(cart, id, quantity), id) == if InCart(cart, id) then quantity else 0
  {
    if cart != [] {
      assert SetQuantity(cart, id, quantity)[1..] == SetQuantity(cart[1..], id, quantity);
      if cart[0].product.id == id {
        assert InCart(cart, id);
      } else {
        InCartTail(cart, id);
        SetQuantityQuantity(cart[1..], id, quantity);
      }
    }
  }

  /** After `addToCart` the lookup shows one more; after `updateCartItem(id, q)` it
      shows `q`, or 0 when `q` is 0 or the id was not in the cart. */
  lemma QuantityAfterAdd(cart: seq<CartItem>, item: Product)
    ensures ItemQuantity(AddToCart(cart, item), item.id) == ItemQuantity(cart, item.id) + 1
  {
    if InCart(cart, item.id) {
      IncrementQuantity(cart, item.id);
    } else {
      ItemQuantitySpec(cart, item.id);
      ItemQuantityAppend(cart, CartItem(item, 1));
    }
  }

  lemma {:induction false} ItemQuantityAppend(cart: seq<CartItem>, c: CartItem)
    requires !InCart(cart, c.product.id)
    ensures ItemQuantity(cart + [c], c.product.id) == c.quantity
  {
    if cart == [] {
      assert cart + [c] == [c];
    } else {
      assert cart[0].product.id != c.product.id;
      InCartTail(cart, c.product.id);
      assert (cart + [c])[1..] == cart[1..] + [c];
      ItemQuantityAppend(cart[1..], c);
    }
  }

  lemma QuantityAfterUpdate(cart: seq<CartItem>, id: int, quantity: int)
    ensures ItemQuantity(UpdateCartItem(cart, id, quantity), id) ==
              if quantity == 0 || !InCart(cart, id) then 0 else quantity
  {
    if quantity == 0 {
      UpdateToZeroRemoves(cart, id);
      ItemQuantitySpec(RemoveItem(cart, id), id);
    } else {
      SetQuantityQuantity(cart, id, quantity);
    }
  }

  /** Cart entries with the item's id hold that same menu item, as they do when every
      entry was made by `addToCart` from the one static menu. */
  predicate SameItem(cart: seq<CartItem>, item: Product)
  {
    forall i :: 0 <= i < |cart| && cart[i].product.id == item.id ==> cart[i].product == item
  }

  /** `addToCart` adds the item's price to the subtotal and one to the item count. */
  lemma {:induction false} AddToCartTotals(cart: seq<CartItem>, item: Product)
    requires DistinctIds(cart)
    requires SameItem(cart, item)
    ensures Subtotal(AddToCart(cart, item)) == Subtotal(cart) + item.price
    ensures ItemCount(AddToCart(cart, item)) == ItemCount(cart) + 1
  {
    if InCart(cart, item.id) {
      var i :| 0 <= i < |cart| && cart[i].product.id == item.id;
      IncrementTotals(cart, item.id, i);
    } else {
      SubtotalAppend(cart, [CartItem(item, 1)]);
      assert [CartItem(item, 1)][1..] == [];
    }
  }

  /** Raising the entry found for an id by one adds its price and one to the totals. */
  lemma {:induction false} IncrementTotals(cart: seq<CartItem>, id: int, k: nat)
    requires DistinctIds(cart)
    requires k < |cart| && cart[k].product.id == id
    ensures Subtotal(Increment(cart, id)) == Subtotal(cart) + cart[k].product.price
    ensures ItemCount(Increment(cart, id)) == ItemCount(cart) + 1
    decreases |cart|
  {
    var tail := cart[1..];
    assert Increment(cart, id)[1..] == Increment(tail, id);
    if k == 0 {
      forall j | 0 <= j < |tail| ensures tail[j].product.id != id {
        assert cart[j + 1] == tail[j];
      }
      IncrementAbsent(tail, id);
    } else {
      assert cart[0].product.id != id;
      assert tail[k - 1] == cart[k];
      IncrementTotals(tail, id, k - 1);
    }
  }

  lemma {:induction false} IncrementAbsent(cart: seq<CartItem>, id: int)
    requires forall j :: 0 <= j < |cart| ==> cart[j].product.id != id
    ensures Increment(cart, id) == cart
  {
    if cart != [] {
      IncrementAbsent(cart[1..], id);
    }
  }

  lemma {:induction false} SetQuantityAbsent(cart: seq<CartItem>, id: int, quantity: int)
    requires forall j :: 0 <= j < |cart| ==> cart[j].product.id != id
    ensures SetQuantity(cart, id, quantity) == cart
  {
    if cart != [] {
      SetQuantityAbsent(cart[1..], id, quantity);
    }
  }

  /** Setting the quantity of the entry for an id moves the totals by the change in
      that entry alone. */
  lemma {:induction false} SetQuantityTotals(cart: seq<CartItem>, id: int, quantity: int, k: nat)
    requires DistinctIds(cart)
    requires k < |cart| && cart[k].product.id == id
    ensures Subtotal(SetQuantity(cart, id, quantity)) ==
              Subtotal(cart) - cart[k].product.price * cart[k].quantity + cart[k].product.price * quantity
    ensures ItemCount(SetQuantity(cart, id, quantity)) == ItemCount(cart) - cart[k].quantity + quantity
    decreases |cart|
  {
    var tail := cart[1..];
    assert SetQuantity(cart, id, quantity)[1..] == SetQuantity(tail, id, quantity);
    if k == 0 {
      forall j | 0 <= j < |tail| ensures tail[j].product.id != id {
        assert cart[j + 1] == tail[j];
      }
      SetQuantityAbsent(tail, id, quantity);
    } else {
      assert cart[0].product.id != id;
      assert tail[k - 1] == cart[k];
      SetQuantityTotals(tail, id, quantity, k - 1);
    }
  }

  /** Removing the entry for an id takes exactly its line off the totals. */
  lemma {:induction false} RemoveTotals(cart: seq<CartItem>, id: int, k: nat)
    requires DistinctIds(cart)
    requires k < |cart| && cart[k].product.id == id
    ensures Subtotal(RemoveItem(cart, id)) == Subtotal(cart) - cart[k].product.price * cart[k].quantity
    ensures ItemCount(RemoveItem(cart, id)) == ItemCount(cart) - cart[k].quantity
    decreases |cart|
  {
    var tail := cart[1..];
    if k == 0 {
      forall j | 0 <= j < |tail| ensures tail[j].product.id != id {
        assert cart[j + 1] == tail[j];
      }
      FilterKeepsAll(tail, (c: CartItem) => c.product.id != id);
      assert RemoveItem(cart, id) == tail;
    } else {
      assert cart[0].product.id != id;
      assert tail[k - 1] == cart[k];
      RemoveTotals(tail, id, k - 1);
      assert RemoveItem(cart, id) == [cart[0]] + RemoveItem(tail, id);
      assert ([cart[0]] + RemoveItem(tail, id))[1..] == RemoveItem(tail, id);
    }
  }

  /** Every entry holds at least one of its item. */
  predicate PositiveQuantities(cart: seq<CartItem>)
  {
    forall i :: 0 <= i < |cart| ==> cart[i].quantity >= 1
  }

  /** The reducers keep every entry positive, as long as `updateCartItem` is not asked
      for a negative quantity: the minus controls ask for one less, and one less than 1
      removes the entry. */
  lemma PositiveQuantitiesKept(cart: seq<CartItem>, item: Product, id: int, quantity: int)
    requires PositiveQuantities(cart)
    requires quantity >= 0
    ensures PositiveQuantities(AddToCart(cart, item))
    ensures PositiveQuantities(UpdateCartItem(cart, id, quantity))
  {
    IncrementEffect(cart, item.id);
    if quantity != 0 {
      SetQuantityEffect(cart, id, quantity);
    }
  }
}
