/** The public menu screen: the static list of fifteen items, its category tabs,
    the per-item Add button or counter, and the floating cart button. */
module Menu {
  import opened Collections
  import opened Catalog
  import opened CartView

  function Item(id: int, name: string, description: string, price: int, category: string,
                image: string, popular: bool, spicy: bool): Product
  {
    Product(id, name, description, price, category, image, "", popular, spicy, true)
  }

  const Photo: string := "https://images.pexels.com/photos/"

  /** The menu as the screen declares it. Item 15 repeats item 14 without an image. */
  const MenuItems: seq<Product> := [
    Item(1, "Margherita Pizza", "Fresh mozzarella, tomato sauce, basil, olive oil", 280, "pizza",
         Photo + "315755/pexels-photo-315755.jpeg?auto=compress&cs=tinysrgb&w=400", true, false),
    Item(2, "Pepperoni Pizza", "Spicy pepperoni, mozzarella cheese, tomato sauce", 320, "pizza",
         Photo + "1146760/pexels-photo-1146760.jpeg?auto=compress&cs=tinysrgb&w=400", true, false),
    Item(3, "Ethiopian Special Pizza", "Local spices, berbere sauce, cheese, vegetables", 350, "pizza",
         Photo + "708587/pexels-photo-708587.jpeg?auto=compress&cs=tinysrgb&w=400", false, true),
    Item(4, "Veggie Supreme Pizza", "Bell peppers, mushrooms, onions, olives, cheese", 300, "pizza",
         Photo + "1552635/pexels-photo-1552635.jpeg?auto=compress&cs=tinysrgb&w=400", false, false),
    Item(5, "Classic Beef Burger", "Beef patty, lettuce, tomato, onion, cheese, special sauce", 220, "burgers",
         Photo + "1639557/pexels-photo-1639557.jpeg?auto=compress&cs=tinysrgb&w=400", true, false),
    Item(6, "Chicken Burger", "Grilled chicken breast, avocado, lettuce, mayo", 200, "burgers",
         Photo + "552056/pexels-photo-552056.jpeg?auto=compress&cs=tinysrgb&w=400", false, false),
    Item(7, "Veggie Burger", "Plant-based patty, fresh vegetables, vegan sauce", 180, "burgers",
         Photo + "1199957/pexels-photo-1199957.jpeg?auto=compress&cs=tinysrgb&w=400", false, false),
    Item(8, "BBQ Bacon Burger", "Beef patty, bacon, BBQ sauce, onion rings, cheese", 280, "burgers",
         Photo + "3738755/pexels-photo-3738755.jpeg?auto=compress&cs=tinysrgb&w=400", false, false),
    Item(9, "French Fries", "Golden crispy fries with seasoning", 60, "sides",
         Photo + "1583884/pexels-photo-1583884.jpeg?auto=compress&cs=tinysrgb&w=400", false, false),
    Item(10, "Mozzarella Sticks", "Breaded mozzarella with marinara sauce", 80, "sides",
         Photo + "4110255/pexels-photo-4110255.jpeg?auto=compress&cs=tinysrgb&w=400", false, false),
    Item(11, "Chicken Wings", "Spicy buffalo wings with ranch dip", 120, "sides",
         Photo + "60616/fried-chicken-chicken-fried-crunchy-60616.jpeg?auto=compress&cs=tinysrgb&w=400", false, true),
    Item(12, "Ethiopian Coffee", "Traditional Ethiopian coffee ceremony style", 40, "drinks",
         Photo + "312418/pexels-photo-312418.jpeg?auto=compress&cs=tinysrgb&w=400", false, false),
    Item(13, "Fresh Juice", "Orange, mango, or mixed fruit juice", 50, "drinks",
         Photo + "96974/pexels-photo-96974.jpeg?auto=compress&cs=tinysrgb&w=400", false, false),
    Item(14, "Soft Drinks", "Coca-Cola, Sprite, Fanta, or local beverages", 30, "drinks",
         Photo + "50593/coca-cola-cold-drink-soft-drink-coke-50593.jpeg?auto=compress&cs=tinysrgb&w=400", false, false),
    Item(15, "Soft Drinks", "Coca-Cola, Sprite, Fanta, or local beverages", 30, "drinks", "", false, false)
  ]

  /** The tab ids, 'all' first. */
  const Categories: seq<string> := ["all", "pizza", "burgers", "sides", "drinks"]

  /** The menu ids are 1 to 15 in order, hence pairwise distinct; every item belongs
      to one of the four category tabs after 'all'. */
  lemma MenuIds()
    ensures |MenuItems| == 15
    ensures forall i :: 0 <= i < |MenuItems| ==> MenuItems[i].id == i + 1
    ensures forall i, j :: 0 <= i < j < |MenuItems| ==> MenuItems[i].id != MenuItems[j].id
    ensures forall i :: 0 <= i < |MenuItems| ==> MenuItems[i].category in Categories[1..]
  {
    forall i | 0 <= i < |MenuItems|
      ensures MenuItems[i].id == i + 1 && MenuItems[i].category in Categories[1..]
    {
      assert Categories[1..] == ["pizza", "burgers", "sides", "drinks"];
    }
  }

  function FilteredItems(activeCategory: string): seq<Product>
  {
    CategoryFilter(MenuItems, activeCategory)
  }

  /** What an item card shows at its foot. */
  datatype Control =
    | AddButton
    | Counter(shown: int, minus: QuantityRequest, plus: QuantityRequest)

  function ItemControl(cart: seq<CartItem>, item: Product): Control
  {
    var q := ItemQuantity(cart, item.id);
    if q > 0 then Counter(q, QuantityRequest(item.id, q - 1), QuantityRequest(item.id, q + 1))
    else AddButton
  }

  /** The counter appears exactly for items with a positive quantity in the cart, shows
      that quantity, and its buttons ask for one less and one more of that id. */
  lemma ItemControlSpec(cart: seq<CartItem>, item: Product)
    ensures ItemControl(cart, item).Counter? <==> ItemQuantity(cart, item.id) > 0
    ensures !InCart(cart, item.id) ==> ItemControl(cart, item) == AddButton
    ensures ItemControl(cart, item).Counter? ==>
      var c := ItemControl(cart, item);
      && c.minus == QuantityRequest(item.id, c.shown - 1)
      && c.plus == QuantityRequest(item.id, c.shown + 1)
  {
    ItemQuantitySpec(cart, item.id);
  }

  /** Pressing Add on an item not yet in the cart turns its button into a counter at 1. */
  lemma AddShowsCounter(cart: seq<CartItem>, item: Product)
    requires !InCart(cart, item.id)
    ensures ItemControl(Catalog.AddToCart(cart, item), item).Counter?
    ensures ItemControl(Catalog.AddToCart(cart, item), item).shown == 1
  {
    ItemQuantitySpec(cart, item.id);
    QuantityAfterAdd(cart, item);
  }

  /** `totalCartItems > 0 && <button>Cart (n)</button>`. */
  function FloatingCartButton(cart: seq<CartItem>): Option<int>
  {
    var n := ItemCount(cart);
    if n > 0 then Some(n) else None
  }

  /** With positive quantities, the floating button shows exactly for a non-empty cart,
      labelled with the number of items, which is at least the number of entries. */
  lemma FloatingCartButtonSpec(cart: seq<CartItem>)
    requires forall i :: 0 <= i < |cart| ==> cart[i].quantity >= 1 && cart[i].product.price >= 0
    ensures FloatingCartButton(cart).Some? <==> cart != []
    ensures FloatingCartButton(cart).Some? ==>
              FloatingCartButton(cart).value == ItemCount(cart) >= |cart|
  {
    TotalsNonNegative(cart);
  }
}
