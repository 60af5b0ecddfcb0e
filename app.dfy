/** The application shell: the current page, the routing table from page ids to
    screens, and the cart shared by the menu screen and the header badge. */
module App {
  import opened Catalog

  /** The screens `renderPage` can mount. */
  datatype Screen =
    | Hero | About | Services | Newsletter | MenuScreen | Contact | OrderScreen
    | MyOrdersScreen | MyProfile | AdminDashboard | ManageMenu | ManageOrders
    | ManageContact | ManageUsers | AdminLogs

  /** The landing composite shown for 'home'. */
  const HomeView: seq<Screen> := [Hero, About, Services, Newsletter]

  /** The page ids with a case of their own. */
  const KnownPages: set<string> := {
    "home", "about", "services", "menu", "contact", "order", "my-orders", "my-profile",
    "admin-dashboard", "admin-menu", "admin-orders", "admin-contact", "admin-users", "admin-logs"
  }

  /** `renderPage`: the screens mounted for a page id. */
  function RenderPage(page: string): seq<Screen>
  {
    match page
    case "home" => HomeView
    case "about" => [About]
    case "services" => [Services]
    case "menu" => [MenuScreen]
    case "contact" => [Contact]
    case "order" => [OrderScreen]
    case "my-orders" => [MyOrdersScreen]
    case "my-profile" => [MyProfile]
    case "admin-dashboard" => [AdminDashboard]
    case "admin-menu" => [ManageMenu]
    case "admin-orders" => [ManageOrders]
    case "admin-contact" => [ManageContact]
    case "admin-users" => [ManageUsers]
    case "admin-logs" => [AdminLogs]
    case _ => HomeView
  }

  /** Every known page other than 'home' mounts a single screen of its own, no two pages
      share one, and any unknown id falls back to the 'home' composite. */
  lemma RenderPageSpec(page: string, other: string)
    ensures page !in KnownPages ==> RenderPage(page) == RenderPage("home") == HomeView
    ensures page in KnownPages && page != "home" ==> |RenderPage(page)| == 1 && RenderPage(page) != HomeView
    ensures page in KnownPages && other in KnownPages && RenderPage(page) == RenderPage(other) ==> page == other
  {
  }

  /** `cartItems.reduce((sum, item) => sum + item.quantity, 0)`, passed to the header. */
  function CartBadgeCount(cart: seq<CartItem>): int
  {
    ItemCount(cart)
  }

  /** Adding an item raises the badge by one; with positive quantities the badge counts
      at least one per entry. */
  lemma CartBadgeSpec(cart: seq<CartItem>, item: Product)
    requires DistinctIds(cart) && SameItem(cart, item)
    ensures CartBadgeCount(Catalog.AddToCart(cart, item)) == CartBadgeCount(cart) + 1
    ensures (forall i :: 0 <= i < |cart| ==> cart[i].quantity >= 1 && cart[i].product.price >= 0) ==>
              CartBadgeCount(cart) >= |cart|
  {
    AddToCartTotals(cart, item);
    if forall i :: 0 <= i < |cart| ==> cart[i].quantity >= 1 && cart[i].product.price >= 0 {
      TotalsNonNegative(cart);
    }
  }

  class Shell {
    var currentPage: string
    var showLoginModal: bool
    var cartItems: seq<CartItem>

    /** Each menu item has at most one cart entry. */
    ghost predicate Valid()
      reads this
    {
      DistinctIds(cartItems)
    }

    constructor ()
      ensures currentPage == "home" && !showLoginModal && cartItems == []
      ensures Valid()
    {
      currentPage := "home";
      showLoginModal := false;
      cartItems := [];
    }

    /** `setCurrentPage`, handed to the header, the hero and the footer. */
    method Navigate(page: string)
      modifies this`currentPage
      ensures currentPage == page
    {
      currentPage := page;
    }

    method ShowLogin(show: bool)
      modifies this`showLoginModal
      ensures showLoginModal == show
    {
      showLoginModal := show;
    }

    method AddToCart(item: Product)
      modifies this`cartItems
      requires Valid()
      ensures Valid()
      ensures cartItems == Catalog.AddToCart(old(cartItems), item)
      ensures ItemQuantity(cartItems, item.id) == ItemQuantity(old(cartItems), item.id) + 1
    {
      AddToCartDistinct(cartItems, item);
      QuantityAfterAdd(cartItems, item);
      cartItems := Catalog.AddToCart(cartItems, item);
    }

    method UpdateCartItem(id: int, quantity: int)
      modifies this`cartItems
      requires Valid()
      ensures Valid()
      ensures cartItems == Catalog.UpdateCartItem(old(cartItems), id, quantity)
      ensures ItemQuantity(cartItems, id) == if quantity == 0 || !InCart(old(cartItems), id) then 0 else quantity
    {
      UpdateCartItemDistinct(cartItems, id, quantity);
      QuantityAfterUpdate(cartItems, id, quantity);
      cartItems := Catalog.UpdateCartItem(cartItems, id, quantity);
    }

    function View(): seq<Screen>
      reads this
    {
      RenderPage(currentPage)
    }

    function BadgeCount(): int
      reads this
    {
      CartBadgeCount(cartItems)
    }
  }
}
