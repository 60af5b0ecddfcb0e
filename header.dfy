/** The site header: the navigation list chosen by role, and the Order button with
    its cart badge. */
module Header {
  import opened Collections
  import App

  /** A menu entry: its view id and its `label` text (a reserved word in Dafny, hence `title`). */
  datatype NavItem = NavItem(id: string, title: string)

  const PublicNavItems: seq<NavItem> := [
    NavItem("home", "Home"), NavItem("about", "About Us"), NavItem("services", "Services"),
    NavItem("menu", "Menu"), NavItem("contact", "Contact")
  ]

  const CustomerNavItems: seq<NavItem> := [
    NavItem("order", "Order"), NavItem("my-orders", "My Orders"), NavItem("my-profile", "My Profile")
  ]

  const AdminNavItems: seq<NavItem> := [
    NavItem("admin-dashboard", "Dashboard"), NavItem("admin-menu", "Manage Menu"),
    NavItem("admin-orders", "Orders"), NavItem("admin-users", "Users"),
    NavItem("admin-contact", "Contact Info"), NavItem("admin-logs", "Activity Logs")
  ]

  /** `getNavItems`: the admin check comes before the signed-in check. */
  function GetNavItems(isAdmin: bool, loggedIn: bool): seq<NavItem>
  {
    if isAdmin then PublicNavItems + AdminNavItems
    else if loggedIn then PublicNavItems + CustomerNavItems
    else PublicNavItems
  }

  /** The public items always come first; an admin sees the admin items after them
      whether or not a user is recorded, a signed-in customer the customer items, and
      a visitor nothing more. No admin entry is offered to a non-admin. */
  lemma GetNavItemsSpec(isAdmin: bool, loggedIn: bool)
    ensures var nav := GetNavItems(isAdmin, loggedIn);
      && |nav| >= |PublicNavItems| && nav[..|PublicNavItems|] == PublicNavItems
      && nav[|PublicNavItems|..] == (if isAdmin then AdminNavItems else if loggedIn then CustomerNavItems else [])
      && (!isAdmin ==> forall i :: 0 <= i < |nav| ==> nav[i] !in AdminNavItems)
  {
    var nav := GetNavItems(isAdmin, loggedIn);
    assert nav[..|PublicNavItems|] == PublicNavItems;
    if !isAdmin {
      forall i | 0 <= i < |nav| ensures nav[i] !in AdminNavItems {
        if i < |PublicNavItems| {
          assert nav[i] == PublicNavItems[i];
        } else {
          assert nav[i] == CustomerNavItems[i - |PublicNavItems|];
        }
      }
    }
  }

  /** Every nav entry leads to a page with a case of its own in the routing table, and
      no list names a page twice. */
  lemma NavTargetsKnown(isAdmin: bool, loggedIn: bool)
    ensures var nav := GetNavItems(isAdmin, loggedIn);
      && (forall i :: 0 <= i < |nav| ==> nav[i].id in App.KnownPages)
      && (forall i, j :: 0 <= i < j < |nav| ==> nav[i].id != nav[j].id)
  {
    var nav := GetNavItems(isAdmin, loggedIn);
    forall i | 0 <= i < |nav| ensures nav[i].id in App.KnownPages {
      if i < |PublicNavItems| {
        assert nav[i] == PublicNavItems[i];
      } else if isAdmin {
        assert nav[i] == AdminNavItems[i - |PublicNavItems|];
      } else {
        assert nav[i] == CustomerNavItems[i - |PublicNavItems|];
      }
    }
  }

  /** The Order button: where it leads and the badge it carries, if any. */
  datatype OrderButton = OrderButton(target: string, badge: Option<int>)

  function GetOrderButton(isAdmin: bool, loggedIn: bool, cartItemCount: int): Option<OrderButton>
  {
    if isAdmin then None
    else Some(OrderButton(if loggedIn then "order" else "menu",
                          if cartItemCount > 0 then Some(cartItemCount) else None))
  }

  /** Admins get no Order button; everyone else gets one that leads to the order page
      when signed in and to the menu otherwise, badged only for a positive count. */
  lemma OrderButtonSpec(isAdmin: bool, loggedIn: bool, cartItemCount: int)
    ensures GetOrderButton(isAdmin, loggedIn, cartItemCount).None? <==> isAdmin
    ensures !isAdmin ==>
      var b := GetOrderButton(isAdmin, loggedIn, cartItemCount).value;
      && (b.target == "order" <==> loggedIn)
      && b.target in App.KnownPages
      && (b.badge.Some? <==> cartItemCount > 0)
      && (b.badge.Some? ==> b.badge.value == cartItemCount)
  {
  }

  /** `Welcome, {profile?.full_name || 'User'}`. */
  function WelcomeName(fullName: Option<string>): (r: string)
    ensures r != ""
    ensures r == "User" <==> fullName.None? || fullName.value in {"", "User"}
  {
    if fullName.Some? && fullName.value != "" then fullName.value else "User"
  }
}
