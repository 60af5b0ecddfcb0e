/** The order page: the menu with its category tabs, the page's own cart, and
    placing an order, which turns the cart into a `pending` row of the `orders`
    table. */
module OrderPage {
  import opened Collections
  import opened Text
  import opened Orders
  import opened Catalog

  /** One line of `order_details`: `name (size) xQ - P ETB`, with `P` the line's price. */
  function OrderLine(c: CartItem): string
  {
    c.product.name + " (" + c.product.size + ") x" + IntToString(c.quantity)
      + " - " + IntToString(c.product.price * c.quantity) + " ETB"
  }

  /** `cartItems.map(...)`: one line per cart entry, in cart order. */
  function OrderLines(cart: seq<CartItem>): (r: seq<string>)
    ensures |r| == |cart|
    ensures forall i :: 0 <= i < |cart| ==> r[i] == OrderLine(cart[i])
  {
    seq(|cart|, i requires 0 <= i < |cart| => OrderLine(cart[i]))
  }

  /** What separates the item lines from the customer's own notes. */
  const NotesHeading: string := "\n\n" + HeadingTitle + "\n"

  const HeadingTitle: string := "Additional Details:"

  /** The `order_details` column: the item lines joined by newlines, the heading,
      and the notes as typed. */
  function OrderDetails(cart: seq<CartItem>, notes: string): string
  {
    Join(OrderLines(cart), "\n") + NotesHeading + notes
  }

  /** Names and sizes without line breaks, so that each entry makes exactly one line. */
  predicate SingleLineItems(cart: seq<CartItem>)
  {
    forall i :: 0 <= i < |cart| ==> Free(cart[i].product.name, '\n') && Free(cart[i].product.size, '\n')
  }

  lemma OrderLineFree(c: CartItem)
    requires Free(c.product.name, '\n') && Free(c.product.size, '\n')
    ensures Free(OrderLine(c), '\n')
  {
    var q := IntToString(c.quantity);
    var p := IntToString(c.product.price * c.quantity);
    assert Free(q, '\n') && Free(p, '\n');
  }

  /** The text after the last item line splits into an empty line, the heading line
      and the lines of the notes. */
  lemma HeadingLines(notes: string)
    ensures Split(['\n'] + HeadingTitle + ['\n'] + notes, '\n') == ["", HeadingTitle] + Split(notes, '\n')
  {
    var after := HeadingTitle + ['\n'] + notes;
    assert ['\n'] + HeadingTitle + ['\n'] + notes == [] + ['\n'] + after;
    SplitPiece([], '\n', after);
    SplitPiece(HeadingTitle, '\n', notes);
  }

  lemma HeadingRegroup(j: string, notes: string)
    ensures j + NotesHeading + notes == j + ['\n'] + (['\n'] + HeadingTitle + ['\n'] + notes)
  {
    var nl := ['\n'];
    assert NotesHeading == nl + nl + HeadingTitle + nl;
    assert j + (nl + nl + HeadingTitle + nl) + notes == j + nl + (nl + HeadingTitle + nl + notes);
  }

  lemma LinesRegroup(lines: seq<string>, more: seq<string>)
    ensures lines + (["", HeadingTitle] + more) == lines + ["", HeadingTitle] + more
  {
  }

  /** Read back line by line, `order_details` is the cart's lines in cart order, an
      empty line, the heading line, and then the lines of the notes. */
  lemma OrderDetailsLines(cart: seq<CartItem>, notes: string)
    requires cart != []
    requires SingleLineItems(cart)
    ensures Split(OrderDetails(cart, notes), '\n') ==
              OrderLines(cart) + ["", HeadingTitle] + Split(notes, '\n')
  {
    var lines := OrderLines(cart);
    forall i | 0 <= i < |lines| ensures Free(lines[i], '\n') {
      OrderLineFree(cart[i]);
    }
    var rest := ['\n'] + HeadingTitle + ['\n'] + notes;
    HeadingRegroup(Join(lines, "\n"), notes);
    SplitJoinThen(lines, '\n', rest);
    HeadingLines(notes);
    LinesRegroup(lines, Split(notes, '\n'));
  }

  /** The notes always close the text, after the heading. */
  lemma OrderDetailsEndsWithNotes(cart: seq<CartItem>, notes: string)
    ensures EndsWith(OrderDetails(cart, notes), NotesHeading + notes)
  {
    EndsWithAppend(Join(OrderLines(cart), "\n"), NotesHeading, notes);
  }

  /** The row `handleOrderSubmit` inserts. */
  datatype OrderInsert = OrderInsert(
    customerId: string,
    customerName: string,
    customerPhone: string,
    orderDetails: string,
    totalAmount: int,
    status: Status)

  function NewOrder(userId: string, name: string, phone: string, cart: seq<CartItem>, notes: string): OrderInsert
  {
    OrderInsert(userId, name, phone, OrderDetails(cart, notes), Subtotal(cart), Pending)
  }

  /** The inserted row is a `pending` order of the signed-in user, for the cart's total,
      whose details list the cart line by line before the notes. */
  lemma NewOrderSpec(userId: string, name: string, phone: string, cart: seq<CartItem>, notes: string)
    requires cart != []
    requires SingleLineItems(cart)
    ensures var row := NewOrder(userId, name, phone, cart, notes);
      && row.status == Pending
      && row.customerId == userId
      && row.customerName == name && row.customerPhone == phone
      && row.totalAmount == Subtotal(cart)
      && Split(row.orderDetails, '\n') == OrderLines(cart) + ["", HeadingTitle] + Split(notes, '\n')
  {
    OrderDetailsLines(cart, notes);
  }

  /** `profile.full_name` and `profile.phone`. */
  datatype Profile = Profile(fullName: string, phone: string)

  /** How a press of "Place Order" ends. `FormIncomplete` is the browser refusing the
      form before `handleOrderSubmit` runs. */
  datatype SubmitOutcome = FormIncomplete | EmptyCart | NotLoggedIn | Placed | Failed

  /** The name and phone inputs are `required`: the browser submits the form only when
      both are non-empty. */
  predicate FormFilled(name: string, phone: string)
  {
    name != "" && phone != ""
  }

  class OrderPageState {
    var menuItems: seq<Product>
    var activeCategory: string
    var cartItems: seq<CartItem>
    var customerName: string
    var customerPhone: string
    var notes: string

    /** Each menu item has at most one cart entry. */
    ghost predicate Valid()
      reads this
    {
      DistinctIds(cartItems)
    }

    /** The form starts from the profile when one is loaded, and blank otherwise. */
    constructor (profile: Option<Profile>)
      ensures menuItems == [] && activeCategory == "all" && cartItems == [] && notes == ""
      ensures customerName == (if profile.Some? then profile.value.fullName else "")
      ensures customerPhone == (if profile.Some? then profile.value.phone else "")
      ensures Valid()
    {
      menuItems := [];
      activeCategory := "all";
      cartItems := [];
      customerName := if profile.Some? then profile.value.fullName else "";
      customerPhone := if profile.Some? then profile.value.phone else "";
      notes := "";
    }

    /** A newly loaded profile overwrites name and phone and keeps the notes. */
    method SyncProfile(profile: Option<Profile>)
      modifies this`customerName, this`customerPhone
      ensures profile.Some? ==> customerName == profile.value.fullName && customerPhone == profile.value.phone
      ensures profile.None? ==> customerName == old(customerName) && customerPhone == old(customerPhone)
    {
      if profile.Some? {
        customerName := profile.value.fullName;
        customerPhone := profile.value.phone;
      }
    }

    /** `fetchMenuItems`: the available items the store returns (none for a null result);
        an error keeps the list. */
    method LoadMenu(ok: bool, data: Option<seq<Product>>)
      modifies this`menuItems
      ensures menuItems == if !ok then old(menuItems) else if data.Some? then data.value else []
    {
      if ok {
        menuItems := if data.Some? then data.value else [];
      }
    }

    method SelectCategory(category: string)
      modifies this`activeCategory
      ensures activeCategory == category
    {
      activeCategory := category;
    }

    /** Typing into the name, phone and notes fields changes that field alone. */
    method EditName(text: string)
      modifies this`customerName
      ensures customerName == text
    {
      customerName := text;
    }

    method EditPhone(text: string)
      modifies this`customerPhone
      ensures customerPhone == text
    {
      customerPhone := text;
    }

    method EditNotes(text: string)
      modifies this`notes
      ensures notes == text
    {
      notes := text;
    }

    function FilteredItems(): seq<Product>
      reads this
    {
      CategoryFilter(menuItems, activeCategory)
    }

    function TotalAmount(): int
      reads this
    {
      Subtotal(cartItems)
    }

    method AddToCart(item: Product)
      modifies this`cartItems
      requires Valid()
      ensures Valid()
      ensures cartItems == Catalog.AddToCart(old(cartItems), item)
      ensures ItemQuantity(cartItems, item.id) == ItemQuantity(old(cartItems), item.id) + 1
    {
      AddToCartDistinct(cartItems, item);
      QuantityAfterAdd(cartItems, item);
      cartItems := Catalog.AddToCart(cartItems, item);
    }

    method UpdateCartItem(id: int, quantity: int)
      modifies this`cartItems
      requires Valid()
      ensures Valid()
      ensures cartItems == Catalog.UpdateCartItem(old(cartItems), id, quantity)
      ensures ItemQuantity(cartItems, id) == if quantity == 0 || !InCart(old(cartItems), id) then 0 else quantity
    {
      UpdateCartItemDistinct(cartItems, id, quantity);
      QuantityAfterUpdate(cartItems, id, quantity);
      cartItems := Catalog.UpdateCartItem(cartItems, id, quantity);
    }

    /** Pressing "Place Order". The browser first refuses a form with an empty name or
        phone. Then `handleOrderSubmit` refuses an empty cart, then a visitor who is not
        signed in. None of these inserts anything or changes the page. Otherwise the row
        is sent, and only a successful insert empties the cart and clears the notes. */
    method HandleOrderSubmit(user: Option<string>, storeOk: bool) returns (outcome: SubmitOutcome, sent: Option<OrderInsert>)
      modifies this`cartItems, this`notes
      requires Valid()
      ensures Valid()
      ensures !FormFilled(customerName, customerPhone) ==> outcome == FormIncomplete
      ensures FormFilled(customerName, customerPhone) && old(cartItems) == [] ==> outcome == EmptyCart
      ensures FormFilled(customerName, customerPhone) && old(cartItems) != [] && user.None? ==>
        outcome == NotLoggedIn
      ensures outcome in {FormIncomplete, EmptyCart, NotLoggedIn} <==> sent.None?
      ensures sent.Some? ==> sent.value.customerName != "" && sent.value.customerPhone != ""
      ensures sent.Some? ==>
                sent.value == NewOrder(user.value, customerName, customerPhone, old(cartItems), old(notes))
      ensures outcome == Placed <==> sent.Some? && storeOk
      ensures outcome == Placed ==> cartItems == [] && notes == ""
      ensures outcome != Placed ==> cartItems == old(cartItems) && notes == old(notes)
    {
      if !FormFilled(customerName, customerPhone) {
        return FormIncomplete, None;
      }
      if cartItems == [] {
        return EmptyCart, None;
      }
      if user.None? {
        return NotLoggedIn, None;
      }
      sent := Some(NewOrder(user.value, customerName, customerPhone, cartItems, notes));
      if storeOk {
        outcome := Placed;
        cartItems := [];
        notes := "";
      } else {
        outcome := Failed;
      }
    }
  }
}
