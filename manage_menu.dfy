/** The menu administration screen: the item list with its category tabs, deleting
    an item, and the add/edit form. */
module ManageMenu {
  import opened Collections

  /** A row of the `menu_items` table; a new item has no id until the store assigns one.
      Prices are whole ETB. */
  datatype MenuRecord = MenuRecord(
    id: Option<int>,
    name: string,
    description: string,
    price: int,
    category: string,
    imageUrl: string,
    size: string,
    popular: bool,
    spicy: bool,
    available: bool)

  /** The blank form: no name, price 0, a regular pizza, available. */
  const InitialFormData: MenuRecord :=
    MenuRecord(None, "", "", 0, "pizza", "", "Regular", false, false, true)

  function FilteredItems(items: seq<MenuRecord>, activeCategory: string): seq<MenuRecord>
  {
    if activeCategory == "all" then items
    else Filter(items, (m: MenuRecord) => m.category == activeCategory)
  }

  /** 'all' lists every item; any other tab exactly that category's items, in order. */
  lemma FilteredItemsSpec(items: seq<MenuRecord>, activeCategory: string)
    ensures activeCategory == "all" ==> FilteredItems(items, activeCategory) == items
    ensures activeCategory != "all" ==>
      forall m :: m in FilteredItems(items, activeCategory) <==> m in items && m.category == activeCategory
    ensures IsSublist(FilteredItems(items, activeCategory), items)
    ensures activeCategory != "all" ==>
      forall m :: multiset(FilteredItems(items, activeCategory))[m] == if m.category == activeCategory then multiset(items)[m] else 0
  {
    if activeCategory == "all" {
      SublistRefl(items);
    } else {
      var p := (m: MenuRecord) => m.category == activeCategory;
      forall m ensures m in FilteredItems(items, activeCategory) <==> m in items && p(m) {
        FilterMembership(items, p, m);
      }
      FilterIsSublist(items, p);
      forall m ensures multiset(FilteredItems(items, activeCategory))[m] ==
                         if m.category == activeCategory then multiset(items)[m] else 0 {
        FilterMultiset(items, p, m);
      }
    }
  }

  /** `prev.filter(item => item.id !== id)`. */
  function RemoveById(items: seq<MenuRecord>, id: int): seq<MenuRecord>
  {
    Filter(items, (m: MenuRecord) => m.id != Some(id))
  }

  function CountWithId(items: seq<MenuRecord>, id: int): nat
  {
    Count(items, (m: MenuRecord) => m.id == Some(id))
  }

  /** Deleting removes exactly the items with that id and keeps the rest in order. */
  lemma RemoveByIdSpec(items: seq<MenuRecord>, id: int)
    ensures forall m :: m in RemoveById(items, id) <==> m in items && m.id != Some(id)
    ensures IsSublist(RemoveById(items, id), items)
    ensures |RemoveById(items, id)| == |items| - CountWithId(items, id)
  {
    var p := (m: MenuRecord) => m.id != Some(id);
    forall m ensures m in RemoveById(items, id) <==> m in items && p(m) {
      FilterMembership(items, p, m);
    }
    FilterIsSublist(items, p);
    RemoveByIdCount(items, id);
  }

  lemma {:induction false} RemoveByIdCount(items: seq<MenuRecord>, id: int)
    ensures |RemoveById(items, id)| + CountWithId(items, id) == |items|
  {
    if items != [] {
      RemoveByIdCount(items[1..], id);
    }
  }

  /** The form's browser-side validation: name, description, category and image URL are
      `required`, and the price is `required` with `min="0"`. Until they hold the browser
      does not call `handleSubmit`. */
  predicate FormComplete(f: MenuRecord)
  {
    f.name != "" && f.description != "" && f.category != "" && f.imageUrl != "" && f.price >= 0
  }

  /** The blank form cannot be submitted as it stands; each required field must be filled. */
  lemma BlankFormIncomplete()
    ensures !FormComplete(InitialFormData)
  {
  }

  /** What a save sends to the store: an update also stamps `updated_at`. */
  datatype SaveRequest = UpdateItem(id: Option<int>, data: MenuRecord, updatedAt: string) | InsertItem(data: MenuRecord)

  class MenuAdmin {
    var menuItems: seq<MenuRecord>
    var editingItem: Option<MenuRecord>
    var showAddForm: bool
    var activeCategory: string
    var formData: MenuRecord

    constructor ()
      ensures menuItems == [] && editingItem == None && !showAddForm
      ensures activeCategory == "all" && formData == InitialFormData
    {
      menuItems := [];
      editingItem := None;
      showAddForm := false;
      activeCategory := "all";
      formData := InitialFormData;
    }

    /** `fetchMenuItems`: all items (none for a null result); an error keeps the list. */
    method Load(ok: bool, data: Option<seq<MenuRecord>>)
      modifies this`menuItems
      ensures menuItems == if !ok then old(menuItems) else if data.Some? then data.value else []
    {
      if ok {
        menuItems := if data.Some? then data.value else [];
      }
    }

    method SelectCategory(category: string)
      modifies this`activeCategory
      ensures activeCategory == category
    {
      activeCategory := category;
    }

    function Visible(): seq<MenuRecord>
      reads this
    {
      FilteredItems(menuItems, activeCategory)
    }

    /** `handleDelete`: the id whose row is deleted is returned. Nothing happens unless the admin confirms and the store delete
        succeeds; then exactly the items with that id leave the list. */
    method HandleDelete(id: int, confirmed: bool, storeOk: bool) returns (deleted: Option<int>)
      modifies this`menuItems
      ensures deleted == if confirmed then Some(id) else None
      ensures menuItems == if confirmed && storeOk then RemoveById(old(menuItems), id) else old(menuItems)
    {
      if !confirmed {
        return None;
      }
      deleted := Some(id);
      if storeOk {
        menuItems := RemoveById(menuItems, id);
      }
    }

    /** `handleEdit`: the form is filled from the item, which becomes the one being edited. */
    method HandleEdit(item: MenuRecord)
      modifies this`editingItem, this`formData, this`showAddForm
      ensures editingItem == Some(item) && formData == item && showAddForm
    {
      editingItem := Some(item);
      formData := item;
      showAddForm := true;
    }

    method OpenAddForm()
      modifies this`showAddForm
      ensures showAddForm
    {
      showAddForm := true;
    }

    /** `resetForm`: the blank form, no item being edited, the form hidden. */
    method ResetForm()
      modifies this`formData, this`editingItem, this`showAddForm
      ensures formData == InitialFormData && editingItem == None && !showAddForm
    {
      formData := InitialFormData;
      editingItem := None;
      showAddForm := false;
    }

    method ChangeForm(data: MenuRecord)
      modifies this`formData
      ensures formData == data
    {
      formData := data;
    }

    /** `handleSubmit`, reached only once the browser's validation passes: an update of
        the edited item's id stamped with the clock (`now`), or an insert when nothing is
        being edited. After a successful save the list is fetched again (keeping the old
        list if that fetch fails) and the form is reset; a failed save, or a form the
        browser refuses, changes nothing. */
    method HandleSubmit(now: string, storeOk: bool, reloadOk: bool, reloaded: Option<seq<MenuRecord>>)
      returns (request: Option<SaveRequest>)
      modifies this`menuItems, this`formData, this`editingItem, this`showAddForm
      ensures request.None? <==> !FormComplete(old(formData))
      ensures request.Some? ==>
        request.value == if old(editingItem).Some? then UpdateItem(old(editingItem).value.id, old(formData), now)
                         else InsertItem(old(formData))
      ensures request.Some? && storeOk ==> formData == InitialFormData && editingItem == None && !showAddForm
      ensures request.Some? && storeOk ==>
        menuItems == if !reloadOk then old(menuItems) else if reloaded.Some? then reloaded.value else []
      ensures request.None? || !storeOk ==>
        menuItems == old(menuItems) && formData == old(formData)
        && editingItem == old(editingItem) && showAddForm == old(showAddForm)
    {
      if !FormComplete(formData) {
        return None;
      }
      if editingItem.Some? {
        request := Some(UpdateItem(editingItem.value.id, formData, now));
      } else {
        request := Some(InsertItem(formData));
      }
      if storeOk {
        Load(reloadOk, reloaded);
        ResetForm();
      }
    }
  }
}
