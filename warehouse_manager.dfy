/**
 * The warehouse panel of src/components/admin/WarehouseManager.tsx: a
 * searchable warehouse list with add, edit and delete, and two lists of
 * shipping methods, one for the add form and one for the edit form, which
 * the method buttons toggle.
 */
module WarehouseManager {
  import opened Store
  import opened Schema

  /** The ids of the three method buttons. */
  const ShippingMethods: seq<string> := ["DHL", "UPS", "FEDEX"]

  /** `list.filter(m => m !== method)`: every other method, in order. */
  function Without(s: seq<string>, m: string): (r: seq<string>)
    ensures forall x :: x in r <==> x in s && x != m
    ensures |r| <= |s|
    ensures m !in s ==> r == s
  {
    if s == [] then []
    else if s[0] == m then Without(s[1..], m)
    else [s[0]] + Without(s[1..], m)
  }

  /** The filter keeps the order: filtering a concatenation filters each part, in turn. */
  lemma {:induction false} WithoutAppend(a: seq<string>, b: seq<string>, m: string)
    ensures Without(a + b, m) == Without(a, m) + Without(b, m)
    decreases |a|
  {
    if a == [] {
      assert a + b == b;
    } else {
      assert (a + b)[0] == a[0] && (a + b)[1..] == a[1..] + b;
      WithoutAppend(a[1..], b, m);
      if a[0] != m {
        assert Without(a + b, m) == [a[0]] + (Without(a[1..], m) + Without(b, m));
      }
    }
  }

  /** A filter keeps a list without repeats free of repeats. */
  lemma {:induction false} WithoutDistinct(s: seq<string>, m: string)
    requires Distinct(s)
    ensures Distinct(Without(s, m))
    decreases |s|
  {
    if s != [] {
      DistinctTail(s);
      WithoutDistinct(s[1..], m);
      if s[0] != m {
        DistinctCons(s[0], Without(s[1..], m));
      }
    }
  }

  /** Filtering out the method just appended gives back the list it was appended to. */
  lemma {:induction false} WithoutAppended(s: seq<string>, m: string)
    requires m !in s
    ensures Without(s + [m], m) == s
    decreases |s|
  {
    if s == [] {
      assert Without([m][1..], m) == [];
    } else {
      assert (s + [m])[1..] == s[1..] + [m];
      WithoutAppended(s[1..], m);
    }
  }

  /** A method button: removes the method when listed, appends it at the end otherwise. */
  function Toggle(s: seq<string>, m: string): (r: seq<string>)
    ensures m !in s ==> r == s + [m]
    ensures m in s ==> m !in r && forall x :: x != m ==> (x in r <==> x in s)
  {
    if m in s then Without(s, m) else s + [m]
  }

  /**
   * Toggling twice: an absent method leaves the exact list; a present one
   * leaves the same methods, with that one moved to the end when the list
   * has no repeats.
   */
  lemma ToggleTwice(s: seq<string>, m: string)
    ensures m !in s ==> Toggle(Toggle(s, m), m) == s
    ensures forall x :: x in Toggle(Toggle(s, m), m) <==> x in s
    ensures m in s ==> Toggle(Toggle(s, m), m) == Without(s, m) + [m]
  {
    if m !in s {
      WithoutAppended(s, m);
    }
  }

  /** Toggling never creates a repeated method. */
  lemma ToggleKeepsDistinct(s: seq<string>, m: string)
    requires Distinct(s)
    ensures Distinct(Toggle(s, m))
  {
    if m in s {
      WithoutDistinct(s, m);
    } else {
      var r := s + [m];
      forall i, j | 0 <= i < j < |r| ensures r[i] != r[j] {
        if j == |s| {
          assert r[i] == s[i];
        }
      }
    }
  }

  /** Every stored method list is free of repeats. */
  predicate MethodsDistinct(t: map<string, Warehouse>) {
    forall k :: k in t ==> Distinct(t[k].shippingMethods)
  }

  /** The searchable field: the warehouse name contains the query. */
  function NameFilter(q: string): Warehouse -> bool {
    (w: Warehouse) => Matches(q, w.name)
  }

  /** The list query has no ORDER BY. */
  function NoOrder(w: Warehouse): int {
    0
  }

  /** The fields the add and edit forms submit. */
  datatype WarehouseForm = WarehouseForm(name: string, location: string, contact: string)

  /** The row `handleAddWarehouse` inserts: the form, the add form's methods, `wh_<now>`. */
  function NewWarehouseRow(form: WarehouseForm, methods: seq<string>, now: Timestamp): (w: Warehouse)
    ensures w.id == MintId("wh_", now) && w.createdAt == now && w.shippingMethods == methods
    ensures w.name == form.name && w.location == form.location && w.contact == form.contact
  {
    Warehouse(MintId("wh_", now), form.name, form.location, form.contact, methods, now)
  }

  /** `UPDATE warehouses SET name, location, contact, shippingMethods`. */
  function ApplyEdit(form: WarehouseForm, methods: seq<string>): Warehouse -> Warehouse {
    (w: Warehouse) => w.(name := form.name, location := form.location, contact := form.contact, shippingMethods := methods)
  }

  /** An edit rewrites exactly name, location, contact and methods: the id and creation time stay. */
  lemma EditKeepsIdentity(form: WarehouseForm, methods: seq<string>, w: Warehouse)
    ensures ApplyEdit(form, methods)(w) == NewWarehouseRow(form, methods, w.createdAt).(id := w.id)
  {
  }

  class WarehouseManager {
    const db: Database
    var warehouses: seq<Warehouse>
    var searchQuery: string
    var isAddModalOpen: bool
    var editingWarehouse: Option<Warehouse>
    var selectedMethods: seq<string>
    var editingMethods: seq<string>
    var error: Option<string>

    /** No method list, in the forms or in the table, repeats a method; listed warehouses are rows of the table. */
    predicate Valid()
      reads this, db
    {
      && Distinct(selectedMethods) && Distinct(editingMethods)
      && MethodsDistinct(db.warehouses)
      && forall i :: 0 <= i < |warehouses| ==> warehouses[i] in db.warehouses.Values
    }

    constructor (db: Database)
      requires MethodsDistinct(db.warehouses)
      ensures this.db == db && Valid()
      ensures warehouses == [] && searchQuery == "" && !isAddModalOpen && editingWarehouse == None
      ensures selectedMethods == [] && editingMethods == [] && error == None
    {
      this.db := db;
      warehouses := [];
      searchQuery := "";
      isAddModalOpen := false;
      editingWarehouse := None;
      selectedMethods := [];
      editingMethods := [];
      error := None;
    }

    /** Lists the warehouses whose name matches the search. A failure records the load error. */
    method LoadWarehouses()
      requires MethodsDistinct(db.warehouses) && Distinct(selectedMethods) && Distinct(editingMethods)
      requires !db.available ==> Valid()
      modifies this
      ensures Valid()
      ensures db.available ==> Listing(db.warehouses, NameFilter(searchQuery), NoOrder, warehouses) && error == old(error)
      ensures !db.available ==> warehouses == old(warehouses) && error == Some("Failed to load warehouses")
      ensures searchQuery == old(searchQuery) && isAddModalOpen == old(isAddModalOpen)
      ensures editingWarehouse == old(editingWarehouse)
      ensures selectedMethods == old(selectedMethods) && editingMethods == old(editingMethods)
    {
      if db.available {
        var ids;
        ids, warehouses := Select(db.warehouses, NameFilter(searchQuery), NoOrder);
        ListingRows(db.warehouses, NameFilter(searchQuery), NoOrder, warehouses);
      } else {
        error := Some("Failed to load warehouses");
      }
    }

    /** A method button: toggles `m` in the edit form's list when `isEditing`, in the add form's otherwise. */
    method ToggleShippingMethod(m: string, isEditing: bool)
      requires Valid()
      modifies this
      ensures Valid()
      ensures isEditing ==> editingMethods == Toggle(old(editingMethods), m) && selectedMethods == old(selectedMethods)
      ensures !isEditing ==> selectedMethods == Toggle(old(selectedMethods), m) && editingMethods == old(editingMethods)
      ensures warehouses == old(warehouses) && editingWarehouse == old(editingWarehouse) && error == old(error)
      ensures isAddModalOpen == old(isAddModalOpen) && searchQuery == old(searchQuery)
    {
      if isEditing {
        ToggleKeepsDistinct(editingMethods, m);
        editingMethods := Toggle(editingMethods, m);
      } else {
        ToggleKeepsDistinct(selectedMethods, m);
        selectedMethods := Toggle(selectedMethods, m);
      }
    }

    /**
     * Inserts the warehouse with the add form's methods under `wh_<now>`, then
     * closes the form, empties its method list and reloads. A failure records
     * the add error and changes nothing else.
     */
    method HandleAddWarehouse(form: WarehouseForm, now: Timestamp)
      requires Valid()
      modifies this, db`warehouses
      ensures Valid()
      ensures db.available ==> db.warehouses == Insert(old(db.warehouses), MintId("wh_", now), NewWarehouseRow(form, old(selectedMethods), now))
      ensures db.available ==> !isAddModalOpen && selectedMethods == [] && error == old(error)
      ensures db.available ==> Listing(db.warehouses, NameFilter(searchQuery), NoOrder, warehouses)
      ensures !db.available ==> db.warehouses == old(db.warehouses) && warehouses == old(warehouses)
      ensures !db.available ==> isAddModalOpen == old(isAddModalOpen) && selectedMethods == old(selectedMethods)
      ensures !db.available ==> error == Some("Failed to add warehouse")
      ensures editingMethods == old(editingMethods) && editingWarehouse == old(editingWarehouse) && searchQuery == old(searchQuery)
    {
      if db.available {
        db.warehouses := Insert(db.warehouses, MintId("wh_", now), NewWarehouseRow(form, selectedMethods, now));
        isAddModalOpen := false;
        selectedMethods := [];
        LoadWarehouses();
      } else {
        error := Some("Failed to add warehouse");
      }
    }

    /**
     * Rewrites name, location, contact and methods of row `id`, then closes
     * the edit form, empties its method list and reloads. A failure records
     * the update error and changes nothing else.
     */
    method HandleEditWarehouse(id: string, form: WarehouseForm)
      requires Valid()
      modifies this, db`warehouses
      ensures Valid()
      ensures db.available ==> db.warehouses == UpdateRow(old(db.warehouses), id, ApplyEdit(form, old(editingMethods)))
      ensures db.available ==> editingWarehouse == None && editingMethods == [] && error == old(error)
      ensures db.available ==> Listing(db.warehouses, NameFilter(searchQuery), NoOrder, warehouses)
      ensures !db.available ==> db.warehouses == old(db.warehouses) && warehouses == old(warehouses)
      ensures !db.available ==> editingWarehouse == old(editingWarehouse) && editingMethods == old(editingMethods)
      ensures !db.available ==> error == Some("Failed to update warehouse")
      ensures selectedMethods == old(selectedMethods) && isAddModalOpen == old(isAddModalOpen) && searchQuery == old(searchQuery)
    {
      if db.available {
        db.warehouses := UpdateRow(db.warehouses, id, ApplyEdit(form, editingMethods));
        editingWarehouse := None;
        editingMethods := [];
        LoadWarehouses();
      } else {
        error := Some("Failed to update warehouse");
      }
    }

    /** Deletes row `id`, and only it, then reloads. A failure records the delete error. */
    method HandleDeleteWarehouse(id: string)
      requires Valid()
      modifies this, db`warehouses
      ensures Valid()
      ensures db.available ==> db.warehouses == DeleteRow(old(db.warehouses), id) && error == old(error)
      ensures db.available ==> Listing(db.warehouses, NameFilter(searchQuery), NoOrder, warehouses)
      ensures !db.available ==> db.warehouses == old(db.warehouses) && warehouses == old(warehouses)
      ensures !db.available ==> error == Some("Failed to delete warehouse")
      ensures selectedMethods == old(selectedMethods) && editingMethods == old(editingMethods)
      ensures editingWarehouse == old(editingWarehouse) && isAddModalOpen == old(isAddModalOpen) && searchQuery == old(searchQuery)
    {
      if db.available {
        db.warehouses := DeleteRow(db.warehouses, id);
        LoadWarehouses();
      } else {
        error := Some("Failed to delete warehouse");
      }
    }

    /** The edit button on a listed warehouse: opens the edit form with its stored methods. */
    method HandleStartEdit(w: Warehouse)
      requires Valid()
      requires w in warehouses
      modifies this
      ensures Valid()
      ensures editingWarehouse == Some(w) && editingMethods == w.shippingMethods
      ensures selectedMethods == old(selectedMethods) && warehouses == old(warehouses)
      ensures isAddModalOpen == old(isAddModalOpen) && error == old(error) && searchQuery == old(searchQuery)
    {
      editingWarehouse := Some(w);
      editingMethods := w.shippingMethods;
    }

    /** Closing the add form empties its method list. */
    method CloseAddModal()
      requires Valid()
      modifies this
      ensures Valid()
      ensures !isAddModalOpen && selectedMethods == []
      ensures editingMethods == old(editingMethods) && editingWarehouse == old(editingWarehouse)
      ensures warehouses == old(warehouses) && error == old(error) && searchQuery == old(searchQuery)
    {
      isAddModalOpen := false;
      selectedMethods := [];
    }

    /** Closing the edit form empties its method list. */
    method CloseEditModal()
      requires Valid()
      modifies this
      ensures Valid()
      ensures editingWarehouse == None && editingMethods == []
      ensures selectedMethods == old(selectedMethods) && isAddModalOpen == old(isAddModalOpen)
      ensures warehouses == old(warehouses) && error == old(error) && searchQuery == old(searchQuery)
    {
      editingWarehouse := None;
      editingMethods := [];
    }

    /** Once an error is recorded the panel shows only the error. */
    function Screen(): (v: View)
      reads this
      ensures v.ErrorOnly? <==> error.Some?
    {
      ViewOf(error)
    }
  }
}
