/**
 * The supplier panel of src/components/admin/SupplierManager.tsx: a supplier list
 * searchable by name, with add, edit and delete.
 */
module SupplierManager {
  import opened Store
  import opened Schema

  /** The searchable field: the supplier name contains the query. */
  function NameFilter(q: string): Supplier -> bool {
    (s: Supplier) => Matches(q, s.name)
  }

  /** The list query has no ORDER BY. */
  function NoOrder(s: Supplier): int {
    0
  }

  /** The fields the add and edit forms submit. */
  datatype SupplierForm = SupplierForm(name: string, contact: string, address: string)

  /** The row `handleAddSupplier` inserts: the form under `sup_<now>`, created now, with no products yet. */
  function NewSupplierRow(form: SupplierForm, now: Timestamp): (s: Supplier)
    ensures s.id == MintId("sup_", now) && s.createdAt == now && s.products == []
    ensures s.name == form.name && s.contact == form.contact && s.address == form.address
  {
    Supplier(MintId("sup_", now), form.name, form.contact, form.address, [], now)
  }

  /** `UPDATE suppliers SET name, contact, address`. */
  function ApplyEdit(form: SupplierForm): Supplier -> Supplier {
    (s: Supplier) => s.(name := form.name, contact := form.contact, address := form.address)
  }

  /** An edit rewrites exactly name, contact and address: the id, the product list and the creation time stay. */
  lemma EditKeepsIdentity(form: SupplierForm, s: Supplier)
    ensures ApplyEdit(form)(s) == NewSupplierRow(form, s.createdAt).(id := s.id, products := s.products)
  {
  }

  /** What a listing on this panel promises: every listed supplier matches, and every matching supplier is listed. */
  lemma ListedSuppliersMatch(t: map<string, Supplier>, q: string, rows: seq<Supplier>)
    requires Listing(t, NameFilter(q), NoOrder, rows)
    ensures forall i :: 0 <= i < |rows| ==> rows[i] in t.Values && (q != "" ==> Contains(rows[i].name, q))
    ensures forall k :: k in t && (q == "" || Contains(t[k].name, q)) ==> t[k] in rows
  {
    ListingRows(t, NameFilter(q), NoOrder, rows);
  }

  /** A supplier added under a fresh id appears in the next listing whose search its name matches. */
  lemma AddedSupplierIsListed(t: map<string, Supplier>, form: SupplierForm, now: Timestamp, q: string, rows: seq<Supplier>)
    requires MintId("sup_", now) !in t
    requires Listing(Insert(t, MintId("sup_", now), NewSupplierRow(form, now)), NameFilter(q), NoOrder, rows)
    requires Matches(q, form.name)
    ensures NewSupplierRow(form, now) in rows
  {
    var t' := Insert(t, MintId("sup_", now), NewSupplierRow(form, now));
    ListingRows(t', NameFilter(q), NoOrder, rows);
    assert t'[MintId("sup_", now)] == NewSupplierRow(form, now);
  }

  class SupplierManager {
    const db: Database
    var suppliers: seq<Supplier>
    var searchQuery: string
    var isAddModalOpen: bool
    var editingSupplier: Option<Supplier>
    var error: Option<string>

    constructor (db: Database)
      ensures this.db == db && suppliers == [] && searchQuery == "" && !isAddModalOpen
      ensures editingSupplier == None && error == None
    {
      this.db := db;
      suppliers := [];
      searchQuery := "";
      isAddModalOpen := false;
      editingSupplier := None;
      error := None;
    }

    /** Lists the suppliers whose name matches the search. A failure records the load error. */
    method LoadSuppliers()
      modifies this
      ensures db.available ==> Listing(db.suppliers, NameFilter(searchQuery), NoOrder, suppliers) && error == old(error)
      ensures !db.available ==> suppliers == old(suppliers) && error == Some("Failed to load suppliers")
      ensures searchQuery == old(searchQuery) && isAddModalOpen == old(isAddModalOpen) && editingSupplier == old(editingSupplier)
    {
      if db.available {
        var ids;
        ids, suppliers := Select(db.suppliers, NameFilter(searchQuery), NoOrder);
      } else {
        error := Some("Failed to load suppliers");
      }
    }

    /** Typing in the search box reloads the list for the new query. */
    method SetSearchQuery(q: string)
      modifies this
      ensures searchQuery == q
      ensures db.available ==> Listing(db.suppliers, NameFilter(q), NoOrder, suppliers) && error == old(error)
      ensures !db.available ==> suppliers == old(suppliers) && error == Some("Failed to load suppliers")
      ensures isAddModalOpen == old(isAddModalOpen) && editingSupplier == old(editingSupplier)
    {
      searchQuery := q;
      LoadSuppliers();
    }

    /** Inserts exactly one supplier under `sup_<now>`, closes the form and reloads. A failure records the add error. */
    method HandleAddSupplier(form: SupplierForm, now: Timestamp)
      modifies this, db`suppliers
      ensures db.available ==> db.suppliers == Insert(old(db.suppliers), MintId("sup_", now), NewSupplierRow(form, now))
      ensures db.available ==> !isAddModalOpen && error == old(error)
      ensures db.available ==> Listing(db.suppliers, NameFilter(searchQuery), NoOrder, suppliers)
      ensures !db.available ==> db.suppliers == old(db.suppliers) && suppliers == old(suppliers)
      ensures !db.available ==> isAddModalOpen == old(isAddModalOpen) && error == Some("Failed to add supplier")
      ensures searchQuery == old(searchQuery) && editingSupplier == old(editingSupplier)
    {
      if db.available {
        db.suppliers := Insert(db.suppliers, MintId("sup_", now), NewSupplierRow(form, now));
        isAddModalOpen := false;
        LoadSuppliers();
      } else {
        error := Some("Failed to add supplier");
      }
    }

    /**
     * Rewrites name, contact and address of row `id` (the id the edit
     * form keeps from the supplier it was opened on), closes the form and
     * reloads. A failure records the update error.
     */
    method HandleEditSupplier(id: string, form: SupplierForm)
      modifies this, db`suppliers
      ensures db.available ==> db.suppliers == UpdateRow(old(db.suppliers), id, ApplyEdit(form))
      ensures db.available ==> editingSupplier == None && error == old(error)
      ensures db.available ==> Listing(db.suppliers, NameFilter(searchQuery), NoOrder, suppliers)
      ensures !db.available ==> db.suppliers == old(db.suppliers) && suppliers == old(suppliers)
      ensures !db.available ==> editingSupplier == old(editingSupplier) && error == Some("Failed to update supplier")
      ensures searchQuery == old(searchQuery) && isAddModalOpen == old(isAddModalOpen)
    {
      if db.available {
        db.suppliers := UpdateRow(db.suppliers, id, ApplyEdit(form));
        editingSupplier := None;
        LoadSuppliers();
      } else {
        error := Some("Failed to update supplier");
      }
    }

    /** Deletes row `id`, and only it, then reloads. A failure records the delete error. */
    method HandleDeleteSupplier(id: string)
      modifies this, db`suppliers
      ensures db.available ==> db.suppliers == DeleteRow(old(db.suppliers), id) && error == old(error)
      ensures db.available ==> Listing(db.suppliers, NameFilter(searchQuery), NoOrder, suppliers)
      ensures !db.available ==> db.suppliers == old(db.suppliers) && suppliers == old(suppliers)
      ensures !db.available ==> error == Some("Failed to delete supplier")
      ensures searchQuery == old(searchQuery) && isAddModalOpen == old(isAddModalOpen) && editingSupplier == old(editingSupplier)
    {
      if db.available {
        db.suppliers := DeleteRow(db.suppliers, id);
        LoadSuppliers();
      } else {
        error := Some("Failed to delete supplier");
      }
    }

    /** Once an error is recorded the panel shows only the error. */
    function Screen(): (v: View)
      reads this
      ensures v.ErrorOnly? <==> error.Some?
    {
      ViewOf(error)
    }
  }
}
