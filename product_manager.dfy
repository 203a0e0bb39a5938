/**
 * The product panel of src/components/admin/ProductManager.tsx: a searchable
 * product list with add, edit and delete, and two image lists, one for the
 * add form and one for the edit form, each capped at 20 images.
 */
module ProductManager {
  import opened Store
  import opened Schema

  /** `MAX_IMAGES`. */
  const MaxImages: nat := 20

  /**
   * An upload of `files` onto the current list: rejected whole, leaving the
   * list as it was, when the result would exceed the cap; otherwise every
   * file is appended, in order.
   */
  function AddImages(current: seq<string>, files: seq<string>): (r: seq<string>)
    ensures |current| + |files| > MaxImages ==> r == current
    ensures |current| + |files| <= MaxImages ==> r == current + files
  {
    if |current| + |files| > MaxImages then current else current + files
  }

  /** An upload never takes a list within the cap above it. */
  lemma UploadKeepsCap(current: seq<string>, files: seq<string>)
    requires |current| <= MaxImages
    ensures |AddImages(current, files)| <= MaxImages
    ensures current <= AddImages(current, files)
  {
  }

  /** The searchable fields: the product name contains the query. */
  function NameFilter(q: string): Product -> bool {
    (p: Product) => Matches(q, p.name)
  }

  /** The list query has no ORDER BY. */
  function NoOrder(p: Product): int {
    0
  }

  /** The fields the add form submits. */
  datatype ProductForm = ProductForm(
    name: string, category: string, price: real, stockLevel: int, variants: int, warehouseId: string)

  /** The row `handleAddProduct` inserts: the form, the add-form images, `prod_<now>`. */
  function NewProductRow(form: ProductForm, images: seq<string>, now: Timestamp): (p: Product)
    ensures p.id == MintId("prod_", now) && p.createdAt == now && p.images == Some(images)
    ensures p.name == form.name && p.category == form.category && p.price == form.price
    ensures p.stockLevel == form.stockLevel && p.variants == form.variants && p.warehouseId == form.warehouseId
  {
    Product(MintId("prod_", now), form.name, form.category, form.price, form.stockLevel,
      form.variants, form.warehouseId, Some(images), now)
  }

  /** `UPDATE products SET name, category, price, stockLevel, variants, warehouseId, images`: id and createdAt stay. */
  function ApplyEdit(form: ProductForm, images: seq<string>): Product -> Product {
    (p: Product) => p.(name := form.name, category := form.category, price := form.price,
      stockLevel := form.stockLevel, variants := form.variants, warehouseId := form.warehouseId,
      images := Some(images))
  }

  /** An edit rewrites the listed columns and keeps the row's identity and creation time. */
  lemma EditKeepsIdentity(form: ProductForm, images: seq<string>, p: Product)
    ensures ApplyEdit(form, images)(p).id == p.id && ApplyEdit(form, images)(p).createdAt == p.createdAt
    ensures ApplyEdit(form, images)(p) == NewProductRow(form, images, p.createdAt).(id := p.id)
  {
  }

  /** `JSON.parse(product.images || '[]')`: the stored list, or none. */
  function StoredImages(p: Product): (images: seq<string>)
    ensures p.images.Some? ==> images == p.images.value
    ensures p.images.None? ==> images == []
  {
    if p.images.Some? then p.images.value else []
  }

  /** Every stored image list is within the cap. */
  predicate ImagesWithinCap(t: map<string, Product>) {
    forall k :: k in t ==> |StoredImages(t[k])| <= MaxImages
  }

  /**
   * After preview `index` of `count` is removed, the button keyed `index` is
   * still rendered: every preview but the last keeps its key.
   */
  predicate StillMounted(index: int, count: int) {
    0 <= index < count - 1
  }

  class ProductManager {
    const db: Database
    var products: seq<Product>
    var searchQuery: string
    var isAddModalOpen: bool
    var editingProduct: Option<Product>
    var selectedImages: seq<string>
    var editingImages: seq<string>
    var error: Option<string>

    /**
     * Both image lists, and every list the panel has stored, are within the
     * cap; the listed products are rows of the table.
     */
    predicate Valid()
      reads this, db
    {
      && |selectedImages| <= MaxImages && |editingImages| <= MaxImages
      && ImagesWithinCap(db.products)
      && forall i :: 0 <= i < |products| ==> products[i] in db.products.Values
    }

    constructor (db: Database)
      requires ImagesWithinCap(db.products)
      ensures this.db == db && Valid()
      ensures products == [] && searchQuery == "" && !isAddModalOpen && editingProduct == None
      ensures selectedImages == [] && editingImages == [] && error == None
    {
      this.db := db;
      products := [];
      searchQuery := "";
      isAddModalOpen := false;
      editingProduct := None;
      selectedImages := [];
      editingImages := [];
      error := None;
    }

    /** Lists the products whose name matches the search. A failure records the load error. */
    method LoadProducts()
      requires ImagesWithinCap(db.products) && |selectedImages| <= MaxImages && |editingImages| <= MaxImages
      requires !db.available ==> Valid()
      modifies this
      ensures Valid()
      ensures db.available ==> Listing(db.products, NameFilter(searchQuery), NoOrder, products) && error == old(error)
      ensures !db.available ==> products == old(products) && error == Some("Failed to load products")
      ensures searchQuery == old(searchQuery) && isAddModalOpen == old(isAddModalOpen)
      ensures editingProduct == old(editingProduct)
      ensures selectedImages == old(selectedImages) && editingImages == old(editingImages)
    {
      if db.available {
        var ids;
        ids, products := Select(db.products, NameFilter(searchQuery), NoOrder);
        ListingRows(db.products, NameFilter(searchQuery), NoOrder, products);
      } else {
        error := Some("Failed to load products");
      }
    }

    /**
     * Uploads `files` to the edit form's list when `isEditing`, to the add
     * form's list otherwise; the other list is untouched. `alerted` is the
     * "up to 20 images" alert, shown exactly when the upload is rejected.
     */
    method HandleImageUpload(files: seq<string>, isEditing: bool) returns (alerted: bool)
      requires Valid()
      modifies this
      ensures Valid()
      ensures isEditing ==> alerted == (|old(editingImages)| + |files| > MaxImages)
      ensures !isEditing ==> alerted == (|old(selectedImages)| + |files| > MaxImages)
      ensures isEditing ==> editingImages == AddImages(old(editingImages), files) && selectedImages == old(selectedImages)
      ensures !isEditing ==> selectedImages == AddImages(old(selectedImages), files) && editingImages == old(editingImages)
      ensures products == old(products) && editingProduct == old(editingProduct) && error == old(error)
      ensures isAddModalOpen == old(isAddModalOpen) && searchQuery == old(searchQuery)
    {
      var current := if isEditing then editingImages else selectedImages;
      alerted := |current| + |files| > MaxImages;
      if !alerted {
        if isEditing {
          editingImages := editingImages + files;
        } else {
          selectedImages := selectedImages + files;
        }
      }
    }

    /** The remove button on add-form preview `index`: that image goes, the others keep their order. */
    method RemoveSelectedImage(index: int)
      requires Valid()
      modifies this
      ensures Valid()
      ensures selectedImages == RemoveAt(old(selectedImages), index)
      ensures editingImages == old(editingImages) && products == old(products) && editingProduct == old(editingProduct)
      ensures isAddModalOpen == old(isAddModalOpen) && error == old(error) && searchQuery == old(searchQuery)
    {
      selectedImages := RemoveAt(selectedImages, index);
    }

    /**
     * The remove button on edit-form preview `index`, as it is evidently meant
     * to work (a `type="button"` button, like the shipping-method toggles of
     * the warehouse forms): that image goes, the others keep their order, and
     * nothing is saved.
     */
    method RemoveEditingImage(index: int)
      requires Valid()
      modifies this
      ensures Valid()
      ensures editingImages == RemoveAt(old(editingImages), index)
      ensures selectedImages == old(selectedImages) && products == old(products) && editingProduct == old(editingProduct)
      ensures isAddModalOpen == old(isAddModalOpen) && error == old(error) && searchQuery == old(searchQuery)
    {
      editingImages := RemoveAt(editingImages, index);
    }

    /**
     * Inserts the product with the add form's images under `prod_<now>`, then
     * closes the form, empties its image list and reloads. A failure records
     * the add error and changes nothing else.
     */
    method HandleAddProduct(form: ProductForm, now: Timestamp)
      requires Valid()
      modifies this, db`products
      ensures Valid()
      ensures db.available ==> db.products == Insert(old(db.products), MintId("prod_", now), NewProductRow(form, old(selectedImages), now))
      ensures db.available ==> !isAddModalOpen && selectedImages == [] && error == old(error)
      ensures db.available ==> Listing(db.products, NameFilter(searchQuery), NoOrder, products)
      ensures !db.available ==> db.products == old(db.products) && products == old(products)
      ensures !db.available ==> isAddModalOpen == old(isAddModalOpen) && selectedImages == old(selectedImages)
      ensures !db.available ==> error == Some("Failed to add product")
      ensures editingImages == old(editingImages) && editingProduct == old(editingProduct) && searchQuery == old(searchQuery)
    {
      if db.available {
        db.products := Insert(db.products, MintId("prod_", now), NewProductRow(form, selectedImages, now));
        isAddModalOpen := false;
        selectedImages := [];
        LoadProducts();
      } else {
        error := Some("Failed to add product");
      }
    }

    /**
     * Rewrites the listed columns of row `id` with the form and the edit
     * form's images, then closes the edit form, empties its image list and
     * reloads. A failure records the update error and changes nothing else.
     */
    method HandleEditProduct(id: string, form: ProductForm)
      requires Valid()
      modifies this, db`products
      ensures Valid()
      ensures db.available ==> db.products == UpdateRow(old(db.products), id, ApplyEdit(form, old(editingImages)))
      ensures db.available ==> editingProduct == None && editingImages == [] && error == old(error)
      ensures db.available ==> Listing(db.products, NameFilter(searchQuery), NoOrder, products)
      ensures !db.available ==> db.products == old(db.products) && products == old(products)
      ensures !db.available ==> editingProduct == old(editingProduct) && editingImages == old(editingImages)
      ensures !db.available ==> error == Some("Failed to update product")
      ensures selectedImages == old(selectedImages) && isAddModalOpen == old(isAddModalOpen) && searchQuery == old(searchQuery)
    {
      if db.available {
        db.products := UpdateRow(db.products, id, ApplyEdit(form, editingImages));
        editingProduct := None;
        editingImages := [];
        LoadProducts();
      } else {
        error := Some("Failed to update product");
      }
    }

    /**
     * A click on the trash button of edit-form preview `index`, as the page
     * is written. The button has no `type`, so inside the edit dialog's form
     * it is a submit button. Its own handler removes the image, and React
     * commits that update before the browser submits the form. The previews
     * are keyed by position, so the clicked button is still in the form
     * afterwards unless it was the last preview. When it is still there, and the
     * browser's required-field check lets the form through (`submits`), the
     * form hands the fields `form` to the committed `handleEditProduct`: the
     * row is saved with the image already removed and the dialog closes.
     */
    method ClickRemoveEditingImage(index: int, form: ProductForm, submits: bool)
      requires Valid() && editingProduct.Some?
      modifies this, db`products
      ensures Valid()
      ensures !(submits && StillMounted(index, |old(editingImages)|)) || !db.available ==>
        editingImages == RemoveAt(old(editingImages), index)
      ensures !(submits && StillMounted(index, |old(editingImages)|)) || !db.available ==>
        db.products == old(db.products) && products == old(products) && editingProduct == old(editingProduct)
      ensures !(submits && StillMounted(index, |old(editingImages)|)) ==> error == old(error)
      ensures submits && StillMounted(index, |old(editingImages)|) && !db.available ==> error == Some("Failed to update product")
      ensures submits && StillMounted(index, |old(editingImages)|) && db.available ==>
        db.products == UpdateRow(old(db.products), old(editingProduct).value.id, ApplyEdit(form, RemoveAt(old(editingImages), index)))
      ensures submits && StillMounted(index, |old(editingImages)|) && db.available ==>
        editingProduct == None && editingImages == [] && error == old(error)
      ensures submits && StillMounted(index, |old(editingImages)|) && db.available ==>
        Listing(db.products, NameFilter(searchQuery), NoOrder, products)
      ensures selectedImages == old(selectedImages) && isAddModalOpen == old(isAddModalOpen) && searchQuery == old(searchQuery)
    {
      var count := |editingImages|;
      var id := editingProduct.value.id;
      RemoveEditingImage(index);
      if submits && StillMounted(index, count) {
        HandleEditProduct(id, form);
      }
    }

    /** Deletes row `id`, and only it, then reloads. A failure records the delete error. */
    method HandleDeleteProduct(id: string)
      requires Valid()
      modifies this, db`products
      ensures Valid()
      ensures db.available ==> db.products == DeleteRow(old(db.products), id) && error == old(error)
      ensures db.available ==> Listing(db.products, NameFilter(searchQuery), NoOrder, products)
      ensures !db.available ==> db.products == old(db.products) && products == old(products)
      ensures !db.available ==> error == Some("Failed to delete product")
      ensures selectedImages == old(selectedImages) && editingImages == old(editingImages)
      ensures editingProduct == old(editingProduct) && isAddModalOpen == old(isAddModalOpen) && searchQuery == old(searchQuery)
    {
      if db.available {
        db.products := DeleteRow(db.products, id);
        LoadProducts();
      } else {
        error := Some("Failed to delete product");
      }
    }

    /** The edit button: opens the edit form on `p` with its stored images, or none. */
    method HandleStartEdit(p: Product)
      requires Valid()
      requires p in products
      modifies this
      ensures Valid()
      ensures editingProduct == Some(p) && editingImages == StoredImages(p)
      ensures selectedImages == old(selectedImages) && products == old(products)
      ensures isAddModalOpen == old(isAddModalOpen) && error == old(error) && searchQuery == old(searchQuery)
    {
      editingProduct := Some(p);
      editingImages := StoredImages(p);
    }

    /** Closing the add form empties its image list. */
    method CloseAddModal()
      requires Valid()
      modifies this
      ensures Valid()
      ensures !isAddModalOpen && selectedImages == []
      ensures editingImages == old(editingImages) && editingProduct == old(editingProduct)
      ensures products == old(products) && error == old(error) && searchQuery == old(searchQuery)
    {
      isAddModalOpen := false;
      selectedImages := [];
    }

    /** Closing the edit form empties its image list. */
    method CloseEditModal()
      requires Valid()
      modifies this
      ensures Valid()
      ensures editingProduct == None && editingImages == []
      ensures selectedImages == old(selectedImages) && isAddModalOpen == old(isAddModalOpen)
      ensures products == old(products) && error == old(error) && searchQuery == old(searchQuery)
    {
      editingProduct := None;
      editingImages := [];
    }

    /** Once an error is recorded the panel shows only the error. */
    function Screen(): (v: View)
      reads this
      ensures v.ErrorOnly? <==> error.Some?
    {
      ViewOf(error)
    }
  }

  /**
   * The as-written click saves: when the edit form started from the stored
   * image list, the table after a submitting click differs from the table
   * before it (which the intended click leaves alone), and the row now holds
   * the form's fields and the list without the removed image.
   */
  lemma ClickSavesUnconfirmed(t: map<string, Product>, id: string, form: ProductForm, images: seq<string>, index: int)
    requires id in t && StoredImages(t[id]) == images && 0 <= index < |images|
    ensures UpdateRow(t, id, ApplyEdit(form, RemoveAt(images, index))) != t
    ensures StoredImages(UpdateRow(t, id, ApplyEdit(form, RemoveAt(images, index)))[id]) == RemoveAt(images, index)
    ensures UpdateRow(t, id, ApplyEdit(form, RemoveAt(images, index)))[id].name == form.name
  {
    var t' := UpdateRow(t, id, ApplyEdit(form, RemoveAt(images, index)));
    assert |StoredImages(t'[id])| < |StoredImages(t[id])|;
  }

  /** What a listing on this panel promises about each listed product. */
  lemma ListedProductsMatch(t: map<string, Product>, q: string, rows: seq<Product>)
    requires Listing(t, NameFilter(q), NoOrder, rows)
    ensures forall i :: 0 <= i < |rows| ==> rows[i] in t.Values && (q != "" ==> Contains(rows[i].name, q))
    ensures forall k :: k in t && Matches(q, t[k].name) ==> t[k] in rows
  {
    ListingRows(t, NameFilter(q), NoOrder, rows);
  }
}
