/**
 * The new-order form of src/components/orders/AddOrderModal.tsx: an editable
 * list of item rows (`selectedItems`) and the record it submits.
 */
module AddOrderModal {
  import opened Store
  import opened Schema

  /** A fresh row: no product chosen, quantity 1. The form never sets a price. */
  const BlankItem := OrderItem("", 1, None)

  /** One `updateItem(index, field, value)` call: which field, and its new value. */
  datatype ItemUpdate = SetProductId(productId: string) | SetQuantity(quantity: int)

  /** `{ ...item, [field]: value }`. */
  function Apply(item: OrderItem, u: ItemUpdate): (r: OrderItem)
    ensures r.price == item.price
    ensures u.SetProductId? ==> r.productId == u.productId && r.quantity == item.quantity
    ensures u.SetQuantity? ==> r.quantity == u.quantity && r.productId == item.productId
  {
    match u
    case SetProductId(p) => item.(productId := p)
    case SetQuantity(q) => item.(quantity := q)
  }

  /** The submit-time test `item.productId && item.quantity > 0`. */
  predicate Submittable(item: OrderItem) {
    item.productId != "" && item.quantity > 0
  }

  /** `selectedItems.filter(...)`: the rows that get submitted. */
  function SubmittedItems(items: seq<OrderItem>): (r: seq<OrderItem>)
    ensures |r| <= |items|
    ensures forall x :: x in r <==> x in items && Submittable(x)
  {
    if items == [] then []
    else if Submittable(items[0]) then [items[0]] + SubmittedItems(items[1..])
    else SubmittedItems(items[1..])
  }

  /**
   * The filter works row by row and keeps the survivors in their original
   * order: filtering a concatenation filters each part.
   */
  lemma {:induction false} SubmittedDistributes(a: seq<OrderItem>, b: seq<OrderItem>)
    ensures SubmittedItems(a + b) == SubmittedItems(a) + SubmittedItems(b)
    decreases |a|
  {
    if a == [] {
      assert a + b == b;
    } else {
      assert (a + b)[1..] == a[1..] + b;
      SubmittedDistributes(a[1..], b);
    }
  }

  /** Filtering twice is filtering once. */
  lemma {:induction false} SubmittedIdempotent(items: seq<OrderItem>)
    ensures SubmittedItems(SubmittedItems(items)) == SubmittedItems(items)
    decreases |items|
  {
    if items != [] {
      SubmittedIdempotent(items[1..]);
    }
  }

  /** A list whose rows all pass the test is submitted unchanged. */
  lemma {:induction false} SubmittedKeepsValid(items: seq<OrderItem>)
    requires forall i :: 0 <= i < |items| ==> Submittable(items[i])
    ensures SubmittedItems(items) == items
    decreases |items|
  {
    if items != [] {
      SubmittedKeepsValid(items[1..]);
    }
  }

  /** What the form hands to `onSubmit`. */
  datatype OrderForm = OrderForm(
    warehouseId: string, origin: string, sender: string, sendDate: string, items: seq<OrderItem>)

  /** The minus button is rendered for every row, but only while there are at least two rows. */
  predicate RemoveControlShown(items: seq<OrderItem>, index: int) {
    |items| > 1 && 0 <= index < |items|
  }

  class AddOrderModal {
    var selectedItems: seq<OrderItem>

    constructor ()
      ensures selectedItems == [BlankItem]
    {
      selectedItems := [BlankItem];
    }

    /** Appends one blank row; the existing rows are unchanged. */
    method AddItem()
      modifies this
      ensures selectedItems == old(selectedItems) + [BlankItem]
    {
      selectedItems := selectedItems + [BlankItem];
    }

    /**
     * Drops row `index`, keeping the others in order. When the call comes from
     * a rendered minus button the list is left non-empty.
     */
    method RemoveItem(index: int)
      modifies this
      ensures selectedItems == RemoveAt(old(selectedItems), index)
      ensures RemoveControlShown(old(selectedItems), index) ==> |selectedItems| == |old(selectedItems)| - 1 >= 1
    {
      selectedItems := RemoveAt(selectedItems, index);
    }

    /**
     * Copies the list, overwrites row `index` with the updated row, and stores
     * the copy: only that row's one field changes.
     */
    method UpdateItem(index: int, u: ItemUpdate)
      requires 0 <= index < |selectedItems|
      modifies this
      ensures selectedItems == old(selectedItems)[index := Apply(old(selectedItems)[index], u)]
      ensures |selectedItems| == |old(selectedItems)|
      ensures forall j :: 0 <= j < |selectedItems| && j != index ==> selectedItems[j] == old(selectedItems)[j]
    {
      var items := selectedItems;
      var newItems := new OrderItem[|items|];
      for i := 0 to |items|
        invariant forall j :: 0 <= j < i ==> newItems[j] == items[j]
      {
        newItems[i] := items[i];
      }
      assert newItems[..] == items;
      newItems[index] := Apply(newItems[index], u);
      selectedItems := newItems[..];
    }

    /** Builds the submitted record: the form fields as typed and the rows that pass the test. */
    method HandleSubmit(warehouseId: string, origin: string, sender: string, sendDate: string)
      returns (data: OrderForm)
      ensures data.items == SubmittedItems(selectedItems)
      ensures forall i :: 0 <= i < |data.items| ==> data.items[i].productId != "" && data.items[i].quantity > 0
      ensures data.warehouseId == warehouseId && data.origin == origin
      ensures data.sender == sender && data.sendDate == sendDate
    {
      data := OrderForm(warehouseId, origin, sender, sendDate, SubmittedItems(selectedItems));
      assert forall i :: 0 <= i < |data.items| ==> data.items[i] in data.items;
    }
  }
}
