/** Line-item editing (src/components/budgets/BudgetItemsForm.tsx): add, remove, update with
    automatic `total_price = quantity * unit_price`, and the subtotal. */
module BudgetItemsForm {

  /** `BudgetItemFormData`. */
  datatype ItemFormData = ItemFormData(description: string, quantity: real, unitPrice: real, totalPrice: real)

  /** The item `addItem` appends. */
  const BlankItem: ItemFormData := ItemFormData("", 1.0, 0.0, 0.0)

  /** `addItem`: one blank item at the end. */
  function AddItem(items: seq<ItemFormData>): (r: seq<ItemFormData>)
    ensures |r| == |items| + 1
    ensures r[..|items|] == items
    ensures r[|items|] == ItemFormData("", 1.0, 0.0, 0.0)
  {
    items + [BlankItem]
  }

  /** `removeItem`: with more than one item, keeps every item whose position is not `index`;
      with one item (or none) nothing is removed. */
  function RemoveItem(items: seq<ItemFormData>, index: int): (r: seq<ItemFormData>)
    ensures |items| <= 1 ==> r == items
    ensures |items| > 1 && 0 <= index < |items| ==>
              |r| == |items| - 1
              && (forall k :: 0 <= k < index ==> r[k] == items[k])
              && (forall k :: index <= k < |r| ==> r[k] == items[k + 1])
    ensures !(0 <= index < |items|) ==> r == items
    ensures items != [] ==> r != []
  {
    if |items| > 1 && 0 <= index < |items| then items[..index] + items[index + 1..] else items
  }

  /** The field `updateItem` writes and the value written to it. */
  datatype FieldUpdate =
    | SetDescription(text: string)
    | SetQuantity(quantity: real)
    | SetUnitPrice(unitPrice: real)
    | SetTotalPrice(totalPrice: real)

  /** `updateItem`: copies the list, overwrites one field of item `index`, and when that field
      is the quantity or the unit price, recomputes that item's total. */
  method UpdateItem(items: seq<ItemFormData>, index: nat, update: FieldUpdate) returns (updated: seq<ItemFormData>)
    requires index < |items|
    ensures |updated| == |items|
    ensures forall k :: 0 <= k < |items| && k != index ==> updated[k] == items[k]
    ensures update.SetDescription? ==> updated[index] == items[index].(description := update.text)
    ensures update.SetQuantity? ==>
              updated[index] == items[index].(quantity := update.quantity,
                                               totalPrice := update.quantity * items[index].unitPrice)
    ensures update.SetUnitPrice? ==>
              updated[index] == items[index].(unitPrice := update.unitPrice,
                                               totalPrice := items[index].quantity * update.unitPrice)
    ensures update.SetTotalPrice? ==> updated[index] == items[index].(totalPrice := update.totalPrice)
    ensures update.SetQuantity? || update.SetUnitPrice? ==>
              updated[index].totalPrice == updated[index].quantity * updated[index].unitPrice
  {
    var copy := new ItemFormData[|items|](k requires 0 <= k < |items| => items[k]);
    match update {
      case SetDescription(text) => copy[index] := copy[index].(description := text);
      case SetQuantity(q) => copy[index] := copy[index].(quantity := q);
      case SetUnitPrice(u) => copy[index] := copy[index].(unitPrice := u);
      case SetTotalPrice(t) => copy[index] := copy[index].(totalPrice := t);
    }
    if update.SetQuantity? || update.SetUnitPrice? {
      copy[index] := copy[index].(totalPrice := copy[index].quantity * copy[index].unitPrice);
    }
    updated := copy[..];
  }

  /** `calculateSubtotal`: `items.reduce((sum, item) => sum + item.total_price, 0)`. */
  function Subtotal(items: seq<ItemFormData>): (total: real)
    ensures items == [] ==> total == 0.0
  {
    if items == [] then 0.0 else Subtotal(items[..|items| - 1]) + items[|items| - 1].totalPrice
  }

  lemma {:induction false} SubtotalAppend(a: seq<ItemFormData>, b: seq<ItemFormData>)
    ensures Subtotal(a + b) == Subtotal(a) + Subtotal(b)
    decreases |b|
  {
    if b == [] {
      assert a + b == a;
    } else {
      assert (a + b)[..|a + b| - 1] == a + b[..|b| - 1];
      SubtotalAppend(a, b[..|b| - 1]);
    }
  }

  lemma SubtotalSingleton(x: ItemFormData)
    ensures Subtotal([x]) == x.totalPrice
  {
  }

  /** Adding a blank item leaves the subtotal unchanged. */
  lemma SubtotalAddItem(items: seq<ItemFormData>)
    ensures Subtotal(AddItem(items)) == Subtotal(items)
  {
  }

  /** Removing item `index` takes exactly its total off the subtotal. */
  lemma SubtotalRemoveItem(items: seq<ItemFormData>, index: nat)
    requires 1 < |items| && index < |items|
    ensures Subtotal(RemoveItem(items, index)) == Subtotal(items) - items[index].totalPrice
  {
    assert items == items[..index] + [items[index]] + items[index + 1..];
    SubtotalAppend(items[..index] + [items[index]], items[index + 1..]);
    SubtotalAppend(items[..index], [items[index]]);
    SubtotalAppend(items[..index], items[index + 1..]);
    SubtotalSingleton(items[index]);
  }

  /** Replacing item `index` swaps its total for the new one in the subtotal. */
  lemma SubtotalReplace(items: seq<ItemFormData>, index: nat, x: ItemFormData)
    requires index < |items|
    ensures Subtotal(items[index := x]) == Subtotal(items) - items[index].totalPrice + x.totalPrice
  {
    assert items == items[..index] + [items[index]] + items[index + 1..];
    assert items[index := x] == items[..index] + [x] + items[index + 1..];
    SubtotalAppend(items[..index] + [items[index]], items[index + 1..]);
    SubtotalAppend(items[..index], [items[index]]);
    SubtotalAppend(items[..index] + [x], items[index + 1..]);
    SubtotalAppend(items[..index], [x]);
    SubtotalSingleton(items[index]);
    SubtotalSingleton(x);
  }

  /** Removing the item just added restores the list. */
  lemma RemoveUndoesAdd(items: seq<ItemFormData>)
    requires items != []
    ensures RemoveItem(AddItem(items), |items|) == items
  {
  }
}
