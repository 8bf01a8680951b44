/** The new-budget page (src/pages/NewBudget.tsx): the initial item list, item validation
    with its error keys, the submit guard, and the records a submission stores. */
module NewBudget {
  import opened Types
  import opened BudgetItemsForm
  import Budgets

  /** The page starts with one blank item. */
  const InitialItems: seq<ItemFormData> := [ItemFormData("", 1.0, 0.0, 0.0)]

  datatype ItemField = DescriptionField | QuantityField | UnitPriceField

  /** Form error keys: `items`, `items.<index>.<field>`, and the form's own fields
      (`title`, `description`, `client_id`, `root`) by name. */
  datatype ErrorKey =
    | ItemsKey
    | ItemFieldKey(index: nat, field: ItemField)
    | FormFieldKey(name: string)

  const EmptyItemsMessage: string := "Adicione pelo menos um item ao orçamento"
  const DescriptionMessage: string := "Descrição é obrigatória"
  const QuantityMessage: string := "Quantidade deve ser maior que zero"
  const UnitPriceMessage: string := "Valor unitário deve ser maior que zero"
  const SaveFailedMessage: string := "Erro ao criar orçamento. Tente novamente."

  /** The message `validateItems` records under an item key. */
  function MessageFor(k: ErrorKey): string
  {
    match k
    case ItemsKey => EmptyItemsMessage
    case ItemFieldKey(_, DescriptionField) => DescriptionMessage
    case ItemFieldKey(_, QuantityField) => QuantityMessage
    case ItemFieldKey(_, UnitPriceField) => UnitPriceMessage
    case FormFieldKey(_) => ""
  }

  /** The characters `String.prototype.trim` removes: white space and line terminators. */
  predicate IsTrimmed(c: char)
  {
    var n := c as int;
    || 0x09 <= n <= 0x0D || n == 0x20 || n == 0xA0 || n == 0x1680
    || 0x2000 <= n <= 0x200A || n == 0x2028 || n == 0x2029 || n == 0x202F
    || n == 0x205F || n == 0x3000 || n == 0xFEFF
  }

  /** `s.trim()` is the empty string exactly when every character of `s` is trimmed. */
  predicate IsBlank(s: string)
  {
    forall i :: 0 <= i < |s| ==> IsTrimmed(s[i])
  }

  predicate FieldInvalid(item: ItemFormData, f: ItemField)
  {
    match f
    case DescriptionField => IsBlank(item.description)
    case QuantityField => item.quantity <= 0.0
    case UnitPriceField => item.unitPrice <= 0.0
  }

  predicate ItemValid(item: ItemFormData)
  {
    !IsBlank(item.description) && item.quantity > 0.0 && item.unitPrice > 0.0
  }

  predicate ItemsValid(items: seq<ItemFormData>)
  {
    |items| > 0 && forall i :: 0 <= i < |items| ==> ItemValid(items[i])
  }

  /** `validateItems`: records one error per violated rule and reports whether none was. */
  method ValidateItems(items: seq<ItemFormData>) returns (valid: bool, errors: map<ErrorKey, string>)
    ensures valid <==> ItemsValid(items)
    ensures valid <==> errors == map[]
    ensures ItemsKey in errors <==> items == []
    ensures forall i, f :: 0 <= i < |items| && FieldInvalid(items[i], f) ==> ItemFieldKey(i, f) in errors
    ensures forall k :: k in errors ==>
              && errors[k] == MessageFor(k)
              && !k.FormFieldKey?
              && (k.ItemFieldKey? ==> k.index < |items| && FieldInvalid(items[k.index], k.field))
  {
    var hasErrors := false;
    errors := map[];
    if |items| == 0 {
      errors := errors[ItemsKey := EmptyItemsMessage];
      hasErrors := true;
      assert ItemsKey in errors;
    }
    var index := 0;
    while index < |items|
      invariant 0 <= index <= |items|
      invariant hasErrors <==> errors != map[]
      invariant hasErrors <==> items == [] || exists i :: 0 <= i < index && !ItemValid(items[i])
      invariant ItemsKey in errors <==> items == []
      invariant forall i, f :: 0 <= i < index && FieldInvalid(items[i], f) ==> ItemFieldKey(i, f) in errors
      invariant forall k :: k in errors ==>
                  && errors[k] == MessageFor(k)
                  && !k.FormFieldKey?
                  && (k.ItemFieldKey? ==> k.index < index && FieldInvalid(items[k.index], k.field))
    {
      var item := items[index];
      if IsBlank(item.description) {
        errors := errors[ItemFieldKey(index, DescriptionField) := DescriptionMessage];
        hasErrors := true;
      }
      if item.quantity <= 0.0 {
        errors := errors[ItemFieldKey(index, QuantityField) := QuantityMessage];
        hasErrors := true;
      }
      if item.unitPrice <= 0.0 {
        errors := errors[ItemFieldKey(index, UnitPriceField) := UnitPriceMessage];
        hasErrors := true;
      }
      index := index + 1;
    }
    valid := !hasErrors;
  }

  /** The form's error state after `validateItems`, as a flat map from key to message:
      previous `items.*` errors are cleared and the new ones set. The key `items` does not
      start with `items.`, so an earlier `items` error is not cleared. */
  function FormErrorsAfter(previous: map<ErrorKey, string>, newErrors: map<ErrorKey, string>): (r: map<ErrorKey, string>)
    ensures forall k :: k in newErrors ==> k in r && r[k] == newErrors[k]
    ensures forall k :: k in r && k.ItemFieldKey? ==> k in newErrors
    ensures forall k :: k in previous && !k.ItemFieldKey? && k !in newErrors ==> k in r && r[k] == previous[k]
    ensures r.Keys <= previous.Keys + newErrors.Keys
  {
    (map k | k in previous && !k.ItemFieldKey? :: previous[k]) + newErrors
  }

  /** The initial blank item fails validation on its description and its unit price. */
  lemma InitialItemsInvalid()
    ensures !ItemsValid(InitialItems)
    ensures FieldInvalid(InitialItems[0], DescriptionField)
    ensures FieldInvalid(InitialItems[0], UnitPriceField)
    ensures !FieldInvalid(InitialItems[0], QuantityField)
  {
  }

  /** `{ budget_id, description, quantity, unit_price, total_price }` for one form item. */
  function StoredItem(item: ItemFormData, budgetId: string): BudgetItemInsert
  {
    BudgetItemInsert(budgetId, item.description, item.quantity, item.unitPrice, item.totalPrice)
  }

  /** `items.map(item => ({ budget_id: budget.id, ... }))`. */
  function StoredItems(items: seq<ItemFormData>, budgetId: string): (r: seq<BudgetItemInsert>)
    ensures |r| == |items|
    ensures forall k :: 0 <= k < |items| ==> r[k].budgetId == budgetId
    ensures forall k :: 0 <= k < |items| ==> r[k] == StoredItem(items[k], budgetId)
  {
    if items == [] then [] else [StoredItem(items[0], budgetId)] + StoredItems(items[1..], budgetId)
  }

  /** Reads a stored item back as form data. */
  function FormItems(stored: seq<BudgetItemInsert>): (r: seq<ItemFormData>)
    ensures |r| == |stored|
  {
    if stored == [] then []
    else [ItemFormData(stored[0].description, stored[0].quantity, stored[0].unitPrice, stored[0].totalPrice)]
         + FormItems(stored[1..])
  }

  /** The stored items keep the form items' count, order and values. */
  lemma {:induction false} StoredItemsRoundTrip(items: seq<ItemFormData>, budgetId: string)
    ensures FormItems(StoredItems(items, budgetId)) == items
  {
    if items != [] {
      StoredItemsRoundTrip(items[1..], budgetId);
      assert StoredItems(items, budgetId)[1..] == StoredItems(items[1..], budgetId);
    }
  }

  datatype BudgetFormData = BudgetFormData(title: string, description: string, clientId: string)

  datatype SubmitOutcome =
    | NotAllowed                                 // no user, or quota reached: nothing validated
    | Invalid(errors: map<ErrorKey, string>)     // validation recorded errors: nothing written
    | BudgetInsertFailed(budget: BudgetInsert, message: string)
    | ItemsInsertFailed(budgetId: string, budget: BudgetInsert, items: seq<BudgetItemInsert>, message: string)
    | Created(budgetId: string, budget: BudgetInsert, items: seq<BudgetItemInsert>)

  /** `onSubmit`. The budgets and `now` feed `canCreateBudget()`; `publicUuid` is the
      generated v4 uuid; `insertedBudgetId` is the id the store gives the budget (`None` when
      that insert fails); `itemsInserted` says whether the item insert succeeds. */
  method Submit(user: Option<User>, budgets: seq<BudgetWithDetails>, now: DateTime,
                items: seq<ItemFormData>, data: BudgetFormData, publicUuid: string,
                insertedBudgetId: Option<string>, itemsInserted: bool) returns (outcome: SubmitOutcome)
    ensures user.None? || !Budgets.CanCreateBudget(user, budgets, now) <==> outcome.NotAllowed?
    ensures outcome.Invalid? <==>
              user.Some? && Budgets.CanCreateBudget(user, budgets, now) && !ItemsValid(items)
    ensures outcome.Invalid? ==> outcome.errors != map[]
    ensures outcome.Invalid? ==>
              && (ItemsKey in outcome.errors <==> items == [])
              && (forall i, f :: 0 <= i < |items| && FieldInvalid(items[i], f) ==> ItemFieldKey(i, f) in outcome.errors)
              && (forall k :: k in outcome.errors ==>
                    && outcome.errors[k] == MessageFor(k)
                    && !k.FormFieldKey?
                    && (k.ItemFieldKey? ==> k.index < |items| && FieldInvalid(items[k.index], k.field)))
    ensures outcome.BudgetInsertFailed? || outcome.ItemsInsertFailed? || outcome.Created? ==>
              && user.Some? && ItemsValid(items)
              && outcome.budget == BudgetInsert(user.value.id, data.clientId, data.title,
                                                data.description, Pending, publicUuid)
    ensures outcome.BudgetInsertFailed? ==> insertedBudgetId.None? && outcome.message == SaveFailedMessage
    ensures outcome.ItemsInsertFailed? || outcome.Created? ==>
              && insertedBudgetId == Some(outcome.budgetId)
              && outcome.items == StoredItems(items, outcome.budgetId)
    ensures outcome.ItemsInsertFailed? ==> !itemsInserted && outcome.message == SaveFailedMessage
    ensures outcome.Created? <==>
              && user.Some? && Budgets.CanCreateBudget(user, budgets, now) && ItemsValid(items)
              && insertedBudgetId.Some? && itemsInserted
  {
    if user.None? || !Budgets.CanCreateBudget(user, budgets, now) {
      return NotAllowed;
    }
    var valid, errors := ValidateItems(items);
    if !valid {
      return Invalid(errors);
    }
    var budget := BudgetInsert(user.value.id, data.clientId, data.title, data.description, Pending, publicUuid);
    if insertedBudgetId.None? {
      return BudgetInsertFailed(budget, SaveFailedMessage);
    }
    var budgetItems := StoredItems(items, insertedBudgetId.value);
    if !itemsInserted {
      return ItemsInsertFailed(insertedBudgetId.value, budget, budgetItems, SaveFailedMessage);
    }
    outcome := Created(insertedBudgetId.value, budget, budgetItems);
  }
}
