/**
  The cart screen (app/Cart.jsx): each line's quantity buttons and remove button dispatch
  cart actions, and the subtotal, the total and the bottom bar all show the store's `total`.
  A handler is modelled as the action it dispatches, `None` when it dispatches nothing.
*/
module CartScreen {
  import opened Wrappers
  import opened CartActions
  import opened CartReducer

  /** `handleIncreaseQuantity` of a line. */
  function IncreaseAction(item: CartItem): Action
  {
    UpdateCartItemQuantity(item.id, item.quantity + 1)
  }

  /** `handleDecreaseQuantity` of a line: nothing at quantity one or below. */
  function DecreaseAction(item: CartItem): (a: Option<Action>)
    ensures a.Some? <==> item.quantity > 1
    ensures a.Some? ==> a.value == UpdateCartItemQuantity(item.id, item.quantity - 1)
  {
    if item.quantity > 1 then Some(UpdateCartItemQuantity(item.id, item.quantity - 1)) else None
  }

  /** `handleRemoveItem` of a line. */
  function RemoveAction(item: CartItem): Action
  {
    RemoveFromCart(item.id)
  }

  /** The price a line shows, `item.price * item.quantity`; its addons are listed, not added. */
  function ShownLinePrice(item: CartItem): (r: real)
    ensures r == LinePrice(item)
  {
    TimesIsProduct(item.price, item.quantity);
    item.price * item.quantity as real
  }

  /** Every line has a positive quantity. */
  predicate QuantitiesPositive(items: seq<CartItem>) {
    forall i :: 0 <= i < |items| ==> items[i].quantity >= 1
  }

  /** With one line per id, the quantity update touches exactly the line of that id. */
  lemma UpdateIsPointwise(s: CartState, k: int, q: int)
    requires IdsUnique(s.items) && 0 <= k < |s.items|
    ensures UpdateQuantity(s, s.items[k].id, q).items == s.items[k := s.items[k].(quantity := q)]
  {
  }

  /** The '+' button on a line of a consistent cart raises the total by one unit price. */
  lemma IncreaseAddsOneUnit(s: CartState, k: int)
    requires Inv(s) && 0 <= k < |s.items|
    ensures var r := Reduce(s, IncreaseAction(s.items[k]));
            Inv(r) && |r.items| == |s.items| && r.items[k].quantity == s.items[k].quantity + 1
            && r.total == s.total + s.items[k].price
  {
    var it := s.items[k];
    UpdateIsPointwise(s, k, it.quantity + 1);
    UpdateRestoresInv(s, it.id, it.quantity + 1);
    TotalUpdate(s.items, k, it.(quantity := it.quantity + 1));
    LineGrows(it, 1);
  }

  /** The '-' button on a line above one lowers the total by one unit price. */
  lemma DecreaseRemovesOneUnit(s: CartState, k: int)
    requires Inv(s) && 0 <= k < |s.items| && s.items[k].quantity > 1
    ensures var r := Reduce(s, DecreaseAction(s.items[k]).value);
            Inv(r) && |r.items| == |s.items| && r.items[k].quantity == s.items[k].quantity - 1
            && r.total == s.total - s.items[k].price
  {
    var it := s.items[k];
    UpdateIsPointwise(s, k, it.quantity - 1);
    UpdateRestoresInv(s, it.id, it.quantity - 1);
    TotalUpdate(s.items, k, it.(quantity := it.quantity - 1));
    LineGrows(it, -1);
  }

  /** The remove button deletes the line and its price from the total. */
  lemma RemoveDropsLine(s: CartState, k: int)
    requires Inv(s) && 0 <= k < |s.items|
    ensures var r := Reduce(s, RemoveAction(s.items[k]));
            Inv(r) && r.items == s.items[..k] + s.items[k + 1..] && r.total == s.total - LinePrice(s.items[k])
  {
    RemovePresent(s, s.items[k].id);
    RemoveKeepsInv(s, s.items[k].id);
  }

  /** The actions these screens dispatch: a line's three buttons, and the product screen's add
      with a quantity of at least one. */
  predicate UiAction(s: CartState, a: Action) {
    || (exists k :: 0 <= k < |s.items| && a == IncreaseAction(s.items[k]))
    || (exists k :: 0 <= k < |s.items| && DecreaseAction(s.items[k]) == Some(a))
    || (exists k :: 0 <= k < |s.items| && a == RemoveAction(s.items[k]))
    || (a.actionType == ADD_TO_CART && a.payload.ItemPayload? && a.payload.item.quantity >= 1)
  }

  /** The buttons never drive a quantity below one, although the reducer itself would accept any
      quantity: every line stays positive under the actions the screens dispatch. */
  lemma UiActionsKeepQuantitiesPositive(s: CartState, a: Action)
    requires IdsUnique(s.items) && QuantitiesPositive(s.items) && UiAction(s, a)
    ensures WellFormed(a) && QuantitiesPositive(Reduce(s, a).items)
  {
    if k :| 0 <= k < |s.items| && a == IncreaseAction(s.items[k]) {
      UpdateIsPointwise(s, k, s.items[k].quantity + 1);
    } else if k :| 0 <= k < |s.items| && DecreaseAction(s.items[k]) == Some(a) {
      UpdateIsPointwise(s, k, s.items[k].quantity - 1);
    } else if k :| 0 <= k < |s.items| && a == RemoveAction(s.items[k]) {
      RemoveKeepsPositive(s, k);
    } else {
      AddKeepsPositive(s, a.payload.item);
    }
  }

  lemma RemoveKeepsPositive(s: CartState, k: int)
    requires IdsUnique(s.items) && QuantitiesPositive(s.items) && 0 <= k < |s.items|
    ensures QuantitiesPositive(Reduce(s, RemoveAction(s.items[k])).items)
  {
    RemovePresent(s, s.items[k].id);
    var rest := s.items[..k] + s.items[k + 1..];
    forall i | 0 <= i < |rest| ensures rest[i].quantity >= 1 {
      assert rest[i] == if i < k then s.items[i] else s.items[i + 1];
    }
  }

  lemma AddKeepsPositive(s: CartState, item: CartItem)
    requires IdsUnique(s.items) && QuantitiesPositive(s.items) && item.quantity >= 1
    ensures QuantitiesPositive(Reduce(s, AddToCart(item)).items)
  {
    if FindIndex(s.items, item.id) >= 0 {
      AddExisting(s, item);
    } else {
      AddAbsent(s, item);
    }
  }
}
