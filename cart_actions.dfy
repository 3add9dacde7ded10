/**
  The cart's action types and action creators (store/actions/cartActions.js).
  An action is a tagged record: the tag says which of the reducer's cases applies and
  the payload carries what that case reads.
*/
module CartActions {
  import opened JsObject

  const ADD_TO_CART := "ADD_TO_CART"
  const REMOVE_FROM_CART := "REMOVE_FROM_CART"
  const UPDATE_CART_ITEM_QUANTITY := "UPDATE_CART_ITEM_QUANTITY"
  const CLEAR_CART := "CLEAR_CART"

  /** A line of the cart as the product screen builds it; `addons` maps addon names to prices. */
  datatype CartItem = CartItem(
    id: string,
    name: string,
    price: real,
    quantity: int,
    image: string,
    addons: Entries<real>)

  datatype Payload =
    | NoPayload
    | ItemPayload(item: CartItem)
    | IdPayload(id: string)
    | QuantityPayload(itemId: string, quantity: int)

  /** `{type, payload}`; `type` is a reserved word here, so the tag is `actionType`. */
  datatype Action = Action(actionType: string, payload: Payload)

  /** The payload has the shape the reducer reads for the action's tag. */
  predicate WellFormed(a: Action) {
    && (a.actionType == ADD_TO_CART ==> a.payload.ItemPayload?)
    && (a.actionType == REMOVE_FROM_CART ==> a.payload.IdPayload?)
    && (a.actionType == UPDATE_CART_ITEM_QUANTITY ==> a.payload.QuantityPayload?)
  }

  /** The four tags are different strings, so the reducer's cases never overlap. */
  lemma TagsDistinct()
    ensures ADD_TO_CART != REMOVE_FROM_CART && ADD_TO_CART != UPDATE_CART_ITEM_QUANTITY
    ensures ADD_TO_CART != CLEAR_CART && REMOVE_FROM_CART != UPDATE_CART_ITEM_QUANTITY
    ensures REMOVE_FROM_CART != CLEAR_CART && UPDATE_CART_ITEM_QUANTITY != CLEAR_CART
  {
  }

  /** `addToCart(item)`: the item travels unchanged. */
  function AddToCart(item: CartItem): (a: Action)
    ensures WellFormed(a) && a.actionType == ADD_TO_CART
    ensures a.payload.ItemPayload? && a.payload.item == item
  {
    Action(ADD_TO_CART, ItemPayload(item))
  }

  /** `removeFromCart(itemId)` */
  function RemoveFromCart(itemId: string): (a: Action)
    ensures WellFormed(a) && a.actionType == REMOVE_FROM_CART
    ensures a.payload.IdPayload? && a.payload.id == itemId
  {
    Action(REMOVE_FROM_CART, IdPayload(itemId))
  }

  /** `updateCartItemQuantity(itemId, quantity)` */
  function UpdateCartItemQuantity(itemId: string, quantity: int): (a: Action)
    ensures WellFormed(a) && a.actionType == UPDATE_CART_ITEM_QUANTITY
    ensures a.payload.QuantityPayload? && a.payload.itemId == itemId && a.payload.quantity == quantity
  {
    Action(UPDATE_CART_ITEM_QUANTITY, QuantityPayload(itemId, quantity))
  }

  /** `clearCart()`: a tag and no payload. */
  function ClearCart(): (a: Action)
    ensures WellFormed(a) && a.actionType == CLEAR_CART && a.payload.NoPayload?
  {
    Action(CLEAR_CART, NoPayload)
  }
}
