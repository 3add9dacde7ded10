/**
  The product screen (app/Product.jsx): the quantity stepper, the addon switches, the total it
  shows, and the cart line it dispatches with `addToCart`. Selected addons are an object from
  addon id to price, in insertion order; the line carries an object from addon name to price.
  Prices are exact reals: binary floating point is not modelled.
*/
module Product {
  import opened Wrappers
  import opened JsObject
  import opened CartActions
  import CartReducer

  /** An entry of `additionalOptions`. */
  datatype AddonOption = AddonOption(id: string, name: string, price: real)

  /** The fields of a product the screen's logic reads. */
  datatype ProductInfo = ProductInfo(
    id: string,
    name: string,
    currentPrice: real,
    image: string,
    additionalOptions: seq<AddonOption>)

  /** The demonstration product shown when the route carries no parameters. */
  const DefaultProduct := ProductInfo("chicken_burger_1", "Chicken Burger", 6.0,
    "https://via.placeholder.com/300x200",
    [AddonOption("add_cheese", "Add Cheese", 0.5),
     AddonOption("add_bacon", "Add Bacon", 1.0),
     AddonOption("add_meat", "Add Meat (Extra Patty)", 2.0)])

  // ---------------------------------------------------------------------------------------
  // The addon switches

  /** `!!selectedAddons[id]`, the value a switch shows: a stored price is truthy unless it is 0. */
  predicate Shown(sel: Entries<real>, id: string) {
    Get(sel, id).Some? && Get(sel, id).value != 0.0
  }

  /** `handleAddonToggle(id, price)` as written: the stored price's truthiness decides whether
      the addon is removed or (re)assigned. */
  function ToggleAsWritten(sel: Entries<real>, id: string, price: real): (r: Entries<real>)
    ensures Shown(sel, id) ==> !Has(r, id)
    ensures !Shown(sel, id) ==> Get(r, id) == Some(price)
    ensures forall k :: k != id ==> Get(r, k) == Get(sel, k)
  {
    if Shown(sel, id) then Delete(sel, id) else Set(sel, id, price)
  }

  /** An addon priced 0 is stored but never shown as on, and toggling it again stores it again:
      once touched it cannot be deselected, and it travels to the cart line. */
  lemma ZeroPriceAddonSticks(sel: Entries<real>, id: string)
    requires Get(sel, id) == None || Get(sel, id) == Some(0.0)
    ensures var once := ToggleAsWritten(sel, id, 0.0);
            Has(once, id) && !Shown(once, id)
    ensures var twice := ToggleAsWritten(ToggleAsWritten(sel, id, 0.0), id, 0.0);
            Has(twice, id) && !Shown(twice, id)
    ensures var o := AddonOption("no_onion", "No Onion", 0.0);
            var twice := ToggleAsWritten(ToggleAsWritten([], o.id, o.price), o.id, o.price);
            Get(CartAddons(twice, [o]), o.name) == Some(0.0)
  {
    var o := AddonOption("no_onion", "No Onion", 0.0);
    var once := ToggleAsWritten([], o.id, o.price);
    assert once == [(o.id, 0.0)];
    var twice := ToggleAsWritten(once, o.id, o.price);
    assert twice == [(o.id, 0.0)];
    assert twice[..0] == [];
    assert CartAddons(twice[..0], [o]) == [];
    assert FindOption([o], o.id) == Some(o);
  }

  /** The toggle as evidently intended: presence of the key, not its price, decides, and the
      switch shows that presence, so every toggle flips it. */
  function Toggle(sel: Entries<real>, id: string, price: real): (r: Entries<real>)
    ensures Has(r, id) <==> !Has(sel, id)
    ensures Has(r, id) ==> Get(r, id) == Some(price)
    ensures forall k :: k != id ==> Get(r, k) == Get(sel, k)
  {
    if Has(sel, id) then Delete(sel, id) else Set(sel, id, price)
  }

  /** Toggling twice restores the selection: the very same object when the addon was off, and
      the same prices (the entry moved last) when it was on. */
  lemma ToggleTwiceRestores(sel: Entries<real>, id: string, price: real)
    requires Get(sel, id) == None || Get(sel, id) == Some(price)
    ensures forall k :: Get(Toggle(Toggle(sel, id, price), id, price), k) == Get(sel, k)
    ensures !Has(sel, id) ==> Toggle(Toggle(sel, id, price), id, price) == sel
  {
    if !Has(sel, id) {
      SetThenDeleteNew(sel, id, price);
    }
  }

  /** Toggling keeps one entry per addon. */
  lemma ToggleKeepsKeysUnique(sel: Entries<real>, id: string, price: real)
    requires KeysUnique(sel)
    ensures KeysUnique(Toggle(sel, id, price))
  {
    if Has(sel, id) {
      DeleteKeepsKeysUnique(sel, id);
    } else {
      SetKeepsKeysUnique(sel, id, price);
    }
  }

  // ---------------------------------------------------------------------------------------
  // The total shown

  /** The sum of an object's values, in its order. */
  function SumValues(m: Entries<real>): real {
    if m == [] then 0.0 else m[0].1 + SumValues(m[1..])
  }

  lemma {:induction false} SumValuesAppend(m: Entries<real>, e: (string, real))
    ensures SumValues(m + [e]) == SumValues(m) + e.1
  {
    if m != [] {
      assert (m + [e])[1..] == m[1..] + [e];
      SumValuesAppend(m[1..], e);
    }
  }

  /** Deleting a present key takes its value out of the sum. */
  lemma {:induction false} SumValuesDelete(m: Entries<real>, k: string)
    requires KeysUnique(m) && Has(m, k)
    ensures SumValues(Delete(m, k)) == SumValues(m) - Get(m, k).value
  {
    assert KeysUnique(m[1..]) by {
      forall i, j | 0 <= i < j < |m[1..]| ensures m[1..][i].0 != m[1..][j].0 {
        assert m[1..][i] == m[i + 1] && m[1..][j] == m[j + 1];
      }
    }
    if m[0].0 == k {
      NotHasAbsent(m[1..], k);
      DeleteAbsent(m[1..], k);
    } else {
      SumValuesDelete(m[1..], k);
    }
  }

  /** What `calculateTotalPrice` computes: the unit price times the quantity, plus each selected
      addon's price once, whatever the quantity. */
  function TotalPrice(p: ProductInfo, quantity: int, sel: Entries<real>): real {
    p.currentPrice * quantity as real + SumValues(sel)
  }

  /** Switching an addon on adds its price to the total shown, switching it off subtracts it. */
  lemma ToggleChangesTotal(p: ProductInfo, quantity: int, sel: Entries<real>, id: string, price: real)
    requires KeysUnique(sel)
    requires Get(sel, id) == None || Get(sel, id) == Some(price)
    ensures TotalPrice(p, quantity, Toggle(sel, id, price))
              == TotalPrice(p, quantity, sel) + (if Has(sel, id) then -price else price)
  {
    if Has(sel, id) {
      SumValuesDelete(sel, id);
    } else {
      SetShape(sel, id, price);
      SumValuesAppend(sel, (id, price));
    }
  }

  // ---------------------------------------------------------------------------------------
  // The cart line

  /** `additionalOptions.find(opt => opt.id === id)` */
  function FindOption(options: seq<AddonOption>, id: string): (r: Option<AddonOption>)
    ensures r.Some? ==> r.value in options && r.value.id == id
    ensures r.None? <==> forall i :: 0 <= i < |options| ==> options[i].id != id
    ensures r.Some? ==> exists k :: 0 <= k < |options| && options[k] == r.value
                                    && forall i :: 0 <= i < k ==> options[i].id != id
  {
    if options == [] then None
    else if options[0].id == id then Some(options[0])
    else
      var r := FindOption(options[1..], id);
      if r.Some? then
        var k :| 0 <= k < |options[1..]| && options[1..][k] == r.value
                 && forall i :: 0 <= i < k ==> options[1..][i].id != id;
        assert forall i :: 0 <= i < k + 1 ==> options[i].id != id by {
          forall i | 0 <= i < k + 1 ensures options[i].id != id {
            if i > 0 { assert options[i] == options[1..][i - 1]; }
          }
        }
        assert options[k + 1] == r.value;
        r
      else r
  }

  /** The `reduce` over `Object.keys(selectedAddons)`: each selected id found among the options
      stores that option's name with the option's own price; an unknown id is skipped. */
  function CartAddons(sel: Entries<real>, options: seq<AddonOption>): (r: Entries<real>)
    ensures KeysUnique(r)
    decreases |sel|
  {
    if sel == [] then []
    else
      var acc := CartAddons(sel[..|sel| - 1], options);
      match FindOption(options, sel[|sel| - 1].0)
      case Some(o) => SetKeepsKeysUnique(acc, o.name, o.price); Set(acc, o.name, o.price)
      case None => acc
  }

  /** Every selected addon that the product offers is on the line, under its name. */
  lemma {:induction false} CartAddonsIncludesSelected(sel: Entries<real>, options: seq<AddonOption>, i: int)
    requires 0 <= i < |sel| && FindOption(options, sel[i].0).Some?
    ensures Has(CartAddons(sel, options), FindOption(options, sel[i].0).value.name)
    decreases |sel|
  {
    if i < |sel| - 1 {
      var pre := sel[..|sel| - 1];
      assert pre[i] == sel[i];
      CartAddonsIncludesSelected(pre, options, i);
    }
  }

  /** Every entry of the line is an addon the product offers, with the option's price (not the
      price stored in the selection). */
  lemma {:induction false} CartAddonsFromOptions(sel: Entries<real>, options: seq<AddonOption>, n: string)
    requires Has(CartAddons(sel, options), n)
    ensures exists j :: 0 <= j < |options| && options[j].name == n
                        && Get(CartAddons(sel, options), n) == Some(options[j].price)
    ensures exists i :: 0 <= i < |sel| && FindOption(options, sel[i].0).Some?
                        && FindOption(options, sel[i].0).value.name == n
    decreases |sel|
  {
    var pre := sel[..|sel| - 1];
    var f := FindOption(options, sel[|sel| - 1].0);
    if f.Some? && f.value.name == n {
      var j :| 0 <= j < |options| && options[j] == f.value;
    } else {
      CartAddonsFromOptions(pre, options, n);
      var i :| 0 <= i < |pre| && FindOption(options, pre[i].0).Some? && FindOption(options, pre[i].0).value.name == n;
      assert pre[i] == sel[i];
    }
  }

  /** `itemToAdd`: the product's id, name, unit price and image, the chosen quantity, and the
      selected addons by name. */
  function MakeCartItem(p: ProductInfo, quantity: int, sel: Entries<real>): (item: CartItem)
    ensures KeysUnique(item.addons)
  {
    CartItem(p.id, p.name, p.currentPrice, quantity, p.image, CartAddons(sel, p.additionalOptions))
  }

  /** The cart does not charge what the screen showed: adding a new product line raises the
      cart total by the unit price times the quantity, without the addons the screen's total
      included. */
  lemma ShownTotalVersusCart(s: CartReducer.CartState, p: ProductInfo, quantity: int, sel: Entries<real>)
    requires quantity >= 1 && CartReducer.FindIndex(s.items, p.id) < 0
    ensures CartReducer.Reduce(s, AddToCart(MakeCartItem(p, quantity, sel))).total
              == s.total + TotalPrice(p, quantity, sel) - SumValues(sel)
  {
    CartReducer.AddAbsent(s, MakeCartItem(p, quantity, sel));
    CartReducer.TimesIsProduct(p.currentPrice, quantity);
  }

  class Screen {
    const product: ProductInfo
    var quantity: int
    var selectedAddons: Entries<real>
    /** The actions dispatched to the store, oldest first. */
    var dispatched: seq<Action>

    /** The quantity never drops below one and each addon is selected at most once. */
    predicate Valid()
      reads this
    {
      quantity >= 1 && KeysUnique(selectedAddons)
    }

    /** The screen opened with the route's product, or the demonstration product when the route
        has no parameters. */
    constructor(routeProduct: Option<ProductInfo>)
      ensures product == routeProduct.GetOr(DefaultProduct)
      ensures quantity == 1 && selectedAddons == [] && dispatched == []
      ensures Valid()
    {
      product := routeProduct.GetOr(DefaultProduct);
      quantity, selectedAddons, dispatched := 1, [], [];
    }

    /** `handleDecreaseQuantity`: lowers the quantity only while it is above one. */
    method HandleDecreaseQuantity()
      modifies this
      ensures quantity == if old(quantity) > 1 then old(quantity) - 1 else old(quantity)
      ensures selectedAddons == old(selectedAddons) && dispatched == old(dispatched)
      ensures old(Valid()) ==> Valid()
    {
      if quantity > 1 {
        quantity := quantity - 1;
      }
    }

    /** `handleIncreaseQuantity` */
    method HandleIncreaseQuantity()
      modifies this
      ensures quantity == old(quantity) + 1
      ensures selectedAddons == old(selectedAddons) && dispatched == old(dispatched)
      ensures old(Valid()) ==> Valid()
    {
      quantity := quantity + 1;
    }

    /** A switch's `onValueChange`, with the toggle corrected to test presence. */
    method HandleAddonToggle(addonId: string, addonPrice: real)
      modifies this
      ensures selectedAddons == Toggle(old(selectedAddons), addonId, addonPrice)
      ensures quantity == old(quantity) && dispatched == old(dispatched)
      ensures old(Valid()) ==> Valid()
    {
      if KeysUnique(selectedAddons) {
        ToggleKeepsKeysUnique(selectedAddons, addonId, addonPrice);
      }
      selectedAddons := Toggle(selectedAddons, addonId, addonPrice);
    }

    /** `calculateTotalPrice`: the loop over the selected addons adds each price to the base. */
    method CalculateTotalPrice() returns (price: real)
      ensures price == TotalPrice(product, quantity, selectedAddons)
    {
      price := product.currentPrice * quantity as real;
      var sel := selectedAddons;
      for i := 0 to |sel|
        invariant price == product.currentPrice * quantity as real + SumValues(sel[..i])
      {
        assert sel[..i + 1] == sel[..i] + [sel[i]];
        SumValuesAppend(sel[..i], sel[i]);
        price := price + sel[i].1;
      }
      assert sel[..|sel|] == sel;
    }

    /** `handleAddToCart`: dispatches the line built from the current choices. */
    method HandleAddToCart()
      modifies this
      ensures dispatched == old(dispatched) + [AddToCart(MakeCartItem(product, quantity, selectedAddons))]
      ensures quantity == old(quantity) && selectedAddons == old(selectedAddons)
    {
      dispatched := dispatched + [AddToCart(MakeCartItem(product, quantity, selectedAddons))];
    }
  }
}
