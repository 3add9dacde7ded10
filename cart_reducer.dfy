/**
  The cart reducer (store/reducers/cartReducer.js): a pure function from the cart state
  `{items, total}` and an action to the next state. `total` is a running figure that the
  add and remove cases adjust incrementally and the quantity-update case recomputes from
  scratch; the invariant of interest is that it equals the sum of `price * quantity`.
*/
module CartReducer {
  import opened Seqs
  import opened JsObject
  import opened CartActions

  datatype CartState = CartState(items: seq<CartItem>, total: real)

  /** `initialState`: no items and a zero total. */
  const InitialState := CartState([], 0.0)

  /** `price * n` for an integer `n`, as `n` additions (or subtractions) of `price`.
      `TimesIsProduct` shows it is the product; stating the sums with it keeps them linear. */
  function Times(price: real, n: int): real
    decreases if n < 0 then -n else n
  {
    if n == 0 then 0.0
    else if n > 0 then Times(price, n - 1) + price
    else Times(price, n + 1) - price
  }

  /** What one line contributes to the total, `price * quantity`; addons play no part. */
  function LinePrice(it: CartItem): real {
    Times(it.price, it.quantity)
  }

  /** `items.reduce((sum, item) => sum + item.price * item.quantity, 0)`, folded from the left. */
  function Total(items: seq<CartItem>): real {
    if items == [] then 0.0 else Total(items[..|items| - 1]) + LinePrice(items[|items| - 1])
  }

  predicate IdsUnique(items: seq<CartItem>) {
    forall i, j :: 0 <= i < j < |items| ==> items[i].id != items[j].id
  }

  /** The cart invariant: one line per id and a total that is the sum of the lines. */
  predicate Inv(s: CartState) {
    IdsUnique(s.items) && s.total == Total(s.items)
  }

  /** `items.findIndex(item => item.id === id)` */
  function FindIndex(items: seq<CartItem>, id: string): (k: int)
    ensures -1 <= k < |items|
    ensures 0 <= k ==> items[k].id == id
    ensures forall j :: 0 <= j < |items| && (k < 0 || j < k) ==> items[j].id != id
  {
    if items == [] then -1
    else if items[0].id == id then 0
    else
      var k := FindIndex(items[1..], id);
      if k < 0 then -1 else k + 1
  }

  /** `quantity || 1`: a zero (or missing) quantity counts as one. */
  function AddQuantity(q: int): (r: int)
    ensures r != 0 && (q != 0 ==> r == q)
  {
    if q == 0 then 1 else q
  }

  /** The `ADD_TO_CART` case. */
  function Add(s: CartState, item: CartItem): CartState {
    var q := AddQuantity(item.quantity);
    var k := FindIndex(s.items, item.id);
    if k >= 0 then
      CartState(s.items[k := s.items[k].(quantity := s.items[k].quantity + q)],
                s.total + Times(item.price, q))
    else
      var newItem := item.(quantity := q);
      CartState(s.items + [newItem], s.total + LinePrice(newItem))
  }

  /** The filter predicate of the remove case, `item.id !== id`, named so that it is one value. */
  function NotId(id: string): CartItem -> bool {
    (it: CartItem) => it.id != id
  }

  /** The `REMOVE_FROM_CART` case: drop every line with the id and subtract the first one's price. */
  function Remove(s: CartState, id: string): CartState {
    var k := FindIndex(s.items, id);
    if k >= 0 then CartState(Filter(NotId(id), s.items), s.total - LinePrice(s.items[k]))
    else s
  }

  /** The `map` of the quantity-update case. */
  function SetQuantity(items: seq<CartItem>, id: string, q: int): seq<CartItem> {
    seq(|items|, j requires 0 <= j < |items| =>
      if items[j].id == id then items[j].(quantity := q) else items[j])
  }

  /** The `UPDATE_CART_ITEM_QUANTITY` case: set the quantity, then recompute the total. */
  function UpdateQuantity(s: CartState, id: string, q: int): CartState {
    var items := SetQuantity(s.items, id, q);
    CartState(items, Total(items))
  }

  /** `cartReducer(state, action)` */
  function Reduce(s: CartState, a: Action): CartState
    requires WellFormed(a)
  {
    if a.actionType == ADD_TO_CART then Add(s, a.payload.item)
    else if a.actionType == REMOVE_FROM_CART then Remove(s, a.payload.id)
    else if a.actionType == UPDATE_CART_ITEM_QUANTITY then
      UpdateQuantity(s, a.payload.itemId, a.payload.quantity)
    else if a.actionType == CLEAR_CART then CartState([], 0.0)
    else s
  }

  // ---------------------------------------------------------------------------------------
  // Products and the sum

  /** One more unit adds one price, whatever the sign of `n`. */
  lemma TimesStep(price: real, n: int)
    ensures Times(price, n + 1) == Times(price, n) + price
  {
  }

  lemma {:induction false} TimesIsProduct(price: real, n: int)
    ensures Times(price, n) == price * n as real
    decreases if n < 0 then -n else n
  {
    if n > 0 {
      TimesIsProduct(price, n - 1);
      TimesStep(price, n - 1);
    } else if n < 0 {
      TimesIsProduct(price, n + 1);
      TimesStep(price, n);
    }
  }

  lemma {:induction false} TimesAdd(price: real, a: int, b: int)
    ensures Times(price, a + b) == Times(price, a) + Times(price, b)
    decreases if b < 0 then -b else b
  {
    if b > 0 {
      TimesAdd(price, a, b - 1);
      TimesStep(price, a + b - 1);
      TimesStep(price, b - 1);
    } else if b < 0 {
      TimesAdd(price, a, b + 1);
      TimesStep(price, a + b);
      TimesStep(price, b);
    }
  }

  /** Multiplication by a non-zero count can be cancelled. */
  lemma TimesCancel(a: real, b: real, n: int)
    requires n != 0
    ensures Times(a, n) == Times(b, n) <==> a == b
  {
    TimesIsProduct(a, n);
    TimesIsProduct(b, n);
    if a * n as real == b * n as real {
      assert (a - b) * n as real == 0.0;
    }
  }

  lemma {:induction false} TotalAppend(a: seq<CartItem>, b: seq<CartItem>)
    ensures Total(a + b) == Total(a) + Total(b)
  {
    if b == [] {
      assert a + b == a;
    } else {
      TotalAppend(a, b[..|b| - 1]);
      assert (a + b)[..|a + b| - 1] == a + b[..|b| - 1];
    }
  }

  lemma TotalSingle(x: CartItem)
    ensures Total([x]) == LinePrice(x)
  {
    assert [x][..0] == [];
  }

  /** Replacing one line changes the total by the difference of the two line prices. */
  lemma TotalUpdate(items: seq<CartItem>, k: int, x: CartItem)
    requires 0 <= k < |items|
    ensures Total(items[k := x]) == Total(items) - LinePrice(items[k]) + LinePrice(x)
  {
    var pre, post := items[..k], items[k + 1..];
    SplitAt(items, k);
    UpdateAt(items, k, x);
    TotalSplit(pre, items[k], post);
    TotalSplit(pre, x, post);
  }

  /** A sequence is its part before `k`, its element at `k` and its part after `k`. */
  lemma SplitAt<T>(items: seq<T>, k: int)
    requires 0 <= k < |items|
    ensures items == items[..k] + [items[k]] + items[k + 1..]
  {
    assert items[k..] == [items[k]] + items[k + 1..];
    assert items == items[..k] + items[k..];
  }

  lemma UpdateAt<T>(items: seq<T>, k: int, x: T)
    requires 0 <= k < |items|
    ensures items[k := x] == items[..k] + [x] + items[k + 1..]
  {
  }

  /** The sum around one line is the sums of both sides plus that line's price. */
  lemma TotalSplit(pre: seq<CartItem>, x: CartItem, post: seq<CartItem>)
    ensures Total(pre + [x] + post) == Total(pre) + LinePrice(x) + Total(post)
  {
    TotalAppend(pre + [x], post);
    TotalAppend(pre, [x]);
    TotalSingle(x);
  }

  /** Addon prices never enter the total: two carts with the same prices and quantities, line
      for line, have the same total whatever their addons, names or images. */
  lemma {:induction false} TotalIgnoresAddons(a: seq<CartItem>, b: seq<CartItem>)
    requires |a| == |b|
    requires forall i :: 0 <= i < |a| ==> a[i].price == b[i].price && a[i].quantity == b[i].quantity
    ensures Total(a) == Total(b)
  {
    if a != [] {
      TotalIgnoresAddons(a[..|a| - 1], b[..|b| - 1]);
    }
  }

  // ---------------------------------------------------------------------------------------
  // One lemma per case

  /** Adding an id already present changes only that line's quantity, by `quantity || 1`; its
      price, addons and position are kept, and the total grows by the INCOMING price. */
  lemma AddExisting(s: CartState, item: CartItem)
    requires FindIndex(s.items, item.id) >= 0
    ensures var k := FindIndex(s.items, item.id);
            var q := AddQuantity(item.quantity);
            var r := Add(s, item);
            && |r.items| == |s.items|
            && r.items[k] == s.items[k].(quantity := s.items[k].quantity + q)
            && (forall j :: 0 <= j < |s.items| && j != k ==> r.items[j] == s.items[j])
            && r.total == s.total + Times(item.price, q)
  {
  }

  /** Adding an absent id appends exactly one line, the item with quantity `quantity || 1`. */
  lemma AddAbsent(s: CartState, item: CartItem)
    requires FindIndex(s.items, item.id) < 0
    ensures var q := AddQuantity(item.quantity);
            var r := Add(s, item);
            && |r.items| == |s.items| + 1
            && r.items[..|s.items|] == s.items
            && r.items[|s.items|] == item.(quantity := q)
            && r.total == s.total + Times(item.price, q)
  {
  }

  /** Changing one line's quantity, or its addons, keeps the ids as they were. */
  lemma SameIdsKeepUnique(a: seq<CartItem>, b: seq<CartItem>)
    requires |a| == |b| && IdsUnique(a)
    requires forall j :: 0 <= j < |a| ==> a[j].id == b[j].id
    ensures IdsUnique(b)
  {
  }

  /** After a merge the sum of the lines has grown by the STORED price times the added quantity. */
  lemma AddExistingSum(s: CartState, item: CartItem)
    requires FindIndex(s.items, item.id) >= 0
    ensures var k := FindIndex(s.items, item.id);
            Total(Add(s, item).items) == Total(s.items) + Times(s.items[k].price, AddQuantity(item.quantity))
  {
    var k := FindIndex(s.items, item.id);
    var q := AddQuantity(item.quantity);
    var x := s.items[k];
    TotalUpdate(s.items, k, x.(quantity := x.quantity + q));
    LineGrows(x, q);
  }

  /** Raising a line's quantity by `q` raises its price by `q` units. */
  lemma LineGrows(x: CartItem, q: int)
    ensures LinePrice(x.(quantity := x.quantity + q)) == LinePrice(x) + Times(x.price, q)
  {
    TimesAdd(x.price, x.quantity, q);
  }

  /** On a merge the invariant survives exactly when the incoming price equals the stored one. */
  lemma AddExistingKeepsInvIff(s: CartState, item: CartItem)
    requires Inv(s) && FindIndex(s.items, item.id) >= 0
    ensures Inv(Add(s, item)) <==> item.price == s.items[FindIndex(s.items, item.id)].price
  {
    var k := FindIndex(s.items, item.id);
    var r := Add(s, item);
    AddExisting(s, item);
    AddExistingSum(s, item);
    TimesCancel(item.price, s.items[k].price, AddQuantity(item.quantity));
    SameIdsKeepUnique(s.items, r.items);
  }

  /** Appending a line with a fresh id keeps the invariant. */
  lemma AddAbsentKeepsInv(s: CartState, item: CartItem)
    requires Inv(s) && FindIndex(s.items, item.id) < 0
    ensures Inv(Add(s, item))
  {
    var newItem := item.(quantity := AddQuantity(item.quantity));
    TotalAppend(s.items, [newItem]);
    assert Total([newItem]) == LinePrice(newItem) by {
      assert [newItem][..0] == [];
    }
  }

  /** A filter that matches nothing keeps the whole sequence. */
  lemma FilterNoMatch(items: seq<CartItem>, id: string)
    requires forall j :: 0 <= j < |items| ==> items[j].id != id
    ensures Filter(NotId(id), items) == items
  {
    forall x | x in items ensures NotId(id)(x) {
      var j :| 0 <= j < |items| && items[j] == x;
    }
    FilterKeepsAll(NotId(id), items);
  }

  /** The filter of the remove case drops the one line with the id and keeps the rest. */
  lemma FilterDropsOnly(pre: seq<CartItem>, x: CartItem, post: seq<CartItem>)
    requires forall j :: 0 <= j < |pre| ==> pre[j].id != x.id
    requires forall j :: 0 <= j < |post| ==> post[j].id != x.id
    ensures Filter(NotId(x.id), pre + [x] + post) == pre + post
  {
    var p := NotId(x.id);
    FilterAppend(p, pre + [x], post);
    FilterAppend(p, pre, [x]);
    assert Filter(p, [x]) == [] by {
      assert [x][1..] == [];
    }
    FilterNoMatch(pre, x.id);
    FilterNoMatch(post, x.id);
    assert Filter(p, pre + [x]) == pre by {
      assert pre + [] == pre;
    }
  }

  /** With one line per id, the filter of the remove case takes out exactly the line of that id. */
  lemma FilterRemovesFound(items: seq<CartItem>, k: int)
    requires IdsUnique(items) && 0 <= k < |items|
    ensures Filter(NotId(items[k].id), items) == items[..k] + items[k + 1..]
  {
    var pre, x, post := items[..k], items[k], items[k + 1..];
    forall j | 0 <= j < |pre| ensures pre[j].id != x.id {
      assert pre[j] == items[j];
    }
    forall j | 0 <= j < |post| ensures post[j].id != x.id {
      assert post[j] == items[k + 1 + j];
    }
    SplitAt(items, k);
    FilterDropsOnly(pre, x, post);
  }

  /** Removing a present id deletes its line and subtracts that line's price. */
  lemma RemovePresent(s: CartState, id: string)
    requires IdsUnique(s.items) && FindIndex(s.items, id) >= 0
    ensures var k := FindIndex(s.items, id);
            var r := Remove(s, id);
            && r.items == s.items[..k] + s.items[k + 1..]
            && r.total == s.total - LinePrice(s.items[k])
  {
    FilterRemovesFound(s.items, FindIndex(s.items, id));
  }

  /** Removing an id that is not in the cart returns the state unchanged. */
  lemma RemoveAbsent(s: CartState, id: string)
    requires FindIndex(s.items, id) < 0
    ensures Remove(s, id) == s
  {
  }

  /** Taking one line out of a sequence with unique ids leaves them unique. */
  lemma DropKeepsUnique(items: seq<CartItem>, k: int)
    requires IdsUnique(items) && 0 <= k < |items|
    ensures IdsUnique(items[..k] + items[k + 1..])
  {
    var rest := items[..k] + items[k + 1..];
    forall i, j | 0 <= i < j < |rest| ensures rest[i].id != rest[j].id {
      var i' := if i < k then i else i + 1;
      var j' := if j < k then j else j + 1;
      assert rest[i] == items[i'] && rest[j] == items[j'];
    }
  }

  /** Taking one line out lowers the sum by that line's price. */
  lemma DropTotal(items: seq<CartItem>, k: int)
    requires 0 <= k < |items|
    ensures Total(items[..k] + items[k + 1..]) == Total(items) - LinePrice(items[k])
  {
    var pre, post := items[..k], items[k + 1..];
    SplitAt(items, k);
    TotalSplit(pre, items[k], post);
    TotalAppend(pre, post);
  }

  /** Removing keeps the invariant. */
  lemma RemoveKeepsInv(s: CartState, id: string)
    requires Inv(s)
    ensures Inv(Remove(s, id))
  {
    var k := FindIndex(s.items, id);
    if k >= 0 {
      RemovePresent(s, id);
      DropKeepsUnique(s.items, k);
      DropTotal(s.items, k);
    }
  }

  /** The quantity update sets the quantity of the matching lines only, with no clamp to one,
      and the new total is the full sum, even when no line matches. */
  lemma UpdateSetsQuantity(s: CartState, id: string, q: int)
    ensures var r := UpdateQuantity(s, id, q);
            && |r.items| == |s.items|
            && (forall j :: 0 <= j < |s.items| && s.items[j].id == id ==>
                  r.items[j] == s.items[j].(quantity := q))
            && (forall j :: 0 <= j < |s.items| && s.items[j].id != id ==> r.items[j] == s.items[j])
            && r.total == Total(r.items)
  {
  }

  /** The update restores the invariant from any state with one line per id, even one whose
      total had drifted. */
  lemma UpdateRestoresInv(s: CartState, id: string, q: int)
    requires IdsUnique(s.items)
    ensures Inv(UpdateQuantity(s, id, q))
  {
    var r := UpdateQuantity(s, id, q);
    assert forall j :: 0 <= j < |r.items| ==> r.items[j].id == s.items[j].id;
  }

  /** Clearing yields the initial state from any state. */
  lemma ClearResets(s: CartState)
    ensures Reduce(s, ClearCart()) == InitialState && Inv(InitialState)
  {
  }

  /** An action whose tag is none of the four leaves the state as it was. */
  lemma UnknownActionUnchanged(s: CartState, a: Action)
    requires a.actionType !in {ADD_TO_CART, REMOVE_FROM_CART, UPDATE_CART_ITEM_QUANTITY, CLEAR_CART}
    ensures Reduce(s, a) == s
  {
  }

  // ---------------------------------------------------------------------------------------
  // The invariant over runs

  /** An add for an id already in the cart carries the price stored for it. */
  predicate PriceConsistent(s: CartState, a: Action)
    requires WellFormed(a)
  {
    a.actionType == ADD_TO_CART ==>
      var k := FindIndex(s.items, a.payload.item.id);
      k >= 0 ==> s.items[k].price == a.payload.item.price
  }

  lemma ReducePreservesInv(s: CartState, a: Action)
    requires Inv(s) && WellFormed(a) && PriceConsistent(s, a)
    ensures Inv(Reduce(s, a))
  {
    if a.actionType == ADD_TO_CART {
      if FindIndex(s.items, a.payload.item.id) >= 0 {
        AddExistingKeepsInvIff(s, a.payload.item);
      } else {
        AddAbsentKeepsInv(s, a.payload.item);
      }
    } else if a.actionType == REMOVE_FROM_CART {
      RemoveKeepsInv(s, a.payload.id);
    } else if a.actionType == UPDATE_CART_ITEM_QUANTITY {
      UpdateRestoresInv(s, a.payload.itemId, a.payload.quantity);
    }
  }

  /** The store applying a sequence of actions in order. */
  function ReduceAll(s: CartState, acts: seq<Action>): CartState
    requires forall i :: 0 <= i < |acts| ==> WellFormed(acts[i])
    decreases |acts|
  {
    if acts == [] then s else ReduceAll(Reduce(s, acts[0]), acts[1..])
  }

  /** Every add in the run carries the stored price of an id already in the cart. */
  predicate ConsistentRun(s: CartState, acts: seq<Action>)
    requires forall i :: 0 <= i < |acts| ==> WellFormed(acts[i])
    decreases |acts|
  {
    acts == [] || (PriceConsistent(s, acts[0]) && ConsistentRun(Reduce(s, acts[0]), acts[1..]))
  }

  /** Starting from `initialState`, every price-consistent run keeps one line per id and
      `total == Σ price * quantity`. */
  lemma {:induction false} RunKeepsInv(s: CartState, acts: seq<Action>)
    requires forall i :: 0 <= i < |acts| ==> WellFormed(acts[i])
    requires Inv(s) && ConsistentRun(s, acts)
    ensures Inv(ReduceAll(s, acts))
    decreases |acts|
  {
    if acts != [] {
      ReducePreservesInv(s, acts[0]);
      RunKeepsInv(Reduce(s, acts[0]), acts[1..]);
    }
  }

  lemma RunFromInitialKeepsInv(acts: seq<Action>)
    requires forall i :: 0 <= i < |acts| ==> WellFormed(acts[i])
    requires ConsistentRun(InitialState, acts)
    ensures Inv(ReduceAll(InitialState, acts))
  {
    InitialInv();
    RunKeepsInv(InitialState, acts);
  }

  lemma InitialInv()
    ensures Inv(InitialState)
  {
  }

  /** Whatever addons an added item carries, the cart's total comes out the same. */
  lemma AddIgnoresAddons(s: CartState, item: CartItem, addons: Entries<real>)
    ensures Add(s, item).total == Add(s, item.(addons := addons)).total
    ensures Total(Add(s, item).items) == Total(Add(s, item.(addons := addons)).items)
  {
    var r1 := Add(s, item);
    var r2 := Add(s, item.(addons := addons));
    TotalIgnoresAddons(r1.items, r2.items);
  }

  /** An id absent from a sequence is found at the position of a line appended with it. */
  lemma {:induction false} FindIndexAppended(items: seq<CartItem>, x: CartItem)
    requires FindIndex(items, x.id) < 0
    ensures FindIndex(items + [x], x.id) == |items|
  {
    if items != [] {
      assert (items + [x])[1..] == items[1..] + [x];
      FindIndexAppended(items[1..], x);
    }
  }

  /** Adding the same id with quantity 1 and then 2 to a cart without it gives one line of
      quantity 3, and the total grows by three unit prices. */
  lemma AddSameItemTwice(s: CartState, item: CartItem)
    requires FindIndex(s.items, item.id) < 0 && item.quantity == 1
    ensures var r := Add(Add(s, item), item.(quantity := 2));
            && |r.items| == |s.items| + 1
            && r.items[|s.items|].quantity == 3
            && r.total == s.total + 3.0 * item.price
  {
    FindIndexAppended(s.items, item.(quantity := 1));
  }

  /** Two lines, 10 × 2 and 5 × 3, total 35; updating the first to quantity 5 gives 65. */
  lemma UpdateExample()
    ensures var a := CartItem("1", "A", 10.0, 2, "", []);
            var b := CartItem("2", "B", 5.0, 3, "", []);
            var s := CartState([a, b], 35.0);
            Inv(s) && UpdateQuantity(s, "1", 5).total == 65.0
  {
    var a := CartItem("1", "A", 10.0, 2, "", []);
    var b := CartItem("2", "B", 5.0, 3, "", []);
    assert [a, b][..1] == [a];
    assert [a][..0] == [];
    assert Total([a]) == 20.0;
    assert Total([a, b]) == 35.0;
    var u := SetQuantity([a, b], "1", 5);
    assert u == [a.(quantity := 5), b];
    assert u[..1] == [a.(quantity := 5)];
    assert Total(u[..1]) == 50.0;
  }
}
