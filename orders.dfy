/**
  The orders screen (app/Orders.jsx): the colour class of an order's status, the row of five
  stars drawn for its rating, and the list filtered by the search text and the status tab.
  The orders are the screen's fixed sample data; fetching them is not part of the screen's
  live code.
*/
module Orders {
  import opened Wrappers
  import opened Text
  import opened Seqs

  datatype Order = Order(id: string, price: real, rating: real, status: string)

  /** The sample orders the screen starts with. */
  const SampleOrders: seq<Order> := [
    Order("SP 0023900", 25.20, 4.3, "Activo"),
    Order("SP 0023512", 40.00, 5.0, "Completado"),
    Order("SP 0023502", 85.00, 3.8, "Completado"),
    Order("SP 0023450", 20.50, 4.0, "Cancelado")]

  /** The tab every list starts on, and the one that shows every status. */
  const AllTab := "Todos"

  /** The status styles of the stylesheet. */
  datatype StatusStyle = ActiveStatus | CompletedStatus | CancelledStatus | DefaultStatus

  /** `getStatusStyle(status)`: the status is compared in lower case. */
  function GetStatusStyle(status: string): (r: StatusStyle)
    ensures r == ActiveStatus <==> ToLower(status) == "activo"
    ensures r == CompletedStatus <==> ToLower(status) == "completado"
    ensures r == CancelledStatus <==> ToLower(status) == "cancelado"
  {
    var s := ToLower(status);
    if s == "activo" then ActiveStatus
    else if s == "completado" then CompletedStatus
    else if s == "cancelado" then CancelledStatus
    else DefaultStatus
  }

  /** Lower-casing twice is lower-casing once. */
  lemma ToLowerIdempotent(s: string)
    ensures ToLower(ToLower(s)) == ToLower(s)
  {
    assert forall i :: 0 <= i < |s| ==> LowerChar(LowerChar(s[i])) == LowerChar(s[i]);
  }

  /** The style does not depend on the status's case: 'ACTIVO', 'Activo' and 'activo' agree. */
  lemma StatusStyleIgnoresCase(status: string)
    ensures GetStatusStyle(ToLower(status)) == GetStatusStyle(status)
  {
    ToLowerIdempotent(status);
  }

  /** The star row: `Math.floor(rating)` filled stars and the rest of five empty. An array of
      negative length throws, so a rating below 0 or of 6 and above fails the render. */
  function Stars(rating: real): (r: Outcome<(nat, nat)>)
    ensures r.Done? <==> 0.0 <= rating < 6.0
    ensures r.Done? ==> r.value.0 + r.value.1 == 5 && r.value.0 as real <= rating < r.value.0 as real + 1.0
  {
    var f := rating.Floor;
    if 0 <= f <= 5 then Done((f, 5 - f)) else Threw("Invalid array length")
  }

  /** The filter of `filteredOrders`: the search text occurs in the id, ignoring case, and the
      tab is 'Todos' or names the status, ignoring case. */
  predicate Matches(o: Order, activeFilter: string, searchText: string) {
    && Contains(ToLower(o.id), ToLower(searchText))
    && (activeFilter == AllTab || ToLower(o.status) == ToLower(activeFilter))
  }

  function Matcher(activeFilter: string, searchText: string): Order -> bool {
    (o: Order) => Matches(o, activeFilter, searchText)
  }

  /** `filteredOrders`: the orders that match, in their order. */
  function FilteredOrders(orders: seq<Order>, activeFilter: string, searchText: string): (r: seq<Order>)
    ensures forall o :: o in r <==> o in orders && Matches(o, activeFilter, searchText)
  {
    Filter(Matcher(activeFilter, searchText), orders)
  }

  /** The list shown keeps the orders' order and only leaves some out. */
  lemma FilteredIsSubsequence(orders: seq<Order>, activeFilter: string, searchText: string)
    ensures IsSubsequence(FilteredOrders(orders, activeFilter, searchText), orders)
  {
    FilterIsSubsequence(Matcher(activeFilter, searchText), orders);
  }

  /** The empty search on the 'Todos' tab shows every order. */
  lemma NoFilterShowsAll(orders: seq<Order>)
    ensures FilteredOrders(orders, AllTab, "") == orders
  {
    forall o | o in orders ensures Matcher(AllTab, "")(o) {
      assert OccursAt(ToLower(o.id), ToLower(""), 0);
    }
    FilterKeepsAll(Matcher(AllTab, ""), orders);
  }

  /** Searching does not depend on the case of what is typed. */
  lemma SearchIgnoresCase(orders: seq<Order>, activeFilter: string, searchText: string)
    ensures FilteredOrders(orders, activeFilter, ToLower(searchText)) == FilteredOrders(orders, activeFilter, searchText)
  {
    ToLowerIdempotent(searchText);
    FilterSamePredicate(Matcher(activeFilter, ToLower(searchText)), Matcher(activeFilter, searchText), orders);
  }

  /** The search and the tab narrow the list independently: applying them one after the other,
      in either order, gives the same list as applying both. */
  lemma SearchThenTab(orders: seq<Order>, activeFilter: string, searchText: string)
    ensures FilteredOrders(FilteredOrders(orders, AllTab, searchText), activeFilter, "")
              == FilteredOrders(orders, activeFilter, searchText)
    ensures FilteredOrders(FilteredOrders(orders, activeFilter, ""), AllTab, searchText)
              == FilteredOrders(orders, activeFilter, searchText)
  {
    var search, tab := Matcher(AllTab, searchText), Matcher(activeFilter, "");
    forall o | o in orders ensures tab(o) == (activeFilter == AllTab || ToLower(o.status) == ToLower(activeFilter)) {
      assert OccursAt(ToLower(o.id), ToLower(""), 0);
    }
    FilterBoth(search, tab, Matcher(activeFilter, searchText), orders);
    FilterCommutes(search, tab, orders);
  }

  /** On the sample data, the 'Cancelado' tab shows only the cancelled order. */
  lemma CancelledTabExample()
    ensures FilteredOrders(SampleOrders, "Cancelado", "") == [SampleOrders[3]]
  {
    var m := Matcher("Cancelado", "");
    var s := SampleOrders;
    assert m(s[3]) by {
      assert OccursAt(ToLower(s[3].id), ToLower(""), 0);
    }
    assert !m(s[0]) && !m(s[1]) && !m(s[2]) by {
      assert |ToLower(s[0].status)| != |ToLower("Cancelado")|;
      assert |ToLower(s[1].status)| != |ToLower("Cancelado")|;
      assert |ToLower(s[2].status)| != |ToLower("Cancelado")|;
    }
    assert s[3..][1..] == [];
    assert Filter(m, s[3..]) == [s[3]];
    assert s[2..][1..] == s[3..] && s[1..][1..] == s[2..];
    assert Filter(m, s[2..]) == [s[3]];
    assert Filter(m, s[1..]) == [s[3]];
  }

  class Screen {
    const orders: seq<Order>
    var activeFilter: string
    var searchText: string

    constructor()
      ensures orders == SampleOrders && activeFilter == AllTab && searchText == ""
    {
      orders, activeFilter, searchText := SampleOrders, AllTab, "";
    }

    /** The list the screen renders. */
    function Shown(): seq<Order>
      reads this
    {
      FilteredOrders(orders, activeFilter, searchText)
    }

    /** `handleFilterPress(filter)` */
    method HandleFilterPress(filter: string)
      modifies this
      ensures activeFilter == filter && searchText == old(searchText)
      ensures Shown() == FilteredOrders(orders, filter, old(searchText))
    {
      activeFilter := filter;
    }

    /** The search box's `onChangeText`. */
    method HandleSearchChange(text: string)
      modifies this
      ensures searchText == text && activeFilter == old(activeFilter)
      ensures Shown() == FilteredOrders(orders, old(activeFilter), text)
    {
      searchText := text;
    }
  }
}
