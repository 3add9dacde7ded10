/**
  The restaurant catalogue (app/RestaurantCatalogue.jsx): the category the screen opens on,
  and `filterRestaurants`, which narrows the sample restaurants first by the selected category
  and then by the search text. A restaurant keeps only the fields the filters read.
*/
module RestaurantCatalogue {
  import opened Wrappers
  import opened Text
  import opened Seqs

  datatype Restaurant = Restaurant(id: string, name: string, categories: seq<string>)

  /** The screen's sample restaurants. */
  const AllRestaurants: seq<Restaurant> := [
    Restaurant("r1", "Burger Joint", ["Burger", "Fries", "Drinks"]),
    Restaurant("r2", "Pizza Palace", ["Pizza", "Italian", "Drinks"]),
    Restaurant("r3", "Taco Haven", ["Taco", "Mexican", "Burrito"]),
    Restaurant("r4", "Salad Spot", ["Salad", "Healthy", "Vegan"]),
    Restaurant("r5", "Sweet Tooth", ["Donut", "Dessert", "Ice Cream"]),
    Restaurant("r6", "Noodle Nirvana", ["Noodles", "Asian", "Pasta"]),
    Restaurant("r7", "Sandwich Spot", ["Sandwich"])]

  const AllCategory := "All"

  /** The names of the category pills, in their order. */
  const CategoryPills: seq<string> := ["All", "Burger", "Taco", "Burrito", "Drink", "Pizza", "Donut",
    "Salad", "Noodles", "Sandwich", "Pasta", "Ice Cream"]

  /** `route.params?.selectedCategory || 'All'` */
  function InitialCategory(param: Option<string>): (c: string)
    ensures param.Some? && param.value != "" ==> c == param.value
    ensures param.None? || param.value == "" ==> c == AllCategory
    ensures c != ""
  {
    if param.Some? && param.value != "" then param.value else AllCategory
  }

  /** The category stage: the list contains the category exactly, case included. */
  predicate InCategory(r: Restaurant, category: string) {
    category in r.categories
  }

  /** The search stage for a lower-cased query: in the lower-cased name or in some lower-cased
      category. */
  predicate MatchesQuery(r: Restaurant, lowerQuery: string) {
    || Contains(ToLower(r.name), lowerQuery)
    || exists i :: 0 <= i < |r.categories| && Contains(ToLower(r.categories[i]), lowerQuery)
  }

  /** Whether a restaurant is listed: 'All' or a category it has, and an empty query or one it
      matches, case aside. */
  predicate Listed(r: Restaurant, category: string, query: string) {
    && (category == AllCategory || InCategory(r, category))
    && (query == "" || MatchesQuery(r, ToLower(query)))
  }

  function CategoryStage(category: string): Restaurant -> bool {
    (r: Restaurant) => InCategory(r, category)
  }

  function SearchStage(lowerQuery: string): Restaurant -> bool {
    (r: Restaurant) => MatchesQuery(r, lowerQuery)
  }

  function ListedBy(category: string, query: string): Restaurant -> bool {
    (r: Restaurant) => Listed(r, category, query)
  }

  /** The restaurants listed, in their order. */
  function Filtered(all: seq<Restaurant>, category: string, query: string): (rs: seq<Restaurant>)
    ensures forall r :: r in rs <==> r in all && Listed(r, category, query)
  {
    Filter(ListedBy(category, query), all)
  }

  /** The list keeps the restaurants' order and only leaves some out. */
  lemma FilteredIsSubsequence(all: seq<Restaurant>, category: string, query: string)
    ensures IsSubsequence(Filtered(all, category, query), all)
  {
    FilterIsSubsequence(ListedBy(category, query), all);
  }

  /** The two stages commute: searching first and narrowing by category second lists the same
      restaurants in the same order. */
  lemma StagesCommute(all: seq<Restaurant>, category: string, lowerQuery: string)
    ensures Filter(SearchStage(lowerQuery), Filter(CategoryStage(category), all))
              == Filter(CategoryStage(category), Filter(SearchStage(lowerQuery), all))
  {
    FilterCommutes(CategoryStage(category), SearchStage(lowerQuery), all);
  }

  /** 'All' with an empty query lists every restaurant. */
  lemma NoFilterListsAll(all: seq<Restaurant>)
    ensures Filtered(all, AllCategory, "") == all
  {
    FilterKeepsAll(ListedBy(AllCategory, ""), all);
  }

  /** The 'Drink' pill lists nothing: the restaurants are tagged 'Drinks', and the category
      stage compares exactly. */
  lemma DrinkPillListsNothing()
    ensures "Drink" in CategoryPills
    ensures Filtered(AllRestaurants, "Drink", "") == []
  {
    assert CategoryPills[4] == "Drink";
    forall r | r in AllRestaurants ensures !ListedBy("Drink", "")(r) {
    }
    FilterDropsAll(ListedBy("Drink", ""), AllRestaurants);
  }

  /** A search for 'drink' does find a restaurant tagged 'Drinks': the search stage compares
      lower-cased infixes. */
  lemma DrinkSearchFindsDrinks()
    ensures AllRestaurants[0] in Filtered(AllRestaurants, AllCategory, "drink")
  {
    var r := AllRestaurants[0];
    assert ToLower("drink") == "drink";
    assert ToLower(r.categories[2]) == "drinks";
    assert OccursAt(ToLower(r.categories[2]), "drink", 0);
  }

  class Screen {
    const allRestaurants: seq<Restaurant>
    var selectedCategory: string
    var searchQuery: string
    var filteredRestaurants: seq<Restaurant>

    /** The screen opened with the route's `selectedCategory`, if any; the list starts empty
        until the first filtering. */
    constructor(param: Option<string>)
      ensures allRestaurants == AllRestaurants && selectedCategory == InitialCategory(param)
      ensures searchQuery == "" && filteredRestaurants == []
    {
      allRestaurants := AllRestaurants;
      selectedCategory := InitialCategory(param);
      searchQuery, filteredRestaurants := "", [];
    }

    /** `filterRestaurants`: the category stage unless the category is 'All', then the search
        stage unless the query is empty. */
    method FilterRestaurants()
      modifies this
      ensures filteredRestaurants == Filtered(allRestaurants, selectedCategory, searchQuery)
      ensures selectedCategory == old(selectedCategory) && searchQuery == old(searchQuery)
    {
      var temp := allRestaurants;
      if selectedCategory != AllCategory {
        temp := Filter(CategoryStage(selectedCategory), temp);
      }
      if searchQuery != "" {
        var lowerCaseQuery := ToLower(searchQuery);
        temp := Filter(SearchStage(lowerCaseQuery), temp);
      }
      StagesAreFiltered(allRestaurants, selectedCategory, searchQuery);
      filteredRestaurants := temp;
    }

    /** A category pill (or a new route category): select it and filter again. */
    method HandleCategoryPress(category: string)
      modifies this
      ensures selectedCategory == category && searchQuery == old(searchQuery)
      ensures filteredRestaurants == Filtered(allRestaurants, category, searchQuery)
    {
      selectedCategory := category;
      FilterRestaurants();
    }

    /** The search box's `onChangeText`: set the query and filter again. */
    method HandleSearchChange(text: string)
      modifies this
      ensures searchQuery == text && selectedCategory == old(selectedCategory)
      ensures filteredRestaurants == Filtered(allRestaurants, selectedCategory, text)
    {
      searchQuery := text;
      FilterRestaurants();
    }

    /** The effect on new route parameters: a truthy category that differs from the selected
        one is selected, and the list filtered again; anything else changes nothing. */
    method HandleRouteCategory(param: Option<string>)
      modifies this
      ensures param.Some? && param.value != "" && param.value != old(selectedCategory) ==>
                selectedCategory == param.value
                && filteredRestaurants == Filtered(allRestaurants, param.value, searchQuery)
      ensures !(param.Some? && param.value != "" && param.value != old(selectedCategory)) ==>
                selectedCategory == old(selectedCategory) && filteredRestaurants == old(filteredRestaurants)
      ensures searchQuery == old(searchQuery)
    {
      if param.Some? && param.value != "" && param.value != selectedCategory {
        HandleCategoryPress(param.value);
      }
    }
  }

  /** The two guarded stages of `filterRestaurants` compute `Filtered`. */
  lemma StagesAreFiltered(all: seq<Restaurant>, category: string, query: string)
    ensures var afterCategory := if category != AllCategory then Filter(CategoryStage(category), all) else all;
            var afterSearch := if query != "" then Filter(SearchStage(ToLower(query)), afterCategory) else afterCategory;
            afterSearch == Filtered(all, category, query)
  {
    var c, s, l := CategoryStage(category), SearchStage(ToLower(query)), ListedBy(category, query);
    if category != AllCategory && query != "" {
      FilterBoth(c, s, l, all);
    } else if category != AllCategory {
      FilterSamePredicate(c, l, all);
    } else if query != "" {
      FilterSamePredicate(s, l, all);
    } else {
      FilterKeepsAll(l, all);
    }
  }
}
