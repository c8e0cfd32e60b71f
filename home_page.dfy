/**
 * The home page: dish rows mapped into dishes, the filter panel, the search
 * box, the four sort orders, the favourite toggle on a dish card and the
 * reviews of the details view.
 */
module HomePage {
  import opened Common
  import opened Text
  import opened Dishes

  /** The filter panel. */
  datatype Filters = Filters(
    cuisine: string,
    maxPrice: real,
    maxCookingTime: real,
    minRating: real,
    excludeIngredients: string,
    serviceType: string,
    dietaryType: string)

  /** The panel as the page first shows it. */
  const DefaultFilters: Filters := Filters("", 1000.0, 60.0, 0.0, "", "", "")

  datatype SortBy = Rating | Price | CookingTime | SpiceLevel

  // ---------------------------------------------------------------------
  // Filtering
  // ---------------------------------------------------------------------

  /** The exclusion box, lower-cased and cut at each comma (entries are trimmed where they are used). */
  function Entries(f: Filters): seq<string> {
    Split(Lower(f.excludeIngredients), ',')
  }

  /** `excludeList.some(excluded => ingredient.includes(excluded.trim()))`. */
  function AnyEntry(ingredient: string, entries: seq<string>): (r: bool)
    ensures r <==> exists e :: 0 <= e < |entries| && Includes(ingredient, Trim(entries[e]))
  {
    if entries == [] then false
    else Includes(ingredient, Trim(entries[0])) || AnyEntry(ingredient, entries[1..])
  }

  /** The lower-cased ingredient contains the trimmed entry. */
  predicate Hits(ingredient: string, entry: string) {
    Includes(Lower(ingredient), Trim(entry))
  }

  /** `ingredients.some(ingredient => AnyEntry(ingredient.toLowerCase(), entries))`. */
  function AnyIngredient(ingredients: seq<string>, entries: seq<string>): (r: bool)
    ensures r <==> exists i, e :: 0 <= i < |ingredients| && 0 <= e < |entries| && Hits(ingredients[i], entries[e])
  {
    if ingredients == [] then false
    else AnyEntry(Lower(ingredients[0]), entries) || AnyIngredient(ingredients[1..], entries)
  }

  /** Every test of the filter but the ingredient exclusion. */
  predicate PassesPanel(f: Filters, q: string, d: Dish) {
    && (f.cuisine == "" || d.cuisine == Some(f.cuisine))
    && d.price <= f.maxPrice
    && d.cookingTime <= f.maxCookingTime
    && d.rating >= f.minRating
    && (f.serviceType == "" || d.serviceType == Some(f.serviceType))
    && (f.dietaryType == "" || d.dietaryType == Some(f.dietaryType))
    && Includes(Lower(d.name), Lower(q))
  }

  /** The filter's test on one dish, as written: the chain of early returns. */
  function KeepDishAsWritten(f: Filters, q: string, d: Dish): bool {
    if f.cuisine != "" && d.cuisine != Some(f.cuisine) then false
    else if d.price > f.maxPrice then false
    else if d.cookingTime > f.maxCookingTime then false
    else if d.rating < f.minRating then false
    else if f.serviceType != "" && d.serviceType != Some(f.serviceType) then false
    else if f.dietaryType != "" && d.dietaryType != Some(f.dietaryType) then false
    else if f.excludeIngredients != "" && d.ingredients.Some? &&
            AnyIngredient(d.ingredients.value, Entries(f)) then false
    else Includes(Lower(d.name), Lower(q))
  }

  /** As written, a dish is kept when it passes the panel and no ingredient contains any trimmed entry. */
  lemma KeepDishAsWrittenMeans(f: Filters, q: string, d: Dish)
    ensures KeepDishAsWritten(f, q, d) <==>
      && PassesPanel(f, q, d)
      && !(f.excludeIngredients != "" && d.ingredients.Some? &&
           exists i, e :: 0 <= i < |d.ingredients.value| && 0 <= e < |Entries(f)| &&
                          Hits(d.ingredients.value[i], Entries(f)[e]))
  {
  }

  /**
   * As written, one blank entry, such as the one after a trailing comma,
   * excludes every dish that lists an ingredient: `includes("")` holds for
   * every string.
   */
  lemma BlankEntryExcludesEveryListedDish(f: Filters, q: string, d: Dish, e: nat)
    requires f.excludeIngredients != ""
    requires e < |Entries(f)| && IsBlank(Entries(f)[e])
    requires d.ingredients.Some? && |d.ingredients.value| > 0
    ensures !KeepDishAsWritten(f, q, d)
  {
    IncludesEmpty(Lower(d.ingredients.value[0]));
    assert Hits(d.ingredients.value[0], Entries(f)[e]);
  }

  /** "nuts," (a trailing comma) cuts into "nuts" and a blank entry. */
  lemma TrailingCommaLeavesBlankEntry()
    ensures Entries(DefaultFilters.(excludeIngredients := "nuts,")) == ["nuts", ""]
    ensures IsBlank(Entries(DefaultFilters.(excludeIngredients := "nuts,"))[1])
  {
    LowerNuts();
    SplitNuts();
  }

  lemma LowerNuts()
    ensures Lower("nuts,") == "nuts,"
  {
    var l := Lower("nuts,");
    assert l[0] == 'n' && l[1] == 'u' && l[2] == 't' && l[3] == 's' && l[4] == ',';
  }

  lemma SplitNuts()
    ensures Split("nuts,", ',') == ["nuts", ""]
  {
    assert ',' !in "nuts";
    SplitTrailing("nuts", ',');
    assert "nuts" + [','] == "nuts,";
  }

  /** The entries that are not blank: the ones the exclusion evidently means. */
  function NonBlankEntries(f: Filters): seq<string> {
    Filter(Entries(f), (s: string) => !IsBlank(s))
  }

  /** The filter's test on one dish, corrected: blank entries exclude nothing. */
  function KeepDish(f: Filters, q: string, d: Dish): bool {
    if f.cuisine != "" && d.cuisine != Some(f.cuisine) then false
    else if d.price > f.maxPrice then false
    else if d.cookingTime > f.maxCookingTime then false
    else if d.rating < f.minRating then false
    else if f.serviceType != "" && d.serviceType != Some(f.serviceType) then false
    else if f.dietaryType != "" && d.dietaryType != Some(f.dietaryType) then false
    else if f.excludeIngredients != "" && d.ingredients.Some? &&
            AnyIngredient(d.ingredients.value, NonBlankEntries(f)) then false
    else Includes(Lower(d.name), Lower(q))
  }

  /** Some ingredient of `d` contains some entry that is not blank. */
  predicate ExcludedBy(f: Filters, d: Dish) {
    && f.excludeIngredients != ""
    && d.ingredients.Some?
    && exists i, e :: 0 <= i < |d.ingredients.value| && 0 <= e < |Entries(f)| &&
                      !IsBlank(Entries(f)[e]) && Hits(d.ingredients.value[i], Entries(f)[e])
  }

  /** After filtering the entries by `p`, an ingredient hits an entry exactly when it hits one that satisfies `p`. */
  lemma {:induction false} FilteredHit(ings: seq<string>, es: seq<string>, p: string -> bool)
    ensures AnyIngredient(ings, Filter(es, p)) <==>
      exists i, e :: 0 <= i < |ings| && 0 <= e < |es| && p(es[e]) && Hits(ings[i], es[e])
  {
    if AnyIngredient(ings, Filter(es, p)) {
      HitInFiltered(ings, es, p);
    }
    if exists i, e :: 0 <= i < |ings| && 0 <= e < |es| && p(es[e]) && Hits(ings[i], es[e]) {
      HitSurvivesFilter(ings, es, p);
    }
  }

  lemma {:induction false} HitInFiltered(ings: seq<string>, es: seq<string>, p: string -> bool)
    requires AnyIngredient(ings, Filter(es, p))
    ensures exists i, e :: 0 <= i < |ings| && 0 <= e < |es| && p(es[e]) && Hits(ings[i], es[e])
  {
    var kept := Filter(es, p);
    var i, k :| 0 <= i < |ings| && 0 <= k < |kept| && Hits(ings[i], kept[k]);
    var e := FilterFrom(es, p, k);
    assert p(es[e]) && Hits(ings[i], es[e]);
  }

  lemma {:induction false} HitSurvivesFilter(ings: seq<string>, es: seq<string>, p: string -> bool)
    requires exists i, e :: 0 <= i < |ings| && 0 <= e < |es| && p(es[e]) && Hits(ings[i], es[e])
    ensures AnyIngredient(ings, Filter(es, p))
  {
    var kept := Filter(es, p);
    var i, e :| 0 <= i < |ings| && 0 <= e < |es| && p(es[e]) && Hits(ings[i], es[e]);
    var k := FilterKeepsAt(es, p, e);
    assert Hits(ings[i], kept[k]);
  }


  /** Corrected, a dish is kept exactly when it passes the panel and no ingredient contains a non-blank entry. */
  lemma KeepDishMeans(f: Filters, q: string, d: Dish)
    ensures KeepDish(f, q, d) <==> PassesPanel(f, q, d) && !ExcludedBy(f, d)
  {
    if f.excludeIngredients != "" && d.ingredients.Some? {
      FilteredHit(d.ingredients.value, Entries(f), (s: string) => !IsBlank(s));
    }
  }

  /** Corrected, an exclusion box of blank entries only (",", " , ") filters exactly like an empty one. */
  lemma BlankEntriesExcludeNothing(f: Filters, q: string, d: Dish)
    requires forall e :: 0 <= e < |Entries(f)| ==> IsBlank(Entries(f)[e])
    ensures KeepDish(f, q, d) == KeepDish(f.(excludeIngredients := ""), q, d)
  {
    KeepDishMeans(f, q, d);
    KeepDishMeans(f.(excludeIngredients := ""), q, d);
  }

  /** On the default panel with an empty search, only the price, time and rating bounds decide. */
  lemma DefaultFiltersKeep(d: Dish)
    ensures KeepDishAsWritten(DefaultFilters, "", d) <==> d.price <= 1000.0 && d.cookingTime <= 60.0 && d.rating >= 0.0
    ensures KeepDish(DefaultFilters, "", d) <==> d.price <= 1000.0 && d.cookingTime <= 60.0 && d.rating >= 0.0
  {
    assert Lower("") == "";
    IncludesEmpty(Lower(d.name));
  }

  /** As written, some ingredient of `d` contains some trimmed entry, a blank one included. */
  predicate ExcludedAsWritten(f: Filters, d: Dish) {
    && f.excludeIngredients != ""
    && d.ingredients.Some?
    && exists i, e :: 0 <= i < |d.ingredients.value| && 0 <= e < |Entries(f)| &&
                      Hits(d.ingredients.value[i], Entries(f)[e])
  }

  /** `filterDishes` as written: the dishes its test keeps, in their order. */
  function FilterDishes(f: Filters, q: string, dishes: seq<Dish>): seq<Dish> {
    Filter(dishes, (d: Dish) => KeepDishAsWritten(f, q, d))
  }

  /**
   * As written, the filtered list keeps, in order, exactly the dishes that
   * pass the panel and have no ingredient containing a trimmed entry.
   */
  lemma FilterDishesSpec(f: Filters, q: string, dishes: seq<Dish>)
    ensures var r := FilterDishes(f, q, dishes);
      && SubseqOf(r, dishes)
      && (forall i :: 0 <= i < |r| ==> PassesPanel(f, q, r[i]) && !ExcludedAsWritten(f, r[i]))
      && (forall i :: 0 <= i < |dishes| && PassesPanel(f, q, dishes[i]) && !ExcludedAsWritten(f, dishes[i]) ==>
            dishes[i] in r)
  {
    var r := FilterDishes(f, q, dishes);
    forall i | 0 <= i < |r|
      ensures PassesPanel(f, q, r[i]) && !ExcludedAsWritten(f, r[i])
    {
      KeepDishAsWrittenMeans(f, q, r[i]);
    }
    forall i | 0 <= i < |dishes| && PassesPanel(f, q, dishes[i]) && !ExcludedAsWritten(f, dishes[i])
      ensures dishes[i] in r
    {
      KeepDishAsWrittenMeans(f, q, dishes[i]);
    }
  }

  /** `filterDishes`, corrected: the dishes that pass, in their order. */
  function FilterDishesCorrected(f: Filters, q: string, dishes: seq<Dish>): seq<Dish> {
    Filter(dishes, (d: Dish) => KeepDish(f, q, d))
  }

  /** Corrected, the filtered list keeps every passing dish and only those, in order. */
  lemma FilterDishesCorrectedSpec(f: Filters, q: string, dishes: seq<Dish>)
    ensures var r := FilterDishesCorrected(f, q, dishes);
      && SubseqOf(r, dishes)
      && (forall i :: 0 <= i < |r| ==> PassesPanel(f, q, r[i]) && !ExcludedBy(f, r[i]))
      && (forall i :: 0 <= i < |dishes| && PassesPanel(f, q, dishes[i]) && !ExcludedBy(f, dishes[i]) ==>
            dishes[i] in r)
  {
    var r := FilterDishesCorrected(f, q, dishes);
    forall i | 0 <= i < |r|
      ensures PassesPanel(f, q, r[i]) && !ExcludedBy(f, r[i])
    {
      KeepDishMeans(f, q, r[i]);
    }
    forall i | 0 <= i < |dishes| && PassesPanel(f, q, dishes[i]) && !ExcludedBy(f, dishes[i])
      ensures dishes[i] in r
    {
      KeepDishMeans(f, q, dishes[i]);
    }
  }

  /** With an empty box, or one with no blank entry, the test as written and the corrected one agree on every dish. */
  lemma KeepDishAgrees(f: Filters, q: string, d: Dish)
    requires f.excludeIngredients == "" || forall e :: 0 <= e < |Entries(f)| ==> !IsBlank(Entries(f)[e])
    ensures KeepDishAsWritten(f, q, d) == KeepDish(f, q, d)
  {
    KeepDishAsWrittenMeans(f, q, d);
    KeepDishMeans(f, q, d);
  }

  /** With an empty box, or one with no blank entry, the list as written is the corrected list. */
  lemma {:induction false} FilterDishesAgree(f: Filters, q: string, dishes: seq<Dish>)
    requires f.excludeIngredients == "" || forall e :: 0 <= e < |Entries(f)| ==> !IsBlank(Entries(f)[e])
    ensures FilterDishes(f, q, dishes) == FilterDishesCorrected(f, q, dishes)
  {
    if dishes != [] {
      FilterDishesAgree(f, q, dishes[1..]);
      KeepDishAgrees(f, q, dishes[0]);
    }
  }

  // ---------------------------------------------------------------------
  // Sorting
  // ---------------------------------------------------------------------

  /**
   * The sort key: the comparator `a, b => Key(a) - Key(b)` is the source's
   * for each choice (highest rating and hottest first; cheapest and quickest
   * first; a missing spice level counts as 0).
   */
  function Key(order: SortBy, d: Dish): real {
    match order
    case Price => d.price
    case CookingTime => d.cookingTime
    case Rating => -d.rating
    case SpiceLevel => -d.spiceLevel.OrElse(0.0)
  }

  predicate Sorted(order: SortBy, s: seq<Dish>) {
    forall i, j :: 0 <= i < j < |s| ==> Key(order, s[i]) <= Key(order, s[j])
  }

  /** Puts `x` in front of the first element whose key is not below its own. */
  function Insert(order: SortBy, x: Dish, s: seq<Dish>): (r: seq<Dish>)
    ensures multiset(r) == multiset(s) + multiset{x}
  {
    if s == [] then [x]
    else if Key(order, x) <= Key(order, s[0]) then [x] + s
    else
      assert s == [s[0]] + s[1..];
      [s[0]] + Insert(order, x, s[1..])
  }

  lemma {:induction false} InsertSorted(order: SortBy, x: Dish, s: seq<Dish>)
    requires Sorted(order, s)
    ensures Sorted(order, Insert(order, x, s))
  {
    if s == [] {
    } else if Key(order, x) <= Key(order, s[0]) {
      SortedCons(order, x, s);
    } else {
      var rest := Insert(order, x, s[1..]);
      InsertSorted(order, x, s[1..]);
      assert rest[0] == x || rest[0] == s[1] by {
        if s[1..] != [] && Key(order, x) > Key(order, s[1]) {
          assert rest == [s[1]] + Insert(order, x, s[2..]);
        }
      }
      SortedCons(order, s[0], rest);
    }
  }

  /** A dish whose key is not above the first of a sorted list can go in front of it. */
  lemma SortedCons(order: SortBy, y: Dish, t: seq<Dish>)
    requires Sorted(order, t)
    requires t != [] ==> Key(order, y) <= Key(order, t[0])
    ensures Sorted(order, [y] + t)
  {
    var r := [y] + t;
    forall i, j | 0 <= i < j < |r| ensures Key(order, r[i]) <= Key(order, r[j]) {
      assert r[j] == t[j - 1];
      if i > 0 {
        assert r[i] == t[i - 1];
      } else {
        assert Key(order, t[0]) <= Key(order, t[j - 1]) || j == 1;
      }
    }
  }

  /** `[...items].sort(comparator)`; `Array.prototype.sort` is stable, and so is this insertion sort. */
  function SortDishes(order: SortBy, s: seq<Dish>): (r: seq<Dish>)
    ensures multiset(r) == multiset(s)
    ensures |r| == |s|
    ensures Sorted(order, r)
  {
    if s == [] then []
    else
      assert s == [s[0]] + s[1..];
      var rest := SortDishes(order, s[1..]);
      InsertSorted(order, s[0], rest);
      Insert(order, s[0], rest)
  }

  /** The dishes of `s` whose key is `k`, in their order. */
  function WithKey(order: SortBy, k: real, s: seq<Dish>): seq<Dish> {
    if s == [] then []
    else (if Key(order, s[0]) == k then [s[0]] else []) + WithKey(order, k, s[1..])
  }

  lemma WithKeyCons(order: SortBy, k: real, x: Dish, t: seq<Dish>)
    ensures WithKey(order, k, [x] + t) == (if Key(order, x) == k then [x] else []) + WithKey(order, k, t)
  {
    assert ([x] + t)[0] == x && ([x] + t)[1..] == t;
  }

  lemma {:induction false} InsertStable(order: SortBy, x: Dish, s: seq<Dish>, k: real)
    ensures WithKey(order, k, Insert(order, x, s)) ==
            (if Key(order, x) == k then [x] else []) + WithKey(order, k, s)
  {
    if s == [] {
      WithKeyCons(order, k, x, []);
      assert [x] + [] == [x];
    } else if Key(order, x) <= Key(order, s[0]) {
      WithKeyCons(order, k, x, s);
    } else {
      var rest := Insert(order, x, s[1..]);
      assert Insert(order, x, s) == [s[0]] + rest;
      InsertStable(order, x, s[1..], k);
      WithKeyCons(order, k, s[0], rest);
      var tail := WithKey(order, k, s[1..]);
      var head := if Key(order, s[0]) == k then [s[0]] else [];
      var mid := if Key(order, x) == k then [x] else [];
      assert WithKey(order, k, s) == head + tail;
      if head == [] {
        assert head + (mid + tail) == mid + tail && head + tail == tail;
      } else {
        assert mid == [];
        assert mid + tail == tail && mid + (head + tail) == head + tail;
      }
    }
  }

  /**
   * Sorting is stable: the dishes that share a key come out in the order they
   * came in.
   */
  lemma {:induction false} SortStable(order: SortBy, s: seq<Dish>, k: real)
    ensures WithKey(order, k, SortDishes(order, s)) == WithKey(order, k, s)
  {
    if s != [] {
      SortStable(order, s[1..], k);
      InsertStable(order, s[0], SortDishes(order, s[1..]), k);
    }
  }

  /** What each sort order means in the dish's own terms. */
  lemma SortOrders(order: SortBy, s: seq<Dish>)
    ensures var r := SortDishes(order, s);
      forall i, j :: 0 <= i < j < |r| ==>
        && (order == Price ==> r[i].price <= r[j].price)
        && (order == CookingTime ==> r[i].cookingTime <= r[j].cookingTime)
        && (order == Rating ==> r[i].rating >= r[j].rating)
        && (order == SpiceLevel ==> r[i].spiceLevel.OrElse(0.0) >= r[j].spiceLevel.OrElse(0.0))
  {
    var r := SortDishes(order, s);
    forall i, j | 0 <= i < j < |r|
      ensures && (order == Price ==> r[i].price <= r[j].price)
              && (order == CookingTime ==> r[i].cookingTime <= r[j].cookingTime)
              && (order == Rating ==> r[i].rating >= r[j].rating)
              && (order == SpiceLevel ==> r[i].spiceLevel.OrElse(0.0) >= r[j].spiceLevel.OrElse(0.0))
    {
      assert Key(order, r[i]) <= Key(order, r[j]);
    }
  }

  /** `sortDishes(filterDishes(dishes))`: what the list shows. */
  function Process(f: Filters, q: string, order: SortBy, dishes: seq<Dish>): seq<Dish> {
    SortDishes(order, FilterDishes(f, q, dishes))
  }

  /**
   * As written, the shown list is sorted and holds each dish the filter
   * keeps as often as it keeps it: the dishes that pass the panel and have
   * no ingredient containing a trimmed entry, and nothing else.
   */
  lemma ProcessSpec(f: Filters, q: string, order: SortBy, dishes: seq<Dish>)
    ensures var r := Process(f, q, order, dishes);
      && Sorted(order, r)
      && multiset(r) == multiset(FilterDishes(f, q, dishes))
      && (forall i :: 0 <= i < |r| ==> r[i] in dishes && PassesPanel(f, q, r[i]) && !ExcludedAsWritten(f, r[i]))
      && (forall i :: 0 <= i < |dishes| && PassesPanel(f, q, dishes[i]) && !ExcludedAsWritten(f, dishes[i]) ==>
            dishes[i] in r)
  {
    var kept := FilterDishes(f, q, dishes);
    var r := Process(f, q, order, dishes);
    forall i | 0 <= i < |r|
      ensures r[i] in dishes && PassesPanel(f, q, r[i]) && !ExcludedAsWritten(f, r[i])
    {
      assert r[i] in multiset(kept);
      KeptPasses(f, q, dishes, r[i]);
    }
    forall i | 0 <= i < |dishes| && PassesPanel(f, q, dishes[i]) && !ExcludedAsWritten(f, dishes[i])
      ensures dishes[i] in r
    {
      KeepDishAsWrittenMeans(f, q, dishes[i]);
      assert dishes[i] in kept;
      assert dishes[i] in multiset(r);
    }
  }

  lemma KeptPasses(f: Filters, q: string, dishes: seq<Dish>, x: Dish)
    requires x in FilterDishes(f, q, dishes)
    ensures x in dishes && PassesPanel(f, q, x) && !ExcludedAsWritten(f, x)
  {
    var kept := FilterDishes(f, q, dishes);
    var j :| 0 <= j < |kept| && kept[j] == x;
    KeepDishAsWrittenMeans(f, q, x);
  }

  /** The shown list with the corrected filter. */
  function ProcessCorrected(f: Filters, q: string, order: SortBy, dishes: seq<Dish>): seq<Dish> {
    SortDishes(order, FilterDishesCorrected(f, q, dishes))
  }

  /** Corrected, the shown list is sorted, holds exactly the passing dishes, each as often as it occurs. */
  lemma ProcessCorrectedSpec(f: Filters, q: string, order: SortBy, dishes: seq<Dish>)
    ensures var r := ProcessCorrected(f, q, order, dishes);
      && Sorted(order, r)
      && multiset(r) == multiset(FilterDishesCorrected(f, q, dishes))
      && (forall i :: 0 <= i < |r| ==> r[i] in dishes && PassesPanel(f, q, r[i]) && !ExcludedBy(f, r[i]))
      && (forall i :: 0 <= i < |dishes| && PassesPanel(f, q, dishes[i]) && !ExcludedBy(f, dishes[i]) ==>
            dishes[i] in r)
  {
    var kept := FilterDishesCorrected(f, q, dishes);
    var r := ProcessCorrected(f, q, order, dishes);
    forall i | 0 <= i < |r|
      ensures r[i] in dishes && PassesPanel(f, q, r[i]) && !ExcludedBy(f, r[i])
    {
      assert r[i] in multiset(kept);
      KeptPassesCorrected(f, q, dishes, r[i]);
    }
    forall i | 0 <= i < |dishes| && PassesPanel(f, q, dishes[i]) && !ExcludedBy(f, dishes[i])
      ensures dishes[i] in r
    {
      KeepDishMeans(f, q, dishes[i]);
      assert dishes[i] in kept;
      assert dishes[i] in multiset(r);
    }
  }

  lemma KeptPassesCorrected(f: Filters, q: string, dishes: seq<Dish>, x: Dish)
    requires x in FilterDishesCorrected(f, q, dishes)
    ensures x in dishes && PassesPanel(f, q, x) && !ExcludedBy(f, x)
  {
    var kept := FilterDishesCorrected(f, q, dishes);
    var j :| 0 <= j < |kept| && kept[j] == x;
    KeepDishMeans(f, q, x);
  }

  /** As written, a blank entry leaves on the shown list only dishes that list no ingredient. */
  lemma BlankEntryEmptiesShownList(f: Filters, q: string, order: SortBy, dishes: seq<Dish>, e: nat)
    requires f.excludeIngredients != ""
    requires e < |Entries(f)| && IsBlank(Entries(f)[e])
    ensures var r := Process(f, q, order, dishes);
      forall i :: 0 <= i < |r| ==> r[i].ingredients.None? || r[i].ingredients.value == []
  {
    var r := Process(f, q, order, dishes);
    forall i | 0 <= i < |r|
      ensures r[i].ingredients.None? || r[i].ingredients.value == []
    {
      ProcessSpec(f, q, order, dishes);
      if r[i].ingredients.Some? && r[i].ingredients.value != [] {
        KeepDishAsWrittenMeans(f, q, r[i]);
        BlankEntryExcludesEveryListedDish(f, q, r[i], e);
        assert false;
      }
    }
  }

  /** With an empty box, or one with no blank entry, the page as written shows the corrected list. */
  lemma ProcessAgrees(f: Filters, q: string, order: SortBy, dishes: seq<Dish>)
    requires f.excludeIngredients == "" || forall e :: 0 <= e < |Entries(f)| ==> !IsBlank(Entries(f)[e])
    ensures Process(f, q, order, dishes) == ProcessCorrected(f, q, order, dishes)
  {
    FilterDishesAgree(f, q, dishes);
  }

  // ---------------------------------------------------------------------
  // Row mapping
  // ---------------------------------------------------------------------

  /** The joined chef of a dish row, with the chef's joined user. */
  datatype HomeChefRow = HomeChefRow(averageRating: Option<real>, users: Option<UserRow>)

  datatype HomeDishRow = HomeDishRow(columns: DishColumns, chefs: Option<HomeChefRow>)

  /** The rows the page shows: name, description, price, image, cooking time and rating all truthy. */
  predicate Complete(row: HomeDishRow) {
    var c := row.columns;
    TruthyString(c.name) && TruthyString(c.description) && TruthyNumber(c.price) &&
    TruthyString(c.image) && TruthyNumber(c.cookingTime) && TruthyNumber(c.rating)
  }

  function ChefOf(row: HomeDishRow): Option<Chef> {
    if row.chefs.Some? && row.chefs.value.users.Some? then
      Some(Chef(row.chefs.value.users.value.name, row.chefs.value.averageRating.OrElse(0.0)))
    else None
  }

  /** One complete row as a dish card; a missing optional column takes the page's default. */
  function ToDish(row: HomeDishRow, favoriteIds: seq<string>): Dish
    requires Complete(row)
  {
    var c := row.columns;
    Dish(
      c.id, c.name.value, c.description.value, c.price.value, c.image.value,
      c.cookingTime.value, c.rating.value,
      Some(if TruthyNumber(c.spiceLevel) then c.spiceLevel.value else 0.0),
      Some(StringOr(c.serviceType, "home-delivery")),
      Some(StringOr(c.cuisine, "unknown")),
      Some(c.ingredients.OrElse([])),
      Some(StringOr(c.dietaryType, "vegetarian")),
      Some(StringOr(c.alergens, "")),
      Some(c.id in favoriteIds),
      ChefOf(row),
      Some([]))
  }

  function MapDishes(rows: seq<HomeDishRow>, favoriteIds: seq<string>): seq<Dish> {
    var kept := Filter(rows, Complete);
    seq(|kept|, i requires 0 <= i < |kept| => ToDish(kept[i], favoriteIds))
  }

  /** A card carries the row's own values, and the defaults the page promises where a column is falsy. */
  lemma ToDishDefaults(row: HomeDishRow, favoriteIds: seq<string>)
    requires Complete(row)
    ensures var d := ToDish(row, favoriteIds);
      && d.name != "" && d.description != "" && d.image != ""
      && d.price != 0.0 && d.cookingTime != 0.0 && d.rating != 0.0
      && d.serviceType.Some? && d.serviceType.value != ""
      && d.cuisine.Some? && d.cuisine.value != ""
      && d.dietaryType.Some? && d.dietaryType.value != ""
      && (!TruthyString(row.columns.serviceType) ==> d.serviceType == Some("home-delivery"))
      && (!TruthyString(row.columns.cuisine) ==> d.cuisine == Some("unknown"))
      && (!TruthyString(row.columns.dietaryType) ==> d.dietaryType == Some("vegetarian"))
      && (!TruthyNumber(row.columns.spiceLevel) ==> d.spiceLevel == Some(0.0))
      && (row.columns.ingredients.None? ==> d.ingredients == Some([]))
      && d.isFavorite == Some(row.columns.id in favoriteIds)
      && d.reviews == Some([])
      && (d.chef.Some? <==> row.chefs.Some? && row.chefs.value.users.Some?)
      && (d.chef.Some? ==> d.chef.value == Chef(row.chefs.value.users.value.name, row.chefs.value.averageRating.OrElse(0.0)))
      && d.id == row.columns.id
      && d.name == row.columns.name.value && d.description == row.columns.description.value
      && d.image == row.columns.image.value && d.price == row.columns.price.value
      && d.cookingTime == row.columns.cookingTime.value && d.rating == row.columns.rating.value
      && (TruthyString(row.columns.serviceType) ==> d.serviceType == row.columns.serviceType)
      && (TruthyString(row.columns.cuisine) ==> d.cuisine == row.columns.cuisine)
      && (TruthyString(row.columns.dietaryType) ==> d.dietaryType == row.columns.dietaryType)
      && (TruthyNumber(row.columns.spiceLevel) ==> d.spiceLevel == row.columns.spiceLevel)
      && (row.columns.ingredients.Some? ==> d.ingredients == row.columns.ingredients)
      && (TruthyString(row.columns.alergens) ==> d.allergens == row.columns.alergens)
      && (!TruthyString(row.columns.alergens) ==> d.allergens == Some(""))
  {
    assert StringOr(row.columns.serviceType, "home-delivery") != "";
    assert StringOr(row.columns.cuisine, "unknown") != "";
    assert StringOr(row.columns.dietaryType, "vegetarian") != "";
  }

  /**
   * One card per complete row, in row order: the complete rows keep their
   * order and multiplicity and the cards are theirs one for one.
   */
  lemma MapDishesRows(rows: seq<HomeDishRow>, favoriteIds: seq<string>)
    ensures var r := MapDishes(rows, favoriteIds); var kept := Filter(rows, Complete);
      && SubseqOf(kept, rows)
      && (forall x :: Count(kept, x) == if Complete(x) then Count(rows, x) else 0)
      && |r| == |kept|
      && (forall i :: 0 <= i < |r| ==> r[i] == ToDish(kept[i], favoriteIds))
  {
    var kept := Filter(rows, Complete);
    forall x
      ensures Count(kept, x) == if Complete(x) then Count(rows, x) else 0
    {
      FilterCount(rows, Complete, x);
    }
  }

  /** The cards are the complete rows, in order; an incomplete row (a price or rating of 0 included) is dropped. */
  lemma MapDishesSpec(rows: seq<HomeDishRow>, favoriteIds: seq<string>)
    ensures var r := MapDishes(rows, favoriteIds);
      && |r| <= |rows|
      && (forall j :: 0 <= j < |rows| && Complete(rows[j]) ==> ToDish(rows[j], favoriteIds) in r)
      && (forall i :: 0 <= i < |r| ==> exists j :: 0 <= j < |rows| && Complete(rows[j]) && r[i] == ToDish(rows[j], favoriteIds))
      && (forall i :: 0 <= i < |r| ==> r[i].isFavorite == Some(r[i].id in favoriteIds))
  {
    var kept := Filter(rows, Complete);
    var r := MapDishes(rows, favoriteIds);
    forall j | 0 <= j < |rows| && Complete(rows[j])
      ensures ToDish(rows[j], favoriteIds) in r
    {
      var k :| 0 <= k < |kept| && kept[k] == rows[j];
      assert r[k] == ToDish(rows[j], favoriteIds);
    }
    forall i | 0 <= i < |r|
      ensures exists j :: 0 <= j < |rows| && Complete(rows[j]) && r[i] == ToDish(rows[j], favoriteIds)
    {
      var j :| 0 <= j < |rows| && rows[j] == kept[i];
      assert r[i] == ToDish(rows[j], favoriteIds);
    }
  }

  // ---------------------------------------------------------------------
  // Favourite toggle, spice indicator, reviews
  // ---------------------------------------------------------------------

  /** `dish.isFavorite` as a condition: only `true` is truthy. */
  predicate Favored(d: Dish) {
    d.isFavorite == Some(true)
  }

  /** `dishes.find(d => d.id === dishId)`: the first dish with that id. */
  function FindDish(dishes: seq<Dish>, dishId: string): (r: Option<Dish>)
    ensures r.None? <==> forall i :: 0 <= i < |dishes| ==> dishes[i].id != dishId
    ensures r.Some? ==> exists k :: 0 <= k < |dishes| && dishes[k] == r.value && r.value.id == dishId &&
                                   forall j :: 0 <= j < k ==> dishes[j].id != dishId
  {
    if dishes == [] then None
    else if dishes[0].id == dishId then Some(dishes[0])
    else
      var r := FindDish(dishes[1..], dishId);
      assert forall j :: 1 <= j < |dishes| ==> dishes[j] == dishes[1..][j - 1];
      if r.Some? then
        var k :| 0 <= k < |dishes[1..]| && dishes[1..][k] == r.value && r.value.id == dishId &&
                 forall j :: 0 <= j < k ==> dishes[1..][j].id != dishId;
        assert dishes[k + 1] == r.value;
        r
      else r
  }

  /** The local update after a successful write: every dish with that id flips its favourite flag. */
  function ToggleLocal(dishes: seq<Dish>, dishId: string): seq<Dish> {
    seq(|dishes|, i requires 0 <= i < |dishes| =>
      if dishes[i].id == dishId then dishes[i].(isFavorite := Some(!Favored(dishes[i]))) else dishes[i])
  }

  /** The toggle flips exactly the dishes with that id, and changes no other field of any dish. */
  lemma ToggleFlips(dishes: seq<Dish>, dishId: string)
    ensures var r := ToggleLocal(dishes, dishId);
      && |r| == |dishes|
      && (forall i :: 0 <= i < |r| ==> r[i].(isFavorite := dishes[i].isFavorite) == dishes[i])
      && (forall i :: 0 <= i < |r| && dishes[i].id == dishId ==> Favored(r[i]) == !Favored(dishes[i]))
      && (forall i :: 0 <= i < |r| && dishes[i].id != dishId ==> r[i] == dishes[i])
  {
  }

  /** Toggling twice restores every dish whose flag was set (the mapped cards always set it). */
  lemma ToggleTwice(dishes: seq<Dish>, dishId: string)
    requires forall i :: 0 <= i < |dishes| ==> dishes[i].isFavorite.Some?
    ensures ToggleLocal(ToggleLocal(dishes, dishId), dishId) == dishes
  {
    var r := ToggleLocal(ToggleLocal(dishes, dishId), dishId);
    var once := ToggleLocal(dishes, dishId);
    forall i | 0 <= i < |dishes|
      ensures r[i] == dishes[i]
    {
      if dishes[i].id == dishId {
        assert once[i] == dishes[i].(isFavorite := Some(!Favored(dishes[i])));
        assert Favored(once[i]) == !Favored(dishes[i]);
        assert r[i] == once[i].(isFavorite := Some(Favored(dishes[i])));
        if dishes[i].isFavorite.value {
          assert dishes[i].isFavorite == Some(true);
        } else {
          assert dishes[i].isFavorite == Some(false);
        }
      }
    }
  }

  /** The spice indicator of the details view, with the home page's chili. */
  function SpiceIndicator(level: Option<real>): Option<string> {
    SpiceText(HomeChili, level)
  }

  class HomePage {
    var dishes: seq<Dish>
    var loading: bool
    var filters: Filters
    var searchQuery: string
    var sortBy: SortBy
    var selectedDish: Option<Dish>
    var detailsModalVisible: bool

    constructor ()
      ensures dishes == [] && loading && filters == DefaultFilters && searchQuery == "" && sortBy == Rating
      ensures selectedDish == None && !detailsModalVisible
    {
      dishes := [];
      loading := true;
      filters := DefaultFilters;
      searchQuery := "";
      sortBy := Rating;
      selectedDish := None;
      detailsModalVisible := false;
    }

    /** What the list shows. */
    function Processed(): seq<Dish>
      reads this
    {
      Process(filters, searchQuery, sortBy, dishes)
    }

    /**
     * The initial load: on an error the dishes stay as they are; no data
     * leaves no dishes; otherwise the complete rows, marked with the signed-in
     * user's favourites (none without a user).
     */
    method LoadDishes(response: Result<Option<seq<HomeDishRow>>>, user: Option<User>,
                      favorites: Option<seq<FavoriteIdRow>>)
      modifies this
      ensures !loading
      ensures response.Err? ==> dishes == old(dishes)
      ensures response == Ok(None) ==> dishes == []
      ensures response.Ok? && response.value.Some? ==>
        dishes == MapDishes(response.value.value, if user.Some? then DishIds(favorites) else [])
      ensures filters == old(filters) && searchQuery == old(searchQuery) && sortBy == old(sortBy)
      ensures selectedDish == old(selectedDish) && detailsModalVisible == old(detailsModalVisible)
    {
      loading := false;
      match response
      case Err(_) =>
      case Ok(None) =>
        dishes := [];
      case Ok(Some(rows)) =>
        var favoriteIds := if user.Some? then DishIds(favorites) else [];
        dishes := MapDishes(rows, favoriteIds);
    }

    /**
     * The heart on a card: without a user nothing is sent; otherwise a dish
     * currently marked as a favourite is deleted from the favourites and any
     * other is inserted, and only when the write succeeds is the flag flipped
     * locally.
     */
    method ToggleFavorite(dishId: string, user: Option<User>, remote: Outcome) returns (call: RemoteCall)
      modifies this
      ensures user.None? ==> call == NoCall && dishes == old(dishes)
      ensures user.Some? ==>
        var current := FindDish(old(dishes), dishId);
        call == (if current.Some? && Favored(current.value) then DeleteFavorite(user.value.id, dishId)
                 else InsertFavorite(user.value.id, dishId))
      ensures user.Some? && remote.Success? ==> dishes == ToggleLocal(old(dishes), dishId)
      ensures user.Some? && remote.Failure? ==> dishes == old(dishes)
      ensures loading == old(loading) && filters == old(filters) && searchQuery == old(searchQuery)
      ensures sortBy == old(sortBy) && selectedDish == old(selectedDish)
      ensures detailsModalVisible == old(detailsModalVisible)
    {
      if user.None? {
        return NoCall;
      }
      var current := FindDish(dishes, dishId);
      if current.Some? && Favored(current.value) {
        call := DeleteFavorite(user.value.id, dishId);
      } else {
        call := InsertFavorite(user.value.id, dishId);
      }
      if remote.Failure? {
        return;
      }
      dishes := ToggleLocal(dishes, dishId);
    }

    /** Opening a card's details shows that dish. */
    method OpenDishDetails(dish: Dish)
      modifies this
      ensures selectedDish == Some(dish) && detailsModalVisible
      ensures dishes == old(dishes) && loading == old(loading) && filters == old(filters)
      ensures searchQuery == old(searchQuery) && sortBy == old(sortBy)
    {
      selectedDish := Some(dish);
      detailsModalVisible := true;
    }

    method CloseDishDetails()
      modifies this
      ensures selectedDish == None && !detailsModalVisible
      ensures dishes == old(dishes) && loading == old(loading) && filters == old(filters)
      ensures searchQuery == old(searchQuery) && sortBy == old(sortBy)
    {
      detailsModalVisible := false;
      selectedDish := None;
    }

    /** The reviews arrive: an error leaves the details as they are; otherwise the open dish takes them. */
    method ShowReviews(response: Result<Option<seq<ReviewRow>>>)
      modifies this
      ensures response.Err? || old(selectedDish).None? ==> selectedDish == old(selectedDish)
      ensures response.Ok? && old(selectedDish).Some? ==>
        selectedDish == Some(old(selectedDish).value.(reviews := Some(FormatReviews(response.value.OrElse([])))))
      ensures dishes == old(dishes) && loading == old(loading) && filters == old(filters)
      ensures searchQuery == old(searchQuery) && sortBy == old(sortBy)
      ensures detailsModalVisible == old(detailsModalVisible)
    {
      if response.Err? {
        return;
      }
      var reviews := FormatReviews(response.value.OrElse([]));
      if selectedDish.Some? {
        selectedDish := Some(selectedDish.value.(reviews := Some(reviews)));
      }
    }
  }
}
