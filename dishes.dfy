/**
 * The dish as the home and favourites screens hold it, the rows the backend
 * returns for dishes, chefs, users and reviews, and the JavaScript
 * truthiness rules the row mappings use.
 */
module Dishes {
  import opened Common

  datatype Chef = Chef(name: string, averageRating: real)

  datatype Review = Review(id: string, rating: real, comment: string, createdAt: string, userName: string)

  /** A dish on screen; the optional fields of the source's `Dish` type are `Option`s. */
  datatype Dish = Dish(
    id: string,
    name: string,
    description: string,
    price: real,
    image: string,
    cookingTime: real,
    rating: real,
    spiceLevel: Option<real>,
    serviceType: Option<string>,
    cuisine: Option<string>,
    ingredients: Option<seq<string>>,
    dietaryType: Option<string>,
    allergens: Option<string>,
    isFavorite: Option<bool>,
    chef: Option<Chef>,
    reviews: Option<seq<Review>>)

  /** The columns of a `dishes` row; any of them but the id may be null. */
  datatype DishColumns = DishColumns(
    id: string,
    name: Option<string>,
    description: Option<string>,
    image: Option<string>,
    alergens: Option<string>,
    cookingTime: Option<real>,
    price: Option<real>,
    rating: Option<real>,
    spiceLevel: Option<real>,
    serviceType: Option<string>,
    cuisine: Option<string>,
    ingredients: Option<seq<string>>,
    dietaryType: Option<string>)

  datatype UserRow = UserRow(name: string)

  /** A joined relation as the backend may return it: absent, an array (whose entries may be null), or one object. */
  datatype Join<T> = Absent | Many(rows: seq<Option<T>>) | One(row: T) {
    /** A joined value in JavaScript is truthy unless it is absent (an empty array is truthy). */
    predicate Truthy() { !Absent? }

    /** `Array.isArray(j) ? j[0] : j`. */
    function First(): (r: Option<T>)
      ensures Absent? ==> r.None?
      ensures One? ==> r == Some(row)
      ensures Many? ==> r == (if |rows| == 0 then None else rows[0])
    {
      match this
      case Absent => None
      case Many(rs) => if |rs| == 0 then None else rs[0]
      case One(x) => Some(x)
    }
  }

  /** A review row with its joined user rows. */
  datatype ReviewRow = ReviewRow(id: string, rating: real, comment: string, createdAt: string, users: Option<seq<UserRow>>)

  /** A string is truthy when present and non-empty. */
  predicate TruthyString(v: Option<string>) {
    v.Some? && v.value != ""
  }

  /** A number is truthy when present and nonzero. */
  predicate TruthyNumber(v: Option<real>) {
    v.Some? && v.value != 0.0
  }

  /** `v || fallback` on a string column. */
  function StringOr(v: Option<string>, fallback: string): (r: string)
    ensures TruthyString(v) ==> r == v.value
    ensures !TruthyString(v) ==> r == fallback
  {
    if TruthyString(v) then v.value else fallback
  }

  /** `Number(v)` on a numeric column: null becomes 0. Also `v ? Number(v) : 0`. */
  function NumberOf(v: Option<real>): (r: real)
    ensures v.None? ==> r == 0.0
    ensures v.Some? ==> r == v.value
  {
    v.OrElse(0.0)
  }

  /** `review.USERS?.[0]?.name || 'Anonymous'`. */
  function AuthorName(users: Option<seq<UserRow>>): (r: string)
    ensures r != ""
    ensures (users.None? || users.value == [] || users.value[0].name == "") ==> r == "Anonymous"
    ensures users.Some? && users.value != [] && users.value[0].name != "" ==> r == users.value[0].name
  {
    if users.Some? && users.value != [] && users.value[0].name != "" then users.value[0].name
    else "Anonymous"
  }

  /** A review as the details modal shows it. */
  function FormatReview(row: ReviewRow): (r: Review)
    ensures r.id == row.id && r.rating == row.rating && r.comment == row.comment && r.createdAt == row.createdAt
    ensures r.userName == AuthorName(row.users)
  {
    Review(row.id, row.rating, row.comment, row.createdAt, AuthorName(row.users))
  }

  /** The spice indicator: the glyph `min(level, 5)` times; `repeat` throws on a negative count, here `None`. */
  function SpiceEmojis(glyph: string, level: int): (r: Option<string>)
    ensures level < 0 <==> r.None?
    ensures r.Some? ==> r.value == Repeat(glyph, if level < 5 then level else 5)
    ensures r.Some? ==> |r.value| <= 5 * |glyph|
  {
    if level < 0 then None
    else
      var n := if level < 5 then level else 5;
      assert n * |glyph| <= 5 * |glyph|;
      Some(Repeat(glyph, n))
  }

  /** The chili glyph the home page uses: U+1F336 followed by the variation selector U+FE0F. */
  const HomeChili: string := "\U{1F336}\U{FE0F}"

  /** The glyph the favourites screens use, as their source text spells it (a mis-decoded chili). */
  const FavoritesChili: string := "\U{F8FF}\U{00FC}\U{00E5}\U{2202}\U{00D4}\U{220F}\U{00E8}"

  /** `.filter(d => d !== null)`: the present values, unwrapped. */
  function Compact<T>(s: seq<Option<T>>): (r: seq<T>)
    ensures |r| <= |s|
    ensures forall i :: 0 <= i < |r| ==> Some(r[i]) in s
    ensures forall i :: 0 <= i < |s| && s[i].Some? ==> s[i].value in r
  {
    if s == [] then []
    else
      var rest := Compact(s[1..]);
      assert forall i :: 0 <= i < |rest| ==> Some(rest[i]) in s[1..];
      if s[0].Some? then [s[0].value] + rest else rest
  }

  /** Compacting keeps the present values in their order, each as often as it occurs: index by index the filtered list. */
  lemma {:induction false} CompactSpec<T>(s: seq<Option<T>>)
    ensures |Compact(s)| == |Filter(s, IsPresent)|
    ensures forall i :: 0 <= i < |Compact(s)| ==> Filter(s, IsPresent)[i] == Some(Compact(s)[i])
  {
    if s != [] {
      CompactSpec(s[1..]);
      var c, rest := Compact(s), Compact(s[1..]);
      var f, kept := Filter(s, IsPresent), Filter(s[1..], IsPresent);
      if s[0].Some? {
        assert f == [s[0]] + kept;
        assert c == [s[0].value] + rest;
        forall i | 1 <= i < |c|
          ensures f[i] == Some(c[i])
        {
          assert f[i] == ([s[0]] + kept)[i] == kept[i - 1];
          assert c[i] == ([s[0].value] + rest)[i] == rest[i - 1];
        }
      } else {
        assert f == kept;
        assert c == rest;
      }
    }
  }

  /** A `favorites` row as selected for the id list: just its dish id. */
  datatype FavoriteIdRow = FavoriteIdRow(dishId: string)

  /** `data?.map(fav => fav.dish_id) || []`: the dish ids in row order, none when the data is null. */
  function DishIds(data: Option<seq<FavoriteIdRow>>): (r: seq<string>)
    ensures data.None? ==> r == []
    ensures data.Some? ==> |r| == |data.value| && forall i :: 0 <= i < |r| ==> r[i] == data.value[i].dishId
  {
    match data
    case None => []
    case Some(rows) => seq(|rows|, i requires 0 <= i < |rows| => rows[i].dishId)
  }

  /** The write a favourites action sends to the backend. */
  datatype RemoteCall = NoCall | InsertFavorite(userId: string, dishId: string) | DeleteFavorite(userId: string, dishId: string)

  /** The dishes whose id is not `dishId`, in order: the local removal after a successful delete. */
  function WithoutDish(dishes: seq<Dish>, dishId: string): (r: seq<Dish>)
    ensures SubseqOf(r, dishes)
    ensures forall i :: 0 <= i < |r| ==> r[i].id != dishId
    ensures forall i :: 0 <= i < |dishes| && dishes[i].id != dishId ==> dishes[i] in r
  {
    Filter(dishes, (d: Dish) => d.id != dishId)
  }

  /**
   * JavaScript's `String.prototype.repeat` count: the number truncated toward
   * zero, that is the integer of the same sign nearest to `x` that does not
   * exceed it in magnitude.
   */
  function Truncate(x: real): (n: int)
    ensures 0.0 <= n as real * x
    ensures x >= 0.0 ==> n as real <= x < n as real + 1.0
    ensures x < 0.0 ==> n as real - 1.0 < x <= n as real
  {
    if x >= 0.0 then x.Floor else -((-x).Floor)
  }

  /** `glyph.repeat(Math.min(level ?? 0, 5))`; `None` where `repeat` throws. */
  function SpiceText(glyph: string, level: Option<real>): Option<string> {
    var v := level.OrElse(0.0);
    SpiceEmojis(glyph, Truncate(if v < 5.0 then v else 5.0))
  }

  /** The indicator shows the glyph at most five times, and fails only for a level of -1 or below. */
  lemma SpiceTextBounds(glyph: string, level: Option<real>)
    ensures SpiceText(glyph, level).None? <==> level.Some? && level.value <= -1.0
    ensures SpiceText(glyph, level).Some? ==> |SpiceText(glyph, level).value| <= 5 * |glyph|
    ensures level.Some? && level.value >= 5.0 ==> SpiceText(glyph, level) == Some(Repeat(glyph, 5))
    ensures level.None? ==> SpiceText(glyph, level) == Some([])
  {
  }

  /** The reviews of the details view, in the order read (newest first). */
  function FormatReviews(rows: seq<ReviewRow>): (r: seq<Review>)
    ensures |r| == |rows|
    ensures forall i :: 0 <= i < |r| ==> r[i] == FormatReview(rows[i]) && r[i].userName != ""
  {
    seq(|rows|, i requires 0 <= i < |rows| => FormatReview(rows[i]))
  }

  /** A `favorites` row with its joined dish row. */
  datatype FavoriteRow<T> = FavoriteRow(dishId: string, dishes: Join<T>)

  /** A favourite row whose join yields a dish. */
  predicate HasJoinedDish<T>(row: FavoriteRow<T>) {
    row.dishes.First().Some?
  }

  /** `data.map(item => Array.isArray(item.dishes) ? item.dishes[0] : item.dishes)`. */
  function Firsts<T>(rows: seq<FavoriteRow<T>>): (r: seq<Option<T>>)
    ensures |r| == |rows|
    ensures forall j :: 0 <= j < |rows| ==> r[j] == rows[j].dishes.First()
  {
    if rows == [] then [] else [rows[0].dishes.First()] + Firsts(rows[1..])
  }

  /** Dropping the absent joins after the map is the map of the rows with a dish. */
  lemma {:induction false} FirstsPresent<T>(rows: seq<FavoriteRow<T>>)
    ensures Filter(Firsts(rows), IsPresent) == Firsts(Filter(rows, HasJoinedDish))
  {
    if rows != [] {
      FirstsPresent(rows[1..]);
      var tail := Filter(rows[1..], HasJoinedDish);
      assert Firsts(rows) == [rows[0].dishes.First()] + Firsts(rows[1..]);
      FilterCons(rows[0].dishes.First(), Firsts(rows[1..]), IsPresent);
      if HasJoinedDish(rows[0]) {
        assert Filter(rows, HasJoinedDish) == [rows[0]] + tail;
        assert ([rows[0]] + tail)[1..] == tail;
      } else {
        assert Filter(rows, HasJoinedDish) == tail;
      }
    }
  }

  /**
   * `data?.map(fav => first(fav.dishes) or null).filter(d => d !== null) || []`:
   * the joined dishes in row order, a row whose dish is missing skipped.
   */
  function JoinedDishes<T>(data: Option<seq<FavoriteRow<T>>>): (r: seq<T>)
    ensures data.None? ==> r == []
    ensures data.Some? ==> |r| <= |data.value|
    ensures data.Some? ==> forall i :: 0 <= i < |r| ==>
      exists j :: 0 <= j < |data.value| && data.value[j].dishes.First() == Some(r[i])
    ensures data.Some? ==> forall j :: 0 <= j < |data.value| && data.value[j].dishes.First().Some? ==>
      data.value[j].dishes.First().value in r
  {
    match data
    case None => []
    case Some(rows) =>
      var firsts := Firsts(rows);
      var r := Compact(firsts);
      assert forall i :: 0 <= i < |r| ==> Some(r[i]) in firsts;
      r
  }

  /**
   * One dish per row with a dish, in the order of the rows: index by index
   * the dishes of the rows that pass `HasJoinedDish`.
   */
  lemma JoinedDishesSpec<T>(rows: seq<FavoriteRow<T>>)
    ensures var r := JoinedDishes(Some(rows)); var kept := Filter(rows, HasJoinedDish);
      |r| == |kept| && forall i :: 0 <= i < |r| ==> kept[i].dishes.First() == Some(r[i])
  {
    CompactSpec(Firsts(rows));
    FirstsPresent(rows);
  }

  /** Each joined dish comes from a row whose join yields it. */
  lemma JoinedSource<T>(rows: seq<FavoriteRow<T>>, i: nat) returns (j: nat)
    requires i < |JoinedDishes(Some(rows))|
    ensures j < |rows| && rows[j].dishes.First() == Some(JoinedDishes(Some(rows))[i])
  {
    var dishes := JoinedDishes(Some(rows));
    j :| 0 <= j < |rows| && rows[j].dishes.First() == Some(dishes[i]);
  }

  /** Each row whose join yields a dish has that dish among the joined dishes. */
  lemma JoinedTarget<T>(rows: seq<FavoriteRow<T>>, j: nat) returns (k: nat)
    requires j < |rows| && rows[j].dishes.First().Some?
    ensures k < |JoinedDishes(Some(rows))| && JoinedDishes(Some(rows))[k] == rows[j].dishes.First().value
  {
    var dishes := JoinedDishes(Some(rows));
    k :| 0 <= k < |dishes| && dishes[k] == rows[j].dishes.First().value;
  }

  /**
   * The card a favourites screen shows for a joined dish row. Number columns
   * read as 0 when null; text columns the card requires read as empty (see
   * the README); optional columns take the screens' defaults.
   */
  function FavoriteDish(c: DishColumns): (d: Dish)
    ensures d.id == c.id && d.isFavorite == Some(true)
    ensures d.price == NumberOf(c.price) && d.cookingTime == NumberOf(c.cookingTime) && d.rating == NumberOf(c.rating)
    ensures d.serviceType.Some? && d.serviceType.value != ""
    ensures d.cuisine.Some? && d.cuisine.value != ""
    ensures d.dietaryType.Some? && d.dietaryType.value != ""
    ensures !TruthyString(c.serviceType) ==> d.serviceType == Some("home-delivery")
    ensures !TruthyString(c.cuisine) ==> d.cuisine == Some("unknown")
    ensures !TruthyString(c.dietaryType) ==> d.dietaryType == Some("vegetarian")
    ensures !TruthyNumber(c.spiceLevel) ==> d.spiceLevel == Some(0.0)
    ensures c.ingredients.None? ==> d.ingredients == Some([])
    ensures d.name == c.name.OrElse("") && d.description == c.description.OrElse("") && d.image == c.image.OrElse("")
    ensures TruthyString(c.serviceType) ==> d.serviceType == c.serviceType
    ensures TruthyString(c.cuisine) ==> d.cuisine == c.cuisine
    ensures TruthyString(c.dietaryType) ==> d.dietaryType == c.dietaryType
    ensures TruthyNumber(c.spiceLevel) ==> d.spiceLevel == c.spiceLevel
    ensures c.ingredients.Some? ==> d.ingredients == c.ingredients
    ensures TruthyString(c.alergens) ==> d.allergens == c.alergens
    ensures !TruthyString(c.alergens) ==> d.allergens == Some("")
    ensures d.chef.None? && d.reviews.None?
  {
    Dish(
      c.id, c.name.OrElse(""), c.description.OrElse(""), NumberOf(c.price), c.image.OrElse(""),
      NumberOf(c.cookingTime), NumberOf(c.rating),
      Some(if TruthyNumber(c.spiceLevel) then c.spiceLevel.value else 0.0),
      Some(StringOr(c.serviceType, "home-delivery")),
      Some(StringOr(c.cuisine, "unknown")),
      Some(c.ingredients.OrElse([])),
      Some(StringOr(c.dietaryType, "vegetarian")),
      Some(StringOr(c.alergens, "")),
      Some(true),
      None,
      None)
  }
}
