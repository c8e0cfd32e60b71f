/**
 * The favourites screen at the repository root: the signed-in user's
 * favourite dishes with their chefs, removal from the list, and the details
 * view with its reviews.
 */
module FavoritesPage {
  import opened Common
  import opened Dishes

  /** A joined chef row; its user may come as an array or as one object. */
  datatype ChefRow = ChefRow(averageRating: Option<real>, users: Join<UserRow>)

  /** A joined dish row with its chef, which may likewise come as an array or one object. */
  datatype FavoriteDishRow = FavoriteDishRow(columns: DishColumns, chefs: Join<ChefRow>)

  /** The name of the first user of a joined user value. */
  function UserName(users: Join<UserRow>): (r: Option<string>)
    ensures r.Some? <==> users.First().Some?
    ensures r.Some? ==> r.value == users.First().value.name
  {
    match users.First()
    case None => None
    case Some(u) => Some(u.name)
  }

  /**
   * `getChefName`: the name of the first user of the chef, where a chef array
   * is read at its first entry. An array whose first entry is null, or whose
   * first chef has no user, reads as no name: the fall-through test
   * `chefs.USERS` on an array is always false.
   */
  function GetChefName(chefs: Join<ChefRow>): (r: Option<string>)
    ensures r.Some? ==> chefs.First().Some? && chefs.First().value.users.Truthy()
    ensures r == (if chefs.First().Some? && chefs.First().value.users.Truthy()
                  then UserName(chefs.First().value.users) else None)
  {
    if !chefs.Truthy() then None
    else if chefs.Many? && |chefs.rows| > 0 && chefs.rows[0].Some? && chefs.rows[0].value.users.Truthy() then
      UserName(chefs.rows[0].value.users)
    else if chefs.One? && chefs.row.users.Truthy() then
      UserName(chefs.row.users)
    else None
  }

  /** `getChefRating`: the first chef's average rating, 0 when there is none or it is null. */
  function GetChefRating(chefs: Join<ChefRow>): (r: real)
    ensures chefs.First().None? ==> r == 0.0
    ensures chefs.First().Some? ==> r == chefs.First().value.averageRating.OrElse(0.0)
  {
    if !chefs.Truthy() then 0.0
    else if chefs.Many? && |chefs.rows| > 0 && chefs.rows[0].Some? then
      chefs.rows[0].value.averageRating.OrElse(0.0)
    else if chefs.One? then chefs.row.averageRating.OrElse(0.0)
    else 0.0
  }

  /** The chef of a card: present exactly when the chef's name is a non-empty string. */
  function ChefOf(chefs: Join<ChefRow>): (r: Option<Chef>)
    ensures r.Some? <==> TruthyString(GetChefName(chefs))
    ensures r.Some? ==> r.value.name != "" && r.value.averageRating == GetChefRating(chefs)
  {
    if chefs.Truthy() && TruthyString(GetChefName(chefs)) then
      Some(Chef(GetChefName(chefs).value, GetChefRating(chefs)))
    else None
  }

  /** A card of this screen: the common favourite card, with its chef and an empty review list. */
  function ToDish(row: FavoriteDishRow): Dish {
    FavoriteDish(row.columns).(chef := ChefOf(row.chefs), reviews := Some([]))
  }

  function MapFavorites(data: Option<seq<FavoriteRow<FavoriteDishRow>>>): seq<Dish> {
    var dishes := JoinedDishes(data);
    seq(|dishes|, i requires 0 <= i < |dishes| => ToDish(dishes[i]))
  }

  /** Every card is marked as a favourite with no reviews yet, a chef is shown only with a name, and there are no more cards than rows. */
  lemma MapFavoritesSpec(data: Option<seq<FavoriteRow<FavoriteDishRow>>>)
    ensures var r := MapFavorites(data);
      && (data.None? ==> r == [])
      && (forall i :: 0 <= i < |r| ==> r[i].isFavorite == Some(true) && r[i].reviews == Some([]))
      && (forall i :: 0 <= i < |r| && r[i].chef.Some? ==> r[i].chef.value.name != "")
      && (data.Some? ==> |r| <= |data.value|)
  {
  }

  /** `card` is the card of one of the favourite rows that have a dish. */
  ghost predicate CardOfRow(rows: seq<FavoriteRow<FavoriteDishRow>>, card: Dish) {
    exists j :: 0 <= j < |rows| && rows[j].dishes.First().Some? && card == ToDish(rows[j].dishes.First().value)
  }

  /** Every card comes from a favourite row with a dish. */
  lemma MapFavoritesSources(rows: seq<FavoriteRow<FavoriteDishRow>>)
    ensures forall i :: 0 <= i < |MapFavorites(Some(rows))| ==> CardOfRow(rows, MapFavorites(Some(rows))[i])
  {
    var r := MapFavorites(Some(rows));
    forall i | 0 <= i < |r|
      ensures CardOfRow(rows, r[i])
    {
      var j := JoinedSource(rows, i);
      assert r[i] == ToDish(rows[j].dishes.First().value);
    }
  }

  /** Every favourite row with a dish has its card. */
  lemma MapFavoritesCovers(rows: seq<FavoriteRow<FavoriteDishRow>>)
    ensures forall j :: 0 <= j < |rows| && rows[j].dishes.First().Some? ==>
      ToDish(rows[j].dishes.First().value) in MapFavorites(Some(rows))
  {
    var dishes := JoinedDishes(Some(rows));
    var r := MapFavorites(Some(rows));
    forall j | 0 <= j < |rows| && rows[j].dishes.First().Some?
      ensures ToDish(rows[j].dishes.First().value) in r
    {
      var k := JoinedTarget(rows, j);
      assert r[k] == ToDish(dishes[k]);
    }
  }

  /**
   * The rows with a dish keep their order and multiplicity, and the cards
   * are theirs one for one: one card per such row, in row order.
   */
  lemma MapFavoritesRows(rows: seq<FavoriteRow<FavoriteDishRow>>)
    ensures var r := MapFavorites(Some(rows)); var kept := Filter(rows, HasJoinedDish);
      && SubseqOf(kept, rows)
      && (forall x :: Count(kept, x) == if HasJoinedDish(x) then Count(rows, x) else 0)
      && |r| == |kept|
      && (forall i :: 0 <= i < |r| ==> r[i] == ToDish(kept[i].dishes.First().value))
  {
    JoinedDishesSpec(rows);
    var kept := Filter(rows, HasJoinedDish);
    forall x
      ensures Count(kept, x) == if HasJoinedDish(x) then Count(rows, x) else 0
    {
      FilterCount(rows, HasJoinedDish, x);
    }
  }

  /** The spice indicator of this screen, with its glyph as the source text spells it. */
  function SpiceIndicator(level: Option<real>): Option<string> {
    SpiceText(FavoritesChili, level)
  }

  class FavoritesPage {
    var favorites: seq<Dish>
    var loading: bool
    var user: Option<User>
    var selectedDish: Option<Dish>
    var detailsModalVisible: bool

    constructor ()
      ensures favorites == [] && loading && user == None && selectedDish == None && !detailsModalVisible
    {
      favorites := [];
      loading := true;
      user := None;
      selectedDish := None;
      detailsModalVisible := false;
    }

    /**
     * `fetchFavorites`: without a signed-in user nothing is read; otherwise
     * the user is kept, and unless the read fails the list becomes the cards
     * of the rows read.
     */
    method FetchFavorites(current: Option<User>, response: Result<Option<seq<FavoriteRow<FavoriteDishRow>>>>)
      modifies this
      ensures !loading
      ensures current.None? ==> user == old(user) && favorites == old(favorites)
      ensures current.Some? ==> user == current
      ensures current.Some? && response.Err? ==> favorites == old(favorites)
      ensures current.Some? && response.Ok? ==> favorites == MapFavorites(response.value)
      ensures selectedDish == old(selectedDish) && detailsModalVisible == old(detailsModalVisible)
    {
      loading := false;
      if current.None? {
        return;
      }
      user := current;
      if response.Err? {
        return;
      }
      favorites := MapFavorites(response.value);
    }

    /**
     * `removeFavorite`: without a user nothing is sent. After a successful
     * delete the dish leaves the list, and an open details view of that dish
     * closes.
     */
    method RemoveFavorite(dishId: string, remote: Outcome) returns (call: RemoteCall)
      modifies this
      ensures user.None? ==> call == NoCall
      ensures user.Some? ==> call == DeleteFavorite(user.value.id, dishId)
      ensures user.None? || remote.Failure? ==>
        favorites == old(favorites) && selectedDish == old(selectedDish) &&
        detailsModalVisible == old(detailsModalVisible)
      ensures user.Some? && remote.Success? ==> favorites == WithoutDish(old(favorites), dishId)
      ensures user.Some? && remote.Success? && old(selectedDish).Some? && old(selectedDish).value.id == dishId ==>
        selectedDish == None && !detailsModalVisible
      ensures !(old(selectedDish).Some? && old(selectedDish).value.id == dishId) ==>
        selectedDish == old(selectedDish) && detailsModalVisible == old(detailsModalVisible)
      ensures user == old(user) && loading == old(loading)
    {
      if user.None? {
        return NoCall;
      }
      call := DeleteFavorite(user.value.id, dishId);
      if remote.Failure? {
        return;
      }
      favorites := WithoutDish(favorites, dishId);
      if selectedDish.Some? && selectedDish.value.id == dishId {
        CloseDishDetails();
      }
    }

    method OpenDishDetails(dish: Dish)
      modifies this
      ensures selectedDish == Some(dish) && detailsModalVisible
      ensures favorites == old(favorites) && loading == old(loading) && user == old(user)
    {
      selectedDish := Some(dish);
      detailsModalVisible := true;
    }

    method CloseDishDetails()
      modifies this
      ensures selectedDish == None && !detailsModalVisible
      ensures favorites == old(favorites) && loading == old(loading) && user == old(user)
    {
      detailsModalVisible := false;
      selectedDish := None;
    }

    /** The reviews arrive: an error leaves the details as they are; otherwise the open dish takes them. */
    method ShowReviews(response: Result<Option<seq<ReviewRow>>>)
      modifies this
      ensures response.Err? || old(selectedDish).None? ==> selectedDish == old(selectedDish)
      ensures response.Ok? && old(selectedDish).Some? ==>
        selectedDish == Some(old(selectedDish).value.(reviews := Some(FormatReviews(response.value.OrElse([])))))
      ensures favorites == old(favorites) && loading == old(loading) && user == old(user)
      ensures detailsModalVisible == old(detailsModalVisible)
    {
      if response.Err? {
        return;
      }
      if selectedDish.Some? {
        selectedDish := Some(selectedDish.value.(reviews := Some(FormatReviews(response.value.OrElse([])))));
      }
    }
  }
}
