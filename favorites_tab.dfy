/**
 * The favourites tab: the signed-in user's favourite dishes without chefs,
 * removal from the list, and the details view with its reviews.
 */
module FavoritesTab {
  import opened Common
  import opened Dishes

  function MapFavorites(data: Option<seq<FavoriteRow<DishColumns>>>): seq<Dish> {
    var dishes := JoinedDishes(data);
    seq(|dishes|, i requires 0 <= i < |dishes| => FavoriteDish(dishes[i]))
  }

  /** Every card is a favourite without chef or reviews, and there are no more cards than rows. */
  lemma MapFavoritesSpec(data: Option<seq<FavoriteRow<DishColumns>>>)
    ensures var r := MapFavorites(data);
      && (data.None? ==> r == [])
      && (forall i :: 0 <= i < |r| ==> r[i].isFavorite == Some(true) && r[i].chef.None? && r[i].reviews.None?)
      && (data.Some? ==> |r| <= |data.value|)
  {
  }

  /** `card` is the card of one of the favourite rows that have a dish. */
  ghost predicate CardOfRow(rows: seq<FavoriteRow<DishColumns>>, card: Dish) {
    exists j :: 0 <= j < |rows| && rows[j].dishes.First().Some? && card == FavoriteDish(rows[j].dishes.First().value)
  }

  /** Every card comes from a favourite row with a dish. */
  lemma MapFavoritesSources(rows: seq<FavoriteRow<DishColumns>>)
    ensures forall i :: 0 <= i < |MapFavorites(Some(rows))| ==> CardOfRow(rows, MapFavorites(Some(rows))[i])
  {
    var r := MapFavorites(Some(rows));
    forall i | 0 <= i < |r|
      ensures CardOfRow(rows, r[i])
    {
      var j := JoinedSource(rows, i);
      assert r[i] == FavoriteDish(rows[j].dishes.First().value);
    }
  }

  /** Every favourite row with a dish has its card. */
  lemma MapFavoritesCovers(rows: seq<FavoriteRow<DishColumns>>)
    ensures forall j :: 0 <= j < |rows| && rows[j].dishes.First().Some? ==>
      FavoriteDish(rows[j].dishes.First().value) in MapFavorites(Some(rows))
  {
    var dishes := JoinedDishes(Some(rows));
    var r := MapFavorites(Some(rows));
    forall j | 0 <= j < |rows| && rows[j].dishes.First().Some?
      ensures FavoriteDish(rows[j].dishes.First().value) in r
    {
      var k := JoinedTarget(rows, j);
      assert r[k] == FavoriteDish(dishes[k]);
    }
  }

  /**
   * The rows with a dish keep their order and multiplicity, and the cards
   * are theirs one for one: one card per such row, in row order.
   */
  lemma MapFavoritesRows(rows: seq<FavoriteRow<DishColumns>>)
    ensures var r := MapFavorites(Some(rows)); var kept := Filter(rows, HasJoinedDish);
      && SubseqOf(kept, rows)
      && (forall x :: Count(kept, x) == if HasJoinedDish(x) then Count(rows, x) else 0)
      && |r| == |kept|
      && (forall i :: 0 <= i < |r| ==> r[i] == FavoriteDish(kept[i].dishes.First().value))
  {
    JoinedDishesSpec(rows);
    var kept := Filter(rows, HasJoinedDish);
    forall x
      ensures Count(kept, x) == if HasJoinedDish(x) then Count(rows, x) else 0
    {
      FilterCount(rows, HasJoinedDish, x);
    }
  }

  /** The spice indicator of this tab, with its glyph as the source text spells it. */
  function SpiceIndicator(level: Option<real>): Option<string> {
    SpiceText(FavoritesChili, level)
  }

  class FavoritesTab {
    var favorites: seq<Dish>
    var loading: bool
    var user: Option<User>
    var selectedDish: Option<Dish>
    var detailsModalVisible: bool

    constructor ()
      ensures favorites == [] && loading && user == None && selectedDish == None && !detailsModalVisible
    {
      favorites := [];
      loading := true;
      user := None;
      selectedDish := None;
      detailsModalVisible := false;
    }

    /** `fetchFavorites`: as on the root favourites screen, with cards that carry no chef. */
    method FetchFavorites(current: Option<User>, response: Result<Option<seq<FavoriteRow<DishColumns>>>>)
      modifies this
      ensures !loading
      ensures current.None? ==> user == old(user) && favorites == old(favorites)
      ensures current.Some? ==> user == current
      ensures current.Some? && response.Err? ==> favorites == old(favorites)
      ensures current.Some? && response.Ok? ==> favorites == MapFavorites(response.value)
      ensures selectedDish == old(selectedDish) && detailsModalVisible == old(detailsModalVisible)
    {
      loading := false;
      if current.None? {
        return;
      }
      user := current;
      if response.Err? {
        return;
      }
      favorites := MapFavorites(response.value);
    }

    /** `removeFavorite`: after a successful delete the dish leaves the list; the details view stays as it is. */
    method RemoveFavorite(dishId: string, remote: Outcome) returns (call: RemoteCall)
      modifies this
      ensures user.None? ==> call == NoCall
      ensures user.Some? ==> call == DeleteFavorite(user.value.id, dishId)
      ensures user.None? || remote.Failure? ==> favorites == old(favorites)
      ensures user.Some? && remote.Success? ==> favorites == WithoutDish(old(favorites), dishId)
      ensures selectedDish == old(selectedDish) && detailsModalVisible == old(detailsModalVisible)
      ensures user == old(user) && loading == old(loading)
    {
      if user.None? {
        return NoCall;
      }
      call := DeleteFavorite(user.value.id, dishId);
      if remote.Failure? {
        return;
      }
      favorites := WithoutDish(favorites, dishId);
    }

    method OpenDishDetails(dish: Dish)
      modifies this
      ensures selectedDish == Some(dish) && detailsModalVisible
      ensures favorites == old(favorites) && loading == old(loading) && user == old(user)
    {
      selectedDish := Some(dish);
      detailsModalVisible := true;
    }

    method CloseDishDetails()
      modifies this
      ensures selectedDish == None && !detailsModalVisible
      ensures favorites == old(favorites) && loading == old(loading) && user == old(user)
    {
      detailsModalVisible := false;
      selectedDish := None;
    }

    /** The reviews arrive: an error leaves the details as they are; otherwise the open dish takes them. */
    method ShowReviews(response: Result<Option<seq<ReviewRow>>>)
      modifies this
      ensures response.Err? || old(selectedDish).None? ==> selectedDish == old(selectedDish)
      ensures response.Ok? && old(selectedDish).Some? ==>
        selectedDish == Some(old(selectedDish).value.(reviews := Some(FormatReviews(response.value.OrElse([])))))
      ensures favorites == old(favorites) && loading == old(loading) && user == old(user)
      ensures detailsModalVisible == old(detailsModalVisible)
    {
      if response.Err? {
        return;
      }
      if selectedDish.Some? {
        selectedDish := Some(selectedDish.value.(reviews := Some(FormatReviews(response.value.OrElse([])))));
      }
    }
  }
}
