/**
 * The favourites provider: the signed-in user and the ids of their
 * favourite dishes, kept in step with the `favorites` table. Each remote
 * read or write is a parameter holding its outcome.
 */
module FavoritesContext {
  import opened Common
  import opened Dishes

  const AddWithoutUser: string := "User must be logged in to add favorites"
  const RemoveWithoutUser: string := "User must be logged in to remove favorites"

  /** `isFavorite`: `favoriteIds.includes(dishId)`, as a left-to-right search. */
  function Contains(ids: seq<string>, dishId: string): (r: bool)
    ensures r <==> dishId in ids
  {
    if ids == [] then false else ids[0] == dishId || Contains(ids[1..], dishId)
  }

  /** The list after a successful insert: the id is appended, whether or not it is already there. */
  function Added(ids: seq<string>, dishId: string): (r: seq<string>)
    ensures |r| == |ids| + 1 && r[..|ids|] == ids && r[|ids|] == dishId
  {
    ids + [dishId]
  }

  /** The list after a successful delete: every copy of the id goes, the rest stay in order. */
  function Removed(ids: seq<string>, dishId: string): (r: seq<string>)
    ensures dishId !in r
    ensures SubseqOf(r, ids)
    ensures forall i :: 0 <= i < |ids| && ids[i] != dishId ==> ids[i] in r
  {
    Filter(ids, (x: string) => x != dishId)
  }

  /** After adding, the dish is a favourite and one more copy of its id is stored. */
  lemma AddedHolds(ids: seq<string>, dishId: string)
    ensures Contains(Added(ids, dishId), dishId)
    ensures Count(Added(ids, dishId), dishId) == Count(ids, dishId) + 1
    ensures forall x :: x != dishId ==> (Contains(Added(ids, dishId), x) <==> Contains(ids, x))
  {
    CountAppend(ids, [dishId], dishId);
  }

  /** After removing, the dish is not a favourite and every other favourite still is. */
  lemma RemovedHolds(ids: seq<string>, dishId: string)
    ensures !Contains(Removed(ids, dishId), dishId)
    ensures forall x :: x != dishId ==> (Contains(Removed(ids, dishId), x) <==> Contains(ids, x))
  {
    forall x | x != dishId
      ensures Contains(Removed(ids, dishId), x) <==> Contains(ids, x)
    {
      if x in ids {
        var i :| 0 <= i < |ids| && ids[i] == x;
      }
    }
  }

  /** Removing undoes adding, however many copies were stored before. */
  lemma RemoveUndoesAdd(ids: seq<string>, dishId: string)
    ensures Removed(Added(ids, dishId), dishId) == Removed(ids, dishId)
  {
    FilterAppend(ids, [dishId], (x: string) => x != dishId);
  }

  /** Removing an id that is not stored changes nothing. */
  lemma RemoveAbsent(ids: seq<string>, dishId: string)
    requires !Contains(ids, dishId)
    ensures Removed(ids, dishId) == ids
  {
    FilterAll(ids, (x: string) => x != dishId);
  }

  class FavoritesProvider {
    var favoriteIds: seq<string>
    var user: Option<User>

    constructor ()
      ensures favoriteIds == [] && user == None
    {
      favoriteIds := [];
      user := None;
    }

    /** `fetchFavorites`: a failed read keeps the list; otherwise it becomes the dish ids read. */
    method FetchFavorites(response: Result<Option<seq<FavoriteIdRow>>>)
      modifies this
      ensures response.Err? ==> favoriteIds == old(favoriteIds)
      ensures response.Ok? ==> favoriteIds == DishIds(response.value)
      ensures user == old(user)
    {
      if response.Err? {
        return;
      }
      favoriteIds := DishIds(response.value);
    }

    /** The first look at the session: a signed-in user is kept and their favourites read; `queried` is the user id the read asks for. */
    method Initialize(current: Option<User>, response: Result<Option<seq<FavoriteIdRow>>>) returns (queried: Option<string>)
      modifies this
      ensures current.None? ==> queried == None && user == old(user) && favoriteIds == old(favoriteIds)
      ensures current.Some? ==> user == current && queried == Some(current.value.id)
      ensures current.Some? && response.Err? ==> favoriteIds == old(favoriteIds)
      ensures current.Some? && response.Ok? ==> favoriteIds == DishIds(response.value)
    {
      queried := None;
      if current.Some? {
        user := current;
        queried := Some(current.value.id);
        FetchFavorites(response);
      }
    }

    /** A sign-in reads the new user's favourites (`queried` is that user's id); a sign-out forgets the user and empties the list. */
    method OnAuthStateChange(session: Option<User>, response: Result<Option<seq<FavoriteIdRow>>>) returns (queried: Option<string>)
      modifies this
      ensures user == session
      ensures session.None? ==> queried == None && favoriteIds == []
      ensures session.Some? ==> queried == Some(session.value.id)
      ensures session.Some? && response.Err? ==> favoriteIds == old(favoriteIds)
      ensures session.Some? && response.Ok? ==> favoriteIds == DishIds(response.value)
    {
      queried := None;
      if session.Some? {
        user := session;
        queried := Some(session.value.id);
        FetchFavorites(response);
      } else {
        user := None;
        favoriteIds := [];
      }
    }

    /**
     * `addFavorite`: without a user it fails before any write; otherwise it
     * inserts, and appends the id only when the insert succeeds. `call` is
     * the write sent; `result` is `Failure` where the source throws.
     */
    method AddFavorite(dishId: string, remote: Outcome) returns (call: RemoteCall, result: Outcome)
      modifies this
      ensures user.None? ==> call == NoCall && result == Failure(AddWithoutUser)
      ensures user.Some? ==> call == InsertFavorite(user.value.id, dishId) && result == remote
      ensures user.Some? && remote.Success? ==> favoriteIds == Added(old(favoriteIds), dishId)
      ensures user.None? || remote.Failure? ==> favoriteIds == old(favoriteIds)
      ensures user == old(user)
    {
      if user.None? {
        return NoCall, Failure(AddWithoutUser);
      }
      call := InsertFavorite(user.value.id, dishId);
      result := remote;
      if remote.Failure? {
        return;
      }
      favoriteIds := Added(favoriteIds, dishId);
    }

    /** `removeFavorite`: as adding, with a delete and every copy of the id dropped on success. */
    method RemoveFavorite(dishId: string, remote: Outcome) returns (call: RemoteCall, result: Outcome)
      modifies this
      ensures user.None? ==> call == NoCall && result == Failure(RemoveWithoutUser)
      ensures user.Some? ==> call == DeleteFavorite(user.value.id, dishId) && result == remote
      ensures user.Some? && remote.Success? ==> favoriteIds == Removed(old(favoriteIds), dishId)
      ensures user.None? || remote.Failure? ==> favoriteIds == old(favoriteIds)
      ensures user == old(user)
    {
      if user.None? {
        return NoCall, Failure(RemoveWithoutUser);
      }
      call := DeleteFavorite(user.value.id, dishId);
      result := remote;
      if remote.Failure? {
        return;
      }
      favoriteIds := Removed(favoriteIds, dishId);
    }

    function IsFavorite(dishId: string): bool
      reads this
    {
      Contains(favoriteIds, dishId)
    }

    /** `refreshFavorites`: re-reads the list for the signed-in user; without one nothing happens. */
    method RefreshFavorites(response: Result<Option<seq<FavoriteIdRow>>>) returns (queried: Option<string>)
      modifies this
      ensures user.None? ==> queried == None && favoriteIds == old(favoriteIds)
      ensures user.Some? ==> queried == Some(user.value.id)
      ensures user.Some? && response.Err? ==> favoriteIds == old(favoriteIds)
      ensures user.Some? && response.Ok? ==> favoriteIds == DishIds(response.value)
      ensures user == old(user)
    {
      if user.None? {
        return None;
      }
      queried := Some(user.value.id);
      FetchFavorites(response);
    }
  }
}
