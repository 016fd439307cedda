/** The favorites store (src/utils/favorites.js): a list of favorite episodes kept
    in browser storage under `favoriteEpisodes`, with set-like add, remove and
    toggle keyed by `episodeId`. */
module Favorites {
  import opened Seqs

  /** The episode details a favorite carries. */
  datatype EpisodeInfo = EpisodeInfo(title: string, description: string, file: string)

  /** One stored favorite. `addedAt` is the timestamp of the ISO string, in milliseconds. */
  datatype Favorite = Favorite(
    episodeId: string,
    episode: EpisodeInfo,
    showTitle: string,
    showImage: string,
    seasonNumber: int,
    addedAt: int)

  const FAV_KEY := "favoriteEpisodes"

  /** `list.some(f => f.episodeId === id)` */
  predicate HasId(list: seq<Favorite>, id: string) {
    exists i :: 0 <= i < |list| && list[i].episodeId == id
  }

  function IdIsNot(id: string): Favorite -> bool {
    (f: Favorite) => f.episodeId != id
  }

  /** `list.filter(f => f.episodeId !== id)` */
  function Without(list: seq<Favorite>, id: string): (r: seq<Favorite>)
    ensures |r| <= |list|
    ensures forall i :: 0 <= i < |r| ==> r[i].episodeId != id
    ensures HasId(list, id) ==> |r| < |list|
  {
    WithoutShrinks(list, id);
    Filter(list, IdIsNot(id))
  }

  /** Filtering out an id that is present drops at least the entry carrying it. */
  lemma {:induction false} WithoutShrinks(list: seq<Favorite>, id: string)
    ensures HasId(list, id) ==> |Filter(list, IdIsNot(id))| < |list|
  {
    if |list| > 0 {
      WithoutShrinks(list[1..], id);
      if HasId(list, id) && list[0].episodeId != id {
        var i :| 0 <= i < |list| && list[i].episodeId == id;
        assert list[1..][i - 1].episodeId == id;
      }
    }
  }

  /** No two entries share an `episodeId`. */
  ghost predicate DistinctIds(list: seq<Favorite>) {
    forall i, j :: 0 <= i < j < |list| ==> list[i].episodeId != list[j].episodeId
  }

  /** Removing an id leaves no entry with it, and every entry with another id stays. */
  lemma WithoutMembers(list: seq<Favorite>, id: string)
    ensures !HasId(Without(list, id), id)
    ensures forall f :: f in Without(list, id) <==> f in list && f.episodeId != id
  {
    forall f ensures f in Without(list, id) <==> f in list && f.episodeId != id {
      FilterMembers(list, IdIsNot(id), f);
    }
  }

  /** Removing an id that is absent keeps the list exactly. */
  lemma WithoutAbsent(list: seq<Favorite>, id: string)
    requires !HasId(list, id)
    ensures Without(list, id) == list
  {
    FilterKeepsAll(list, IdIsNot(id));
  }

  /** Without keeps the other entries in their original order: it distributes over concatenation. */
  lemma WithoutAppend(a: seq<Favorite>, b: seq<Favorite>, id: string)
    ensures Without(a + b, id) == Without(a, id) + Without(b, id)
  {
    FilterAppend(a, b, IdIsNot(id));
  }

  /** Appending an entry with a fresh id keeps ids distinct. */
  lemma AppendKeepsDistinct(list: seq<Favorite>, f: Favorite)
    requires DistinctIds(list)
    requires !HasId(list, f.episodeId)
    ensures DistinctIds(list + [f])
  {
  }

  /** Removing never introduces a duplicate. */
  lemma {:induction false} WithoutKeepsDistinct(list: seq<Favorite>, id: string)
    requires DistinctIds(list)
    ensures DistinctIds(Without(list, id))
  {
    if |list| > 0 {
      var rest := list[1..];
      WithoutKeepsDistinct(rest, id);
      var r := Without(list, id);
      if list[0].episodeId != id {
        assert r == [list[0]] + Without(rest, id);
        forall j | 0 <= j < |Without(rest, id)|
          ensures Without(rest, id)[j].episodeId != list[0].episodeId
        {
          var g := Without(rest, id)[j];
          FilterMembers(rest, IdIsNot(id), g);
          var k :| 0 <= k < |rest| && rest[k] == g;
          assert list[k + 1] == g;
        }
      } else {
        assert r == Without(rest, id);
      }
    }
  }

  /** Adding an absent favorite and then removing its id restores the list exactly. */
  lemma AddThenRemove(list: seq<Favorite>, f: Favorite)
    requires !HasId(list, f.episodeId)
    ensures Without(list + [f], f.episodeId) == list
  {
    WithoutAppend(list, [f], f.episodeId);
    WithoutAbsent(list, f.episodeId);
    assert Without([f], f.episodeId) == [];
  }

  /** Browser storage as far as the favorites use it: the slot under FAV_KEY. */
  class FavoritesStore {
    var items: map<string, seq<Favorite>>

    constructor (items: map<string, seq<Favorite>>)
      ensures this.items == items
    {
      this.items := items;
    }

    /** `getfavorites()`: the stored list, or `[]` when nothing is stored. */
    function Get(): (r: seq<Favorite>)
      reads this
      ensures FAV_KEY !in items ==> r == []
      ensures FAV_KEY in items ==> r == items[FAV_KEY]
    {
      if FAV_KEY in items then items[FAV_KEY] else []
    }

    /** `isfavorited(id)` */
    function IsFavorited(id: string): (r: bool)
      reads this
      ensures r <==> exists i :: 0 <= i < |Get()| && Get()[i].episodeId == id
    {
      HasId(Get(), id)
    }

    /** `savefavorites(list)`: overwrites the slot; reading it back gives the list. */
    method Save(list: seq<Favorite>)
      modifies this
      ensures items == old(items)[FAV_KEY := list]
      ensures Get() == list
    {
      items := items[FAV_KEY := list];
    }

    /** `addfavorite(fav)`: appends a copy only when the id is absent; otherwise storage is not written. */
    method Add(fav: Favorite)
      modifies this
      ensures old(IsFavorited(fav.episodeId)) ==> items == old(items)
      ensures !old(IsFavorited(fav.episodeId)) ==> items == old(items)[FAV_KEY := old(Get()) + [fav]]
      ensures !old(IsFavorited(fav.episodeId)) ==> Get() == old(Get()) + [fav]
      ensures IsFavorited(fav.episodeId)
      ensures old(DistinctIds(Get())) ==> DistinctIds(Get())
    {
      var favs := Get();
      if !IsFavorited(fav.episodeId) {
        favs := favs + [fav];
        if DistinctIds(old(Get())) {
          AppendKeepsDistinct(old(Get()), fav);
        }
        assert favs[|favs| - 1].episodeId == fav.episodeId;
        Save(favs);
      }
    }

    /** `removefavorite(id)`: always writes back the filtered list. */
    method Remove(id: string)
      modifies this
      ensures items == old(items)[FAV_KEY := Without(old(Get()), id)]
      ensures !IsFavorited(id)
      ensures forall f :: f in Get() <==> f in old(Get()) && f.episodeId != id
      ensures old(DistinctIds(Get())) ==> DistinctIds(Get())
    {
      var filtered := Without(Get(), id);
      WithoutMembers(Get(), id);
      if DistinctIds(Get()) {
        WithoutKeepsDistinct(Get(), id);
      }
      Save(filtered);
    }

    /** `togglefavorite(fav)`: removes when favorited, adds otherwise, so membership flips. */
    method Toggle(fav: Favorite)
      modifies this
      ensures IsFavorited(fav.episodeId) == !old(IsFavorited(fav.episodeId))
      ensures old(IsFavorited(fav.episodeId)) ==> items == old(items)[FAV_KEY := Without(old(Get()), fav.episodeId)]
      ensures !old(IsFavorited(fav.episodeId)) ==> items == old(items)[FAV_KEY := old(Get()) + [fav]]
      ensures old(IsFavorited(fav.episodeId)) ==> Get() == Without(old(Get()), fav.episodeId)
      ensures !old(IsFavorited(fav.episodeId)) ==> Get() == old(Get()) + [fav]
      ensures old(DistinctIds(Get())) ==> DistinctIds(Get())
    {
      if IsFavorited(fav.episodeId) {
        Remove(fav.episodeId);
      } else {
        Add(fav);
      }
    }
  }

  /** Toggling a favorite that was absent twice gives back the stored list exactly. */
  method ToggleTwice(store: FavoritesStore, fav: Favorite)
    requires !store.IsFavorited(fav.episodeId)
    modifies store
    ensures store.Get() == old(store.Get())
  {
    ghost var before := store.Get();
    store.Toggle(fav);
    store.Toggle(fav);
    AddThenRemove(before, fav);
  }
}
