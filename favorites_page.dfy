/** The favorites page (src/pages/FavoritesPage.jsx): favorites grouped by show
    title, each group ordered by the date added, the groups ordered by title, and
    the list registered with the player for each show, numbered as displayed. */
module FavoritesPage {
  import opened Js
  import opened Seqs
  import opened Favorites
  import opened AudioPlayer

  // ---------------------------------------------------------------------------
  // Grouping by show
  // ---------------------------------------------------------------------------

  function ShowIs(title: string): Favorite -> bool {
    (f: Favorite) => f.showTitle == title
  }

  /** The favorites of one show, in list order. */
  function OfShow(favs: seq<Favorite>, title: string): seq<Favorite> {
    Filter(favs, ShowIs(title))
  }

  ghost predicate NoDuplicates<T>(s: seq<T>) {
    forall i, j :: 0 <= i < j < |s| ==> s[i] != s[j]
  }

  /** Appending one favorite extends its own show's group only. */
  lemma OfShowSnoc(favs: seq<Favorite>, fav: Favorite, title: string)
    ensures OfShow(favs + [fav], title) == OfShow(favs, title) + (if fav.showTitle == title then [fav] else [])
  {
    FilterAppend(favs, [fav], ShowIs(title));
  }

  /** grouped and keys are the grouping of favs: every title that occurs has its
      nonempty group of that show's favorites in list order, and keys lists each
      title once. */
  ghost predicate Grouping(grouped: map<string, seq<Favorite>>, keys: seq<string>, favs: seq<Favorite>) {
    && (forall j :: 0 <= j < |favs| ==> favs[j].showTitle in grouped)
    && (forall t :: t in grouped ==> grouped[t] == OfShow(favs, t) && grouped[t] != [])
    && (forall t :: t !in grouped ==> OfShow(favs, t) == [])
    && NoDuplicates(keys)
    && (forall t :: t in grouped <==> t in keys)
  }

  /** One step of the reduce: `if (!acc[t]) acc[t] = []; acc[t].push(fav)`. */
  function Push(acc: map<string, seq<Favorite>>, fav: Favorite): map<string, seq<Favorite>> {
    acc[fav.showTitle := (if fav.showTitle in acc then acc[fav.showTitle] else []) + [fav]]
  }

  /** The reduce over favs, from the empty object. */
  function GroupOf(favs: seq<Favorite>): map<string, seq<Favorite>> {
    if |favs| == 0 then map[] else Push(GroupOf(favs[..|favs| - 1]), favs[|favs| - 1])
  }

  /** The object's keys in insertion order. */
  function KeysOf(favs: seq<Favorite>): seq<string> {
    if |favs| == 0 then []
    else
      var keys, t := KeysOf(favs[..|favs| - 1]), favs[|favs| - 1].showTitle;
      if t in GroupOf(favs[..|favs| - 1]) then keys else keys + [t]
  }

  /** One step of the reduce keeps the titles listed once and every favorite's title present. */
  lemma GroupStepKeys(grouped: map<string, seq<Favorite>>, keys: seq<string>, favs: seq<Favorite>, fav: Favorite,
                      grouped': map<string, seq<Favorite>>, keys': seq<string>, favs': seq<Favorite>)
    requires Grouping(grouped, keys, favs)
    requires favs' == favs + [fav]
    requires keys' == if fav.showTitle in grouped then keys else keys + [fav.showTitle]
    requires grouped' == Push(grouped, fav)
    ensures NoDuplicates(keys')
    ensures forall t :: t in grouped' <==> t in keys'
    ensures forall j :: 0 <= j < |favs'| ==> favs'[j].showTitle in grouped'
  {
  }

  /** One step of the reduce extends the new favorite's group and no other. */
  lemma GroupStepGroups(grouped: map<string, seq<Favorite>>, keys: seq<string>, favs: seq<Favorite>, fav: Favorite,
                        grouped': map<string, seq<Favorite>>, keys': seq<string>, favs': seq<Favorite>)
    requires Grouping(grouped, keys, favs)
    requires favs' == favs + [fav]
    requires grouped' == Push(grouped, fav)
    ensures forall t :: t in grouped' ==> grouped'[t] == OfShow(favs', t) && grouped'[t] != []
    ensures forall t :: t !in grouped' ==> OfShow(favs', t) == []
  {
    forall t ensures t in grouped' ==> grouped'[t] == OfShow(favs', t) && grouped'[t] != [] {
      OfShowSnoc(favs, fav, t);
    }
    forall t ensures t !in grouped' ==> OfShow(favs', t) == [] {
      OfShowSnoc(favs, fav, t);
    }
  }

  /** The reduce groups: its result and keys satisfy Grouping. */
  lemma {:induction false} GroupOfGroups(favs: seq<Favorite>)
    ensures Grouping(GroupOf(favs), KeysOf(favs), favs)
  {
    if |favs| > 0 {
      var prefix, fav := favs[..|favs| - 1], favs[|favs| - 1];
      GroupOfGroups(prefix);
      assert favs == prefix + [fav];
      GroupStepKeys(GroupOf(prefix), KeysOf(prefix), prefix, fav, GroupOf(favs), KeysOf(favs), favs);
      GroupStepGroups(GroupOf(prefix), KeysOf(prefix), prefix, fav, GroupOf(favs), KeysOf(favs), favs);
    }
  }

  /** The `grouped` reduce, pushing into the accumulator's arrays: one nonempty group
      per show title that occurs, each holding that show's favorites in list order,
      and the titles in order of first appearance (the order `Object.keys` gives for
      titles that are not integer-like). */
  method Group(favorites: seq<Favorite>) returns (grouped: map<string, seq<Favorite>>, keys: seq<string>)
    ensures grouped == GroupOf(favorites) && keys == KeysOf(favorites)
    ensures Grouping(grouped, keys, favorites)
  {
    grouped, keys := map[], [];
    var i := 0;
    while i < |favorites|
      invariant 0 <= i <= |favorites|
      invariant grouped == GroupOf(favorites[..i]) && keys == KeysOf(favorites[..i])
    {
      var fav := favorites[i];
      assert favorites[..i + 1][..i] == favorites[..i];
      if fav.showTitle !in grouped {
        grouped := grouped[fav.showTitle := []];
        keys := keys + [fav.showTitle];
      }
      grouped := grouped[fav.showTitle := grouped[fav.showTitle] + [fav]];
      i := i + 1;
    }
    assert favorites[..i] == favorites;
    GroupOfGroups(favorites);
  }

  /** A favorite lands in a show's group exactly when it has that show's title,
      so it sits in one group only. */
  lemma GroupOfEach(favs: seq<Favorite>, i: int, title: string)
    requires 0 <= i < |favs|
    ensures favs[i] in OfShow(favs, title) <==> favs[i].showTitle == title
  {
    FilterMembers(favs, ShowIs(title), favs[i]);
  }

  /** The sizes of the groups listed in keys. */
  function SizeSum(keys: seq<string>, favs: seq<Favorite>): nat {
    if |keys| == 0 then 0 else |OfShow(favs, keys[0])| + SizeSum(keys[1..], favs)
  }

  function Occurrences(keys: seq<string>, x: string): nat {
    if |keys| == 0 then 0 else (if keys[0] == x then 1 else 0) + Occurrences(keys[1..], x)
  }

  lemma {:induction false} SizeSumEmpty(keys: seq<string>)
    ensures SizeSum(keys, []) == 0
  {
    if |keys| > 0 {
      SizeSumEmpty(keys[1..]);
    }
  }

  lemma {:induction false} SizeSumStep(keys: seq<string>, favs: seq<Favorite>)
    requires |favs| > 0
    ensures SizeSum(keys, favs) == SizeSum(keys, favs[1..]) + Occurrences(keys, favs[0].showTitle)
  {
    if |keys| > 0 {
      SizeSumStep(keys[1..], favs);
    }
  }

  lemma {:induction false} OccursOnce(keys: seq<string>, x: string)
    requires NoDuplicates(keys) && x in keys
    ensures Occurrences(keys, x) == 1
  {
    if keys[0] == x {
      OccursNever(keys[1..], x);
    } else {
      OccursOnce(keys[1..], x);
    }
  }

  lemma {:induction false} OccursNever(keys: seq<string>, x: string)
    requires x !in keys
    ensures Occurrences(keys, x) == 0
  {
    if |keys| > 0 {
      OccursNever(keys[1..], x);
    }
  }

  /** The group sizes add up to the number of favorites. */
  lemma {:induction false} GroupSizesSum(keys: seq<string>, favs: seq<Favorite>)
    requires NoDuplicates(keys)
    requires forall i :: 0 <= i < |favs| ==> favs[i].showTitle in keys
    ensures SizeSum(keys, favs) == |favs|
  {
    if |favs| == 0 {
      SizeSumEmpty(keys);
    } else {
      SizeSumStep(keys, favs);
      OccursOnce(keys, favs[0].showTitle);
      GroupSizesSum(keys, favs[1..]);
    }
  }

  /** The sizes of the groups that grouped holds under the titles in keys. */
  function GroupSizes(grouped: map<string, seq<Favorite>>, keys: seq<string>): nat
    requires forall t :: t in keys ==> t in grouped
  {
    if |keys| == 0 then 0 else |grouped[keys[0]]| + GroupSizes(grouped, keys[1..])
  }

  /** When every listed group is that show's favorites, the group sizes are SizeSum. */
  lemma {:induction false} GroupSizesOf(grouped: map<string, seq<Favorite>>, keys: seq<string>, favs: seq<Favorite>)
    requires forall t :: t in keys ==> t in grouped && grouped[t] == OfShow(favs, t)
    ensures GroupSizes(grouped, keys) == SizeSum(keys, favs)
  {
    if |keys| > 0 {
      GroupSizesOf(grouped, keys[1..], favs);
    }
  }

  /** Groups the favorites and counts what the groups hold: every favorite is in
      exactly one group, so the groups' sizes add up to the number of favorites. */
  method GroupCounts(favorites: seq<Favorite>) returns (grouped: map<string, seq<Favorite>>, keys: seq<string>, total: nat)
    ensures Grouping(grouped, keys, favorites)
    ensures forall t :: t in keys ==> t in grouped
    ensures total == GroupSizes(grouped, keys)
    ensures total == |favorites|
  {
    grouped, keys := Group(favorites);
    GroupSizesOf(grouped, keys, favorites);
    GroupSizesSum(keys, favorites);
    total := GroupSizes(grouped, keys);
  }

  // ---------------------------------------------------------------------------
  // Ordering
  // ---------------------------------------------------------------------------

  /** The "newest" comparator `b - a` on the timestamps is negative when a was added later. */
  predicate NewerFirst(a: Favorite, b: Favorite) {
    b.addedAt - a.addedAt < 0
  }

  /** The "oldest" comparator `a - b` is negative when a was added earlier. */
  predicate OlderFirst(a: Favorite, b: Favorite) {
    a.addedAt - b.addedAt < 0
  }

  /** `sortFavorites(favList)`: a sorted copy for "newest" and "oldest"; any other
      value gives the list in its own order. */
  function SortFavorites(sort: string, favList: seq<Favorite>): (sorted: seq<Favorite>)
    ensures multiset(sorted) == multiset(favList)
    ensures sort == "newest" ==> forall i, j :: 0 <= i < j < |sorted| ==> sorted[i].addedAt >= sorted[j].addedAt
    ensures sort == "oldest" ==> forall i, j :: 0 <= i < j < |sorted| ==> sorted[i].addedAt <= sorted[j].addedAt
    ensures sort != "newest" && sort != "oldest" ==> sorted == favList
  {
    if sort == "newest" then
      SortBySorted(favList, NewerFirst);
      var r := SortBy(favList, NewerFirst);
      assert forall i, j :: 0 <= i < j < |r| ==> !NewerFirst(r[j], r[i]);
      r
    else if sort == "oldest" then
      SortBySorted(favList, OlderFirst);
      var r := SortBy(favList, OlderFirst);
      assert forall i, j :: 0 <= i < j < |r| ==> !OlderFirst(r[j], r[i]);
      r
    else favList
  }

  /** A favorite was added at moment t. */
  function AddedAt(t: int): Favorite -> bool {
    (f: Favorite) => f.addedAt == t
  }

  /** The date sorts are stable: favorites added at the same moment keep their
      relative list order, whatever else the list holds. */
  lemma SortFavoritesKeepsTies(sort: string, favList: seq<Favorite>, t: int)
    ensures Filter(SortFavorites(sort, favList), AddedAt(t)) == Filter(favList, AddedAt(t))
  {
    SortByStable(favList, NewerFirst, AddedAt(t));
    SortByStable(favList, OlderFirst, AddedAt(t));
  }

  /** In particular a list whose favorites were all added at once is left as it is. */
  lemma SortFavoritesAllTied(sort: string, favList: seq<Favorite>)
    requires forall i, j :: 0 <= i < |favList| && 0 <= j < |favList| ==> favList[i].addedAt == favList[j].addedAt
    ensures SortFavorites(sort, favList) == favList
  {
    SortByAllTied(favList, NewerFirst);
    SortByAllTied(favList, OlderFirst);
  }

  /** The show-title comparator: `b.localeCompare(a)` for "za", `a.localeCompare(b)` otherwise. */
  function ShowOrder(sort: string, collate: (string, string) -> bool): (r: (string, string) -> bool)
    ensures StrictWeakOrder(collate) ==> StrictWeakOrder(r)
  {
    assert StrictWeakOrder(collate) ==> StrictWeakOrder(Flip(collate)) by {
      if StrictWeakOrder(collate) {
        FlipStrictWeak(collate);
      }
    }
    if sort == "za" then Flip(collate) else collate
  }

  /** `sortedShows`: the group titles in collation order, reversed for "za". */
  function SortedShows(keys: seq<string>, sort: string, collate: (string, string) -> bool): (r: seq<string>)
    requires StrictWeakOrder(collate)
    ensures multiset(r) == multiset(keys)
    ensures sort == "za" ==> forall i, j :: 0 <= i < j < |r| ==> !collate(r[i], r[j])
    ensures sort != "za" ==> forall i, j :: 0 <= i < j < |r| ==> !collate(r[j], r[i])
  {
    SortBySorted(keys, ShowOrder(sort, collate));
    SortBy(keys, ShowOrder(sort, collate))
  }

  // ---------------------------------------------------------------------------
  // The list registered for navigation
  // ---------------------------------------------------------------------------

  /** One entry of `formatted`: the favorite at display position i. */
  function FormatEntry(fav: Favorite, i: nat): (e: Episode)
    ensures e.episodeNumber == i + 1
    ensures e.showId == fav.showTitle && e.season == fav.seasonNumber
    ensures e.audioUrl == fav.episode.file && e.favId == Some(fav.episodeId)
  {
    Episode(fav.showTitle, fav.seasonNumber, i + 1, fav.episode.title, fav.episode.file,
            fav.showImage, fav.showTitle, Some(fav.episodeId))
  }

  /** `formatted`: the show's favorites as player episodes, numbered by position from 1. */
  function Formatted(showFavs: seq<Favorite>): (r: seq<Episode>)
    ensures |r| == |showFavs|
    ensures forall i :: 0 <= i < |r| ==> r[i].episodeNumber == i + 1
    ensures forall i :: 0 <= i < |r| ==> r[i] == FormatEntry(showFavs[i], i)
  {
    seq(|showFavs|, i requires 0 <= i < |showFavs| => FormatEntry(showFavs[i], i))
  }

  /** The numbers are 1..n, so they are distinct. */
  lemma FormattedDistinct(showFavs: seq<Favorite>)
    ensures DistinctNumbers(Formatted(showFavs))
  {
  }

  /** Navigation over a registered list follows display order: next from
      position i is the entry at i + 1, previous from i + 1 is the entry at i,
      and nothing follows the last entry or precedes the first. */
  lemma FormattedNavigation(showFavs: seq<Favorite>, i: int)
    requires 0 <= i && i + 1 < |showFavs|
    ensures NextTarget(Formatted(showFavs), i + 1) == Some(FormatEntry(showFavs[i + 1], i + 1))
    ensures PrevTarget(Formatted(showFavs), i + 2) == Some(FormatEntry(showFavs[i], i))
    ensures NextTarget(Formatted(showFavs), |showFavs|) == None
    ensures PrevTarget(Formatted(showFavs), 1) == None
  {
    FormattedStep(showFavs, i);
    FormattedEnds(showFavs);
  }

  /** The step between adjacent positions of a registered list. */
  lemma FormattedStep(showFavs: seq<Favorite>, i: int)
    requires 0 <= i && i + 1 < |showFavs|
    ensures NextTarget(Formatted(showFavs), i + 1) == Some(FormatEntry(showFavs[i + 1], i + 1))
    ensures PrevTarget(Formatted(showFavs), i + 2) == Some(FormatEntry(showFavs[i], i))
  {
    var r := Formatted(showFavs);
    FormattedDistinct(showFavs);
    assert r[i] == FormatEntry(showFavs[i], i) && r[i + 1] == FormatEntry(showFavs[i + 1], i + 1);
    NextThenPrev(r, i);
  }

  /** Nothing follows the last entry of a registered list or precedes its first. */
  lemma FormattedEnds(showFavs: seq<Favorite>)
    requires |showFavs| > 0
    ensures NextTarget(Formatted(showFavs), |showFavs|) == None
    ensures PrevTarget(Formatted(showFavs), 1) == None
  {
    var r := Formatted(showFavs);
    FormattedDistinct(showFavs);
    assert r[|r| - 1].episodeNumber == |showFavs|;
    DistinctFirstMatch(r, |r| - 1);
    assert r[0].episodeNumber == 1;
    DistinctFirstMatch(r, 0);
  }

  /** A favorite's `season` property: favorites carry `seasonNumber` instead, so it is undefined. */
  function SeasonProperty(fav: Favorite): Option<int> {
    None
  }

  /** The registration key `showFavs[0]?.season || 1`, which is therefore always 1. */
  function RegistrationSeason(showFavs: seq<Favorite>): (season: int)
    ensures season == 1
  {
    IntOr(if |showFavs| == 0 then None else SeasonProperty(showFavs[0]), 1)
  }

  /** The list registered for one show: its favorites sorted as displayed, then numbered. */
  function Displayed(sort: string, showFavs: seq<Favorite>): (r: seq<Episode>)
    ensures |r| == |showFavs|
  {
    Formatted(SortFavorites(sort, showFavs))
  }

  /** The registration effect: every group, sorted as displayed, is registered under
      its show title and the registration season. */
  method RegisterDisplayed(player: Provider, grouped: map<string, seq<Favorite>>, keys: seq<string>, sort: string)
    requires forall t :: t in keys ==> t in grouped
    modifies player.registry
    ensures forall t :: t in keys ==>
      player.registry.Lookup(t, 1) == Some(Displayed(sort, grouped[t]))
    ensures forall s, n :: s !in keys || n != 1 ==> player.registry.Lookup(s, n) == old(player.registry.Lookup(s, n))
  {
    ghost var lists := map t | t in grouped :: Displayed(sort, grouped[t]);
    RegisterEach(player, grouped, keys, sort, lists);
  }

  /** The list the page registers for show t is `lists[t]`. */
  ghost predicate ListedAs(lists: map<string, seq<Episode>>, grouped: map<string, seq<Favorite>>, sort: string, t: string) {
    t in lists && t in grouped && lists[t] == Displayed(sort, grouped[t])
  }

  /** The `forEach` over the group keys. The lists the iterations compute are named
      in advance by the ghost map `lists`, so that the loop's invariants speak of
      them without recomputing them. */
  method RegisterEach(player: Provider, grouped: map<string, seq<Favorite>>, keys: seq<string>, sort: string,
                      ghost lists: map<string, seq<Episode>>)
    requires forall t :: t in keys ==> ListedAs(lists, grouped, sort, t)
    modifies player.registry
    ensures forall t :: t in keys ==> t in lists && player.registry.Lookup(t, 1) == Some(lists[t])
    ensures forall s, n :: s !in keys || n != 1 ==> player.registry.Lookup(s, n) == old(player.registry.Lookup(s, n))
  {
    var i := 0;
    while i < |keys|
      invariant 0 <= i <= |keys|
      invariant forall t :: t in keys[..i] ==> t in lists && player.registry.Lookup(t, 1) == Some(lists[t])
      invariant forall s, n :: s !in keys[..i] || n != 1 ==>
        player.registry.Lookup(s, n) == old(player.registry.Lookup(s, n))
    {
      var showTitle := keys[i];
      assert ListedAs(lists, grouped, sort, showTitle);
      RegisterShow(player, showTitle, grouped[showTitle], sort);
      assert keys[..i + 1] == keys[..i] + [showTitle];
      forall t | t in keys[..i + 1] ensures t in lists && player.registry.Lookup(t, 1) == Some(lists[t]) {
        if t != showTitle {
          assert t in keys[..i];
        }
      }
      i := i + 1;
    }
    assert keys[..i] == keys;
  }

  /** One iteration of the registration effect: the show's favorites, sorted and
      numbered, are registered under its title and the registration season. */
  method RegisterShow(player: Provider, showTitle: string, favs: seq<Favorite>, sort: string)
    modifies player.registry
    ensures player.registry.Lookup(showTitle, 1) == Some(Displayed(sort, favs))
    ensures forall s, n :: s != showTitle || n != 1 ==> player.registry.Lookup(s, n) == old(player.registry.Lookup(s, n))
  {
    var showFavs := SortFavorites(sort, favs);
    var formatted := Formatted(showFavs);
    player.RegisterEpisodes(showTitle, RegistrationSeason(showFavs), formatted);
  }

  // ---------------------------------------------------------------------------
  // The page's state
  // ---------------------------------------------------------------------------

  class FavoritesView {
    const store: FavoritesStore
    var sort: string
    var favorites: seq<Favorite>

    /** The first render: sorted by "newest", showing the stored list. */
    constructor (store: FavoritesStore)
      ensures this.store == store && sort == "newest" && favorites == store.Get()
    {
      this.store := store;
      sort := "newest";
      favorites := store.Get();
    }

    /** `handleToggle(fav)`: toggles in storage, then shows the stored list read back. */
    method HandleToggle(fav: Favorite)
      modifies this`favorites, store
      ensures favorites == store.Get()
      ensures store.IsFavorited(fav.episodeId) == !old(store.IsFavorited(fav.episodeId))
      ensures old(store.IsFavorited(fav.episodeId)) ==> favorites == Without(old(store.Get()), fav.episodeId)
      ensures !old(store.IsFavorited(fav.episodeId)) ==> favorites == old(store.Get()) + [fav]
    {
      store.Toggle(fav);
      favorites := store.Get();
    }
  }

  // ---------------------------------------------------------------------------
  // A favorite from a season other than 1
  // ---------------------------------------------------------------------------

  /** The page registers every group under season 1, but the entries it passes to
      the player carry the favorites' own season. For two favorites of one show
      from season 2, playing the first displayed entry leaves no next episode:
      the lookup under season 2 finds no list. */
  method OtherSeasonScenario(f1: Favorite, f2: Favorite) returns (shown: seq<Episode>, next: Option<Episode>)
    requires f1.showTitle == f2.showTitle && f1.seasonNumber == 2 && f2.seasonNumber == 2
    ensures |shown| == 2
    ensures next == None
  {
    var registry := new EpisodeRegistry();
    var storage := new SnapshotStore(map[]);
    var player := new Provider(registry, storage);
    player.Mount();
    var t := f1.showTitle;
    RegisterDisplayed(player, map[t := [f1, f2]], [t], "newest");
    shown := Displayed("newest", [f1, f2]);
    var sorted := SortFavorites("newest", [f1, f2]);
    assert sorted[0] in multiset(sorted);
    assert shown[0].showId == t && shown[0].season == 2;
    player.PlayEpisode(shown[0]);
    next := player.NextCandidate();
  }
}
