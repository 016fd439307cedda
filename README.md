# Podcast browser core, modelled in Dafny

This project models the state handling and list logic of a React podcast
browser. The modelled parts are:

- the **global audio player**: a playback coordinator with one audio handle, an
  episode registry used for next/previous navigation, and a snapshot persisted under
  `"global-player"`;
- the **favorites store**, a persisted list keyed by `episodeId`, and the
  **favorites page**, which groups, sorts and numbers favorites;
- the **catalog pipeline**: genre filter, case-insensitive search, sort, page
  clamping, page count and page slice, and the pager's prev/next/page buttons;
- **query-parameter sync**: parameter defaulting, and `set`/`delete` with
  `URLSearchParams` semantics (section 6.2 of the WHATWG URL Standard);
- small pure helpers: `formatDuration`, season lookup and episode totals on the show
  page, `getGenreTitles`, and the `genreMap`/`genreList` table.

Files and modules
- `js.dfy` (`Js`): the JavaScript built-ins the code relies on. It holds `Option`
  (`undefined`/`null`), truthiness fallbacks (`x || d`), `Number(string)`,
  `String(int)`, `toLowerCase`, `includes`, `Math.min`/`max` and `Array.prototype.slice`.
- `seqs.dfy` (`Seqs`): `Array.prototype.filter`, and a stable sort by a comparator
  (`Array.prototype.sort`; stable since ES2019) together with its sortedness proof.
- `url_params.dfy` (`UrlParams`): `URLSearchParams` as an ordered list of
  name/value pairs, with `get`, `has`, `set` and `delete`.
- `query_state.dfy` (`QueryState`): `useQueryState`.
- `favorites.dfy` (`Favorites`): the favorites store, a class over a key→list storage map.
- `favorites_page.dfy` (`FavoritesPage`): grouping, sorting and the registration list.
- `audio_player.dfy` (`AudioPlayer`): the `Provider` class (the five state fields, the
  audio handle, the registry and the snapshot store), plus neighbour lookup.
- `catalog.dfy` (`Catalog`) and `pagination.dfy` (`Pagination`): the catalog page.
- `podcast_page.dfy` (`PodcastPage`), `genre_map.dfy` (`GenreMap`) and
  `genre_titles.dfy` (`GenreTitles`): the show page helpers.

Modelling conventions
- **React state and effects.** A handler's state writes are applied together. The
  effects whose dependencies changed then run in `Provider.Commit`: the episode-change
  load effect, then the persist effect. Value equality stands in for `Object.is`.
- **The `play()` promise.** Its outcome is a separate later event,
  `ResolvePlay(ok, handlePaused)`. `ok` says whether the promise was fulfilled, and
  `handlePaused` is the handle's paused flag that the browser leaves behind: a
  play refused by an autoplay policy leaves the handle paused
  (`AudioPlayer.AutoplayBlockedScenario`). `pendingPlays` counts the requests not
  yet resolved.
- **Seconds.** Seconds are `real`. `Math.floor` is `.Floor`. The code's only `%`
  on numbers is `seconds % 60`, which JavaScript computes with truncation toward
  zero (`Rem60`). NaN is `None`.
- **Stand-ins.**
  - `localeCompare` is a comparator parameter `collate` that is required to be a
    strict weak order.
  - Dates are integer timestamps.
  - Storage is a map from keys to already-decoded values.

Behaviours of the code worth noting:
- `seek(x)` sets the playhead and `progress` to exactly `x`. There is no clamping into
  `[0, duration]`.
- A `play()` resolution carries no request token. A late resolution from an earlier
  `playEpisode` still writes `isPlaying` (`AudioPlayer.StaleRejectionScenario`). It
  cannot change `currentEpisode` back. The scenario lets the earlier request settle
  after the later one. In a browser, `load()` rejects the earlier promise before the
  later one can settle, so that order comes from the model's free ordering of media
  events. What holds either way is that the earlier outcome writes `isPlaying`.
- An episode without `audioUrl` is still assigned as the source; the load is not
  skipped.
- The favorites page registers each show's list under season 1. The key expression
  reads `season`, but favorite entries carry `seasonNumber`. The entries handed to
  the player carry `season: seasonNumber`, so next/previous from a favorite of any
  season other than 1 looks under the wrong key and does nothing
  (`FavoritesPage.OtherSeasonScenario`).
- The show page keys the duration labels by list index. A season change does not
  clear them.

## Model

| member | source | states |
|---|---|---|
| Js.ToNumber | src/App.jsx:46 | `Number(s)`: a number exactly for `""` and optionally signed digit strings, NaN for every other string; `""` is 0, digits give their decimal value, `-d` its negation and `+d` its value; a negative result comes only from a leading `-` |
| Js.ToNumberIntToString | src/App.jsx:46 | `Number(String(i)) == i` for every integer `i` |
| Js.NatToStringDigits | src/components/PodcastPage.jsx:17 | `String(n)` of a natural is a non-empty digit string whose decimal value is `n` |
| Js.NatToStringInjective | src/utils/genreMap.js:4-14 | distinct naturals have distinct decimal strings |
| Js.IntToString | src/components/PodcastPage.jsx:17 | `String(i)` is non-empty, starts with `-` exactly for negative `i`, and is otherwise decimal digits |
| Js.Lower | src/App.jsx:102-105 | lowercasing keeps the length and maps every character |
| Js.IncludesEmpty | src/App.jsx:102-105 | every string includes the empty string |
| Js.Includes | src/App.jsx:102-105 | a string can include only a needle no longer than itself |
| Js.Slice | src/App.jsx:121-124 | `slice(start, end)` is the clipped subsequence and never longer than the input |
| Seqs.Filter | src/App.jsx:96-105 | `filter` keeps only elements that satisfy the predicate and is never longer than its input |
| Seqs.FilterMembers | src/App.jsx:96-105 | an element is in the filtered list exactly when it is in the input and passes |
| Seqs.FilterSubMultiset | src/App.jsx:96-105 | filtering only removes elements |
| Seqs.FilterAppend | src/App.jsx:96-105 | filtering distributes over concatenation, so relative order is kept |
| Seqs.FilterKeepsAll | src/App.jsx:96-99 | when every element passes, the list is unchanged |
| Seqs.FilterIdempotent | src/App.jsx:96-105 | filtering twice equals filtering once |
| Seqs.SortBy | src/App.jsx:108-115 | sorting yields a permutation of its input |
| Seqs.SortBySorted | src/App.jsx:108-115 | with a strict weak order, the output is sorted |
| Seqs.SortByAllTied | src/pages/FavoritesPage.jsx:40-55 | when no element sorts before another, the stable sort returns the input order |
| Seqs.InsertKeepsClass | src/pages/FavoritesPage.jsx:40-55 | inserting into a list keeps each tied class in order, with the inserted element first among its class |
| Seqs.SortByStable | src/pages/FavoritesPage.jsx:40-55 | stability: the elements of any class the comparator ties keep their relative input order |
| Seqs.FlipStrictWeak | src/pages/FavoritesPage.jsx:58-62 | the reversed comparator is again a strict weak order |
| UrlParams.HasCount | src/utils/useQueryState.js:27 | `has(name)` holds exactly when the name occurs at least once |
| UrlParams.Get | src/utils/useQueryState.js:18 | `get` is absent exactly when `has` is false, and otherwise the value of the first pair with that name |
| UrlParams.Delete | src/utils/useQueryState.js:55 | `delete` keeps exactly the pairs with other names, in their order |
| UrlParams.Set | src/utils/useQueryState.js:57 | after `set` the name is present and every pair with it carries the new value; an absent name is appended as the last pair, a present one does not lengthen the list |
| UrlParams.SetKeepsOthers | src/utils/useQueryState.js:57 | `set` keeps the pairs of every other name, in their order |
| UrlParams.SetReplacesFirst | src/utils/useQueryState.js:57 | a present name: the new pair takes the first old pair's position, everything before it stays, and the later pairs of that name are removed |
| UrlParams.DeleteRemoves | src/utils/useQueryState.js:55 | after `delete(name)` the name is gone, and every other name keeps its value and count |
| UrlParams.SetGet | src/utils/useQueryState.js:57 | after `set(name, v)`, `get(name) == v` and the name occurs exactly once |
| UrlParams.SetOther | src/utils/useQueryState.js:57 | `set` leaves every other name's value and count unchanged |
| UrlParams.DeleteAbsent | src/utils/useQueryState.js:55 | deleting an absent name changes nothing |
| UrlParams.DeleteIdempotent | src/utils/useQueryState.js:55 | deleting twice equals deleting once |
| UrlParams.SetIdempotent | src/utils/useQueryState.js:57 | setting the same value twice equals setting it once |
| UrlParams.SetAppendsWhenAbsent | src/utils/useQueryState.js:28-38 | setting an absent name appends the pair at the end |
| QueryState.InitialValue | src/utils/useQueryState.js:18-19 | the initial value is the URL parameter when present, else `initial` |
| QueryState.SetIfAbsent | src/utils/useQueryState.js:27-29 | afterwards the name is present; a present name leaves the parameters as they were, a missing one is appended as the last pair and nothing else changes |
| QueryState.WithDefaults | src/utils/useQueryState.js:23-40 | the defaulted parameters hold `sort`, `search` and `page`, and parameters that already hold all three are returned unchanged |
| QueryState.SetIfAbsentGet | src/utils/useQueryState.js:27-40 | one defaulting step fills a missing name with its default, keeps a present value and touches no other name |
| QueryState.WithDefaultsGet | src/utils/useQueryState.js:23-40 | after defaulting, `sort`, `search` and `page` are all present; missing ones are "newest", "" and "1"; present values and other names are untouched |
| QueryState.WithDefaultsOfComplete | src/utils/useQueryState.js:25-42 | defaulting a map that already has all three names returns it unchanged |
| QueryState.WithDefaultsIdempotent | src/utils/useQueryState.js:23-42 | defaulting twice equals defaulting once |
| QueryState.Defaults | src/utils/useQueryState.js:23-40 | the mount loop computes the defaulted map, and `changed` is true exactly when a name was missing |
| QueryState.Location.constructor | src/utils/useQueryState.js:16 | the router location holds the given search parameters |
| QueryState.QueryParam.constructor | src/utils/useQueryState.js:18-19 | the hook's state starts at the initial value |
| QueryState.QueryParam.MountDefaults | src/utils/useQueryState.js:22-43 | the URL is written only when a default was added, and then it is the defaulted map |
| QueryState.QueryParam.SetValue | src/utils/useQueryState.js:50-64 | `null` deletes `key` and a string sets it; every other parameter is unchanged; the local value becomes `next ?? ""` |
| Favorites.Without | src/utils/favorites.js:62-65 | no kept entry has the id, the list never grows, and it shrinks when the id was present |
| Favorites.WithoutShrinks | src/utils/favorites.js:62-65 | filtering out a present id drops at least one entry |
| Favorites.WithoutMembers | src/utils/favorites.js:62-65 | removal keeps exactly the entries whose id differs |
| Favorites.WithoutAbsent | src/utils/favorites.js:62-65 | removing an absent id changes nothing |
| Favorites.WithoutAppend | src/utils/favorites.js:62-65 | removal distributes over concatenation, so the other entries keep their order |
| Favorites.AppendKeepsDistinct | src/utils/favorites.js:46-56 | appending an entry with a new id keeps the ids distinct |
| Favorites.WithoutKeepsDistinct | src/utils/favorites.js:62-65 | removal keeps the ids distinct |
| Favorites.AddThenRemove | src/utils/favorites.js:46-65 | adding an absent favorite and then removing its id restores the list |
| Favorites.FavoritesStore.constructor | src/utils/favorites.js:20-23 | the store wraps the given storage map |
| Favorites.FavoritesStore.Get | src/utils/favorites.js:20-23 | the stored list, or `[]` when nothing is stored under the key |
| Favorites.FavoritesStore.IsFavorited | src/utils/favorites.js:38-40 | true exactly when a stored entry has the id |
| Favorites.FavoritesStore.Save | src/utils/favorites.js:29-31 | saving overwrites only the favorites key, so reading back gives the saved list |
| Favorites.FavoritesStore.Add | src/utils/favorites.js:46-56 | an absent id is appended once at the end and only the favorites key is written; otherwise storage is unchanged; the id is favorited afterwards; distinct ids stay distinct |
| Favorites.FavoritesStore.Remove | src/utils/favorites.js:62-65 | storage becomes the list without the id, in order; the id is no longer favorited; distinct ids stay distinct |
| Favorites.FavoritesStore.Toggle | src/utils/favorites.js:73-79 | membership is negated: removal when present, append when absent, and only the favorites key is written |
| Favorites.ToggleTwice | src/utils/favorites.js:46-79 | toggling an absent favorite twice restores the stored list exactly |
| FavoritesPage.OfShowSnoc | src/pages/FavoritesPage.jsx:29-33 | a show's group grows by the new favorite exactly when it belongs to that show |
| FavoritesPage.GroupStepKeys | src/pages/FavoritesPage.jsx:29-33 | one reduce step keeps the keys distinct and equal to the map's keys, and covers every favorite seen so far |
| FavoritesPage.GroupStepGroups | src/pages/FavoritesPage.jsx:29-33 | after one reduce step, each group is the favorites of its show in list order and is non-empty, and shows with no group have no favorites |
| FavoritesPage.GroupOfGroups | src/pages/FavoritesPage.jsx:29-33 | the whole reduce groups every favorite under its show title, in list order |
| FavoritesPage.Group | src/pages/FavoritesPage.jsx:29-33 | the reduce loop computes exactly that grouping and its key order |
| FavoritesPage.GroupOfEach | src/pages/FavoritesPage.jsx:29-33 | a favorite lies in a show's group exactly when its show title is that show, so each favorite is in exactly one group |
| FavoritesPage.GroupSizesSum | src/pages/FavoritesPage.jsx:29-33 | with distinct keys that cover every favorite, the group sizes sum to the favorites count |
| FavoritesPage.GroupSizesOf | src/pages/FavoritesPage.jsx:29-33 | when every listed group is its show's favorites, the group sizes are the per-show counts |
| FavoritesPage.GroupCounts | src/pages/FavoritesPage.jsx:29-33 | the reduce's groups and keys are the grouping of the favorites, and the sizes of those groups add up to the number of favorites |
| FavoritesPage.SortFavorites | src/pages/FavoritesPage.jsx:40-55 | a permutation: "newest" gives `addedAt` descending, "oldest" ascending, and any other value the input order |
| FavoritesPage.SortFavoritesKeepsTies | src/pages/FavoritesPage.jsx:40-55 | in any list, the favorites added at one moment keep their relative order under every sort value |
| FavoritesPage.SortFavoritesAllTied | src/pages/FavoritesPage.jsx:40-55 | a list whose favorites were all added at one moment is returned as it is |
| FavoritesPage.ShowOrder | src/pages/FavoritesPage.jsx:58-62 | the show-title comparator is a strict weak order whenever the collation is |
| FavoritesPage.SortedShows | src/pages/FavoritesPage.jsx:58-62 | a permutation of the group keys, descending by the collation for "za" and ascending otherwise |
| FavoritesPage.FormatEntry | src/pages/FavoritesPage.jsx:70-79 | the entry at position i is numbered i + 1, keyed by show title and season number, plays the favorite's file and carries its id |
| FavoritesPage.Formatted | src/pages/FavoritesPage.jsx:70-79 | one entry per favorite, in display order, with `episodeNumber` equal to position + 1 |
| FavoritesPage.FormattedDistinct | src/pages/FavoritesPage.jsx:70-79 | the registered episode numbers are distinct |
| FavoritesPage.FormattedNavigation | src/pages/FavoritesPage.jsx:70-79 | next/previous over the registered list step through the display order and stop at both ends |
| FavoritesPage.RegistrationSeason | src/pages/FavoritesPage.jsx:72 | the registration season key is always 1 |
| FavoritesPage.Displayed | src/pages/FavoritesPage.jsx:70-79 | the list registered for a show has one entry per favorite of that show |
| FavoritesPage.RegisterDisplayed | src/pages/FavoritesPage.jsx:65-84 | every show is registered under season 1 with its sorted, numbered list; no other key changes |
| FavoritesPage.RegisterEach | src/pages/FavoritesPage.jsx:67-83 | walking the show titles in key order leaves each one registered under season 1 with its displayed list, and leaves every other registry key as it was |
| FavoritesPage.RegisterShow | src/pages/FavoritesPage.jsx:68-82 | one show's step registers its sorted, numbered list under season 1 and changes no other registry key |
| FavoritesPage.OtherSeasonScenario | src/pages/FavoritesPage.jsx:70-82 | for two favorites of one show from season 2, playing the first displayed entry gives no next episode, because the list was registered under season 1 |
| FavoritesPage.FavoritesView.constructor | src/pages/FavoritesPage.jsx:20-23 | the page starts with sort "newest" and the stored favorites |
| FavoritesPage.FavoritesView.HandleToggle | src/pages/FavoritesPage.jsx:92-95 | the stored membership is negated, and the page's list is the freshly stored list |
| AudioPlayer.FindIndex | src/components/player/AudioPlayerProvider.jsx:131-132 | `findIndex` by `episodeNumber`: the first match, or -1 when there is none |
| AudioPlayer.NextTarget | src/components/player/AudioPlayerProvider.jsx:182-191 | after the first match at i: `list[i+1]`, or nothing at the end; when not found: `list[0]` |
| AudioPlayer.PrevTarget | src/components/player/AudioPlayerProvider.jsx:131-141 | after the first match at i ≥ 1: `list[i-1]`; at 0 or when not found: nothing |
| AudioPlayer.DistinctFirstMatch | src/components/player/AudioPlayerProvider.jsx:131-132 | in a list with distinct numbers, an entry's own index is the first match for its number |
| AudioPlayer.NextThenPrev | src/components/player/AudioPlayerProvider.jsx:131-141 | with distinct numbers, next from i reaches i+1 and previous from i+1 returns to i |
| AudioPlayer.PrevThenNext | src/components/player/AudioPlayerProvider.jsx:182-191 | with distinct numbers, previous from i reaches i-1 and next from i-1 returns to i |
| AudioPlayer.EpisodeRegistry.constructor | src/components/player/AudioPlayerProvider.jsx:229-235 | the registry starts empty |
| AudioPlayer.EpisodeRegistry.Lookup | src/components/player/AudioPlayerProvider.jsx:125-129 | a list is found exactly when both the show and the season are registered |
| AudioPlayer.EpisodeRegistry.Register | src/components/player/AudioPlayerProvider.jsx:229-235 | the list at (show, season) becomes exactly the given list; the show entry is created if missing; every other key is unchanged |
| AudioPlayer.Audio.constructor | src/components/player/AudioPlayerProvider.jsx:31 | a new handle has no source, is at 0 and is paused |
| AudioPlayer.SnapshotStore.constructor | src/components/player/AudioPlayerProvider.jsx:49 | the store wraps the given storage map |
| AudioPlayer.Provider.constructor | src/components/player/AudioPlayerProvider.jsx:34-42 | the initial state: no episode, not playing, progress and duration 0, `manualPlay` false |
| AudioPlayer.Provider.Commit | src/components/player/AudioPlayerProvider.jsx:67-96 | a changed episode is loaded (playhead 0 and playing once `manualPlay` is set, otherwise at `progress` and paused); the snapshot is written exactly when the episode or progress changed |
| AudioPlayer.Provider.Mount | src/components/player/AudioPlayerProvider.jsx:47-58 | with nothing stored the state is unchanged; a stored snapshot restores `currentEpisode \|\| null` and `progress \|\| 0` with `isPlaying` false and loads it paused; afterwards the snapshot matches the state |
| AudioPlayer.Provider.RegisterEpisodes | src/components/player/AudioPlayerProvider.jsx:229-235 | replaces exactly the list at (show, season) |
| AudioPlayer.Provider.PlayEpisode | src/components/player/AudioPlayerProvider.jsx:152-167 | sets `manualPlay`, `currentEpisode := e`, source `e.audioUrl` and playhead 0, and requests play; `isPlaying`, `progress` and `duration` are not written |
| AudioPlayer.Provider.ResolvePlay | src/components/player/AudioPlayerProvider.jsx:163-166 | a play request's outcome sets `isPlaying` to success or failure, and the handle's paused flag to what the browser left; source, playhead, episode, progress and duration are unchanged |
| AudioPlayer.Provider.TogglePlay | src/components/player/AudioPlayerProvider.jsx:199-209 | flips the handle's paused flag and sets `isPlaying` to the new playing state |
| AudioPlayer.Provider.Seek | src/components/player/AudioPlayerProvider.jsx:216-220 | the playhead and `progress` become exactly the argument; nothing else changes |
| AudioPlayer.Provider.TimeUpdate | src/components/player/AudioPlayerProvider.jsx:106 | `progress` becomes the handle's current time; the source and the paused flag are unchanged |
| AudioPlayer.Provider.LoadedMetadata | src/components/player/AudioPlayerProvider.jsx:107 | `duration` becomes the media duration, or 0 when it is 0 or NaN |
| AudioPlayer.Provider.NextCandidate | src/components/player/AudioPlayerProvider.jsx:174-191 | none without a current episode or without a list registered for its show and season; otherwise any result is an episode of that list |
| AudioPlayer.Provider.PrevCandidate | src/components/player/AudioPlayerProvider.jsx:123-141 | the same for the previous neighbour |
| AudioPlayer.Provider.NextEpisode | src/components/player/AudioPlayerProvider.jsx:174-192 | with no current episode, no registered list or no next neighbour, nothing changes; otherwise the neighbour is played as by `playEpisode` |
| AudioPlayer.Provider.PrevEpisode | src/components/player/AudioPlayerProvider.jsx:123-142 | the same for the previous neighbour |
| AudioPlayer.MountedWith | src/components/player/AudioPlayerProvider.jsx:229-235 | a fresh mounted player whose registry holds the given list |
| AudioPlayer.NavigationScenario | src/components/player/AudioPlayerProvider.jsx:123-192 | with episodes 1 and 2 registered, next reaches 2, previous returns to 1, and previous again stays at 1 |
| AudioPlayer.StaleRejectionScenario | src/components/player/AudioPlayerProvider.jsx:152-167 | two plays in a row leave the second episode current even when the first request is rejected late, and `isPlaying` ends false while the handle plays |
| AudioPlayer.AutoplayBlockedScenario | src/components/player/AudioPlayerProvider.jsx:152-209 | a play refused by the browser leaves the handle paused and `isPlaying` false, so the play button then resumes playback |
| AudioPlayer.RestoreScenario | src/components/player/AudioPlayerProvider.jsx:47-83 | a stored snapshot is restored paused, at its progress and with its source |
| AudioPlayer.TogglePlayTwice | src/components/player/AudioPlayerProvider.jsx:199-209 | toggling twice from paused returns to paused and not playing |
| Catalog.PageFromParam | src/App.jsx:46 | `max(1, Number(pageNum) \|\| 1)`: always ≥ 1, 1 when absent or not a number, otherwise the number clamped up to 1 |
| Catalog.PageRoundTrip | src/App.jsx:46 | every page ≥ 1 reads back from its own string |
| Catalog.GenreFromParam | src/App.jsx:45 | the genre is never empty; it is "all" exactly when the parameter is absent, empty or "all", and otherwise the parameter itself |
| Catalog.ByGenre | src/App.jsx:95-98 | "all" keeps the list; otherwise every kept podcast lists `Number(genre)` among its genres, and the list never grows |
| Catalog.BySearch | src/App.jsx:101-104 | an empty query keeps the list; otherwise every kept title contains the lowercased query, and the list never grows |
| Catalog.Filtered | src/App.jsx:95-104 | every kept podcast matches the genre and the search, and the list never grows |
| Catalog.FilteredMembers | src/App.jsx:96-105 | a podcast is kept exactly when it is in the input, has the genre (unless "all") and its lowercased title contains the lowercased query (unless empty) |
| Catalog.FilteredSubMultiset | src/App.jsx:96-105 | filtering only removes podcasts |
| Catalog.FilteredAppend | src/App.jsx:96-105 | filtering keeps relative order |
| Catalog.TitleAscStrictWeak | src/App.jsx:109-111 | the title comparator is a strict weak order when the collation is |
| Catalog.SortCatalog | src/App.jsx:108-115 | a permutation, ordered by title ascending, title descending or `updated` descending |
| Catalog.SameMembers | src/App.jsx:108-115 | a permutation has the same members |
| Catalog.Process | src/App.jsx:90-118 | the pipeline is filter-then-sort, and its members are exactly the input podcasts that match |
| Catalog.TotalPages | src/App.jsx:120 | at least 1, holds all items, and has no spare last page |
| Catalog.Visible | src/App.jsx:121-124 | at most 10 items; empty past the last page; otherwise exactly items (page-1)·10 to page·10, and a full 10 before the last page |
| Catalog.FirstPagesPrefix | src/App.jsx:121-124 | pages 1..k laid end to end are the first k·10 items |
| Catalog.PagesCoverAll | src/App.jsx:120-124 | all pages together are the whole processed list |
| Catalog.PageChangeRoute | src/App.jsx:129-131 | a page change navigates to that page with the query unchanged, and the page reads back |
| Catalog.PagerTargetsReadBack | src/components/Pagination.jsx:22-48 | the pager's prev and next targets read back as `max(1, page-1)` and `min(totalPages, page+1)` |
| Catalog.GenreChangeRoute | src/App.jsx:133-136 | the new genre is "all" exactly when the chosen one is missing, empty or "all", and otherwise is the chosen one; the route goes to page 1 with the query unchanged, and the page reads it back as that genre and page 1 |
| Catalog.RouteReadsBack | src/App.jsx:44-46 | the route's genre and page read back unchanged |
| Catalog.SearchChangeRoute | src/App.jsx:138-146 | the new query is exactly `set("search", next)` of a copy for a non-empty search and `delete("search")` otherwise, so other names keep their pairs in order; page 1 |
| Catalog.SortChangeRoute | src/App.jsx:148-155 | the new query is exactly `set("sort", next)` of a copy, so other names keep their pairs in order; page 1 |
| Pagination.PageNumbers | src/components/Pagination.jsx:10-12 | the loop builds exactly [1, …, totalPages] |
| Pagination.PrevPage | src/components/Pagination.jsx:22 | `max(1, page-1)` |
| Pagination.NextPage | src/components/Pagination.jsx:48 | `min(totalPages, page+1)` |
| Pagination.PrevNextInverse | src/components/Pagination.jsx:22-48 | within range both targets are valid pages, and prev and next undo each other away from the ends |
| Pagination.Render | src/components/Pagination.jsx:8-50 | nothing when totalPages ≤ 1; otherwise the targets above, prev disabled exactly on page 1, next disabled exactly on the last page, and one button per page marked current exactly at `page` |
| Pagination.OneCurrent | src/components/Pagination.jsx:30-39 | exactly one button, `page`, is current when it is in range; none is current before the first page or past the last |
| PodcastPage.Trunc | src/components/PodcastPage.jsx:16 | `Math.trunc`: the integer within 1 of x on the side of zero |
| PodcastPage.Rem60 | src/components/PodcastPage.jsx:16 | `x % 60`: strictly between -60 and 60, with the sign of x, and x minus it is a whole multiple of 60 |
| PodcastPage.PadStart2 | src/components/PodcastPage.jsx:17 | `padStart(2, "0")`: a string of two or more characters is kept; a shorter one is left-filled with zeros to length 2 |
| PodcastPage.FormatDuration | src/components/PodcastPage.jsx:13-18 | "0:00" for 0, NaN or missing input; never shorter than "m:ss" |
| PodcastPage.TwoDigits | src/components/PodcastPage.jsx:17 | two decimal digits |
| PodcastPage.FloorDiv60 | src/components/PodcastPage.jsx:15 | for positive seconds, the minutes are the whole seconds divided by 60 |
| PodcastPage.FloorRem60 | src/components/PodcastPage.jsx:16 | for positive seconds, `floor(s % 60)` is the whole seconds modulo 60 |
| PodcastPage.PadSeconds | src/components/PodcastPage.jsx:17 | padding a seconds count below 60 gives its two digits |
| PodcastPage.FormatPositive | src/components/PodcastPage.jsx:15-17 | for positive seconds the text is m + ":" + ss, with m = ⌊s⌋ div 60 and ss = ⌊s⌋ mod 60 as two digits |
| PodcastPage.FormatShape | src/components/PodcastPage.jsx:14-17 | for non-zero seconds the text is minutes, ":", padded seconds |
| PodcastPage.ParseDuration | src/components/PodcastPage.jsx:15-17 | reading "m:ss" back gives a non-negative second count |
| PodcastPage.TwoDigitsValue | src/components/PodcastPage.jsx:17 | the two digits read back as their number |
| PodcastPage.DurationRoundTrip | src/components/PodcastPage.jsx:15-17 | reading the text back gives ⌊s⌋ |
| PodcastPage.ParseWholeSeconds | src/components/PodcastPage.jsx:15-17 | m·60 + ss recovers a whole second count from its minutes and seconds |
| PodcastPage.ParseMinutesSeconds | src/components/PodcastPage.jsx:17 | "m:ss" reads back as m·60 + ss |
| PodcastPage.WholeSeconds | src/components/PodcastPage.jsx:15-17 | for whole seconds n the text is "m:ss" with ss < 60 and m·60 + ss = n |
| PodcastPage.InitialSeason | src/components/PodcastPage.jsx:38 | `Number(param) \|\| 1`: 1 when absent, zero or not a number, otherwise the number |
| PodcastPage.SeasonRoundTrip | src/components/PodcastPage.jsx:38 | a non-zero season written to the URL reads back; season 0 reads back as 1 |
| PodcastPage.SeasonIndex | src/components/PodcastPage.jsx:80-82 | the first index whose season number is the selected one, or -1 |
| PodcastPage.CurrentSeason | src/components/PodcastPage.jsx:80-82 | absent exactly when no season matches; otherwise the first match |
| PodcastPage.CurrentSeasonIsFirst | src/components/PodcastPage.jsx:80-82 | the first matching season is the one found |
| PodcastPage.Episodes | src/components/PodcastPage.jsx:84 | empty without a current season or episode list; otherwise that season's episodes |
| PodcastPage.TotalEpisodes | src/components/PodcastPage.jsx:157-160 | the total is 0 for no seasons and at least every single season's count |
| PodcastPage.TotalAppend | src/components/PodcastPage.jsx:157-160 | the total over concatenated season lists is the sum of the totals |
| PodcastPage.TotalCons | src/components/PodcastPage.jsx:157-160 | the total is the first season's count plus the rest's total |
| PodcastPage.SelectedWithinTotal | src/components/PodcastPage.jsx:157-160 | the selected season's episodes number at most the total |
| PodcastPage.SeasonView.constructor | src/components/PodcastPage.jsx:36-42 | the selected season starts at the initial season and there are no duration labels |
| PodcastPage.SeasonView.Label | src/components/PodcastPage.jsx:259 | "Loading..." when no label is stored, else the stored label |
| PodcastPage.SeasonView.OnLoadedMetadata | src/components/PodcastPage.jsx:271-279 | a non-NaN duration sets only entry i to its formatted text; NaN changes nothing |
| PodcastPage.SeasonView.OnError | src/components/PodcastPage.jsx:280-284 | entry i becomes "Unknown length"; others are unchanged |
| PodcastPage.SeasonView.SelectSeason | src/components/PodcastPage.jsx:190-194 | the selection and the `season` parameter change together, and the parameter reads back; labels are kept |
| GenreMap.LookupIn | src/utils/getGenreTitles.js:16 | a property lookup is absent exactly when no entry has the key, and otherwise returns a stored value |
| GenreMap.Lookup | src/utils/genreMap.js:4-14 | the same for the genre table |
| GenreMap.TitleOf | src/utils/getGenreTitles.js:16 | `genreMap[id]` is defined exactly for ids 1 to 9, and is then non-empty |
| GenreMap.TitleOfValue | src/utils/genreMap.js:4-14 | a known id's title is the one listed at its position, a value of the table |
| GenreMap.EntryShape | src/utils/genreMap.js:4-14 | entry i has key `String(i+1)` and a non-empty title |
| GenreMap.KeyRange | src/utils/genreMap.js:4-14 | the key `String(id)` is present exactly for ids 1 to 9 |
| GenreMap.LookupFirst | src/utils/getGenreTitles.js:16 | a lookup returns the first entry with the key |
| GenreMap.GenreList | src/utils/genreMap.js:17-20 | one record per table entry, with the numeric id and the title |
| GenreMap.GenreListShape | src/utils/genreMap.js:4-20 | nine records with ids 1..9 in ascending order, each with `genreMap[id]` as its title |
| GenreTitles.LookUpAll | src/utils/getGenreTitles.js:16 | the ids mapped through the table, position by position |
| GenreTitles.TitlesIn | src/utils/getGenreTitles.js:16 | map-then-filter never yields more titles than ids |
| GenreTitles.GetGenreTitles | src/utils/getGenreTitles.js:15-16 | the output is no longer than the input |
| GenreTitles.LookUpAllAppend | src/utils/getGenreTitles.js:16 | the lookup distributes over concatenation |
| GenreTitles.TitlesInAppend | src/utils/getGenreTitles.js:16 | the titles of a concatenation are the titles of the parts |
| GenreTitles.TitlesInSingle | src/utils/getGenreTitles.js:16 | one id yields its title when truthy, else nothing |
| GenreTitles.TitlesInKept | src/utils/getGenreTitles.js:16 | map-then-filter equals the recursive reference definition |
| GenreTitles.GetGenreTitlesAppend | src/utils/getGenreTitles.js:15-16 | titles follow input order |
| GenreTitles.GetGenreTitlesKnown | src/utils/getGenreTitles.js:15-16 | the output is exactly the listed titles of the known ids, in input order |
| GenreTitles.TitlesAreGenres | src/utils/getGenreTitles.js:16 | every output string is a value of `genreMap` |
| GenreTitles.AllKnownKept | src/utils/getGenreTitles.js:16 | when all ids are known, one title per id at the same position |
| GenreTitles.UnknownDropped | src/utils/getGenreTitles.js:16 | unknown ids contribute nothing |

## Left out
- I/O: no network fetches, no `JSON.parse`/`stringify`, and no malformed JSON. Storage holds already-decoded values.
- The HTML media algorithm: `load()` and the media events. The audio handle keeps only `src`, `currentTime` and `paused`. Events are explicit methods.
- React scheduling: effects run in `Commit`, right after their handler. Re-render timing is not modelled.
- The `play()` call in `togglePlay` and its rejection: only the handle's paused flag is modelled there.
- `Number(string)` is covered only for an optional `-` or `+` followed by decimal digits, and for `""`. Whitespace, decimals, exponents, hex and `Infinity` are not modelled; such inputs are NaN here.
- `audio.duration` is `+Infinity` for a live stream. Durations here are finite reals or NaN (`None`), so the `Infinity` that `loadedmetadata` would store (AudioPlayerProvider.jsx:107) and the "Infinity:NaN" label `formatDuration` would print (PodcastPage.jsx:13-17) are not modelled.
- A show title that names an `Object.prototype` property (`"toString"`, `"__proto__"`) makes `acc[fav.showTitle]` truthy in the grouping reduce, so `.push` throws (FavoritesPage.jsx:30-31). The model's `Push` treats every title as a fresh key.
- `Object.keys` order is assumed to be insertion order for the show titles. Integer-like titles would be ordered first in JavaScript.
- `localeCompare` is an abstract strict weak order. `toLowerCase` folds ASCII A–Z only.
- Dates are integer timestamps. An invalid `Date` (NaN) is not modelled.
- A missing podcast title would make `localeCompare` throw. Titles here are always strings.
- URL string serialization and the `navigate` path form. Routes are records of genre, page and query.
- `Catalog.SearchChangeRoute`, `Catalog.SortChangeRoute`: the hook's own URL write (`setSearch(next)`, `setSort(next)`) is superseded by the navigation and is not modelled.
- `Catalog.Visible`: requires page ≥ 1, which `page` guarantees. The slice for page ≤ 0 is not modelled.
- `PodcastPage.FormatDuration`: the lemmas cover positive seconds. Negative durations follow the code but are not characterised.
- `GenreTitles.GetGenreTitles`: the unused second argument is not a parameter, so the result is independent of it by construction.
- `src/utils/formatDate.js` is not part of this model; it depends on the clock and locale. `formatDateAndTime`, imported by the favorites page, is not defined there.
- `FavoritesPage.RegisterDisplayed`: the page's effect calls `useEffect` and `registerEpisodes` without importing them. The model registers the same lists directly on a player.
- The theme toggle, the presentation components and the router wiring are not modelled: they only display state or forward events.
