/** The catalog page (src/App.jsx): the route's genre and page, the processed list
    (genre filter, title search, sort), the page count, the visible slice, and the
    routes the search, genre and sort handlers navigate to. */
module Catalog {
  import opened Js
  import opened Seqs
  import opened UrlParams
  import Pagination

  /** A podcast preview, reduced to what the pipeline reads. A missing `genres` is
      the empty list and a missing `title` the empty string; `updated` is the
      timestamp of the date string. */
  datatype Podcast = Podcast(id: string, title: string, genres: seq<int>, updated: int)

  const ITEMS_PER_PAGE := 10

  // ---------------------------------------------------------------------------
  // Route parameters
  // ---------------------------------------------------------------------------

  /** `Math.max(1, Number(pageNum) || 1)`: the page number when it is a positive
      integer, 1 when it is missing, zero, negative or not a number. */
  function PageFromParam(pageNum: Option<string>): (page: int)
    ensures page >= 1
    ensures pageNum.None? ==> page == 1
    ensures pageNum.Some? && ToNumber(pageNum.value).Some? && ToNumber(pageNum.value).value >= 1 ==>
      page == ToNumber(pageNum.value).value
    ensures pageNum.Some? && (ToNumber(pageNum.value).None? || ToNumber(pageNum.value).value < 1) ==> page == 1
  {
    var n := if pageNum.None? then None else ToNumber(pageNum.value);
    Max(1, IntOr(n, 1))
  }

  /** A page written into a route reads back as the same page. */
  lemma PageRoundTrip(page: int)
    requires page >= 1
    ensures PageFromParam(Some(IntToString(page))) == page
  {
    ToNumberIntToString(page);
  }

  /** `genreId || "all"`: never empty; a missing or empty parameter means "all". */
  function GenreFromParam(genreId: Option<string>): (genre: string)
    ensures genre != ""
    ensures genre == "all" <==> genreId.None? || genreId.value == "" || genreId.value == "all"
    ensures genre != "all" ==> genreId == Some(genre)
  {
    if genreId.None? || genreId.value == "" then "all" else genreId.value
  }

  // ---------------------------------------------------------------------------
  // Filtering
  // ---------------------------------------------------------------------------

  /** `(p.genres || []).includes(gid)`; a `NaN` id (None) is in no list of genre numbers. */
  function HasGenre(gid: Option<int>): Podcast -> bool {
    (p: Podcast) => gid.Some? && gid.value in p.genres
  }

  /** `(p.title || "").toLowerCase().includes(q)` */
  function TitleContains(q: string): Podcast -> bool {
    (p: Podcast) => Includes(Lower(p.title), q)
  }

  /** The genre step: everything for "all", otherwise the podcasts listing `Number(genre)`. */
  function ByGenre(list: seq<Podcast>, genre: string): (r: seq<Podcast>)
    ensures genre == "all" ==> r == list
    ensures |r| <= |list|
    ensures forall i :: 0 <= i < |r| ==> Matches(r[i], genre, "")
  {
    if genre == "all" then list
    else
      var gid := ToNumber(genre);
      var r := Filter(list, HasGenre(gid));
      assert forall i :: 0 <= i < |r| ==> Matches(r[i], genre, "") by {
        forall i | 0 <= i < |r| ensures Matches(r[i], genre, "") {
          assert HasGenre(gid)(r[i]);
        }
      }
      r
  }

  /** The search step: everything for an empty query, otherwise the case-insensitive title matches. */
  function BySearch(list: seq<Podcast>, search: string): (r: seq<Podcast>)
    ensures search == "" ==> r == list
    ensures |r| <= |list|
    ensures forall i :: 0 <= i < |r| ==> search == "" || Includes(Lower(r[i].title), Lower(search))
  {
    if search == "" then list else Filter(list, TitleContains(Lower(search)))
  }

  /** Both filter steps, in the order the page applies them. */
  function Filtered(podcasts: seq<Podcast>, genre: string, search: string): (r: seq<Podcast>)
    ensures |r| <= |podcasts|
    ensures forall i :: 0 <= i < |r| ==> Matches(r[i], genre, search)
  {
    var byGenre := ByGenre(podcasts, genre);
    var r := BySearch(byGenre, search);
    assert forall i :: 0 <= i < |r| ==> Matches(r[i], genre, search) by {
      forall i | 0 <= i < |r| ensures Matches(r[i], genre, search) {
        if search != "" {
          FilterMembers(byGenre, TitleContains(Lower(search)), r[i]);
        }
        var k :| 0 <= k < |byGenre| && byGenre[k] == r[i];
      }
    }
    r
  }

  /** What a kept podcast satisfies, stated without the pipeline. */
  predicate Matches(p: Podcast, genre: string, search: string) {
    && (genre == "all" || (ToNumber(genre).Some? && ToNumber(genre).value in p.genres))
    && (search == "" || Includes(Lower(p.title), Lower(search)))
  }

  /** A podcast is kept exactly when it is in the input and matches both the genre and the search. */
  lemma FilteredMembers(podcasts: seq<Podcast>, genre: string, search: string, p: Podcast)
    ensures p in Filtered(podcasts, genre, search) <==> p in podcasts && Matches(p, genre, search)
  {
    if genre != "all" {
      FilterMembers(podcasts, HasGenre(ToNumber(genre)), p);
    }
    if search != "" {
      FilterMembers(ByGenre(podcasts, genre), TitleContains(Lower(search)), p);
    }
  }

  /** Filtering only removes: the kept podcasts are a sub-multiset of the input. */
  lemma FilteredSubMultiset(podcasts: seq<Podcast>, genre: string, search: string)
    ensures multiset(Filtered(podcasts, genre, search)) <= multiset(podcasts)
  {
    if genre != "all" {
      FilterSubMultiset(podcasts, HasGenre(ToNumber(genre)));
    }
    if search != "" {
      FilterSubMultiset(ByGenre(podcasts, genre), TitleContains(Lower(search)));
    }
  }

  /** Filtering keeps relative order: it distributes over concatenation. */
  lemma FilteredAppend(a: seq<Podcast>, b: seq<Podcast>, genre: string, search: string)
    ensures Filtered(a + b, genre, search) == Filtered(a, genre, search) + Filtered(b, genre, search)
  {
    if genre != "all" {
      FilterAppend(a, b, HasGenre(ToNumber(genre)));
    }
    if search != "" {
      FilterAppend(ByGenre(a, genre), ByGenre(b, genre), TitleContains(Lower(search)));
    }
  }

  // ---------------------------------------------------------------------------
  // Sorting
  // ---------------------------------------------------------------------------

  /** `(a, b) => a.title.localeCompare(b.title)` */
  function TitleAsc(collate: (string, string) -> bool): (Podcast, Podcast) -> bool {
    (a: Podcast, b: Podcast) => collate(a.title, b.title)
  }

  /** `(a, b) => new Date(b.updated) - new Date(a.updated)` is negative when a is more recent. */
  predicate NewerUpdate(a: Podcast, b: Podcast) {
    b.updated - a.updated < 0
  }

  lemma TitleAscStrictWeak(collate: (string, string) -> bool)
    requires StrictWeakOrder(collate)
    ensures StrictWeakOrder(TitleAsc(collate))
  {
    var lt := TitleAsc(collate);
    forall a, b | lt(a, b) ensures !lt(b, a) {
      assert collate(a.title, b.title);
    }
    forall a, b, c | !lt(a, b) && !lt(b, c) ensures !lt(a, c) {
      assert !collate(a.title, b.title) && !collate(b.title, c.title);
    }
  }

  /** The sort step: title ascending for "title-asc", title descending for
      "title-desc", most recently updated first for any other value. */
  function SortCatalog(list: seq<Podcast>, sort: string, collate: (string, string) -> bool): (sorted: seq<Podcast>)
    requires StrictWeakOrder(collate)
    ensures multiset(sorted) == multiset(list)
    ensures sort == "title-asc" ==> forall i, j :: 0 <= i < j < |sorted| ==> !collate(sorted[j].title, sorted[i].title)
    ensures sort == "title-desc" ==> forall i, j :: 0 <= i < j < |sorted| ==> !collate(sorted[i].title, sorted[j].title)
    ensures sort != "title-asc" && sort != "title-desc" ==>
      forall i, j :: 0 <= i < j < |sorted| ==> sorted[i].updated >= sorted[j].updated
  {
    TitleAscStrictWeak(collate);
    if sort == "title-asc" then
      SortBySorted(list, TitleAsc(collate));
      var r := SortBy(list, TitleAsc(collate));
      assert forall i, j :: 0 <= i < j < |r| ==> !TitleAsc(collate)(r[j], r[i]);
      r
    else if sort == "title-desc" then
      FlipStrictWeak(TitleAsc(collate));
      SortBySorted(list, Flip(TitleAsc(collate)));
      var r := SortBy(list, Flip(TitleAsc(collate)));
      assert forall i, j :: 0 <= i < j < |r| ==> !Flip(TitleAsc(collate))(r[j], r[i]);
      r
    else
      SortBySorted(list, NewerUpdate);
      var r := SortBy(list, NewerUpdate);
      assert forall i, j :: 0 <= i < j < |r| ==> !NewerUpdate(r[j], r[i]);
      r
  }

  /** Sequences with the same multiset have the same members. */
  lemma SameMembers<T>(a: seq<T>, b: seq<T>, x: T)
    requires multiset(a) == multiset(b)
    ensures x in a <==> x in b
  {
    assert x in a <==> x in multiset(a);
    assert x in b <==> x in multiset(b);
  }

  /** The processed list: copied, filtered by genre, filtered by search, then sorted. */
  method Process(podcasts: seq<Podcast>, genre: string, search: string, sort: string,
                 collate: (string, string) -> bool)
    returns (list: seq<Podcast>)
    requires StrictWeakOrder(collate)
    ensures list == SortCatalog(Filtered(podcasts, genre, search), sort, collate)
    ensures forall p :: p in list <==> p in podcasts && Matches(p, genre, search)
  {
    list := podcasts;
    if genre != "all" {
      var gid := ToNumber(genre);
      list := Filter(list, HasGenre(gid));
    }
    if search != "" {
      var q := Lower(search);
      list := Filter(list, TitleContains(q));
    }
    ghost var kept := list;
    list := SortCatalog(list, sort, collate);
    forall p ensures p in list <==> p in podcasts && Matches(p, genre, search) {
      FilteredMembers(podcasts, genre, search, p);
      SameMembers(list, kept, p);
    }
  }

  // ---------------------------------------------------------------------------
  // Pages
  // ---------------------------------------------------------------------------

  /** `Math.max(1, Math.ceil(n / ITEMS_PER_PAGE))`: the fewest pages of ten that hold
      n items, and at least one. */
  function TotalPages(n: nat): (total: int)
    ensures total >= 1
    ensures n <= total * ITEMS_PER_PAGE
    ensures total > 1 ==> (total - 1) * ITEMS_PER_PAGE < n
  {
    Max(1, (n + ITEMS_PER_PAGE - 1) / ITEMS_PER_PAGE)
  }

  /** `processed.slice((page - 1) * 10, page * 10)`, for the page App computes (at least 1). */
  function Visible(processed: seq<Podcast>, page: int): (items: seq<Podcast>)
    requires page >= 1
    ensures |items| <= ITEMS_PER_PAGE
    ensures page > TotalPages(|processed|) ==> items == []
    ensures page <= TotalPages(|processed|) ==>
      items == processed[(page - 1) * ITEMS_PER_PAGE..Min(page * ITEMS_PER_PAGE, |processed|)]
    ensures page < TotalPages(|processed|) ==> |items| == ITEMS_PER_PAGE
  {
    Slice(processed, (page - 1) * ITEMS_PER_PAGE, page * ITEMS_PER_PAGE)
  }

  /** Pages 1 to k, one after another. */
  function FirstPages(processed: seq<Podcast>, k: nat): seq<Podcast> {
    if k == 0 then [] else FirstPages(processed, k - 1) + Visible(processed, k)
  }

  lemma {:induction false} FirstPagesPrefix(processed: seq<Podcast>, k: nat)
    ensures FirstPages(processed, k) == processed[..Min(k * ITEMS_PER_PAGE, |processed|)]
  {
    if k > 0 {
      FirstPagesPrefix(processed, k - 1);
      var lo, hi := Min((k - 1) * ITEMS_PER_PAGE, |processed|), Min(k * ITEMS_PER_PAGE, |processed|);
      assert Visible(processed, k) == processed[lo..hi];
      assert processed[..lo] + processed[lo..hi] == processed[..hi];
    }
  }

  /** Reading every page in turn gives the whole processed list, each item once. */
  lemma PagesCoverAll(processed: seq<Podcast>)
    ensures FirstPages(processed, TotalPages(|processed|)) == processed
  {
    var total := TotalPages(|processed|);
    FirstPagesPrefix(processed, total);
    assert Min(total * ITEMS_PER_PAGE, |processed|) == |processed|;
    assert processed[..|processed|] == processed;
  }

  // ---------------------------------------------------------------------------
  // Navigation handlers
  // ---------------------------------------------------------------------------

  /** A catalog route `/genre/<genre>/page/<page>?<query>`. */
  datatype Route = Route(genre: string, page: int, query: Params)

  /** `handlePageChange(nextPage)`: the genre and the current query stay, the page is nextPage. */
  method PageChangeRoute(genre: string, nextPage: int, locationSearch: Params) returns (route: Route)
    ensures route == Route(genre, nextPage, locationSearch)
    ensures nextPage >= 1 ==> PageFromParam(Some(IntToString(route.page))) == nextPage
  {
    route := Route(genre, nextPage, locationSearch);
    if nextPage >= 1 {
      PageRoundTrip(nextPage);
    }
  }

  /** The pager's Prev and Next buttons, pressed on a page in range, lead to routes the
      page reads back as their target: one page down or up, clamped to 1 and totalPages. */
  lemma PagerTargetsReadBack(page: int, totalPages: int)
    requires 1 <= page <= totalPages
    ensures PageFromParam(Some(IntToString(Pagination.PrevPage(page)))) == Max(1, page - 1)
    ensures PageFromParam(Some(IntToString(Pagination.NextPage(page, totalPages)))) == Min(totalPages, page + 1)
  {
    Pagination.PrevNextInverse(page, totalPages);
    PageRoundTrip(Pagination.PrevPage(page));
    PageRoundTrip(Pagination.NextPage(page, totalPages));
  }

  /** `handleGenreChange(next)`: a missing or empty genre becomes "all"; page 1, query kept.
      The page reads the new route back as that genre and as page 1. */
  method GenreChangeRoute(next: Option<string>, searchParams: Params) returns (route: Route)
    ensures route.genre == "all" <==> next.None? || next.value == "" || next.value == "all"
    ensures next.Some? && next.value != "" ==> route.genre == next.value
    ensures route.page == 1 && route.query == searchParams
    ensures GenreFromParam(Some(route.genre)) == route.genre
    ensures PageFromParam(Some(IntToString(route.page))) == 1
  {
    var g := if next.None? || next.value == "" then "all" else next.value;
    route := Route(g, 1, searchParams);
    RouteReadsBack(route);
  }

  /** The page reads a route it navigated to back as the same genre and page. */
  lemma RouteReadsBack(route: Route)
    requires route.genre != "" && route.page >= 1
    ensures GenreFromParam(Some(route.genre)) == route.genre
    ensures PageFromParam(Some(IntToString(route.page))) == route.page
  {
    PageRoundTrip(route.page);
  }

  /** `handleSearchChange(next)`: `search` is set when next is non-empty and deleted
      otherwise; every other parameter is kept; the genre stays and the page is 1. */
  method SearchChangeRoute(genre: string, next: string, searchParams: Params) returns (route: Route)
    ensures route.genre == genre && route.page == 1
    ensures Get(route.query, "search") == if next == "" then None else Some(next)
    ensures forall other :: other != "search" ==> Get(route.query, other) == Get(searchParams, other)
    ensures route.query == if next == "" then Delete(searchParams, "search") else Set(searchParams, "search", next)
  {
    var params := searchParams;
    if next != "" {
      SetGet(params, "search", next);
      forall other | other != "search" ensures Get(Set(params, "search", next), other) == Get(params, other) {
        SetOther(params, "search", next, other);
      }
      params := Set(params, "search", next);
    } else {
      DeleteRemoves(params, "search", "search");
      forall other | other != "search" ensures Get(Delete(params, "search"), other) == Get(params, other) {
        DeleteRemoves(params, "search", other);
      }
      params := Delete(params, "search");
    }
    route := Route(genre, 1, params);
  }

  /** `handleSortChange(next)`: `sort` is set to next, every other parameter is kept,
      the genre stays and the page is 1. */
  method SortChangeRoute(genre: string, next: string, searchParams: Params) returns (route: Route)
    ensures route.genre == genre && route.page == 1
    ensures Get(route.query, "sort") == Some(next)
    ensures forall other :: other != "sort" ==> Get(route.query, other) == Get(searchParams, other)
    ensures route.query == Set(searchParams, "sort", next)
  {
    var params := searchParams;
    SetGet(params, "sort", next);
    forall other | other != "sort" ensures Get(Set(params, "sort", next), other) == Get(params, other) {
      SetOther(params, "sort", next, other);
    }
    params := Set(params, "sort", next);
    route := Route(genre, 1, params);
  }
}
