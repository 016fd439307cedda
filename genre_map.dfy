/** The genre table (src/utils/genreMap.js): `genreMap` from id to title, and
    `genreList`, the same entries as `{id, title}` records for dropdowns. */
module GenreMap {
  import opened Js

  /** The entries of `genreMap`, as `Object.entries` enumerates them: its keys are
      the strings of array indices, which come out in ascending numeric order. */
  const GENRE_MAP: seq<(string, string)> := [
    ("1", "Personal Growth"),
    ("2", "Investigative Journalism"),
    ("3", "History"),
    ("4", "Comedy"),
    ("5", "Entertainment"),
    ("6", "Business"),
    ("7", "Fiction"),
    ("8", "News"),
    ("9", "Kids and Family")
  ]

  /** The property lookup `genreMap[key]` on an ordered list of entries. */
  function LookupIn(entries: seq<(string, string)>, key: string): (r: Option<string>)
    ensures r.None? <==> forall i :: 0 <= i < |entries| ==> entries[i].0 != key
    ensures r.Some? ==> exists i :: 0 <= i < |entries| && entries[i] == (key, r.value)
    decreases |entries|
  {
    if |entries| == 0 then None
    else if entries[0].0 == key then Some(entries[0].1)
    else
      var r := LookupIn(entries[1..], key);
      assert r.Some? ==> exists i :: 1 <= i < |entries| && entries[i] == (key, r.value) by {
        if r.Some? {
          var i :| 0 <= i < |entries[1..]| && entries[1..][i] == (key, r.value);
          assert entries[i + 1] == (key, r.value);
        }
      }
      r
  }

  /** `genreMap[key]`; `undefined` is None. */
  function Lookup(key: string): (r: Option<string>)
    ensures r.None? <==> forall i :: 0 <= i < |GENRE_MAP| ==> GENRE_MAP[i].0 != key
    ensures r.Some? ==> exists i :: 0 <= i < |GENRE_MAP| && GENRE_MAP[i] == (key, r.value)
  {
    LookupIn(GENRE_MAP, key)
  }

  /** Ids that `genreMap` has a title for. */
  predicate IsKnown(id: int) {
    1 <= id <= 9
  }

  /** `genreMap[id]` for a numeric id: the property key is `String(id)`. It is
      defined exactly for the ids 1 to 9, and is then the title listed for the id. */
  function TitleOf(id: int): (r: Option<string>)
    ensures r.Some? <==> IsKnown(id)
    ensures r.Some? ==> r.value != ""
  {
    KeyRange(id);
    Lookup(IntToString(id))
  }

  /** The title listed at the position of the id `id`. */
  function ListedTitle(id: int): string
    requires IsKnown(id)
  {
    GENRE_MAP[id - 1].1
  }

  /** The title found for a known id is the one listed at its position, a value of the table. */
  lemma TitleOfValue(id: int)
    requires IsKnown(id)
    ensures TitleOf(id) == Some(ListedTitle(id))
    ensures IsGenreTitle(TitleOf(id).value)
  {
    KeyRange(id);
  }

  /** A value of `genreMap`. */
  ghost predicate IsGenreTitle(t: string) {
    exists i :: 0 <= i < |GENRE_MAP| && GENRE_MAP[i].1 == t
  }

  /** The entry at index i has key `String(i + 1)` and a non-empty title. */
  lemma EntryShape(i: int)
    requires 0 <= i < |GENRE_MAP|
    ensures GENRE_MAP[i].0 == IntToString(i + 1)
    ensures GENRE_MAP[i].1 != ""
  {
    assert NatToString(i + 1) == [DigitChar(i + 1)];
  }

  /** The key `String(id)` is present exactly for the ids 1 to 9. */
  lemma KeyRange(id: int)
    ensures Lookup(IntToString(id)).Some? <==> 1 <= id <= 9
    ensures 1 <= id <= 9 ==> Lookup(IntToString(id)) == Some(GENRE_MAP[id - 1].1)
    ensures Lookup(IntToString(id)).Some? ==> Lookup(IntToString(id)).value != ""
  {
    if 1 <= id <= 9 {
      forall j | 0 <= j < id - 1 ensures GENRE_MAP[j].0 != IntToString(id) {
        EntryShape(j);
        if GENRE_MAP[j].0 == IntToString(id) {
          ToNumberIntToString(j + 1);
          ToNumberIntToString(id);
        }
      }
      EntryShape(id - 1);
      LookupFirst(GENRE_MAP, IntToString(id), id - 1);
    }
    if Lookup(IntToString(id)).Some? {
      var i :| 0 <= i < |GENRE_MAP| && GENRE_MAP[i] == (IntToString(id), Lookup(IntToString(id)).value);
      EntryShape(i);
      ToNumberIntToString(i + 1);
      ToNumberIntToString(id);
    }
  }

  /** A lookup returns the value of the first entry with that key. */
  lemma {:induction false} LookupFirst(entries: seq<(string, string)>, key: string, k: int)
    requires 0 <= k < |entries| && entries[k].0 == key
    requires forall j :: 0 <= j < k ==> entries[j].0 != key
    ensures LookupIn(entries, key) == Some(entries[k].1)
    decreases k
  {
    if k > 0 {
      LookupFirst(entries[1..], key, k - 1);
    }
  }

  /** One record of `genreList`; `id` is `Number(key)`, None where that is NaN. */
  datatype Genre = Genre(id: Option<int>, title: string)

  /** `Object.entries(genreMap).map(([id, title]) => ({ id: Number(id), title }))` */
  function GenreList(): (list: seq<Genre>)
    ensures |list| == |GENRE_MAP|
    ensures forall i :: 0 <= i < |list| ==>
      list[i] == Genre(ToNumber(GENRE_MAP[i].0), GENRE_MAP[i].1)
  {
    seq(|GENRE_MAP|, i requires 0 <= i < |GENRE_MAP| => Genre(ToNumber(GENRE_MAP[i].0), GENRE_MAP[i].1))
  }

  /** `genreList` has nine records whose ids are the numbers 1 to 9 in ascending
      order, each carrying the title `genreMap` holds for its id, so a lookup by any
      listed id succeeds. */
  lemma GenreListShape()
    ensures |GenreList()| == 9
    ensures forall i :: 0 <= i < |GenreList()| ==> GenreList()[i].id == Some(i + 1)
    ensures forall i :: 0 <= i < |GenreList()| ==> TitleOf(i + 1) == Some(GenreList()[i].title)
    ensures forall i, j :: 0 <= i < j < |GenreList()| ==> GenreList()[i].id.value < GenreList()[j].id.value
  {
    var list := GenreList();
    forall i | 0 <= i < |list|
      ensures list[i].id == Some(i + 1) && TitleOf(i + 1) == Some(list[i].title)
    {
      EntryShape(i);
      ToNumberIntToString(i + 1);
      TitleOfValue(i + 1);
    }
  }
}
