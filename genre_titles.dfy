/** `getGenreTitles` (src/utils/getGenreTitles.js): genre ids to their titles,
    dropping ids the table does not know. */
module GenreTitles {
  import opened Js
  import opened Seqs
  import opened GenreMap

  /** `Boolean(v)` for a looked-up title: `undefined` and `""` are falsy. */
  predicate Truthy(v: Option<string>) {
    v.Some? && v.value != ""
  }

  /** `genreIds.map((id) => table[id])` */
  function LookUpAll(ids: seq<int>, table: int -> Option<string>): (r: seq<Option<string>>)
    ensures |r| == |ids|
    ensures forall i :: 0 <= i < |ids| ==> r[i] == table(ids[i])
  {
    seq(|ids|, i requires 0 <= i < |ids| => table(ids[i]))
  }

  /** The strings inside titles that are all present. */
  function Values(vs: seq<Option<string>>): (r: seq<string>)
    requires forall i :: 0 <= i < |vs| ==> vs[i].Some?
    ensures |r| == |vs|
    ensures forall i :: 0 <= i < |vs| ==> r[i] == vs[i].value
  {
    seq(|vs|, i requires 0 <= i < |vs| => vs[i].value)
  }

  /** Look every id up in a table, then `.filter(Boolean)`. */
  function TitlesIn(ids: seq<int>, table: int -> Option<string>): (titles: seq<string>)
    ensures |titles| <= |ids|
  {
    Values(Filter(LookUpAll(ids, table), Truthy))
  }

  /** `getGenreTitles(genreIds)`: the lookup is `genreMap[id]`. */
  function GetGenreTitles(ids: seq<int>): (titles: seq<string>)
    ensures |titles| <= |ids|
  {
    TitlesIn(ids, TitleOf)
  }

  /** The truthy titles of the ids, in input order: the reference definition. */
  function Kept(ids: seq<int>, table: int -> Option<string>): seq<string>
    decreases |ids|
  {
    if |ids| == 0 then []
    else if Truthy(table(ids[0])) then [table(ids[0]).value] + Kept(ids[1..], table)
    else Kept(ids[1..], table)
  }

  /** Looking ids up distributes over concatenation. */
  lemma LookUpAllAppend(a: seq<int>, b: seq<int>, table: int -> Option<string>)
    ensures LookUpAll(a + b, table) == LookUpAll(a, table) + LookUpAll(b, table)
  {
    var l, r := LookUpAll(a + b, table), LookUpAll(a, table) + LookUpAll(b, table);
    forall i | 0 <= i < |l| ensures l[i] == r[i] {
      if i < |a| {
        assert (a + b)[i] == a[i];
      } else {
        assert (a + b)[i] == b[i - |a|];
      }
    }
  }

  /** The titles of a concatenation are the titles of each part, in order. */
  lemma TitlesInAppend(a: seq<int>, b: seq<int>, table: int -> Option<string>)
    ensures TitlesIn(a + b, table) == TitlesIn(a, table) + TitlesIn(b, table)
  {
    LookUpAllAppend(a, b, table);
    FilterAppend(LookUpAll(a, table), LookUpAll(b, table), Truthy);
  }

  /** A single id yields its title when that is truthy and nothing otherwise. */
  lemma TitlesInSingle(id: int, table: int -> Option<string>)
    ensures TitlesIn([id], table) == if Truthy(table(id)) then [table(id).value] else []
  {
    var looked := LookUpAll([id], table);
    assert looked == [table(id)];
    assert looked[1..] == [];
    assert Filter(looked, Truthy) == (if Truthy(table(id)) then [table(id)] else []);
  }

  /** Map-then-filter agrees with the reference definition. */
  lemma {:induction false} TitlesInKept(ids: seq<int>, table: int -> Option<string>)
    ensures TitlesIn(ids, table) == Kept(ids, table)
    decreases |ids|
  {
    if |ids| > 0 {
      assert ids == [ids[0]] + ids[1..];
      TitlesInAppend([ids[0]], ids[1..], table);
      TitlesInSingle(ids[0], table);
      TitlesInKept(ids[1..], table);
    }
  }

  /** The titles of a concatenation are the titles of each part, in order, so the
      output follows the order of the input ids. */
  lemma GetGenreTitlesAppend(a: seq<int>, b: seq<int>)
    ensures GetGenreTitles(a + b) == GetGenreTitles(a) + GetGenreTitles(b)
  {
    TitlesInAppend(a, b, TitleOf);
  }

  /** `genreMap[id]` of the known ids, in input order. */
  function KnownTitles(ids: seq<int>): (titles: seq<string>)
    decreases |ids|
  {
    if |ids| == 0 then []
    else if IsKnown(ids[0]) then [ListedTitle(ids[0])] + KnownTitles(ids[1..])
    else KnownTitles(ids[1..])
  }

  /** The output is exactly the titles the table lists for the input ids it knows, in
      input order; unknown ids are dropped. */
  lemma GetGenreTitlesKnown(ids: seq<int>)
    ensures GetGenreTitles(ids) == KnownTitles(ids)
  {
    TitlesInKept(ids, TitleOf);
    KeptKnown(ids);
  }

  lemma {:induction false} KeptKnown(ids: seq<int>)
    ensures Kept(ids, TitleOf) == KnownTitles(ids)
    decreases |ids|
  {
    if |ids| > 0 {
      KeptKnown(ids[1..]);
      if IsKnown(ids[0]) {
        TitleOfValue(ids[0]);
      }
    }
  }

  /** Every title returned is a value of `genreMap`. */
  lemma TitlesAreGenres(ids: seq<int>)
    ensures forall t :: t in GetGenreTitles(ids) ==> IsGenreTitle(t)
  {
    GetGenreTitlesKnown(ids);
    KnownTitlesAreGenres(ids);
  }

  lemma {:induction false} KnownTitlesAreGenres(ids: seq<int>)
    ensures forall t :: t in KnownTitles(ids) ==> IsGenreTitle(t)
    decreases |ids|
  {
    if |ids| > 0 {
      KnownTitlesAreGenres(ids[1..]);
      if IsKnown(ids[0]) {
        TitleOfValue(ids[0]);
      }
    }
  }

  /** When every id is known nothing is dropped: one title per id, position by position. */
  lemma AllKnownKept(ids: seq<int>)
    requires forall i :: 0 <= i < |ids| ==> IsKnown(ids[i])
    ensures |GetGenreTitles(ids)| == |ids|
    ensures forall i :: 0 <= i < |ids| ==> GetGenreTitles(ids)[i] == ListedTitle(ids[i])
  {
    GetGenreTitlesKnown(ids);
    AllKnownTitles(ids);
  }

  lemma {:induction false} AllKnownTitles(ids: seq<int>)
    requires forall i :: 0 <= i < |ids| ==> IsKnown(ids[i])
    ensures |KnownTitles(ids)| == |ids|
    ensures forall i :: 0 <= i < |ids| ==> KnownTitles(ids)[i] == ListedTitle(ids[i])
    decreases |ids|
  {
    if |ids| > 0 {
      AllKnownTitles(ids[1..]);
      var r := KnownTitles(ids);
      assert r == [ListedTitle(ids[0])] + KnownTitles(ids[1..]);
      forall i | 0 < i < |ids| ensures r[i] == ListedTitle(ids[i]) {
        assert ids[1..][i - 1] == ids[i];
      }
    }
  }

  /** Ids the table does not know contribute nothing. */
  lemma UnknownDropped(ids: seq<int>)
    requires forall i :: 0 <= i < |ids| ==> !IsKnown(ids[i])
    ensures GetGenreTitles(ids) == []
  {
    GetGenreTitlesKnown(ids);
    NoKnownTitles(ids);
  }

  lemma {:induction false} NoKnownTitles(ids: seq<int>)
    requires forall i :: 0 <= i < |ids| ==> !IsKnown(ids[i])
    ensures KnownTitles(ids) == []
    decreases |ids|
  {
    if |ids| > 0 {
      NoKnownTitles(ids[1..]);
    }
  }
}
