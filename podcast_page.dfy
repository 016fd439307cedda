/** The show detail page (src/components/PodcastPage.jsx): the `m:ss` duration
    text, the season chosen from the `season` query parameter, the season lookup,
    the total-episode count and the per-index table of duration labels. */
module PodcastPage {
  import opened Js
  import opened UrlParams

  // ---------------------------------------------------------------------------
  // formatDuration
  // ---------------------------------------------------------------------------

  /** `Math.trunc`: the integer next to x on the side of zero. */
  function Trunc(x: real): (r: int)
    ensures x >= 0.0 ==> 0 <= r && r as real <= x < r as real + 1.0
    ensures x < 0.0 ==> r <= 0 && r as real - 1.0 < x <= r as real
  {
    if x >= 0.0 then x.Floor else -((-x).Floor)
  }

  /** `x % 60` on JavaScript numbers, which is `x - 60 * Math.trunc(x / 60)`: the
      remainder lies strictly between -60 and 60, takes the sign of the dividend,
      and what it leaves behind is a whole number of minutes. */
  function Rem60(x: real): (r: real)
    ensures -60.0 < r < 60.0
    ensures x >= 0.0 ==> r >= 0.0
    ensures x <= 0.0 ==> r <= 0.0
    ensures ((x - r) / 60.0).Floor as real == (x - r) / 60.0
  {
    var q := Trunc(x / 60.0);
    assert (x - (x - 60.0 * q as real)) / 60.0 == q as real;
    x - 60.0 * q as real
  }

  /** `str.padStart(2, "0")` */
  function PadStart2(s: string): (r: string)
    ensures |s| >= 2 ==> r == s
    ensures |s| < 2 ==> |r| == 2 && r[2 - |s|..] == s
    ensures forall i :: 0 <= i < |r| - |s| ==> r[i] == '0'
  {
    if |s| >= 2 then s else seq(2 - |s|, _ => '0') + s
  }

  /** `formatDuration(seconds)`. `None` stands for a missing or NaN duration. */
  function FormatDuration(seconds: Option<real>): (r: string)
    ensures seconds.None? || seconds.value == 0.0 ==> r == "0:00"
    ensures |r| >= 4
  {
    if seconds.None? || seconds.value == 0.0 then "0:00"
    else
      var mins := (seconds.value / 60.0).Floor;
      var secs := Rem60(seconds.value).Floor;
      var m := IntToString(mins);
      assert |m| > 0 by { NatToStringDigits(if mins < 0 then -mins else mins); }
      m + ":" + PadStart2(IntToString(secs))
  }

  /** Two decimal digits for a number below 100. */
  function TwoDigits(n: nat): (r: string)
    requires n < 100
    ensures |r| == 2 && AllDigits(r)
  {
    [DigitChar(n / 10), DigitChar(n % 10)]
  }

  /** For a positive number, `⌊s / 60⌋` is the whole minutes of `⌊s⌋`. */
  lemma FloorDiv60(s: real)
    requires s > 0.0
    ensures (s / 60.0).Floor == s.Floor / 60
  {
    var f := s.Floor;
    var q := f / 60;
    assert (60 * q) as real <= s < (60 * q + 60) as real;
    assert q as real <= s / 60.0 < (q + 1) as real;
  }

  /** For a positive number, `⌊s % 60⌋` is the seconds left over from `⌊s⌋`. */
  lemma FloorRem60(s: real)
    requires s > 0.0
    ensures Rem60(s).Floor == s.Floor % 60
  {
    FloorDiv60(s);
    var f := s.Floor;
    var q := f / 60;
    assert Trunc(s / 60.0) == q;
    assert Rem60(s) == s - (60 * q) as real;
    assert (f - 60 * q) as real <= s - (60 * q) as real < (f - 60 * q + 1) as real;
  }

  /** `padStart(2, "0")` of the notation of a remainder below 60 is its two digits. */
  lemma PadSeconds(n: nat)
    requires n < 60
    ensures PadStart2(IntToString(n)) == TwoDigits(n)
  {
    if n >= 10 {
      assert NatToString(n) == NatToString(n / 10) + [DigitChar(n % 10)];
    }
  }

  /** A positive duration reads as whole minutes, a colon and two digits of seconds. */
  lemma FormatPositive(s: real)
    requires s > 0.0
    ensures FormatDuration(Some(s)) == NatToString(s.Floor / 60) + ":" + TwoDigits(s.Floor % 60)
  {
    var f: nat := s.Floor;
    var mins, secs := (s / 60.0).Floor, Rem60(s).Floor;
    FormatShape(s);
    FloorDiv60(s);
    FloorRem60(s);
    assert mins == f / 60 && secs == f % 60;
    PadSeconds(f % 60);
  }

  /** A non-zero duration is minutes, a colon and the padded seconds. */
  lemma FormatShape(s: real)
    requires s != 0.0
    ensures FormatDuration(Some(s))
      == IntToString((s / 60.0).Floor) + ":" + PadStart2(IntToString(Rem60(s).Floor))
  {
  }

  /** Reads an `m:ss` text back into a number of seconds. */
  function ParseDuration(text: string): (r: Option<int>)
    ensures r.Some? ==> r.value >= 0
  {
    if |text| >= 4 && text[|text| - 3] == ':'
       && AllDigits(text[..|text| - 3]) && AllDigits(text[|text| - 2..])
    then Some(ParseDigits(text[..|text| - 3]) * 60 + ParseDigits(text[|text| - 2..]))
    else None
  }

  lemma TwoDigitsValue(n: nat)
    requires n < 100
    ensures ParseDigits(TwoDigits(n)) == n
  {
    var t := TwoDigits(n);
    assert t[..1] == [DigitChar(n / 10)];
    assert t[..1][..0] == [];
    assert ParseDigits(t[..1]) == n / 10;
  }

  /** Reading the text of a positive duration back gives its whole seconds: no
      information beyond the fraction of a second is lost. */
  lemma DurationRoundTrip(s: real)
    requires s > 0.0
    ensures ParseDuration(FormatDuration(Some(s))) == Some(s.Floor)
  {
    FormatPositive(s);
    ParseWholeSeconds(s.Floor);
  }

  /** Minutes and two digits of seconds of a count of seconds parse back to it. */
  lemma ParseWholeSeconds(f: nat)
    ensures ParseDuration(NatToString(f / 60) + ":" + TwoDigits(f % 60)) == Some(f)
  {
    var m, r := f / 60, f % 60;
    assert m * 60 + r == f;
    ParseMinutesSeconds(m, r);
  }

  /** Minutes, a colon and two digits of seconds parse back to the seconds they denote. */
  lemma ParseMinutesSeconds(m: nat, ss: nat)
    requires ss < 100
    ensures ParseDuration(NatToString(m) + ":" + TwoDigits(ss)) == Some(m * 60 + ss)
  {
    var mt := NatToString(m);
    var st := TwoDigits(ss);
    var text := mt + ":" + st;
    NatToStringDigits(m);
    TwoDigitsValue(ss);
    assert text[..|text| - 3] == mt;
    assert text[|text| - 2..] == st;
    assert text[|text| - 3] == ':';
  }

  /** For a whole positive number of seconds the text's minutes and seconds
      recombine to it, and the seconds part is below 60. */
  lemma WholeSeconds(n: nat)
    requires n > 0
    ensures ParseDuration(FormatDuration(Some(n as real))) == Some(n)
    ensures var text := FormatDuration(Some(n as real));
      exists m: nat, ss: nat :: ss < 60 && m * 60 + ss == n
        && text == NatToString(m) + ":" + TwoDigits(ss)
  {
    var s := n as real;
    assert s.Floor == n;
    DurationRoundTrip(s);
    FormatPositive(s);
    var m: nat, ss: nat := n / 60, n % 60;
    assert ss < 60 && m * 60 + ss == n;
  }

  // ---------------------------------------------------------------------------
  // Seasons
  // ---------------------------------------------------------------------------

  /** One episode of a season. */
  datatype ShowEpisode = ShowEpisode(title: string, description: string, file: string)

  /** One season of a show; `episodes` may be missing from the API response. */
  datatype Season = Season(season: int, title: string, episodes: Option<seq<ShowEpisode>>)

  /** `Number(params.get("season")) || 1`; `Number(null)` is 0. */
  function InitialSeason(param: Option<string>): (season: int)
    ensures season != 0
    ensures param.None? ==> season == 1
    ensures param.Some? && ToNumber(param.value).Some? && ToNumber(param.value).value != 0
      ==> season == ToNumber(param.value).value
    ensures param.Some? && (ToNumber(param.value).None? || ToNumber(param.value).value == 0)
      ==> season == 1
  {
    IntOr(if param.None? then Some(0) else ToNumber(param.value), 1)
  }

  /** Writing a non-zero season number and reading it back gives the number. */
  lemma SeasonRoundTrip(v: int)
    ensures v != 0 ==> InitialSeason(Some(IntToString(v))) == v
    ensures v == 0 ==> InitialSeason(Some(IntToString(v))) == 1
  {
    ToNumberIntToString(v);
  }

  ghost predicate IsFirstSeason(seasons: seq<Season>, selected: int, i: int) {
    0 <= i < |seasons| && seasons[i].season == selected
    && forall j :: 0 <= j < i ==> seasons[j].season != selected
  }

  /** The index of the first season with the selected number, or -1. */
  function SeasonIndex(seasons: seq<Season>, selected: int): (i: int)
    ensures -1 <= i < |seasons|
    ensures i >= 0 ==> IsFirstSeason(seasons, selected, i)
    ensures i == -1 ==> forall j :: 0 <= j < |seasons| ==> seasons[j].season != selected
    decreases |seasons|
  {
    if |seasons| == 0 then -1
    else if seasons[0].season == selected then 0
    else
      var k := SeasonIndex(seasons[1..], selected);
      if k == -1 then -1 else k + 1
  }

  /** `seasons.find(s => Number(s.season) === Number(selectedSeason))` */
  function CurrentSeason(seasons: seq<Season>, selected: int): (r: Option<Season>)
    ensures r.None? <==> forall j :: 0 <= j < |seasons| ==> seasons[j].season != selected
    ensures r.Some? ==> exists i :: IsFirstSeason(seasons, selected, i) && r.value == seasons[i]
  {
    var i := SeasonIndex(seasons, selected);
    if i == -1 then None else Some(seasons[i])
  }

  /** The season found is the first one with that number and no other. */
  lemma CurrentSeasonIsFirst(seasons: seq<Season>, selected: int, i: int)
    requires IsFirstSeason(seasons, selected, i)
    ensures CurrentSeason(seasons, selected) == Some(seasons[i])
  {
  }

  /** `s.episodes?.length || 0` */
  function EpisodeCount(s: Season): (n: nat)
    ensures s.episodes.None? ==> n == 0
    ensures s.episodes.Some? ==> n == |s.episodes.value|
  {
    if s.episodes.None? then 0 else |s.episodes.value|
  }

  /** `currentSeason?.episodes || []` */
  function Episodes(current: Option<Season>): (r: seq<ShowEpisode>)
    ensures current.None? ==> r == []
    ensures current.Some? ==> |r| == EpisodeCount(current.value)
    ensures current.Some? && current.value.episodes.Some? ==> r == current.value.episodes.value
  {
    if current.None? then [] else current.value.episodes.GetOr([])
  }

  /** `seasons.reduce((sum, s) => sum + (s.episodes?.length || 0), 0)`, folded from the left. */
  function TotalEpisodes(seasons: seq<Season>): (total: nat)
    ensures |seasons| == 0 ==> total == 0
    ensures forall i :: 0 <= i < |seasons| ==> EpisodeCount(seasons[i]) <= total
    decreases |seasons|
  {
    if |seasons| == 0 then 0
    else TotalEpisodes(seasons[..|seasons| - 1]) + EpisodeCount(seasons[|seasons| - 1])
  }

  /** The total is additive over concatenation. */
  lemma {:induction false} TotalAppend(a: seq<Season>, b: seq<Season>)
    ensures TotalEpisodes(a + b) == TotalEpisodes(a) + TotalEpisodes(b)
    decreases |b|
  {
    if |b| == 0 {
      assert a + b == a;
    } else {
      var b' := b[..|b| - 1];
      TotalAppend(a, b');
      assert (a + b)[..|a + b| - 1] == a + b';
      assert (a + b)[|a + b| - 1] == b[|b| - 1];
    }
  }

  /** The total is the sum of each season's count, the first season included. */
  lemma TotalCons(s: Season, rest: seq<Season>)
    ensures TotalEpisodes([s] + rest) == EpisodeCount(s) + TotalEpisodes(rest)
  {
    TotalAppend([s], rest);
    assert [s][..0] == [];
  }

  /** The selected season never lists more episodes than the show's total. */
  lemma SelectedWithinTotal(seasons: seq<Season>, selected: int)
    ensures |Episodes(CurrentSeason(seasons, selected))| <= TotalEpisodes(seasons)
  {
    var i := SeasonIndex(seasons, selected);
    if i >= 0 {
      assert CurrentSeason(seasons, selected) == Some(seasons[i]);
      assert seasons == seasons[..i] + ([seasons[i]] + seasons[i + 1..]);
      TotalAppend(seasons[..i], [seasons[i]] + seasons[i + 1..]);
      TotalCons(seasons[i], seasons[i + 1..]);
    }
  }

  // ---------------------------------------------------------------------------
  // Page state: selected season and duration labels
  // ---------------------------------------------------------------------------

  const UNKNOWN_LENGTH := "Unknown length"
  const LOADING := "Loading..."

  /** The page's mutable state: the selected season, the location's query after
      `navigate`, and `episodeDurations`, keyed by episode index. */
  class SeasonView {
    var selectedSeason: int
    var query: Params
    var durations: map<int, string>

    /** Mounting reads the season from the query; no durations are known yet. */
    constructor (query: Params)
      ensures this.query == query
      ensures selectedSeason == InitialSeason(Get(query, "season"))
      ensures durations == map[]
    {
      this.query := query;
      selectedSeason := InitialSeason(Get(query, "season"));
      durations := map[];
    }

    /** `episodeDurations[i] || "Loading..."` */
    function Label(i: int): (r: string)
      reads this
      ensures i !in durations ==> r == LOADING
      ensures i in durations && durations[i] != "" ==> r == durations[i]
    {
      if i in durations && durations[i] != "" then durations[i] else LOADING
    }

    /** `onLoadedMetadata` at index i: only a duration that is a number is recorded. */
    method OnLoadedMetadata(i: int, duration: Option<real>)
      modifies this`durations
      ensures duration.Some? ==> durations == old(durations)[i := FormatDuration(duration)]
      ensures duration.None? ==> durations == old(durations)
      ensures duration.Some? ==> Label(i) == FormatDuration(duration)
      ensures forall j :: j != i ==> Label(j) == old(Label(j))
    {
      if duration.Some? {
        durations := durations[i := FormatDuration(duration)];
      }
    }

    /** `onError` at index i: the fallback text replaces whatever was there. */
    method OnError(i: int)
      modifies this`durations
      ensures durations == old(durations)[i := UNKNOWN_LENGTH]
      ensures Label(i) == UNKNOWN_LENGTH
      ensures forall j :: j != i ==> Label(j) == old(Label(j))
    {
      durations := durations[i := UNKNOWN_LENGTH];
    }

    /** The season `<select>` changing to the option of `season`: the option's value
        is `String(season)`, read back with `Number`, and `navigate("?season=" + value)`
        replaces the query. The duration labels, keyed by index only, are kept. */
    method SelectSeason(season: int)
      modifies this`selectedSeason, this`query
      ensures selectedSeason == season
      ensures query == [("season", IntToString(season))]
      ensures season != 0 ==> InitialSeason(Get(query, "season")) == selectedSeason
      ensures unchanged(this`durations)
    {
      var value := ToNumber(IntToString(season));
      ToNumberIntToString(season);
      selectedSeason := value.value;
      query := [("season", IntToString(season))];
      SeasonRoundTrip(season);
    }
  }
}
