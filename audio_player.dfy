/** The global playback coordinator (src/components/player/AudioPlayerProvider.jsx):
    one audio handle for the whole app, the playback state, the module-level
    episode registry used for next/previous navigation, and the snapshot of
    `{currentEpisode, progress}` kept in browser storage under `global-player`.

    React's scheduling is modelled as follows: every handler applies its state
    writes together, then `Commit` runs the effects whose dependencies changed
    (the episode-change effect and the persist effect). Each `play()` promise of
    `playEpisode` settles later, as a separate `ResolvePlay` event. */
module AudioPlayer {
  import opened Js

  /** An episode descriptor. `favId` is only carried by the lists the favorites page builds. */
  datatype Episode = Episode(
    showId: string,
    season: int,
    episodeNumber: int,
    title: string,
    audioUrl: string,
    image: string,
    showTitle: string,
    favId: Option<string>)

  // ---------------------------------------------------------------------------
  // Neighbour lookup in a registered list
  // ---------------------------------------------------------------------------

  /** i is the first position whose episode number is n. */
  ghost predicate IsFirstMatch(list: seq<Episode>, n: int, i: int) {
    && 0 <= i < |list|
    && list[i].episodeNumber == n
    && forall j :: 0 <= j < i ==> list[j].episodeNumber != n
  }

  ghost predicate NotFound(list: seq<Episode>, n: int) {
    forall j :: 0 <= j < |list| ==> list[j].episodeNumber != n
  }

  /** No two episodes of the list share an episode number. */
  ghost predicate DistinctNumbers(list: seq<Episode>) {
    forall i, j :: 0 <= i < j < |list| ==> list[i].episodeNumber != list[j].episodeNumber
  }

  /** `list.findIndex(ep => ep.episodeNumber === n)`: the first match, or -1. */
  function FindIndex(list: seq<Episode>, n: int): (i: int)
    ensures -1 <= i < |list|
    ensures i >= 0 ==> IsFirstMatch(list, n, i)
    ensures i == -1 ==> NotFound(list, n)
  {
    if |list| == 0 then -1
    else if list[0].episodeNumber == n then 0
    else
      var k := FindIndex(list[1..], n);
      if k == -1 then -1 else k + 1
  }

  /** `list[currentIndex + 1]`, where a missing element (undefined) is None. When the
      number is not found the index is -1, so the first episode is chosen. */
  function NextTarget(list: seq<Episode>, n: int): (r: Option<Episode>)
    ensures forall i :: IsFirstMatch(list, n, i) ==> r == if i + 1 < |list| then Some(list[i + 1]) else None
    ensures NotFound(list, n) ==> r == if |list| > 0 then Some(list[0]) else None
  {
    var i := FindIndex(list, n);
    if i + 1 < |list| then Some(list[i + 1]) else None
  }

  /** `list[currentIndex - 1]`: None at the first position and when the number is not found. */
  function PrevTarget(list: seq<Episode>, n: int): (r: Option<Episode>)
    ensures forall i :: IsFirstMatch(list, n, i) ==> r == if i >= 1 then Some(list[i - 1]) else None
    ensures NotFound(list, n) ==> r == None
  {
    var i := FindIndex(list, n);
    if i >= 1 then Some(list[i - 1]) else None
  }

  /** With distinct numbers, the first match of an episode's number is its own position. */
  lemma DistinctFirstMatch(list: seq<Episode>, i: int)
    requires DistinctNumbers(list)
    requires 0 <= i < |list|
    ensures IsFirstMatch(list, list[i].episodeNumber, i)
  {
  }

  /** Next then previous comes back to the same position. */
  lemma NextThenPrev(list: seq<Episode>, i: int)
    requires DistinctNumbers(list)
    requires 0 <= i && i + 1 < |list|
    ensures NextTarget(list, list[i].episodeNumber) == Some(list[i + 1])
    ensures PrevTarget(list, list[i + 1].episodeNumber) == Some(list[i])
  {
    DistinctFirstMatch(list, i);
    DistinctFirstMatch(list, i + 1);
  }

  /** Previous then next comes back to the same position. */
  lemma PrevThenNext(list: seq<Episode>, i: int)
    requires DistinctNumbers(list)
    requires 1 <= i < |list|
    ensures PrevTarget(list, list[i].episodeNumber) == Some(list[i - 1])
    ensures NextTarget(list, list[i - 1].episodeNumber) == Some(list[i])
  {
    DistinctFirstMatch(list, i);
    DistinctFirstMatch(list, i - 1);
  }

  // ---------------------------------------------------------------------------
  // The episode registry, the audio handle and the stored snapshot
  // ---------------------------------------------------------------------------

  /** `EPISODE_REGISTRY`: showId -> season -> the last list registered for it. */
  class EpisodeRegistry {
    var shows: map<string, map<int, seq<Episode>>>

    constructor ()
      ensures shows == map[]
    {
      shows := map[];
    }

    /** `EPISODE_REGISTRY[showId]?.[season]` */
    function Lookup(showId: string, season: int): (r: Option<seq<Episode>>)
      reads this
      ensures r.Some? <==> showId in shows && season in shows[showId]
    {
      if showId in shows && season in shows[showId] then Some(shows[showId][season]) else None
    }

    /** `registerEpisodes(showId, season, episodes)`: replaces the list at that key,
        creating the show's entry when absent, and leaves every other key alone. */
    method Register(showId: string, season: int, episodes: seq<Episode>)
      modifies this
      ensures Lookup(showId, season) == Some(episodes)
      ensures forall s, n :: s != showId || n != season ==> Lookup(s, n) == old(Lookup(s, n))
      ensures shows.Keys == old(shows.Keys) + {showId}
    {
      if showId !in shows {
        shows := shows[showId := map[]];
      }
      shows := shows[showId := shows[showId][season := episodes]];
    }
  }

  /** The audio element, reduced to what the provider reads and writes. */
  class Audio {
    var src: string
    var currentTime: real
    var paused: bool

    /** `new Audio()`: no source, at the start, paused. */
    constructor ()
      ensures src == "" && currentTime == 0.0 && paused
    {
      src := "";
      currentTime := 0.0;
      paused := true;
    }
  }

  /** The JSON record kept under `global-player`. A missing or `null` progress is None. */
  datatype Snapshot = Snapshot(currentEpisode: Option<Episode>, progress: Option<real>)

  const PLAYER_KEY := "global-player"

  /** Browser storage as far as the player uses it. */
  class SnapshotStore {
    var items: map<string, Snapshot>

    constructor (items: map<string, Snapshot>)
      ensures this.items == items
    {
      this.items := items;
    }
  }

  // ---------------------------------------------------------------------------
  // The provider
  // ---------------------------------------------------------------------------

  class Provider {
    const audio: Audio
    const registry: EpisodeRegistry
    const storage: SnapshotStore

    var currentEpisode: Option<Episode>
    var isPlaying: bool
    var progress: real
    var duration: real
    var manualPlay: bool
    /** `play()` promises issued by playEpisode that have not settled yet. */
    var pendingPlays: nat
    /** The mount effects have run. */
    var mounted: bool

    /** The stored snapshot mirrors the current episode and progress. */
    ghost predicate Persisted()
      reads this, storage
    {
      PLAYER_KEY in storage.items && storage.items[PLAYER_KEY] == Snapshot(currentEpisode, Some(progress))
    }

    ghost predicate Valid()
      reads this, storage
    {
      mounted && Persisted()
    }

    /** What `playEpisode(e)` leaves behind, apart from the fields it does not write. */
    ghost predicate Started(e: Episode)
      reads this, audio
    {
      manualPlay && currentEpisode == Some(e) && audio.src == e.audioUrl && audio.currentTime == 0.0 && !audio.paused
    }

    /** The first render: no episode, not playing, nothing loaded. */
    constructor (registry: EpisodeRegistry, storage: SnapshotStore)
      ensures this.registry == registry && this.storage == storage && fresh(audio)
      ensures currentEpisode == None && !isPlaying && progress == 0.0 && duration == 0.0
      ensures !manualPlay && pendingPlays == 0 && !mounted
      ensures audio.src == "" && audio.currentTime == 0.0 && audio.paused
    {
      this.registry := registry;
      this.storage := storage;
      audio := new Audio();
      currentEpisode := None;
      isPlaying := false;
      progress := 0.0;
      duration := 0.0;
      manualPlay := false;
      pendingPlays := 0;
      mounted := false;
    }

    /** The episode-change effect loads a new episode without playing it only
        while no play has been requested by the user. */
    ghost predicate LoadsOnCommit(prevEpisode: Option<Episode>)
      reads this
    {
      currentEpisode != prevEpisode && currentEpisode.Some? && !manualPlay
    }

    /** The effects React runs after a handler's writes, given the dependencies'
        values before them. */
    method Commit(prevEpisode: Option<Episode>, prevProgress: real)
      modifies this`isPlaying, audio, storage
      ensures LoadsOnCommit(prevEpisode) ==>
        audio.src == currentEpisode.value.audioUrl && audio.currentTime == progress && audio.paused && !isPlaying
      ensures !LoadsOnCommit(prevEpisode) ==> unchanged(audio) && isPlaying == old(isPlaying)
      ensures storage.items == if currentEpisode != prevEpisode || progress != prevProgress
                               then old(storage.items)[PLAYER_KEY := Snapshot(currentEpisode, Some(progress))]
                               else old(storage.items)
    {
      // the episode-change effect
      if currentEpisode != prevEpisode && currentEpisode.Some? {
        if !manualPlay {
          audio.src := currentEpisode.value.audioUrl;
          audio.currentTime := RealOr(Some(progress), 0.0);
          audio.paused := true;
          isPlaying := false;
        }
      }
      // the persist effect
      if currentEpisode != prevEpisode || progress != prevProgress {
        storage.items := storage.items[PLAYER_KEY := Snapshot(currentEpisode, Some(progress))];
      }
    }

    /** The mount effects: the restore effect reads the stored snapshot, the first
        commit persists the initial state, and the restored state is then committed. */
    method Mount()
      requires !mounted && currentEpisode == None && progress == 0.0 && !manualPlay
      modifies this, audio, storage
      ensures Valid()
      ensures PLAYER_KEY !in old(storage.items) ==>
        currentEpisode == None && progress == 0.0 && isPlaying == old(isPlaying) && unchanged(audio)
      ensures PLAYER_KEY in old(storage.items) ==>
        && currentEpisode == old(storage.items)[PLAYER_KEY].currentEpisode
        && progress == RealOr(old(storage.items)[PLAYER_KEY].progress, 0.0)
        && !isPlaying
      ensures PLAYER_KEY in old(storage.items) && currentEpisode.Some? ==>
        audio.src == currentEpisode.value.audioUrl && audio.currentTime == progress && audio.paused
      ensures storage.items == old(storage.items)[PLAYER_KEY := Snapshot(currentEpisode, Some(progress))]
      ensures duration == old(duration) && manualPlay == old(manualPlay) && pendingPlays == old(pendingPlays)
    {
      var stored := if PLAYER_KEY in storage.items then Some(storage.items[PLAYER_KEY]) else None;
      // first commit: the episode-change effect returns at once, the persist effect writes
      storage.items := storage.items[PLAYER_KEY := Snapshot(currentEpisode, Some(progress))];
      mounted := true;
      if stored.Some? {
        var prevEpisode, prevProgress := currentEpisode, progress;
        currentEpisode := stored.value.currentEpisode;
        progress := RealOr(stored.value.progress, 0.0);
        isPlaying := false;
        Commit(prevEpisode, prevProgress);
      }
    }

    /** `registerEpisodes(showId, season, episodes)` */
    method RegisterEpisodes(showId: string, season: int, episodes: seq<Episode>)
      modifies registry
      ensures registry.Lookup(showId, season) == Some(episodes)
      ensures forall s, n :: s != showId || n != season ==> registry.Lookup(s, n) == old(registry.Lookup(s, n))
    {
      registry.Register(showId, season, episodes);
    }

    /** `playEpisode(e)`: marks the play as manual, switches the episode, rewinds,
        swaps the source and requests play; `isPlaying` waits for the request to settle. */
    method PlayEpisode(e: Episode)
      requires Valid()
      modifies this, audio, storage
      ensures Valid() && Started(e)
      ensures isPlaying == old(isPlaying) && progress == old(progress) && duration == old(duration)
      ensures pendingPlays == old(pendingPlays) + 1
      ensures storage.items == old(storage.items)[PLAYER_KEY := Snapshot(currentEpisode, Some(progress))]
    {
      var prevEpisode, prevProgress := currentEpisode, progress;
      manualPlay := true;
      currentEpisode := Some(e);
      audio.currentTime := 0.0;
      audio.src := e.audioUrl;
      audio.paused := false;
      pendingPlays := pendingPlays + 1;
      Commit(prevEpisode, prevProgress);
    }

    /** A `play()` promise of some earlier playEpisode settles. No request tag is
        checked, so a late outcome of a superseded request still sets `isPlaying`.
        Whether the handle is paused afterwards is the browser's decision, passed
        in as `handlePaused`: a play refused by an autoplay policy leaves it paused,
        a fulfilled one leaves it playing. */
    method ResolvePlay(ok: bool, handlePaused: bool)
      requires Valid() && pendingPlays > 0
      modifies this, audio
      ensures Valid()
      ensures isPlaying == ok && pendingPlays == old(pendingPlays) - 1
      ensures audio.paused == handlePaused
      ensures audio.src == old(audio.src) && audio.currentTime == old(audio.currentTime)
      ensures currentEpisode == old(currentEpisode) && progress == old(progress)
      ensures duration == old(duration) && manualPlay == old(manualPlay) && mounted == old(mounted)
    {
      audio.paused := handlePaused;
      isPlaying := ok;
      pendingPlays := pendingPlays - 1;
    }

    /** `togglePlay()`: resumes a paused handle, pauses a playing one. */
    method TogglePlay()
      requires Valid()
      modifies this`isPlaying, audio
      ensures Valid()
      ensures audio.paused == !old(audio.paused)
      ensures isPlaying == !audio.paused
      ensures audio.src == old(audio.src) && audio.currentTime == old(audio.currentTime)
    {
      if audio.paused {
        audio.paused := false;
        isPlaying := true;
      } else {
        audio.paused := true;
        isPlaying := false;
      }
    }

    /** `seek(sec)`: moves the playhead and the progress to exactly sec, without clamping. */
    method Seek(sec: real)
      requires Valid()
      modifies this, audio, storage
      ensures Valid()
      ensures audio.currentTime == sec && progress == sec
      ensures currentEpisode == old(currentEpisode) && isPlaying == old(isPlaying)
      ensures duration == old(duration) && manualPlay == old(manualPlay) && pendingPlays == old(pendingPlays)
      ensures audio.src == old(audio.src) && audio.paused == old(audio.paused)
      ensures storage.items == old(storage.items)[PLAYER_KEY := Snapshot(currentEpisode, Some(progress))]
    {
      var prevEpisode, prevProgress := currentEpisode, progress;
      audio.currentTime := sec;
      progress := sec;
      Commit(prevEpisode, prevProgress);
    }

    /** The handle's playhead has moved to t and `timeupdate` copies it into progress. */
    method TimeUpdate(t: real)
      requires Valid()
      modifies this, audio, storage
      ensures Valid()
      ensures progress == t && audio.currentTime == t
      ensures audio.src == old(audio.src) && audio.paused == old(audio.paused)
      ensures currentEpisode == old(currentEpisode) && isPlaying == old(isPlaying)
      ensures duration == old(duration) && manualPlay == old(manualPlay) && pendingPlays == old(pendingPlays)
      ensures storage.items == old(storage.items)[PLAYER_KEY := Snapshot(currentEpisode, Some(progress))]
    {
      var prevEpisode, prevProgress := currentEpisode, progress;
      audio.currentTime := t;
      progress := audio.currentTime;
      Commit(prevEpisode, prevProgress);
    }

    /** `loadedmetadata`: `duration := a.duration || 0`, where None is NaN. */
    method LoadedMetadata(mediaDuration: Option<real>)
      requires Valid()
      modifies this`duration
      ensures Valid()
      ensures duration == if mediaDuration.Some? then mediaDuration.value else 0.0
    {
      duration := RealOr(mediaDuration, 0.0);
    }

    /** The episode nextEpisode would play, if any. */
    function NextCandidate(): (r: Option<Episode>)
      reads this, registry
      ensures currentEpisode.None? ==> r.None?
      ensures currentEpisode.Some? && registry.Lookup(currentEpisode.value.showId, currentEpisode.value.season).None? ==> r.None?
      ensures r.Some? ==> r.value in registry.Lookup(currentEpisode.value.showId, currentEpisode.value.season).value
    {
      if currentEpisode.None? then None
      else
        var ep := currentEpisode.value;
        match registry.Lookup(ep.showId, ep.season)
        case None => None
        case Some(list) => NextTarget(list, ep.episodeNumber)
    }

    /** The episode prevEpisode would play, if any. */
    function PrevCandidate(): (r: Option<Episode>)
      reads this, registry
      ensures currentEpisode.None? ==> r.None?
      ensures currentEpisode.Some? && registry.Lookup(currentEpisode.value.showId, currentEpisode.value.season).None? ==> r.None?
      ensures r.Some? ==> r.value in registry.Lookup(currentEpisode.value.showId, currentEpisode.value.season).value
    {
      if currentEpisode.None? then None
      else
        var ep := currentEpisode.value;
        match registry.Lookup(ep.showId, ep.season)
        case None => None
        case Some(list) => PrevTarget(list, ep.episodeNumber)
    }

    /** `nextEpisode()`: plays the neighbour after the current episode in the list
        registered for its show and season; a no-op when there is none. */
    method NextEpisode()
      requires Valid()
      modifies this, audio, storage
      ensures Valid()
      ensures old(NextCandidate()).None? ==> unchanged(this, audio, storage)
      ensures old(NextCandidate()).Some? ==>
        && Started(old(NextCandidate()).value)
        && isPlaying == old(isPlaying) && progress == old(progress) && duration == old(duration)
        && pendingPlays == old(pendingPlays) + 1
    {
      if currentEpisode.None? {
        return;
      }
      var ep := currentEpisode.value;
      var list := registry.Lookup(ep.showId, ep.season);
      if list.None? {
        return;
      }
      var next := NextTarget(list.value, ep.episodeNumber);
      if next.Some? {
        PlayEpisode(next.value);
      }
    }

    /** `prevEpisode()`: plays the neighbour before the current episode; a no-op at
        the first position, when the episode is not in the list, or when no list is registered. */
    method PrevEpisode()
      requires Valid()
      modifies this, audio, storage
      ensures Valid()
      ensures old(PrevCandidate()).None? ==> unchanged(this, audio, storage)
      ensures old(PrevCandidate()).Some? ==>
        && Started(old(PrevCandidate()).value)
        && isPlaying == old(isPlaying) && progress == old(progress) && duration == old(duration)
        && pendingPlays == old(pendingPlays) + 1
    {
      if currentEpisode.None? {
        return;
      }
      var ep := currentEpisode.value;
      var list := registry.Lookup(ep.showId, ep.season);
      if list.None? {
        return;
      }
      var prev := PrevTarget(list.value, ep.episodeNumber);
      if prev.Some? {
        PlayEpisode(prev.value);
      }
    }
  }

  // ---------------------------------------------------------------------------
  // Scenarios on a freshly mounted provider
  // ---------------------------------------------------------------------------

  /** A freshly mounted provider with the given list registered under one show and season. */
  method MountedWith(showId: string, season: int, list: seq<Episode>) returns (player: Provider)
    ensures fresh(player) && fresh(player.audio) && fresh(player.registry) && fresh(player.storage)
    ensures player.Valid() && player.currentEpisode == None
    ensures player.registry.Lookup(showId, season) == Some(list)
  {
    var registry := new EpisodeRegistry();
    var storage := new SnapshotStore(map[]);
    player := new Provider(registry, storage);
    player.Mount();
    player.RegisterEpisodes(showId, season, list);
  }

  /** Register two episodes of show "42", season 1, play the first, then go
      next, previous and previous again: the last step is a no-op. */
  method NavigationScenario(ep1: Episode, ep2: Episode)
    returns (afterNext: Option<Episode>, afterPrev: Option<Episode>, afterSecondPrev: Option<Episode>)
    requires ep1.showId == "42" && ep1.season == 1 && ep1.episodeNumber == 1
    requires ep2.showId == "42" && ep2.season == 1 && ep2.episodeNumber == 2
    ensures afterNext == Some(ep2)
    ensures afterPrev == Some(ep1)
    ensures afterSecondPrev == Some(ep1)
  {
    var list := [ep1, ep2];
    var player := MountedWith("42", 1, list);
    player.PlayEpisode(ep1);
    NextThenPrev(list, 0);
    assert player.NextCandidate() == Some(ep2);
    player.NextEpisode();
    afterNext := player.currentEpisode;
    assert player.PrevCandidate() == Some(ep1);
    player.PrevEpisode();
    afterPrev := player.currentEpisode;
    assert IsFirstMatch(list, 1, 0);
    assert player.PrevCandidate() == None;
    player.PrevEpisode();
    afterSecondPrev := player.currentEpisode;
  }

  /** Two plays in a row, the second succeeds and then the first one's rejection
      arrives late: the episode stays the second one, but `isPlaying` ends up false
      while the handle is not paused. */
  method StaleRejectionScenario(e1: Episode, e2: Episode)
    returns (current: Option<Episode>, playing: bool, handlePaused: bool)
    ensures current == Some(e2)
    ensures !playing && !handlePaused
  {
    var registry := new EpisodeRegistry();
    var storage := new SnapshotStore(map[]);
    var player := new Provider(registry, storage);
    player.Mount();
    player.PlayEpisode(e1);
    player.PlayEpisode(e2);
    player.ResolvePlay(true, false);
    player.ResolvePlay(false, false);
    current, playing, handlePaused := player.currentEpisode, player.isPlaying, player.audio.paused;
  }

  /** The browser refuses autoplay: the play request is rejected and the handle
      stays paused, so a press of the play button resumes it and playback begins. */
  method AutoplayBlockedScenario(e: Episode) returns (playing: bool, handlePaused: bool, current: Option<Episode>)
    ensures current == Some(e)
    ensures playing && !handlePaused
  {
    var registry := new EpisodeRegistry();
    var storage := new SnapshotStore(map[]);
    var player := new Provider(registry, storage);
    player.Mount();
    player.PlayEpisode(e);
    player.ResolvePlay(false, true);
    assert !player.isPlaying && player.audio.paused;
    player.TogglePlay();
    playing, handlePaused, current := player.isPlaying, player.audio.paused, player.currentEpisode;
  }

  /** Restoring a stored snapshot `{E, 42}` gives episode E at 42 seconds, not playing,
      loaded into the handle and paused. */
  method RestoreScenario(e: Episode)
    returns (current: Option<Episode>, progress: real, playing: bool, src: string, playhead: real)
    ensures current == Some(e) && progress == 42.0 && !playing
    ensures src == e.audioUrl && playhead == 42.0
  {
    var registry := new EpisodeRegistry();
    var storage := new SnapshotStore(map[PLAYER_KEY := Snapshot(Some(e), Some(42.0))]);
    var player := new Provider(registry, storage);
    player.Mount();
    current, progress, playing := player.currentEpisode, player.progress, player.isPlaying;
    src, playhead := player.audio.src, player.audio.currentTime;
  }

  /** Toggling twice from a paused handle returns to paused and not playing. */
  method TogglePlayTwice(player: Provider)
    requires player.Valid() && player.audio.paused
    modifies player, player.audio
    ensures player.audio.paused && !player.isPlaying
  {
    player.TogglePlay();
    player.TogglePlay();
  }
}
