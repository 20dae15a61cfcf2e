/** The earlier radio engine of `frontend/src/App.jsx`: `groupSongs`, a
    `SongPlayer` that runs its own one-second interval, and the selection
    step of `handleGroupButtonClick`, taken out of the React component (the
    player list and the selected index are passed in and returned instead of
    living in component state).

    The module-level `playSong` is the `Gateway` passed to the methods that
    call it; a firing of a player's interval is the explicit step `Tick`. */
module AppVariant {
  import opened RadioTypes
  import opened Chunking
  import opened Playback

  /** `groupSongs(songs, groupSize)`: consecutive slices of `groupSize`
      songs. A `groupSize` below 1 makes the source loop forever, so it is
      excluded. */
  method GroupSongs(songs: seq<Song>, groupSize: int) returns (groups: seq<seq<Song>>)
    requires groupSize >= 1
    ensures groups == Chunks(songs, groupSize)
  {
    groups := [];
    var i := 0;
    while i < |songs|
      invariant 0 <= i
      invariant Chunks(songs, groupSize) == groups + Chunks(songs[Min(i, |songs|)..], groupSize)
    {
      ghost var before, from := groups, i;
      groups := groups + [Slice(songs, i, i + groupSize)];
      i := i + groupSize;
      ChunksLoopStep(songs, groupSize, before, from, groups, i);
    }
    assert songs[Min(i, |songs|)..] == [];
  }

  /** The remote playback endpoint behind `playSong`; only the requests are
      recorded. */
  class Gateway {
    var requests: seq<PlayRequest>

    constructor ()
      ensures requests == []
    {
      requests := [];
    }

    method PlaySong(uri: string, offset: int)
      modifies this
      ensures requests == old(requests) + [PlayRequest(uri, offset)]
    {
      requests := requests + [PlayRequest(uri, offset)];
    }
  }

  class SongPlayer {
    const songs: seq<Song>
    const groupIndex: nat
    var currentSongIndex: nat
    var currentTime: nat
    var isPlaying: bool
    var isSelected: bool
    var currentSong: Option<Song>
    /** `this.interval` names a live timer. */
    var interval: bool
    /** Live timers of this player whose handle `this.interval` has lost. */
    var strayTimers: nat

    /** A live timer reads `this.currentSong`, which is then set. */
    ghost predicate Valid()
      reads this
    {
      (interval || strayTimers > 0) ==> currentSong.Some?
    }

    function Progress(): PlayerState
      reads this
    {
      PlayerState(currentSongIndex, currentTime, isPlaying)
    }

    /** Everything but the selection flag. */
    function Timers(): (bool, nat, Option<Song>)
      reads this
    {
      (interval, strayTimers, currentSong)
    }

    constructor (songs: seq<Song>, groupIndex: nat, isSelected: bool)
      ensures this.songs == songs && this.groupIndex == groupIndex && this.isSelected == isSelected
      ensures Progress() == Initial && Timers() == (false, 0, None)
      ensures Valid()
    {
      this.songs := songs;
      this.groupIndex := groupIndex;
      this.isSelected := isSelected;
      currentSongIndex := 0;
      currentTime := 0;
      isPlaying := false;
      currentSong := None;
      interval := false;
      strayTimers := 0;
    }

    /** `start()`: nothing for an empty group; otherwise the player is
        playing and its current song starts counting. */
    method Start()
      requires Valid()
      modifies this`isPlaying, this`currentSong, this`interval, this`strayTimers
      ensures Valid()
      ensures |songs| == 0 ==> Progress() == old(Progress()) && Timers() == old(Timers())
      ensures |songs| > 0 ==>
        && Progress() == old(Progress()).(isPlaying := true)
        && Timers() == old(PlayCurrentSongTimers())
    {
      if |songs| == 0 {
        return;
      }
      isPlaying := true;
      PlayCurrentSong();
    }

    /** What `playCurrentSong()` leaves in the timer fields: past the last
        song nothing; otherwise the current song is set and a new timer is
        live, the handle of an older live one being lost. */
    function PlayCurrentSongTimers(): (bool, nat, Option<Song>)
      reads this
    {
      if currentSongIndex >= |songs| then Timers()
      else (true, if interval then strayTimers + 1 else strayTimers, Some(songs[currentSongIndex]))
    }

    /** `playCurrentSong()`: nothing when the index is past the last song;
        otherwise sets `currentSong` and starts a one-second interval. */
    method PlayCurrentSong()
      requires Valid()
      modifies this`currentSong, this`interval, this`strayTimers
      ensures Valid()
      ensures Timers() == old(PlayCurrentSongTimers())
      ensures currentSongIndex < |songs| ==> currentSong == Some(songs[currentSongIndex]) && interval
    {
      if currentSongIndex >= |songs| {
        return;
      }
      currentSong := Some(songs[currentSongIndex]);
      if interval {
        strayTimers := strayTimers + 1;
      }
      interval := true;
    }

    /** One firing of a live interval: a second passes; when the time
        reaches the current song's duration, `nextSong()` runs. */
    method Tick(gw: Gateway)
      requires Valid() && (interval || strayTimers > 0)
      modifies this`currentSongIndex, this`currentTime, this`isPlaying, this`currentSong, this`interval, this`strayTimers, gw
      ensures Valid()
      ensures
        var now := old(currentTime) + 1;
        if ReachedEnd(now, old(currentSong).value.durationMs) then
          && Progress() == Advance(songs, old(Progress()))
          && gw.requests == old(gw.requests) + AdvanceRequests(songs, old(Progress()), isSelected)
          && strayTimers == old(strayTimers) && (interval <==> currentSongIndex < |songs|)
          && currentSong == if currentSongIndex < |songs| then Some(songs[currentSongIndex]) else old(currentSong)
        else
          && Progress() == old(Progress()).(currentTime := now)
          && Timers() == old(Timers()) && gw.requests == old(gw.requests)
    {
      currentTime := currentTime + 1;
      if ReachedEnd(currentTime, currentSong.value.durationMs) {
        NextSong(gw);
      }
    }

    /** `nextSong()`: clears the interval, moves to the next song at time 0;
        in range the new song starts counting and, if selected, is requested
        from its start; past the end the player stops and requests nothing. */
    method NextSong(gw: Gateway)
      requires Valid()
      modifies this`currentSongIndex, this`currentTime, this`isPlaying, this`currentSong, this`interval, this`strayTimers, gw
      ensures Valid()
      ensures Progress() == Advance(songs, old(Progress()))
      ensures gw.requests == old(gw.requests) + AdvanceRequests(songs, old(Progress()), isSelected)
      ensures strayTimers == old(strayTimers)
      ensures interval <==> currentSongIndex < |songs|
      ensures currentSong == if currentSongIndex < |songs| then Some(songs[currentSongIndex]) else old(currentSong)
    {
      interval := false;
      currentSongIndex := currentSongIndex + 1;
      currentTime := 0;
      if currentSongIndex < |songs| {
        PlayCurrentSong();
        if isSelected {
          gw.PlaySong(songs[currentSongIndex].uri, currentTime);
        }
      } else {
        isPlaying := false;
      }
    }

    /** `playFromCurrentTime()`: requests the current song at the current
        time. Its one caller checks `currentSong` first. */
    method PlayFromCurrentTime(gw: Gateway)
      requires currentSong.Some?
      modifies gw
      ensures gw.requests == old(gw.requests) + [PlayRequest(currentSong.value.uri, currentTime)]
    {
      gw.PlaySong(currentSong.value.uri, currentTime);
    }
  }

  /** A selected player with a 3-second and a 2-second song: five ticks
      play both songs to the end, and the only request is the second song
      from its start. */
  method TwoSongRun(a: string, b: string) returns (p: SongPlayer, gw: Gateway)
    ensures fresh(p) && fresh(gw) && p.Valid()
    ensures p.Progress() == PlayerState(2, 0, false) && !p.interval && p.strayTimers == 0
    ensures gw.requests == [PlayRequest(b, 0)]
  {
    gw := new Gateway();
    p := new SongPlayer([Song(a, 3000), Song(b, 2000)], 0, true);
    p.Start();
    p.Tick(gw);
    p.Tick(gw);
    p.Tick(gw);
    assert p.Progress() == PlayerState(1, 0, true) && p.currentSong == Some(Song(b, 2000));
    p.Tick(gw);
    p.Tick(gw);
  }

  /** `handleGroupButtonClick(index)`: records `index` as the selected group,
      clears every player's flag and sets the flag of player `index`, which
      then continues its current song remotely if it has one. With no player
      at `index` the flags are all cleared and setting the missing player's
      flag throws. */
  method HandleGroupButtonClick(songPlayers: seq<SongPlayer>, index: int, gw: Gateway)
    returns (selectedGroupIndex: int, outcome: Outcome)
    requires forall j, k :: 0 <= j < k < |songPlayers| ==> songPlayers[j] != songPlayers[k]
    modifies songPlayers, gw
    ensures selectedGroupIndex == index
    ensures forall k :: 0 <= k < |songPlayers| ==>
      songPlayers[k].isSelected == (k == index)
      && songPlayers[k].Progress() == old(songPlayers[k].Progress())
      && songPlayers[k].Timers() == old(songPlayers[k].Timers())
    ensures 0 <= index < |songPlayers| ==>
      var p := songPlayers[index];
      && outcome == Done
      && gw.requests == old(gw.requests) + (if p.currentSong.Some? then [PlayRequest(p.currentSong.value.uri, p.currentTime)] else [])
    ensures !(0 <= index < |songPlayers|) ==> outcome == TypeError && gw.requests == old(gw.requests)
  {
    selectedGroupIndex := index;
    var k := 0;
    while k < |songPlayers|
      invariant 0 <= k <= |songPlayers|
      invariant forall j :: 0 <= j < k ==> !songPlayers[j].isSelected
      invariant forall j :: 0 <= j < |songPlayers| ==>
        songPlayers[j].Progress() == old(songPlayers[j].Progress())
        && songPlayers[j].Timers() == old(songPlayers[j].Timers())
      invariant gw.requests == old(gw.requests)
    {
      songPlayers[k].isSelected := false;
      k := k + 1;
    }
    if !(0 <= index < |songPlayers|) {
      return selectedGroupIndex, TypeError;
    }
    var player := songPlayers[index];
    player.isSelected := true;
    if player.currentSong.Some? {
      player.PlayFromCurrentTime(gw);
    }
    outcome := Done;
  }
}
