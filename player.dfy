/** The radio engine of `frontend/src/player.js`: a `SongHandler` that
    shuffles the liked songs, cuts them into groups and owns one
    `SongPlayer` per group, and players that advance through their group
    when the timer worker reports a finished song.

    Outside effects are recorded instead of performed: every
    `worker.postMessage` appends its command to `SongHandler.posted`, and every
    `playSong(uri, offset)` appends a request to `SongHandler.requests`. */
module Player {
  import opened RadioTypes
  import opened Chunking
  import opened Shuffling
  import opened Playback

  /** The `SIMULATE_SONG` message `simulateCurrentSong` posts from state
      `st`: none when the current index is out of range. */
  function SimulationOf(songs: seq<Song>, playerIndex: nat, st: PlayerState): (r: seq<Command>)
    ensures |r| <= 1
    ensures |r| == 1 <==> st.currentSongIndex < |songs|
    ensures |r| == 1 ==>
      r[0] == SimulateSong(playerIndex, songs[st.currentSongIndex].durationMs, st.currentTime)
  {
    if st.currentSongIndex < |songs|
    then [SimulateSong(playerIndex, songs[st.currentSongIndex].durationMs, st.currentTime)]
    else []
  }

  /** The commands `startAllSongPlayers` posts for its first `n` players:
      one `SIMULATE_SONG` per non-empty player whose index is in range, in
      player order, from the states `states` the players had. */
  function StartCommands(ps: seq<SongPlayer>, states: seq<PlayerState>, n: nat): (r: seq<Command>)
    requires n <= |ps| == |states|
    ensures |r| <= n
    ensures forall a :: 0 <= a < |r| ==> r[a].SimulateSong?
    decreases n
  {
    if n == 0 then []
    else
      StartCommands(ps, states, n - 1)
        + (if |ps[n - 1].songs| > 0 then SimulationOf(ps[n - 1].songs, ps[n - 1].playerIndex, states[n - 1]) else [])
  }

  /** With the players numbered by position, the start commands name the
      first `n` players, each at most once and in increasing order. */
  lemma {:induction false} StartCommandsInOrder(ps: seq<SongPlayer>, states: seq<PlayerState>, n: nat)
    requires n <= |ps| == |states|
    requires forall j :: 0 <= j < n ==> ps[j].playerIndex == j
    ensures forall a :: 0 <= a < |StartCommands(ps, states, n)| ==>
      0 <= StartCommands(ps, states, n)[a].playerIndex < n
    ensures forall a, b :: 0 <= a < b < |StartCommands(ps, states, n)| ==>
      StartCommands(ps, states, n)[a].playerIndex < StartCommands(ps, states, n)[b].playerIndex
    decreases n
  {
    if n > 0 {
      StartCommandsInOrder(ps, states, n - 1);
    }
  }

  /** The state of player `p`, which had state `s`, once `start()` has run:
      a player with songs is playing, an empty one keeps its flag, and its
      position and time do not change. */
  function Started(s: PlayerState, p: SongPlayer): (r: PlayerState)
    ensures r.currentSongIndex == s.currentSongIndex && r.currentTime == s.currentTime
    ensures |p.songs| > 0 ==> r.isPlaying
    ensures |p.songs| == 0 ==> r.isPlaying == s.isPlaying
  {
    s.(isPlaying := s.isPlaying || |p.songs| > 0)
  }

  /** The states of the players `ps`, in order. */
  function StatesOf(ps: seq<SongPlayer>): (r: seq<PlayerState>)
    reads set p | p in ps
    ensures |r| == |ps|
    ensures forall k :: 0 <= k < |r| ==> r[k] == ps[k].State()
    decreases |ps|
  {
    if |ps| == 0 then [] else StatesOf(ps[..|ps| - 1]) + [ps[|ps| - 1].State()]
  }

  class SongHandler {
    /** The liked songs; `createSongPlayers` shuffles this very array. */
    const songs: array<Song>
    var curSelectedPlayer: int
    var songPlayers: seq<SongPlayer>
    /** Commands posted to the timer worker, oldest first. */
    var posted: seq<Command>
    /** Playback requests issued through `playSong`, oldest first. */
    var requests: seq<PlayRequest>

    /** Players know this handler and are numbered by their position. */
    ghost predicate Valid()
      reads this
    {
      forall k :: 0 <= k < |songPlayers| ==>
        songPlayers[k].playerIndex == k && songPlayers[k].handler == this
    }

    /** The players' states, in order. */
    function States(): (r: seq<PlayerState>)
      reads this, songPlayers
      ensures |r| == |songPlayers|
      ensures forall k :: 0 <= k < |r| ==> r[k] == songPlayers[k].State()
    {
      StatesOf(songPlayers)
    }

    constructor (songs: array<Song>)
      ensures this.songs == songs
      ensures curSelectedPlayer == 0 && songPlayers == []
      ensures posted == [] && requests == []
      ensures Valid()
    {
      this.songs := songs;
      curSelectedPlayer := 0;
      songPlayers := [];
      posted := [];
      requests := [];
    }

    /** `this.worker.postMessage(cmd)`. */
    method PostMessage(cmd: Command)
      modifies this`posted
      ensures posted == old(posted) + [cmd]
    {
      posted := posted + [cmd];
    }

    /** `playSong(uri, offset)`; the device check and the HTTP call are not
        part of this model, only the request itself. */
    method PlaySong(uri: string, offset: int)
      modifies this`requests
      ensures requests == old(requests) + [PlayRequest(uri, offset)]
    {
      requests := requests + [PlayRequest(uri, offset)];
    }

    /** `getCurrentPlayerIndex()`: the current selection. */
    function GetCurrentPlayerIndex(): (r: int)
      reads this
      ensures r == curSelectedPlayer
    {
      curSelectedPlayer
    }

    /** `this.songPlayers.find(p => p.playerIndex === i)`: the first player
        with that index, or `null`. */
    method FindPlayer(i: int) returns (p: SongPlayer?)
      ensures p == null <==> forall k :: 0 <= k < |songPlayers| ==> songPlayers[k].playerIndex != i
      ensures p != null ==>
        exists k :: 0 <= k < |songPlayers| && songPlayers[k] == p && p.playerIndex == i
          && forall j :: 0 <= j < k ==> songPlayers[j].playerIndex != i
      ensures Valid() ==> p == if 0 <= i < |songPlayers| then songPlayers[i] else null
    {
      var k := 0;
      while k < |songPlayers|
        invariant 0 <= k <= |songPlayers|
        invariant forall j :: 0 <= j < k ==> songPlayers[j].playerIndex != i
      {
        if songPlayers[k].playerIndex == i {
          return songPlayers[k];
        }
        k := k + 1;
      }
      return null;
    }

    /** In-place Fisher–Yates: on each pass the draw `rolls[pass]` picks a
        cell among the unshuffled prefix and swaps it with the prefix's last
        cell. Returns the same array. */
    method ShuffleArray(a: array<Song>, rolls: seq<nat>) returns (r: array<Song>)
      requires ValidRolls(rolls, a.Length)
      modifies a
      ensures r == a
      ensures a[..] == Shuffled(old(a[..]), rolls)
    {
      var currentIndex := a.Length;
      while currentIndex != 0
        invariant 0 <= currentIndex <= a.Length
        invariant ShuffleFrom(a[..], rolls, currentIndex) == Shuffled(old(a[..]), rolls)
      {
        var randomIndex := rolls[a.Length - currentIndex];
        currentIndex := currentIndex - 1;
        ghost var before := a[..];
        var x, y := a[randomIndex], a[currentIndex];
        a[currentIndex] := x;
        a[randomIndex] := y;
        assert a[..] == Swap(before, currentIndex, randomIndex);
      }
      return a;
    }

    /** Drops the old players, shuffles `songs` in place and creates one
        fresh player per consecutive group of `groupSize` shuffled songs,
        numbered from 0. A `groupSize` below 1 makes the source loop forever,
        so it is excluded. */
    method CreateSongPlayers(groupSize: int, rolls: seq<nat>)
      requires groupSize >= 1
      requires ValidRolls(rolls, songs.Length)
      modifies this`songPlayers, songs
      ensures Valid()
      ensures songs[..] == Shuffled(old(songs[..]), rolls)
      ensures |songPlayers| == |Chunks(songs[..], groupSize)|
      ensures forall k :: 0 <= k < |songPlayers| ==>
        fresh(songPlayers[k]) && songPlayers[k].songs == Chunks(songs[..], groupSize)[k]
        && songPlayers[k].State() == Initial
    {
      songPlayers := [];
      var shuffledSongs := ShuffleArray(songs, rolls);
      var startIndex := 0;
      var endIndex := startIndex + groupSize;
      var playerIndex := 0;
      ghost var s := songs[..];
      ghost var done: seq<seq<Song>> := [];
      while startIndex < shuffledSongs.Length
        modifies this`songPlayers
        invariant shuffledSongs == songs && songs[..] == s
        invariant 0 <= startIndex && endIndex == startIndex + groupSize
        invariant playerIndex == |songPlayers| == |done|
        invariant Chunks(s, groupSize) == done + Chunks(s[Min(startIndex, |s|)..], groupSize)
        invariant forall k :: 0 <= k < |songPlayers| ==>
          fresh(songPlayers[k]) && songPlayers[k].songs == done[k]
          && songPlayers[k].playerIndex == k && songPlayers[k].handler == this
          && songPlayers[k].State() == Initial
      {
        var songGroup := Slice(shuffledSongs[..], startIndex, endIndex);
        assert songGroup == Slice(s, startIndex, startIndex + groupSize);
        var _ := AddPlayer(songGroup, playerIndex);
        ghost var before, from := done, startIndex;
        done := done + [songGroup];
        playerIndex := playerIndex + 1;
        startIndex := startIndex + groupSize;
        endIndex := endIndex + groupSize;
        ChunksLoopStep(s, groupSize, before, from, done, startIndex);
      }
      assert s[Min(startIndex, |s|)..] == [];
    }

    /** `this.songPlayers.push(new SongPlayer(songGroup, playerIndex, this))`. */
    method AddPlayer(songGroup: seq<Song>, playerIndex: nat) returns (p: SongPlayer)
      modifies this`songPlayers
      ensures songPlayers == old(songPlayers) + [p]
      ensures fresh(p) && p.songs == songGroup && p.playerIndex == playerIndex && p.handler == this && p.State() == Initial
    {
      p := new SongPlayer(songGroup, playerIndex, this);
      songPlayers := songPlayers + [p];
    }

    /** Calls `start()` on every player, in order. */
    method StartAllSongPlayers()
      requires Valid()
      modifies this`posted, songPlayers
      ensures posted == old(posted) + StartCommands(songPlayers, old(States()), |songPlayers|)
      ensures forall k :: 0 <= k < |songPlayers| ==>
        songPlayers[k].State() == old(songPlayers[k].State()).(isPlaying := old(songPlayers[k].isPlaying) || |songPlayers[k].songs| > 0)
      ensures Valid()
    {
      ghost var before := States();
      var ps := songPlayers;
      assert forall j :: 0 <= j < |ps| ==> ps[j].playerIndex == j && ps[j].handler == this;
      var k := 0;
      while k < |ps|
        invariant 0 <= k <= |ps| && ps == songPlayers
        invariant posted == old(posted) + StartCommands(ps, before, k)
        invariant forall j :: 0 <= j < |ps| ==>
          ps[j].State() == if j < k then Started(before[j], ps[j]) else before[j]
      {
        StartNext(old(posted), before, k);
        k := k + 1;
      }
    }

    /** One pass of the `forEach` in `startAllSongPlayers`: starts player
        `k` once players `0` to `k - 1` have been started. */
    method StartNext(ghost base: seq<Command>, ghost before: seq<PlayerState>, k: nat)
      requires Valid() && k < |songPlayers| == |before|
      requires posted == base + StartCommands(songPlayers, before, k)
      requires forall j :: 0 <= j < |songPlayers| ==>
        songPlayers[j].State() == if j < k then Started(before[j], songPlayers[j]) else before[j]
      modifies this`posted, (songPlayers[k] as SongPlayer)`isPlaying
      ensures posted == base + StartCommands(songPlayers, before, k + 1)
      ensures forall j :: 0 <= j < |songPlayers| ==>
        songPlayers[j].State() == if j < k + 1 then Started(before[j], songPlayers[j]) else before[j]
    {
      var p := songPlayers[k];
      ghost var sent := StartCommands(songPlayers, before, k);
      ghost var cmds := if |p.songs| > 0 then SimulationOf(p.songs, p.playerIndex, before[k]) else [];
      label Before:
      p.Start();
      forall j | 0 <= j < |songPlayers| && j != k
        ensures songPlayers[j].State() == old@Before(songPlayers[j].State())
      {
        assert songPlayers[j].playerIndex != p.playerIndex;
      }
      assert (base + sent) + cmds == base + (sent + cmds);
    }

    /** Selects player `i` (even when there is none) and, when it exists,
        asks the remote player to continue its current song from its
        current time. A selected player past its last song throws. */
    method SelectPlayer(i: int) returns (outcome: Outcome)
      requires Valid()
      modifies this`curSelectedPlayer, this`requests
      ensures Valid()
      ensures curSelectedPlayer == i
      ensures if 0 <= i < |songPlayers| && songPlayers[i].currentSongIndex < |songPlayers[i].songs| then
          var p := songPlayers[i];
          outcome == Done && requests == old(requests) + [PlayRequest(p.songs[p.currentSongIndex].uri, p.currentTime)]
        else
          requests == old(requests) && (outcome == TypeError <==> 0 <= i < |songPlayers|)
    {
      curSelectedPlayer := i;
      var selectedPlayer := FindPlayer(i);
      if selectedPlayer != null {
        outcome := selectedPlayer.PlayFromCurrentTime();
      } else {
        outcome := Done;
      }
    }

    /** The worker's `onmessage` handler: routes an event to the player with
        the event's index; other players and unknown indices are untouched. */
    method Dispatch(ev: Event)
      requires Valid()
      modifies this`posted, this`requests, songPlayers
      ensures Valid()
      ensures forall k :: 0 <= k < |songPlayers| && k != ev.playerIndex ==>
        songPlayers[k].State() == old(songPlayers[k].State())
      ensures !(0 <= ev.playerIndex < |songPlayers|) || ev.TimeUpdate? ==>
        posted == old(posted) && requests == old(requests)
      ensures 0 <= ev.playerIndex < |songPlayers| ==>
        var p := songPlayers[ev.playerIndex];
        match ev
        case TimeUpdate(_, t) =>
          p.State() == old(p.State()).(currentTime := t)
        case SongFinished(_, _) =>
          && p.State() == Advance(p.songs, old(p.State()))
          && posted == old(posted) + SimulationOf(p.songs, p.playerIndex, p.State())
          && requests == old(requests) + AdvanceRequests(p.songs, old(p.State()), ev.playerIndex == curSelectedPlayer)
    {
      match ev {
        case TimeUpdate(i, t) =>
          var player := FindPlayer(i);
          if player != null {
            player.currentTime := t;
          }
        case SongFinished(i, _) =>
          var finishedPlayer := FindPlayer(i);
          if finishedPlayer != null {
            finishedPlayer.NextSong();
          }
      }
    }
  }

  class SongPlayer {
    const handler: SongHandler
    const songs: seq<Song>
    const playerIndex: nat
    var currentSongIndex: nat
    var currentTime: nat
    var isPlaying: bool

    constructor (songs: seq<Song>, playerIndex: nat, handler: SongHandler)
      ensures this.songs == songs && this.playerIndex == playerIndex && this.handler == handler
      ensures State() == Initial
    {
      this.handler := handler;
      this.songs := songs;
      this.playerIndex := playerIndex;
      currentSongIndex := 0;
      currentTime := 0;
      isPlaying := false;
    }

    function State(): PlayerState
      reads this
    {
      PlayerState(currentSongIndex, currentTime, isPlaying)
    }

    /** `isInRange(index)`: the group is non-empty and `0 <= index <= len - 1`,
        that is, `index` is a valid position in the group. */
    predicate IsInRange(index: int)
      ensures IsInRange(index) <==> 0 <= index < |songs|
    {
      if |songs| == 0 then false else index <= |songs| - 1 && index >= 0
    }

    /** `currentSong()`: `null` exactly when the index is out of range,
        otherwise the song at the index; it never reads out of bounds. */
    function CurrentSong(): (r: Option<Song>)
      reads this
      ensures r == None <==> currentSongIndex >= |songs|
      ensures r != None ==> r.value == songs[currentSongIndex]
    {
      if IsInRange(currentSongIndex) then Some(songs[currentSongIndex]) else None
    }

    /** `isSelected()`: this player's index is the handler's selection. */
    predicate IsSelected()
      reads handler
      ensures IsSelected() <==> playerIndex == handler.curSelectedPlayer
    {
      playerIndex == handler.GetCurrentPlayerIndex()
    }

    /** `start()`: nothing for an empty group; otherwise marks the player as
        playing and asks the worker to simulate the current song. */
    method Start()
      modifies this`isPlaying, handler`posted
      ensures State() == old(State()).(isPlaying := old(isPlaying) || |songs| > 0)
      ensures handler.posted == old(handler.posted) + (if |songs| > 0 then SimulationOf(songs, playerIndex, old(State())) else [])
    {
      if |songs| == 0 {
        return;
      }
      isPlaying := true;
      SimulateCurrentSong();
    }

    /** `simulateCurrentSong()`: posts `SIMULATE_SONG` with the player's
        index, the current song's duration and the current time, unless the
        index is out of range. */
    method SimulateCurrentSong()
      modifies handler`posted
      ensures handler.posted == old(handler.posted) + SimulationOf(songs, playerIndex, State())
    {
      if !IsInRange(currentSongIndex) {
        return;
      }
      var currentSong := CurrentSong();
      handler.PostMessage(SimulateSong(playerIndex, currentSong.value.durationMs, currentTime));
    }

    /** `nextSong()`: moves to the next song at time 0. In range, the worker
        simulates it and, if this player is selected, the remote player is
        asked to play it from the start; past the end the player stops. */
    method NextSong()
      modifies this`currentSongIndex, this`currentTime, this`isPlaying, handler`posted, handler`requests
      ensures State() == Advance(songs, old(State()))
      ensures handler.posted == old(handler.posted) + SimulationOf(songs, playerIndex, State())
      ensures handler.requests == old(handler.requests) + AdvanceRequests(songs, old(State()), IsSelected())
    {
      currentSongIndex := currentSongIndex + 1;
      currentTime := 0;
      if IsInRange(currentSongIndex) {
        SimulateCurrentSong();
        if IsSelected() {
          var _ := PlayFromCurrentTime();
        }
      } else {
        isPlaying := false;
      }
    }

    /** `playFromCurrentTime()`: requests the current song at the current
        time; with no current song it throws before any request. */
    method PlayFromCurrentTime() returns (outcome: Outcome)
      modifies handler`requests
      ensures currentSongIndex < |songs| ==>
        outcome == Done && handler.requests == old(handler.requests) + [PlayRequest(songs[currentSongIndex].uri, currentTime)]
      ensures currentSongIndex >= |songs| ==>
        outcome == TypeError && handler.requests == old(handler.requests)
    {
      var song := CurrentSong();
      if song == None {
        return TypeError;
      }
      handler.PlaySong(song.value.uri, currentTime);
      return Done;
    }
  }
}
