/** The per-group progress shared by both `SongPlayer` variants
    (`frontend/src/player.js` and `frontend/src/App.jsx`): how `nextSong`
    moves a player on, and which playback requests it issues. */
module Playback {
  import opened RadioTypes

  /** The mutable part of a player. */
  datatype PlayerState = PlayerState(currentSongIndex: nat, currentTime: nat, isPlaying: bool)

  const Initial := PlayerState(0, 0, false)

  /** The state `nextSong` leaves behind: the next song from its start,
      still playing only while a song remains. */
  function Advance(songs: seq<Song>, st: PlayerState): (r: PlayerState)
    ensures r.currentSongIndex == st.currentSongIndex + 1 && r.currentTime == 0
    ensures r.isPlaying <==> st.isPlaying && r.currentSongIndex < |songs|
  {
    var i := st.currentSongIndex + 1;
    PlayerState(i, 0, if i < |songs| then st.isPlaying else false)
  }

  /** The playback requests `nextSong` issues: the new song from its start,
      only when it exists and the player is the selected one. */
  function AdvanceRequests(songs: seq<Song>, st: PlayerState, selected: bool): (r: seq<PlayRequest>)
    ensures |r| <= 1
    ensures |r| == 1 <==> selected && st.currentSongIndex + 1 < |songs|
    ensures |r| == 1 ==> r[0] == PlayRequest(songs[st.currentSongIndex + 1].uri, 0)
  {
    var i := st.currentSongIndex + 1;
    if i < |songs| && selected then [PlayRequest(songs[i].uri, 0)] else []
  }

  /** `k` consecutive calls of `nextSong`, and the requests they issue while
      the selection does not change. */
  function AdvanceTimes(songs: seq<Song>, st: PlayerState, k: nat): PlayerState
    decreases k
  {
    if k == 0 then st else AdvanceTimes(songs, Advance(songs, st), k - 1)
  }

  function RequestsOver(songs: seq<Song>, st: PlayerState, k: nat, selected: bool): seq<PlayRequest>
    decreases k
  {
    if k == 0 then []
    else AdvanceRequests(songs, st, selected) + RequestsOver(songs, Advance(songs, st), k - 1, selected)
  }

  /** Each song of `songs` requested from its start, in order. */
  function FromStart(songs: seq<Song>): (r: seq<PlayRequest>)
    ensures |r| == |songs|
    ensures forall k :: 0 <= k < |r| ==> r[k] == PlayRequest(songs[k].uri, 0)
  {
    if |songs| == 0 then [] else [PlayRequest(songs[0].uri, 0)] + FromStart(songs[1..])
  }

  /** A player on song `j` that keeps receiving `SONG_FINISHED` stops after
      the rest of its group: `|songs| - j` advances leave it past the last
      song, stopped, and a selected player has requested every later song of
      its group from its start, once each and in order. */
  lemma {:induction false} RunToEnd(songs: seq<Song>, st: PlayerState)
    requires st.currentSongIndex < |songs|
    ensures AdvanceTimes(songs, st, |songs| - st.currentSongIndex) == PlayerState(|songs|, 0, false)
    ensures RequestsOver(songs, st, |songs| - st.currentSongIndex, true) == FromStart(songs[st.currentSongIndex + 1..])
    ensures RequestsOver(songs, st, |songs| - st.currentSongIndex, false) == []
    decreases |songs| - st.currentSongIndex
  {
    var j := st.currentSongIndex;
    var next := Advance(songs, st);
    var n := |songs| - j;
    assert AdvanceTimes(songs, st, n) == AdvanceTimes(songs, next, n - 1);
    assert RequestsOver(songs, st, n, true) == AdvanceRequests(songs, st, true) + RequestsOver(songs, next, n - 1, true);
    assert RequestsOver(songs, st, n, false) == RequestsOver(songs, next, n - 1, false);
    if j + 1 < |songs| {
      RunToEnd(songs, next);
      assert FromStart(songs[j + 1..]) == [PlayRequest(songs[j + 1].uri, 0)] + FromStart(songs[j + 2..]) by {
        assert songs[j + 1..][1..] == songs[j + 2..];
      }
    } else {
      assert RequestsOver(songs, next, 0, true) == [];
    }
  }

  /** Once past the last song a player stays stopped and silent: further
      advances keep it past the end, not playing, and issue no request. */
  lemma {:induction false} TerminalIsAbsorbing(songs: seq<Song>, st: PlayerState, k: nat, selected: bool)
    requires st.currentSongIndex >= |songs| && !st.isPlaying
    ensures AdvanceTimes(songs, st, k).currentSongIndex == st.currentSongIndex + k
    ensures !AdvanceTimes(songs, st, k).isPlaying
    ensures RequestsOver(songs, st, k, selected) == []
    decreases k
  {
    if k > 0 {
      TerminalIsAbsorbing(songs, Advance(songs, st), k - 1, selected);
    }
  }

}
