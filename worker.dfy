/** The timer worker of `frontend/public/web-worker.js`: a map from player
    index to a record `{currentTime, songDuration, isPlaying, timer}` and one
    `setInterval` timer per simulated song that counts seconds and reports
    `TIME_UPDATE` or `SONG_FINISHED` to the main thread.

    Records are objects in the source and a timer's callback keeps the record
    it was started for even after the map has moved on, so records are
    modelled by identity: `entries` holds every record ever made under its
    `EntryId`, `players` maps an index to the id of its current record, and
    each live timer in `intervals` names the record its callback closes over.
    A timer firing is the explicit step `Tick`; posted events go to `outbox`. */
module WebWorker {
  import opened RadioTypes

  type EntryId = nat
  type TimerId = nat

  /** The per-player record; `songDuration` is in milliseconds. */
  datatype Entry = Entry(currentTime: nat, songDuration: nat, isPlaying: bool, timer: Option<TimerId>)

  /** A live interval timer: the index its callback reports and the record
      it counts on. */
  datatype Interval = Interval(playerIndex: int, entry: EntryId)

  /** The records after setting `isPlaying := b` on index `i`'s current
      record; unchanged when `i` has none. */
  function SetPlaying(entries: map<EntryId, Entry>, players: map<int, EntryId>, i: int, b: bool): map<EntryId, Entry>
    requires i in players ==> players[i] in entries
  {
    if i in players then entries[players[i] := entries[players[i]].(isPlaying := b)] else entries
  }

  class SimulationWorker {
    var players: map<int, EntryId>
    var entries: map<EntryId, Entry>
    var intervals: map<TimerId, Interval>
    var nextEntry: EntryId
    var nextTimer: TimerId
    /** Events posted to the main thread, oldest first. */
    var outbox: seq<Event>

    /** Every index and timer names a known record, a live timer is the one
        its record remembers, and fresh ids are unused. */
    ghost predicate Valid()
      reads this
    {
      && (forall i :: i in players ==> players[i] in entries)
      && (forall t :: t in intervals ==>
            intervals[t].entry in entries && entries[intervals[t].entry].timer == Some(t))
      && (forall e :: e in entries ==> e < nextEntry)
      && (forall t :: t in intervals ==> t < nextTimer)
      && (forall e :: e in entries && entries[e].timer.Some? ==> entries[e].timer.value < nextTimer)
    }

    /** No orphaned timer: every live timer counts on the current record of
        the index it reports. */
    ghost predicate Coherent()
      reads this
    {
      forall t :: t in intervals ==>
        intervals[t].playerIndex in players && players[intervals[t].playerIndex] == intervals[t].entry
    }

    /** The live timer of the current record of index `i`, if it has one. */
    ghost function TimerOf(i: int): set<TimerId>
      reads this
      requires Valid()
    {
      if i in players && entries[players[i]].timer.Some? then {entries[players[i]].timer.value} else {}
    }

    constructor ()
      ensures Valid() && Coherent()
      ensures players == map[] && entries == map[] && intervals == map[] && outbox == []
      ensures nextEntry == 0 && nextTimer == 0
    {
      players := map[];
      entries := map[];
      intervals := map[];
      nextEntry := 0;
      nextTimer := 0;
      outbox := [];
    }

    /** `self.onmessage`: dispatches on the command's type. Under the
        protocol of the main thread, which simulates an index only while it
        has no record, no timer is ever orphaned. */
    method OnMessage(cmd: Command)
      requires Valid()
      modifies this
      ensures Valid() && outbox == old(outbox)
      ensures match cmd
        case SimulateSong(i, durationMs, currentTime) =>
          && players == old(players)[i := old(nextEntry)]
          && entries == old(entries)[old(nextEntry) := Entry(currentTime, durationMs, true, Some(old(nextTimer)))]
          && intervals == old(intervals)[old(nextTimer) := Interval(i, old(nextEntry))]
          && nextEntry == old(nextEntry) + 1 && nextTimer == old(nextTimer) + 1
        case StopSimulation(i) =>
          && players == old(players) - {i}
          && intervals == old(intervals) - old(TimerOf(i))
          && entries == SetPlaying(old(entries), old(players), i, false)
          && nextEntry == old(nextEntry) && nextTimer == old(nextTimer)
        case PauseSimulation(i) =>
          && players == old(players) && intervals == old(intervals) && entries == SetPlaying(old(entries), players, i, false)
          && nextEntry == old(nextEntry) && nextTimer == old(nextTimer)
        case ResumeSimulation(i) =>
          && players == old(players) && intervals == old(intervals) && entries == SetPlaying(old(entries), players, i, true)
          && nextEntry == old(nextEntry) && nextTimer == old(nextTimer)
      ensures old(Coherent()) && (cmd.SimulateSong? ==> cmd.playerIndex !in old(players)) ==> Coherent()
    {
      match cmd {
        case SimulateSong(i, duration, currentTime) =>
          SimulateSong(i, duration, currentTime);
        case StopSimulation(i) =>
          StopPlayer(i);
        case PauseSimulation(i) =>
          PausePlayer(i);
        case ResumeSimulation(i) =>
          ResumePlayer(i);
      }
    }

    /** `SIMULATE_SONG`, as written: a fresh playing record replaces whatever
        index `i` had and a timer is started for it. The old record's timer,
        if any, is left running. */
    method SimulateSong(i: int, durationMs: nat, currentTime: nat)
      requires Valid()
      modifies this
      ensures Valid() && outbox == old(outbox)
      ensures players == old(players)[i := old(nextEntry)]
      ensures entries == old(entries)[old(nextEntry) := Entry(currentTime, durationMs, true, Some(old(nextTimer)))]
      ensures intervals == old(intervals)[old(nextTimer) := Interval(i, old(nextEntry))]
      ensures nextEntry == old(nextEntry) + 1 && nextTimer == old(nextTimer) + 1
      ensures old(Coherent()) && i !in old(players) ==> Coherent()
    {
      var id := nextEntry;
      nextEntry := nextEntry + 1;
      entries := entries[id := Entry(currentTime, durationMs, true, None)];
      players := players[i := id];
      ghost var before := intervals;
      assert TimerOf(i) == {};
      StartTimer(i);
      assert before - {} == before;
    }

    /** The evident intent of `SIMULATE_SONG`: the previous record of index
        `i` is stopped, its timer cleared, before the new record replaces it.
        A worker without orphaned timers keeps none, and index `i` then has
        exactly one live timer. */
    method SimulateSongCancelling(i: int, durationMs: nat, currentTime: nat)
      requires Valid()
      modifies this
      ensures Valid() && outbox == old(outbox)
      ensures players == old(players)[i := old(nextEntry)]
      ensures entries == SetPlaying(old(entries), old(players), i, false)[old(nextEntry) := Entry(currentTime, durationMs, true, Some(old(nextTimer)))]
      ensures intervals == (old(intervals) - old(TimerOf(i)))[old(nextTimer) := Interval(i, old(nextEntry))]
      ensures nextEntry == old(nextEntry) + 1 && nextTimer == old(nextTimer) + 1
      ensures old(Coherent()) ==> Coherent()
      ensures old(Coherent()) ==>
        forall t :: t in intervals && intervals[t].playerIndex == i ==> t == old(nextTimer)
    {
      StopPlayer(i);
      SimulateSong(i, durationMs, currentTime);
    }

    /** `startTimer(i)`: nothing for an absent index; otherwise clears the
        record's timer and, if the record is playing, starts a new one. */
    method StartTimer(i: int)
      requires Valid()
      modifies this
      ensures Valid()
      ensures players == old(players) && outbox == old(outbox) && nextEntry == old(nextEntry)
      ensures i !in players ==> entries == old(entries) && intervals == old(intervals) && nextTimer == old(nextTimer)
      ensures i in players ==>
        var id := players[i];
        var e := old(entries[id]);
        && intervals == (if e.isPlaying then (old(intervals) - old(TimerOf(i)))[old(nextTimer) := Interval(i, id)]
                         else old(intervals) - old(TimerOf(i)))
        && entries == old(entries)[id := if e.isPlaying then e.(timer := Some(old(nextTimer))) else e]
        && nextTimer == old(nextTimer) + (if e.isPlaying then 1 else 0)
      ensures old(Coherent()) ==> Coherent()
    {
      if i !in players {
        return;
      }
      var id := players[i];
      var player := entries[id];
      if player.timer.Some? {
        ClearInterval(player.timer.value);
      }
      if !player.isPlaying {
        return;
      }
      var t := nextTimer;
      nextTimer := nextTimer + 1;
      intervals := intervals[t := Interval(i, id)];
      entries := entries[id := player.(timer := Some(t))];
    }

    /** `clearInterval(t)`: the timer stops; an unknown timer is ignored. */
    method ClearInterval(t: TimerId)
      modifies this`intervals
      ensures intervals == old(intervals) - {t}
    {
      intervals := intervals - {t};
    }

    /** One firing of timer `t`: the record it counts on gains a second. At
        or past the duration, the current record of its index is stopped and
        `SONG_FINISHED` is posted; otherwise `TIME_UPDATE` with the new time.
        Exactly one event is posted either way. */
    method Tick(t: TimerId)
      requires Valid() && t in intervals
      modifies this
      ensures Valid()
      ensures nextEntry == old(nextEntry) && nextTimer == old(nextTimer)
      ensures
        var iv := old(intervals[t]);
        var e := old(entries[iv.entry]);
        var now := e.currentTime + 1;
        var counted := old(entries)[iv.entry := e.(currentTime := now)];
        if ReachedEnd(now, e.songDuration) then
          && outbox == old(outbox) + [SongFinished(iv.playerIndex, now)]
          && players == old(players) - {iv.playerIndex}
          && intervals == old(intervals) - old(TimerOf(iv.playerIndex))
          && entries == SetPlaying(counted, old(players), iv.playerIndex, false)
        else
          && outbox == old(outbox) + [TimeUpdate(iv.playerIndex, now)]
          && players == old(players) && intervals == old(intervals)
          && entries == counted
      ensures old(Coherent()) ==> Coherent()
      ensures old(Coherent()) && ReachedEnd(old(entries[intervals[t].entry]).currentTime + 1,
                                            old(entries[intervals[t].entry]).songDuration) ==>
        forall u :: u in intervals ==> intervals[u].playerIndex != old(intervals[t].playerIndex)
    {
      var iv := intervals[t];
      var player := entries[iv.entry];
      player := player.(currentTime := player.currentTime + 1);
      ghost var timers := TimerOf(iv.playerIndex);
      entries := entries[iv.entry := player];
      assert TimerOf(iv.playerIndex) == timers;
      if ReachedEnd(player.currentTime, player.songDuration) {
        StopPlayer(iv.playerIndex);
        outbox := outbox + [SongFinished(iv.playerIndex, player.currentTime)];
      } else {
        outbox := outbox + [TimeUpdate(iv.playerIndex, player.currentTime)];
      }
    }

    /** `stopPlayer(i)`: clears the timer of index `i`'s record, marks it not
        playing and removes the index; nothing when `i` is absent. */
    method StopPlayer(i: int)
      requires Valid()
      modifies this
      ensures Valid()
      ensures players == old(players) - {i}
      ensures intervals == old(intervals) - old(TimerOf(i))
      ensures entries == SetPlaying(old(entries), old(players), i, false)
      ensures outbox == old(outbox) && nextEntry == old(nextEntry) && nextTimer == old(nextTimer)
      ensures old(Coherent()) ==> Coherent()
      ensures old(Coherent()) ==> forall u :: u in intervals ==> intervals[u].playerIndex != i
    {
      if i !in players {
        return;
      }
      var id := players[i];
      var player := entries[id];
      if player.timer.Some? {
        ClearInterval(player.timer.value);
      }
      entries := entries[id := player.(isPlaying := false)];
      players := players - {i};
    }

    /** `pausePlayer(i)`: only the flag of an existing record changes. */
    method PausePlayer(i: int)
      requires Valid()
      modifies this`entries
      ensures Valid()
      ensures players == old(players) && intervals == old(intervals)
      ensures entries == SetPlaying(old(entries), players, i, false)
      ensures old(Coherent()) ==> Coherent()
    {
      if i in players {
        var id := players[i];
        entries := entries[id := entries[id].(isPlaying := false)];
      }
    }

    /** `resumePlayer(i)`: only the flag of an existing record changes. */
    method ResumePlayer(i: int)
      requires Valid()
      modifies this`entries
      ensures Valid()
      ensures players == old(players) && intervals == old(intervals)
      ensures entries == SetPlaying(old(entries), players, i, true)
      ensures old(Coherent()) ==> Coherent()
    {
      if i in players {
        var id := players[i];
        entries := entries[id := entries[id].(isPlaying := true)];
      }
    }
  }

  /** A fresh worker after `SIMULATE_SONG` for index 0 twice, both with a
      two-second song at time 0, as when the players are started twice. */
  method SimulatedTwice() returns (w: SimulationWorker)
    ensures fresh(w) && w.Valid()
    ensures w.players == map[0 := 1]
    ensures w.intervals == map[0 := Interval(0, 0), 1 := Interval(0, 1)]
    ensures w.entries == map[0 := Entry(0, 2000, true, Some(0)), 1 := Entry(0, 2000, true, Some(1))]
    ensures w.outbox == []
  {
    w := new SimulationWorker();
    w.OnMessage(SimulateSong(0, 2000, 0));
    w.OnMessage(SimulateSong(0, 2000, 0));
  }

  /** Two seconds later the first record's timer, which the index no longer
      names, finds the song over and stops the second record: the index is
      gone and only the orphaned timer is left. */
  method OrphanFinishesSong() returns (w: SimulationWorker)
    ensures fresh(w) && w.Valid()
    ensures w.players == map[] && w.intervals == map[0 := Interval(0, 0)]
    ensures w.entries == map[0 := Entry(2, 2000, true, Some(0)), 1 := Entry(0, 2000, false, Some(1))]
    ensures w.outbox == [TimeUpdate(0, 1), SongFinished(0, 2)]
  {
    w := OrphanCountsOneSecond();
    w.Tick(0);
  }

  /** One second after the two messages the first timer reports a time
      update for index 0, counting on the record the index no longer names. */
  method OrphanCountsOneSecond() returns (w: SimulationWorker)
    ensures fresh(w) && w.Valid()
    ensures w.players == map[0 := 1]
    ensures w.intervals == map[0 := Interval(0, 0), 1 := Interval(0, 1)]
    ensures w.entries == map[0 := Entry(1, 2000, true, Some(0)), 1 := Entry(0, 2000, true, Some(1))]
    ensures w.outbox == [TimeUpdate(0, 1)]
  {
    w := SimulatedTwice();
    w.Tick(0);
  }

  /** After the two messages the first record's timer is orphaned. It stops
      the second record when its own two seconds are up, and from then on it
      reports `SONG_FINISHED` for index 0 on every firing. */
  method OrphanedTimerWitness() returns (w: SimulationWorker)
    ensures w.Valid() && !w.Coherent()
    ensures 0 !in w.players && 0 in w.intervals
    ensures w.outbox == [TimeUpdate(0, 1), SongFinished(0, 2), SongFinished(0, 3)]
  {
    w := OrphanFinishesSong();
    w.Tick(0);
  }

  /** The same two messages handled by the corrected `SIMULATE_SONG`: only
      the second record's timer is live. */
  method CancelledTwice() returns (w: SimulationWorker)
    ensures fresh(w) && w.Valid() && w.Coherent()
    ensures w.players == map[0 := 1] && w.intervals == map[1 := Interval(0, 1)]
    ensures w.entries == map[0 := Entry(0, 2000, false, Some(0)), 1 := Entry(0, 2000, true, Some(1))]
    ensures w.outbox == []
  {
    w := new SimulationWorker();
    w.SimulateSongCancelling(0, 2000, 0);
    w.SimulateSongCancelling(0, 2000, 0);
  }

  /** With the corrected command the one live timer finishes the song once
      and no timer is left. */
  method CancellingScenario() returns (w: SimulationWorker)
    ensures w.Valid() && w.Coherent()
    ensures 0 !in w.players && w.intervals == map[]
    ensures w.outbox == [TimeUpdate(0, 1), SongFinished(0, 2)]
  {
    w := CancelledTwice();
    w.Tick(1);
    assert w.outbox == [TimeUpdate(0, 1)];
    w.Tick(1);
  }
}
