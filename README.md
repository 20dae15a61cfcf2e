# Spotify radio: a Dafny model of the client-side radio simulation

The web client of this radio shuffles the user's liked songs. It cuts them
into groups, and each group becomes one "radio station" that plays its songs
one after another on a simulated clock. The user can tune in to any station.
The remote Spotify player is then asked to play that station's current song
from the station's current position. After that it follows the station's
song changes.

The model covers the radio engine in three files of the client:

- `frontend/src/player.js` (module `Player`). This holds the `SongHandler`,
  which shuffles the songs in place, cuts them into groups and owns one
  `SongPlayer` per group. It also selects the station to listen to and routes
  the timer worker's messages to the players. The `SongPlayer` posts a
  `SIMULATE_SONG` command for its current song, and on `SONG_FINISHED` it
  moves to its next song.
- `frontend/public/web-worker.js` (module `WebWorker`). This holds the timer
  worker: a map from player index to a record, plus one one-second interval
  per simulated song. Each firing reports `TIME_UPDATE` or `SONG_FINISHED`.
- `frontend/src/App.jsx` (module `AppVariant`). This is the earlier engine:
  `groupSongs`, a `SongPlayer` that runs its own interval, and the selection
  step of `handleGroupButtonClick`.

Shared pieces:

- `RadioTypes` holds the songs, the playback requests and the messages
  between the main thread and the worker.
- `Chunking` holds the reference definition of the groups and its
  properties.
- `Shuffling` holds the Fisher–Yates shuffle as a function on sequences,
  with its properties.
- `Playback` holds the per-group progress that both `SongPlayer` variants
  share.

Outside effects are recorded, not performed:

- A `worker.postMessage` in `player.js` appends a `Command` to
  `SongHandler.posted`.
- Each `playSong(uri, offset)` appends a `PlayRequest`: to
  `SongHandler.requests` in `player.js`, and to `Gateway.requests` in
  `App.jsx`.
- The worker's `self.postMessage` appends an `Event` to
  `SimulationWorker.outbox`.
- A firing of an interval timer is an explicit `Tick` step.
- `Math.random` is replaced by a supplied sequence of draws `rolls`, each
  within the range the source's draw can take.

Song durations are whole milliseconds. The source's end test
`currentTime >= duration_ms / 1000` becomes `currentTime * 1000 >= durationMs`
(`RadioTypes.ReachedEnd`). For a whole number of seconds the two tests agree.

The worker's records are objects, and a timer's callback keeps the record it
was started for even after the map has moved on. So records are modelled by
identity:

- `entries` holds every record under an id.
- `players` maps an index to the id of its current record.
- Each live timer in `intervals` names the index it reports and the record
  it counts on.

Behaviour of the code at its edges, as modelled:

- The handler starts with player 0 selected.
- `selectPlayer` with an index that has no player only records the
  selection. It issues no request and does not fail.
- Selecting a `player.js` player that is past its last song throws a
  `TypeError` before any request is made.
- In `App.jsx`, selecting an index with no player clears every flag and
  then throws a `TypeError`.
- The worker handles `PAUSE_SIMULATION` and `RESUME_SIMULATION`, but no code
  in the client sends them, and the handler has no pause operation.
- Creating new players does not stop the simulations of the old ones in the
  worker. Their events are routed to the new player with the same index (see
  the finding below).

## Model

| member | source | states |
|---|---|---|
| RadioTypes.ReachedEnd | frontend/public/web-worker.js:56 | The end test `currentTime >= duration_ms / 1000` holds exactly from the first whole second at or after the duration. |
| Chunking.Slice | frontend/src/player.js:54 | `array.slice(start, end)`: its length is the clamped window and each element is the source element at `start + k`. |
| Chunking.Chunks | frontend/src/App.jsx:136-142 | There are no groups exactly when there are no songs. |
| Chunking.ChunksCount | frontend/src/player.js:53-62 | The slicing loop makes ceil(n / groupSize) groups. |
| Chunking.ChunksFlatten | frontend/src/App.jsx:136-142 | The groups concatenated in order give back the song list: nothing lost, duplicated or reordered. |
| Chunking.ChunksSizes | frontend/src/player.js:53-62 | Every group is non-empty with at most `groupSize` songs, and every group but the last has exactly `groupSize`. |
| Chunking.ChunkAt | frontend/src/App.jsx:138-140 | Group `k` is the slice `[k*g, k*g+g)` that the loop's `k`-th pass cuts, and its start is within the list. |
| Chunking.ChunksStep | frontend/src/player.js:53-61 | One pass of the loop: the groups from `start` on are the slice at `start` followed by the groups after it. |
| Chunking.ChunksLoopStep | frontend/src/player.js:53-61 | Each pass keeps the loop invariant: the groups cut so far, followed by the groups of what is left, are all the groups. |
| Shuffling.Swap | frontend/src/player.js:121-122 | The destructuring swap exchanges the two cells and leaves every other cell alone. |
| Shuffling.ShuffledIsPermutation | frontend/src/player.js:110-125 | The shuffle keeps the length and the multiset of songs. |
| Shuffling.ShuffleFrom | frontend/src/player.js:114-123 | The passes left with `c` cells unshuffled keep the length, and never change a cell at or past `c`: once the loop's index passes a cell, that cell is final. |
| Shuffling.Shuffled | frontend/src/player.js:110-125 | The whole loop, from every cell unshuffled, keeps the length. |
| Shuffling.LastCellIsFirstDraw | frontend/src/player.js:114-123 | The last cell ends up holding the song that the first draw picked. |
| Playback.RunToEnd | frontend/src/player.js:165-179 | A player on song `j` that keeps finishing songs stops after the last one: index past the end, time 0, not playing. If selected, it has requested each later song of its group once, in order, from its start. If not selected, it has requested nothing. |
| Playback.TerminalIsAbsorbing | frontend/src/player.js:175-178 | Once past its last song, a player stays stopped and further advances request nothing. |
| Playback.Advance | frontend/src/player.js:165-179 | `nextSong` moves to the next song at time 0, and the player stays playing only while a song remains. |
| Playback.AdvanceRequests | frontend/src/player.js:169-174 | `nextSong` requests at most one song: the new song from 0, exactly when it exists and the player is selected. |
| Player.SimulationOf | frontend/src/player.js:148-163 | At most one `SIMULATE_SONG`, present exactly when the current index is in range, carrying the player index, that song's duration and the current time. |
| Player.StartCommands | frontend/src/player.js:66-68 | The first `n` players post at most `n` commands, all of them `SIMULATE_SONG`. |
| Player.StartCommandsInOrder | frontend/src/player.js:66-68 | With players numbered by position, the commands name the first `n` players, each at most once and in increasing order. |
| Player.Started | frontend/src/player.js:141-146 | After `start()` a player with songs is playing, an empty one keeps its flag, and position and time do not change. |
| Player.SongHandler.constructor | frontend/src/player.js:7-16 | A new handler has player 0 selected, no players, and nothing posted or requested. |
| Player.SongHandler.PostMessage | frontend/src/player.js:154 | A posted command is appended to the worker's inbox. |
| Player.SongHandler.PlaySong | frontend/src/player.js:76-90 | A play request for `(uri, offset)` is appended. |
| Player.SongHandler.GetCurrentPlayerIndex | frontend/src/player.js:106-108 | Returns the current selection. |
| Player.SongHandler.FindPlayer | frontend/src/player.js:97 | `find`: null exactly when no player has the index, otherwise the first player with it. With players numbered by position, it is the player at that position. |
| Player.SongHandler.ShuffleArray | frontend/src/player.js:110-125 | Shuffles the array in place into `Shuffled(old contents, rolls)` and returns the same array. |
| Player.SongHandler.CreateSongPlayers | frontend/src/player.js:42-64 | Songs are shuffled in place. There is one fresh player per group of the shuffled songs. Player `k` has index `k`, group `k`, this handler and the initial state. |
| Player.SongHandler.AddPlayer | frontend/src/player.js:56-57 | One fresh player with the given group, index and this handler, in the initial state, is appended to the players. |
| Player.SongHandler.StartAllSongPlayers | frontend/src/player.js:66-68 | Every non-empty player becomes playing. The posted commands are the players' `SIMULATE_SONG`s in player order. Song indices and times are unchanged. |
| Player.SongHandler.StartNext | frontend/src/player.js:67 | One pass of the `forEach`: player `k` is started, so its command follows those of the players before it, and no other player's state changes. |
| Player.SongHandler.SelectPlayer | frontend/src/player.js:92-104 | The selection becomes `i`. A player with a current song gets one request for it at its time. A finished player throws with no request. No player means no request and no error. |
| Player.SongHandler.Dispatch | frontend/src/player.js:21-39 | `TIME_UPDATE` sets only that player's time. `SONG_FINISHED` advances only that player, posting its next simulation and the request for a selected one. Unknown indices change nothing. |
| Player.SongPlayer.constructor | frontend/src/player.js:130-139 | A player starts on song 0 at time 0, not playing. |
| Player.SongPlayer.IsInRange | frontend/src/player.js:203-210 | True exactly for the valid positions `0 <= index < length`, so an empty group has none. |
| Player.SongPlayer.CurrentSong | frontend/src/player.js:196-201 | Null exactly when the index is past the group, otherwise the song at the index. |
| Player.SongPlayer.IsSelected | frontend/src/player.js:185-194 | True exactly when the player's index is the handler's selection. |
| Player.SongPlayer.Start | frontend/src/player.js:141-146 | An empty group does nothing. Otherwise the player is playing and the `SIMULATE_SONG` of its current song is posted; position and time are unchanged. |
| Player.SongPlayer.SimulateCurrentSong | frontend/src/player.js:148-163 | Posts exactly `SimulationOf` the current state. |
| Player.SongPlayer.NextSong | frontend/src/player.js:165-179 | The state becomes `Advance`. The simulation of the new song is posted when it exists. If selected, the new song is requested from 0. |
| Player.SongPlayer.PlayFromCurrentTime | frontend/src/player.js:181-183 | With a current song, one request for it at the current time. Otherwise a `TypeError` and no request. |
| WebWorker.SimulationWorker.constructor | frontend/public/web-worker.js:1 | The worker starts with no records, no timers and no messages. |
| WebWorker.SimulationWorker.OnMessage | frontend/public/web-worker.js:4-33 | Each command type has its effect on records and timers (below). While the client simulates an index only when it has no record, no timer is ever orphaned. |
| WebWorker.SimulationWorker.SimulateSong | frontend/public/web-worker.js:10-19 | As written: a fresh playing record replaces the index's record, one new timer counts on it, and every older timer stays live. |
| WebWorker.SimulationWorker.SimulateSongCancelling | frontend/public/web-worker.js:10-19 | Corrected: the old record's timer is cleared first. No timer is ever orphaned, and the index has exactly one live timer. |
| WebWorker.SimulationWorker.StartTimer | frontend/public/web-worker.js:35-71 | Absent index: nothing changes. Otherwise the record's own timer is cleared, and a new timer is started and stored only if the record is playing. |
| WebWorker.SimulationWorker.ClearInterval | frontend/public/web-worker.js:43-45 | `clearInterval` removes exactly that timer from the live ones. |
| WebWorker.SimulationWorker.Tick | frontend/public/web-worker.js:52-70 | The timer's own record gains a second, and exactly one event is posted. At the duration the index's current record is stopped and `SONG_FINISHED` is posted, after which no coherent timer reports that index. Otherwise `TIME_UPDATE` is posted with the new time. No new record or timer id is used. |
| WebWorker.SimulationWorker.StopPlayer | frontend/public/web-worker.js:73-86 | The index's record stops playing, its timer is cleared and the index is removed. An absent index changes nothing. |
| WebWorker.SimulationWorker.PausePlayer | frontend/public/web-worker.js:88-93 | Only the `isPlaying` flag of the index's record becomes false. Timers keep running. |
| WebWorker.SimulationWorker.ResumePlayer | frontend/public/web-worker.js:95-100 | Only the `isPlaying` flag of the index's record becomes true. No timer is started. |
| WebWorker.SimulatedTwice | frontend/public/web-worker.js:10-19 | Two `SIMULATE_SONG`s for index 0 leave two live timers on two records, with the index naming only the second. |
| WebWorker.OrphanCountsOneSecond | frontend/public/web-worker.js:52-68 | The first firing of the old timer adds a second to the old record and posts `TIME_UPDATE(0,1)`; both timers stay live. |
| WebWorker.OrphanFinishesSong | frontend/public/web-worker.js:52-62 | The second firing reaches the old record's duration. It stops the new record, clears the new record's timer, removes index 0 and posts `SONG_FINISHED(0,2)`. The old timer stays live. |
| WebWorker.OrphanedTimerWitness | frontend/public/web-worker.js:52-70 | The first record's timer finishes the second record's song. It then keeps posting `SONG_FINISHED` for index 0 with no record left. |
| WebWorker.CancelledTwice | frontend/public/web-worker.js:10-19 | With the corrected command, the second `SIMULATE_SONG` stops the first record and clears its timer. Only the new record's timer is live. |
| WebWorker.CancellingScenario | frontend/public/web-worker.js:10-19 | With the corrected command the same messages finish the song once and leave no timer. |
| AppVariant.GroupSongs | frontend/src/App.jsx:136-142 | The loop returns exactly `Chunks(songs, groupSize)`. |
| AppVariant.Gateway.PlaySong | frontend/src/App.jsx:10-25 | A play request for `(uri, offset)` is appended. |
| AppVariant.SongPlayer.constructor | frontend/src/App.jsx:50-59 | Song 0 at time 0, not playing, no current song, no timer, with the given selection flag. |
| AppVariant.SongPlayer.Start | frontend/src/App.jsx:61-65 | An empty group does nothing. Otherwise the player is playing and `playCurrentSong` runs. |
| AppVariant.SongPlayer.PlayCurrentSong | frontend/src/App.jsx:67-78 | Past the last song nothing changes. Otherwise the current song is set and a timer is live; an older timer's handle is lost but it keeps running. |
| AppVariant.SongPlayer.Tick | frontend/src/App.jsx:71-77 | A second passes. At the current song's duration the player advances as `nextSong` does: it requests the new song if selected, and its current song becomes the new song, with a live timer, while one remains. Otherwise nothing else changes. |
| AppVariant.SongPlayer.NextSong | frontend/src/App.jsx:80-93 | The state becomes `Advance`, and a timer is live exactly when a song remains. If selected, the new song is requested from 0. After the last song `currentSong` keeps the last song. |
| AppVariant.SongPlayer.PlayFromCurrentTime | frontend/src/App.jsx:95-97 | One request for the current song at the current time. |
| AppVariant.TwoSongRun | frontend/src/App.jsx:61-93 | A selected player with a 3-second and a 2-second song ends, after five ticks, past its last song, stopped, with no live timer, having requested only the second song from 0. |
| AppVariant.HandleGroupButtonClick | frontend/src/App.jsx:155-165 | The selection becomes `index` and exactly player `index` is flagged; no player's progress or timers change. It requests the current song only when one is set. With no player at `index` every flag is cleared, it throws and nothing is requested. |

## Left out

- The network: the device check, the HTTP call behind `playSong` and its error alert. Only the request itself is recorded.
- The access token, `console.log` output and the `Worker` construction in `initializeWorker`. Only the message handler is modelled.
- `SongHandler.cleanup` and `worker.terminate`: they only end the worker thread.
- The real timers and the asynchrony between the threads. A timer firing is an explicit `Tick` step, and messages are recorded in order but not delivered, so no claim is made about interleavings.
- Floating point. Durations are whole milliseconds and the seconds test is compared exactly, so a rounding in `duration_ms / 1000` is not modelled.
- `Math.random`. Its draws are a supplied sequence, so no claim is made about the uniformity of the shuffle.
- The `timer` field of the `player.js` `SongPlayer`: it is set to null and never used.
- The null-handler branch of `isSelected`: every player is created with its handler.
- `Chunking.Slice`: a negative `end`, which `Array.prototype.slice` counts from the back, is not modelled; both callers pass `start + groupSize`.
- `Player.SongHandler.CreateSongPlayers`: a `groupSize` below 1 makes the source's loop run forever, so the model requires at least 1.
- `AppVariant.GroupSongs`: a `groupSize` below 1 makes the source's loop run forever, so the model requires at least 1.
- `AppVariant.SongPlayer.PlayFromCurrentTime`: the model requires a current song, which its one caller checks.
- `AppVariant.SongPlayer.Tick`: the model requires a live timer of the player.
- The React component around `handleGroupButtonClick`: state hooks, the effect that creates and starts the players with group size 10, and the rendering. The player list and the selected index are passed in and returned.
- `frontend/src/utility.js` and `backend/server.js` are not part of this model.

## Findings

| source | as written | input that shows it | evidently intended | confidence | as-written member | corrected member |
|---|---|---|---|---|---|---|
| frontend/public/web-worker.js:10-19 | `SIMULATE_SONG` replaces the index's record with a fresh one whose `timer` is null. `startTimer` then clears only that null timer, so the old record's interval keeps running. When the old record's time reaches its duration it stops the new record. After that it posts `SONG_FINISHED` for the index on every firing. | Two `SIMULATE_SONG` messages for index 0 with a 2000 ms song at time 0, then three firings of the first timer. This happens when the players are started again while their songs are still being simulated. The events are `TIME_UPDATE(0,1)`, `SONG_FINISHED(0,2)`, `SONG_FINISHED(0,3)`. | The previous record of the index is stopped first, so each index has one live timer and each song finishes once. | medium, not executed | WebWorker.OrphanedTimerWitness | WebWorker.SimulationWorker.SimulateSongCancelling |
