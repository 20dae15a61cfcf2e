/** Values shared by the radio simulation: liked songs, playback requests and
    the messages exchanged between the main thread and the timer worker. */
module RadioTypes {

  datatype Option<T> = None | Some(value: T)

  /** How a call that may throw ended: normally, or with a `TypeError`
      (reading a property of `null` or `undefined`). */
  datatype Outcome = Done | TypeError

  /** One liked song: the track's URI and its duration in milliseconds. */
  datatype Song = Song(uri: string, durationMs: nat)

  /** One call of `playSong(uri, offset)`: a request to the remote player to
      start the track `uri` at `offset` seconds. */
  datatype PlayRequest = PlayRequest(uri: string, offset: int)

  /** Messages the main thread posts to the timer worker. The song duration
      is carried in milliseconds (the source divides by 1000 first). */
  datatype Command =
    | SimulateSong(playerIndex: int, durationMs: nat, currentTime: nat)
    | StopSimulation(playerIndex: int)
    | PauseSimulation(playerIndex: int)
    | ResumeSimulation(playerIndex: int)

  /** Messages the timer worker posts back to the main thread. */
  datatype Event =
    | TimeUpdate(playerIndex: int, currentTime: nat)
    | SongFinished(playerIndex: int, currentTime: nat)

  /** The end-of-song test `currentTime >= duration_ms / 1000` of the worker
      and of the `App.jsx` player. For a whole number of seconds this is the
      same as comparing milliseconds, so no division (and no floating point)
      is needed: the song ends at the first whole second at or after its
      duration. */
  predicate ReachedEnd(currentTime: int, durationMs: nat): (r: bool)
    ensures r <==> currentTime >= (durationMs + 999) / 1000
  {
    currentTime * 1000 >= durationMs
  }
}
