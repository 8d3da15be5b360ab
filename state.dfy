/** The process-wide observable state that the player screens read. */
module State {
  import opened Types

  /** The four global values: `currentIndex` and `currentTrack` are `null` when absent. */
  datatype AppState = AppState(
    playlistCounter: int,
    currentIndex: Option<int>,
    currentTrack: Option<Track>,
    currentQueue: seq<Track>)

  /** The values the global state holds at start-up: an empty playlist. */
  const Initial := AppState(0, None, None, [])

  class GlobalState {
    var value: AppState

    constructor ()
      ensures value == Initial
      ensures value.playlistCounter == |value.currentQueue| == 0
      ensures value.currentIndex.None? && value.currentTrack.None?
    {
      value := Initial;
    }
  }
}
