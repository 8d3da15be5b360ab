/**
 * Status projection: the label and the button the player screen shows for
 * each playback state of the engine.
 */
module Status {

  /**
   * The playback states the two switches name; `Other` stands for every
   * other state the engine can report (none, ready, stopped, …), which both
   * switches send to their `default` branch.
   */
  datatype PlaybackState = Buffering | Loading | Connecting | Paused | Playing | Other

  /** The engine is still fetching or preparing media. */
  predicate IsWaiting(s: PlaybackState) {
    s == Buffering || s == Loading || s == Connecting
  }

  /** The text ends in an ellipsis, which the labels use for work in progress. */
  predicate EndsWithEllipsis(text: string) {
    |text| >= 3 && text[|text| - 3..] == "..."
  }

  /** The status line shown above the player controls. */
  function StatusText(s: PlaybackState): (r: string)
    ensures EndsWithEllipsis(r) <==> IsWaiting(s)
    ensures r == "BUFFERING..." <==> s == Buffering
    ensures r == "LOADING..." <==> s == Loading
    ensures r == "CONNECTING..." <==> s == Connecting
    ensures r == "NOW PLAYING" <==> s == Playing
    ensures r == "PAUSED (READY TO PLAY)" <==> s == Paused
    ensures r == "READY TO PLAY" <==> s == Other
  {
    match s
    case Buffering => "BUFFERING..."
    case Loading => "LOADING..."
    case Connecting => "CONNECTING..."
    case Paused => "PAUSED (READY TO PLAY)"
    case Playing => "NOW PLAYING"
    case Other => "READY TO PLAY"
  }

  /** The kind of button shown: a spinner, or the play or pause affordance. */
  function ButtonType(s: PlaybackState): (r: string)
    ensures r == "load" || r == "play" || r == "pause"
    ensures r == "load" <==> IsWaiting(s)
    ensures r == "play" <==> s == Playing
    ensures r == "pause" <==> s == Paused || s == Other
  {
    match s
    case Buffering => "load"
    case Loading => "load"
    case Connecting => "load"
    case Paused => "pause"
    case Playing => "play"
    case Other => "pause"
  }

  /** Different states get different labels: the label identifies the state. */
  lemma StatusTextInjective(a: PlaybackState, b: PlaybackState)
    ensures StatusText(a) == StatusText(b) ==> a == b
  {
  }

  /** The button is a function of the label: a spinner exactly while the label ends in an ellipsis. */
  lemma ButtonFollowsStatusText(s: PlaybackState)
    ensures ButtonType(s) == "load" <==> EndsWithEllipsis(StatusText(s))
    ensures ButtonType(s) == "play" <==> StatusText(s) == "NOW PLAYING"
  {
  }
}
