/** Values shared by every part of the playlist helpers. */
module Types {

  /** JavaScript's `null` for a value that may be missing. */
  datatype Option<T> = None | Some(value: T) {

    /** The wrapped value, or `default` when there is none. */
    function GetOr(default: T): T {
      if Some? then value else default
    }
  }

  /**
   * A track as handed to the playback engine. `id` is the only field that
   * identifies a track; the others are metadata that is passed through
   * untouched.
   */
  datatype Track = Track(id: string, url: string, title: string, artist: string)

  /** The track at `index` in `queue`, or `null` when `index` is out of range. */
  function TrackAt(queue: seq<Track>, index: int): (r: Option<Track>)
    ensures r.Some? <==> 0 <= index < |queue|
    ensures r.Some? ==> r.value == queue[index]
  {
    if 0 <= index < |queue| then Some(queue[index]) else None
  }

  /** No two tracks of `queue` share an `id`. */
  predicate DistinctIds(queue: seq<Track>) {
    forall i, j :: 0 <= i < j < |queue| ==> queue[i].id != queue[j].id
  }
}
