/**
 * The playback engine (react-native-track-player), seen only through the
 * calls the helpers make. Every call is taken to complete before the next
 * one starts.
 */
module Engine {
  import opened Types

  /** Where the current track is after `tracks` are appended to `queue`: the first track when the queue was empty. */
  function CurrentAfterAdd(queue: seq<Track>, current: Option<nat>, tracks: seq<Track>): (r: Option<nat>)
    ensures queue == [] && tracks != [] ==> r == Some(0)
    ensures queue != [] || tracks == [] ==> r == current
  {
    if queue == [] && tracks != [] then Some(0) else current
  }

  class Player {
    var queue: seq<Track>
    var current: Option<nat>
    var playing: bool

    /** The index of the current track is present exactly when the queue is not empty, and lies inside it. */
    ghost predicate Valid()
      reads this
    {
      (current.None? <==> queue == []) &&
      (current.Some? ==> current.value < |queue|)
    }

    constructor ()
      ensures Valid()
      ensures queue == [] && current == None && !playing
    {
      queue, current, playing := [], None, false;
    }

    /** `reset()`: empties the queue and stops playback. */
    method Reset()
      modifies this
      ensures Valid()
      ensures queue == [] && current == None && !playing
    {
      queue, current, playing := [], None, false;
    }

    /** `add(tracks)`: appends to the end of the queue. */
    method Add(tracks: seq<Track>)
      modifies this
      ensures queue == old(queue) + tracks
      ensures current == CurrentAfterAdd(old(queue), old(current), tracks)
      ensures playing == old(playing)
      ensures old(Valid()) ==> Valid()
    {
      current := CurrentAfterAdd(queue, current, tracks);
      queue := queue + tracks;
    }

    /** `skip(index)`: moves to another track of the queue; rejects an index outside it. */
    method Skip(index: int) returns (ok: bool)
      modifies this
      ensures ok <==> 0 <= index < |queue|
      ensures queue == old(queue) && playing == old(playing)
      ensures current == if ok then Some(index as nat) else old(current)
      ensures old(Valid()) ==> Valid()
    {
      ok := 0 <= index < |queue|;
      if ok {
        current := Some(index as nat);
      }
    }

    /** `play()`: starts playback of the current track. */
    method Play()
      modifies this
      ensures queue == old(queue) && current == old(current) && playing
    {
      playing := true;
    }
  }
}

/**
 * The durable key-value store (AsyncStorage). A call can reject, which
 * the model expresses by a `fail` argument chosen by the caller of the
 * operation that makes the call.
 */
module Storage {
  import opened Types

  class Store {
    var items: map<string, string>

    constructor ()
      ensures items == map[]
    {
      items := map[];
    }

    /** `getItem(key)`: the stored text, or `null` when there is none. */
    method GetItem(key: string, fail: bool) returns (ok: bool, value: Option<string>)
      ensures ok == !fail
      ensures value == if ok && key in items then Some(items[key]) else None
    {
      ok := !fail;
      value := if ok && key in items then Some(items[key]) else None;
    }

    /** `setItem(key, value)`. */
    method SetItem(key: string, value: string, fail: bool) returns (ok: bool)
      modifies this
      ensures ok == !fail
      ensures items == if ok then old(items)[key := value] else old(items)
    {
      ok := !fail;
      if ok {
        items := items[key := value];
      }
    }

    /** `removeItem(key)`. */
    method RemoveItem(key: string, fail: bool) returns (ok: bool)
      modifies this
      ensures ok == !fail
      ensures items == if ok then old(items) - {key} else old(items)
    {
      ok := !fail;
      if ok {
        items := items - {key};
      }
    }
  }
}

/** The toast messages shown to the user, as a log. */
module Notify {

  datatype ToastType = Info | Success

  datatype Toast = Toast(kind: ToastType, text1: string, topOffset: int)

  const AlreadyInPlaylist := Toast(Info, "Selection already in playlist.", 60)
  const AddedToPlaylist := Toast(Success, "Selection added to playlist.", 60)

  class Toaster {
    var shown: seq<Toast>

    constructor ()
      ensures shown == []
    {
      shown := [];
    }

    /** `Toast.show(...)`. */
    method Show(t: Toast)
      modifies this
      ensures shown == old(shown) + [t]
    {
      shown := shown + [t];
    }
  }
}
