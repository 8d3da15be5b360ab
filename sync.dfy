/**
 * State synchronisation: `storeTracks` mirrors the engine's queue into the
 * durable store and into the global state, and `loadStoredTracks` brings a
 * stored playlist back into the engine and the global state at start-up.
 *
 * A store call can reject. Each operation takes `fault`, the ordinal
 * (0 for the first, 1 for the second) of the store call in its `try` block
 * that rejects, or `None` when none does.
 */
module Sync {
  import opened Types
  import opened Codec
  import opened Engine
  import opened Storage
  import opened State

  const TracksKey: string := "@tracks"
  const IndexKey: string := "@currentIndex"

  predicate FailsAt(fault: Option<nat>, k: nat) {
    fault == Some(k)
  }

  /** Neither of the two store calls of the `try` block rejects. */
  predicate StoreCallsSucceed(fault: Option<nat>) {
    !FailsAt(fault, 0) && !FailsAt(fault, 1)
  }

  /** The two entries of the durable record are both present or both absent. */
  predicate RecordConsistent(items: map<string, string>) {
    TracksKey in items <==> IndexKey in items
  }

  /**
   * The global state agrees with itself: the counter is the queue's length,
   * and the index and the track are present exactly when the queue is not
   * empty, the track being the one at the index.
   */
  predicate Consistent(s: AppState) {
    && s.playlistCounter == |s.currentQueue|
    && (s.currentIndex.None? <==> s.currentQueue == [])
    && (s.currentTrack.None? <==> s.currentQueue == [])
    && (s.currentIndex.Some? ==>
          0 <= s.currentIndex.value < |s.currentQueue| &&
          s.currentTrack == Some(s.currentQueue[s.currentIndex.value]))
  }

  lemma InitialConsistent()
    ensures Consistent(Initial)
  {
  }

  // ---------------------------------------------------------------------
  // storeTracks
  // ---------------------------------------------------------------------

  /**
   * `storeTracks` gets as far as publishing: no store call rejects, and a
   * non-empty queue has a current index (`null.toString()` throws).
   */
  predicate PersistSucceeds(queue: seq<Track>, current: Option<nat>, fault: Option<nat>) {
    StoreCallsSucceed(fault) && (queue == [] || current.Some?)
  }

  /** The store after the `try` block of `storeTracks`, up to the first call that throws. */
  function ItemsAfterWrite(items: map<string, string>, queue: seq<Track>, current: Option<nat>, fault: Option<nat>): (r: map<string, string>)
    ensures PersistSucceeds(queue, current, fault) ==> RecordConsistent(r)
    ensures forall k :: k != TracksKey && k != IndexKey ==>
      (k in r <==> k in items) && (k in r ==> r[k] == items[k])
  {
    if queue != [] then
      if current.None? || FailsAt(fault, 0) then items
      else if FailsAt(fault, 1) then items[TracksKey := EncodeTracks(queue)]
      else items[TracksKey := EncodeTracks(queue)][IndexKey := EncodeNat(current.value)]
    else
      if FailsAt(fault, 0) then items
      else if FailsAt(fault, 1) then items - {TracksKey}
      else items - {TracksKey, IndexKey}
  }

  /**
   * The store after `storeTracks`: the record of a non-empty queue when
   * everything succeeds, and no record at all otherwise, whether the queue
   * is empty or the compensation in the `catch` block removed both keys.
   */
  function PersistedItems(items: map<string, string>, queue: seq<Track>, current: Option<nat>, fault: Option<nat>): (r: map<string, string>)
    ensures RecordConsistent(r)
    ensures TracksKey in r <==> queue != [] && PersistSucceeds(queue, current, fault)
    ensures forall k :: k != TracksKey && k != IndexKey ==>
      (k in r <==> k in items) && (k in r ==> r[k] == items[k])
  {
    if queue != [] && PersistSucceeds(queue, current, fault) then
      items[TracksKey := EncodeTracks(queue)][IndexKey := EncodeNat(current.value)]
    else
      items - {TracksKey, IndexKey}
  }

  /**
   * The global state after `storeTracks`: the live queue, index and track
   * with the counter at the queue's length when it gets as far as
   * publishing; otherwise only the counter changes, to 0.
   */
  function PublishedState(s: AppState, queue: seq<Track>, current: Option<nat>, fault: Option<nat>): (r: AppState)
    ensures r.playlistCounter == if PersistSucceeds(queue, current, fault) then |queue| else 0
    ensures PersistSucceeds(queue, current, fault) ==>
      r.currentQueue == queue && (r.currentIndex.None? <==> queue == [])
    ensures PersistSucceeds(queue, current, fault) && queue != [] ==>
      r.currentIndex == Some(current.value) && r.currentTrack == TrackAt(queue, current.value)
    ensures PersistSucceeds(queue, current, fault) && queue == [] ==>
      r.currentIndex.None? && r.currentTrack.None?
    ensures !PersistSucceeds(queue, current, fault) ==>
      r.currentQueue == s.currentQueue && r.currentIndex == s.currentIndex && r.currentTrack == s.currentTrack
  {
    if !PersistSucceeds(queue, current, fault) then s.(playlistCounter := 0)
    else if queue == [] then AppState(0, None, None, queue)
    else AppState(|queue|, Some(current.value), TrackAt(queue, current.value), queue)
  }

  /** When the engine's own invariant holds, a successful `storeTracks` publishes a consistent state. */
  lemma PublishedConsistent(s: AppState, queue: seq<Track>, current: Option<nat>, fault: Option<nat>)
    requires current.None? <==> queue == []
    requires current.Some? ==> current.value < |queue|
    requires PersistSucceeds(queue, current, fault)
    ensures Consistent(PublishedState(s, queue, current, fault))
  {
  }

  /**
   * The compensation resets only the counter: a failed `storeTracks` after
   * a non-empty queue was published leaves a state whose counter no longer
   * matches its queue.
   */
  lemma FailedPersistLeavesStaleQueue(s: AppState, queue: seq<Track>, current: Option<nat>, fault: Option<nat>)
    requires s.currentQueue != []
    requires !PersistSucceeds(queue, current, fault)
    ensures !Consistent(PublishedState(s, queue, current, fault))
  {
  }

  /** When the `try` block completes, it leaves exactly the record `storeTracks` promises. */
  lemma WriteCompleteIsPersisted(items: map<string, string>, queue: seq<Track>, current: Option<nat>, fault: Option<nat>)
    requires PersistSucceeds(queue, current, fault)
    ensures ItemsAfterWrite(items, queue, current, fault) == PersistedItems(items, queue, current, fault)
  {
  }

  /** Whatever the `try` block wrote before it failed, removing both keys leaves no record. */
  lemma CompensationClearsRecord(items: map<string, string>, queue: seq<Track>, current: Option<nat>, fault: Option<nat>)
    requires !PersistSucceeds(queue, current, fault)
    ensures ItemsAfterWrite(items, queue, current, fault) - {TracksKey} - {IndexKey} ==
            PersistedItems(items, queue, current, fault)
  {
  }

  /** Lines 36-50 of `storeTracks`: read the engine, then write or remove both keys. */
  method WriteRecord(player: Player, store: Store, fault: Option<nat>) returns (ok: bool)
    modifies store
    ensures ok == PersistSucceeds(player.queue, player.current, fault)
    ensures store.items == ItemsAfterWrite(old(store.items), player.queue, player.current, fault)
  {
    var tracks := player.queue;
    if |tracks| > 0 {
      var currentIndex := player.current;
      if currentIndex.None? {
        // `currentIndex.toString()` throws on null
        ok := false;
        return;
      }
      ok := store.SetItem(TracksKey, EncodeTracks(tracks), FailsAt(fault, 0));
      if ok {
        ok := store.SetItem(IndexKey, EncodeNat(currentIndex.value), FailsAt(fault, 1));
      }
    } else {
      ok := store.RemoveItem(TracksKey, FailsAt(fault, 0));
      if ok {
        ok := store.RemoveItem(IndexKey, FailsAt(fault, 1));
      }
    }
  }

  /** Lines 52-55 of `storeTracks`: publish the live queue, index and track. */
  method Publish(player: Player, state: GlobalState)
    requires player.queue == [] || player.current.Some?
    modifies state
    ensures state.value == PublishedState(old(state.value), player.queue, player.current, None)
  {
    var tracks := player.queue;
    var currentIndex: Option<int> := None;
    var currentTrack: Option<Track> := None;
    if |tracks| > 0 {
      currentIndex := Some(player.current.value);
      currentTrack := TrackAt(tracks, player.current.value);
    }
    state.value := state.value.(currentQueue := tracks);
    state.value := state.value.(currentIndex := currentIndex);
    state.value := state.value.(currentTrack := currentTrack);
    state.value := state.value.(playlistCounter := |tracks|);
  }

  /**
   * `storeTracks`: mirror the engine's queue into the store and the global
   * state; on a failure, reset the counter and remove both keys.
   */
  method StoreTracks(player: Player, store: Store, state: GlobalState, fault: Option<nat>)
    modifies store, state
    ensures store.items == PersistedItems(old(store.items), player.queue, player.current, fault)
    ensures state.value == PublishedState(old(state.value), player.queue, player.current, fault)
  {
    var ok := WriteRecord(player, store, fault);
    if ok {
      WriteCompleteIsPersisted(old(store.items), player.queue, player.current, fault);
      Publish(player, state);
    } else {
      CompensationClearsRecord(old(store.items), player.queue, player.current, fault);
      // the `catch` block
      state.value := state.value.(playlistCounter := 0);
      var _ := store.RemoveItem(TracksKey, false);
      var _ := store.RemoveItem(IndexKey, false);
    }
  }

  /**
   * `storeTracks` as written: `updatePlaylistCounter` is neither defined nor
   * imported in tracks.js, so its call in the `catch` block throws, the two
   * removals after it never run and the returned promise rejects.
   */
  method StoreTracksAsWritten(player: Player, store: Store, state: GlobalState, fault: Option<nat>) returns (rejected: bool)
    modifies store, state
    ensures rejected == !PersistSucceeds(player.queue, player.current, fault)
    ensures store.items == ItemsAfterWrite(old(store.items), player.queue, player.current, fault)
    ensures state.value == if rejected then old(state.value)
                           else PublishedState(old(state.value), player.queue, player.current, fault)
  {
    var ok := WriteRecord(player, store, fault);
    if ok {
      Publish(player, state);
    }
    rejected := !ok;
  }

  /**
   * A store call that rejects between the two writes leaves, without the
   * compensation, a `@tracks` entry and no `@currentIndex` entry.
   */
  lemma WriteFaultBreaksRecord(t: Track)
    ensures !RecordConsistent(ItemsAfterWrite(map[], [t], Some(0), Some(1)))
    ensures RecordConsistent(PersistedItems(map[], [t], Some(0), Some(1)))
  {
  }

  // ---------------------------------------------------------------------
  // loadStoredTracks
  // ---------------------------------------------------------------------

  /** `JSON.parse` of the stored queue text; `None` for a missing entry (`null`) and for malformed text. */
  function StoredQueue(items: map<string, string>): Option<seq<Track>> {
    if TracksKey in items then DecodeTracks(items[TracksKey]) else None
  }

  /** `parseInt` of the stored index text; `None` stands for `NaN`. */
  function StoredIndex(items: map<string, string>): Option<nat> {
    if IndexKey in items then DecodeNat(items[IndexKey]) else None
  }

  /** The queue `loadStoredTracks` loads into the engine: only a readable, non-empty stored queue. */
  function QueueToLoad(items: map<string, string>, fault: Option<nat>): (r: Option<seq<Track>>)
    ensures r.Some? ==> r.value != [] && StoredQueue(items) == r
    ensures r.Some? <==> StoreCallsSucceed(fault) && StoredQueue(items).Some? && StoredQueue(items).value != []
    ensures StoredQueue(items).None? || StoredQueue(items) == Some([]) ==> r.None?
  {
    var stored := StoredQueue(items);
    if StoreCallsSucceed(fault) && stored.Some? && stored.value != [] then stored else None
  }

  /** The queue and index `loadStoredTracks` publishes: the engine must also accept the stored index. */
  function LoadedRecord(items: map<string, string>, fault: Option<nat>): (r: Option<(seq<Track>, nat)>)
    ensures r.Some? ==> QueueToLoad(items, fault) == Some(r.value.0) && StoredIndex(items) == Some(r.value.1)
    ensures r.Some? ==> r.value.1 < |r.value.0|
    ensures QueueToLoad(items, fault).None? ==> r.None?
    ensures QueueToLoad(items, fault).Some? && StoredIndex(items).Some? &&
            StoredIndex(items).value < |QueueToLoad(items, fault).value| ==>
      r == Some((QueueToLoad(items, fault).value, StoredIndex(items).value))
  {
    match QueueToLoad(items, fault)
    case None => None
    case Some(tracks) =>
      match StoredIndex(items)
      case None => None
      case Some(i) => if i < |tracks| then Some((tracks, i)) else None
  }

  /**
   * The global state after `loadStoredTracks`: either untouched, or the
   * stored queue with the track at the stored index, counted.
   */
  function RestoredState(s: AppState, items: map<string, string>, fault: Option<nat>): (r: AppState)
    ensures r == s || Consistent(r)
    ensures LoadedRecord(items, fault).None? ==> r == s
    ensures LoadedRecord(items, fault).Some? ==>
      var (q, i) := LoadedRecord(items, fault).value;
      r.currentQueue == q && r.currentIndex == Some(i) && r.playlistCounter == |q| && r.currentTrack == Some(q[i])
    ensures r != s ==> r.currentQueue != [] && StoredQueue(items) == Some(r.currentQueue)
    ensures StoredQueue(items).None? || StoredQueue(items) == Some([]) ==> r == s
    ensures !StoreCallsSucceed(fault) ==> r == s
  {
    match LoadedRecord(items, fault)
    case None => s
    case Some((tracks, i)) => AppState(|tracks|, Some(i), Some(tracks[i]), tracks)
  }

  /** Loading twice in a row publishes what loading once does. */
  lemma RestoreIdempotent(s: AppState, items: map<string, string>, fault: Option<nat>)
    ensures RestoredState(RestoredState(s, items, fault), items, fault) == RestoredState(s, items, fault)
  {
  }

  /**
   * Lines 11-20 of `loadStoredTracks`: read and decode both entries and,
   * for a non-empty queue, load it into the engine at the stored index.
   * The result is the queue, index and track to publish, if it gets there.
   */
  method RestorePlayer(player: Player, store: Store, fault: Option<nat>) returns (loaded: Option<(seq<Track>, nat, Option<Track>)>)
    modifies player
    ensures loaded.Some? <==> LoadedRecord(store.items, fault).Some?
    ensures loaded.Some? ==>
      && loaded.value.0 == LoadedRecord(store.items, fault).value.0
      && loaded.value.1 == LoadedRecord(store.items, fault).value.1
      && loaded.value.2 == TrackAt(loaded.value.0, loaded.value.1)
    ensures match QueueToLoad(store.items, fault)
            case None =>
              player.queue == old(player.queue) && player.current == old(player.current) &&
              player.playing == old(player.playing)
            case Some(tracks) =>
              player.queue == tracks && !player.playing &&
              player.current == (if LoadedRecord(store.items, fault).Some?
                                 then Some(LoadedRecord(store.items, fault).value.1) else Some(0))
    ensures player.Valid()  || unchanged(player)
  {
    loaded := None;
    var ok, loadedTracks := store.GetItem(TracksKey, FailsAt(fault, 0));
    if !ok {
      return;
    }
    // `JSON.parse(null)` is null; malformed text throws
    var tracks: Option<seq<Track>> := None;
    if loadedTracks.Some? {
      tracks := DecodeTracks(loadedTracks.value);
      if tracks.None? {
        return;
      }
    }
    var loadedCurrentIndex;
    ok, loadedCurrentIndex := store.GetItem(IndexKey, FailsAt(fault, 1));
    if !ok {
      return;
    }
    var currentIndex := if loadedCurrentIndex.Some? then DecodeNat(loadedCurrentIndex.value) else None;
    if tracks.Some? && |tracks.value| > 0 {
      player.Reset();
      player.Add(tracks.value);
      if currentIndex.None? {
        // `skip(NaN)` rejects
        return;
      }
      ok := player.Skip(currentIndex.value);
      if !ok {
        return;
      }
      var currentTrack := TrackAt(player.queue, currentIndex.value);
      loaded := Some((tracks.value, currentIndex.value, currentTrack));
    }
  }

  /**
   * `loadStoredTracks`: at start-up, bring the stored playlist back into
   * the engine and publish it; anything missing, empty or failing leaves
   * the global state as it was.
   */
  method LoadStoredTracks(player: Player, store: Store, state: GlobalState, fault: Option<nat>)
    modifies player, state
    ensures state.value == RestoredState(old(state.value), store.items, fault)
    ensures match QueueToLoad(store.items, fault)
            case None =>
              player.queue == old(player.queue) && player.current == old(player.current) &&
              player.playing == old(player.playing)
            case Some(tracks) =>
              player.queue == tracks && player.Valid() && !player.playing &&
              player.current == (if LoadedRecord(store.items, fault).Some?
                                 then Some(LoadedRecord(store.items, fault).value.1) else Some(0))
  {
    var loaded := RestorePlayer(player, store, fault);
    if loaded.Some? {
      var (tracks, currentIndex, currentTrack) := loaded.value;
      state.value := state.value.(playlistCounter := |tracks|);
      state.value := state.value.(currentQueue := tracks);
      state.value := state.value.(currentIndex := Some(currentIndex));
      state.value := state.value.(currentTrack := currentTrack);
    }
  }

  /**
   * `loadStoredTracks` as written: the call to the undefined
   * `updatePlaylistCounter` throws right after the engine is loaded, and
   * the `catch` block swallows it, so the global state is never published.
   */
  method LoadStoredTracksAsWritten(player: Player, store: Store, state: GlobalState, fault: Option<nat>)
    modifies player, state
    ensures state.value == old(state.value)
    ensures match QueueToLoad(store.items, fault)
            case None =>
              player.queue == old(player.queue) && player.current == old(player.current) &&
              player.playing == old(player.playing)
            case Some(tracks) =>
              player.queue == tracks && player.Valid() && !player.playing &&
              player.current == (if LoadedRecord(store.items, fault).Some?
                                 then Some(LoadedRecord(store.items, fault).value.1) else Some(0))
  {
    var _ := RestorePlayer(player, store, fault);
  }

  // ---------------------------------------------------------------------
  // storing, then loading
  // ---------------------------------------------------------------------

  /**
   * What a successful `storeTracks` writes, `loadStoredTracks` reads back:
   * the same queue and the same index, so that it publishes the same state.
   */
  lemma PersistThenRestore(items: map<string, string>, queue: seq<Track>, i: nat, fault: Option<nat>, s: AppState, s': AppState)
    requires i < |queue|
    requires StoreCallsSucceed(fault)
    ensures LoadedRecord(PersistedItems(items, queue, Some(i), fault), None) == Some((queue, i))
    ensures RestoredState(s', PersistedItems(items, queue, Some(i), fault), None) ==
            PublishedState(s, queue, Some(i), fault)
  {
    var stored := PersistedItems(items, queue, Some(i), fault);
    assert stored == items[TracksKey := EncodeTracks(queue)][IndexKey := EncodeNat(i)];
    DecodeEncodeTracks(queue);
    DecodeEncodeNat(i);
    assert StoredQueue(stored) == Some(queue);
    assert StoredIndex(stored) == Some(i);
    assert QueueToLoad(stored, None) == Some(queue);
  }

  /** After `storeTracks` stored no record (empty queue or failure), loading changes nothing. */
  lemma EmptyPersistThenRestore(items: map<string, string>, queue: seq<Track>, current: Option<nat>, fault: Option<nat>, s: AppState, loadFault: Option<nat>)
    requires queue == [] || !PersistSucceeds(queue, current, fault)
    ensures QueueToLoad(PersistedItems(items, queue, current, fault), loadFault).None?
    ensures RestoredState(s, PersistedItems(items, queue, current, fault), loadFault) == s
  {
  }

  /** A restart with a stored one-track playlist: the engine is loaded, and the global state shows it. */
  method Restart(t: Track) returns (engineQueue: seq<Track>, shownQueue: seq<Track>, shownCounter: int)
    ensures engineQueue == [t] && shownQueue == [t] && shownCounter == 1
  {
    var store := new Store();
    var before := new Player();
    before.Add([t]);
    assert before.queue == [t] && before.current == Some(0);
    var state := new GlobalState();
    StoreTracks(before, store, state, None);
    PersistThenRestore(map[], [t], 0, None, Initial, Initial);
    assert store.items == PersistedItems(map[], [t], Some(0), None);
    var player := new Player();
    var shown := new GlobalState();
    LoadStoredTracks(player, store, shown, None);
    assert LoadedRecord(store.items, None) == Some(([t], 0));
    assert QueueToLoad(store.items, None) == Some([t]);
    assert shown.value == PublishedState(Initial, [t], Some(0), None);
    engineQueue, shownQueue, shownCounter := player.queue, shown.value.currentQueue, shown.value.playlistCounter;
  }

  /** The same restart as written: the engine is loaded, but the global state still shows an empty playlist. */
  method RestartAsWritten(t: Track) returns (engineQueue: seq<Track>, shownQueue: seq<Track>, shownCounter: int)
    ensures engineQueue == [t] && shownQueue == [] && shownCounter == 0
  {
    var store := new Store();
    var before := new Player();
    before.Add([t]);
    assert before.queue == [t] && before.current == Some(0);
    var state := new GlobalState();
    StoreTracks(before, store, state, None);
    PersistThenRestore(map[], [t], 0, None, Initial, Initial);
    var player := new Player();
    var shown := new GlobalState();
    assert store.items == PersistedItems(map[], [t], Some(0), None);
    LoadStoredTracksAsWritten(player, store, shown, None);
    assert QueueToLoad(store.items, None) == Some([t]);
    engineQueue, shownQueue, shownCounter := player.queue, shown.value.currentQueue, shown.value.playlistCounter;
  }
}
