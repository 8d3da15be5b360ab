/**
 * Track admission: `addTrack` looks the new track up in the queue the
 * caller passes and then plays it, adds it, or only reports that it is
 * already there, depending on the action: 'play' adds the track if needed
 * and plays it, 'atpl' ("add to playlist") only adds it.
 */
module Admission {
  import opened Types
  import opened Engine
  import opened Storage
  import opened State
  import opened Notify
  import opened Sync

  /** The index of the last track of `tracks` whose `id` is `id`, if any. */
  function LastMatch(tracks: seq<Track>, id: string): (r: Option<nat>)
    ensures r.None? <==> forall k :: 0 <= k < |tracks| ==> tracks[k].id != id
    ensures r.Some? ==> r.value < |tracks| && tracks[r.value].id == id
    ensures r.Some? ==> forall j :: r.value < j < |tracks| ==> tracks[j].id != id
  {
    if tracks == [] then None
    else if tracks[|tracks| - 1].id == id then Some(|tracks| - 1)
    else LastMatch(tracks[..|tracks| - 1], id)
  }

  /**
   * The index `addTrack` skips to for 'play': the matched index, or the
   * length of the queue it was given, where the appended track lands.
   */
  function PlayTarget(tracks: seq<Track>, id: string): (r: nat)
    ensures r <= |tracks|
    ensures r == |tracks| <==> LastMatch(tracks, id).None?
    ensures r < |tracks| ==> tracks[r].id == id
    ensures LastMatch(tracks, id).Some? ==> r == LastMatch(tracks, id).value
  {
    match LastMatch(tracks, id)
    case None => |tracks|
    case Some(k) => k
  }

  /**
   * Lines 117-131 of `addTrack`: a scan of the whole queue that does not
   * stop at a match, so `indexMatch` ends at the last matching index.
   */
  method ScanForMatch(newTrack: Track, tracks: seq<Track>) returns (inQueue: bool, indexMatch: nat)
    ensures inQueue == LastMatch(tracks, newTrack.id).Some?
    ensures indexMatch == LastMatch(tracks, newTrack.id).GetOr(0)
  {
    inQueue := false;
    var i := 0;
    indexMatch := 0;
    while i < |tracks|
      invariant 0 <= i <= |tracks|
      invariant inQueue == LastMatch(tracks[..i], newTrack.id).Some?
      invariant indexMatch == LastMatch(tracks[..i], newTrack.id).GetOr(0)
    {
      assert tracks[..i + 1][..i] == tracks[..i];
      if tracks[i].id == newTrack.id {
        inQueue := true;
        indexMatch := i;
      }
      i := i + 1;
    }
    assert tracks[..i] == tracks;
  }

  /** Appending a track whose `id` the queue does not hold keeps the identifiers distinct. */
  lemma AppendFreshKeepsDistinct(queue: seq<Track>, t: Track)
    requires DistinctIds(queue)
    requires forall k :: 0 <= k < |queue| ==> queue[k].id != t.id
    ensures DistinctIds(queue + [t])
  {
  }

  /**
   * `addTrack(newTrack, tracks, action)`. The result is false when the
   * returned promise rejects: an engine error (here, a `skip` outside the
   * engine's queue) is not caught and ends the operation.
   */
  method AddTrack(newTrack: Track, tracks: seq<Track>, action: string,
                  player: Player, store: Store, state: GlobalState, toaster: Toaster,
                  fault: Option<nat>)
    returns (ok: bool)
    modifies player, store, state, toaster
    // no match: the track is appended and the queue persisted
    ensures LastMatch(tracks, newTrack.id).None? ==>
      var queue := old(player.queue) + [newTrack];
      var current := CurrentAfterAdd(old(player.queue), old(player.current), [newTrack]);
      && player.queue == queue
      && store.items == PersistedItems(old(store.items), queue, current, fault)
      && state.value == PublishedState(old(state.value), queue, current, fault)
    // a match: no duplicate is inserted and nothing is persisted
    ensures LastMatch(tracks, newTrack.id).Some? ==>
      player.queue == old(player.queue) && store.items == old(store.items) && state.value == old(state.value)
    // 'play' skips to the matched index or to the appended track, and plays
    ensures action == "play" ==>
      && (ok <==> PlayTarget(tracks, newTrack.id) < |player.queue|)
      && (ok ==> player.current == Some(PlayTarget(tracks, newTrack.id)) && player.playing)
    // any other action, or a rejected skip, leaves position and playback alone
    ensures action != "play" ==> ok
    ensures action != "play" || !ok ==>
      && player.playing == old(player.playing)
      && player.current == if LastMatch(tracks, newTrack.id).None?
                           then CurrentAfterAdd(old(player.queue), old(player.current), [newTrack])
                           else old(player.current)
    // 'atpl' reports exactly once whether the track was already there; nothing else reports
    ensures toaster.shown == old(toaster.shown) +
      if action != "atpl" then []
      else if LastMatch(tracks, newTrack.id).Some? then [AlreadyInPlaylist]
      else [AddedToPlaylist]
    // given the engine's own queue, as callers are asked to pass
    ensures tracks == old(player.queue) ==> ok
    ensures tracks == old(player.queue) && action == "play" ==>
      player.current.Some? && player.current.value < |player.queue| &&
      player.queue[player.current.value].id == newTrack.id
    ensures tracks == old(player.queue) && DistinctIds(tracks) ==> DistinctIds(player.queue)
    ensures old(player.Valid()) ==> player.Valid()
  {
    var inQueue, indexMatch := ScanForMatch(newTrack, tracks);
    var numTracks := |tracks|;
    ok := true;

    if !inQueue {
      // `TrackPlayer.add` is not awaited in the source; it is taken to complete first
      player.Add([newTrack]);
      StoreTracks(player, store, state, fault);
      if action == "play" {
        ok := player.Skip(numTracks);
        if !ok {
          return;
        }
        player.Play();
      }
    }

    if inQueue && action == "play" {
      ok := player.Skip(indexMatch);
      if !ok {
        return;
      }
      player.Play();
    }

    if action == "atpl" && inQueue {
      toaster.Show(AlreadyInPlaylist);
    }

    if action == "atpl" && !inQueue {
      toaster.Show(AddedToPlaylist);
    }

    if tracks == old(player.queue) && DistinctIds(tracks) && !inQueue {
      AppendFreshKeepsDistinct(tracks, newTrack);
    }
  }
}
