# Track-player helper functions, modelled in Dafny

This project models the helper functions that a React Native audio app
uses around react-native-track-player. They keep the engine's queue, a
durable copy of it in AsyncStorage, and the app's global state in step,
and they add tracks to the playlist:

- **Status projection** (`getStatusText`, `buttonType`): these map a playback
  state to the status label and to the kind of button the player screen
  shows (module `Status`).
- **State sync** (`storeTracks`, `loadStoredTracks`): these mirror the engine's
  queue and current index into the two store keys `@tracks` and
  `@currentIndex` and into the global state `{playlistCounter,
  currentIndex, currentTrack, currentQueue}`. At start-up they bring a
  stored playlist back (module `Sync`).
- **Track admission** (`addTrack`): this scans the queue for the new
  track's `id`. Depending on the action (`'play'`, `'atpl'` or any other
  string), it then appends and persists the track, skips to it and plays it,
  or shows a toast (module `Admission`).

The collaborators are classes whose state stands for what the source can
observe of them. They are in `collaborators.dfy`:

- `Engine.Player` is the engine: a queue, the current index and a playing flag.
- `Storage.Store` is AsyncStorage: a map from key to text.
- `Notify.Toaster` is the log of toasts shown.

`State.GlobalState` holds the global state, initialised as in `state.js`.
Every asynchronous call is taken to complete before the next one starts.

The model uses these failure points:

- A store call can reject. `storeTracks` and `loadStoredTracks` take a
  `fault` argument that names which store call of their `try` block rejects.
- The engine rejects a `skip` to an index outside its queue, and `skip(NaN)`.
- `addTrack` does not catch that rejection. `AddTrack` returns `false` for it.

The text stored under `@tracks` is written by `Codec.EncodeTracks`. It
stands in for `JSON.stringify`: each string field is written as its
decimal length, a colon and its characters. Decoding is proved to undo
encoding, so the encoding is injective, which is all the sync logic relies
on. The index is written and read as a decimal numeral, as `toString` and
`parseInt` do for a non-negative integer.

Behaviour worth noting:

- When several tracks share the new track's `id`, the scan does not stop at
  a match, so it keeps the **last** matching index.
- The corrected `catch` block of `storeTracks` (see "## Findings"; as
  written, it throws before removing either key) resets only
  `playlistCounter` to 0. It leaves `currentQueue`, `currentIndex` and
  `currentTrack` as they were, so, when a non-empty queue was shown before,
  the counter (0) no longer matches it
  (`Sync.FailedPersistLeavesStaleQueue`).
- `loadStoredTracks` may reset and load the engine and then fail at `skip`.
  The engine then holds the stored queue, positioned at its first track,
  while the global state is unchanged.

## Model

| member | source | states |
|---|---|---|
| `Status.StatusText` | tracks.js:69-84 | The label is "BUFFERING...", "LOADING..." and "CONNECTING..." exactly for Buffering, Loading and Connecting respectively, and so ends in "..." exactly for those three. It is "NOW PLAYING" exactly for Playing, "PAUSED (READY TO PLAY)" exactly for Paused, and "READY TO PLAY" exactly for every other state. |
| `Status.ButtonType` | tracks.js:88-103 | The result is one of "load", "play" or "pause". "load" is returned exactly while the engine is waiting (Buffering, Loading or Connecting), "play" exactly for Playing, and "pause" for Paused and for every other state. |
| `Status.StatusTextInjective` | tracks.js:69-84 | Two states with the same label are the same state. |
| `Status.ButtonFollowsStatusText` | tracks.js:69-103 | The button is determined by the label: a spinner exactly when the label ends in "...", and "play" exactly when the label is "NOW PLAYING". |
| `Codec.DecodeEncodeNat` | tracks.js:44 | Reading back the decimal text that is written for an index gives the same index, as `parseInt` does on line 14. |
| `Codec.DecodeEncodeTracks` | tracks.js:43 | Decoding the stored text of a queue gives back the same queue, in the same order. |
| `Codec.EncodeTracksInjective` | tracks.js:43 | Different queues are stored as different texts. |
| `State.GlobalState.constructor` | state.js:3-8 | At start-up the counter is 0, index and track are null, and the queue is empty. |
| `Sync.InitialConsistent` | state.js:3-8 | The start-up state is consistent: the counter equals the queue length, and index and track are null exactly when the queue is empty. |
| `Sync.WriteRecord` | tracks.js:36-50 | For a non-empty queue, both keys are written (queue text, then index text). For an empty queue, both keys are removed. The block stops at a null index or at the first store call that rejects. It succeeds exactly when neither happens. |
| `Sync.Publish` | tracks.js:52-55 | Publishes the live queue, its length as the counter, and the index and track, which are null for an empty queue. |
| `Sync.StoreTracks` | tracks.js:34-64 | The store ends as `PersistedItems` and the global state as `PublishedState` of the live queue and index, whichever store call fails. |
| `Sync.PersistedItems` | tracks.js:40-62 | Both keys are present or both absent afterwards. They are present exactly when the queue is non-empty and nothing failed. No other key changes. |
| `Sync.PublishedState` | tracks.js:37-60 | On success, the counter is the queue length and the queue is the live one. For a non-empty queue, the index is the engine's current index and the track is the one at that index. For an empty queue, index and track are null. On failure, the counter becomes 0 and nothing else changes. |
| `Sync.PublishedConsistent` | tracks.js:52-55 | When the engine's index is valid, a successful store publishes a consistent state, with the track being the one at the index. |
| `Sync.FailedPersistLeavesStaleQueue` | tracks.js:56-63 | If a failure follows a published non-empty queue, the counter (0) no longer matches the queue that is shown. |
| `Sync.WriteCompleteIsPersisted` | tracks.js:40-50 | A `try` block that runs to completion leaves exactly the record that `storeTracks` promises. |
| `Sync.CompensationClearsRecord` | tracks.js:59-62 | Wherever the `try` block failed, removing both keys leaves no record and leaves every other key as it was. |
| `Sync.StoreTracksAsWritten` | tracks.js:56-63 | As written, the promise rejects exactly when the `try` block fails. The store is left as the `try` block left it, and the global state is untouched. |
| `Sync.WriteFaultBreaksRecord` | tracks.js:45-62 | If the store rejects the `@currentIndex` write, the uncompensated store has `@tracks` without `@currentIndex`. The compensated store has neither. |
| `Sync.QueueToLoad` | tracks.js:11-16 | The engine is reloaded exactly when both reads succeed and the stored queue decodes to a non-empty list, and then with that list. A missing, malformed or empty list loads nothing. |
| `Sync.LoadedRecord` | tracks.js:11-20 | A record is published exactly when its queue is loaded and its stored index decodes to a position inside that queue, and the record is then that queue and that index. |
| `Sync.RestoredState` | tracks.js:16-28 | With no record to publish, the state is untouched; a missing or empty stored list, or a failed read, publishes nothing. With a record, it publishes the stored queue, the stored index, the track at that index, and the queue length as counter, which is a consistent state. |
| `Sync.RestoreIdempotent` | tracks.js:9-29 | Loading twice in a row publishes the same state as loading once. |
| `Sync.RestorePlayer` | tracks.js:11-20 | The engine is reset and loaded with the stored queue exactly when that queue is non-empty and readable. It is positioned at the stored index when that index is valid, and otherwise stays at the first track. |
| `Sync.LoadStoredTracks` | tracks.js:9-29 | The global state becomes `RestoredState` of the store. A loaded engine holds the stored queue, is valid and is not playing. It is at the stored index when `skip` accepts it, and at the first track otherwise. Otherwise the engine is unchanged. |
| `Sync.LoadStoredTracksAsWritten` | tracks.js:21 | As written, the engine is loaded and positioned as in `LoadStoredTracks`, but the global state never changes. |
| `Sync.PersistThenRestore` | tracks.js:11-55 | After a successful store of a non-empty queue with a valid index, loading reads back that queue and index. It publishes the same state that the store published. |
| `Sync.EmptyPersistThenRestore` | tracks.js:16-62 | After a store that left no record (empty queue or failure), loading changes nothing. |
| `Sync.Restart` | tracks.js:9-29 | A restart with a stored one-track playlist leaves that track in the engine and shows it in the global state with counter 1. |
| `Sync.RestartAsWritten` | tracks.js:21 | As written, the same restart loads the engine but leaves the global state showing an empty playlist with counter 0. |
| `Admission.LastMatch` | tracks.js:125-131 | The result is null exactly when no track has the id. Otherwise it is the largest index whose track has the id. |
| `Admission.PlayTarget` | tracks.js:138-147 | `'play'` skips either to the last matched index (a track with the id) or to the length of the given queue, where the appended track lands. |
| `Admission.ScanForMatch` | tracks.js:117-131 | The full scan ends with `inQueue` true exactly when `LastMatch` finds the id. `indexMatch` is then that last matching index; otherwise it stays 0. |
| `Admission.AppendFreshKeepsDistinct` | tracks.js:133-136 | Appending a track whose id is absent keeps the queue's ids distinct. |
| `Admission.AddTrack` | tracks.js:113-165 | With no match, the queue becomes the old queue plus the track, and store and state become what `storeTracks` makes of that queue. With a match, queue, store and state are unchanged. `'play'` skips to `PlayTarget` and plays, or rejects when that index lies outside the engine's queue. Other actions never skip or play. `'atpl'` shows exactly one toast (info on a match, success otherwise), and other actions show none. When the caller passes the engine's own queue, the call succeeds and `'play'` lands on a track with the new id. Distinct ids stay distinct, and the engine's invariant is kept. |

## Left out

- JSON: the text format of `@tracks` is not JSON. It is an injective encoding with a proved round trip, and `Track` carries only `id`, `url`, `title` and `artist` as strings.
- `parseInt` leniency: leading whitespace, signs, trailing junk and non-decimal text are not modelled. Any text that is not a decimal numeral reads as `NaN`.
- Queues that do not hold tracks: a stored text that parses to JSON that is not a list of tracks (for example `null`, a number, or an array of other values) is treated as unreadable.
- Concurrency: overlapping calls and the un-awaited `TrackPlayer.add` in `addTrack` (tracks.js:135) are not modelled. Every call is taken to complete, in order, before the next one starts.
- Store failures: at most one store call per operation rejects. The two removals in the `catch` block of `storeTracks` are taken to succeed.
- Engine failures: the engine fails only on `skip`. Other engine failures (native errors in `reset`, `add`, `getQueue`, `getTrack`, `play`) are not modelled.
- Engine behaviour: `play()` only sets the playing flag. Adding to an empty queue makes its first track current, as the engine does.
- Logging and UI: `console.log` output, the `useGlobalState` hook, and how toasts are rendered (only their type, text and `topOffset` are kept) are not modelled.
- Playback states: the engine's states outside the five that are named are collapsed into one `Other` state. Two named constants with equal runtime values are not modelled.
- Admission.AddTrack: uses the corrected `StoreTracks`. As written, a rejected store call makes the `catch` block of `storeTracks` throw (tracks.js:60), so `await storeTracks()` (tracks.js:136) rejects and `addTrack` rejects before the skip, the play and the toast of tracks.js:138-164. The model instead goes on to skip, play or show the toast after a store fault.
- Track ids: ids are strings. A track with no `id` (`undefined`), which compares equal to every other id-less track, is not modelled.

## Findings

| source | as written | input that shows it | evidently intended | confidence | as-written member | corrected member |
|---|---|---|---|---|---|---|
| tracks.js:21 | `loadStoredTracks` calls `updatePlaylistCounter`, which tracks.js neither defines nor imports. The call throws after the engine is loaded, and the `catch` block swallows the error, so lines 22-24 never run. | Restart with one stored track and index 0 (`Sync.RestartAsWritten`): the engine holds the track, but the global state shows an empty playlist with counter 0. | Publish the counter as `setGlobalState('playlistCounter', …)` does on line 55, then publish queue, index and track. | medium, not executed (a global function of that name defined elsewhere in an app would avoid it) | `Sync.LoadStoredTracksAsWritten` | `Sync.LoadStoredTracks` |
| tracks.js:60 | The `catch` block of `storeTracks` calls the same undefined function. The call throws, so the removals on lines 61-62 never run and the promise rejects. | Empty store, queue `[t]` at index 0, and a rejected `@currentIndex` write (`Sync.WriteFaultBreaksRecord`): the store ends with `@tracks` and no `@currentIndex`. | Reset the counter to 0 and remove both keys, so the record is either complete or absent. | medium, not executed (same caveat) | `Sync.StoreTracksAsWritten` | `Sync.StoreTracks` |
