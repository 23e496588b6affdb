# YNMusicPlayer core, modelled in Dafny

YNMusicPlayer is an iOS music player. The user imports audio files into the
app's sandbox and keeps them in an ordered library. The app plays them one at
a time, stepping to the next or previous track, and shows the title, artist
and artwork read from each file. This project models the domain layer behind
the screens:

- `tracks.dfy`, module `Tracks`: the `Music` value. It holds the track's file
  URL and the name the file had when it was imported. Its `id` and `fileName`
  are the URL's last path component. Its equality is the synthesised one over
  both stored fields.
- `asset_store.dfy`, module `AssetStore`: the library, `MusicAssetStore`.
  - It keeps two arrays in parallel: the tracks shown and the persisted
    records behind them.
  - Operations: add, delete by offsets, step to the next or previous track by
    first occurrence, and the selection check.
  - The sandbox copy and every persistent-store outcome are inputs.
- `metadata_store.dfy`, module `Metadata`: the metadata memo, `MetadataStore`.
  - It is a dictionary keyed by track, filled on the first successful load.
  - `fetchMetadata`'s fallback rules are a pure function of what probing the
    file yields. That probe result is an input.
- `audio_player.dfy`, module `Playback`: the transport, `AudioPlayer`.
  - The media engine is a value (`Engine`): its loaded item, whether it has
    been told to play, and the seeks issued to it.
  - The metadata tasks and the delayed arming closures `set` schedules are a
    second value (`Scheduled`).
  - Every asynchronous callback is a method the caller invokes when the event
    happens: seek completion, the periodic time report, the arming of
    progress, the end of a metadata task, the end of an item, and each remote
    command.
- `wrappers.dfy`, module `Wrappers`: `Option`.

Three behaviours of the code are worth stating up front:

- Equality compares both stored fields of `Music`, so two values with one `id`
  can differ (`Tracks.SameIdDoesNotImplyEqual`).
- `ArmProgress` arms progress whichever `set` queued it, as
  YNMusicPlayer/Domain/AudioPlayer.swift:74-76 does. An arming queued before a
  later `set` is not dropped.
- Any seek's completion lowers `isSeeking`. This is modelled as written and,
  with the handler that was evidently intended, under "## Findings".

## Model

| member | source | states |
|---|---|---|
| Tracks.LastPathComponent | YNMusicPlayer/Model/Music.swift:14 | `URL.lastPathComponent` on a path, by recursion from the end; what it yields is stated by LastPathComponentIsFinalSegment |
| Tracks.LastPathComponentIsFinalSegment | YNMusicPlayer/Model/Music.swift:14 | `fileName` is the final segment of the URL's path: it has no '/', it is a suffix of the path, and the character before it (if any) is '/' |
| Tracks.LastComponentOfAppended | YNMusicPlayer/Domain/MusicAssetStore.swift:80-85 | a file name without '/' appended to a directory URL is that URL's last path component again |
| Tracks.AppendingPathComponent | YNMusicPlayer/Domain/MusicAssetStore.swift:80-85 | `appendingPathComponent`: the result lies under the directory, after a separator, and a name without '/' is its last component |
| Tracks.Music.FileName | YNMusicPlayer/Model/Music.swift:14 | `fileName` is the URL's last path component and holds no '/'; LastPathComponentIsFinalSegment states which suffix of the path it is |
| Tracks.Music.Id | YNMusicPlayer/Model/Music.swift:12 | `id` is `fileName`; IdIsFileName states what that gives |
| Tracks.IdIsFileName | YNMusicPlayer/Model/Music.swift:12-14 | `id` equals `fileName`, depends on the URL alone, and contains no '/' |
| Tracks.EqualityIsFieldwise | YNMusicPlayer/Model/Music.swift:11-18 | two tracks are equal exactly when URL and original name both agree; equal tracks have equal ids |
| Tracks.SameIdDoesNotImplyEqual | YNMusicPlayer/Model/Music.swift:12-18 | some two distinct tracks share one id |
| AssetStore.FirstIndexOf | YNMusicPlayer/Domain/MusicAssetStore.swift:57 | `firstIndex(of:)`: none exactly when absent; otherwise an index holding the element with no earlier occurrence |
| AssetStore.NextOf | YNMusicPlayer/Domain/MusicAssetStore.swift:56-63 | none when absent or when the first occurrence is last; otherwise the element after the first occurrence |
| AssetStore.PrevOf | YNMusicPlayer/Domain/MusicAssetStore.swift:65-72 | none when absent or when the first occurrence is at index 0; otherwise the element before it |
| AssetStore.NextPrevInverse | YNMusicPlayer/Domain/MusicAssetStore.swift:56-72 | in a library without duplicates, y is next of x exactly when x is previous of y |
| AssetStore.DuplicateLookupUsesFirstCopy | YNMusicPlayer/Domain/MusicAssetStore.swift:57-59 | with a duplicated track, the lookups start from its first copy |
| AssetStore.RemoveAt | YNMusicPlayer/Domain/MusicAssetStore.swift:51-52 | `remove(at:)`: one shorter, elements before the index kept, later ones shifted down by one |
| AssetStore.CountDeleted | YNMusicPlayer/Domain/MusicAssetStore.swift:50 | the number of successful persistence deletes is at most the number of offsets |
| AssetStore.RemoveEach | YNMusicPlayer/Domain/MusicAssetStore.swift:47-54 | the ascending loop shortens the array by exactly one per successful delete |
| AssetStore.RemoveEachStep | YNMusicPlayer/Domain/MusicAssetStore.swift:48-52 | each turn's offset is in range of the array as already shortened, and the rest of the loop continues from that turn's result |
| AssetStore.RemoveEachKeepsCorrespondence | YNMusicPlayer/Domain/MusicAssetStore.swift:47-54 | removing the same offsets from both arrays keeps record i describing track i |
| AssetStore.Without | YNMusicPlayer/Domain/MusicAssetStore.swift:47-54 | reference definition of the intended deletion: the elements whose original index was not chosen, in order |
| AssetStore.Succeeded | YNMusicPlayer/Domain/MusicAssetStore.swift:48-50 | the rows to remove are only chosen offsets, those whose persistence delete succeeded |
| AssetStore.WithoutSameBelow | YNMusicPlayer/Domain/MusicAssetStore.swift:47-54 | the intended deletion depends only on which indices of the array are chosen |
| AssetStore.WithoutSplit | YNMusicPlayer/Domain/MusicAssetStore.swift:47-54 | removing rows all below k leaves the rows from k on untouched |
| AssetStore.WithoutRemoveAt | YNMusicPlayer/Domain/MusicAssetStore.swift:51-52 | removing row o before any lower row equals marking o as removed |
| AssetStore.SucceededBelowLast | YNMusicPlayer/Domain/MusicAssetStore.swift:47-48 | with ascending offsets, every earlier successful row lies below the last offset |
| AssetStore.RemoveFromBack | YNMusicPlayer/Domain/MusicAssetStore.swift:47-54 | the loop run over descending offsets removes exactly the rows chosen and successfully deleted |
| AssetStore.RemoveFromBackStep | YNMusicPlayer/Domain/MusicAssetStore.swift:48-52 | each turn of the descending loop keeps the remaining offsets in range and continues from its result |
| AssetStore.WithoutKeepsCorrespondence | YNMusicPlayer/Domain/MusicAssetStore.swift:51-52 | the intended deletion applied to both arrays keeps record i describing track i |
| AssetStore.AscendingDeleteShiftsLaterOffsets | YNMusicPlayer/Domain/MusicAssetStore.swift:47-54 | rows {0, 1} of [a, b, c] leave [b] instead of [c]; rows {1, 2} are out of range at the second turn |
| AssetStore.MusicAssetStore.Valid | YNMusicPlayer/Domain/MusicAssetStore.swift:43-52 | the parallel-array invariant every store method keeps: equal lengths, and record i (file name, original name) describes track i |
| AssetStore.MusicAssetStore.constructor | YNMusicPlayer/Domain/MusicAssetStore.swift:17-21 | both arrays empty, no selection |
| AssetStore.MusicAssetStore.Restore | YNMusicPlayer/Domain/MusicAssetStore.swift:23-32 | a non-nil result replaces the records and builds each track from the documents directory and the stored name; a nil result changes nothing; the arrays stay parallel. A failed fetch reaches here as `[]` (YNMusicPlayer/Persistence/Persistence.swift:82-86 returns an empty array on error), which empties the library |
| AssetStore.MusicAssetStore.AddMusic | YNMusicPlayer/Domain/MusicAssetStore.swift:38-45 | a failed copy or save changes nothing; otherwise the track and its record are appended to the two arrays; the arrays stay parallel |
| AssetStore.MusicAssetStore.DeleteMusic | YNMusicPlayer/Domain/MusicAssetStore.swift:47-54 | as written: both arrays become the ascending loop's result, a failed delete skipping its offset; the arrays stay parallel |
| AssetStore.MusicAssetStore.DeleteMusicFromBack | YNMusicPlayer/Domain/MusicAssetStore.swift:47-54 | as intended: both arrays lose exactly the chosen rows whose delete succeeded; the arrays stay parallel |
| AssetStore.MusicAssetStore.NextMusic | YNMusicPlayer/Domain/MusicAssetStore.swift:56-63 | returns the next track by first occurrence; when there is one it becomes the selection (name and value), otherwise the selection is unchanged; the arrays never change |
| AssetStore.MusicAssetStore.PrevMusic | YNMusicPlayer/Domain/MusicAssetStore.swift:65-72 | the mirror image of NextMusic |
| AssetStore.MusicAssetStore.CheckSet | YNMusicPlayer/Domain/MusicAssetStore.swift:74-76 | true exactly when the selected track is `asset` |
| Metadata.FetchMetadata | YNMusicPlayer/Domain/MetadataStore.swift:53-93 | fails exactly when some awaited load throws; title: tag, else alternate title, else "Unknown"; artist: tag, else "Unknown"; artwork: the tag's, possibly none; duration: the asset's |
| Metadata.LoadStep | YNMusicPlayer/Domain/MetadataStore.swift:42-51 | a hit returns the entry and leaves the cache; a miss fetches with the original name as alternate title; only a success is stored |
| Metadata.LoadIsMemoised | YNMusicPlayer/Domain/MetadataStore.swift:43-45 | after a successful load, every later load returns the same value and leaves the cache, whatever the file would yield now |
| Metadata.FailedLoadRetries | YNMusicPlayer/Domain/MetadataStore.swift:47-50 | a failed load leaves the cache as it was, so the next load probes afresh |
| Metadata.LoadKeepsEntries | YNMusicPlayer/Domain/MetadataStore.swift:36-40 | no load removes or replaces an entry |
| Metadata.LoadedTitleFallsBackToOriginalName | YNMusicPlayer/Domain/MetadataStore.swift:48-88 | through loadIfNeeded the title is the tag's or else the track's original name, never "Unknown" |
| Metadata.MetadataStore.constructor | YNMusicPlayer/Domain/MetadataStore.swift:21-26 | the memo starts empty |
| Metadata.MetadataStore.Get | YNMusicPlayer/Domain/MetadataStore.swift:28-34 | the entry for `asset`, none exactly when absent |
| Metadata.MetadataStore.Set | YNMusicPlayer/Domain/MetadataStore.swift:36-40 | stores `data` under `asset`; every other entry is unchanged |
| Metadata.MetadataStore.LoadIfNeeded | YNMusicPlayer/Domain/MetadataStore.swift:42-51 | result and new cache are LoadStep's on the old cache |
| Playback.Below | YNMusicPlayer/Domain/AudioPlayer.swift:57 | the task numbers below n, as used by the cancellation invariant |
| Playback.Engine.Seek | YNMusicPlayer/Domain/AudioPlayer.swift:94-99 | a seek is appended to the engine's log; it is pending exactly when its completion handler is tracked; item and play state unchanged |
| Playback.Engine.FinishItem | YNMusicPlayer/Domain/AudioPlayer.swift:220-224 | at the end of its item the engine is paused and keeps its item; a loaded item gets one more, untracked, seek to 0 |
| Playback.Scheduled.AfterSet | YNMusicPlayer/Domain/AudioPlayer.swift:55-77 | set's scheduling: the held task is cancelled, a new task for the track is held, one arming is queued; of all tasks only the new one is not cancelled |
| Playback.OnlyLatestTaskLive | YNMusicPlayer/Domain/AudioPlayer.swift:180-185 | a task is not cancelled exactly when it is the latest |
| Playback.LatestSetWins | YNMusicPlayer/Domain/AudioPlayer.swift:55-77 | after two sets, the first track's task is cancelled and the second's is not |
| Playback.AudioPlayer.Valid | YNMusicPlayer/Domain/AudioPlayer.swift:55-77 | the player invariant every method keeps: unarmed progress reads 0, `currentItemUrl` is the engine's item, the engine holds the current track and the latest metadata task loads it, every earlier task is cancelled, every pending seek was issued |
| Playback.AudioPlayer.IsPlaying | YNMusicPlayer/Domain/AudioPlayer.swift:26 | `isPlaying`: the engine has an item and has been told to play; Play and Stop state it |
| Playback.AudioPlayer.constructor | YNMusicPlayer/Domain/AudioPlayer.swift:12-45 | nothing loaded, engine idle, duration 1, all flags off, nothing scheduled |
| Playback.AudioPlayer.Set | YNMusicPlayer/Domain/AudioPlayer.swift:55-77 | progress disarmed and at 0, duration 0, track current, engine loaded with it and playing, scheduling as AfterSet; repeat, seeking and seeks untouched; the player invariant is kept |
| Playback.AudioPlayer.Play | YNMusicPlayer/Domain/AudioPlayer.swift:79-85 | no track and an empty library: nothing changes; no track: set the first track; with a track: only the engine resumes; playing afterwards exactly when there was a track or a library to start from |
| Playback.AudioPlayer.Stop | YNMusicPlayer/Domain/AudioPlayer.swift:87-92 | no track: nothing changes; otherwise the item is released and the engine pauses (no longer playing), track, position and duration kept |
| Playback.AudioPlayer.Seek | YNMusicPlayer/Domain/AudioPlayer.swift:94-100 | `isSeeking` raised and a tracked seek issued |
| Playback.AudioPlayer.SeekCompleted | YNMusicPlayer/Domain/AudioPlayer.swift:97-99 | as written: any completion lowers `isSeeking` and retires its seek |
| Playback.AudioPlayer.SeekCompletedLatestOnly | YNMusicPlayer/Domain/AudioPlayer.swift:97-99 | as intended: the flag stays raised exactly when a later seek is still pending |
| Playback.AudioPlayer.EarlierSeekCompletionClearsFlag | YNMusicPlayer/Domain/AudioPlayer.swift:94-100 | two seeks in flight: the first completion lowers the flag while the second is pending |
| Playback.AudioPlayer.LaterSeekKeepsFlag | YNMusicPlayer/Domain/AudioPlayer.swift:94-100 | with the intended handler the flag stays raised in the same scenario |
| Playback.AudioPlayer.PeriodicTimeReport | YNMusicPlayer/Domain/AudioPlayer.swift:207-218 | while seeking the position is untouched; unarmed it reads 0; armed it is the reported time |
| Playback.AudioPlayer.ArmProgress | YNMusicPlayer/Domain/AudioPlayer.swift:74-76 | any queued arming arms progress, whichever set queued it |
| Playback.AudioPlayer.MetadataTaskFinished | YNMusicPlayer/Domain/AudioPlayer.swift:180-196 | the memo advances as LoadStep; the duration becomes the fetched one exactly when the fetch succeeded and the task is the latest, otherwise it is unchanged |
| Playback.AudioPlayer.StaleMetadataTaskKeepsDuration | YNMusicPlayer/Domain/AudioPlayer.swift:177-197 | after two sets, the first track's task leaves the duration at 0 though its fetch is memoised |
| Playback.AudioPlayer.PlayNextMusic | YNMusicPlayer/Domain/AudioPlayer.swift:102-105 | no track or no next: nothing changes; otherwise the next track is set and becomes the library's selection |
| Playback.AudioPlayer.PlayPrevMusic | YNMusicPlayer/Domain/AudioPlayer.swift:107-110 | the mirror image of PlayNextMusic |
| Playback.AudioPlayer.RewindFinishedItem | YNMusicPlayer/Domain/AudioPlayer.swift:221-224 | the engine becomes FinishItem's; the duration becomes the item's when there is an item, otherwise it is unchanged |
| Playback.AudioPlayer.PlayerDidFinishPlaying | YNMusicPlayer/Domain/AudioPlayer.swift:220-230 | the engine is FinishItem's and the item's duration is taken; repeating: the engine plays again and nothing else changes; no next: it stays paused and nothing else changes, the store included; otherwise as PlayNextMusic (set the next track, with AfterSet's scheduling, and select it), the rewind kept in the seek log |
| Playback.AudioPlayer.RemotePlay | YNMusicPlayer/Domain/AudioPlayer.swift:125-128 | success; the engine resumes, without play()'s bootstrap |
| Playback.AudioPlayer.RemotePause | YNMusicPlayer/Domain/AudioPlayer.swift:130-133 | success; the engine pauses |
| Playback.AudioPlayer.RemoteChangePosition | YNMusicPlayer/Domain/AudioPlayer.swift:134-144 | a position event: an untracked seek and success; any other event fails and changes nothing |
| Playback.AudioPlayer.RemoteNextTrack | YNMusicPlayer/Domain/AudioPlayer.swift:146-150 | success, with PlayNextMusic's whole effect on the player and the store |
| Playback.AudioPlayer.RemotePreviousTrack | YNMusicPlayer/Domain/AudioPlayer.swift:152-156 | success, with PlayPrevMusic's whole effect on the player and the store |
| Playback.AudioPlayer.ChangeRepeatMode | YNMusicPlayer/Domain/AudioPlayer.swift:158-172 | success exactly for off and one, which set `isRepeating` to false and true; anything else fails with `isRepeating` unchanged |

## Left out

- Concurrency is not modelled. This covers `MetadataStore`'s concurrent queue and barrier writes, the `Task`s and the `asyncAfter` delay. Each completion is a method called in some order; interleavings inside one call are not modelled.
- `Metadata.MetadataStore.Set` stores at once, while the source's barrier write lands asynchronously. A `get` racing with it may still miss in the app.
- `Playback.AudioPlayer.MetadataTaskFinished`: the task's track is fixed when `set` schedules it. The source task reads `currentAsset` when its body starts; the two agree unless another `set` runs in between.
- AVFoundation and MediaPlayer are abstracted. The engine is its item URL, a play/pause flag and a seek log. Not modelled: time advancing, item status, `timeControlStatus` beyond `IsPlaying`, the now-playing dictionary (`setInfoCenter`'s writes, `updateNowPlayingRate`, elapsed time), command registration and `isEnabled`, the audio-session setup, the observers' removal in `deinit`, and the artwork image decoding.
- Times are `real` seconds that are only copied. `CMTime` at timescale 600 and non-finite durations are not modelled.
- `copyToAppSandbox` and `sandBoxURL` are not modelled. The copy is an input (`SandboxCopy`). The documents directory is a parameter of `Restore`.
- The persistent store (`PersistenceController`, the CoreData entity) is not modelled. Load, add and delete outcomes are inputs. The record's optional fields are present by construction.
- `AssetStore.MusicAssetStore.Restore`: requires stored file names without '/', which holds for every name `addMusic` stores (a last path component). The source force-unwraps them instead.
- `Tracks.LastPathComponent`: no trailing-slash stripping, percent-decoding or standardisation of `URL.lastPathComponent`.
- `AssetStore.MusicAssetStore.DeleteMusic`: requires every offset to be in range at its turn. Otherwise the source traps on an out-of-range index, which the model does not represent as an outcome.
- The shared singletons (`MusicAssetStore.shared`, `MetadataStore.shared`) are not modelled. The player receives the store and the memo it uses.
- The SwiftUI views and the app entry points are not modelled. The same holds for the views' direct writes to `isSeeking`, `isRepeating` and `playbackTime`, for logging and for `print`.

## Findings

| source | as written | input that shows it | evidently intended | confidence | as-written member | corrected member |
|---|---|---|---|---|---|---|
| YNMusicPlayer/Domain/MusicAssetStore.swift:47-54 | each ascending offset is applied to the arrays already shortened by earlier removals | rows {0, 1} of [a, b, c] remove a and c, leaving [b]; rows {1, 2} index past the end at the second offset | remove exactly the chosen rows, e.g. by visiting the offsets in descending order | high; not executed | AssetStore.AscendingDeleteShiftsLaterOffsets | AssetStore.MusicAssetStore.DeleteMusicFromBack |
| YNMusicPlayer/Domain/AudioPlayer.swift:94-99 | every seek's completion lowers `isSeeking` | seek twice; the first completion lowers the flag while the second seek is pending, so a periodic report overwrites the position | only the latest pending seek's completion lowers the flag | high; not executed | Playback.AudioPlayer.EarlierSeekCompletionClearsFlag | Playback.AudioPlayer.SeekCompletedLatestOnly |
