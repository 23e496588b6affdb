/**
 * The transport (`AudioPlayer`): the current track, the repeat and seeking
 * flags, the progress shown to the user and the duration from the metadata
 * memo. The media engine is abstracted to its loaded item, whether it has been
 * told to play, and the seeks issued to it. Every asynchronous callback (seek
 * completion, the periodic time report, the delayed arming of progress, the
 * end of the metadata task, the end of an item, remote commands) is a method
 * that the caller invokes when the event happens.
 */
module Playback {
  import opened Wrappers
  import opened Tracks
  import opened AssetStore
  import opened Metadata

  /** `MPRepeatType`, with the cases the handler does not know folded into one. */
  datatype RepeatType = Off | One | All | Unrecognised

  /** `MPRemoteCommandHandlerStatus`, as far as the handlers use it. */
  datatype CommandStatus = Success | CommandFailed

  /** The indices below `n`. */
  function Below(n: int): (r: set<nat>)
    ensures forall i: nat :: i in r <==> i < n
    decreases n
  {
    if n <= 0 then {} else Below(n - 1) + {(n - 1) as nat}
  }

  /**
   * The media engine (`AVPlayer`) as the player drives it: the URL of its
   * current item, whether it has been told to play (rate 1) rather than to
   * pause, every seek issued to it or to its item in order, and the positions
   * in `seeks` of the seeks whose completion handler has not run yet.
   */
  datatype Engine = Engine(item: Option<Url>, playing: bool, seeks: seq<Seconds>, pendingSeeks: set<nat>)
  {
    /** Every pending seek was issued. */
    predicate Valid() {
      pendingSeeks <= Below(|seeks|)
    }

    /** A seek to `time`; with `tracked`, its completion handler is still to run. */
    function Seek(time: Seconds, tracked: bool): (e: Engine)
      requires Valid()
      ensures e.Valid()
      ensures e.item == item && e.playing == playing
      ensures e.seeks == seeks + [time] && |e.seeks| == |seeks| + 1
      ensures tracked <==> |seeks| in e.pendingSeeks
      ensures e.pendingSeeks - {|seeks|} == pendingSeeks
    {
      this.(seeks := seeks + [time], pendingSeeks := pendingSeeks + (if tracked then {|seeks|} else {}))
    }

    /**
     * The item plays to its end: the engine pauses by itself, and the item,
     * if any, is rewound by a seek to 0 without completion handler.
     */
    function FinishItem(): (e: Engine)
      requires Valid()
      ensures e.Valid()
      ensures !e.playing && e.item == item && e.pendingSeeks == pendingSeeks
      ensures e.seeks == seeks + (if item.Some? then [0.0] else [])
    {
      var paused := this.(playing := false);
      if item.Some? then paused.Seek(0.0, false) else paused
    }
  }

  /**
   * The work the player has scheduled: the track each metadata task loads (a
   * task is its index in `tasks`), the task held in `loadMetadataTask`, the
   * tasks cancelled and the tasks that have run to their end, and the number
   * of delayed arming closures not yet run.
   */
  datatype Scheduled = Scheduled(
    tasks: seq<Music>, loadMetadataTask: Option<nat>, cancelled: set<nat>, finished: set<nat>, pendingArms: nat)
  {
    /** The task held is the latest one; every task but the latest has been cancelled. */
    predicate Valid() {
      && (tasks == [] <==> loadMetadataTask.None?)
      && (tasks != [] ==> loadMetadataTask == Some(|tasks| - 1))
      && cancelled == Below(|tasks| - 1)
      && finished <= Below(|tasks|)
    }

    /**
     * What `set(_:)` schedules for `music`: the held task is cancelled, a new
     * task loads `music` and is held, and one arming closure is queued.
     */
    function AfterSet(music: Music): (s: Scheduled)
      requires Valid()
      ensures s.Valid()
      ensures s.tasks == tasks + [music] && s.loadMetadataTask == Some(|tasks|)
      ensures s.finished == finished && s.pendingArms == pendingArms + 1
      ensures forall id :: 0 <= id < |s.tasks| ==> (id in s.cancelled <==> id < |tasks|)
    {
      Scheduled(
        tasks + [music], Some(|tasks|),
        cancelled + (if loadMetadataTask.Some? then {loadMetadataTask.value} else {}),
        finished, pendingArms + 1)
    }
  }

  /** Of the tasks scheduled, exactly the latest is not cancelled. */
  lemma OnlyLatestTaskLive(s: Scheduled, id: nat)
    requires s.Valid() && id < |s.tasks|
    ensures id !in s.cancelled <==> id == |s.tasks| - 1
  {
  }

  /**
   * Two tracks set in turn: the first track's task ends up cancelled and only
   * the second's may still write the duration.
   */
  lemma {:induction false} LatestSetWins(s: Scheduled, a: Music, b: Music)
    requires s.Valid()
    ensures var t := s.AfterSet(a).AfterSet(b);
      && t.tasks[|s.tasks|] == a && t.tasks[|s.tasks| + 1] == b
      && |s.tasks| in t.cancelled && |s.tasks| + 1 !in t.cancelled
  {
    var t1 := s.AfterSet(a);
    var t := t1.AfterSet(b);
    assert t.tasks == s.tasks + [a] + [b];
  }

  class AudioPlayer {
    const store: MusicAssetStore
    const metadata: MetadataStore

    /** The media engine (`player`). */
    var engine: Engine
    /** The retained player item, identified by its URL. */
    var item: Option<Url>
    var currentItemUrl: Option<Url>
    var shouldObserveProgress: bool
    var currentAsset: Option<Music>
    var isRepeating: bool
    var isSeeking: bool
    var playbackTime: Seconds
    var duration: Seconds
    /** Metadata tasks and delayed arming closures. */
    var scheduled: Scheduled

    ghost predicate Valid()
      reads this
    {
      && engine.Valid() && scheduled.Valid()
      // Progress reads 0 until it is armed.
      && (!shouldObserveProgress ==> playbackTime == 0.0)
      // The engine holds the current track; the latest metadata task loads it.
      && currentItemUrl == engine.item
      && (currentAsset.None? ==> engine.item.None? && scheduled.tasks == [])
      && (currentAsset.Some? ==>
            && engine.item == Some(currentAsset.value.url)
            && scheduled.tasks != []
            && scheduled.tasks[|scheduled.tasks| - 1] == currentAsset.value)
    }

    /** The engine is playing: it has an item and has been told to play. */
    predicate IsPlaying()
      reads this
    {
      engine.playing && engine.item.Some?
    }

    /** What `set(music)` does to the fields it assigns. */
    twostate predicate SetTo(music: Music)
      requires old(scheduled).Valid()
      reads this
    {
      && !shouldObserveProgress && playbackTime == 0.0 && duration == 0.0
      && currentAsset == Some(music)
      && engine.item == Some(music.url) && engine.playing
      && currentItemUrl == Some(music.url) && item == Some(music.url)
      && scheduled == old(scheduled).AfterSet(music)
    }

    /** The fields `set(music)` leaves alone. */
    twostate predicate SetLeavesAlone()
      reads this
    {
      && isRepeating == old(isRepeating) && isSeeking == old(isSeeking)
      && engine.seeks == old(engine.seeks) && engine.pendingSeeks == old(engine.pendingSeeks)
    }

    /** The current track, the flags, the position and the scheduled work are as they were. */
    twostate predicate TrackStateKept()
      reads this
    {
      && currentItemUrl == old(currentItemUrl) && shouldObserveProgress == old(shouldObserveProgress)
      && currentAsset == old(currentAsset) && isRepeating == old(isRepeating) && isSeeking == old(isSeeking)
      && playbackTime == old(playbackTime) && scheduled == old(scheduled)
    }

    /** Only the engine's play/pause state and the retained item may have changed. */
    twostate predicate OnlyTransportChanged()
      reads this
    {
      && TrackStateKept() && duration == old(duration)
      && engine.item == old(engine.item) && engine.seeks == old(engine.seeks)
      && engine.pendingSeeks == old(engine.pendingSeeks)
    }

    /** `init(store:)`: nothing loaded, duration 1, all flags off. */
    constructor (store: MusicAssetStore, metadata: MetadataStore)
      ensures Valid()
      ensures this.store == store && this.metadata == metadata
      ensures currentAsset == None && item == None && engine == Engine(None, false, [], {})
      ensures !isRepeating && !isSeeking && !shouldObserveProgress
      ensures playbackTime == 0.0 && duration == 1.0
      ensures scheduled == Scheduled([], None, {}, {}, 0)
    {
      this.store := store;
      this.metadata := metadata;
      engine := Engine(None, false, [], {});
      item, currentItemUrl := None, None;
      shouldObserveProgress := false;
      currentAsset := None;
      isRepeating, isSeeking := false, false;
      playbackTime, duration := 0.0, 1.0;
      scheduled := Scheduled([], None, {}, {}, 0);
    }

    /**
     * `set(_:)`: disarm progress, cancel the previous metadata task, zero the
     * duration and position, load `music` into the engine and play it, start a
     * metadata task for it and schedule the arming of progress.
     */
    method Set(music: Music)
      requires Valid()
      modifies this
      ensures Valid()
      ensures SetTo(music) && SetLeavesAlone()
    {
      // `loadMetadataTask?.cancel()`, `setInfoCenter(duration:)` and the delayed arming.
      var next := scheduled.AfterSet(music);
      shouldObserveProgress := false;
      duration, playbackTime := 0.0, 0.0;
      currentAsset := Some(music);
      // `player.replaceCurrentItem(with:)`, `currentItemUrl` and `item`; the
      // nested `play()` finds `currentAsset` set, so it only resumes the engine.
      engine := engine.(item := Some(music.url), playing := true);
      currentItemUrl, item := Some(music.url), Some(music.url);
      scheduled := next;
    }

    /**
     * `play()`: with no current track, set the library's first track (nothing
     * happens when the library is empty); otherwise resume the engine.
     */
    method Play()
      requires Valid()
      modifies this
      ensures Valid()
      ensures old(currentAsset).None? && store.musics == [] ==> unchanged(this)
      ensures old(currentAsset).None? && store.musics != [] ==> SetTo(store.musics[0]) && SetLeavesAlone()
      ensures old(currentAsset).Some? ==> engine.playing && item == old(item) && OnlyTransportChanged()
      ensures old(currentAsset).Some? || store.musics != [] <==> IsPlaying()
    {
      if currentAsset.None? {
        if store.musics == [] {
          return;
        }
        Set(store.musics[0]);
      }
      engine := engine.(playing := true);
    }

    /**
     * `stop()`: with no current track nothing happens; otherwise release the
     * retained item and pause, keeping the track and the position.
     */
    method Stop()
      requires Valid()
      modifies this
      ensures Valid()
      ensures old(currentAsset).None? ==> unchanged(this)
      ensures old(currentAsset).Some? ==> !engine.playing && item == None && OnlyTransportChanged()
      ensures old(currentAsset).Some? ==> !IsPlaying()
    {
      if currentAsset.None? {
        return;
      }
      item := None;
      engine := engine.(playing := false);
    }

    /** `seek(to:)`: raise `isSeeking` and issue a seek whose completion will lower it. */
    method Seek(time: Seconds)
      requires Valid()
      modifies this`isSeeking, this`engine
      ensures Valid()
      ensures isSeeking
      ensures engine == old(engine).Seek(time, true)
    {
      isSeeking := true;
      engine := engine.Seek(time, true);
    }

    /** The completion handler of seek number `id`: it lowers `isSeeking`, whichever seek it belongs to. */
    method SeekCompleted(id: nat)
      requires Valid() && id in engine.pendingSeeks
      modifies this`isSeeking, this`engine
      ensures Valid()
      ensures !isSeeking
      ensures engine == old(engine).(pendingSeeks := old(engine.pendingSeeks) - {id})
    {
      isSeeking := false;
      engine := engine.(pendingSeeks := engine.pendingSeeks - {id});
    }

    /**
     * The evidently intended completion handler: it lowers `isSeeking` only
     * when no seek issued after seek `id` is still pending.
     */
    method SeekCompletedLatestOnly(id: nat)
      requires Valid() && id in engine.pendingSeeks
      modifies this`isSeeking, this`engine
      ensures Valid()
      ensures isSeeking <==> old(isSeeking) && exists later :: later in old(engine.pendingSeeks) && later > id
      ensures engine == old(engine).(pendingSeeks := old(engine.pendingSeeks) - {id})
    {
      if forall later | later in engine.pendingSeeks :: later <= id {
        isSeeking := false;
      }
      engine := engine.(pendingSeeks := engine.pendingSeeks - {id});
    }

    /**
     * Two seeks in flight, then the first one's handler runs, as the engine
     * does when a seek is superseded: the flag is lowered although the second
     * seek is still pending.
     */
    method EarlierSeekCompletionClearsFlag(first: Seconds, second: Seconds)
      requires Valid()
      modifies this`isSeeking, this`engine
      ensures Valid()
      ensures !isSeeking && |old(engine.seeks)| + 1 in engine.pendingSeeks
      ensures engine.seeks == old(engine.seeks) + [first, second]
    {
      var id := |engine.seeks|;
      Seek(first);
      Seek(second);
      SeekCompleted(id);
    }

    /** The same two seeks with the intended handler: the flag stays raised. */
    method LaterSeekKeepsFlag(first: Seconds, second: Seconds)
      requires Valid()
      modifies this`isSeeking, this`engine
      ensures Valid()
      ensures isSeeking && |old(engine.seeks)| + 1 in engine.pendingSeeks
      ensures engine.seeks == old(engine.seeks) + [first, second]
    {
      var id := |engine.seeks|;
      Seek(first);
      Seek(second);
      SeekCompletedLatestOnly(id);
    }

    /**
     * The periodic time observer with the engine at `time`: ignored while
     * seeking; 0 until progress is armed; `time` once it is.
     */
    method PeriodicTimeReport(time: Seconds)
      requires Valid()
      modifies this`playbackTime
      ensures Valid()
      ensures isSeeking ==> playbackTime == old(playbackTime)
      ensures !isSeeking && !shouldObserveProgress ==> playbackTime == 0.0
      ensures !isSeeking && shouldObserveProgress ==> playbackTime == time
    {
      if isSeeking {
        return;
      }
      if !shouldObserveProgress {
        playbackTime := 0.0;
        return;
      }
      playbackTime := if isSeeking then playbackTime else time;
    }

    /** A delayed arming closure runs: progress is armed, whichever `set` scheduled it. */
    method ArmProgress()
      requires Valid() && scheduled.pendingArms > 0
      modifies this`shouldObserveProgress, this`scheduled
      ensures Valid()
      ensures shouldObserveProgress
      ensures scheduled == old(scheduled).(pendingArms := old(scheduled.pendingArms) - 1)
    {
      shouldObserveProgress := true;
      scheduled := scheduled.(pendingArms := scheduled.pendingArms - 1);
    }

    /**
     * Metadata task `id` runs to its end, `probe` being what fetching its
     * track's file would yield: it asks the memo for the metadata and, unless
     * it has been cancelled meanwhile (it is not the latest), takes the
     * duration from it.
     */
    method MetadataTaskFinished(id: nat, probe: Probe)
      requires Valid() && id < |scheduled.tasks| && id !in scheduled.finished
      modifies this`duration, this`scheduled, metadata
      ensures Valid()
      ensures scheduled == old(scheduled).(finished := old(scheduled.finished) + {id})
      ensures var (fetched, cache) := LoadStep(old(metadata.cache), scheduled.tasks[id], probe);
        && metadata.cache == cache
        && duration == (if fetched.Some? && id == |scheduled.tasks| - 1 then fetched.value.duration else old(duration))
    {
      var fetched := metadata.LoadIfNeeded(scheduled.tasks[id], probe);
      scheduled := scheduled.(finished := scheduled.finished + {id});
      if fetched.None? {
        return;
      }
      OnlyLatestTaskLive(scheduled, id);
      if id in scheduled.cancelled {
        return;
      }
      duration := fetched.value.duration;
    }

    /**
     * Two tracks set in turn, then the first track's metadata task ends: it
     * was cancelled by the second `set`, so the duration stays at 0 whatever
     * the fetch yields, though the memo still records a successful fetch.
     */
    method StaleMetadataTaskKeepsDuration(a: Music, b: Music, probe: Probe)
      requires Valid()
      modifies this, metadata
      ensures Valid()
      ensures currentAsset == Some(b) && duration == 0.0
      ensures metadata.cache == LoadStep(old(metadata.cache), a, probe).1
    {
      var id := |scheduled.tasks|;
      Set(a);
      Set(b);
      MetadataTaskFinished(id, probe);
    }

    /**
     * `playNextMusic()`: set the track after the current one, which the
     * library also selects; nothing happens without a current track or a next one.
     */
    method PlayNextMusic()
      requires Valid()
      modifies this, store
      ensures Valid()
      ensures store.musics == old(store.musics) && store.musicModels == old(store.musicModels)
      ensures var next := if old(currentAsset).Some? then NextOf(old(store.musics), old(currentAsset).value) else None;
        && (next.None? ==> unchanged(this) && unchanged(store))
        && (next.Some? ==>
              && SetTo(next.value) && SetLeavesAlone()
              && store.selectedMusicAsset == next && store.selectedMusic == next.value.FileName())
    {
      if currentAsset.None? {
        return;
      }
      var next := store.NextMusic(currentAsset.value);
      if next.None? {
        return;
      }
      Set(next.value);
    }

    /** `playPrevMusic()`: the mirror image of `PlayNextMusic`. */
    method PlayPrevMusic()
      requires Valid()
      modifies this, store
      ensures Valid()
      ensures store.musics == old(store.musics) && store.musicModels == old(store.musicModels)
      ensures var prev := if old(currentAsset).Some? then PrevOf(old(store.musics), old(currentAsset).value) else None;
        && (prev.None? ==> unchanged(this) && unchanged(store))
        && (prev.Some? ==>
              && SetTo(prev.value) && SetLeavesAlone()
              && store.selectedMusicAsset == prev && store.selectedMusic == prev.value.FileName())
    {
      if currentAsset.None? {
        return;
      }
      var prev := store.PrevMusic(currentAsset.value);
      if prev.None? {
        return;
      }
      Set(prev.value);
    }

    /**
     * The first half of `playerDidFinishPlaying(_:)`: the engine has paused
     * at the end of its item, which is rewound and whose duration, reported
     * as `itemDuration`, is taken.
     */
    method RewindFinishedItem(itemDuration: Seconds)
      requires Valid()
      modifies this`engine, this`duration
      ensures Valid()
      ensures engine == old(engine).FinishItem()
      ensures duration == (if old(engine.item).Some? then itemDuration else old(duration))
    {
      engine := engine.FinishItem();
      if engine.item.Some? {
        duration := itemDuration;
      }
    }

    /**
     * `playerDidFinishPlaying(_:)`: rewind the finished item and take its
     * duration; then replay it when repeating, else play the next track.
     */
    method PlayerDidFinishPlaying(itemDuration: Seconds)
      requires Valid()
      modifies this, store
      ensures Valid()
      ensures store.musics == old(store.musics) && store.musicModels == old(store.musicModels)
      ensures isRepeating == old(isRepeating)
      ensures var finished := old(engine).FinishItem();
        var itemDurationTaken := if old(engine.item).Some? then itemDuration else old(duration);
        var next := if old(currentAsset).Some? then NextOf(old(store.musics), old(currentAsset).value) else None;
        && (isRepeating ==>
              && engine == finished.(playing := true) && duration == itemDurationTaken
              && TrackStateKept() && item == old(item) && unchanged(store))
        && (!isRepeating && next.None? ==>
              && engine == finished && duration == itemDurationTaken
              && TrackStateKept() && item == old(item) && unchanged(store))
        && (!isRepeating && next.Some? ==>
              && SetTo(next.value)
              && isSeeking == old(isSeeking)
              && engine.seeks == finished.seeks && engine.pendingSeeks == old(engine.pendingSeeks)
              && store.selectedMusicAsset == next && store.selectedMusic == next.value.FileName())
    {
      RewindFinishedItem(itemDuration);
      if isRepeating {
        engine := engine.(playing := true);
        return;
      }
      PlayNextMusic();
    }

    // Remote commands (lock screen, headphones).

    /** The remote play command resumes the engine directly, without `play()`'s bootstrap. */
    method RemotePlay() returns (status: CommandStatus)
      requires Valid()
      modifies this`engine
      ensures Valid()
      ensures status == Success && engine == old(engine).(playing := true)
    {
      engine := engine.(playing := true);
      return Success;
    }

    /** The remote pause command pauses the engine directly. */
    method RemotePause() returns (status: CommandStatus)
      requires Valid()
      modifies this`engine
      ensures Valid()
      ensures status == Success && engine == old(engine).(playing := false)
    {
      engine := engine.(playing := false);
      return Success;
    }

    /**
     * The remote change-position command: a seek without `isSeeking` and
     * without completion; an event that is not a position change fails.
     */
    method RemoteChangePosition(position: Option<Seconds>) returns (status: CommandStatus)
      requires Valid()
      modifies this`engine
      ensures Valid()
      ensures position.None? ==> status == CommandFailed && engine == old(engine)
      ensures position.Some? ==> status == Success && engine == old(engine).Seek(position.value, false)
    {
      if position.None? {
        return CommandFailed;
      }
      engine := engine.Seek(position.value, false);
      return Success;
    }

    /** The remote next-track command: `playNextMusic()`, always reported as a success. */
    method RemoteNextTrack() returns (status: CommandStatus)
      requires Valid()
      modifies this, store
      ensures Valid()
      ensures status == Success
      ensures store.musics == old(store.musics) && store.musicModels == old(store.musicModels)
      ensures var next := if old(currentAsset).Some? then NextOf(old(store.musics), old(currentAsset).value) else None;
        && (next.None? ==> unchanged(this) && unchanged(store))
        && (next.Some? ==>
              && SetTo(next.value) && SetLeavesAlone()
              && store.selectedMusicAsset == next && store.selectedMusic == next.value.FileName())
    {
      PlayNextMusic();
      return Success;
    }

    /** The remote previous-track command: `playPrevMusic()`, always reported as a success. */
    method RemotePreviousTrack() returns (status: CommandStatus)
      requires Valid()
      modifies this, store
      ensures Valid()
      ensures status == Success
      ensures store.musics == old(store.musics) && store.musicModels == old(store.musicModels)
      ensures var prev := if old(currentAsset).Some? then PrevOf(old(store.musics), old(currentAsset).value) else None;
        && (prev.None? ==> unchanged(this) && unchanged(store))
        && (prev.Some? ==>
              && SetTo(prev.value) && SetLeavesAlone()
              && store.selectedMusicAsset == prev && store.selectedMusic == prev.value.FileName())
    {
      PlayPrevMusic();
      return Success;
    }

    /**
     * The remote change-repeat-mode command: off and one set `isRepeating`;
     * all, an unknown mode, or an event of another kind fail and change nothing.
     */
    method ChangeRepeatMode(event: Option<RepeatType>) returns (status: CommandStatus)
      requires Valid()
      modifies this`isRepeating
      ensures Valid()
      ensures status == Success <==> event == Some(Off) || event == Some(One)
      ensures event == Some(Off) ==> !isRepeating
      ensures event == Some(One) ==> isRepeating
      ensures status == CommandFailed ==> isRepeating == old(isRepeating)
    {
      if event == Some(Off) {
        isRepeating := false;
      } else if event == Some(One) {
        isRepeating := true;
      } else {
        // `.all`, an unknown mode, or an event that is not a repeat-mode change.
        return CommandFailed;
      }
      return Success;
    }
  }
}
