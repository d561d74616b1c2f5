/** The stateful part of the playback-queue store: its fields, the actions
    that change them, and the calls those actions make to the player, the
    tracklist, the interface and the lyrics stores. Calls whose effect lives
    in code outside this store are recorded, in order, in an event log. */
module QueueStore {
  import opened QueueIndex

  /** The settings the queue reads. */
  datatype Settings = Settings(repeat: Repeat, useLegacyStreamingEndpoint: bool)

  /** A call from the queue store to a collaborator. */
  datatype Event =
    | PlayCurrent                   // the player store starts the track at currentindex
    | FocusCurrentInSidebar
    | PlayPlayingSource
    | PausePlayingSource
    | ClearNextAudio
    | ClearMovingNextTimeout
    | UpdateMediaNotif
    | SyncLyricsLine                // recompute the lyrics line from the position
    | SetLyricsLine(line: int)
    | InsertAt(tracks: seq<Track>, position: int)
    | ShowSuccess(message: string)  // a toast of the success kind

  /** The shared audio element `audioSource.playingSource`. `present` is
      false when assigning its position fails with a TypeError. */
  class Device {
    var src: string
    var paused: bool
    var currentTime: real
    var present: bool

    constructor (src: string, paused: bool, currentTime: real, present: bool)
      ensures this.src == src && this.paused == paused
      ensures this.currentTime == currentTime && this.present == present
    {
      this.src := src;
      this.paused := paused;
      this.currentTime := currentTime;
      this.present := present;
    }

    /** Assigning `src`: a media element starts loading the new source,
        which puts the position back at 0. */
    method Load(url: string)
      modifies this`src, this`currentTime
      ensures src == url && currentTime == 0.0
    {
      src := url;
      currentTime := 0.0;
    }
  }

  /** The tracklist store's list. */
  class Tracklist {
    var tracks: seq<Track>

    constructor (tracks: seq<Track>)
      ensures this.tracks == tracks
    {
      this.tracks := tracks;
    }
  }

  class Queue {
    var currentindex: int
    var playing: bool
    /** Whether the current track was started by the user. */
    var manual: bool
    var durCurrent: real
    var durFull: real
    /** The calls made to collaborators, oldest first. */
    var log: seq<Event>
    const list: Tracklist
    const device: Device

    /** The store's initial state. */
    constructor (list: Tracklist, device: Device)
      ensures this.list == list && this.device == device
      ensures currentindex == 0 && !playing && manual
      ensures durCurrent == 0.0 && durFull == 0.0 && log == []
    {
      this.list := list;
      this.device := device;
      currentindex := 0;
      playing := false;
      manual := true;
      durCurrent := 0.0;
      durFull := 0.0;
      log := [];
    }

    /** The state after `play(index, m)` followed by the calls `rest`: on an
        empty tracklist only `rest` happens; otherwise the track at `index`
        is playing, started with the given manual flag, and the player was
        asked to play it before the sidebar was asked to focus it. The
        device is left as it was on an empty tracklist and left open
        otherwise. */
    twostate predicate PlayedThen(index: int, m: bool, rest: seq<Event>)
      reads this, list, device
    {
      durCurrent == old(durCurrent) && durFull == old(durFull) &&
      if |list.tracks| == 0 then
        unchanged(device) &&
        currentindex == old(currentindex) && playing == old(playing) &&
        manual == old(manual) && log == old(log) + rest
      else
        currentindex == index && playing && manual == m &&
        log == old(log) + [PlayCurrent, FocusCurrentInSidebar] + rest
    }

    /** The index points into the tracklist whenever there is one.
        `PlayPause`, `AutoPlayNext`, `PlayNext`, `PlayPrev` and `MoveForward`
        keep this, `ClearQueue` and `ShuffleQueue` establish it, and `Play`
        and `SetCurrentIndex` accept any index. */
    ghost predicate IndexValid()
      reads this, list
    {
      |list.tracks| == 0 || 0 <= currentindex < |list.tracks|
    }

    method SetPlaying(val: bool)
      modifies this`playing
      ensures playing == val
    {
      playing := val;
    }

    method SetDurationFromFile(duration: real)
      modifies this`durFull
      ensures durFull == duration
    {
      durFull := duration;
    }

    method SetManual(val: bool)
      modifies this`manual
      ensures manual == val
    {
      manual := val;
    }

    method SetCurrentDuration(duration: real)
      modifies this`durCurrent
      ensures durCurrent == duration
    {
      durCurrent := duration;
    }

    method SetCurrentIndex(val: int)
      modifies this`currentindex
      ensures currentindex == val
    {
      currentindex := val;
    }

    /** `play(index, manual)`: does nothing on an empty tracklist. What
        `playCurrent` then does to the device is left open. */
    method Play(index: int, m: bool)
      modifies this`currentindex, this`playing, this`manual, this`log, device
      ensures PlayedThen(index, m, [])
    {
      if |list.tracks| == 0 {
        return;
      }
      playing := true;
      currentindex := index;
      manual := m;
      log := log + [PlayCurrent];
      log := log + [FocusCurrentInSidebar];
    }

    /** `audioSource.playPlayingSource()` */
    method ResumeSource()
      modifies device`paused, this`log
      ensures !device.paused && log == old(log) + [PlayPlayingSource]
    {
      device.paused := false;
      log := log + [PlayPlayingSource];
    }

    /** `audioSource.pausePlayingSource()` */
    method PauseSource()
      modifies device`paused, this`log
      ensures device.paused && log == old(log) + [PausePlayingSource]
    {
      device.paused := true;
      log := log + [PausePlayingSource];
    }

    /** `playPause()`: with no source loaded it is `play(currentindex)`; when
        the device is paused and the store is not playing it resumes,
        reloading the track first when the position is 0; otherwise it
        pauses. */
    method PlayPause()
      modifies this`currentindex, this`playing, this`manual, this`log, device
      ensures old(device.src) == "" ==>
        PlayedThen(old(currentindex), true, [])
      ensures old(device.src) != "" && old(device.paused) && !old(playing) ==>
        var reload := old(device.currentTime) == 0.0 && |list.tracks| > 0;
        playing && !device.paused &&
        currentindex == old(currentindex) &&
        manual == (if reload then true else old(manual)) &&
        log == old(log) + (if reload then [PlayCurrent, FocusCurrentInSidebar] else []) + [PlayPlayingSource] &&
        (!reload ==> device.src == old(device.src) && device.currentTime == old(device.currentTime) &&
                     device.present == old(device.present))
      ensures old(device.src) != "" && !(old(device.paused) && !old(playing)) ==>
        !playing && device.paused && device.src == old(device.src) &&
        device.currentTime == old(device.currentTime) && device.present == old(device.present) &&
        currentindex == old(currentindex) && manual == old(manual) &&
        log == old(log) + [PausePlayingSource]
      ensures old(IndexValid()) ==> IndexValid()
    {
      if device.src == "" {
        Play(currentindex, true);
        return;
      }
      if device.paused && !playing {
        if device.currentTime == 0.0 {
          Play(currentindex, true);
        }
        ResumeSource();
        playing := true;
        return;
      }
      PauseSource();
      playing := false;
    }

    /** `autoPlayNext()`, run when a track ends: it plays `nextindex` with
        manual false, except with repeat `none` at the last index, where it
        rewinds to index 0, loads the following track into the device
        without playing it, and stops. */
    method AutoPlayNext(settings: Settings, getUrl: (string, string, bool) -> string)
      modifies this`currentindex, this`playing, this`manual, this`log, device
      ensures settings.repeat != None || old(currentindex) != |list.tracks| - 1 ==>
        PlayedThen(NextIndex(old(currentindex), |list.tracks|, settings.repeat), false, [])
      ensures settings.repeat == None && old(currentindex) == |list.tracks| - 1 && |list.tracks| > 0 ==>
        var loaded := list.tracks[if |list.tracks| >= 2 then 1 else 0];
        currentindex == 0 && !playing && manual == old(manual) && device.paused &&
        device.currentTime == 0.0 && device.present == old(device.present) &&
        device.src == getUrl(loaded.filepath, loaded.trackhash, settings.useLegacyStreamingEndpoint) &&
        log == old(log) + [PausePlayingSource, UpdateMediaNotif, FocusCurrentInSidebar]
      ensures settings.repeat == None && old(currentindex) == -1 && |list.tracks| == 0 ==>
        currentindex == 0 && playing == old(playing) && manual == old(manual) &&
        unchanged(device) && log == old(log)
      ensures old(IndexValid()) ==> IndexValid()
    {
      var isLast := currentindex == |list.tracks| - 1;
      if settings.repeat == One {
        Play(currentindex, false);
        return;
      }
      if settings.repeat == All {
        Play(if isLast then 0 else currentindex + 1, false);
        return;
      }
      if !isLast {
        Play(currentindex + 1, false);
        return;
      }
      currentindex := 0;
      var next := Next(list.tracks, currentindex, settings.repeat);
      if next.Undefined? {
        // reading `this.next.filepath` throws a TypeError here
        return;
      }
      device.Load(getUrl(next.track.filepath, next.track.trackhash, settings.useLegacyStreamingEndpoint));
      PauseSource();
      playing := false;
      log := log + [UpdateMediaNotif];
      log := log + [FocusCurrentInSidebar];
    }

    /** `playNext()`, with the shuffle flag fetched from the server and the
        random draw given as parameters: it plays the drawn index when
        shuffling and `nextindex` otherwise. */
    method PlayNext(repeat: Repeat, shuffleEnabled: bool, randomIndex: int)
      requires shuffleEnabled ==>
        if |list.tracks| == 0 then randomIndex == 0 else 0 <= randomIndex < |list.tracks|
      modifies this`currentindex, this`playing, this`manual, this`log, device
      ensures PlayedThen(if shuffleEnabled then randomIndex
                         else NextIndex(old(currentindex), |list.tracks|, repeat), true, [])
      ensures old(IndexValid()) ==> IndexValid()
    {
      if shuffleEnabled {
        Play(randomIndex, true);
      } else {
        Play(NextIndex(currentindex, |list.tracks|, repeat), true);
      }
    }

    /** `seek(pos)`: moves the device and the store's position to `pos`
        unless the device rejects it, resynchronises the lyrics on the
        lyrics page, and cancels the pending move to the next track. */
    method Seek(pos: real, onLyricsRoute: bool)
      modifies this`durCurrent, this`log, device`currentTime
      ensures device.present ==> device.currentTime == pos && durCurrent == pos
      ensures !device.present ==>
        device.currentTime == old(device.currentTime) && durCurrent == old(durCurrent)
      ensures log == old(log) + (if onLyricsRoute then [SyncLyricsLine] else []) + [ClearMovingNextTimeout]
    {
      if device.present {
        device.currentTime := pos;
        durCurrent := pos;
      }
      if onLyricsRoute {
        log := log + [SyncLyricsLine];
      }
      log := log + [ClearMovingNextTimeout];
    }

    /** `playPrev()`: past 3 seconds into the track it seeks back to its
        start; otherwise it plays `previndex` and clears the preloaded next
        audio. */
    method PlayPrev(repeat: Repeat, onLyricsRoute: bool)
      modifies this`currentindex, this`playing, this`manual, this`log, this`durCurrent, device
      ensures old(device.currentTime) > 3.0 ==>
        currentindex == old(currentindex) && playing == old(playing) && manual == old(manual) &&
        device.src == old(device.src) && device.paused == old(device.paused) && device.present == old(device.present) &&
        (device.present ==> device.currentTime == 0.0 && durCurrent == 0.0) &&
        (!device.present ==> device.currentTime == old(device.currentTime) && durCurrent == old(durCurrent)) &&
        log == old(log) + (if onLyricsRoute then [SyncLyricsLine] else []) +
                          [ClearMovingNextTimeout, SetLyricsLine(-1)]
      ensures old(device.currentTime) <= 3.0 ==>
        PlayedThen(PrevIndex(old(currentindex), |list.tracks|, repeat), true, [ClearNextAudio])
      ensures old(IndexValid()) ==> IndexValid()
    {
      if device.currentTime > 3.0 {
        Seek(0.0, onLyricsRoute);
        log := log + [SetLyricsLine(-1)];
        return;
      }
      Play(PrevIndex(currentindex, |list.tracks|, repeat), true);
      log := log + [ClearNextAudio];
    }

    /** `moveForward()`: steps the index to `nextindex` and nothing else. */
    method MoveForward(repeat: Repeat)
      modifies this`currentindex
      ensures currentindex == NextIndex(old(currentindex), |list.tracks|, repeat)
      ensures old(IndexValid()) ==> IndexValid()
    {
      currentindex := NextIndex(currentindex, |list.tracks|, repeat);
    }

    /** `playTrackNext(track)`: asks the tracklist to insert the track right
        after the current one and shows a success toast; the queue's own
        fields do not change. What `insertAt` makes of the list is left
        open. */
    method PlayTrackNext(track: Track)
      modifies this`log, list`tracks
      ensures log == old(log) + [InsertAt([track], currentindex + 1), ShowSuccess("Added 1 track to queue")]
    {
      var nextindex := currentindex + 1;
      log := log + [InsertAt([track], nextindex)];
      log := log + [ShowSuccess("Added 1 track to queue")];
    }

    /** `clearQueue()`: empties the tracklist and rewinds the index; the
        playing flag is left as it was. */
    method ClearQueue()
      modifies list`tracks, this`currentindex
      ensures list.tracks == [] && currentindex == 0
      ensures IndexValid()
      ensures playing == old(playing)
    {
      list.tracks := [];
      currentindex := 0;
    }

    /** `shuffleQueue()`, with the order `shuffleList` produces given as
        `shuffled`: plays from the top of the reordered list, then focuses
        it in the sidebar. */
    method ShuffleQueue(shuffled: seq<Track>)
      requires multiset(shuffled) == multiset(list.tracks)
      modifies list`tracks, this`currentindex, this`playing, this`manual, this`log, device
      ensures list.tracks == shuffled && currentindex == 0
      ensures IndexValid()
      ensures |shuffled| == 0 ==>
        playing == old(playing) && manual == old(manual) && unchanged(device) &&
        log == old(log) + [FocusCurrentInSidebar]
      ensures |shuffled| > 0 ==>
        playing && manual && CurrentTrack(list.tracks, currentindex) == Filled(shuffled[0]) &&
        log == old(log) + [PlayCurrent, FocusCurrentInSidebar, FocusCurrentInSidebar]
    {
      list.tracks := shuffled;
      currentindex := 0;
      Play(currentindex, true);
      log := log + [FocusCurrentInSidebar];
    }

    /** The `afterRestore` hook of the persisted store: a reloaded session
        starts paused at position 0 on the saved index. */
    method AfterRestore()
      modifies this`durCurrent, this`playing
      ensures durCurrent == 0.0 && !playing
    {
      durCurrent := 0.0;
      playing := false;
    }
  }
}
