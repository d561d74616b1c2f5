/** Clients of the queue store that replay, on concrete tracklists, the
    behaviours the store is meant to have. Each builds a fresh store and
    returns what the caller would observe. */
module QueueScenarios {
  import opened QueueIndex
  import opened QueueStore

  function Tracks(): (r: seq<Track>)
  {
    [Track("a.mp3", "ha"), Track("b.mp3", "hb"), Track("c.mp3", "hc")]
  }

  function StreamUrl(filepath: string, trackhash: string, legacy: bool): (r: string)
  {
    if legacy then filepath else trackhash
  }

  /** Repeat `all` at the last of three tracks: auto-advance wraps to the
      first track and plays it as an automatic start. */
  method RepeatAllWraps() returns (index: int, playing: bool, manual: bool)
    ensures index == 0 && playing && !manual
  {
    var list := new Tracklist(Tracks());
    var device := new Device("c", false, 200.0, true);
    var q := new Queue(list, device);
    q.SetCurrentIndex(2);
    q.AutoPlayNext(Settings(All, false), StreamUrl);
    index, playing, manual := q.currentindex, q.playing, q.manual;
  }

  /** Repeat `none` at the last of three tracks: the queue rewinds to the
      first track, loads the second one into the paused device, and does
      not ask the player to start anything. */
  method EndOfQueueStops() returns (index: int, playing: bool, src: string, paused: bool, log: seq<Event>)
    ensures index == 0 && !playing && paused
    ensures src == "hb"
    ensures PlayCurrent !in log
  {
    var list := new Tracklist(Tracks());
    var device := new Device("hc", false, 200.0, true);
    var q := new Queue(list, device);
    q.SetCurrentIndex(2);
    q.SetPlaying(true);
    q.AutoPlayNext(Settings(None, false), StreamUrl);
    index, playing, src, paused, log := q.currentindex, q.playing, device.src, device.paused, q.log;
  }

  /** After the end of the queue has loaded the next track into the paused
      device, `playPause` finds the position at 0 and so plays the current
      track (index 0) again before resuming. */
  method ResumeAfterEndReloads() returns (index: int, playing: bool, tail: seq<Event>)
    ensures index == 0 && playing
    ensures tail == [PlayCurrent, FocusCurrentInSidebar, PlayPlayingSource]
  {
    var list := new Tracklist(Tracks());
    var device := new Device("hc", false, 200.0, true);
    var q := new Queue(list, device);
    q.SetCurrentIndex(2);
    q.SetPlaying(true);
    q.AutoPlayNext(Settings(None, false), StreamUrl);
    var before := q.log;
    q.PlayPause();
    index, playing := q.currentindex, q.playing;
    assert q.log == before + [PlayCurrent, FocusCurrentInSidebar, PlayPlayingSource];
    tail := q.log[|before|..];
  }

  /** `play` on an empty tracklist leaves the index and the playing flag
      alone. */
  method PlayOnEmptyList() returns (index: int, playing: bool, log: seq<Event>)
    ensures index == 0 && !playing && log == []
  {
    var list := new Tracklist([]);
    var device := new Device("", true, 0.0, true);
    var q := new Queue(list, device);
    q.Play(2, true);
    index, playing, log := q.currentindex, q.playing, q.log;
  }

  /** Five seconds into the second track, `playPrev` restarts it; one
      second in, it goes back to the first track and clears the preloaded
      audio. */
  method PlayPrevThreshold() returns (lateIndex: int, latePosition: real, earlyIndex: int, earlyLast: Event)
    ensures lateIndex == 1 && latePosition == 0.0
    ensures earlyIndex == 0 && earlyLast == ClearNextAudio
  {
    var list := new Tracklist(Tracks());
    var late := new Device("hb", false, 5.0, true);
    var q := new Queue(list, late);
    q.SetCurrentIndex(1);
    q.PlayPrev(None, false);
    lateIndex, latePosition := q.currentindex, late.currentTime;

    var early := new Device("hb", false, 1.0, true);
    var r := new Queue(list, early);
    r.SetCurrentIndex(1);
    r.PlayPrev(None, false);
    earlyIndex, earlyLast := r.currentindex, r.log[|r.log| - 1];
  }

  /** Shuffling three tracks plays whichever track the shuffle put first. */
  method ShufflePlaysNewFirst() returns (index: int, playing: bool, current: Slot)
    ensures index == 0 && playing && current == Filled(Track("c.mp3", "hc"))
  {
    var list := new Tracklist(Tracks());
    var device := new Device("", true, 0.0, true);
    var q := new Queue(list, device);
    var shuffled := [Tracks()[2], Tracks()[0], Tracks()[1]];
    assert multiset(shuffled) == multiset(Tracks());
    q.ShuffleQueue(shuffled);
    index, playing, current := q.currentindex, q.playing, CurrentTrack(list.tracks, q.currentindex);
  }

  /** A session saved while playing 42 seconds into the third track comes
      back paused at position 0 on the same track. */
  method RestoreResets() returns (index: int, playing: bool, position: real)
    ensures index == 2 && !playing && position == 0.0
  {
    var list := new Tracklist(Tracks());
    var device := new Device("hc", false, 42.0, true);
    var q := new Queue(list, device);
    q.SetCurrentIndex(2);
    q.SetPlaying(true);
    q.SetCurrentDuration(42.0);
    q.AfterRestore();
    index, playing, position := q.currentindex, q.playing, q.durCurrent;
  }
}
