# Playback-queue store, modelled in Dafny

This project models the playback-queue store of a web music client
(`src/stores/queue.ts`). The store keeps the current index into the
tracklist, a `playing` flag, a `manual` flag and the current and full
duration. Its actions move the index under the repeat setting (`none`,
`one`, `all`), start and stop playback, and keep the store in step with the
shared audio element. That element has a `src`, a `paused` bit and a
`currentTime`.

- `queue_index.dfy`, module `QueueIndex`. The getters `nextindex`,
  `previndex`, `next`, `prev`, `currenttrack` (the lookup only) and
  `currenttrackhash`, as functions. Also lemmas about repeated stepping:
  moving forward `n` times lands on `(i + n) mod len`, and a full round
  returns to the start.
- `queue_store.dfy`, module `QueueStore`. The store is the class `Queue`,
  whose fields are the store's state. The audio element is the class
  `Device`, and the tracklist store's list is the class `Tracklist`. Every
  action is a method with a `modifies` clause. Calls to collaborators
  (`playCurrent`, `focusCurrentInSidebar`, `playPlayingSource`,
  `pausePlayingSource`, `clearNextAudio`, `clearMovingNextTimeout`,
  `updateMediaNotif`, the lyrics store, `insertAt`, the toast) are appended
  in order to the `log` field, so contracts can state their order. The
  ghost predicate `IndexValid` says the index lies inside a non-empty
  tracklist. `PlayPause`, `AutoPlayNext`, `PlayNext`, `PlayPrev` and
  `MoveForward` preserve it, and `ClearQueue` and `ShuffleQueue` establish
  it. `Play` and `SetCurrentIndex` accept any index, as the code does.
- `queue_scenarios.dfy`, module `QueueScenarios`. Client methods that build
  a fresh store on a three-track list and check the store's behaviours:
  repeat `all` wrapping, the end of the queue under repeat `none`, `play`
  on an empty list, the 3-second rule of `playPrev`, shuffling, and restore.

The settings (`repeat`, `use_legacy_streaming_endpoint`) are read at call
time, so they are method parameters. So are the shuffle flag, the random
draw of `playNext`, the order produced by `shuffleList`, the URL builder
`getUrl`, and whether the lyrics page is open.

Points where the code's behaviour is easy to misread; the model follows the code:
- `playPrev` at 3 seconds or less calls `clearNextAudio`. It does not clear the
  moving-next timeout. Above 3 seconds the timeout is cleared, through
  `seek`.
- `nextindex` and `previndex` are total. With an empty list, `previndex` at
  0 is -1.
- The code does not keep the index non-negative. `setCurrentIndex` and
  `play` accept any number, so the model has no such invariant.
- Under repeat `none` with index -1 and an empty list, `autoPlayNext` takes
  its reset branch. It sets the index to 0 and then reads `.filepath` of an
  undefined `next`, which throws. The model stops at that point and changes
  nothing else.

## Model

| member | source | states |
|---|---|---|
| `QueueIndex.NextIndex` | src/stores/queue.ts:219-228 | under repeat `one` the index is kept; otherwise, for an in-range index, the result is `(i + 1) mod len`, so it stays in range and wraps from the last index to 0 |
| `QueueIndex.PrevIndex` | src/stores/queue.ts:209-218 | under repeat `one` the index is kept; otherwise, for an in-range index, the result is `(i - 1) mod len`, wrapping from 0 to the last index; an empty list at 0 gives -1 |
| `QueueIndex.Next` | src/stores/queue.ts:183-186 | `next` is undefined on an empty list; for an in-range index it is the track at `(i + 1) mod len` outside repeat `one`, and the current track under repeat `one` |
| `QueueIndex.Prev` | src/stores/queue.ts:187-190 | `prev` is undefined on an empty list; for an in-range index it is the track at `(i - 1) mod len` outside repeat `one`, and the current track under repeat `one` |
| `QueueIndex.CurrentTrack` | src/stores/queue.ts:191-196 | a track exists exactly when the index is inside the list, and it is the track at that index; otherwise the empty placeholder |
| `QueueIndex.CurrentTrackHash` | src/stores/queue.ts:206-208 | the hash of the track at an in-range index, and the empty string otherwise |
| `QueueIndex.StepsAreInverse` | src/stores/queue.ts:209-228 | on a non-empty list, `previndex` after `nextindex` returns to the start index, and so does `nextindex` after `previndex`, under every repeat mode |
| `QueueIndex.RepeatOneStays` | src/stores/queue.ts:213-215 | under repeat `one` no number of forward or backward steps leaves the index, whatever the list length |
| `QueueIndex.AdvanceWraps` | src/stores/queue.ts:219-228 | outside repeat `one`, `n` forward steps from an in-range index land on `(i + n) mod len` |
| `QueueIndex.RewindWraps` | src/stores/queue.ts:209-218 | outside repeat `one`, `n` backward steps from an in-range index land on `(i - n) mod len` |
| `QueueIndex.FullRoundReturns` | src/stores/queue.ts:95-97 | `len` steps in either direction return to the start index, and outside repeat `one` the `len` indices met on the way are all different, so auto-advance under repeat `all` plays every track once per round |
| `QueueIndex.ReachesLast` | src/stores/queue.ts:219-228 | outside repeat `one`, forward steps from index `i` reach the last index after `len - 1 - i` steps and wrap to 0 on the next one |
| `QueueStore.Queue.constructor` | src/stores/queue.ts:17-26 | the initial state: index 0, not playing, manual, both durations 0, nothing logged |
| `QueueStore.Queue.SetPlaying` | src/stores/queue.ts:39-41 | sets `playing` and nothing else |
| `QueueStore.Queue.SetDurationFromFile` | src/stores/queue.ts:42-44 | sets `duration.full` and nothing else |
| `QueueStore.Queue.SetManual` | src/stores/queue.ts:45-47 | sets `manual` and nothing else |
| `QueueStore.Queue.SetCurrentDuration` | src/stores/queue.ts:48-50 | sets `duration.current` and nothing else |
| `QueueStore.Queue.SetCurrentIndex` | src/stores/queue.ts:51-53 | sets `currentindex` and nothing else |
| `QueueStore.Queue.Play` | src/stores/queue.ts:54-67 | on an empty tracklist nothing changes, the device included, and nothing is logged; otherwise `playing` is true, the index and the manual flag are the arguments, and `playCurrent` is logged before `focusCurrentInSidebar`; the durations are untouched; the store's own code does not touch the device, and what `playCurrent` does to it is left open |
| `QueueStore.Queue.PlayPause` | src/stores/queue.ts:68-83 | the three cases are decided on the device's state at entry: with an empty `src` it is exactly `play(currentindex)`; when the device is paused and the store not playing, it reloads via `play` only at position 0, always logs a resume, and ends playing with the device unpaused, even on an empty list; without a reload the device's source, position and presence are unchanged; otherwise it logs a pause and ends not playing with the device paused and its source, position and presence unchanged; the index stays where it was in the last two cases, and valid indices stay valid |
| `QueueStore.Device.Load` | src/stores/queue.ts:102 | assigning a media element's `src` sets the source and puts the position back at 0, since the element starts loading the new source; nothing else on the device changes |
| `QueueStore.Queue.AutoPlayNext` | src/stores/queue.ts:84-111 | except under repeat `none` at the last index, it is `play(nextindex, false)`; under repeat `none` at the last index of a non-empty list it sets the index to 0, loads the URL of track 1 (track 0 on a one-track list) into the device, which puts the device's position back at 0, pauses it, ends not playing with `manual` unchanged, and logs pause, media notification, focus in that order with no `playCurrent`, the device's presence unchanged; the throwing case only resets the index and leaves the device and the log as they were; valid indices stay valid |
| `QueueStore.Queue.PlayNext` | src/stores/queue.ts:112-122 | it is `play(randomIndex)` when shuffling and `play(nextindex)` otherwise, both manual, so on an empty list the device is unchanged; valid indices stay valid |
| `QueueStore.Queue.PlayPrev` | src/stores/queue.ts:123-134 | strictly past 3 seconds the index, flags and manual are unchanged, the device position and `duration.current` become 0 when the device accepts it and the device's other fields are unchanged, and the log gains the lyrics sync (on the lyrics page), the timeout clearing and the lyrics reset to -1; at 3 seconds or less it is `play(previndex)` followed by `clearNextAudio`; valid indices stay valid |
| `QueueStore.Queue.MoveForward` | src/stores/queue.ts:135-137 | the index becomes `nextindex` and nothing else changes; valid indices stay valid |
| `QueueStore.Queue.Seek` | src/stores/queue.ts:138-157 | when the device accepts the position, both it and `duration.current` become `pos`; otherwise neither changes; the lyrics line is resynchronised on the lyrics page, then the moving-next timeout is cleared |
| `QueueStore.Queue.PlayTrackNext` | src/stores/queue.ts:159-166 | it asks for the track to be inserted at `currentindex + 1`, then shows the success toast; the queue's own fields do not change, and the tracklist is left open |
| `QueueStore.Queue.ClearQueue` | src/stores/queue.ts:167-171 | the tracklist becomes empty and the index 0; `playing` is left as it was |
| `QueueStore.Queue.ShuffleQueue` | src/stores/queue.ts:172-180 | the tracklist takes the shuffled order and the index is 0; on a non-empty list the first shuffled track is current and playing, and the log gains play, focus, focus; on an empty list only the extra focus is logged and the device is unchanged |
| `QueueStore.Queue.AfterRestore` | src/stores/queue.ts:231-235 | `duration.current` becomes 0 and `playing` false; the index, `manual` and `duration.full` keep their restored values |
| `QueueScenarios.RepeatAllWraps` | src/stores/queue.ts:95-97 | on three tracks at index 2 under repeat `all`, auto-advance plays index 0 as an automatic start |
| `QueueScenarios.EndOfQueueStops` | src/stores/queue.ts:100-110 | on three tracks at index 2 under repeat `none`, auto-advance ends at index 0, not playing, with the second track's URL loaded in a paused device, and `playCurrent` never logged |
| `QueueScenarios.ResumeAfterEndReloads` | src/stores/queue.ts:68-110 | after the end of the queue under repeat `none` has loaded the next track, `playPause` sees position 0 and plays index 0 again before resuming: the log gains play, focus, resume and the store ends playing at index 0 |
| `QueueScenarios.PlayOnEmptyList` | src/stores/queue.ts:54-56 | `play` on an empty list leaves index 0, not playing and an empty log |
| `QueueScenarios.PlayPrevThreshold` | src/stores/queue.ts:123-134 | at 5 seconds `playPrev` keeps index 1 and rewinds the device to 0; at 1 second it moves to index 0 and its last call is `clearNextAudio` |
| `QueueScenarios.ShufflePlaysNewFirst` | src/stores/queue.ts:172-180 | after a shuffle that puts the third track first, the index is 0, the store is playing, and the current track is that third track |
| `QueueScenarios.RestoreResets` | src/stores/queue.ts:231-235 | a store saved playing at 42 seconds on index 2 is restored at index 2, not playing, at position 0 |

## Left out

- `getShuffleMode` is a network `fetch` plus JSON parsing, with failures logged and read as false. The flag is the `shuffleEnabled` parameter of `PlayNext`.
- `Math.random` is floating-point randomness. The draw is the `randomIndex` parameter of `PlayNext`. Its precondition is what `Math.floor(Math.random() * length)` yields: 0 on an empty list, otherwise an index in range.
- `currenttrack` also starts an asynchronous `isFavorite` lookup and later writes the answer into the returned track object. This fire-and-forget mutation is not modelled; only the lookup and the placeholder are.
- The bodies of `playCurrent`, `focusCurrentInSidebar`, `updateMediaNotif`, `clearNextAudio`, `clearMovingNextTimeout`, the toast, and the lyrics store's `calculateCurrentLine` and `setCurrentLine` live in other stores. Each call is only recorded in the log. `playCurrent` presumably loads and starts the track on the device; the model does not say how, so after a `Play` on a non-empty list (and in every action that calls it on a non-empty list) the device's fields are unconstrained. On an empty list `play` does nothing and the device is stated unchanged.
- `QueueStore.Queue.PlayPause`: when it goes through `play` on a non-empty list (empty `src`, or a reload at position 0), the device after the call is unconstrained, because what `playCurrent` does to it is not part of this model.
- `QueueStore.Queue.AutoPlayNext`: in the branches that call `play` on a non-empty list the device after the call is unconstrained, for the same reason.
- `QueueStore.Queue.PlayNext`: on a non-empty list the device after the call is unconstrained, for the same reason.
- `QueueStore.Queue.ResumeSource` and `QueueStore.Queue.PauseSource` stand for `playPlayingSource` and `pausePlayingSource`. Their bodies live in the player store; the model gives each the evident effect on the `paused` bit and logs it.
- `insertAt` belongs to the tracklist store, and its body is not part of this model. `PlayTrackNext` records the request, with the track and the position, and does not compute the resulting list.
- `QueueStore.Queue.PlayTrackNext`: the tracklist may be changed by the call (it is in the method's frame) but nothing is promised about its new contents, since how `insertAt` places the track is not part of this model.
- `QueueStore.Queue.ShuffleQueue` takes the order `shuffleList` produces as a parameter. Its precondition states the one thing known of that order: it is a permutation of the list.
- `clearList` is modelled as emptying the list.
- `getUrl` is the caller-supplied function `getUrl` of `AutoPlayNext`.
- `seek` inspects the router to detect the lyrics page. That check is the `onLyricsRoute` parameter, and the line recomputation is the single `SyncLyricsLine` event.
- The device's `present` flag is consulted only by `Seek`. An absent `audioSource.playingSource`, which would also make the plain reads of `src`, `paused` and `currentTime` in `playPause`, `playPrev` and `autoPlayNext` throw before they change anything, is not modelled: those actions read an absent device like a present one.
- `QueueStore.Device.Load` models loading a new source only as the position returning to 0; buffering, the `duration` of the new source and load errors are not modelled.
- `console.error` and the `instanceof TypeError` test in `seek` only log. A rejected assignment is the device's `present` flag being false, and then neither the position nor `duration.current` changes.
- The `defineStore`/`persist` plumbing of Pinia is framework code; only the `afterRestore` body is modelled.
- The default arguments of `play` (`index = 0`, `manual = true`) are not modelled; every call passes both explicitly.
- `playNext` is `async`. The await, and any interleaving with other actions while the shuffle flag is being fetched, are not modelled.
- Durations and the device position are Dafny `real`s. JavaScript's `NaN` and infinities are not modelled.
