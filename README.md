# UnguidedPlayer playback state engine, in Dafny

This project models the playback core of UnguidedPlayer, an iOS player for
guided-audio sessions. The core is three Swift classes:

- `RKPlayer`, the narration player. It wraps one media engine and keeps a
  scrub state machine (`reset | scrubStarted(v) | scrubEnded(v)`). Assigning the
  phase can issue a seek. A periodic tick updates the observed and displayed time.
- `BackgroundPlayerManager`, the ambience group. It holds two looping channels,
  a muted background video and an audible noise loop. It holds both or neither.
- `RKUnguidedPlayerViewModel`, the coordinator. It publishes `isPlaying`,
  `isFinished`, `isUnguidedPart`, `trackFavorited`, `displayTime` and
  `itemDuration`. In `appearAction` it installs the player's callbacks.

The media engine (AVPlayer) is a small class, `Media.Engine`, that records the
calls it receives: play, pause, seek targets, and removal of a time observer.
It also keeps its rate (play sets 1, pause sets 0), its muted flag and its volume.
The engine's signals are explicit methods of the view model: `Tick(now)`,
`DurationResolved(d)`, `BufferingChanged()` (runs `onStart`) and
`PlayedToEnd()` (runs `onFinish`).
These signals arrive only while the player still holds its engine.
Times are `real`.

The view model creates exactly one `RKPlayer` and never replaces it. So the
player's state and the view model's state live in one class,
`ViewModel.UnguidedPlayerViewModel`. A `wired` flag replaces the callback
closures. Before `appearAction` the four callbacks do nothing. After it they are
the closures at `RKUnguidedPlayerViewModel.swift:131-151`. The player's
`?? false` fallbacks therefore never apply.

The class's time-related fields form a value, `Scrub.Timeline`. Each method
that changes them is specified by a function in `Scrub`: `Assign` for the
`didSet`, and `Tick` for the tick closure. The lemmas about traces of events
(`Scrub.Run`) are proved over those functions. The events follow the view:
- A slider drag writes the bound `displayTime` and then sends
  `.scrubStarted(displayTime)`.
- A release sends `.scrubEnded(displayTime)`.

The class invariant `Valid()` includes the group's `Configured()`. The
video channel is muted at volume 0, the noise channel is at the track's
volume, and the two channels run at the same rate. Every operation of the
view model keeps this.

Modules: `Wrappers` (Option), `Tracks` (Track), `Media` (engine and looper),
`Scrub` (phase, tick, percent, unguided part), `Ambience` (the group),
`Labels` (title, subtitle, remaining-time label), `ViewModel` (the class) and
`Scenarios` (clients that drive the class as the screen does).

Where the design intent and the code differ, the model follows the code:
- The seek for a finished scrub is issued when `.scrubEnded(v)` is
  assigned, in `didSet`, not at the next tick. The next tick only resets the
  phase, and that reset does not seek again.
- `backward` seeks to `displayTime - 15` with no clamp at 0
  (`Scenarios.RewindFromTenSeconds` seeks to -5).
- `isUnguidedPart` has no `duration > 0` guard. Before the duration
  publisher has delivered any value, the duration is 0. In that window,
  every time counts as unguided if the threshold is non-negative
  (`Scenarios.UnguidedAtStart`). The first delivery from AVFoundation is
  usually an indefinite duration. Its seconds are NaN, against which `>=` is
  false. The model has no NaN (see "Left out"), so the scenario covers only
  the time before any delivery.
- `onStart` is assigned twice. The surviving closure plays the ambience and
  sets `isPlaying`, but never touches the narration. A buffering signal after
  the user paused therefore publishes "playing" while the narration stays paused
  (`Scenarios.BufferingAfterPause`).
- After `destroyAll`, the play button reaches no engine but still publishes
  `isPlaying = true` (`Scenarios.PlayAfterDestroyAll`). Without an engine,
  `RKPlayer.isPlaying` (`avPlayer?.rate != 0`) reads true.
- `destroy` nils the engine before `removePeriodicTimeObserver`. So the
  engine never receives the observer removal.
- Finished is not terminal. After `onFinish` the player still holds the
  narration engine, and `playAction` does not check `isFinished`. So the play
  button plays the narration again and publishes `isPlaying = true`, while
  `isFinished` stays true (`Scenarios.PlayAfterFinish`).
- During a drag, the remaining-time label's number follows the slider (the
  published `displayTime`). Its sign, the title, the subtitle and the
  unguided flag ask the player, whose display time moves only at the next
  tick. So a drag into the tail shows "-" until that tick
  (`Scenarios.LabelDuringScrub`).
- Once wired, `playAction` sends play (or pause) to each ambience channel twice:
  once itself and once through `onPlay`/`onPause`.
- The "+" remaining-time label shows |1 − time spent in the unguided part|. It
  starts at 1, falls to 0 one second in, and only then counts up.
- `destroyAll` clears the group's channel references, but the view model's
  published `backgroundPlayer`/`noisePlayer` handles keep pointing at the
  released engines.

## Model

| member | source | states |
|---|---|---|
| `Scrub.Assign` | UnguidedPlayer/RKPlayer/RKPlayer.swift:98-109 | Assigning a phase stores it. Only `scrubEnded(v)` issues a seek: exactly one, to `v`. `reset` and `scrubStarted` issue none. |
| `Scrub.Tick` | UnguidedPlayer/RKPlayer/RKPlayer.swift:156-175 | A tick sets the observed time to the engine time in every phase. In `reset` it displays the engine time. In `scrubStarted(v)` it displays `v` and ignores the engine. In `scrubEnded(v)` it returns to `reset`, displays `v`, and issues no seek. The published copy equals the sent value. |
| `Scrub.OneSeekPerScrubEnd` | UnguidedPlayer/RKPlayer/RKPlayer.swift:98-175 | In any trace of assignments, ticks, drags and releases, the number of seeks equals the number of scrub ends. Nothing else seeks. |
| `Scrub.SettledAfterTick` | UnguidedPlayer/RKPlayer/RKPlayer.swift:170-172 | After any trace followed by one tick, the phase is not `scrubEnded`. |
| `Scrub.RunAppend` | UnguidedPlayer/RKPlayer/RKPlayer.swift:156-175 | Running a trace in two parts gives the same final state and seeks as running it whole. |
| `Scrub.ScrubbingHoldsLatestDrag` | UnguidedPlayer/RKPlayer/RKUnguidedPlayerView.swift:204-208 | While scrubbing, any drags and ticks keep the phase at `scrubStarted(w)`, where `w` is the last dragged value. They keep `w` published and issue no seek. |
| `Scrub.ViewScrubSeeksOnce` | UnguidedPlayer/RKPlayer/RKUnguidedPlayerView.swift:204-213 | A drag, any drags and ticks, a release, then a tick issue exactly one seek, to the last dragged value. The timeline ends in `reset`, showing that value, with the observed time of the last tick. |
| `Scrub.Slide` | UnguidedPlayer/RKPlayer/RKUnguidedPlayerView.swift:201 | The slider binding sets only the published time. The phase, the observed time and the player's display subject stay as they were. |
| `Scrub.IsUnguidedPart` | UnguidedPlayer/RKPlayer/RKPlayer.swift:88-93 | Never without a threshold `u`. With one, exactly when the display time has reached `duration - u`. There is no guard on the duration. |
| `Scrub.PercentComplete` | UnguidedPlayer/RKPlayer/RKPlayer.swift:83-86 | 0 when the duration is ≤ 0. Otherwise `p` satisfies `p * duration == display * 100`. |
| `Scrub.PercentWithinTrack` | UnguidedPlayer/RKPlayer/RKPlayer.swift:83-86 | For a display time within a positive duration, the percentage lies in [0, 100]. |
| `Scrub.UnguidedPartIsTail` | UnguidedPlayer/RKPlayer/RKPlayer.swift:88-93 | Once a display time is unguided, every later display time is unguided too. |
| `Scrub.UnguidedBeforeDurationKnown` | UnguidedPlayer/RKPlayer/RKPlayer.swift:88-93 | With duration 0 and a non-negative threshold, every non-negative display time is unguided. This is because there is no duration guard. |
| `Scrub.UnguidedBoundary` | UnguidedPlayer/RKPlayer/RKPlayer.swift:88-93 | Duration 600 with a 100-second threshold: not unguided at 499, unguided at 500. |
| `Ambience.BackgroundVideoOf` | UnguidedPlayer/RKPlayer/BackgroundPlayerManager.swift:50-57 | Absent exactly when the track has no background URL. Otherwise it carries that URL and a volume equal to `(backgroundVolume ?? 0) / 100`. |
| `Ambience.NoiseVolumeInRange` | UnguidedPlayer/RKPlayer/BackgroundPlayerManager.swift:50-57 | A background volume between 0 and 100 percent gives a noise volume in [0, 1]. |
| `Ambience.BackgroundPlayerManager.constructor` | UnguidedPlayer/RKPlayer/BackgroundPlayerManager.swift:22-26 | Channels exist exactly when the track has a background URL. `onSetup` is called once, with the channels just created. The group is valid and configured. |
| `Ambience.BackgroundPlayerManager.SetupBackgroundVideo` | UnguidedPlayer/RKPlayer/BackgroundPlayerManager.swift:67-86 | Both channels and both loopers are created together, or none are. The video channel is muted with volume 0. The noise channel is unmuted and set to the track's volume. |
| `Ambience.BackgroundPlayerManager.SeekToZero` | UnguidedPlayer/RKPlayer/BackgroundPlayerManager.swift:28-31 | Each present channel receives exactly one seek to 0. Without channels nothing happens. |
| `Ambience.BackgroundPlayerManager.Play` | UnguidedPlayer/RKPlayer/BackgroundPlayerManager.swift:33-36 | Each present channel receives exactly one play. The two channels keep one rate, and the video stays muted at volume 0. |
| `Ambience.BackgroundPlayerManager.Pause` | UnguidedPlayer/RKPlayer/BackgroundPlayerManager.swift:38-41 | Each present channel receives exactly one pause. The two channels keep one rate, and the video stays muted at volume 0. |
| `Ambience.BackgroundPlayerManager.Mute` | UnguidedPlayer/RKPlayer/BackgroundPlayerManager.swift:59-61 | The noise channel becomes muted and receives no call. The video channel is outside the frame, so it is unchanged. |
| `Ambience.BackgroundPlayerManager.Unmute` | UnguidedPlayer/RKPlayer/BackgroundPlayerManager.swift:63-65 | The noise channel becomes unmuted. The video channel is unchanged, so it stays muted. |
| `Ambience.BackgroundPlayerManager.Destroy` | UnguidedPlayer/RKPlayer/BackgroundPlayerManager.swift:43-48 | All four references are cleared in the order background looper, noise looper, background player, noise player; the `cleared` log records that order. Afterwards the group is valid and empty. That no looper outlives its player at any intermediate step is checked by assertions in the body, not stated in the contract. |
| `Labels.DisplayTitle` | UnguidedPlayer/RKPlayer/RKUnguidedPlayerViewModel.swift:34-40 | "Unguided" in the unguided part. Otherwise the track title, or "" without one. |
| `Labels.TitleMarksUnguidedPart` | UnguidedPlayer/RKPlayer/RKUnguidedPlayerViewModel.swift:34-40 | Unless the track's own title is "Unguided", the title reads "Unguided" exactly in the unguided part. |
| `Labels.SubtitleTile` | UnguidedPlayer/RKPlayer/RKUnguidedPlayerViewModel.swift:42-48 | "End of class" in the unguided part. Otherwise the subtitle, or "" without one. |
| `Labels.RemainingTime` | UnguidedPlayer/RKPlayer/RKUnguidedPlayerViewModel.swift:50-58 | With `m = abs(duration - display - (unguidedSecond ?? 0) + 1)`, the label is "+" with `m` in the unguided part and "-" with `m - 1` otherwise. |
| `Labels.CountsDownToUnguidedPart` | UnguidedPlayer/RKPlayer/RKUnguidedPlayerViewModel.swift:50-58 | Before the tail starts, the "-" label shows exactly the seconds left until it starts. |
| `Labels.CountsUpLaggingOneSecond` | UnguidedPlayer/RKPlayer/RKUnguidedPlayerViewModel.swift:50-58 | From one second into the tail onward, the "+" label shows one second less than the time spent in it. |
| `Labels.CountUpDipsAtTailStart` | UnguidedPlayer/RKPlayer/RKUnguidedPlayerViewModel.swift:50-58 | With duration 600 and a 100-second tail, the "+" label is 1, 0, 1 at 500, 501, 502. |
| `ViewModel.UnguidedPlayerViewModel.constructor` | UnguidedPlayer/RKPlayer/RKUnguidedPlayerViewModel.swift:74-97 | Builds a fresh engine that has received no call, and a fresh group from the same track. The published handles are the channels passed to `onSetup`. All flags are false, times are 0, the phase is `reset`, and nothing is wired. The result is valid and in step. |
| `ViewModel.UnguidedPlayerViewModel.Rate` | UnguidedPlayer/RKPlayer/RKPlayer.swift:49 | The engine's rate, or 0 without an engine. |
| `ViewModel.UnguidedPlayerViewModel.PercentComplete` | UnguidedPlayer/RKPlayer/RKPlayer.swift:83-86 | Computed from the player's own subjects, not the published copies. It is 0 while the player's duration is ≤ 0. Otherwise `r * itemDurationSubject == displayTimeSubject * 100`. |
| `ViewModel.UnguidedPlayerViewModel.PlayerIsUnguidedPart` | UnguidedPlayer/RKPlayer/RKPlayer.swift:88-93 | True exactly when the track has a threshold `u` and the player's display subject (not the slider's published time) has reached `itemDurationSubject - u`. |
| `ViewModel.UnguidedPlayerViewModel.DisplayTitle` | UnguidedPlayer/RKPlayer/RKUnguidedPlayerViewModel.swift:34-40 | "Unguided" when the player is in the unguided part. Otherwise the track title, or "". |
| `ViewModel.UnguidedPlayerViewModel.SubtitleTile` | UnguidedPlayer/RKPlayer/RKUnguidedPlayerViewModel.swift:42-48 | "End of class" when the player is in the unguided part. Otherwise the track subtitle, or "". |
| `ViewModel.UnguidedPlayerViewModel.DisplayItemDuration` | UnguidedPlayer/RKPlayer/RKUnguidedPlayerViewModel.swift:50-58 | The number uses the published `itemDuration` and `displayTime`: `m = abs(itemDuration - displayTime - (u ?? 0) + 1)`, shown as `m` in the unguided part and `m - 1` otherwise. The sign asks the player: "+" exactly when `PlayerIsUnguidedPart`. |
| `ViewModel.UnguidedPlayerViewModel.SendDisplayTime` | UnguidedPlayer/RKPlayer/RKUnguidedPlayerViewModel.swift:86-90 | Sending a time sets the player's display subject and, through the sink, the published `displayTime`. Nothing else changes and the group stays configured. |
| `ViewModel.UnguidedPlayerViewModel.IsPlaying` | UnguidedPlayer/RKPlayer/RKPlayer.swift:47-49 | True without an engine. Otherwise true exactly when the engine's rate is not 0. |
| `ViewModel.UnguidedPlayerViewModel.IsPlayerDurationMoreThanZero` | UnguidedPlayer/RKPlayer/RKUnguidedPlayerViewModel.swift:164 | Holds exactly when the published duration is positive. |
| `ViewModel.UnguidedPlayerViewModel.OnPlay` | UnguidedPlayer/RKPlayer/RKUnguidedPlayerViewModel.swift:143-146 | Once wired, both channels receive one play and `isPlaying` becomes true. Before that nothing changes. |
| `ViewModel.UnguidedPlayerViewModel.OnPause` | UnguidedPlayer/RKPlayer/RKUnguidedPlayerViewModel.swift:148-151 | Once wired, both channels receive one pause and `isPlaying` becomes false. Before that nothing changes. |
| `ViewModel.UnguidedPlayerViewModel.OnStart` | UnguidedPlayer/RKPlayer/RKUnguidedPlayerViewModel.swift:126-141 | Once wired, the second closure applies: both channels play and `isPlaying` becomes true. The narration engine is not in its frame, so the narration is not played. |
| `ViewModel.UnguidedPlayerViewModel.OnFinish` | UnguidedPlayer/RKPlayer/RKUnguidedPlayerViewModel.swift:131-136 | Once wired, each channel receives exactly one pause and the group is destroyed in order. The narration receives one pause. `isPlaying` ends false and `isFinished` true. |
| `ViewModel.UnguidedPlayerViewModel.Play` | UnguidedPlayer/RKPlayer/RKPlayer.swift:122-125 | The engine, if present, receives one play. Then `onPlay` has its effect. |
| `ViewModel.UnguidedPlayerViewModel.Pause` | UnguidedPlayer/RKPlayer/RKPlayer.swift:139-142 | The engine, if present, receives one pause. Then `onPause` has its effect. |
| `ViewModel.UnguidedPlayerViewModel.SeekTo` | UnguidedPlayer/RKPlayer/RKPlayer.swift:67-69 | The engine, if present, receives exactly that seek. |
| `ViewModel.UnguidedPlayerViewModel.SeekToBegin` | UnguidedPlayer/RKPlayer/RKPlayer.swift:63-65 | The engine, if present, receives a seek to 0. |
| `ViewModel.UnguidedPlayerViewModel.PlayFromBeginning` | UnguidedPlayer/RKPlayer/RKPlayer.swift:71-75 | The engine receives a seek to 0, then a play. Once wired, each channel plays twice, because `onPlay` runs twice. |
| `ViewModel.UnguidedPlayerViewModel.Backward` | UnguidedPlayer/RKPlayer/RKPlayer.swift:77-81 | The engine receives one seek to the display time minus 15, with no clamp. |
| `ViewModel.UnguidedPlayerViewModel.SetScrubState` | UnguidedPlayer/RKPlayer/RKPlayer.swift:98-109 | The timeline becomes `Scrub.Assign` of the old one. The engine receives exactly the seeks `Assign` issues. Nothing else changes. |
| `ViewModel.UnguidedPlayerViewModel.Tick` | UnguidedPlayer/RKPlayer/RKPlayer.swift:156-175 | With an engine and its observer installed, the timeline becomes `Scrub.Tick` of the old one. The engine receives no call. Without an engine or observer nothing changes. |
| `ViewModel.UnguidedPlayerViewModel.DurationResolved` | UnguidedPlayer/RKPlayer/RKPlayer.swift:194-202 | With an engine, both the player's duration and the published duration become `d`. |
| `ViewModel.UnguidedPlayerViewModel.BufferingChanged` | UnguidedPlayer/RKPlayer/RKPlayer.swift:144-148 | With an engine, `onStart` has its effect. |
| `ViewModel.UnguidedPlayerViewModel.PlayedToEnd` | UnguidedPlayer/RKPlayer/RKPlayer.swift:150-154 | With an engine, `onFinish` has its effect, and afterwards `isPlaying` agrees with the narration's rate. |
| `ViewModel.UnguidedPlayerViewModel.RemovePeriodicTimeObserver` | UnguidedPlayer/RKPlayer/RKPlayer.swift:177-183 | With a token, the engine (if any) receives the removal. The token is dropped. |
| `ViewModel.UnguidedPlayerViewModel.Destroy` | UnguidedPlayer/RKPlayer/RKPlayer.swift:127-137 | The old engine receives exactly one pause and nothing else. `onPause` has its effect. The engine reference and the observer token are dropped. `IsPlaying` then reads true. |
| `ViewModel.UnguidedPlayerViewModel.UpdateScrub` | UnguidedPlayer/RKPlayer/RKUnguidedPlayerViewModel.swift:99-102 | Forwards the phase, as `SetScrubState` does. Then publishes `isUnguidedPart` as the player's value, computed from the display time, which the assignment leaves alone. |
| `ViewModel.UnguidedPlayerViewModel.RefreshUnguidedPart` | UnguidedPlayer/RKPlayer/RKUnguidedPlayerViewModel.swift:153-156 | Publishes `isUnguidedPart` as the player's value. Nothing else changes. |
| `ViewModel.UnguidedPlayerViewModel.SlideTo` | UnguidedPlayer/RKPlayer/RKUnguidedPlayerView.swift:200-201 | The slider binding writes only the published `displayTime`. |
| `ViewModel.UnguidedPlayerViewModel.DestroyAll` | UnguidedPlayer/RKPlayer/RKUnguidedPlayerViewModel.swift:104-107 | Destroys the player (one pause to the engine, `onPause`), then the group, in order. Afterwards neither engine reference nor channel remains in the group. |
| `ViewModel.UnguidedPlayerViewModel.TrackFavoritedAction` | UnguidedPlayer/RKPlayer/RKUnguidedPlayerViewModel.swift:109-111 | `trackFavorited` becomes exactly the value `likeAction` returned. Nothing else changes. |
| `ViewModel.UnguidedPlayerViewModel.Mute` | UnguidedPlayer/RKPlayer/RKUnguidedPlayerViewModel.swift:113-116 | Records the player's own mute call, then mutes the noise channel only. |
| `ViewModel.UnguidedPlayerViewModel.Unmute` | UnguidedPlayer/RKPlayer/RKUnguidedPlayerViewModel.swift:118-121 | Records the player's own unmute call, then unmutes the noise channel only. |
| `ViewModel.UnguidedPlayerViewModel.AppearAction` | UnguidedPlayer/RKPlayer/RKUnguidedPlayerViewModel.swift:123-159 | Wires the callbacks, then plays. The narration and each channel receive one play and `isPlaying` becomes true, in step with the engine. |
| `ViewModel.UnguidedPlayerViewModel.PlayAction` | UnguidedPlayer/RKPlayer/RKUnguidedPlayerViewModel.swift:166-176 | Negates `isPlaying`. The narration receives the matching play or pause once. Each channel receives it once, or twice when wired. Afterwards `isPlaying` agrees with the engine's rate. |
| `ViewModel.UnguidedPlayerViewModel.RewindAction` | UnguidedPlayer/RKPlayer/RKUnguidedPlayerViewModel.swift:178-180 | Performs the player's `backward`: one seek to the display time minus 15. |
| `Scenarios.Appear` | UnguidedPlayer/RKPlayer/RKUnguidedPlayerViewModel.swift:143-158 | On a new session, appearing publishes "playing". The narration has received exactly one play, and each channel (present exactly with a background URL) one play. |
| `Scenarios.PauseButton` | UnguidedPlayer/RKPlayer/RKUnguidedPlayerViewModel.swift:166-176 | Appearing and then pressing the button publishes "not playing". The narration log is play, pause. Each channel's log is play, pause, pause. |
| `Scenarios.BufferingAfterPause` | UnguidedPlayer/RKPlayer/RKUnguidedPlayerViewModel.swift:138-141 | A buffering signal after a pause publishes "playing" while the narration rate stays 0. |
| `Scenarios.Finish` | UnguidedPlayer/RKPlayer/RKUnguidedPlayerViewModel.swift:131-136 | At the end, the session is finished and not playing. The narration log is play, pause, and no channel is left. |
| `Scenarios.PlayAfterDestroyAll` | UnguidedPlayer/RKPlayer/RKUnguidedPlayerViewModel.swift:104-107 | The play button after `destroyAll` publishes "playing" and `RKPlayer.isPlaying` is true. The narration has received only play, pause. |
| `Scenarios.RewindFromTenSeconds` | UnguidedPlayer/RKPlayer/RKPlayer.swift:77-81 | From display time 10, rewinding seeks to -5. |
| `Scenarios.UnguidedAtStart` | UnguidedPlayer/RKPlayer/RKPlayer.swift:88-93 | With a non-negative threshold and an unknown duration, the timer publishes the unguided part at time 0, and the title reads "Unguided". |
| `Scenarios.DragAndRelease` | UnguidedPlayer/RKPlayer/RKUnguidedPlayerView.swift:199-214 | Once the duration is positive, a drag, a tick, a second drag, the release and a tick send one seek, to the second value. The published time settles there in `reset`. |
| `Scenarios.PlayAfterFinish` | UnguidedPlayer/RKPlayer/RKUnguidedPlayerViewModel.swift:166-176 | After the narration played to its end, the play button plays the narration again (log play, pause, play) and publishes "playing", while the session stays finished. |
| `Scenarios.LabelDuringScrub` | UnguidedPlayer/RKPlayer/RKUnguidedPlayerViewModel.swift:50-58 | On a 600-second track with a 100-second tail, a drag from 400 to 550 leaves the flag false and the label at "-" 48. After the next tick and timer firing, the flag is true and the label is "+" 49. |
| `Scenarios.AmbienceStaysOneUnit` | UnguidedPlayer/RKPlayer/BackgroundPlayerManager.swift:33-41 | Through appear, pause, mute, play and a buffering signal, the two channels stay at one rate and the video stays muted at volume 0. |
| `Scenarios.MuteThenUnmute` | UnguidedPlayer/RKPlayer/BackgroundPlayerManager.swift:59-65 | Mute leaves both channels muted. Unmute unmutes only the noise channel, so the video stays muted. |

## Left out

- The AVFoundation engine internals are not modelled. That covers decoding, buffering, AVPlayerLooper's looping, KVO and `NotificationCenter`. Each engine is a call recorder. Its signals are explicit event methods.
- Engine rate: play sets rate 1 and pause sets 0. Stalls and the engine's own pause at the item's end are not modelled.
- Combine subjects, `@Published` and the `sink` pipelines are not modelled. Each sink is a plain field copy made in the same method that sends.
- Main-queue dispatch and `Timer.scheduledTimer` are not modelled. The one-second timer is the explicit method `RefreshUnguidedPart`. `appearAction` schedules a new timer each time it runs, and that multiplicity is not modelled.
- `CMTime` is not modelled. Seek targets are exact reals, so the 1/1000-second rounding of `CMTime(seconds:preferredTimescale:)` is lost. `TimeInterval` NaN and infinite values are also lost, and so are `Float` rounding of the noise volume and the engine timescale used by `backward`.
- `displayTimeFormattedText` and the `DateComponentsFormatter` output are not modelled. `Labels.RemainingTime` gives only the sign and the number passed to the formatter.
- `RKPlayer.mute()`/`unmute()` are called by the view model but defined in no file of this model. They are recorded as opaque player calls with no effect.
- The noise file comes from a bundle lookup, and `streamURL` is force-unwrapped. A present `streamURL` is a precondition of the view model's constructor. The noise channel is always created when a background URL exists.
- `timeControlStatus`, `currentTime` and `playerIsPlaying` are not modelled. They only read the engine and nothing in the core uses them.
- The view layout, the fade timer, `SpeakerButtonState`, `SliderView` geometry (values written by the slider are arbitrary reals here), `VideoPlayerView`, `ContentView`, `UnguidedPlayerApp` and `PlayerConfig` are not modelled.
- `Ambience.BackgroundPlayerManager.SeekToZero`: the order between the two channels (noise first) is not recorded, because each engine keeps its own log.
- `ViewModel.UnguidedPlayerViewModel.OnStart`: the first `onStart` closure (`RKUnguidedPlayerViewModel.swift:126-129`) is not modelled, because the second assignment always overwrites it before any signal can arrive.
