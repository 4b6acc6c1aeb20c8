/**
 * Clients of the view model that drive it as the player screen does and
 * state what comes out. Each builds its own session from a track; the
 * stream URL is required because the player force-unwraps it.
 */
module Scenarios {
  import opened Wrappers
  import opened Tracks
  import opened Media
  import opened Scrub
  import opened ViewModel

  /** The screen appears: the narration and both ambience channels receive
      one play and the session is published as playing. */
  method Appear(track: Track)
    returns (isPlaying: bool, narration: seq<Command>, ambience: Option<(seq<Command>, seq<Command>)>)
    requires track.streamURL.Some?
    ensures isPlaying && narration == [Command.Play]
    ensures ambience.None? <==> track.animation.backgroundAnimationURL.None?
    ensures ambience.Some? ==> ambience.value == ([Command.Play], [Command.Play])
  {
    var vm := new UnguidedPlayerViewModel(track);
    var engine, video, noise := vm.avPlayer, vm.manager.backgroundPlayer, vm.manager.noisePlayer;
    vm.AppearAction();
    isPlaying, narration := vm.isPlaying, engine.commands;
    ambience := if video == null then None else Some((video.commands, noise.commands));
  }

  /** After the screen appeared, the play button pauses: the narration and
      each ambience channel receive one pause from the button and, through
      the wired onPause, the channels a second one. */
  method PauseButton(track: Track)
    returns (isPlaying: bool, narration: seq<Command>, ambience: Option<(seq<Command>, seq<Command>)>)
    requires track.streamURL.Some?
    ensures !isPlaying && narration == [Command.Play, Command.Pause]
    ensures ambience.None? <==> track.animation.backgroundAnimationURL.None?
    ensures ambience.Some? ==> ambience.value.0 == [Command.Play, Command.Pause, Command.Pause]
    ensures ambience.Some? ==> ambience.value.1 == [Command.Play, Command.Pause, Command.Pause]
  {
    var vm := new UnguidedPlayerViewModel(track);
    var engine, video, noise := vm.avPlayer, vm.manager.backgroundPlayer, vm.manager.noisePlayer;
    vm.AppearAction();
    vm.PlayAction();
    isPlaying, narration := vm.isPlaying, engine.commands;
    ambience := if video == null then None else Some((video.commands, noise.commands));
  }

  /** Paused by the user, a later buffering signal runs the surviving onStart:
      isPlaying becomes true and the ambience plays while the narration
      engine stays paused (rate 0). */
  method BufferingAfterPause(track: Track) returns (isPlaying: bool, narrationRate: real)
    requires track.streamURL.Some?
    ensures isPlaying && narrationRate == 0.0
  {
    var vm := new UnguidedPlayerViewModel(track);
    vm.AppearAction();
    vm.PlayAction();
    vm.BufferingChanged();
    isPlaying, narrationRate := vm.isPlaying, vm.Rate();
  }

  /** The narration reaches its end: the ambience is paused and let go, the
      narration paused, and the session published as finished and not
      playing. */
  method Finish(track: Track)
    returns (isPlaying: bool, isFinished: bool, narration: seq<Command>, channelsLeft: bool)
    requires track.streamURL.Some?
    ensures !isPlaying && isFinished && !channelsLeft
    ensures narration == [Command.Play, Command.Pause]
  {
    var vm := new UnguidedPlayerViewModel(track);
    var engine := vm.avPlayer;
    vm.AppearAction();
    vm.PlayedToEnd();
    isPlaying, isFinished, narration := vm.isPlaying, vm.isFinished, engine.commands;
    channelsLeft := vm.manager.backgroundPlayer != null || vm.manager.noisePlayer != null;
  }

  /** After `destroyAll`, the play button reaches no engine and yet publishes
      isPlaying as true; RKPlayer.isPlaying reads true too. */
  method PlayAfterDestroyAll(track: Track)
    returns (isPlaying: bool, playerIsPlaying: bool, narration: seq<Command>)
    requires track.streamURL.Some?
    ensures isPlaying && playerIsPlaying
    ensures narration == [Command.Play, Command.Pause]
  {
    var vm := new UnguidedPlayerViewModel(track);
    var engine := vm.avPlayer;
    vm.AppearAction();
    vm.DestroyAll();
    vm.PlayAction();
    isPlaying, playerIsPlaying, narration := vm.isPlaying, vm.IsPlaying(), engine.commands;
  }

  /** Rewinding 10 seconds into the narration seeks to -5: there is no clamp. */
  method RewindFromTenSeconds(track: Track) returns (narration: seq<Command>)
    requires track.streamURL.Some?
    ensures narration == [Seek(-5.0)]
  {
    var vm := new UnguidedPlayerViewModel(track);
    var engine := vm.avPlayer;
    vm.Tick(10.0);
    vm.RewindAction();
    narration := engine.commands;
  }

  /** Before the duration is known, a track with a non-negative unguided
      threshold is published as in its unguided part at time 0, from the
      first firing of the one-second timer. */
  method UnguidedAtStart(track: Track) returns (isUnguidedPart: bool, title: string)
    requires track.streamURL.Some?
    requires track.unguidedSecond.Some? && track.unguidedSecond.value >= 0.0
    ensures isUnguidedPart && title == "Unguided"
  {
    var vm := new UnguidedPlayerViewModel(track);
    vm.AppearAction();
    vm.RefreshUnguidedPart();
    isUnguidedPart, title := vm.isUnguidedPart, vm.DisplayTitle();
  }

  /** The view drives a scrub once the duration is known (before that its
      slider reports nothing): a drag to `first`, a tick while the finger is
      down, a drag to `second`, the release, then the next tick. The engine
      receives one seek, to `second`, and the published time settles there. */
  method DragAndRelease(track: Track, duration: real, first: real, during: real, second: real, after: real)
    returns (narration: seq<Command>, displayTime: real, phase: ScrubState)
    requires track.streamURL.Some? && duration > 0.0
    ensures narration == [Seek(second)]
    ensures displayTime == second && phase == Reset
  {
    var vm := new UnguidedPlayerViewModel(track);
    var engine := vm.avPlayer;
    vm.DurationResolved(duration);
    vm.SlideTo(first);
    vm.UpdateScrub(ScrubStarted(vm.displayTime));
    assert vm.avPlayer == engine && vm.hasPeriodicTimeObserver && engine.commands == [];
    vm.Tick(during);
    assert vm.scrubState == ScrubStarted(first) && engine.commands == [];
    vm.SlideTo(second);
    vm.UpdateScrub(ScrubStarted(vm.displayTime));
    assert vm.avPlayer == engine && vm.hasPeriodicTimeObserver && engine.commands == [];
    vm.UpdateScrub(ScrubEnded(vm.displayTime));
    assert vm.scrubState == ScrubEnded(second) && engine.commands == [Seek(second)];
    assert vm.avPlayer == engine && vm.hasPeriodicTimeObserver;
    vm.Tick(after);
    narration, displayTime, phase := engine.commands, vm.displayTime, vm.scrubState;
  }

  /** Mute and unmute reach the noise channel only: the video channel stays
      muted. */
  method MuteThenUnmute(track: Track) returns (muted: Option<(bool, bool)>, afterUnmute: Option<(bool, bool)>)
    requires track.streamURL.Some?
    ensures muted.None? <==> track.animation.backgroundAnimationURL.None?
    ensures muted.Some? ==> muted.value == (true, true)
    ensures afterUnmute.Some? ==> afterUnmute.value == (true, false)
    ensures afterUnmute.None? <==> muted.None?
  {
    var vm := new UnguidedPlayerViewModel(track);
    var video, noise := vm.manager.backgroundPlayer, vm.manager.noisePlayer;
    vm.Mute();
    muted := if video == null then None else Some((video.muted, noise.muted));
    vm.Unmute();
    afterUnmute := if video == null then None else Some((video.muted, noise.muted));
  }

  /** Dragging into the unguided tail of a 600-second track with a 100-second
      tail: the label's number follows the slider at once, but the unguided
      flag and the label's sign ask the player, whose display time moves only
      at the next tick. */
  method LabelDuringScrub(track: Track)
    returns (flagWhileDragging: bool, labelWhileDragging: Labels.Countdown,
             flagAfterTick: bool, labelAfterTick: Labels.Countdown)
    requires track.streamURL.Some? && track.unguidedSecond == Some(100.0)
    ensures !flagWhileDragging && labelWhileDragging == Labels.Countdown(Labels.Minus, 48.0)
    ensures flagAfterTick && labelAfterTick == Labels.Countdown(Labels.Plus, 49.0)
  {
    var vm := new UnguidedPlayerViewModel(track);
    vm.DurationResolved(600.0);
    vm.Tick(400.0);
    vm.SlideTo(550.0);
    vm.UpdateScrub(ScrubStarted(vm.displayTime));
    flagWhileDragging, labelWhileDragging := vm.isUnguidedPart, vm.DisplayItemDuration();
    vm.Tick(401.0);
    vm.RefreshUnguidedPart();
    flagAfterTick, labelAfterTick := vm.isUnguidedPart, vm.DisplayItemDuration();
  }

  /** Finished is not terminal: after the narration played to its end, the
      play button still reaches the narration engine and publishes playing
      while the session stays finished. */
  method PlayAfterFinish(track: Track)
    returns (isPlaying: bool, isFinished: bool, narration: seq<Command>)
    requires track.streamURL.Some?
    ensures isPlaying && isFinished
    ensures narration == [Command.Play, Command.Pause, Command.Play]
  {
    var vm := new UnguidedPlayerViewModel(track);
    var engine := vm.avPlayer;
    vm.AppearAction();
    vm.PlayedToEnd();
    vm.PlayAction();
    isPlaying, isFinished, narration := vm.isPlaying, vm.isFinished, engine.commands;
  }

  /** Through appear, pause, mute, play and a buffering signal, the two
      ambience channels stay one unit: same rate, the video muted at volume 0. */
  method AmbienceStaysOneUnit(track: Track) returns (channels: Option<(Engine, Engine)>)
    requires track.streamURL.Some?
    ensures channels.None? <==> track.animation.backgroundAnimationURL.None?
    ensures channels.Some? ==>
      && channels.value.0.rate == channels.value.1.rate
      && channels.value.0.muted && channels.value.0.volume == 0.0
  {
    var vm := new UnguidedPlayerViewModel(track);
    vm.AppearAction();
    vm.PlayAction();
    vm.Mute();
    vm.PlayAction();
    vm.BufferingChanged();
    var video, noise := vm.manager.backgroundPlayer, vm.manager.noisePlayer;
    channels := if video == null then None else Some((video, noise));
  }
}
