/**
 * The narration player (RKPlayer.swift) and its coordinator
 * (RKUnguidedPlayerViewModel.swift) in one class. The view model creates
 * exactly one player in `init` and never replaces it, so its optional
 * `player` is always present and the player's fields live here beside the
 * published flags. The player's four callbacks are no-ops until
 * `appearAction` installs the view model's closures; `wired` records that.
 */
module ViewModel {
  import opened Wrappers
  import opened Tracks
  import opened Media
  import opened Scrub
  import opened Ambience
  import Labels

  /** A call on RKPlayer.mute() / unmute(), which are not part of this model. */
  datatype PlayerCall = MuteCall | UnmuteCall

  /** The published flags of the view model. */
  datatype Flags = Flags(isPlaying: bool, isFinished: bool, isUnguidedPart: bool, trackFavorited: bool)

  /** Every field of the class but the engines' own state, for "nothing else changes". */
  datatype State = State(
    clock: Timeline,
    duration: real,
    flags: Flags,
    wired: bool,
    timeObserver: bool,
    playerCalls: seq<PlayerCall>,
    narration: Engine?,
    backgroundHandle: Engine?,
    noiseHandle: Engine?)

  function WithPlaying(st: State, playing: bool): State
  {
    st.(flags := st.flags.(isPlaying := playing))
  }

  /** The flags right after `init`: nothing playing, finished, unguided or liked. */
  const Cleared := Flags(false, false, false, false)

  class UnguidedPlayerViewModel {
    const track: Track
    const manager: BackgroundPlayerManager

    // RKPlayer
    var avPlayer: Engine?
    var scrubState: ScrubState
    var observedTime: real
    var displayTimeSubject: real
    var itemDurationSubject: real
    var hasPeriodicTimeObserver: bool
    var wired: bool
    var playerCalls: seq<PlayerCall>

    // RKUnguidedPlayerViewModel
    var isPlaying: bool
    var isFinished: bool
    var isUnguidedPart: bool
    var trackFavorited: bool
    var displayTime: real
    var itemDuration: real
    var backgroundPlayer: Engine?
    var noisePlayer: Engine?

    ghost function Clock(): Timeline
      reads this
    {
      Timeline(scrubState, observedTime, displayTimeSubject, displayTime)
    }

    ghost function Now(): State
      reads this
    {
      State(Clock(), itemDurationSubject,
            Flags(isPlaying, isFinished, isUnguidedPart, trackFavorited),
            wired, hasPeriodicTimeObserver, playerCalls,
            avPlayer, backgroundPlayer, noisePlayer)
    }

    /**
     * The ambience group is valid, configured (video muted and silent, the
     * two channels at one rate) and built from the same track; the
     * narration engine is neither ambience channel; the published duration
     * mirrors the player's; while the group holds its channels, the
     * published handles are those channels.
     */
    ghost predicate Valid()
      reads this, manager, manager.backgroundPlayer, manager.noisePlayer
    {
      && manager.Valid()
      && manager.Configured()
      && manager.track == track
      && (avPlayer != null ==> avPlayer != manager.backgroundPlayer && avPlayer != manager.noisePlayer)
      && itemDuration == itemDurationSubject
      && (manager.backgroundPlayer != null ==>
            backgroundPlayer == manager.backgroundPlayer && noisePlayer == manager.noisePlayer)
    }

    /** `isPlaying` agrees with the narration engine while there is one. */
    ghost predicate InStep()
      reads this, avPlayer
    {
      avPlayer != null ==> (isPlaying <==> avPlayer.rate != 0.0)
    }

    /** RKPlayer.rate: the engine's rate, 0 without an engine. */
    function Rate(): (r: real)
      reads this, avPlayer
      ensures avPlayer == null ==> r == 0.0
      ensures avPlayer != null ==> r == avPlayer.rate
    {
      if avPlayer == null then 0.0 else avPlayer.rate
    }

    /** RKPlayer.isPlaying is `avPlayer?.rate != 0`, and a missing engine
        compares unequal to 0: without an engine it reads true. */
    function IsPlaying(): (r: bool)
      reads this, avPlayer
      ensures avPlayer == null ==> r
      ensures avPlayer != null ==> (r <==> Rate() != 0.0)
    {
      avPlayer == null || avPlayer.rate != 0.0
    }

    /** RKPlayer.getPercentComplete, over the player's own subjects (not the
        published copies). */
    function PercentComplete(): (r: real)
      reads this
      ensures itemDurationSubject <= 0.0 ==> r == 0.0
      ensures itemDurationSubject > 0.0 ==> r * itemDurationSubject == displayTimeSubject * 100.0
    {
      Scrub.PercentComplete(displayTimeSubject, itemDurationSubject)
    }

    /** RKPlayer.isUnguidedPart, over the player's display subject, which
        moves only at a tick (a slider drag leaves it alone). */
    function PlayerIsUnguidedPart(): (r: bool)
      reads this
      ensures r <==> track.unguidedSecond.Some?
                     && itemDurationSubject - track.unguidedSecond.value <= displayTimeSubject
    {
      IsUnguidedPart(displayTimeSubject, itemDurationSubject, track.unguidedSecond)
    }

    /** `displayTitle`, asking the player whether it is in the unguided part. */
    function DisplayTitle(): (r: string)
      reads this
      ensures PlayerIsUnguidedPart() ==> r == "Unguided"
      ensures !PlayerIsUnguidedPart() ==> r == track.title.GetOr("")
    {
      Labels.DisplayTitle(PlayerIsUnguidedPart(), track.title)
    }

    /** `subtitleTile`, asking the player whether it is in the unguided part. */
    function SubtitleTile(): (r: string)
      reads this
      ensures PlayerIsUnguidedPart() ==> r == "End of class"
      ensures !PlayerIsUnguidedPart() ==> r == track.subtitle.GetOr("")
    {
      Labels.SubtitleTile(PlayerIsUnguidedPart(), track.subtitle)
    }

    /** The label reads the published duration and display time but asks the
        player whether it is in the unguided part. */
    function DisplayItemDuration(): (r: Labels.Countdown)
      reads this
      ensures r.sign == if PlayerIsUnguidedPart() then Labels.Plus else Labels.Minus
      ensures var m := Labels.Abs(itemDuration - displayTime - track.unguidedSecond.GetOr(0.0) + 1.0);
        r.seconds == if PlayerIsUnguidedPart() then m else m - 1.0
    {
      Labels.RemainingTime(itemDuration, displayTime, track.unguidedSecond, PlayerIsUnguidedPart())
    }

    /** `isPlayerDurationMoreThanZero` reads the player's duration subject,
        which the published duration mirrors. */
    function IsPlayerDurationMoreThanZero(): (r: bool)
      reads this, manager, manager.backgroundPlayer, manager.noisePlayer
      requires Valid()
      ensures r <==> itemDuration > 0.0
    {
      itemDurationSubject > 0.0
    }

    /**
     * `init(track:likeAction:)`: build the player on the track's stream URL
     * and the ambience group, whose `onSetup` hands the group's channels to
     * the published handles; the sinks copy the subjects' initial values.
     */
    constructor (track: Track)
      requires track.streamURL.Some?
      ensures Valid() && InStep()
      ensures this.track == track && fresh(manager) && manager.track == track
      ensures fresh(avPlayer) && avPlayer.commands == [] && avPlayer.rate == 0.0
      ensures |manager.setupCalls| == 1
      ensures Now() == State(Initial, 0.0, Cleared, false, true, [], avPlayer,
                             manager.setupCalls[0].0, manager.setupCalls[0].1)
      ensures manager.backgroundPlayer == null <==> track.animation.backgroundAnimationURL.None?
      ensures manager.backgroundPlayer != null ==>
        && fresh(manager.backgroundPlayer) && fresh(manager.noisePlayer)
        && manager.backgroundPlayer.commands == [] && manager.noisePlayer.commands == []
      ensures manager.cleared == [] && manager.Configured()
    {
      this.track := track;
      var engine := new Engine();
      avPlayer := engine;
      scrubState, observedTime := Reset, 0.0;
      displayTimeSubject, itemDurationSubject := 0.0, 0.0;
      hasPeriodicTimeObserver := true;
      wired, playerCalls := false, [];
      isPlaying, isFinished, isUnguidedPart, trackFavorited := false, false, false, false;
      var group := new BackgroundPlayerManager(track);
      manager := group;
      backgroundPlayer, noisePlayer := group.backgroundPlayer, group.noisePlayer;
      displayTime := displayTimeSubject;
      itemDuration := itemDurationSubject;
    }

    // ----- the player's callbacks ---------------------------------------

    /** `onPlay`: after `appearAction`, play the ambience and set isPlaying. */
    method OnPlay()
      requires Valid()
      modifies this, manager.backgroundPlayer, manager.noisePlayer
      ensures Valid()
      ensures Now() == WithPlaying(old(Now()), if wired then true else old(isPlaying))
      ensures Sent(manager.backgroundPlayer, if wired then [Command.Play] else [])
      ensures Sent(manager.noisePlayer, if wired then [Command.Play] else [])
    {
      if wired {
        manager.Play();
        isPlaying := true;
      }
    }

    /** `onPause`: after `appearAction`, pause the ambience and clear isPlaying. */
    method OnPause()
      requires Valid()
      modifies this, manager.backgroundPlayer, manager.noisePlayer
      ensures Valid()
      ensures Now() == WithPlaying(old(Now()), if wired then false else old(isPlaying))
      ensures Sent(manager.backgroundPlayer, if wired then [Command.Pause] else [])
      ensures Sent(manager.noisePlayer, if wired then [Command.Pause] else [])
    {
      if wired {
        manager.Pause();
        isPlaying := false;
      }
    }

    /** `onStart`: `appearAction` assigns it twice and the second closure wins:
        play the ambience and set isPlaying. The narration itself is left
        alone (the overwritten first closure played it). */
    method OnStart()
      requires Valid()
      modifies this, manager.backgroundPlayer, manager.noisePlayer
      ensures Valid()
      ensures Now() == WithPlaying(old(Now()), if wired then true else old(isPlaying))
      ensures Sent(manager.backgroundPlayer, if wired then [Command.Play] else [])
      ensures Sent(manager.noisePlayer, if wired then [Command.Play] else [])
    {
      if wired {
        manager.Play();
        isPlaying := true;
      }
    }

    /** `onFinish`: after `appearAction`, pause then destroy the ambience,
        pause the narration (whose onPause finds no channel left) and set
        isFinished. */
    method OnFinish()
      requires Valid()
      modifies this, avPlayer, manager, manager.backgroundPlayer, manager.noisePlayer
      ensures Valid()
      ensures !wired ==> Now() == old(Now()) && unchanged(manager)
      ensures wired ==> Now() == old(Now()).(flags := old(Now()).flags.(isPlaying := false, isFinished := true))
      ensures wired ==> manager.backgroundPlayer == null && manager.noisePlayer == null
      ensures wired ==> manager.cleared == old(manager.cleared) + DestroyOrder
      ensures manager.setupCalls == old(manager.setupCalls)
      ensures Sent(old(manager.backgroundPlayer), if wired then [Command.Pause] else [])
      ensures Sent(old(manager.noisePlayer), if wired then [Command.Pause] else [])
      ensures Sent(avPlayer, if wired then [Command.Pause] else [])
    {
      if wired {
        manager.Pause();
        manager.Destroy();
        Pause();
        isFinished := true;
      }
    }

    // ----- RKPlayer -----------------------------------------------------

    /** `play`: the engine, when present, plays; then `onPlay` runs. */
    method Play()
      requires Valid()
      modifies this, avPlayer, manager.backgroundPlayer, manager.noisePlayer
      ensures Valid()
      ensures Now() == WithPlaying(old(Now()), if wired then true else old(isPlaying))
      ensures Sent(avPlayer, [Command.Play])
      ensures Sent(manager.backgroundPlayer, if wired then [Command.Play] else [])
      ensures Sent(manager.noisePlayer, if wired then [Command.Play] else [])
    {
      if avPlayer != null {
        avPlayer.Play();
      }
      OnPlay();
    }

    /** `pause`: the engine, when present, pauses; then `onPause` runs. */
    method Pause()
      requires Valid()
      modifies this, avPlayer, manager.backgroundPlayer, manager.noisePlayer
      ensures Valid()
      ensures Now() == WithPlaying(old(Now()), if wired then false else old(isPlaying))
      ensures Sent(avPlayer, [Command.Pause])
      ensures Sent(manager.backgroundPlayer, if wired then [Command.Pause] else [])
      ensures Sent(manager.noisePlayer, if wired then [Command.Pause] else [])
    {
      if avPlayer != null {
        avPlayer.Pause();
      }
      OnPause();
    }

    /** `seekTo(time:)`. */
    method SeekTo(time: real)
      requires Valid()
      modifies avPlayer
      ensures Sent(avPlayer, [Seek(time)])
    {
      if avPlayer != null {
        avPlayer.Seek(time);
      }
    }

    /** `seekToBegin`. */
    method SeekToBegin()
      requires Valid()
      modifies avPlayer
      ensures Sent(avPlayer, [Seek(0.0)])
    {
      SeekTo(0.0);
    }

    /** `playFromBeginning`: seek to 0, `play` (which runs onPlay), then run
        onPlay once more. */
    method PlayFromBeginning()
      requires Valid()
      modifies this, avPlayer, manager.backgroundPlayer, manager.noisePlayer
      ensures Valid()
      ensures Now() == WithPlaying(old(Now()), if wired then true else old(isPlaying))
      ensures Sent(avPlayer, [Seek(0.0), Command.Play])
      ensures Sent(manager.backgroundPlayer, if wired then [Command.Play, Command.Play] else [])
      ensures Sent(manager.noisePlayer, if wired then [Command.Play, Command.Play] else [])
    {
      SeekToBegin();
      Play();
      OnPlay();
    }

    /** `backward`: seek to the display time less 15 seconds, with no clamp
        at 0. */
    method Backward()
      requires Valid()
      modifies avPlayer
      ensures Sent(avPlayer, [Seek(displayTimeSubject - 15.0)])
    {
      var timeBackward := displayTimeSubject;
      timeBackward := timeBackward - 15.0;
      SeekTo(timeBackward);
    }

    /** The `scrubState` setter with its `didSet`. */
    method SetScrubState(s: ScrubState)
      requires Valid()
      modifies this, avPlayer
      ensures Valid()
      ensures Now() == old(Now()).(clock := Assign(old(Clock()), s).timeline)
      ensures Sent(avPlayer, SeekCommands(Assign(old(Clock()), s).seeks))
    {
      scrubState := s;
      if s.ScrubEnded? && avPlayer != null {
        avPlayer.Seek(s.value);
      }
    }

    /** `displayTimeSubject.send(time)`, with the view model's sink. */
    method SendDisplayTime(time: real)
      requires Valid()
      modifies this
      ensures Valid()
      ensures Now() == old(Now()).(clock := old(Clock()).(display := time, shown := time))
    {
      displayTimeSubject := time;
      displayTime := time;
    }

    /** One firing of the periodic time observer at engine time `now`. It
        fires only while the player holds its engine and the observer is
        installed. */
    method Tick(now: real)
      requires Valid()
      modifies this, avPlayer
      ensures Valid()
      ensures avPlayer == null || !hasPeriodicTimeObserver ==> Now() == old(Now())
      ensures avPlayer != null && hasPeriodicTimeObserver ==>
        Now() == old(Now()).(clock := Scrub.Tick(old(Clock()), now).timeline)
      ensures Sent(avPlayer, SeekCommands(if avPlayer == null || !hasPeriodicTimeObserver then []
                                          else Scrub.Tick(old(Clock()), now).seeks))
    {
      if avPlayer == null || !hasPeriodicTimeObserver {
        return;
      }
      observedTime := now;
      match scrubState
      case Reset =>
        SendDisplayTime(now);
      case ScrubStarted(seekTime) =>
        SendDisplayTime(seekTime);
      case ScrubEnded(seekTime) =>
        SetScrubState(Reset);
        SendDisplayTime(seekTime);
    }

    /** The item-duration publisher delivers `duration`; the view model's
        sink copies it. It delivers only while the player holds its engine. */
    method DurationResolved(duration: real)
      requires Valid()
      modifies this
      ensures Valid()
      ensures avPlayer == null ==> Now() == old(Now())
      ensures avPlayer != null ==> Now() == old(Now()).(duration := duration)
      ensures avPlayer != null ==> itemDuration == duration
    {
      if avPlayer != null {
        itemDurationSubject := duration;
        itemDuration := duration;
      }
    }

    /** The item's `isPlaybackLikelyToKeepUp` changed: run `onStart`. */
    method BufferingChanged()
      requires Valid()
      modifies this, manager.backgroundPlayer, manager.noisePlayer
      ensures Valid()
      ensures Now() == WithPlaying(old(Now()), if wired && avPlayer != null then true else old(isPlaying))
      ensures Sent(manager.backgroundPlayer, if wired && avPlayer != null then [Command.Play] else [])
      ensures Sent(manager.noisePlayer, if wired && avPlayer != null then [Command.Play] else [])
    {
      if avPlayer != null {
        OnStart();
      }
    }

    /** The item played to its end: run `onFinish`. */
    method PlayedToEnd()
      requires Valid()
      modifies this, avPlayer, manager, manager.backgroundPlayer, manager.noisePlayer
      ensures Valid()
      ensures !(wired && old(avPlayer) != null) ==> Now() == old(Now()) && unchanged(manager)
      ensures wired && old(avPlayer) != null ==>
        && Now() == old(Now()).(flags := old(Now()).flags.(isPlaying := false, isFinished := true))
        && manager.backgroundPlayer == null && manager.noisePlayer == null
        && manager.cleared == old(manager.cleared) + DestroyOrder
        && InStep()
      ensures manager.setupCalls == old(manager.setupCalls)
      ensures Sent(old(manager.backgroundPlayer), if wired && avPlayer != null then [Command.Pause] else [])
      ensures Sent(old(manager.noisePlayer), if wired && avPlayer != null then [Command.Pause] else [])
      ensures Sent(avPlayer, if wired then [Command.Pause] else [])
    {
      if avPlayer != null {
        OnFinish();
      }
    }

    /** `removePeriodicTimeObserver`: with a token, ask the engine (if any) to
        drop the observer, then forget the token. */
    method RemovePeriodicTimeObserver()
      requires Valid()
      modifies this, avPlayer
      ensures Valid()
      ensures Now() == old(Now()).(timeObserver := false)
      ensures Sent(avPlayer, if old(hasPeriodicTimeObserver) then [RemoveTimeObserver] else [])
    {
      if !hasPeriodicTimeObserver {
        return;
      }
      if avPlayer != null {
        avPlayer.RemoveTimeObserver();
      }
      hasPeriodicTimeObserver := false;
    }

    /**
     * `destroy`: `pause` (so onPause runs), drop the engine, then remove the
     * time observer through the engine reference just dropped, so the
     * engine never receives that call. Without an engine RKPlayer.isPlaying
     * reads true.
     */
    method Destroy()
      requires Valid()
      modifies this, avPlayer, manager.backgroundPlayer, manager.noisePlayer
      ensures Valid()
      ensures Now() == WithPlaying(old(Now()), if wired then false else old(isPlaying))
                         .(narration := null, timeObserver := false)
      ensures Sent(old(avPlayer), [Command.Pause])
      ensures Sent(manager.backgroundPlayer, if wired then [Command.Pause] else [])
      ensures Sent(manager.noisePlayer, if wired then [Command.Pause] else [])
      ensures IsPlaying()
    {
      Pause();
      avPlayer := null;
      RemovePeriodicTimeObserver();
    }

    // ----- RKUnguidedPlayerViewModel ------------------------------------

    /** `updateScrub`: forward the phase to the player, then publish the
        player's isUnguidedPart (computed from its unchanged display time). */
    method UpdateScrub(s: ScrubState)
      requires Valid()
      modifies this, avPlayer
      ensures Valid()
      ensures Now() == old(Now()).(clock := Assign(old(Clock()), s).timeline,
                                  flags := old(Now()).flags.(isUnguidedPart := PlayerIsUnguidedPart()))
      ensures isUnguidedPart == IsUnguidedPart(old(displayTimeSubject), itemDurationSubject, track.unguidedSecond)
      ensures Sent(avPlayer, SeekCommands(Assign(old(Clock()), s).seeks))
    {
      SetScrubState(s);
      isUnguidedPart := PlayerIsUnguidedPart();
    }

    /** The one-second timer installed by `appearAction`: publish the
        player's isUnguidedPart. */
    method RefreshUnguidedPart()
      requires Valid()
      modifies this
      ensures Valid()
      ensures Now() == old(Now()).(flags := old(Now()).flags.(isUnguidedPart := PlayerIsUnguidedPart()))
    {
      isUnguidedPart := PlayerIsUnguidedPart();
    }

    /** The slider's binding writes the published displayTime directly. */
    method SlideTo(v: real)
      requires Valid()
      modifies this
      ensures Valid()
      ensures Now() == old(Now()).(clock := Slide(old(Clock()), v))
    {
      displayTime := v;
    }

    /** `destroyAll`: destroy the player, then the ambience group. */
    method DestroyAll()
      requires Valid()
      modifies this, avPlayer, manager, manager.backgroundPlayer, manager.noisePlayer
      ensures Valid()
      ensures Now() == WithPlaying(old(Now()), if wired then false else old(isPlaying))
                         .(narration := null, timeObserver := false)
      ensures manager.backgroundPlayer == null && manager.noisePlayer == null
      ensures manager.cleared == old(manager.cleared) + DestroyOrder
      ensures manager.setupCalls == old(manager.setupCalls)
      ensures Sent(old(avPlayer), [Command.Pause])
      ensures Sent(old(manager.backgroundPlayer), if wired then [Command.Pause] else [])
      ensures Sent(old(manager.noisePlayer), if wired then [Command.Pause] else [])
    {
      Destroy();
      manager.Destroy();
    }

    /** `trackFavoritedAction`: publish exactly what the external `likeAction`
        returned (`liked`). */
    method TrackFavoritedAction(liked: bool)
      requires Valid()
      modifies this
      ensures Valid()
      ensures Now() == old(Now()).(flags := old(Now()).flags.(trackFavorited := liked))
    {
      trackFavorited := liked;
    }

    /** `mute`: the player's own mute (outside this model), then the
        ambience group's, which mutes the noise channel only. */
    method Mute()
      requires Valid()
      modifies this, manager.noisePlayer
      ensures Valid()
      ensures Now() == old(Now()).(playerCalls := old(playerCalls) + [MuteCall])
      ensures manager.noisePlayer != null ==> manager.noisePlayer.muted
      ensures OnlyMuteChanged(manager.noisePlayer)
    {
      playerCalls := playerCalls + [MuteCall];
      manager.Mute();
    }

    /** `unmute`: the player's own unmute, then the noise channel's. */
    method Unmute()
      requires Valid()
      modifies this, manager.noisePlayer
      ensures Valid()
      ensures Now() == old(Now()).(playerCalls := old(playerCalls) + [UnmuteCall])
      ensures manager.noisePlayer != null ==> !manager.noisePlayer.muted
      ensures OnlyMuteChanged(manager.noisePlayer)
    {
      playerCalls := playerCalls + [UnmuteCall];
      manager.Unmute();
    }

    /** `appearAction`: install the callbacks, then `play`. Through the wired
        onPlay this starts the ambience and sets isPlaying. (The one-second
        timer it schedules is RefreshUnguidedPart.) */
    method AppearAction()
      requires Valid()
      modifies this, avPlayer, manager.backgroundPlayer, manager.noisePlayer
      ensures Valid() && InStep()
      ensures Now() == WithPlaying(old(Now()), true).(wired := true)
      ensures Sent(avPlayer, [Command.Play])
      ensures Sent(manager.backgroundPlayer, [Command.Play])
      ensures Sent(manager.noisePlayer, [Command.Play])
    {
      wired := true;
      Play();
    }

    /**
     * `playAction`: negate isPlaying, sending the matching command to the
     * ambience group and to the player in the same call. Once wired, the
     * player's callback sends it to the ambience a second time.
     */
    method PlayAction()
      requires Valid()
      modifies this, avPlayer, manager.backgroundPlayer, manager.noisePlayer
      ensures Valid() && InStep()
      ensures Now() == WithPlaying(old(Now()), !old(isPlaying))
      ensures var c := if old(isPlaying) then Command.Pause else Command.Play;
        && Sent(avPlayer, [c])
        && Sent(manager.backgroundPlayer, if wired then [c, c] else [c])
        && Sent(manager.noisePlayer, if wired then [c, c] else [c])
    {
      if isPlaying {
        manager.Pause();
        Pause();
        isPlaying := false;
      } else {
        manager.Play();
        Play();
        isPlaying := true;
      }
    }

    /** `rewindAction`. */
    method RewindAction()
      requires Valid()
      modifies avPlayer
      ensures Sent(avPlayer, [Seek(displayTimeSubject - 15.0)])
    {
      Backward();
    }
  }
}
