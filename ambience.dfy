/**
 * BackgroundPlayerManager.swift: the ambience group, an all-or-nothing pair
 * of looping channels (the muted background video and the audible noise).
 */
module Ambience {
  import opened Wrappers
  import opened Tracks
  import opened Media

  /** The `backgroundVideo` tuple: the loop's URL and the noise volume. */
  datatype BackgroundVideo = BackgroundVideo(url: Url, volume: real)

  /** `backgroundVideo`: present exactly when the track has a background
      animation URL; the volume is the track's percentage, 0 when absent,
      divided by 100. */
  function BackgroundVideoOf(track: Track): (r: Option<BackgroundVideo>)
    ensures r.None? <==> track.animation.backgroundAnimationURL.None?
    ensures r.Some? ==> r.value.url == track.animation.backgroundAnimationURL.value
    ensures r.Some? ==> r.value.volume * 100.0 == track.animation.backgroundVolume.GetOr(0) as real
  {
    match track.animation.backgroundAnimationURL
    case None => None
    case Some(url) => Some(BackgroundVideo(url, (track.animation.backgroundVolume.GetOr(0) as real) / 100.0))
  }

  /** A background volume given as a percentage yields a noise volume in [0, 1]. */
  lemma NoiseVolumeInRange(track: Track)
    requires track.animation.backgroundAnimationURL.Some?
    requires 0 <= track.animation.backgroundVolume.GetOr(0) <= 100
    ensures 0.0 <= BackgroundVideoOf(track).value.volume <= 1.0
  {
  }

  /** The four references the manager holds, named for the order of `destroy`. */
  datatype Slot = BackgroundLooper | NoiseLooper | BackgroundChannel | NoiseChannel

  /** `destroy` clears both loopers before either player. */
  const DestroyOrder: seq<Slot> := [BackgroundLooper, NoiseLooper, BackgroundChannel, NoiseChannel]

  class BackgroundPlayerManager {
    const track: Track
    var looperPlayer: Looper?
    var noiseLooperPlayer: Looper?
    var backgroundPlayer: Engine?
    var noisePlayer: Engine?
    /** The arguments of every call to `onSetup`, in order. */
    ghost var setupCalls: seq<(Engine?, Engine?)>
    /** The references `destroy` has cleared, in order. */
    ghost var cleared: seq<Slot>

    /** No looper outlives the player it loops. */
    ghost predicate LoopersBacked()
      reads this
    {
      && (looperPlayer != null ==> backgroundPlayer == looperPlayer.player)
      && (noiseLooperPlayer != null ==> noisePlayer == noiseLooperPlayer.player)
    }

    /** All or nothing: both channels with their loopers, or none of the four;
        the two channels are distinct engines. */
    ghost predicate Valid()
      reads this
    {
      && LoopersBacked()
      && (backgroundPlayer == null <==> noisePlayer == null)
      && (looperPlayer == null <==> backgroundPlayer == null)
      && (noiseLooperPlayer == null <==> noisePlayer == null)
      && (backgroundPlayer != null ==> backgroundPlayer != noisePlayer)
    }

    /** The channels' standing settings: the video is muted at volume 0, the
        noise is at the track's volume (its muted flag is free), and the two
        run as one unit, at the same rate. */
    ghost predicate Configured()
      reads this, backgroundPlayer, noisePlayer
      requires Valid()
    {
      backgroundPlayer != null ==>
        && backgroundPlayer.muted && backgroundPlayer.volume == 0.0
        && BackgroundVideoOf(track).Some?
        && noisePlayer.volume == BackgroundVideoOf(track).value.volume
        && backgroundPlayer.rate == noisePlayer.rate
    }

    /** `init(track:onSetup:)`: set up the channels, then call `onSetup` once
        with them (both absent when the track has no background URL). */
    constructor (track: Track)
      ensures this.track == track && Valid() && Configured()
      ensures backgroundPlayer == null <==> track.animation.backgroundAnimationURL.None?
      ensures backgroundPlayer != null ==>
        && fresh(backgroundPlayer) && fresh(noisePlayer)
        && backgroundPlayer.commands == [] && noisePlayer.commands == []
        && backgroundPlayer.rate == 0.0 && noisePlayer.rate == 0.0
        && !noisePlayer.muted
      ensures setupCalls == [(backgroundPlayer, noisePlayer)]
      ensures cleared == []
    {
      this.track := track;
      looperPlayer, noiseLooperPlayer := null, null;
      backgroundPlayer, noisePlayer := null, null;
      cleared := [];
      new;
      SetupBackgroundVideo();
      setupCalls := [(backgroundPlayer, noisePlayer)];
    }

    /** `setupBackgroundVideo`: only with a background video, create the video
        channel (muted, volume 0) and the noise channel (the track's volume),
        each with its looper. */
    method SetupBackgroundVideo()
      requires looperPlayer == null && noiseLooperPlayer == null
      requires backgroundPlayer == null && noisePlayer == null
      modifies this
      ensures Valid() && Configured()
      ensures backgroundPlayer == null <==> BackgroundVideoOf(track).None?
      ensures backgroundPlayer != null ==>
        && fresh(backgroundPlayer) && fresh(noisePlayer)
        && backgroundPlayer.commands == [] && noisePlayer.commands == []
        && backgroundPlayer.rate == 0.0 && noisePlayer.rate == 0.0
        && !noisePlayer.muted
      ensures setupCalls == old(setupCalls) && cleared == old(cleared)
    {
      var video := BackgroundVideoOf(track);
      if video.Some? {
        var queuePlayer := new Engine();
        looperPlayer := new Looper(queuePlayer);
        backgroundPlayer := queuePlayer;
        queuePlayer.SetMuted(true);
        queuePlayer.SetVolume(0.0);

        var noiseQueuePlayer := new Engine();
        noiseLooperPlayer := new Looper(noiseQueuePlayer);
        noisePlayer := noiseQueuePlayer;
        noiseQueuePlayer.SetVolume(video.value.volume);
      }
    }

    /** `seekToZero`: both channels, when present, seek to 0. */
    method SeekToZero()
      requires Valid() && Configured()
      modifies backgroundPlayer, noisePlayer
      ensures Configured()
      ensures Sent(backgroundPlayer, [Seek(0.0)]) && Sent(noisePlayer, [Seek(0.0)])
    {
      if noisePlayer != null {
        noisePlayer.Seek(0.0);
      }
      if backgroundPlayer != null {
        backgroundPlayer.Seek(0.0);
      }
    }

    /** `play`: both channels, when present, play. */
    method Play()
      requires Valid() && Configured()
      modifies backgroundPlayer, noisePlayer
      ensures Configured()
      ensures Sent(backgroundPlayer, [Command.Play]) && Sent(noisePlayer, [Command.Play])
    {
      if backgroundPlayer != null {
        backgroundPlayer.Play();
      }
      if noisePlayer != null {
        noisePlayer.Play();
      }
    }

    /** `pause`: both channels, when present, pause. */
    method Pause()
      requires Valid() && Configured()
      modifies backgroundPlayer, noisePlayer
      ensures Configured()
      ensures Sent(backgroundPlayer, [Command.Pause]) && Sent(noisePlayer, [Command.Pause])
    {
      if backgroundPlayer != null {
        backgroundPlayer.Pause();
      }
      if noisePlayer != null {
        noisePlayer.Pause();
      }
    }

    /** `mute`: only the noise channel is muted; the video channel is untouched. */
    method Mute()
      requires Valid() && Configured()
      modifies noisePlayer
      ensures Configured()
      ensures noisePlayer != null ==> noisePlayer.muted
      ensures noisePlayer != null ==>
        && noisePlayer.commands == old(noisePlayer.commands)
        && noisePlayer.rate == old(noisePlayer.rate)
        && noisePlayer.volume == old(noisePlayer.volume)
    {
      if noisePlayer != null {
        noisePlayer.SetMuted(true);
      }
    }

    /** `unmute`: only the noise channel is unmuted; the video stays muted. */
    method Unmute()
      requires Valid() && Configured()
      modifies noisePlayer
      ensures Configured()
      ensures noisePlayer != null ==> !noisePlayer.muted
      ensures noisePlayer != null ==>
        && noisePlayer.commands == old(noisePlayer.commands)
        && noisePlayer.rate == old(noisePlayer.rate)
        && noisePlayer.volume == old(noisePlayer.volume)
    {
      if noisePlayer != null {
        noisePlayer.SetMuted(false);
      }
    }

    /** `destroy`: clear the two loopers, then the two players. No looper is
        ever left holding a player the manager has let go of. */
    method Destroy()
      requires Valid()
      modifies this
      ensures Valid() && Configured()
      ensures looperPlayer == null && noiseLooperPlayer == null
      ensures backgroundPlayer == null && noisePlayer == null
      ensures cleared == old(cleared) + DestroyOrder
      ensures setupCalls == old(setupCalls)
    {
      looperPlayer := null;
      cleared := cleared + [BackgroundLooper];
      assert LoopersBacked();
      noiseLooperPlayer := null;
      cleared := cleared + [NoiseLooper];
      assert LoopersBacked();
      backgroundPlayer := null;
      cleared := cleared + [BackgroundChannel];
      assert LoopersBacked();
      noisePlayer := null;
      cleared := cleared + [NoiseChannel];
    }
  }
}
