/**
 * The external media engine (AVPlayer / AVQueuePlayer) reduced to a recorder
 * of the calls the core makes on it, and the looper that keeps a queue player
 * looping (AVPlayerLooper).
 */
module Media {

  /** A call the core makes on an engine. */
  datatype Command = Play | Pause | Seek(target: real) | RemoveTimeObserver

  /** The rate an engine reports after it received `cmds`, starting from `rate`:
      `play` sets the default rate 1, `pause` sets 0, other calls keep it. */
  function RateAfter(rate: real, cmds: seq<Command>): (r: real)
    ensures cmds == [] ==> r == rate
    decreases |cmds|
  {
    if cmds == [] then rate
    else
      var last := cmds[|cmds| - 1];
      if last == Play then 1.0
      else if last == Pause then 0.0
      else RateAfter(rate, cmds[..|cmds| - 1])
  }

  /** One seek command per target, in order. */
  function SeekCommands(targets: seq<real>): (cmds: seq<Command>)
    ensures |cmds| == |targets|
    ensures forall i :: 0 <= i < |targets| ==> cmds[i] == Seek(targets[i])
  {
    seq(|targets|, i requires 0 <= i < |targets| => Seek(targets[i]))
  }

  class Engine {
    /** Every call received, oldest first. */
    var commands: seq<Command>
    var rate: real
    var muted: bool
    var volume: real

    /** A new engine: nothing received yet, paused, not muted, full volume. */
    constructor ()
      ensures commands == [] && rate == 0.0 && !muted && volume == 1.0
    {
      commands, rate, muted, volume := [], 0.0, false, 1.0;
    }

    method Play()
      modifies this
      ensures commands == old(commands) + [Command.Play] && rate == 1.0
      ensures muted == old(muted) && volume == old(volume)
    {
      commands, rate := commands + [Command.Play], 1.0;
    }

    method Pause()
      modifies this
      ensures commands == old(commands) + [Command.Pause] && rate == 0.0
      ensures muted == old(muted) && volume == old(volume)
    {
      commands, rate := commands + [Command.Pause], 0.0;
    }

    method Seek(target: real)
      modifies this
      ensures commands == old(commands) + [Command.Seek(target)] && rate == old(rate)
      ensures muted == old(muted) && volume == old(volume)
    {
      commands := commands + [Command.Seek(target)];
    }

    method RemoveTimeObserver()
      modifies this
      ensures commands == old(commands) + [Command.RemoveTimeObserver] && rate == old(rate)
      ensures muted == old(muted) && volume == old(volume)
    {
      commands := commands + [Command.RemoveTimeObserver];
    }

    /** The `isMuted` setter. */
    method SetMuted(m: bool)
      modifies this
      ensures muted == m
      ensures commands == old(commands) && rate == old(rate) && volume == old(volume)
    {
      muted := m;
    }

    /** The `volume` setter. */
    method SetVolume(v: real)
      modifies this
      ensures volume == v
      ensures commands == old(commands) && rate == old(rate) && muted == old(muted)
    {
      volume := v;
    }
  }

  /** `e`, when present, received exactly `cmds` since the old state, and its
      rate, muted flag and volume changed only as those calls make them. */
  twostate predicate Sent(e: Engine?, cmds: seq<Command>)
    reads e
  {
    e != null ==>
      && e.commands == old(e.commands) + cmds
      && e.rate == RateAfter(old(e.rate), cmds)
      && e.muted == old(e.muted)
      && e.volume == old(e.volume)
  }

  /** `e`, when present, received no call and kept its rate and volume: at
      most its muted flag changed. */
  twostate predicate OnlyMuteChanged(e: Engine?)
    reads e
  {
    e != null ==>
      && e.commands == old(e.commands)
      && e.rate == old(e.rate)
      && e.volume == old(e.volume)
  }

  /** AVPlayerLooper: keeps its queue player looping; the core only holds it. */
  class Looper {
    const player: Engine

    constructor (player: Engine)
      ensures this.player == player
    {
      this.player := player;
    }
  }
}
