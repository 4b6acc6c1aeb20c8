/**
 * The narration player's timeline (RKPlayer.swift): the scrub phase with its
 * seek-issuing `didSet`, the periodic tick, and the values derived from
 * display time and duration. Everything here is a function of values; the
 * class in ViewModel stores these values in fields and is specified by them.
 */
module Scrub {
  import opened Wrappers

  /** PlayerScrubState. */
  datatype ScrubState = Reset | ScrubStarted(value: real) | ScrubEnded(value: real)

  /**
   * The time state one session keeps:
   *   phase    -- RKPlayer.scrubState
   *   observed -- RKPlayer.observedTime, the last engine time a tick reported
   *   display  -- the current value of RKPlayer.displayTimeSubject
   *   shown    -- the view model's published displayTime, which the subject's
   *               sink overwrites on every send and the slider writes directly
   */
  datatype Timeline = Timeline(phase: ScrubState, observed: real, display: real, shown: real)

  /** A new timeline and the engine seeks issued on the way, in order. */
  datatype Step = Step(timeline: Timeline, seeks: seq<real>)

  /** The timeline of a freshly built player and view model. */
  const Initial := Timeline(Reset, 0.0, 0.0, 0.0)

  /** `scrubState = s`: store the phase, then run its `didSet`, which seeks
      only for `scrubEnded`, to the value it carries. */
  function Assign(t: Timeline, s: ScrubState): (r: Step)
    ensures r.timeline == t.(phase := s)
    ensures s.ScrubEnded? ==> r.seeks == [s.value]
    ensures !s.ScrubEnded? ==> r.seeks == []
  {
    match s
    case Reset => Step(t.(phase := s), [])
    case ScrubStarted(_) => Step(t.(phase := s), [])
    case ScrubEnded(v) => Step(t.(phase := s), [v])
  }

  /** One firing of the periodic time observer at engine time `now`. */
  function Tick(t: Timeline, now: real): (r: Step)
    // observedTime always follows the engine
    ensures r.timeline.observed == now
    // a tick never seeks, not even when it resets a finished scrub
    ensures r.seeks == []
    // scrubEnded is left for reset; the other phases stay
    ensures r.timeline.phase == if t.phase.ScrubEnded? then Reset else t.phase
    // reset shows the engine time; a scrub phase shows its own value and ignores the engine
    ensures t.phase.Reset? ==> r.timeline.display == now
    ensures !t.phase.Reset? ==> r.timeline.display == t.phase.value
    // every send reaches the view model's copy
    ensures r.timeline.shown == r.timeline.display
  {
    var ticked := t.(observed := now);
    match t.phase
    case Reset => Step(ticked.(display := now, shown := now), [])
    case ScrubStarted(v) => Step(ticked.(display := v, shown := v), [])
    case ScrubEnded(v) =>
      var reset := Assign(ticked, Reset);
      Step(reset.timeline.(display := v, shown := v), reset.seeks)
  }

  /** The slider's binding writes the view model's displayTime and nothing
      else: the player's phase, observed time and display subject stay. */
  function Slide(t: Timeline, v: real): (r: Timeline)
    ensures r.shown == v
    ensures r.phase == t.phase && r.observed == t.observed && r.display == t.display
  {
    t.(shown := v)
  }

  /**
   * What can happen to the timeline: a phase assignment through the view
   * model's updateScrub, a tick, and the two slider events of the view.
   * A drag writes the bound displayTime and then reports
   * `.scrubStarted(displayTime)`; a release reports `.scrubEnded(displayTime)`.
   */
  datatype Event = Assigned(s: ScrubState) | Ticked(now: real) | Dragged(v: real) | Released

  function Apply(t: Timeline, e: Event): Step
  {
    match e
    case Assigned(s) => Assign(t, s)
    case Ticked(now) => Tick(t, now)
    case Dragged(v) =>
      var slid := Slide(t, v);
      Assign(slid, ScrubStarted(slid.shown))
    case Released => Assign(t, ScrubEnded(t.shown))
  }

  /** The events applied in order, with all seeks they issue. */
  function Run(t: Timeline, evs: seq<Event>): Step
    decreases |evs|
  {
    if evs == [] then Step(t, [])
    else
      var first := Apply(t, evs[0]);
      var rest := Run(first.timeline, evs[1..]);
      Step(rest.timeline, first.seeks + rest.seeks)
  }

  /** Running a trace in two parts is running it whole. */
  lemma {:induction false} RunAppend(t: Timeline, a: seq<Event>, b: seq<Event>)
    ensures Run(t, a + b) == Step(Run(Run(t, a).timeline, b).timeline,
                                  Run(t, a).seeks + Run(Run(t, a).timeline, b).seeks)
    decreases |a|
  {
    if a == [] {
      assert a + b == b;
    } else {
      assert (a + b)[0] == a[0];
      assert (a + b)[1..] == a[1..] + b;
      RunAppend(Apply(t, a[0]).timeline, a[1..], b);
    }
  }

  /** True of the events that end a scrub. */
  predicate EndsScrub(e: Event)
  {
    e.Released? || (e.Assigned? && e.s.ScrubEnded?)
  }

  /** How many events of `evs` end a scrub: an independent count. */
  function ScrubEnds(evs: seq<Event>): nat
    decreases |evs|
  {
    if evs == [] then 0
    else (if EndsScrub(evs[0]) then 1 else 0) + ScrubEnds(evs[1..])
  }

  /** In every trace the engine is sought exactly once per scrub end and never
      otherwise: ticks, drags and the tick's own reset issue no seek. */
  lemma {:induction false} OneSeekPerScrubEnd(t: Timeline, evs: seq<Event>)
    ensures |Run(t, evs).seeks| == ScrubEnds(evs)
    decreases |evs|
  {
    if evs != [] {
      OneSeekPerScrubEnd(Apply(t, evs[0]).timeline, evs[1..]);
    }
  }

  /** Whatever happened before, the first tick leaves no finished scrub
      pending: scrubEnded is observable only until the next tick. */
  lemma SettledAfterTick(t: Timeline, evs: seq<Event>, now: real)
    ensures !Run(t, evs + [Ticked(now)]).timeline.phase.ScrubEnded?
  {
    RunAppend(t, evs, [Ticked(now)]);
  }

  /** The events the view sends while the finger is down. */
  predicate IsGesture(e: Event)
  {
    e.Dragged? || e.Ticked?
  }

  /** The value of the last drag in `gs`, or `v` when there is none. */
  function LastDrag(v: real, gs: seq<Event>): real
    decreases |gs|
  {
    if gs == [] then v
    else LastDrag(if gs[0].Dragged? then gs[0].v else v, gs[1..])
  }

  /** While scrubbing, drags and ticks keep the phase at scrubStarted with the
      latest dragged value, keep that value shown, and issue no seek. */
  lemma {:induction false} ScrubbingHoldsLatestDrag(t: Timeline, gs: seq<Event>)
    requires t.phase == ScrubStarted(t.shown)
    requires forall i :: 0 <= i < |gs| ==> IsGesture(gs[i])
    ensures Run(t, gs).seeks == []
    ensures Run(t, gs).timeline.phase == ScrubStarted(LastDrag(t.shown, gs))
    ensures Run(t, gs).timeline.shown == LastDrag(t.shown, gs)
    decreases |gs|
  {
    if gs != [] {
      var next := Apply(t, gs[0]).timeline;
      assert next.phase == ScrubStarted(next.shown);
      assert next.shown == if gs[0].Dragged? then gs[0].v else t.shown;
      ScrubbingHoldsLatestDrag(next, gs[1..]);
    }
  }

  /** A scrub as the view drives it: a first drag, any drags and ticks, the
      release, then the next tick. Exactly one seek is issued, to the value
      of the last drag, and the timeline settles on that value in reset. */
  lemma ViewScrubSeeksOnce(t: Timeline, v: real, gs: seq<Event>, now: real)
    requires forall i :: 0 <= i < |gs| ==> IsGesture(gs[i])
    ensures Run(t, [Dragged(v)] + gs + [Released, Ticked(now)])
         == Step(Timeline(Reset, now, LastDrag(v, gs), LastDrag(v, gs)), [LastDrag(v, gs)])
  {
    var w := LastDrag(v, gs);
    var afterDrag := Apply(t, Dragged(v)).timeline;
    RunAppend(t, [Dragged(v)], gs);
    ScrubbingHoldsLatestDrag(afterDrag, gs);
    assert Run(t, [Dragged(v)]) == Step(afterDrag, []);
    var held := Run(t, [Dragged(v)] + gs);
    assert held.seeks == [] && held.timeline.phase == ScrubStarted(w) && held.timeline.shown == w;
    var released := Apply(held.timeline, Released);
    assert released.seeks == [w] && released.timeline.phase == ScrubEnded(w);
    var settled := Tick(released.timeline, now);
    assert settled == Step(Timeline(Reset, now, w, w), []);
    assert Run(held.timeline, [Released, Ticked(now)]) == Step(settled.timeline, [w]) by {
      assert [Released, Ticked(now)][1..] == [Ticked(now)];
      assert Run(released.timeline, [Ticked(now)]) == settled;
    }
    RunAppend(t, [Dragged(v)] + gs, [Released, Ticked(now)]);
    assert [Dragged(v)] + gs + [Released, Ticked(now)] == ([Dragged(v)] + gs) + [Released, Ticked(now)];
  }

  /** RKPlayer.getPercentComplete: 0 while the duration is not positive,
      otherwise the display time as a percentage of the duration. */
  function PercentComplete(display: real, duration: real): (p: real)
    ensures duration <= 0.0 ==> p == 0.0
    ensures duration > 0.0 ==> p * duration == display * 100.0
  {
    if duration > 0.0 then display / duration * 100.0 else 0.0
  }

  /** Within the track, the percentage lies between 0 and 100. */
  lemma PercentWithinTrack(display: real, duration: real)
    requires 0.0 < duration && 0.0 <= display <= duration
    ensures 0.0 <= PercentComplete(display, duration) <= 100.0
  {
    var p := PercentComplete(display, duration);
    assert p * duration == display * 100.0;
    assert display * 100.0 <= duration * 100.0;
  }

  /** RKPlayer.isUnguidedPart: with a threshold, the display time has reached
      `duration - unguidedSecond`; without one, never. There is no guard on
      the duration. */
  function IsUnguidedPart(display: real, duration: real, unguidedSecond: Option<real>): (r: bool)
    ensures unguidedSecond.None? ==> !r
    ensures unguidedSecond.Some? ==> (r <==> duration - unguidedSecond.value <= display)
  {
    match unguidedSecond
    case None => false
    case Some(u) => display >= duration - u
  }

  /** The unguided part is a tail: once reached, later display times stay in it. */
  lemma UnguidedPartIsTail(d1: real, d2: real, duration: real, unguidedSecond: Option<real>)
    requires IsUnguidedPart(d1, duration, unguidedSecond) && d1 <= d2
    ensures IsUnguidedPart(d2, duration, unguidedSecond)
  {
  }

  /** While the duration is still 0, every non-negative display time counts as
      unguided when the threshold is non-negative. */
  lemma UnguidedBeforeDurationKnown(display: real, u: real)
    requires 0.0 <= display && 0.0 <= u
    ensures IsUnguidedPart(display, 0.0, Some(u))
  {
  }

  /** A 600-second track with a 100-second unguided tail enters it at 500. */
  lemma UnguidedBoundary()
    ensures !IsUnguidedPart(499.0, 600.0, Some(100.0))
    ensures IsUnguidedPart(500.0, 600.0, Some(100.0))
  {
  }
}
