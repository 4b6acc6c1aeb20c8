/**
 * The text the view model derives for the player screen
 * (RKUnguidedPlayerViewModel.swift): title, subtitle and the sign and
 * magnitude of the remaining-time label. The clock formatting itself
 * (DateComponentsFormatter) is outside the model; `seconds` is the
 * number handed to it.
 */
module Labels {
  import opened Wrappers

  function Abs(x: real): (r: real)
    ensures r >= 0.0 && (r == x || r == -x)
  {
    if x < 0.0 then -x else x
  }

  /** `displayTitle`. */
  function DisplayTitle(inUnguidedPart: bool, title: Option<string>): (r: string)
    ensures inUnguidedPart ==> r == "Unguided"
    ensures !inUnguidedPart && title.Some? ==> r == title.value
    ensures !inUnguidedPart && title.None? ==> r == ""
  {
    if inUnguidedPart then "Unguided" else title.GetOr("")
  }

  /** `subtitleTile`. */
  function SubtitleTile(inUnguidedPart: bool, subtitle: Option<string>): (r: string)
    ensures inUnguidedPart ==> r == "End of class"
    ensures !inUnguidedPart && subtitle.Some? ==> r == subtitle.value
    ensures !inUnguidedPart && subtitle.None? ==> r == ""
  {
    if inUnguidedPart then "End of class" else subtitle.GetOr("")
  }

  /** Unless the track's own title is "Unguided", the title reads "Unguided"
      exactly in the unguided part. */
  lemma TitleMarksUnguidedPart(inUnguidedPart: bool, title: Option<string>)
    requires title != Some("Unguided")
    ensures DisplayTitle(inUnguidedPart, title) == "Unguided" <==> inUnguidedPart
  {
  }

  datatype Sign = Plus | Minus

  /** A remaining-time label: its sign and the seconds passed to the formatter. */
  datatype Countdown = Countdown(sign: Sign, seconds: real)

  /** `displayItemDurationFormattedText`: with m = |itemDuration - displayTime
      - (unguidedSecond ?? 0) + 1|, "+" with m in the unguided part and "-"
      with m - 1 otherwise. */
  function RemainingTime(itemDuration: real, displayTime: real, unguidedSecond: Option<real>,
                         inUnguidedPart: bool): (r: Countdown)
    ensures r.sign == if inUnguidedPart then Plus else Minus
    ensures var m := Abs(itemDuration - displayTime - unguidedSecond.GetOr(0.0) + 1.0);
      r.seconds == if inUnguidedPart then m else m - 1.0
  {
    var value := Abs(itemDuration - displayTime - unguidedSecond.GetOr(0.0) + 1.0);
    if inUnguidedPart then Countdown(Plus, value) else Countdown(Minus, value - 1.0)
  }

  /** Before the unguided part starts, the "-" label counts the seconds left
      until it starts (until the end when there is no threshold). */
  lemma CountsDownToUnguidedPart(itemDuration: real, displayTime: real, unguidedSecond: Option<real>)
    requires displayTime <= itemDuration - unguidedSecond.GetOr(0.0)
    ensures RemainingTime(itemDuration, displayTime, unguidedSecond, false)
         == Countdown(Minus, itemDuration - unguidedSecond.GetOr(0.0) - displayTime)
  {
  }

  /** In the unguided part, from one second in, the "+" label shows one second
      less than the time spent in it. */
  lemma CountsUpLaggingOneSecond(itemDuration: real, displayTime: real, u: real)
    requires displayTime >= itemDuration - u + 1.0
    ensures RemainingTime(itemDuration, displayTime, Some(u), true)
         == Countdown(Plus, displayTime - (itemDuration - u) - 1.0)
  {
  }

  /** The "+" label is |1 - time spent in the unguided part|: it starts at 1,
      falls to 0 one second in, and only then counts up. */
  lemma CountUpDipsAtTailStart()
    ensures RemainingTime(600.0, 500.0, Some(100.0), true) == Countdown(Plus, 1.0)
    ensures RemainingTime(600.0, 501.0, Some(100.0), true) == Countdown(Plus, 0.0)
    ensures RemainingTime(600.0, 502.0, Some(100.0), true) == Countdown(Plus, 1.0)
  {
  }
}
