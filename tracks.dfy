/** The immutable description of one playable session (Track.swift). */
module Tracks {
  import opened Wrappers

  /** URLs are opaque to the core: it only tests them for presence and hands them on. */
  type Url = string

  /** Track.Animation: the optional background loop and the noise volume in percent. */
  datatype Animation = Animation(backgroundAnimationURL: Option<Url>, backgroundVolume: Option<int>)

  /** Track: every field may be absent, as in the source. */
  datatype Track = Track(
    title: Option<string>,
    subtitle: Option<string>,
    streamURL: Option<Url>,
    animation: Animation,
    favorited: Option<bool>,
    unguidedSecond: Option<real>)
}
