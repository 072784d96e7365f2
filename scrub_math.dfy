/** The arithmetic of the scroll-scrub mapping: the fixed constants, the
    clamped progress, the eased playback time and the snap to a whole frame.
    JavaScript numbers are modelled as `real` (no IEEE-754 rounding). */
module ScrubMath {

  /** Frames per second of the hero video. */
  const Fps: real := 24.0
  /** Index of the last frame the scrub reaches. */
  const MaxFrame: int := 360
  /** Length of the scrubbed clip in seconds: 360 / 24 = 15. */
  const MaxTime: real := MaxFrame as real / Fps
  /** Virtual pixels of input needed to scrub to the last frame. */
  const ScrollRange: real := 3000.0
  /** Damping applied to a wheel delta before it is accumulated. */
  const WheelFactor: real := 0.6
  /** Fraction of the remaining distance covered by one animation frame. */
  const EaseFactor: real := 0.3
  /** Duration of one frame: 1 / 24 s. */
  const FrameTime: real := 1.0 / Fps

  function Max(a: real, b: real): real { if a < b then b else a }
  function Min(a: real, b: real): real { if a < b then a else b }
  function Abs(x: real): real { if x < 0.0 then -x else x }

  /** `Math.max(0, v + d)`: the accumulation rule for a scroll delta. */
  function Accumulate(v: real, d: real): (r: real)
    ensures r >= 0.0 && r >= v + d
    ensures r == v + d || r == 0.0
  {
    Max(0.0, v + d)
  }

  /** `Math.round(x)`: the nearest integer, halves rounded up. */
  function Round(x: real): (k: int)
    ensures k as real - 0.5 <= x < k as real + 0.5
  {
    (x + 0.5).Floor
  }

  /** `Math.max(0, Math.min(1, v / scrollRange))`. */
  function Progress(v: real): (p: real)
    ensures 0.0 <= p <= 1.0
    ensures p == 0.0 <==> v <= 0.0
    ensures p == 1.0 <==> v >= ScrollRange
    ensures 0.0 <= v <= ScrollRange ==> p * ScrollRange == v
  {
    Max(0.0, Min(1.0, v / ScrollRange))
  }

  /** The playback time the scroll offset asks for. */
  function TargetTime(v: real): (t: real)
    ensures 0.0 <= t <= MaxTime
    ensures t == 0.0 <==> v <= 0.0
    ensures t == MaxTime <==> v >= ScrollRange
    ensures 0.0 <= v <= ScrollRange ==> t * ScrollRange == v * MaxTime
  {
    Progress(v) * MaxTime
  }

  /** One easing step: `current + (target - current) * 0.3`. */
  function Ease(current: real, target: real): (r: real)
    ensures Min(current, target) <= r <= Max(current, target)
    ensures r - target == (1.0 - EaseFactor) * (current - target)
  {
    current + (target - current) * EaseFactor
  }

  /** The frame number `Math.round(t * fps)` the eased time is snapped to;
      a time exactly halfway between two frames goes to the later one. */
  function SnapFrame(t: real): (k: int)
    ensures 0.0 <= t <= MaxTime ==> 0 <= k <= MaxFrame
    ensures k as real - 0.5 <= t * Fps < k as real + 0.5
  {
    Round(t * Fps)
  }

  /** The snapped time `frameNumber / fps`: a whole frame, within half a
      frame of `t` (an exact half frame rounds up), and inside the clip when
      `t` is. */
  function SnappedTime(t: real): (r: real)
    ensures (r * Fps).Floor as real == r * Fps
    ensures t - FrameTime / 2.0 < r <= t + FrameTime / 2.0
    ensures 0.0 <= t <= MaxTime ==> IsWholeFrame(r) && 0.0 <= r <= MaxTime
  {
    SnapFrame(t) as real / Fps
  }

  /** `t` is the start of a frame of the clip: `t * 24` is a whole number in [0, 360]. */
  predicate IsWholeFrame(t: real)
  {
    var f := t * Fps;
    f == f.Floor as real && 0 <= f.Floor <= MaxFrame
  }

  /** Repeated easing toward targets in [0, MaxTime] never leaves [0, MaxTime]. */
  lemma EaseStaysInClip(current: real, v: real)
    requires 0.0 <= current <= MaxTime
    ensures 0.0 <= Ease(current, TargetTime(v)) <= MaxTime
  {
  }
}
