/** The scroll-scrub controller as a state machine over values.
    Each handler of the page script is a transition function from the
    controller state to a new state and the list of side effects it asks the
    browser for; `Step` dispatches one event and `Run` folds a whole event
    history. The lemmas at the end are the controller's invariants. */
module ScrubModel {
  import opened ScrubMath
  import opened Pager

  /** The variables the script keeps between events.
      `inert` is the preference gate (reduced motion or data saving): when it
      is set, the script registers no listener at all. */
  datatype State = State(
    inert: bool,
    virtualScroll: real,
    scrollLocked: bool,
    interactionBlocked: bool,
    ticking: bool,
    currentTime: real,
    lastTouchY: real)

  /** What a handler asks the browser to do. */
  datatype Effect =
    | RequestFrame              // window.requestAnimationFrame(updateScrub)
    | PreventDefault            // e.preventDefault() on a wheel event
    | Seek(time: real)          // video.currentTime = time
    | PinTop                    // window.scrollTo(0, 0)
    | ScrollIntoView(index: nat)  // allFrames[index].scrollIntoView(...)

  /** What can happen to the page. `AnimationFrame` is the animation-frame callback
      running, with the video element's current playback time. */
  datatype Event =
    | Ready
    | Wheel(deltaY: real)
    | TouchStart(y: real)
    | TouchMove(y: real)
    | AnimationFrame(videoTime: real)
    | PrevClick(frames: seq<Rect>)
    | NextClick(frames: seq<Rect>)

  /** What one handler leaves behind: the new state and the effects it asked for, in order. */
  datatype Outcome = Outcome(state: State, effects: seq<Effect>)

  /** The state when the script starts: locked at offset 0, interaction blocked. */
  function Init(inert: bool): State
  {
    State(inert, 0.0, true, true, false, 0.0, 0.0)
  }

  /** The scrub listeners (wheel, touchstart, touchmove) exist: they are
      attached when the video is ready, at the moment the gate opens. */
  predicate Listening(s: State)
  {
    !s.inert && !s.interactionBlocked
  }

  /** Wheel and touch input drive the video. */
  predicate Scrubbing(s: State)
  {
    Listening(s) && s.scrollLocked
  }

  /** The invariant every reachable state keeps. */
  predicate Inv(s: State)
  {
    && s.virtualScroll >= 0.0
    && 0.0 <= s.currentTime <= MaxTime
    && (!s.scrollLocked ==> s.virtualScroll >= ScrollRange)
    && (s.interactionBlocked ==> !s.ticking)
    && (s.inert ==> s.interactionBlocked)
  }

  /** One smooth `scrollIntoView` per target, in order. */
  function Scrolls(targets: seq<nat>): (r: seq<Effect>)
    ensures |r| == |targets|
    ensures forall k :: 0 <= k < |r| ==> r[k] == ScrollIntoView(targets[k])
  {
    seq(|targets|, k requires 0 <= k < |targets| => ScrollIntoView(targets[k]))
  }

  /** The `canplaythrough` listener (registered with `once`): opens the gate. */
  function OnReady(s: State): (r: State)
    ensures s.inert ==> r == s
    ensures !s.inert ==> !r.interactionBlocked
    ensures r.(interactionBlocked := s.interactionBlocked) == s
    ensures Inv(s) ==> Inv(r)
  {
    if s.inert || !s.interactionBlocked then s
    else s.(interactionBlocked := false)
  }

  /** The wheel listener: accumulates the damped delta while locked. */
  function OnWheel(s: State, deltaY: real): (r: Outcome)
    ensures !Scrubbing(s) ==> r == Outcome(s, [])
    ensures Scrubbing(s) ==> r.state.virtualScroll >= 0.0 && r.state.ticking
    ensures Scrubbing(s) ==> r.state.virtualScroll >= s.virtualScroll + deltaY * WheelFactor
    ensures Scrubbing(s) ==>
      r.state.virtualScroll == s.virtualScroll + deltaY * WheelFactor || r.state.virtualScroll == 0.0
    ensures r.state.(virtualScroll := s.virtualScroll, ticking := s.ticking) == s
    ensures PreventDefault in r.effects <==> Scrubbing(s)
    ensures RequestFrame in r.effects <==> Scrubbing(s) && !s.ticking
    ensures forall e :: e in r.effects ==> e == PreventDefault || e == RequestFrame
    ensures Inv(s) ==> Inv(r.state)
  {
    if !Scrubbing(s) then Outcome(s, [])
    else
      var v := Accumulate(s.virtualScroll, deltaY * WheelFactor);
      if s.ticking then Outcome(s.(virtualScroll := v), [PreventDefault])
      else Outcome(s.(virtualScroll := v, ticking := true), [PreventDefault, RequestFrame])
  }

  /** The touchstart listener: remembers where the finger went down. */
  function OnTouchStart(s: State, y: real): (r: State)
    ensures Listening(s) ==> r.lastTouchY == y
    ensures !Listening(s) ==> r == s
    ensures r.(lastTouchY := s.lastTouchY) == s
    ensures Inv(s) ==> Inv(r)
  {
    if Listening(s) then s.(lastTouchY := y) else s
  }

  /** The touchmove listener: accumulates the raw finger movement while locked. */
  function OnTouchMove(s: State, y: real): (r: Outcome)
    ensures !Scrubbing(s) ==> r == Outcome(s, [])
    ensures Scrubbing(s) ==> r.state.virtualScroll >= 0.0 && r.state.ticking && r.state.lastTouchY == y
    ensures Scrubbing(s) ==> r.state.virtualScroll >= s.virtualScroll + (s.lastTouchY - y)
    ensures Scrubbing(s) ==>
      r.state.virtualScroll == s.virtualScroll + (s.lastTouchY - y) || r.state.virtualScroll == 0.0
    ensures r.state.(virtualScroll := s.virtualScroll, ticking := s.ticking, lastTouchY := s.lastTouchY) == s
    ensures RequestFrame in r.effects <==> Scrubbing(s) && !s.ticking
    ensures forall e :: e in r.effects ==> e == RequestFrame
    ensures Inv(s) ==> Inv(r.state)
  {
    if !Scrubbing(s) then Outcome(s, [])
    else
      var v := Accumulate(s.virtualScroll, s.lastTouchY - y);
      if s.ticking then Outcome(s.(virtualScroll := v, lastTouchY := y), [])
      else Outcome(s.(virtualScroll := v, lastTouchY := y, ticking := true), [RequestFrame])
  }

  /** `updateScrub`, the animation-frame callback, given the video's playback time. */
  function Tick(s: State, videoTime: real): (r: Outcome)
    ensures !r.state.ticking
    ensures r.state.(currentTime := s.currentTime, scrollLocked := s.scrollLocked, ticking := s.ticking) == s
    ensures !s.scrollLocked ==> r == Outcome(s.(ticking := false), [])
    ensures s.scrollLocked ==> (r.state.scrollLocked <==> s.virtualScroll < ScrollRange)
    ensures s.scrollLocked ==> (PinTop in r.effects <==> 0.0 < s.virtualScroll < ScrollRange)
    ensures s.scrollLocked ==>
      r.state.currentTime - TargetTime(s.virtualScroll)
        == (1.0 - EaseFactor) * (s.currentTime - TargetTime(s.virtualScroll))
    ensures Seek(SnappedTime(r.state.currentTime)) in r.effects
      <==> s.scrollLocked && Abs(videoTime - SnappedTime(r.state.currentTime)) > FrameTime / 2.0
    ensures forall e :: e in r.effects ==> e == Seek(SnappedTime(r.state.currentTime)) || e == PinTop
    ensures Inv(s) ==> Inv(r.state)
  {
    if !s.scrollLocked then Outcome(s.(ticking := false), [])
    else
      var current := Ease(s.currentTime, TargetTime(s.virtualScroll));
      var snapped := SnappedTime(current);
      var seek := if Abs(videoTime - snapped) > FrameTime / 2.0 then [Seek(snapped)] else [];
      if s.virtualScroll >= ScrollRange then
        Outcome(s.(currentTime := current, scrollLocked := false, ticking := false), seek)
      else if s.virtualScroll > 0.0 then
        Outcome(s.(currentTime := current, ticking := false), seek + [PinTop])
      else
        Outcome(s.(currentTime := current, ticking := false), seek)
  }

  /** The previous button: scrolls to the section before each one covering the viewport top. */
  function OnPrev(s: State, frames: seq<Rect>): (r: seq<Effect>)
    ensures s.inert ==> r == []
    ensures forall k :: 0 <= k < |r| ==>
      r[k].ScrollIntoView? && r[k].index + 1 < |frames| && Straddles(frames[r[k].index + 1])
    ensures !s.inert ==> forall j :: 0 < j < |frames| && Straddles(frames[j]) ==> ScrollIntoView(j - 1) in r
    ensures forall a, b :: 0 <= a < b < |r| ==> r[a].index < r[b].index
  {
    if s.inert then []
    else
      PrevScrollsReachNeighbours(frames);
      Scrolls(PrevTargets(frames))
  }

  lemma PrevScrollsReachNeighbours(frames: seq<Rect>)
    ensures var r := Scrolls(PrevTargets(frames));
      && (forall k :: 0 <= k < |r| ==>
            r[k].ScrollIntoView? && r[k].index + 1 < |frames| && Straddles(frames[r[k].index + 1]))
      && (forall j :: 0 < j < |frames| && Straddles(frames[j]) ==> ScrollIntoView(j - 1) in r)
      && (forall a, b :: 0 <= a < b < |r| ==> r[a].index < r[b].index)
  {
    var t := PrevTargets(frames);
    var r := Scrolls(t);
    forall k | 0 <= k < |r|
      ensures r[k].ScrollIntoView? && r[k].index + 1 < |frames| && Straddles(frames[r[k].index + 1])
    {
      assert t[k] in t;
    }
    forall j | 0 < j < |frames| && Straddles(frames[j])
      ensures ScrollIntoView(j - 1) in r
    {
      var target: nat := j - 1;
      assert target in t;
      var k :| 0 <= k < |t| && t[k] == target;
      assert r[k] == ScrollIntoView(j - 1);
    }
  }

  lemma NextScrollsReachNeighbours(frames: seq<Rect>)
    ensures var r := Scrolls(NextTargets(frames));
      && (forall k :: 0 <= k < |r| ==>
            r[k].ScrollIntoView? && 0 < r[k].index < |frames| && Straddles(frames[r[k].index - 1]))
      && (forall j :: 0 <= j < |frames| - 1 && Straddles(frames[j]) ==> ScrollIntoView(j + 1) in r)
      && (forall a, b :: 0 <= a < b < |r| ==> r[a].index < r[b].index)
  {
    var t := NextTargets(frames);
    var r := Scrolls(t);
    forall k | 0 <= k < |r|
      ensures r[k].ScrollIntoView? && 0 < r[k].index < |frames| && Straddles(frames[r[k].index - 1])
    {
      assert t[k] in t;
    }
    forall j | 0 <= j < |frames| - 1 && Straddles(frames[j])
      ensures ScrollIntoView(j + 1) in r
    {
      var target: nat := j + 1;
      assert target in t;
      var k :| 0 <= k < |t| && t[k] == target;
      assert r[k] == ScrollIntoView(j + 1);
    }
  }

  /** The next button: skips the scrub to its end while locked, otherwise
      scrolls to the section after each one covering the viewport top. */
  function OnNext(s: State, frames: seq<Rect>): (r: Outcome)
    ensures s.inert ==> r == Outcome(s, [])
    ensures !s.inert && s.scrollLocked ==>
      !r.state.scrollLocked && r.state.virtualScroll == ScrollRange && r.effects == []
    ensures r.state.(virtualScroll := s.virtualScroll, scrollLocked := s.scrollLocked) == s
    ensures !s.scrollLocked ==> r.state == s
    ensures forall k :: 0 <= k < |r.effects| ==>
      r.effects[k].ScrollIntoView? && 0 < r.effects[k].index < |frames| && Straddles(frames[r.effects[k].index - 1])
    ensures !s.inert && !s.scrollLocked ==>
      forall j :: 0 <= j < |frames| - 1 && Straddles(frames[j]) ==> ScrollIntoView(j + 1) in r.effects
    ensures forall a, b :: 0 <= a < b < |r.effects| ==> r.effects[a].index < r.effects[b].index
    ensures Inv(s) ==> Inv(r.state)
  {
    if s.inert then Outcome(s, [])
    else if s.scrollLocked then Outcome(s.(virtualScroll := ScrollRange, scrollLocked := false), [])
    else
      NextScrollsReachNeighbours(frames);
      Outcome(s, Scrolls(NextTargets(frames)))
  }

  /** One event. The animation-frame callback only runs while a request is
      outstanding, which is exactly when `ticking` is set. */
  function Step(s: State, e: Event): Outcome
  {
    match e
    case Ready => Outcome(OnReady(s), [])
    case Wheel(dy) => OnWheel(s, dy)
    case TouchStart(y) => Outcome(OnTouchStart(s, y), [])
    case TouchMove(y) => OnTouchMove(s, y)
    case AnimationFrame(vt) => if s.ticking then Tick(s, vt) else Outcome(s, [])
    case PrevClick(frames) => Outcome(s, OnPrev(s, frames))
    case NextClick(frames) => OnNext(s, frames)
  }

  /** A history of events, with every effect in the order it was asked for. */
  function Run(s: State, es: seq<Event>): Outcome
    decreases |es|
  {
    if es == [] then Outcome(s, [])
    else
      var first := Step(s, es[0]);
      var rest := Run(first.state, es[1..]);
      Outcome(rest.state, first.effects + rest.effects)
  }
}
