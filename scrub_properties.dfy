/** Properties of every event history the scroll-scrub controller can see. */
module ScrubProperties {
  import opened ScrubMath
  import opened Pager
  import opened ScrubModel

  /** Every handler keeps the invariant. */
  lemma StepKeepsInv(s: State, e: Event)
    requires Inv(s)
    ensures Inv(Step(s, e).state)
  {
  }

  lemma {:induction false} RunKeepsInv(s: State, es: seq<Event>)
    requires Inv(s)
    ensures Inv(Run(s, es).state)
    decreases |es|
  {
    if es != [] {
      StepKeepsInv(s, es[0]);
      RunKeepsInv(Step(s, es[0]).state, es[1..]);
    }
  }

  /** Whatever happens after the script starts, the offset is non-negative,
      the eased time stays inside the clip, and an unlocked controller has
      reached the end of the scroll range. */
  lemma ReachableStatesKeepInv(inert: bool, es: seq<Event>)
    ensures var s := Run(Init(inert), es).state;
      && s.virtualScroll >= 0.0
      && 0.0 <= s.currentTime <= MaxTime
      && (!s.scrollLocked ==> s.virtualScroll >= ScrollRange)
  {
    RunKeepsInv(Init(inert), es);
  }

  /** Once unlocked, the controller never locks again; the offset and the
      eased time freeze, and the only effects left are pager scrolls. */
  lemma {:induction false} UnlockIsPermanent(s: State, es: seq<Event>)
    requires !s.scrollLocked
    ensures var r := Run(s, es);
      && !r.state.scrollLocked
      && r.state.virtualScroll == s.virtualScroll
      && r.state.currentTime == s.currentTime
      && forall e :: e in r.effects ==> e.ScrollIntoView?
    decreases |es|
  {
    if es != [] {
      var first := Step(s, es[0]);
      assert !first.state.scrollLocked && first.state.virtualScroll == s.virtualScroll;
      assert forall e :: e in first.effects ==> e.ScrollIntoView?;
      UnlockIsPermanent(first.state, es[1..]);
    }
  }

  /** Only the ready signal changes the gate, and only from closed to open. */
  lemma OnlyReadyOpensGate(s: State, e: Event)
    ensures Step(s, e).state.interactionBlocked != s.interactionBlocked
      ==> e.Ready? && s.interactionBlocked
  {
  }

  /** Once open, the gate stays open. */
  lemma {:induction false} GateNeverCloses(s: State, es: seq<Event>)
    requires !s.interactionBlocked
    ensures !Run(s, es).state.interactionBlocked
    decreases |es|
  {
    if es != [] {
      GateNeverCloses(Step(s, es[0]).state, es[1..]);
    }
  }

  /** Before the video is ready, wheel, touch and animation-frame events change
      nothing and ask for nothing; of the buttons, previous only scrolls to
      sections. */
  lemma {:induction false} BlockedInputIsIgnored(s: State, es: seq<Event>)
    requires Inv(s) && s.interactionBlocked
    requires forall e :: e in es ==> !e.Ready? && !e.NextClick?
    ensures Run(s, es).state == s
    ensures forall e :: e in Run(s, es).effects ==> e.ScrollIntoView?
    decreases |es|
  {
    if es != [] {
      assert es[0] in es;
      var first := Step(s, es[0]);
      assert first.state == s;
      assert forall e :: e in first.effects ==> e.ScrollIntoView?;
      assert forall e :: e in es[1..] ==> e in es;
      BlockedInputIsIgnored(s, es[1..]);
    }
  }

  /** With reduced motion or data saving requested, nothing reacts to anything. */
  lemma {:induction false} InertIgnoresEverything(s: State, es: seq<Event>)
    requires Inv(s) && s.inert
    ensures Run(s, es) == Outcome(s, [])
    decreases |es|
  {
    if es != [] {
      assert Step(s, es[0]) == Outcome(s, []);
      InertIgnoresEverything(s, es[1..]);
    }
  }

  /** A seek asked for by one animation frame lands on a whole frame of the clip. */
  lemma TickSeeksWholeFrames(s: State, videoTime: real)
    requires Inv(s)
    ensures forall e :: e in Tick(s, videoTime).effects && e.Seek? ==> IsWholeFrame(e.time) && 0.0 <= e.time <= MaxTime
  {
  }

  /** Every seek in any history is to `k / 24` seconds for a frame `0 <= k <= 360`. */
  lemma {:induction false} SeeksAreWholeFrames(s: State, es: seq<Event>)
    requires Inv(s)
    ensures forall e :: e in Run(s, es).effects && e.Seek? ==> IsWholeFrame(e.time) && 0.0 <= e.time <= MaxTime
    decreases |es|
  {
    if es != [] {
      var first := Step(s, es[0]);
      if es[0].AnimationFrame? && s.ticking {
        TickSeeksWholeFrames(s, es[0].videoTime);
      }
      assert forall e :: e in first.effects ==> !e.Seek? || (IsWholeFrame(e.time) && 0.0 <= e.time <= MaxTime);
      StepKeepsInv(s, es[0]);
      SeeksAreWholeFrames(first.state, es[1..]);
    }
  }

  /** Number of animation-frame requests in a list of effects. */
  function Requests(effects: seq<Effect>): nat
  {
    if effects == [] then 0
    else (if effects[0] == RequestFrame then 1 else 0) + Requests(effects[1..])
  }

  /** Number of animation-frame callbacks that actually run in a history:
      the `AnimationFrame` events that find a request outstanding. */
  function DeliveredFrames(s: State, es: seq<Event>): nat
    decreases |es|
  {
    if es == [] then 0
    else (if es[0].AnimationFrame? && s.ticking then 1 else 0) + DeliveredFrames(Step(s, es[0]).state, es[1..])
  }

  /** One outstanding request while `ticking` is set, none otherwise. */
  function Pending(s: State): nat
  {
    if s.ticking then 1 else 0
  }

  lemma {:induction false} RequestsOfConcat(a: seq<Effect>, b: seq<Effect>)
    ensures Requests(a + b) == Requests(a) + Requests(b)
    decreases |a|
  {
    if a == [] {
      assert a + b == b;
    } else {
      assert (a + b)[0] == a[0];
      assert (a + b)[1..] == a[1..] + b;
      RequestsOfConcat(a[1..], b);
    }
  }

  /** A single event asks for a frame only when none is outstanding, and
      records that one now is; a delivered frame clears the outstanding one. */
  lemma StepRequests(s: State, e: Event)
    ensures Requests(Step(s, e).effects) + Pending(s)
      == (if e.AnimationFrame? && s.ticking then 1 else 0) + Pending(Step(s, e).state)
    ensures e.AnimationFrame? && s.ticking ==> !Step(s, e).state.ticking
  {
    var r := Step(s, e);
    match e
    case AnimationFrame(vt) =>
      if s.ticking {
        assert forall x :: x in r.effects ==> x != RequestFrame;
        NoRequests(r.effects);
      }
    case PrevClick(frames) =>
      NoRequests(r.effects);
    case NextClick(frames) =>
      NoRequests(r.effects);
    case _ =>
  }

  lemma {:induction false} NoRequests(effects: seq<Effect>)
    requires forall x :: x in effects ==> x != RequestFrame
    ensures Requests(effects) == 0
    decreases |effects|
  {
    if effects != [] {
      assert effects[0] in effects;
      assert forall x :: x in effects[1..] ==> x in effects;
      NoRequests(effects[1..]);
    }
  }

  /** Coalescing: every animation-frame request is matched by exactly one
      delivered callback, except the one request that may still be
      outstanding at the end. */
  lemma {:induction false} RequestsCoalesce(s: State, es: seq<Event>)
    ensures Requests(Run(s, es).effects) + Pending(s)
      == DeliveredFrames(s, es) + Pending(Run(s, es).state)
    ensures Requests(Run(s, es).effects) <= DeliveredFrames(s, es) + 1
    decreases |es|
  {
    if es != [] {
      var first := Step(s, es[0]);
      var rest := Run(first.state, es[1..]);
      StepRequests(s, es[0]);
      RequestsCoalesce(first.state, es[1..]);
      RequestsOfConcat(first.effects, rest.effects);
    }
  }

  /** Wheeling 5000 pixels (3000 after damping) on a ready page and letting one
      frame run reaches the end of the clip's range and unlocks the page. */
  lemma WheelToEndUnlocks()
    ensures var r := Run(Init(false), [Ready, Wheel(5000.0), AnimationFrame(0.0)]);
      && !r.state.scrollLocked
      && r.state.virtualScroll == ScrollRange
      && TargetTime(r.state.virtualScroll) == MaxTime
  {
  }

  /** The next button at offset 500, still locked, skips straight to the end
      without scrolling to any section, whether or not the video is ready. */
  lemma NextSkipsToEnd(s: State, frames: seq<Rect>)
    requires !s.inert && s.scrollLocked && s.virtualScroll == 500.0
    ensures var r := Step(s, NextClick(frames));
      && r.state.virtualScroll == ScrollRange
      && !r.state.scrollLocked
      && r.effects == []
  {
  }

  /** The lock releases on the offset, not on the video: one frame after a
      fast wheel reaches the end of the range, the eased time has covered only
      30% of the way (4.5 s, frame 108 of 360), and it stays there, because an
      unlocked tick no longer eases. */
  lemma FastUnlockFreezesEarlyFrame()
    ensures var r := Run(Init(false), [Ready, Wheel(5000.0), AnimationFrame(0.0), Wheel(100.0), AnimationFrame(0.0)]);
      && !r.state.scrollLocked
      && r.state.currentTime == 4.5
      && SnapFrame(r.state.currentTime) == 108
      && r.effects == [PreventDefault, RequestFrame, Seek(4.5)]
  {
  }
}
