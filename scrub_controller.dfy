/** The page script's controller: the variables the handlers share, updated
    in place, one method per handler. Every method is proved to move the
    controller exactly as the matching transition function of `ScrubModel`
    does, so the invariants proved there hold of the object too. Browser side
    effects are returned as `Effect` values instead of being performed. */
module ScrubController {
  import opened ScrubMath
  import opened Pager
  import opened ScrubModel

  class Controller {
    /** Reduced motion or data saving was requested: no listener is registered. */
    const inert: bool
    var virtualScroll: real
    var scrollLocked: bool
    var interactionBlocked: bool
    var ticking: bool
    var currentTime: real
    var lastTouchY: real

    /** The controller's variables as a value. */
    function Model(): State
      reads this
    {
      State(inert, virtualScroll, scrollLocked, interactionBlocked, ticking, currentTime, lastTouchY)
    }

    ghost predicate Valid()
      reads this
    {
      Inv(Model())
    }

    /** Script start: the preference gate, then the initial values of the shared variables. */
    constructor (prefersReducedMotion: bool, saveData: bool)
      ensures Model() == Init(prefersReducedMotion || saveData)
      ensures Valid()
    {
      inert := prefersReducedMotion || saveData;
      virtualScroll := 0.0;
      scrollLocked := true;
      interactionBlocked := true;
      ticking := false;
      currentTime := 0.0;
      lastTouchY := 0.0;
    }

    /** The `canplaythrough` listener. */
    method HandleReady()
      requires Valid()
      modifies this
      ensures Valid()
      ensures Model() == OnReady(old(Model()))
    {
      if !inert && interactionBlocked {
        interactionBlocked := false;
      }
    }

    /** The wheel listener. */
    method HandleWheel(deltaY: real) returns (effects: seq<Effect>)
      requires Valid()
      modifies this
      ensures Valid()
      ensures Outcome(Model(), effects) == OnWheel(old(Model()), deltaY)
    {
      effects := [];
      if inert || interactionBlocked {
        return;
      }
      if scrollLocked {
        effects := effects + [PreventDefault];
        virtualScroll := Max(0.0, virtualScroll + deltaY * WheelFactor);
        if !ticking {
          effects := effects + [RequestFrame];
          ticking := true;
        }
      }
    }

    /** The touchstart listener. */
    method HandleTouchStart(y: real)
      requires Valid()
      modifies this
      ensures Valid()
      ensures Model() == OnTouchStart(old(Model()), y)
    {
      if !inert && !interactionBlocked {
        lastTouchY := y;
      }
    }

    /** The touchmove listener. */
    method HandleTouchMove(y: real) returns (effects: seq<Effect>)
      requires Valid()
      modifies this
      ensures Valid()
      ensures Outcome(Model(), effects) == OnTouchMove(old(Model()), y)
    {
      effects := [];
      if inert || interactionBlocked {
        return;
      }
      if scrollLocked {
        var delta := lastTouchY - y;
        lastTouchY := y;
        virtualScroll := Max(0.0, virtualScroll + delta);
        if !ticking {
          effects := effects + [RequestFrame];
          ticking := true;
        }
      }
    }

    /** `updateScrub`, run by the browser on the requested animation frame;
        `videoTime` is the video element's playback position. */
    method UpdateScrub(videoTime: real) returns (effects: seq<Effect>)
      requires Valid()
      modifies this
      ensures Valid()
      ensures Outcome(Model(), effects) == Tick(old(Model()), videoTime)
    {
      ghost var before := Model();
      effects := [];
      if scrollLocked {
        var progress := Max(0.0, Min(1.0, virtualScroll / ScrollRange));
        var targetTime := progress * MaxTime;
        assert targetTime == TargetTime(virtualScroll);
        var diff := targetTime - currentTime;
        currentTime := currentTime + diff * EaseFactor;
        assert currentTime == Ease(before.currentTime, TargetTime(virtualScroll));
        var frameNumber := Round(currentTime * Fps);
        var snappedTime := frameNumber as real / Fps;
        assert snappedTime == SnappedTime(currentTime);
        if Abs(videoTime - snappedTime) > FrameTime / 2.0 {
          effects := effects + [Seek(snappedTime)];
        }
        if virtualScroll >= ScrollRange {
          scrollLocked := false;
        } else if virtualScroll > 0.0 {
          effects := effects + [PinTop];
        }
      }
      ticking := false;
    }

    /** The previous button's click listener, given the sections' bounding boxes. */
    method HandlePrev(frames: seq<Rect>) returns (effects: seq<Effect>)
      ensures effects == OnPrev(Model(), frames)
    {
      effects := [];
      if inert {
        return;
      }
      effects := Scrolls(PrevTargets(frames));
    }

    /** The next button's click listener, given the sections' bounding boxes. */
    method HandleNext(frames: seq<Rect>) returns (effects: seq<Effect>)
      requires Valid()
      modifies this
      ensures Valid()
      ensures Outcome(Model(), effects) == OnNext(old(Model()), frames)
    {
      effects := [];
      if inert {
        return;
      }
      if scrollLocked {
        virtualScroll := ScrollRange;
        scrollLocked := false;
        return;
      }
      effects := Scrolls(NextTargets(frames));
    }
  }
}
