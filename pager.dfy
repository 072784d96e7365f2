/** Pager navigation: which section the previous/next buttons scroll to.
    The buttons walk every frame-marked section in document order and, for
    each one whose bounding box straddles the top of the viewport, scroll to
    its neighbour. The bounding boxes are inputs; the result is the list of
    indices handed to `scrollIntoView`, in the order they are issued. */
module Pager {

  /** The vertical extent of a section relative to the viewport top. */
  datatype Rect = Rect(top: real, bottom: real)

  /** `rect.top <= 0 && rect.bottom > 0`: the section covers the viewport top. */
  predicate Straddles(r: Rect)
  {
    r.top <= 0.0 && r.bottom > 0.0
  }

  predicate StrictlyIncreasing(s: seq<nat>)
  {
    forall a, b :: 0 <= a < b < |s| ==> s[a] < s[b]
  }

  /** Targets of the previous button for the sections from index `i` on. */
  function PrevTargetsFrom(frames: seq<Rect>, i: nat): (r: seq<nat>)
    requires i <= |frames|
    ensures forall t: nat {:trigger t in r} :: t in r <==> i <= t + 1 < |frames| && Straddles(frames[t + 1])
    ensures forall k :: 0 <= k < |r| ==> i <= r[k] + 1
    ensures StrictlyIncreasing(r)
    decreases |frames| - i
  {
    if i == |frames| then []
    else
      var here := if Straddles(frames[i]) && i > 0 then [i - 1] else [];
      here + PrevTargetsFrom(frames, i + 1)
  }

  /** Targets of the next button for the sections from index `i` on. */
  function NextTargetsFrom(frames: seq<Rect>, i: nat): (r: seq<nat>)
    requires i <= |frames|
    ensures forall t: nat {:trigger t in r} :: t in r <==> i < t < |frames| && Straddles(frames[t - 1])
    ensures forall k :: 0 <= k < |r| ==> i < r[k]
    ensures StrictlyIncreasing(r)
    decreases |frames| - i
  {
    if i == |frames| then []
    else
      var here := if Straddles(frames[i]) && i < |frames| - 1 then [i + 1] else [];
      here + NextTargetsFrom(frames, i + 1)
  }

  /** Indices the previous button scrolls to: `idx - 1` for every straddling section with `idx > 0`. */
  function PrevTargets(frames: seq<Rect>): (r: seq<nat>)
    ensures forall t: nat {:trigger t in r} :: t in r <==> t + 1 < |frames| && Straddles(frames[t + 1])
    ensures StrictlyIncreasing(r)
  {
    PrevTargetsFrom(frames, 0)
  }

  /** Indices the next button scrolls to: `idx + 1` for every straddling section with `idx < n - 1`. */
  function NextTargets(frames: seq<Rect>): (r: seq<nat>)
    ensures forall t: nat {:trigger t in r} :: t in r <==> 0 < t < |frames| && Straddles(frames[t - 1])
    ensures StrictlyIncreasing(r)
  {
    NextTargetsFrom(frames, 0)
  }

  /** No target ever leaves the section list, and a list of at most one section has no neighbours. */
  lemma TargetsInBounds(frames: seq<Rect>)
    ensures forall t :: t in PrevTargets(frames) ==> t < |frames| - 1
    ensures forall t :: t in NextTargets(frames) ==> 0 < t < |frames|
    ensures |frames| <= 1 ==> PrevTargets(frames) == [] && NextTargets(frames) == []
  {
    if |frames| == 1 {
      assert PrevTargetsFrom(frames, 1) == [] && NextTargetsFrom(frames, 1) == [];
    }
  }

  /** With one straddling section at `idx`, the previous button scrolls only to `idx - 1` (if any). */
  lemma {:induction false} PrevOfSingleStraddler(frames: seq<Rect>, idx: nat, i: nat)
    requires idx < |frames| && i <= |frames|
    requires Straddles(frames[idx])
    requires forall j :: 0 <= j < |frames| && j != idx ==> !Straddles(frames[j])
    ensures PrevTargetsFrom(frames, i) == if i <= idx && idx > 0 then [idx - 1] else []
    decreases |frames| - i
  {
    if i < |frames| {
      PrevOfSingleStraddler(frames, idx, i + 1);
      if i != idx {
        assert !Straddles(frames[i]);
      }
    }
  }

  /** With one straddling section at `idx`, the next button scrolls only to `idx + 1` (if any). */
  lemma {:induction false} NextOfSingleStraddler(frames: seq<Rect>, idx: nat, i: nat)
    requires idx < |frames| && i <= |frames|
    requires Straddles(frames[idx])
    requires forall j :: 0 <= j < |frames| && j != idx ==> !Straddles(frames[j])
    ensures NextTargetsFrom(frames, i) == if i <= idx < |frames| - 1 then [idx + 1] else []
    decreases |frames| - i
  {
    if i < |frames| {
      NextOfSingleStraddler(frames, idx, i + 1);
      if i != idx {
        assert !Straddles(frames[i]);
      }
    }
  }
}
