/** `ease(el, duration, property, start, to, style)` (lib/transition.js:1-23): an animation that
    moves one property of an element from `start` to `to` along `Math.easeInOutQuad`. Every
    frame advances the clock by 15 ms, writes the eased value, and schedules the next frame while
    the clock is still short of the duration. The element and the browser's frame scheduling are
    not modelled: the frames run in order and their writes are collected in a sequence. */
module Transition {
  import opened Easing

  /** The clock step of one frame, in milliseconds. */
  const Increment: int := 15

  /** One write of a frame: `el.style[property] = String(val)` when `onStyle`, otherwise
      `el[property] = val`. */
  datatype Write = Write(onStyle: bool, property: string, value: real)

  /** How many frames run for `duration`: the first frame always runs, and another follows as
      long as the clock, after its step, is still below the duration. */
  function TickCount(duration: int): (n: nat)
    ensures n >= 1
    ensures Increment * n >= duration
    ensures n == 1 || Increment * (n - 1) < duration
    decreases duration
  {
    if duration <= Increment then 1 else 1 + TickCount(duration - Increment)
  }

  /** The clock after frame `i` (counted from 0) has stepped it. */
  function FrameTime(i: nat): int
  {
    Increment * (i + 1)
  }

  /** The animation as the source runs it: frame `i` samples the curve at `FrameTime(i)`. */
  method Ease(duration: int, property: string, start: real, to: real, style: bool)
    returns (writes: seq<Write>)
    requires duration != 0
    ensures |writes| == TickCount(duration)
    ensures forall i :: 0 <= i < |writes| ==>
      writes[i] == Write(style, property,
        EaseInOutQuad(FrameTime(i) as real, start, to - start, duration as real))
  {
    var change := to - start;
    var currentTime := 0;
    writes := [];
    var scheduled := true;
    while scheduled
      invariant currentTime == Increment * |writes|
      invariant scheduled ==> |writes| < TickCount(duration)
      invariant !scheduled ==> |writes| == TickCount(duration)
      invariant forall i :: 0 <= i < |writes| ==>
        writes[i] == Write(style, property,
          EaseInOutQuad(FrameTime(i) as real, start, change, duration as real))
      decreases TickCount(duration) - |writes|
    {
      currentTime := currentTime + Increment;
      var val := EaseInOutQuad(currentTime as real, start, change, duration as real);
      writes := writes + [Write(style, property, val)];
      scheduled := currentTime < duration;
    }
  }

  /** When the duration is a positive multiple of the step, the last frame lands exactly on the
      end of the duration and writes the target value, and every frame before it stays between
      `start` and `to`, whichever way the animation runs. */
  lemma ExactDurationEndsOnTarget(duration: int, start: real, to: real)
    requires duration > 0 && duration % Increment == 0
    ensures Increment * TickCount(duration) == duration
    ensures EaseInOutQuad((Increment * TickCount(duration)) as real, start, to - start,
      duration as real) == to
    ensures start <= to ==> forall i :: 0 <= i < TickCount(duration) ==>
      start <= EaseInOutQuad(FrameTime(i) as real, start, to - start, duration as real)
        <= to
    ensures to <= start ==> forall i :: 0 <= i < TickCount(duration) ==>
      to <= EaseInOutQuad(FrameTime(i) as real, start, to - start, duration as real)
        <= start
  {
    var n := TickCount(duration);
    var k := duration / Increment;
    assert Increment * k == duration;
    assert n == k;
    if start <= to {
      forall i | 0 <= i < n
        ensures start <= EaseInOutQuad(FrameTime(i) as real, start, to - start,
          duration as real) <= to
      {
        EaseBounded(FrameTime(i) as real, start, to - start, duration as real);
      }
    }
    if to <= start {
      forall i | 0 <= i < n
        ensures to <= EaseInOutQuad(FrameTime(i) as real, start, to - start,
          duration as real) <= start
      {
        EaseBoundedFalling(FrameTime(i) as real, start, to - start, duration as real);
      }
    }
  }

  /** When the duration is not a multiple of the step, the last frame samples the curve after
      its end, where it has turned back: a rising animation stops short of its target. */
  lemma InexactDurationStopsShort(duration: int, start: real, to: real)
    requires duration > 0 && duration % Increment != 0 && start < to
    ensures Increment * TickCount(duration) > duration
    ensures EaseInOutQuad((Increment * TickCount(duration)) as real, start, to - start,
      duration as real) < to
  {
    var n := TickCount(duration);
    assert Increment * n != duration;
    EasePastEnd((Increment * n) as real, start, to - start, duration as real);
  }

  /** A 20 ms animation from 0 to 100 runs two frames and its last write is 50. */
  lemma TwentyMillisecondsEndHalfway()
    ensures TickCount(20) == 2
    ensures EaseInOutQuad((Increment * TickCount(20)) as real, 0.0, 100.0, 20.0) == 50.0
  {
    assert TickCount(5) == 1;
    assert Scaled(30.0, 20.0) == 3.0;
  }

  /** The time frame `i` samples once clamped to the duration. */
  function ClampedTime(i: nat, duration: int): (t: int)
    ensures t <= duration && t <= FrameTime(i)
    ensures t == duration || t == FrameTime(i)
  {
    if FrameTime(i) < duration then FrameTime(i) else duration
  }

  /** The animation with each sample clamped to the duration: the same frames, but the last one
      writes exactly `to`, and for a positive duration and `start <= to` the writes rise
      from `start` to `to` without leaving that range. */
  method EaseClamped(duration: int, property: string, start: real, to: real, style: bool)
    returns (writes: seq<Write>)
    requires duration != 0
    ensures |writes| == TickCount(duration)
    ensures forall i :: 0 <= i < |writes| ==>
      writes[i] == Write(style, property,
        EaseInOutQuad(ClampedTime(i, duration) as real, start, to - start, duration as real))
    ensures writes[|writes| - 1].value == to
    ensures duration > 0 && start <= to ==>
      (forall i :: 0 <= i < |writes| ==> start <= writes[i].value <= to) &&
      (forall i :: 0 < i < |writes| ==> writes[i - 1].value <= writes[i].value)
  {
    var change := to - start;
    var currentTime := 0;
    writes := [];
    var scheduled := true;
    while scheduled
      invariant currentTime == Increment * |writes|
      invariant scheduled ==> |writes| < TickCount(duration)
      invariant !scheduled ==> |writes| == TickCount(duration) && currentTime >= duration
      invariant forall i :: 0 <= i < |writes| ==>
        writes[i] == Write(style, property,
          EaseInOutQuad(ClampedTime(i, duration) as real, start, change, duration as real))
      decreases TickCount(duration) - |writes|
    {
      currentTime := currentTime + Increment;
      var sample := if currentTime < duration then currentTime else duration;
      var val := EaseInOutQuad(sample as real, start, change, duration as real);
      writes := writes + [Write(style, property, val)];
      scheduled := currentTime < duration;
    }
    assert ClampedTime(|writes| - 1, duration) == duration;
    if duration > 0 && start <= to {
      forall i | 0 <= i < |writes|
        ensures start <= writes[i].value <= to
      {
        EaseBounded(ClampedTime(i, duration) as real, start, change, duration as real);
      }
      forall i | 0 < i < |writes|
        ensures writes[i - 1].value <= writes[i].value
      {
        EaseMonotone(ClampedTime(i - 1, duration) as real, ClampedTime(i, duration) as real,
          start, change, duration as real);
      }
    }
  }
}
