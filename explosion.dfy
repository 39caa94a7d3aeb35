/**
 * The explosion left behind by a dead enemy: a three-frame sprite that
 * plays once and then reports itself finished.
 */
module Explosions {
  import opened Scene

  const Width: int := 48
  const Height: int := 48
  const OffsetY: int := 391
  const Fps: int := 7

  /** The sprite columns the animation steps through. */
  const Sequence: seq<int> := [0, 1, 2]

  const TwoTo31: int := 0x8000_0000
  const TwoTo32: int := 0x1_0000_0000

  /** Truncation towards zero, the first step of `x | 0`. */
  function Trunc(x: real): (t: int)
    ensures x >= 0.0 ==> t as real <= x < t as real + 1.0
    ensures x < 0.0 ==> t as real - 1.0 < x <= t as real
  {
    if x >= 0.0 then x.Floor else -((-x).Floor)
  }

  /** `x | 0`: truncated towards zero, then wrapped into a signed 32-bit integer. */
  function ToInt32(x: real): (r: int)
    ensures -TwoTo31 <= r < TwoTo31
    ensures (r - Trunc(x)) % TwoTo32 == 0
    ensures -TwoTo31 <= Trunc(x) < TwoTo31 ==> r == Trunc(x)
  {
    var m := Trunc(x) % TwoTo32;
    if m >= TwoTo31 then m - TwoTo32 else m
  }

  /** One frame swap on (sequenceIdx, _state): advance, or finish on the last frame. */
  function Swap(idx: nat, state: int): (r: (nat, int))
  {
    if idx < |Sequence| - 1 then (idx + 1, state) else (idx, 0)
  }

  /** The frame and state after n swaps from the first frame, playing. */
  function AfterSwaps(n: nat): (nat, int)
  {
    if n == 0 then (0, 1) else Swap(AfterSwaps(n - 1).0, AfterSwaps(n - 1).1)
  }

  /**
   * The animation runs 0, 1, 2 and never wraps; the third swap is the one
   * that finishes it, and every later swap leaves it finished on frame 2.
   */
  lemma {:induction false} FinishesOnThirdSwap(n: nat)
    ensures AfterSwaps(n).0 == if n < 2 then n else 2
    ensures AfterSwaps(n).1 == if n < 3 then 1 else 0
  {
    if n > 0 {
      FinishesOnThirdSwap(n - 1);
    }
  }

  /** The fields of an explosion that change, as a value. */
  datatype Blast = Blast(x: int, y: int, state: int, sequenceIdx: nat, offsetX: int,
                         timeSinceLastFrameSwap: real, swaps: nat)

  class Explosion {
    var x: int
    var y: int
    const width: int
    const height: int
    var state: int
    var sequenceIdx: nat
    var offsetX: int
    const offsetY: int
    const animationUpdateTime: real
    var timeSinceLastFrameSwap: real
    /** The frame swaps so far. */
    ghost var swaps: nat

    ghost function Snapshot(): Blast
      reads this
    {
      Blast(x, y, state, sequenceIdx, offsetX, timeSinceLastFrameSwap, swaps)
    }

    ghost predicate Valid()
      reads this
    {
      && (sequenceIdx, state) == AfterSwaps(swaps)
      && sequenceIdx < |Sequence|
      && offsetX == Sequence[sequenceIdx] * width
      && width == Width
    }

    /** `init(x, y)`; the coordinates are truncated to integers. */
    constructor (x: real, y: real)
      ensures Valid() && swaps == 0
      ensures this.x == ToInt32(x) && this.y == ToInt32(y)
      ensures width == Width && height == Height
      ensures state == 1 && sequenceIdx == 0 && offsetX == 0 && offsetY == OffsetY
      ensures animationUpdateTime == 1000.0 / Fps as real && timeSinceLastFrameSwap == 0.0
    {
      this.x := ToInt32(x);
      this.y := ToInt32(y);
      width := Width;
      height := Height;
      state := 1;
      sequenceIdx := 0;
      offsetX := 0;
      offsetY := OffsetY;
      animationUpdateTime := 1000.0 / Fps as real;
      timeSinceLastFrameSwap := 0.0;
      swaps := 0;
    }

    function GetY(): int
      reads this
    {
      y
    }

    predicate IsFinished()
      reads this
    {
      state == 0
    }

    /** `isFinished` holds exactly from the third frame swap on. */
    lemma FinishedFromThirdSwap()
      requires Valid()
      ensures IsFinished() <==> swaps >= 3
      ensures sequenceIdx == if swaps < 2 then swaps else 2
    {
      FinishesOnThirdSwap(swaps);
    }

    /** `animate(elapsed)`, which is all `update` does. */
    method Animate(elapsed: Ms)
      requires Valid()
      modifies this
      ensures Valid()
      ensures x == old(x) && y == old(y)
      ensures old(timeSinceLastFrameSwap) + elapsed <= animationUpdateTime ==>
        timeSinceLastFrameSwap == old(timeSinceLastFrameSwap) + elapsed && swaps == old(swaps) &&
        sequenceIdx == old(sequenceIdx) && state == old(state) && offsetX == old(offsetX)
      ensures old(timeSinceLastFrameSwap) + elapsed > animationUpdateTime ==>
        timeSinceLastFrameSwap == 0.0 && swaps == old(swaps) + 1 &&
        (sequenceIdx, state) == Swap(old(sequenceIdx), old(state)) &&
        offsetX == Sequence[sequenceIdx] * width
    {
      timeSinceLastFrameSwap := timeSinceLastFrameSwap + elapsed;
      if timeSinceLastFrameSwap > animationUpdateTime {
        if sequenceIdx < |Sequence| - 1 {
          sequenceIdx := sequenceIdx + 1;
        } else {
          state := 0;
        }
        offsetX := Sequence[sequenceIdx] * width;
        timeSinceLastFrameSwap := 0.0;
        swaps := swaps + 1;
      }
    }
  }
}
