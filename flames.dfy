/**
 * The boss's flame attack: a row of flames laid one after another along
 * the boss's heading. Each flame burns through three frames at each of
 * three heights, growing from the smallest to the largest, and dies at the
 * end of the last; the row dies once every flame in it has died.
 */
module Flames {
  import opened Scene

  /**
   * A coordinate as the script holds it: a number, or the missing value
   * that an omitted argument leaves (`undefined`, and the `NaN` any
   * arithmetic on it yields). Every comparison with a missing value fails.
   */
  datatype Coord = Missing | At(v: real)

  function Minus(c: Coord, d: real): (r: Coord)
    ensures r.At? <==> c.At?
    ensures c.At? ==> r.v == c.v - d
  {
    match c
    case Missing => Missing
    case At(v) => At(v - d)
  }

  const FlameWidth: int := 16
  const FlameDepth: real := 10.0
  const Fps: real := 12.0
  /** The number of frames of each height, `sequence`, and of heights, `levelSequence`. */
  const Frames: nat := 3
  const Levels: nat := 3
  /** A row holds at most this many flames over its lifetime, `maxFlames`. */
  const MaxFlames: nat := 9

  /** The sprite rows of the three heights, `spriteProperties`: (height, sX, sY). */
  function LevelSprite(level: nat): (r: (int, int, int))
    requires level < Levels
    ensures r.1 == 160
    ensures r.0 == 16 + 8 * level
  {
    if level == 0 then (16, 160, 504)
    else if level == 1 then (24, 160, 520)
    else (32, 160, 544)
  }

  /** The sprite sheet column of frame idx, `(idx % width) * width`. */
  function Column(idx: nat): (r: int)
    ensures idx < FlameWidth ==> r == 16 * idx
  {
    (idx % 16) * 16
  }

  /** Where a flame is in its animation: frame, height and life. */
  datatype Cursor = Cursor(seqIdx: nat, levelIdx: nat, state: int)

  /**
   * One frame swap: the next frame of this height; after the last frame the
   * next height from its first frame; after the last frame of the last
   * height the flame dies.
   */
  function Advance(c: Cursor): (r: Cursor)
  {
    if c.seqIdx < Frames - 1 then c.(seqIdx := c.seqIdx + 1)
    else if c.levelIdx < Levels - 1 then c.(seqIdx := 0, levelIdx := c.levelIdx + 1)
    else c.(seqIdx := 0, state := 0)
  }

  /** The cursor after n swaps from the first frame of the smallest height. */
  function AfterSwaps(n: nat): (r: Cursor)
    ensures r.seqIdx < Frames && r.levelIdx < Levels
  {
    if n == 0 then Cursor(0, 0, 1) else Advance(AfterSwaps(n - 1))
  }

  /**
   * The cursor walks the frames 0, 1, 2 of each height in turn; the flame
   * dies on its ninth swap, from the last frame of the largest height.
   */
  lemma {:induction false} SwapsClosedForm(q: nat, r: nat)
    requires r < Frames
    ensures AfterSwaps(3 * q + r) == Cursor(r, if q < 2 then q else 2, if 3 * q + r < 9 then 1 else 0)
  {
    if r > 0 {
      SwapsClosedForm(q, r - 1);
    } else if q > 0 {
      SwapsClosedForm(q - 1, 2);
      assert 3 * q + r - 1 == 3 * (q - 1) + 2;
    }
  }

  /**
   * What a flame shows after n swaps: nothing before the first (the height
   * and offsets are not yet set), then the height and sprite row of the
   * height it had before the swap and the column of the frame it moved to.
   */
  function SpriteAfter(n: nat): (Option<int>, Option<int>, Option<int>)
  {
    if n == 0 then (None, None, None)
    else
      var sprite := LevelSprite(AfterSwaps(n - 1).levelIdx);
      (Some(sprite.0), Some(Column(AfterSwaps(n).seqIdx) + sprite.1), Some(sprite.2))
  }

  /**
   * The drawn height lags the cursor by one swap: swaps 3q+1 to 3q+3 are
   * drawn at the height of level q (16, 24, then 32), so the frame on which
   * the flame dies is drawn at the largest height.
   */
  lemma HeightAfter(q: nat, r: nat)
    requires q < Levels && r < Frames
    ensures SpriteAfter(3 * q + r + 1).0 == Some(16 + 8 * q)
  {
    SwapsClosedForm(q, r);
  }

  /** The column drawn after a swap is that of the frame the swap moved to. */
  lemma ColumnAfter(q: nat, r: nat)
    requires q < Levels && r < Frames
    ensures SpriteAfter(3 * q + r + 1).1 == Some((if r < 2 then r + 1 else 0) * 16 + 160)
  {
    var n := 3 * q + r + 1;
    if r < 2 {
      SwapsClosedForm(q, r + 1);
      assert AfterSwaps(n).seqIdx == r + 1;
    } else {
      SwapsClosedForm(q + 1, 0);
      assert AfterSwaps(n).seqIdx == 0;
    }
  }

  /** Everything a flame's update reads and writes, as a value. */
  datatype FlameState = FlameState(
    x: Coord, y: Coord, timer: real, cursor: Cursor,
    height: Option<int>, offsetX: Option<int>, offsetY: Option<int>,
    swaps: nat)

  /** A flame state some number of swaps into its animation. */
  predicate Consistent(s: FlameState)
  {
    && s.cursor == AfterSwaps(s.swaps)
    && (s.height, s.offsetX, s.offsetY) == SpriteAfter(s.swaps)
    && s.timer >= 0.0
  }

  function FreshFlame(x: Coord, y: Coord): (s: FlameState)
    ensures Consistent(s) && s.swaps == 0 && s.cursor.state == 1
  {
    FlameState(x, y, 0.0, Cursor(0, 0, 1), None, None, None, 0)
  }

  const FlameFrameTime: real := 1000.0 / Fps

  /**
   * `Flame.update(elapsed)`: once more than a frame time has gathered, swap
   * the frame and take the height and sprite row of the height the flame
   * had before the swap.
   */
  function Tick(s: FlameState, dt: real): (r: FlameState)
    requires s.cursor.levelIdx < Levels
  {
    var t := s.timer + dt;
    if t > FlameFrameTime then
      var sprite := LevelSprite(s.cursor.levelIdx);
      var c := Advance(s.cursor);
      s.(timer := 0.0, cursor := c, height := Some(sprite.0),
         offsetX := Some(Column(c.seqIdx) + sprite.1), offsetY := Some(sprite.2),
         swaps := s.swaps + 1)
    else
      s.(timer := t)
  }

  /** An update keeps a flame on its animation: it swaps at most once and moves nowhere. */
  lemma TickKeepsConsistent(s: FlameState, dt: real)
    requires Consistent(s) && dt >= 0.0
    ensures Consistent(Tick(s, dt))
    ensures Tick(s, dt).swaps == if s.timer + dt > FlameFrameTime then s.swaps + 1 else s.swaps
    ensures Tick(s, dt).x == s.x && Tick(s, dt).y == s.y
  {
  }

  /** A flame dies on its ninth swap and not before. */
  lemma DiesOnNinthSwap(s: FlameState)
    requires Consistent(s)
    ensures s.cursor.state == 0 <==> s.swaps >= 9
  {
    SwapsClosedForm(s.swaps / 3, s.swaps % 3);
  }

  class Flame {
    var x: Coord
    var y: Coord
    const width: int := FlameWidth
    const depth: real := FlameDepth
    var state: int
    var sequenceIdx: nat
    var levelIdx: nat
    var height: Option<int>
    var offsetX: Option<int>
    var offsetY: Option<int>
    const animationUpdateTime: real := FlameFrameTime
    var timeSinceLastFrameSwap: real
    ghost var swaps: nat
    /** The row that laid the flame, which alone updates it. */
    ghost const owner: Flames

    ghost function Snapshot(): FlameState
      reads this
    {
      FlameState(x, y, timeSinceLastFrameSwap, Cursor(sequenceIdx, levelIdx, state),
                 height, offsetX, offsetY, swaps)
    }

    ghost predicate Valid()
      reads this
    {
      Consistent(Snapshot())
    }

    /** `Flame.init(x, y)`. */
    constructor (x: Coord, y: Coord, ghost owner: Flames)
      ensures Snapshot() == FreshFlame(x, y) && Valid() && this.owner == owner
    {
      this.owner := owner;
      this.x := x;
      this.y := y;
      state := 1;
      sequenceIdx := 0;
      levelIdx := 0;
      height := None;
      offsetX := None;
      offsetY := None;
      timeSinceLastFrameSwap := 0.0;
      swaps := 0;
    }

    /** `getCollisionRect`: no rectangle while a coordinate is missing, since every comparison with it fails. */
    function CollisionRect(): (r: Option<Box>)
      reads this
      ensures r.Some? <==> x.At? && y.At?
      ensures r.Some? ==> r.value == Footprint(x.v, y.v, width as real, depth)
    {
      if x.At? && y.At? then Some(Footprint(x.v, y.v, width as real, depth)) else None
    }

    /** `getY`: the top of the sprite, missing until the first swap sets the height. */
    function GetY(): (r: Coord)
      reads this
      ensures r.At? <==> y.At? && height.Some?
      ensures r.At? ==> r.v == y.v - height.value as real
    {
      if height.Some? then Minus(y, height.value as real) else Missing
    }

    predicate IsDead()
      reads this
    {
      state == 0
    }

    /**
     * `Flame.update(elapsed)`. The level must name a sprite row, or reading
     * its properties fails; `TickKeepsConsistent` shows the update keeps a
     * valid flame valid.
     */
    method Update(elapsed: Ms)
      requires levelIdx < Levels
      modifies this
      ensures Snapshot() == Tick(old(Snapshot()), elapsed)
    {
      var t := timeSinceLastFrameSwap + elapsed;
      if t > animationUpdateTime {
        var sprite := LevelSprite(levelIdx);
        var s, l, st := sequenceIdx, levelIdx, state;
        if s < Frames - 1 {
          s := s + 1;
        } else {
          s := 0;
          if l < Levels - 1 {
            l := l + 1;
          } else {
            st := 0;
          }
        }
        var col := s % width;
        sequenceIdx, levelIdx, state := s, l, st;
        height, offsetX, offsetY := Some(sprite.0), Some(col * width + sprite.1), Some(sprite.2);
        timeSinceLastFrameSwap := 0.0;
        swaps := swaps + 1;
      } else {
        timeSinceLastFrameSwap := t;
      }
    }
  }

  ghost function SnapshotsOf(list: seq<Flame>): (r: seq<FlameState>)
    reads list
    ensures |r| == |list| && forall j :: 0 <= j < |list| ==> r[j] == list[j].Snapshot()
  {
    seq(|list|, j requires 0 <= j < |list| reads list => list[j].Snapshot())
  }

  predicate AllConsistent(starts: seq<FlameState>)
  {
    forall j :: 0 <= j < |starts| ==> Consistent(starts[j])
  }

  /** The flames among the first n whose state in `states` is alive, in order. */
  function Survivors(list: seq<Flame>, states: seq<FlameState>, n: nat): (r: seq<Flame>)
    requires |states| == |list| && n <= |list|
    ensures |r| <= n
    decreases n
  {
    if n == 0 then []
    else Survivors(list, states, n - 1) + if states[n - 1].cursor.state == 0 then [] else [list[n - 1]]
  }

  /** Every state of `starts` after one update by dt. */
  function TickAll(starts: seq<FlameState>, dt: real): (r: seq<FlameState>)
    requires forall j :: 0 <= j < |starts| ==> starts[j].cursor.levelIdx < Levels
    ensures |r| == |starts| && forall j :: 0 <= j < |starts| ==> r[j] == Tick(starts[j], dt)
  {
    seq(|starts|, j requires 0 <= j < |starts| && starts[j].cursor.levelIdx < Levels => Tick(starts[j], dt))
  }

  /** The body of the pruning loop for entry k: update the flame, keep it unless it died. */
  method VisitFlame(list: seq<Flame>, ghost starts: seq<FlameState>, ghost after: seq<FlameState>, k: nat, dt: Ms, kept: seq<Flame>)
    returns (kept': seq<Flame>)
    requires |starts| == |list| == |after| && k < |list| && Distinct(list)
    requires Consistent(starts[k]) && after[k] == Tick(starts[k], dt)
    requires forall j :: 0 <= j < |list| ==> list[j].Snapshot() == if j < k then after[j] else starts[j]
    requires kept == Survivors(list, after, k)
    modifies list[k]
    ensures forall j :: 0 <= j < |list| ==> list[j].Snapshot() == if j < k + 1 then after[j] else starts[j]
    ensures kept' == Survivors(list, after, k + 1)
  {
    var f := list[k];
    f.Update(dt);
    kept' := kept;
    if f.state != 0 {
      kept' := kept + [f];
    }
  }

  /**
   * The pruning loop of `Flames.update`: every flame is updated once, and
   * those that died are spliced out, the rest keeping their order.
   */
  method Prune(list: seq<Flame>, ghost count: nat, ghost owner: Flames, dt: Ms) returns (kept: seq<Flame>)
    requires Row(list, count, owner)
    modifies list
    ensures AllConsistent(old(SnapshotsOf(list)))
    ensures forall j :: 0 <= j < |list| ==> list[j].Snapshot() == Tick(old(list[j].Snapshot()), dt)
    ensures kept == Survivors(list, TickAll(old(SnapshotsOf(list)), dt), |list|)
    ensures Row(kept, count, owner) && forall i :: 0 <= i < |kept| ==> !kept[i].IsDead()
  {
    ghost var starts := SnapshotsOf(list);
    ghost var after := TickAll(starts, dt);
    kept := [];
    var k := 0;
    while k < |list|
      invariant k <= |list|
      invariant kept == Survivors(list, after, k)
      invariant forall j :: 0 <= j < |list| ==> list[j].Snapshot() == if j < k then after[j] else starts[j]
    {
      kept := VisitFlame(list, starts, after, k, dt, kept);
      k := k + 1;
    }
    SurvivorsValid(list, starts, dt);
  }

  /** Where survivor i comes from: an entry among the first n whose state is alive. */
  lemma {:induction false} SurvivorIndex(list: seq<Flame>, states: seq<FlameState>, n: nat, i: nat) returns (j: nat)
    requires |states| == |list| && n <= |list| && i < |Survivors(list, states, n)|
    ensures j < n && Survivors(list, states, n)[i] == list[j] && states[j].cursor.state != 0
    decreases n
  {
    var r := Survivors(list, states, n - 1);
    if i < |r| {
      j := SurvivorIndex(list, states, n - 1, i);
    } else {
      j := n - 1;
    }
  }

  /** The survivors hold no flame twice when the list does not. */
  lemma {:induction false} SurvivorsDistinct(list: seq<Flame>, states: seq<FlameState>, n: nat)
    requires |states| == |list| && n <= |list| && Distinct(list)
    ensures Distinct(Survivors(list, states, n))
    decreases n
  {
    if n > 0 {
      SurvivorsDistinct(list, states, n - 1);
      var r := Survivors(list, states, n - 1);
      forall i | 0 <= i < |r|
        ensures r[i] != list[n - 1]
      {
        var j := SurvivorIndex(list, states, n - 1, i);
      }
    }
  }

  /** The survivors are entries of the list. */
  lemma {:induction false} SurvivorsListed(list: seq<Flame>, states: seq<FlameState>, n: nat)
    requires |states| == |list| && n <= |list|
    ensures forall f :: f in Survivors(list, states, n) ==> f in list
  {
    forall f | f in Survivors(list, states, n)
      ensures f in list
    {
      var i :| 0 <= i < |Survivors(list, states, n)| && Survivors(list, states, n)[i] == f;
      var j := SurvivorIndex(list, states, n, i);
    }
  }

  /** After an update of every flame, every survivor is a valid, living flame, and none is held twice. */
  lemma SurvivorsValid(list: seq<Flame>, starts: seq<FlameState>, dt: real)
    requires |starts| == |list| && AllConsistent(starts) && Distinct(list) && dt >= 0.0
    requires forall j :: 0 <= j < |list| ==> list[j].Snapshot() == Tick(starts[j], dt)
    ensures Distinct(Survivors(list, TickAll(starts, dt), |list|))
    ensures var r := Survivors(list, TickAll(starts, dt), |list|);
      forall i :: 0 <= i < |r| ==> r[i].Valid() && !r[i].IsDead() && r[i] in list
  {
    var states := TickAll(starts, dt);
    var r := Survivors(list, states, |list|);
    SurvivorsDistinct(list, states, |list|);
    forall i | 0 <= i < |r|
      ensures r[i].Valid() && !r[i].IsDead() && r[i] in list
    {
      var j := SurvivorIndex(list, states, |list|, i);
      TickKeepsConsistent(starts[j], dt);
    }
  }

  /**
   * The invariant of a row: distinct valid flames that the row laid itself,
   * and no more of them than have been laid, which is at most nine.
   */
  ghost predicate Row(flames: seq<Flame>, flameCount: nat, owner: Flames)
    reads flames
  {
    && Distinct(flames)
    && (forall j :: 0 <= j < |flames| ==> flames[j].Valid() && flames[j].owner == owner)
    && |flames| <= flameCount <= MaxFlames
  }

  /** `createFlame(x, y)`: lay one more flame, at the end of the row. */
  method CreateFlame(flames: seq<Flame>, flameCount: nat, fx: Coord, fy: Coord, ghost owner: Flames)
    returns (flames': seq<Flame>, flameCount': nat)
    requires Row(flames, flameCount, owner) && flameCount < MaxFlames
    ensures Row(flames', flameCount', owner)
    ensures |flames'| == |flames| + 1 && flames'[..|flames|] == flames && flameCount' == flameCount + 1
    ensures fresh(flames'[|flames|]) && flames'[|flames|].Snapshot() == FreshFlame(fx, fy)
  {
    var flame := new Flame(fx, fy, owner);
    flames' := flames + [flame];
    flameCount' := flameCount + 1;
  }

  /** Where the next flame of a row goes: one flame width further along the heading per flame laid. */
  function NextFlameX(x: real, dir: Facing, flameCount: int): (r: real)
    ensures dir == Right ==> r == x + ((flameCount - 1) * 16) as real
    ensures dir == Left ==> r == x - ((flameCount - 1) * 16) as real
  {
    if dir == Right then x + ((flameCount - 1) * 16) as real else x - ((flameCount - 1) * 16) as real
  }

  /** The fields of a row of flames that change, as a value. */
  datatype RowState = RowState(x: real, y: real, state: int, flameCount: nat, flames: seq<Flame>, timeSinceLastFlame: real)

  class Flames {
    var x: real
    var y: real
    const dir: Facing
    var state: int
    var flameCount: nat
    const maxFlames: nat := MaxFlames
    var flames: seq<Flame>
    const animationUpdateTime: real := FlameFrameTime
    var timeSinceLastFlame: real

    ghost predicate Valid()
      reads this, flames
    {
      Row(flames, flameCount, this)
    }

    /**
     * `Flames.init(x, y, dir)`. The first flame is created with no
     * coordinates, as `createFlame()` is called without arguments.
     */
    constructor (x: real, y: real, dir: Facing)
      ensures Valid()
      ensures this.x == x && this.y == y && this.dir == dir && state == 1
      ensures flameCount == 1 && timeSinceLastFlame == 0.0
      ensures |flames| == 1 && fresh(flames[0]) && flames[0].Snapshot() == FreshFlame(Missing, Missing)
    {
      this.x := x;
      this.y := y;
      this.dir := dir;
      state := 1;
      flames := [];
      flameCount := 0;
      timeSinceLastFlame := 0.0;
      new;
      flames, flameCount := CreateFlame([], 0, Missing, Missing, this);
    }

    ghost function Snapshot(): RowState
      reads this
    {
      RowState(x, y, state, flameCount, flames, timeSinceLastFlame)
    }

    function GetY(): real
      reads this
    {
      y
    }

    predicate IsDead()
      reads this
    {
      state == 0
    }

    /**
     * The first half of `Flames.update`: gather the elapsed time, update
     * every flame and splice out the dead, and die if none is left.
     */
    method PruneFlames(elapsed: Ms) returns (ghost starts: seq<FlameState>)
      requires Valid()
      modifies this, flames
      ensures Valid()
      ensures starts == old(SnapshotsOf(flames)) && AllConsistent(starts)
      ensures forall j :: 0 <= j < |old(flames)| ==> old(flames)[j].Snapshot() == Tick(starts[j], elapsed)
      ensures flames == Survivors(old(flames), TickAll(starts, elapsed), |old(flames)|)
      ensures state == if flames == [] then 0 else old(state)
      ensures x == old(x) && y == old(y) && flameCount == old(flameCount)
      ensures timeSinceLastFlame == old(timeSinceLastFlame) + elapsed
      ensures forall f :: f in flames ==> f in old(flames)
    {
      starts := SnapshotsOf(flames);
      var alive := Prune(flames, flameCount, this, elapsed);
      SurvivorsListed(flames, TickAll(starts, elapsed), |flames|);
      var emptied := |alive| == 0;
      timeSinceLastFlame := timeSinceLastFlame + elapsed;
      flames := alive;
      if emptied {
        state := 0;
      }
    }

    /** The second half of `Flames.update`: lay the next flame along the heading and restart the wait. */
    method LayFlame()
      requires Valid() && flameCount < MaxFlames
      modifies this
      ensures Valid()
      ensures flameCount == old(flameCount) + 1 && timeSinceLastFlame == 0.0
      ensures |flames| == |old(flames)| + 1 && flames[..|old(flames)|] == old(flames)
      ensures fresh(flames[|old(flames)|])
      ensures flames[|old(flames)|].Snapshot() == FreshFlame(At(NextFlameX(x, dir, old(flameCount))), At(y))
      ensures x == old(x) && y == old(y) && state == old(state)
    {
      flames, flameCount := CreateFlame(flames, flameCount, At(NextFlameX(x, dir, flameCount)), At(y), this);
      timeSinceLastFlame := 0.0;
    }

    /**
     * `Flames.update(elapsed)`: update every flame and splice out those that
     * died, die once none is left, and lay a new flame when more than a
     * frame time has gathered since the last and fewer than nine have been
     * laid. `starts` are the flames' states before the update and `kept`
     * the flames that survived it.
     */
    method Update(elapsed: Ms) returns (ghost starts: seq<FlameState>, ghost kept: seq<Flame>)
      requires Valid()
      modifies this, flames
      ensures Valid()
      ensures starts == old(SnapshotsOf(flames)) && AllConsistent(starts)
      ensures forall j :: 0 <= j < |old(flames)| ==> old(flames)[j].Snapshot() == Tick(starts[j], elapsed)
      ensures kept == Survivors(old(flames), TickAll(starts, elapsed), |old(flames)|)
      ensures state == if kept == [] then 0 else old(state)
      ensures x == old(x) && y == old(y)
      ensures old(timeSinceLastFlame) + elapsed > animationUpdateTime && old(flameCount) < MaxFlames ==>
        && flameCount == old(flameCount) + 1 && timeSinceLastFlame == 0.0
        && |flames| == |kept| + 1 && flames[..|kept|] == kept && fresh(flames[|kept|])
        && flames[|kept|].Snapshot() == FreshFlame(At(NextFlameX(x, dir, old(flameCount))), At(y))
      ensures !(old(timeSinceLastFlame) + elapsed > animationUpdateTime && old(flameCount) < MaxFlames) ==>
        && flameCount == old(flameCount) && timeSinceLastFlame == old(timeSinceLastFlame) + elapsed
        && flames == kept
      ensures forall f :: f in flames ==> f in old(flames) || fresh(f)
    {
      starts := PruneFlames(elapsed);
      kept := flames;
      if timeSinceLastFlame > animationUpdateTime && flameCount < maxFlames {
        LayFlame();
      }
    }
  }
}
