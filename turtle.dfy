/**
 * The player's turtle. The arrow keys set four moving flags from which a
 * direction and a facing follow; an update then picks what the turtle
 * does (attack, reel from a hurt, or walk, stand or jump), moves it,
 * keeps it on the play field and steps its animation, whose one-shot
 * sequences (attack, jump, hurt) end after a fixed number of frame swaps.
 *
 * As for the other actors, each step is a function on the turtle's state
 * as a value and the class promises that function's result. An attack
 * hurts the foot soldiers and the boss in range; the tweens and timelines
 * that this and a jump create are handed back for the game to queue, and
 * the update's request to scroll the level is returned as a flag.
 */
module Turtles {
  import opened Scene
  import opened Timelines
  import Enemies
  import Shredders

  const Width: real := 40.0
  const Height: real := 64.0
  const Depth: real := 10.0
  const StartLives: int := 3
  const Speed: real := 2.0
  const StartHealth: int := 16
  const Damage: int := 2
  const FrameTime: real := 1000.0 / 12.5
  /** The updates a hurt keeps the turtle reeling. */
  const HurtTime: int := 30
  /** `Math.cos(Math.PI / 8)` and `Math.sin(Math.PI / 8)`, as the double values the script computes. */
  const Cos8: real := 0.9238795325112867
  const Sin8: real := 0.3826834323650898
  /** The play field: the left edge, the right edges with and without scrolling, the top of the floor. */
  const MaxXScrolling: real := 135.0
  const MaxXStill: real := 170.0
  const MinY: real := 135.0

  type Cue = Scene.Cue<Enemies.Enemy>

  /** The eight directions of `DIR`. */
  datatype Heading = Up | Down | Leftward | Rightward | UpLeft | UpRight | DownLeft | DownRight

  /** `moving`: the four key flags and the direction `setDir` derived from them. */
  datatype Moving = Moving(up: bool, down: bool, left: bool, right: bool, dir: Option<Heading>)

  /** `moving = {}`: no flag set and no direction. */
  const Still: Moving := Moving(false, false, false, false, None)

  /** The turtle's animation sequences, `seq` without the facing. */
  datatype Sequence = Stand | Walk | Run | Jump | Attack1 | Attack2 | Attack3 | Hurt | ToePain | Cowabunga

  /** The number of frames of each sequence, the same for both facings. */
  function FrameCount(q: Sequence): (n: nat)
    ensures 1 <= n <= 16
  {
    match q
    case Stand => 16
    case Walk => 8
    case Run => 4
    case Jump => 9
    case Attack1 => 4
    case Attack2 => 3
    case Attack3 => 2
    case _ => 1
  }

  /** The frame swaps a one-shot sequence lasts: an attack 3, a jump one less than its frames, a hurt 2. */
  const AttackSwaps: int := 3
  const JumpSwaps: int := FrameCount(Jump) - 1
  const HurtSwaps: int := 2

  /** Everything about the turtle that its steps change, as one value. */
  datatype State = State(
    posX: real, posY: real, lives: int, health: int,
    isAttacking: int, isJumping: int, isHurt: int, allowAttack: bool, allowJumping: bool,
    moving: Moving, facing: Facing,
    sequence: Sequence, oldSeq: Option<(Sequence, Facing)>, sequenceIdx: nat,
    numOfSeqs: int, seqCount: int, timeSinceLastFrameSwap: real)

  /** The state `init(x, y)` leaves; the first sequence key, `'stand'`, matches no sequence with a facing. */
  function Fresh(x: real, y: real): State
  {
    State(x, y, StartLives, StartHealth, 0, 0, 0, true, true, Still, Right, Stand, None, 0, 0, 0, 0.0)
  }

  function Rect(s: State): Box
  {
    Footprint(s.posX, s.posY, Width, Depth)
  }

  predicate Flag(v: int)
  {
    v == 0 || v == 1
  }

  /** `numOfSeqs` and `seqCount`: no one-shot sequence, or one with swaps still to go. */
  predicate CountShape(numOfSeqs: int, seqCount: int)
  {
    (numOfSeqs == 0 && seqCount == 0) || (numOfSeqs == 1 && seqCount > 0)
  }

  /** What holds of the turtle between steps. */
  predicate Invariant(s: State)
  {
    && Flag(s.isAttacking) && Flag(s.isJumping) && 0 <= s.isHurt <= HurtTime
    && CountShape(s.numOfSeqs, s.seqCount)
    && (s.isAttacking == 1 || s.isJumping == 1 ==> s.numOfSeqs == 1)
  }

  lemma FreshIsSound(x: real, y: real)
    ensures Invariant(Fresh(x, y)) && Fresh(x, y).lives == StartLives && Fresh(x, y).health == StartHealth
  {
  }

  /*
   * Input.
   */

  /**
   * `setDir`: the direction of the flags, tried in the order up-left,
   * up-right, down-left, down-right, up, down, left, right; the facing
   * follows the horizontal part, and is kept when there is none.
   */
  function Directed(m: Moving, facing: Facing): (r: (Moving, Facing))
  {
    if m.up && m.left then (m.(dir := Some(UpLeft)), Left)
    else if m.up && m.right then (m.(dir := Some(UpRight)), Right)
    else if m.down && m.left then (m.(dir := Some(DownLeft)), Left)
    else if m.down && m.right then (m.(dir := Some(DownRight)), Right)
    else if m.up then (m.(dir := Some(Up)), facing)
    else if m.down then (m.(dir := Some(Down)), facing)
    else if m.left then (m.(dir := Some(Leftward)), Left)
    else if m.right then (m.(dir := Some(Rightward)), Right)
    else (m.(dir := None), facing)
  }

  /** The vertical part of a set of flags: up wins over down. */
  function Vertical(m: Moving): int
  {
    if m.up then -1 else if m.down then 1 else 0
  }

  /** The horizontal part of a set of flags: left wins over right. */
  function Horizontal(m: Moving): int
  {
    if m.left then -1 else if m.right then 1 else 0
  }

  /** The direction with the given vertical and horizontal parts, each -1, 0 or 1. */
  function Compass(v: int, h: int): Option<Heading>
  {
    if v < 0 then (if h < 0 then Some(UpLeft) else if h > 0 then Some(UpRight) else Some(Up))
    else if v > 0 then (if h < 0 then Some(DownLeft) else if h > 0 then Some(DownRight) else Some(Down))
    else (if h < 0 then Some(Leftward) else if h > 0 then Some(Rightward) else None)
  }

  /**
   * The chain of tests in `setDir` amounts to taking the vertical and the
   * horizontal part separately: up over down, left over right. No flag
   * gives no direction, and the facing changes only with a horizontal part.
   */
  lemma SetDirComposesParts(m: Moving, facing: Facing)
    ensures Directed(m, facing).0 == m.(dir := Compass(Vertical(m), Horizontal(m)))
    ensures Directed(m, facing).0.dir.None? <==> !m.up && !m.down && !m.left && !m.right
    ensures Directed(m, facing).1 == if Horizontal(m) < 0 then Left else if Horizontal(m) > 0 then Right else facing
  {
  }

  /** `moveUp` and its siblings: set one flag, then derive the direction. */
  function Pressed(s: State, m: Moving): (r: State)
  {
    var d := Directed(m, s.facing);
    s.(moving := d.0, facing := d.1)
  }

  /*
   * Actions.
   */

  /** `attack` before its blows: ignored while attacking or jumping, or until the key is released. */
  function Attacked(s: State): (r: (State, bool))
  {
    if s.isAttacking != 0 || s.isJumping != 0 || !s.allowAttack then (s, false)
    else
      (s.(isAttacking := 1, allowAttack := false, sequenceIdx := 0, numOfSeqs := 1,
          seqCount := if s.seqCount == 0 then AttackSwaps else s.seqCount), true)
  }

  /** `jump`: ignored while jumping, attacking or hurt, or until the key is released. */
  function Jumped(s: State): (r: (State, bool))
  {
    if s.isJumping != 0 || s.isAttacking != 0 || s.isHurt != 0 || !s.allowJumping then (s, false)
    else
      (s.(isJumping := 1, allowJumping := false, sequenceIdx := 0, numOfSeqs := 1,
          seqCount := if s.seqCount == 0 then JumpSwaps else s.seqCount), true)
  }

  /** The timeline `jump` builds: 400 ms up and 300 ms down, which only move the sprite. */
  const JumpTrack: Track<Cue> :=
    Track(0, 700.0, 0.0, [Motion(400.0, None), Motion(300.0, None)], [0.0, 0.0], [0.0, 400.0], 0, None)

  /** The jump timeline calls nothing back. */
  lemma JumpIsSilent(c: Cue)
    ensures !CueOf(JumpTrack, c)
  {
  }

  /**
   * `hurt(amount)`: ignored while hurt or jumping. A blow that empties the
   * health costs a life and refills the health (`kill`) instead of a hurt.
   */
  function Hurted(s: State, amount: int): (r: State)
  {
    if s.isHurt != 0 || s.isJumping != 0 then s
    else if s.health - amount <= 0 then s.(lives := s.lives - 1, health := StartHealth)
    else s.(health := s.health - amount, isHurt := HurtTime, sequence := Hurt, numOfSeqs := 1, seqCount := HurtSwaps)
  }

  /** `end`: the victory pose, whose 1500 ms tween clears the stage. */
  function Ended(s: State): State
  {
    s.(sequence := Cowabunga, isHurt := 0, isAttacking := 0, numOfSeqs := 1, seqCount := 1)
  }

  const Victory: Motion<Cue> := Motion(1500.0, Some(StageCleared))

  /*
   * The update.
   */

  /** How a direction moves the turtle in one update. */
  function Stride(dir: Option<Heading>): (r: (real, real))
  {
    match dir
    case None => (0.0, 0.0)
    case Some(h) =>
      match h
      case UpLeft => (-Cos8 * Speed, -Sin8 * Speed)
      case UpRight => (Cos8 * Speed, -Sin8 * Speed)
      case DownLeft => (-Cos8 * Speed, Sin8 * Speed)
      case DownRight => (Cos8 * Speed, Sin8 * Speed)
      case Leftward => (-Speed, 0.0)
      case Rightward => (Speed, 0.0)
      case Up => (0.0, -Speed)
      case Down => (0.0, Speed)
  }

  /** Walking, standing or jumping in place, and the move along the direction. */
  function Walked(s: State): (r: State)
  {
    var d := Stride(s.moving.dir);
    s.(sequence := if s.isJumping != 0 then Jump else if s.moving.dir.Some? then Walk else Stand,
       posX := s.posX + d.0, posY := s.posY + d.1)
  }

  /**
   * The state machine of `update`: an attack holds the turtle still, a
   * hurt counts down while holding it still, anything else moves it.
   */
  function Acted(s: State): (r: State)
  {
    if s.isAttacking != 0 then s.(sequence := Attack1)
    else if s.isHurt != 0 then s.(isHurt := if s.isHurt - 1 <= 0 then 0 else s.isHurt - 1, sequence := Hurt)
    else Walked(s)
  }

  /** The right edge of the play field. */
  function MaxX(canScroll: bool): real
  {
    if canScroll then MaxXScrolling else MaxXStill
  }

  /** A direction with a rightward part. */
  predicate Rightish(dir: Option<Heading>)
  {
    dir == Some(Rightward) || dir == Some(UpRight) || dir == Some(DownRight)
  }

  /**
   * Keeping to the play field. The second result asks the level to
   * scroll: the turtle was pushed back from the right edge while heading
   * right.
   */
  function Clamped(s: State, canScroll: bool): (r: (State, bool))
  {
    var x0 := if s.posX < 0.0 then 0.0 else s.posX;
    var x := if x0 > MaxX(canScroll) then MaxX(canScroll) else x0;
    var y0 := if s.posY < MinY then MinY else s.posY;
    var y := if y0 + Depth > ScreenHeight as real then ScreenHeight as real - Depth else y0;
    (s.(posX := x, posY := y), x0 > MaxX(canScroll) && Rightish(s.moving.dir))
  }

  /** A frame swap of the cursor: a new sequence or facing starts from its first frame, then the cursor steps. */
  function Swapped(s: State): (r: State)
  {
    var key := (s.sequence, s.facing);
    var idx := if s.oldSeq != Some(key) then 0 else s.sequenceIdx;
    s.(oldSeq := Some(key), sequenceIdx := NextFrame(idx, FrameCount(s.sequence)))
  }

  /** The count-down of a one-shot sequence on a frame swap; its end clears the attack and the jump. */
  function CountedDown(s: State): (r: State)
  {
    if s.numOfSeqs > 0 then
      var c := s.seqCount - 1;
      if c == 0 then s.(seqCount := c, isAttacking := 0, isJumping := 0, numOfSeqs := 0)
      else s.(seqCount := c)
    else s
  }

  /** The animation part of `update`, on the time accumulated since the last swap. */
  function Animated(s: State): (r: State)
  {
    if s.timeSinceLastFrameSwap > FrameTime then CountedDown(Swapped(s)).(timeSinceLastFrameSwap := 0.0)
    else s
  }

  /**
   * `update(elapsed)`, given whether the level can scroll: accumulate the
   * time, act, keep to the field, animate, and drop the moving flags.
   * The second result asks the level to scroll.
   */
  function AfterUpdate(s: State, dt: real, canScroll: bool): (r: (State, bool))
  {
    var c := Moved(s, dt, canScroll);
    (Settled(c.0), c.1)
  }

  /** The first part of `update`: accumulate the time, act and keep to the field. */
  function Moved(s: State, dt: real, canScroll: bool): (State, bool)
  {
    Clamped(Acted(Ticked(s, dt)), canScroll)
  }

  /** The time since the last frame swap grows by the elapsed time. */
  function Ticked(s: State, dt: real): State
  {
    s.(timeSinceLastFrameSwap := s.timeSinceLastFrameSwap + dt)
  }

  /** The end of `update`: animate, then drop the moving flags. */
  function Settled(s: State): State
  {
    Animated(s).(moving := Still)
  }

  /*
   * What the steps promise.
   */

  /**
   * An attack starts only when the turtle neither attacks nor jumps and
   * the key was released since the last one; it then plays three frame
   * swaps, unless a hurt's count is already running.
   */
  lemma AttackGuards(s: State)
    ensures var r := Attacked(s);
      && (r.1 <==> s.isAttacking == 0 && s.isJumping == 0 && s.allowAttack)
      && (!r.1 ==> r.0 == s)
      && (r.1 ==> r.0.isAttacking == 1 && !r.0.allowAttack && r.0.sequenceIdx == 0 && r.0.numOfSeqs == 1)
      && (r.1 && s.seqCount == 0 ==> r.0.seqCount == AttackSwaps)
  {
  }

  /** Two attacks need a release in between: the second press is ignored until `resetAttack`. */
  lemma HeldKeyAttacksOnce(s: State)
    ensures !Attacked(Attacked(s).0).1
    ensures Attacked(s).1 ==> !Attacked(Attacked(s).0.(isAttacking := 0)).1
    ensures Attacked(s).1 ==> Attacked(Attacked(s).0.(isAttacking := 0, allowAttack := true)).1
  {
  }

  /** A jump starts only when the turtle neither jumps, attacks nor reels, and the key was released. */
  lemma JumpGuards(s: State)
    ensures var r := Jumped(s);
      && (r.1 <==> s.isJumping == 0 && s.isAttacking == 0 && s.isHurt == 0 && s.allowJumping)
      && (!r.1 ==> r.0 == s)
      && (r.1 ==> r.0.isJumping == 1 && !r.0.allowJumping && r.0.numOfSeqs == 1)
      && (r.1 && s.seqCount == 0 ==> r.0.seqCount == 8)
  {
  }

  /** A jump lasts 700 ms: it is over on the first update that reaches 700 ms, and fires nothing. */
  lemma JumpTakes700(dt: real)
    requires dt >= 0.0
    ensures WellFormed(JumpTrack) && JumpTrack.triggers == [0.0, 400.0]
    ensures Step(JumpTrack, dt).0.state == 2 <==> dt >= 700.0
    ensures Step(JumpTrack, dt).1 == []
  {
  }

  /**
   * `hurt` is ignored while hurt or jumping. A blow that empties the
   * health costs a life and refills it, without a hurt; any other blow
   * takes the amount and reels the turtle for 30 updates. Lives are never
   * checked, so they can fall below zero.
   */
  lemma HurtOutcomes(s: State, amount: int)
    ensures var r := Hurted(s, amount);
      && (s.isHurt != 0 || s.isJumping != 0 ==> r == s)
      && (s.isHurt == 0 && s.isJumping == 0 && s.health - amount <= 0 ==>
            r.lives == s.lives - 1 && r.health == StartHealth && r.isHurt == 0)
      && (s.isHurt == 0 && s.isJumping == 0 && s.health - amount > 0 ==>
            r.lives == s.lives && r.health == s.health - amount && r.isHurt == HurtTime
            && r.numOfSeqs == 1 && r.seqCount == HurtSwaps)
  {
  }

  /**
   * After the play-field step the turtle stands inside the field, and a
   * scroll is asked for exactly when it was pushed back from the right
   * edge while heading right; a turtle already inside is not moved.
   */
  lemma ClampKeepsOnField(s: State, canScroll: bool)
    ensures var r := Clamped(s, canScroll);
      && 0.0 <= r.0.posX <= MaxX(canScroll)
      && MinY <= r.0.posY && r.0.posY + Depth <= ScreenHeight as real
      && (r.1 <==> s.posX > MaxX(canScroll) && Rightish(s.moving.dir))
      && (0.0 <= s.posX <= MaxX(canScroll) && MinY <= s.posY && s.posY + Depth <= ScreenHeight as real ==>
            r.0 == s)
      && r.0 == s.(posX := r.0.posX, posY := r.0.posY)
  {
  }

  /**
   * Movement: none while attacking or reeling; a cardinal direction moves
   * exactly one coordinate by the speed, a diagonal moves both by the
   * speed's cosine and sine parts.
   */
  lemma MovementRules(s: State)
    ensures var r := Acted(s);
      && (s.isAttacking != 0 || s.isHurt != 0 ==> r.posX == s.posX && r.posY == s.posY)
      && (s.isAttacking == 0 && s.isHurt == 0 ==>
            && (s.moving.dir == Some(Leftward) ==> r.posX == s.posX - Speed && r.posY == s.posY)
            && (s.moving.dir == Some(Rightward) ==> r.posX == s.posX + Speed && r.posY == s.posY)
            && (s.moving.dir == Some(Up) ==> r.posY == s.posY - Speed && r.posX == s.posX)
            && (s.moving.dir == Some(Down) ==> r.posY == s.posY + Speed && r.posX == s.posX)
            && (s.moving.dir == Some(UpLeft) ==> r.posX == s.posX - Cos8 * Speed && r.posY == s.posY - Sin8 * Speed)
            && (s.moving.dir == Some(UpRight) ==> r.posX == s.posX + Cos8 * Speed && r.posY == s.posY - Sin8 * Speed)
            && (s.moving.dir == Some(DownLeft) ==> r.posX == s.posX - Cos8 * Speed && r.posY == s.posY + Sin8 * Speed)
            && (s.moving.dir == Some(DownRight) ==> r.posX == s.posX + Cos8 * Speed && r.posY == s.posY + Sin8 * Speed)
            && (s.moving.dir == None ==> r.posX == s.posX && r.posY == s.posY))
  {
  }

  /**
   * The frame cursor stays inside the current sequence after a swap, and a
   * change of sequence or facing restarts it from the first frame.
   */
  lemma SwapKeepsCursor(s: State)
    ensures Swapped(s).sequenceIdx < FrameCount(s.sequence)
    ensures s.oldSeq != Some((s.sequence, s.facing)) ==> Swapped(s).sequenceIdx == if FrameCount(s.sequence) == 1 then 0 else 1
    ensures Swapped(s).oldSeq == Some((s.sequence, s.facing))
  {
  }

  /**
   * A one-shot sequence counts down one per frame swap; the swap that
   * brings it to zero clears the attack, the jump and the count.
   */
  lemma CountDownEnds(s: State)
    requires CountShape(s.numOfSeqs, s.seqCount)
    ensures var r := CountedDown(s);
      && CountShape(r.numOfSeqs, r.seqCount)
      && (s.numOfSeqs == 1 ==> r.seqCount == s.seqCount - 1)
      && (s.numOfSeqs == 1 && s.seqCount == 1 <==> s.numOfSeqs == 1 && r.numOfSeqs == 0)
      && (s.numOfSeqs == 1 && s.seqCount == 1 ==> r.isAttacking == 0 && r.isJumping == 0)
      && (s.numOfSeqs == 0 ==> r == s)
  {
  }

  /** `n` frame swaps of the count-down. */
  function CountedDownTimes(s: State, n: nat): State
    decreases n
  {
    if n == 0 then s else CountedDown(CountedDownTimes(s, n - 1))
  }

  /**
   * A one-shot sequence with `c` swaps to go ends after exactly `c`
   * swaps: an attack started from rest after three, a jump after eight, a
   * hurt after two.
   */
  lemma {:induction false} OneShotLasts(s: State, n: nat)
    requires s.numOfSeqs == 1 && 0 < n <= s.seqCount
    ensures var r := CountedDownTimes(s, n);
      && r.seqCount == s.seqCount - n
      && (n < s.seqCount ==> r.numOfSeqs == 1 && r.isAttacking == s.isAttacking && r.isJumping == s.isJumping)
      && (n == s.seqCount ==> r.numOfSeqs == 0 && r.isAttacking == 0 && r.isJumping == 0)
    decreases n
  {
    if n > 1 {
      OneShotLasts(s, n - 1);
    }
  }

  lemma ActKeepsInvariant(s: State)
    requires Invariant(s)
    ensures Invariant(Acted(s))
  {
  }

  /** A frame swap keeps the invariant and does not move the turtle. */
  lemma AnimateKeepsInvariant(s: State)
    requires Invariant(s)
    ensures Invariant(Animated(s))
    ensures Animated(s).posX == s.posX && Animated(s).posY == s.posY
  {
    if s.timeSinceLastFrameSwap > FrameTime {
      CountDownEnds(Swapped(s));
    }
  }

  /**
   * `update` keeps the invariant, leaves the turtle on the field and
   * drops the moving flags.
   */
  lemma UpdateKeepsInvariant(s: State, dt: real, canScroll: bool)
    requires Invariant(s)
    ensures var r := AfterUpdate(s, dt, canScroll).0;
      && Invariant(r) && r.moving == Still
      && 0.0 <= r.posX <= MaxX(canScroll) && MinY <= r.posY && r.posY + Depth <= ScreenHeight as real
  {
    var t := Ticked(s, dt);
    var a := Acted(t);
    ActKeepsInvariant(t);
    var c := Clamped(a, canScroll).0;
    ClampKeepsOnField(a, canScroll);
    assert Invariant(c);
    AnimateKeepsInvariant(c);
  }

  /** Starting an attack, a jump, a hurt or the victory pose keeps the invariant. */
  lemma ActionsKeepInvariant(s: State, amount: int)
    requires Invariant(s)
    ensures Invariant(Attacked(s).0) && Invariant(Jumped(s).0) && Invariant(Hurted(s, amount))
    ensures Invariant(Ended(s))
  {
  }

  /*
   * An attack's blows.
   */

  /** A blow lands on a foot soldier in range that is neither dying nor dead. */
  predicate Lands(e: Enemies.State, near: bool)
  {
    near && e.isDying == 0 && e.isDead == 0
  }

  /** What a blow does to a foot soldier. */
  function Struck(e: Enemies.State, near: bool): (r: Enemies.State)
    ensures !Lands(e, near) ==> r == e
    ensures Lands(e, near) ==> r.health == e.health - Damage
  {
    if Lands(e, near) then Enemies.AfterHurt(e, Damage) else e
  }

  /** Whether the j-th soldier, as it stood before the attack, is in range of the turtle's rectangle. */
  function Near(starts: seq<Enemies.State>, rect: Box, inRange: (Box, Box) -> bool, j: nat): bool
    requires j < |starts|
  {
    inRange(rect, Enemies.Rect(starts[j]))
  }

  /** The soldiers' states once the blows have reached the first k of them. */
  function BlownStates(starts: seq<Enemies.State>, rect: Box, inRange: (Box, Box) -> bool, k: nat): (r: seq<Enemies.State>)
    ensures |r| == |starts|
    ensures forall j :: 0 <= j < |starts| ==> r[j] == if j < k then Struck(starts[j], Near(starts, rect, inRange, j)) else starts[j]
  {
    seq(|starts|, j requires 0 <= j < |starts| => if j < k then Struck(starts[j], Near(starts, rect, inRange, j)) else starts[j])
  }

  /** The recovery tweens the blows on the first n soldiers start, one per soldier hurt without being killed. */
  function Recoveries(list: seq<Enemies.Enemy>, starts: seq<Enemies.State>, rect: Box, inRange: (Box, Box) -> bool, n: nat)
    : (r: seq<Motion<Cue>>)
    requires |starts| == |list| && n <= |list|
    ensures |r| <= n
    decreases n
  {
    if n == 0 then []
    else
      var e := starts[n - 1];
      Recoveries(list, starts, rect, inRange, n - 1)
      + if Lands(e, Near(starts, rect, inRange, n - 1)) && e.health - Damage > 0 then [Enemies.Recovery(list[n - 1], e.posX)] else []
  }

  /**
   * The death timelines the blows on the first n soldiers start, one per
   * soldier killed, from the position and facing it had when struck.
   */
  function Deaths(list: seq<Enemies.Enemy>, starts: seq<Enemies.State>, rect: Box, inRange: (Box, Box) -> bool, n: nat)
    : (r: seq<Track<Cue>>)
    requires |starts| == |list| && n <= |list|
    ensures |r| <= n
    decreases n
  {
    if n == 0 then []
    else
      var e := starts[n - 1];
      Deaths(list, starts, rect, inRange, n - 1)
      + if Lands(e, Near(starts, rect, inRange, n - 1)) && e.health - Damage <= 0 then [Enemies.DeathTrack(list[n - 1], e.posX, e.facing)] else []
  }

  /** Every recovery the blows start calls back, when it completes, to a soldier of the list. */
  lemma {:induction false} RecoveriesNameSoldiers(list: seq<Enemies.Enemy>, starts: seq<Enemies.State>, rect: Box,
                                                  inRange: (Box, Box) -> bool, n: nat)
    requires |starts| == |list| && n <= |list|
    ensures forall m :: m in Recoveries(list, starts, rect, inRange, n) ==>
      m.onComplete.Some? && m.onComplete.value.EnemyRecovered? && m.onComplete.value.enemy in list
    decreases n
  {
    if n > 0 {
      RecoveriesNameSoldiers(list, starts, rect, inRange, n - 1);
    }
  }

  /**
   * Every death timeline the blows start is well formed, and each of its
   * callbacks acts on a soldier of the list.
   */
  lemma {:induction false} DeathsNameSoldiers(list: seq<Enemies.Enemy>, starts: seq<Enemies.State>, rect: Box,
                                              inRange: (Box, Box) -> bool, n: nat)
    requires |starts| == |list| && n <= |list|
    ensures forall t :: t in Deaths(list, starts, rect, inRange, n) ==>
      WellFormed(t) && forall c :: CueOf(t, c) ==> OnEnemy(c) && c.enemy in list
    decreases n
  {
    if n > 0 {
      DeathsNameSoldiers(list, starts, rect, inRange, n - 1);
      var e := starts[n - 1];
      Enemies.DeathTakes1100(list[n - 1], e.posX, e.facing, 0.0);
      Enemies.DeathCuesNameIt(list[n - 1], e.posX, e.facing);
    }
  }

  /** The motions of a list of tweens (fixed when each tween is made). */
  function MotionsOf(list: seq<Tween<Cue>>): (r: seq<Motion<Cue>>)
    ensures |r| == |list| && forall i :: 0 <= i < |list| ==> r[i] == list[i].motion
  {
    seq(|list|, i requires 0 <= i < |list| => list[i].motion)
  }

  /** The first k soldiers have taken the attack's blow, the others are as they were. */
  ghost predicate Blown(list: seq<Enemies.Enemy>, starts: seq<Enemies.State>, rect: Box, inRange: (Box, Box) -> bool, k: nat)
    reads list
  {
    Enemies.StatesOf(list) == BlownStates(starts, rect, inRange, k)
  }

  /** The tweens and timelines are the ones the blows on the first k soldiers start, unstarted. */
  ghost predicate Started(list: seq<Enemies.Enemy>, starts: seq<Enemies.State>, rect: Box, inRange: (Box, Box) -> bool, k: nat,
                          tweens: seq<Tween<Cue>>, tls: seq<Timeline<Cue>>)
    requires |starts| == |list| && k <= |list|
    reads tweens, tls
  {
    && MotionsOf(tweens) == Recoveries(list, starts, rect, inRange, k)
    && ElapsedOf(tweens) == seq(|tweens|, _ => 0.0)
    && SnapshotsOf(tls) == Deaths(list, starts, rect, inRange, k)
  }

  /** The blow on soldier k, as the body of the attack's loop. */
  method StrikeOne(list: seq<Enemies.Enemy>, ghost starts: seq<Enemies.State>, rect: Box, inRange: (Box, Box) -> bool,
                   k: nat, tweens: seq<Tween<Cue>>, tls: seq<Timeline<Cue>>)
    returns (tweens': seq<Tween<Cue>>, tls': seq<Timeline<Cue>>)
    requires |starts| == |list| && k < |list| && Distinct(list)
    requires Blown(list, starts, rect, inRange, k)
    requires Started(list, starts, rect, inRange, k, tweens, tls)
    requires Distinct(tweens) && Distinct(tls) && forall t :: t in tls ==> t.Valid()
    modifies list[k]
    ensures Blown(list, starts, rect, inRange, k + 1)
    ensures Started(list, starts, rect, inRange, k + 1, tweens', tls')
    ensures forall t :: t in tweens' ==> t in tweens || fresh(t)
    ensures forall t :: t in tls' ==> t in tls || fresh(t)
    ensures Distinct(tweens') && Distinct(tls') && forall t :: t in tls' ==> t.Valid()
  {
    var e := list[k];
    ghost var before := Enemies.StatesOf(list);
    assert e.Snapshot() == starts[k];
    var recovery, death := Blow(e, inRange(rect, e.CollisionRect()));
    BlownGrows(list, before, starts, rect, inRange, k);
    StartedGrows(list, starts, rect, inRange, k, tweens, tls, recovery, death);
    tweens', tls' := Appended(tweens, recovery), Appended(tls, death);
    AppendedDistinct(tweens, recovery);
    AppendedDistinct(tls, death);
  }

  /** Adding an entry not yet listed keeps a list free of repeats. */
  lemma AppendedDistinct<T>(s: seq<T>, o: Option<T>)
    requires Distinct(s) && (o.Some? ==> o.value !in s)
    ensures Distinct(Appended(s, o))
  {
  }

  /** The list with the optional entry added at its end. */
  function Appended<T>(s: seq<T>, o: Option<T>): (r: seq<T>)
    ensures r == if o.Some? then s + [o.value] else s
  {
    if o.Some? then s + [o.value] else s
  }

  /** The blow on soldier k, added to the blows before it. */
  lemma BlownGrows(list: seq<Enemies.Enemy>, before: seq<Enemies.State>, starts: seq<Enemies.State>,
                   rect: Box, inRange: (Box, Box) -> bool, k: nat)
    requires |starts| == |list| == |before| && k < |list|
    requires before == BlownStates(starts, rect, inRange, k)
    requires forall j :: 0 <= j < |list| && j != k ==> list[j].Snapshot() == before[j]
    requires list[k].Snapshot() == Struck(starts[k], Near(starts, rect, inRange, k))
    ensures Blown(list, starts, rect, inRange, k + 1)
  {
    var now, want := Enemies.StatesOf(list), BlownStates(starts, rect, inRange, k + 1);
    assert forall j :: 0 <= j < |list| ==> now[j] == want[j];
  }

  /** What the blow on soldier k starts, added to what the blows before it started. */
  lemma StartedGrows(list: seq<Enemies.Enemy>, starts: seq<Enemies.State>, rect: Box, inRange: (Box, Box) -> bool, k: nat,
                     tweens: seq<Tween<Cue>>, tls: seq<Timeline<Cue>>,
                     recovery: Option<Tween<Cue>>, death: Option<Timeline<Cue>>)
    requires |starts| == |list| && k < |list|
    requires Started(list, starts, rect, inRange, k, tweens, tls)
    requires recovery.Some? <==> Lands(starts[k], Near(starts, rect, inRange, k)) && starts[k].health - Damage > 0
    requires death.Some? <==> Lands(starts[k], Near(starts, rect, inRange, k)) && starts[k].health - Damage <= 0
    requires recovery.Some? ==> recovery.value.motion == Enemies.Recovery(list[k], starts[k].posX) && recovery.value.elapsed == 0.0
    requires death.Some? ==> death.value.Snapshot() == Enemies.DeathTrack(list[k], starts[k].posX, starts[k].facing)
    ensures Started(list, starts, rect, inRange, k + 1, Appended(tweens, recovery), Appended(tls, death))
  {
    var ts, ls := Appended(tweens, recovery), Appended(tls, death);
    assert MotionsOf(ts) == MotionsOf(tweens) + if recovery.Some? then [recovery.value.motion] else [];
    assert ElapsedOf(ts) == ElapsedOf(tweens) + if recovery.Some? then [0.0] else [];
    assert SnapshotsOf(ls) == SnapshotsOf(tls) + if death.Some? then [death.value.Snapshot()] else [];
  }

  /** The blow on one foot soldier, given whether it is in range; returns what its hurt starts. */
  method Blow(e: Enemies.Enemy, near: bool) returns (recovery: Option<Tween<Cue>>, death: Option<Timeline<Cue>>)
    modifies e
    ensures e.Snapshot() == Struck(old(e.Snapshot()), near)
    ensures recovery.Some? <==> Lands(old(e.Snapshot()), near) && old(e.health) - Damage > 0
    ensures death.Some? <==> Lands(old(e.Snapshot()), near) && old(e.health) - Damage <= 0
    ensures recovery.Some? ==> fresh(recovery.value) && recovery.value.motion == Enemies.Recovery(e, old(e.posX)) && recovery.value.elapsed == 0.0
    ensures death.Some? ==>
      fresh(death.value) && death.value.Valid() && death.value.Snapshot() == Enemies.DeathTrack(e, old(e.posX), old(e.facing))
  {
    recovery, death := None, None;
    if near && e.isDying == 0 && e.isDead == 0 {
      recovery, death := e.Hurt(Damage);
    }
  }

  /**
   * The blows of an attack on the foot soldiers, in list order: each one
   * in range of the turtle and neither dying nor dead is hurt by the
   * turtle's damage, and no other changes. Returns the tweens and the
   * timelines those hurts start.
   */
  method StrikeAll(list: seq<Enemies.Enemy>, rect: Box, inRange: (Box, Box) -> bool)
    returns (tweens: seq<Tween<Cue>>, tls: seq<Timeline<Cue>>)
    requires Distinct(list)
    modifies list
    ensures Blown(list, old(Enemies.StatesOf(list)), rect, inRange, |list|)
    ensures Started(list, old(Enemies.StatesOf(list)), rect, inRange, |list|, tweens, tls)
    ensures forall t :: t in tweens ==> fresh(t)
    ensures forall t :: t in tls ==> fresh(t)
    ensures Distinct(tweens) && Distinct(tls) && forall t :: t in tls ==> t.Valid()
  {
    ghost var starts := Enemies.StatesOf(list);
    tweens, tls := [], [];
    var k := 0;
    while k < |list|
      invariant k <= |list|
      invariant Blown(list, starts, rect, inRange, k)
      invariant Started(list, starts, rect, inRange, k, tweens, tls)
      invariant forall t :: t in tweens ==> fresh(t)
      invariant forall t :: t in tls ==> fresh(t)
      invariant Distinct(tweens) && Distinct(tls) && forall t :: t in tls ==> t.Valid()
    {
      tweens, tls := StrikeOne(list, starts, rect, inRange, k, tweens, tls);
      k := k + 1;
    }
  }

  /** A blow lands on the boss in range that is neither dying nor dead. */
  function BossStruck(b: Shredders.State, near: bool): (r: Shredders.State)
    ensures !(near && b.isDying == 0 && b.isDead == 0) ==> r == b
  {
    if near && b.isDying == 0 && b.isDead == 0 then Shredders.Hurted(b, Damage) else b
  }

  /** The blow of an attack on the boss, when it has spawned. */
  method StrikeBoss(boss: Option<Shredders.Shredder>, rect: Box, inRange: (Box, Box) -> bool)
    modifies if boss.Some? then {boss.value} else {}
    ensures boss.Some? ==>
      && boss.value.tweens == old(boss.value.tweens) && boss.value.timelines == old(boss.value.timelines)
      && boss.value.Snapshot() == BossStruck(old(boss.value.Snapshot()), inRange(rect, Shredders.Rect(old(boss.value.Snapshot()))))
  {
    if boss.Some? {
      var b := boss.value;
      if inRange(rect, b.CollisionRect()) && b.isDying == 0 && b.isDead == 0 {
        b.Hurt(Damage);
      }
    }
  }

  /** The boss's state, when it has spawned. */
  ghost function BossState(boss: Option<Shredders.Shredder>): Option<Shredders.State>
    reads if boss.Some? then {boss.value} else {}
  {
    if boss.Some? then Some(boss.value.Snapshot()) else None
  }

  /**
   * What an attack's blows leave: every foot soldier has taken its blow,
   * the tweens and timelines are the ones those blows start, and the boss,
   * if spawned, has taken its own.
   */
  ghost predicate Blows(enemies: seq<Enemies.Enemy>, boss: Option<Shredders.Shredder>, starts: seq<Enemies.State>,
                        bossStart: Option<Shredders.State>, rect: Box, inRange: (Box, Box) -> bool,
                        tweens: seq<Tween<Cue>>, tls: seq<Timeline<Cue>>)
    requires |starts| == |enemies|
    reads enemies, tweens, tls, if boss.Some? then {boss.value} else {}
  {
    && Blown(enemies, starts, rect, inRange, |enemies|)
    && Started(enemies, starts, rect, inRange, |enemies|, tweens, tls)
    && (boss.Some? && bossStart.Some? ==>
          boss.value.Snapshot() == BossStruck(bossStart.value, inRange(rect, Shredders.Rect(bossStart.value))))
  }

  /** The blows of an attack from the floor rectangle `rect`: the foot soldiers in list order, then the boss. */
  method Strike(enemies: seq<Enemies.Enemy>, boss: Option<Shredders.Shredder>, rect: Box, inRange: (Box, Box) -> bool)
    returns (tweens: seq<Tween<Cue>>, tls: seq<Timeline<Cue>>)
    requires Distinct(enemies)
    modifies enemies, if boss.Some? then {boss.value} else {}
    ensures Blows(enemies, boss, old(Enemies.StatesOf(enemies)), old(BossState(boss)), rect, inRange, tweens, tls)
    ensures boss.Some? ==> boss.value.tweens == old(boss.value.tweens) && boss.value.timelines == old(boss.value.timelines)
    ensures forall t :: t in tweens ==> fresh(t)
    ensures forall t :: t in tls ==> fresh(t)
    ensures Distinct(tweens) && Distinct(tls) && forall t :: t in tls ==> t.Valid()
  {
    tweens, tls := StrikeAll(enemies, rect, inRange);
    StrikeBoss(boss, rect, inRange);
  }

  class Turtle {
    var posX: real
    var posY: real
    const width: real := Width
    const height: real := Height
    const depth: real := Depth
    var lives: int
    const speed: real := Speed
    var health: int
    const damage: int := Damage
    var isAttacking: int
    var isJumping: int
    var isHurt: int
    var allowAttack: bool
    var allowJumping: bool
    var moving: Moving
    var facing: Facing
    var sequence: Sequence
    var oldSeq: Option<(Sequence, Facing)>
    var sequenceIdx: nat
    var numOfSeqs: int
    var seqCount: int
    const animationUpdateTime: real := FrameTime
    var timeSinceLastFrameSwap: real

    ghost function Snapshot(): State
      reads this
    {
      State(posX, posY, lives, health, isAttacking, isJumping, isHurt, allowAttack, allowJumping,
            moving, facing, sequence, oldSeq, sequenceIdx, numOfSeqs, seqCount, timeSinceLastFrameSwap)
    }

    /** `init(x, y)`. */
    constructor (x: real, y: real)
      ensures Snapshot() == Fresh(x, y)
    {
      posX, posY := x, y;
      lives, health := StartLives, StartHealth;
      isAttacking, isJumping, isHurt := 0, 0, 0;
      allowAttack, allowJumping := true, true;
      moving, facing := Still, Right;
      sequence, oldSeq, sequenceIdx := Stand, None, 0;
      numOfSeqs, seqCount := 0, 0;
      timeSinceLastFrameSwap := 0.0;
    }

    function CollisionRect(): (b: Box)
      reads this
      ensures b.x1 == posX && b.y1 == posY
      ensures b.x2 - b.x1 == width && b.y2 - b.y1 == depth
    {
      Footprint(posX, posY, width, depth)
    }

    /** `getCenterPoint`: the middle of the floor rectangle. */
    function CenterPoint(): (p: Point)
      reads this
      ensures p == Centre(CollisionRect())
    {
      Point(posX + width / 2.0, posY + depth / 2.0)
    }

    function GetY(): (y: real)
      reads this
      ensures CollisionRect().y1 <= y <= CollisionRect().y2
    {
      CenterPoint().y
    }

    /** `setDir`. */
    method SetDir()
      modifies this
      ensures Snapshot() == Pressed(old(Snapshot()), old(moving))
    {
      var m := moving;
      if m.up && m.left {
        facing := Left;
        moving := m.(dir := Some(UpLeft));
      } else if m.up && m.right {
        facing := Right;
        moving := m.(dir := Some(UpRight));
      } else if m.down && m.left {
        facing := Left;
        moving := m.(dir := Some(DownLeft));
      } else if m.down && m.right {
        facing := Right;
        moving := m.(dir := Some(DownRight));
      } else if m.up {
        moving := m.(dir := Some(Up));
      } else if m.down {
        moving := m.(dir := Some(Down));
      } else if m.left {
        facing := Left;
        moving := m.(dir := Some(Leftward));
      } else if m.right {
        facing := Right;
        moving := m.(dir := Some(Rightward));
      } else {
        moving := m.(dir := None);
      }
    }

    method MoveUp()
      modifies this
      ensures Snapshot() == Pressed(old(Snapshot()), old(moving).(up := true))
    {
      moving := moving.(up := true);
      SetDir();
    }

    method MoveDown()
      modifies this
      ensures Snapshot() == Pressed(old(Snapshot()), old(moving).(down := true))
    {
      moving := moving.(down := true);
      SetDir();
    }

    method MoveLeft()
      modifies this
      ensures Snapshot() == Pressed(old(Snapshot()), old(moving).(left := true))
    {
      moving := moving.(left := true);
      SetDir();
    }

    method MoveRight()
      modifies this
      ensures Snapshot() == Pressed(old(Snapshot()), old(moving).(right := true))
    {
      moving := moving.(right := true);
      SetDir();
    }

    /** The start of `attack`, before its blows. */
    method BeginAttack() returns (started: bool)
      modifies this
      ensures (Snapshot(), started) == Attacked(old(Snapshot()))
    {
      if isAttacking != 0 || isJumping != 0 || !allowAttack {
        return false;
      }
      isAttacking := 1;
      allowAttack := false;
      sequenceIdx := 0;
      numOfSeqs := 1;
      seqCount := if seqCount == 0 then AttackSwaps else seqCount;
      started := true;
    }

    /**
     * `attack`, given the foot soldiers, the boss if it has spawned and the
     * range test. Returns the tweens and timelines the blows start.
     */
    method Attack(enemies: seq<Enemies.Enemy>, boss: Option<Shredders.Shredder>, inRange: (Box, Box) -> bool)
      returns (tweens: seq<Tween<Cue>>, tls: seq<Timeline<Cue>>)
      requires Distinct(enemies)
      modifies this, enemies, if boss.Some? then {boss.value} else {}
      ensures Snapshot() == Attacked(old(Snapshot())).0
      ensures !Attacked(old(Snapshot())).1 ==>
        tweens == [] && tls == [] && Blown(enemies, old(Enemies.StatesOf(enemies)), Rect(old(Snapshot())), inRange, 0)
      ensures Attacked(old(Snapshot())).1 ==> Blows(enemies, boss, old(Enemies.StatesOf(enemies)), old(BossState(boss)), Rect(old(Snapshot())), inRange, tweens, tls)
      ensures boss.Some? && !Attacked(old(Snapshot())).1 ==> boss.value.Snapshot() == old(boss.value.Snapshot())
      ensures boss.Some? ==> boss.value.tweens == old(boss.value.tweens) && boss.value.timelines == old(boss.value.timelines)
      ensures forall t :: t in tweens ==> fresh(t)
      ensures forall t :: t in tls ==> fresh(t)
      ensures Distinct(tweens) && Distinct(tls) && forall t :: t in tls ==> t.Valid()
    {
      ghost var es, bs := Enemies.StatesOf(enemies), BossState(boss);
      var started := BeginAttack();
      assert Enemies.StatesOf(enemies) == es && BossState(boss) == bs;
      tweens, tls := [], [];
      if started {
        tweens, tls := Strike(enemies, boss, CollisionRect(), inRange);
      }
    }

    /** `resetAttack`, when the attack key is up. */
    method ResetAttack()
      modifies this
      ensures Snapshot() == old(Snapshot()).(allowAttack := true)
    {
      allowAttack := true;
    }

    /** `jump`; a jump that starts returns its timeline. */
    method Jump() returns (tl: Option<Timeline<Cue>>)
      modifies this
      ensures (Snapshot(), tl.Some?) == Jumped(old(Snapshot()))
      ensures tl.Some? ==> fresh(tl.value) && tl.value.Valid() && tl.value.Snapshot() == JumpTrack
    {
      if isJumping != 0 || isAttacking != 0 || isHurt != 0 || !allowJumping {
        return None;
      }
      isJumping := 1;
      allowJumping := false;
      sequenceIdx := 0;
      numOfSeqs := 1;
      seqCount := if seqCount == 0 then JumpSwaps else seqCount;
      var t := JumpTimeline();
      tl := Some(t);
    }

    /** `hurt(amount)`. */
    method Hurt(amount: int)
      modifies this
      ensures Snapshot() == Hurted(old(Snapshot()), amount) && posX == old(posX) && posY == old(posY)
    {
      if isHurt != 0 || isJumping != 0 {
        return;
      }
      health := health - amount;
      if health <= 0 {
        Kill();
        return;
      }
      isHurt := HurtTime;
      sequence := Sequence.Hurt;
      numOfSeqs := 1;
      seqCount := HurtSwaps;
    }

    /** `kill`: a life lost, the health refilled. */
    method Kill()
      modifies this
      ensures Snapshot() == old(Snapshot()).(lives := old(lives) - 1, health := StartHealth)
    {
      lives := lives - 1;
      health := StartHealth;
    }

    /** `end`: the victory pose; returns its tween. */
    method End() returns (tween: Tween<Cue>)
      modifies this
      ensures Snapshot() == Ended(old(Snapshot()))
      ensures fresh(tween) && tween.motion == Victory && tween.elapsed == 0.0
    {
      sequence := Cowabunga;
      isHurt := 0;
      isAttacking := 0;
      numOfSeqs := 1;
      seqCount := 1;
      tween := new Tween(Victory);
    }

    /** The move of the walking branch of `update`. */
    method Walk()
      modifies this
      ensures Snapshot() == Walked(old(Snapshot()))
    {
      sequence := if isJumping != 0 then Sequence.Jump else if moving.dir.Some? then Sequence.Walk else Stand;
      var dir := moving.dir;
      var x, y := posX, posY;
      if dir == Some(UpLeft) {
        x := x - Cos8 * speed;
        y := y - Sin8 * speed;
      }
      if dir == Some(UpRight) {
        x := x + Cos8 * speed;
        y := y - Sin8 * speed;
      }
      if dir == Some(DownLeft) {
        x := x - Cos8 * speed;
        y := y + Sin8 * speed;
      }
      if dir == Some(DownRight) {
        x := x + Cos8 * speed;
        y := y + Sin8 * speed;
      }
      if dir == Some(Leftward) {
        x := x - speed;
      }
      if dir == Some(Rightward) {
        x := x + speed;
      }
      if dir == Some(Up) {
        y := y - speed;
      }
      if dir == Some(Down) {
        y := y + speed;
      }
      posX, posY := x, y;
    }

    /** The state machine of `update`. */
    method Act()
      modifies this
      ensures Snapshot() == Acted(old(Snapshot()))
    {
      if isAttacking != 0 {
        sequence := Attack1;
      } else if isHurt != 0 {
        isHurt := isHurt - 1;
        sequence := Sequence.Hurt;
        if isHurt <= 0 {
          isHurt := 0;
        }
      } else {
        Walk();
      }
    }

    /** Keeping to the play field; returns whether to scroll the level. */
    method Clamp(canScroll: bool) returns (scroll: bool)
      modifies this
      ensures (Snapshot(), scroll) == Clamped(old(Snapshot()), canScroll)
    {
      var maxX := if canScroll then MaxXScrolling else MaxXStill;
      scroll := false;
      if posX < 0.0 {
        posX := 0.0;
      }
      if posX > maxX {
        posX := maxX;
        if moving.dir == Some(Rightward) || moving.dir == Some(UpRight) || moving.dir == Some(DownRight) {
          scroll := true;
        }
      }
      if posY < MinY {
        posY := MinY;
      }
      if posY + depth > ScreenHeight as real {
        posY := ScreenHeight as real - depth;
      }
    }

    /** The frame-cursor part of a swap. */
    method Swap()
      modifies this
      ensures Snapshot() == Swapped(old(Snapshot()))
    {
      var key := (sequence, facing);
      if oldSeq != Some(key) {
        sequenceIdx := 0;
      }
      oldSeq := Some(key);
      sequenceIdx := if sequenceIdx < FrameCount(sequence) - 1 then sequenceIdx + 1 else 0;
    }

    /** The count-down part of a swap. */
    method CountDown()
      modifies this
      ensures Snapshot() == CountedDown(old(Snapshot()))
    {
      if numOfSeqs > 0 {
        seqCount := seqCount - 1;
        if seqCount == 0 {
          isAttacking := 0;
          isJumping := 0;
          numOfSeqs := 0;
        }
      }
    }

    /** The animation part of `update`. */
    method Animate()
      modifies this
      ensures Snapshot() == Animated(old(Snapshot()))
    {
      if timeSinceLastFrameSwap > animationUpdateTime {
        Swap();
        CountDown();
        timeSinceLastFrameSwap := 0.0;
      }
    }

    /**
     * `update(elapsed)`, given whether the level can scroll; returns
     * whether the level is to scroll.
     */
    method Update(dt: Ms, canScroll: bool) returns (scroll: bool)
      modifies this
      ensures (Snapshot(), scroll) == AfterUpdate(old(Snapshot()), dt, canScroll)
    {
      scroll := Move(dt, canScroll);
      Settle();
    }

    /** The first part of `update`. */
    method Move(dt: Ms, canScroll: bool) returns (scroll: bool)
      modifies this
      ensures (Snapshot(), scroll) == Moved(old(Snapshot()), dt, canScroll)
    {
      timeSinceLastFrameSwap := timeSinceLastFrameSwap + dt;
      Act();
      scroll := Clamp(canScroll);
    }

    /** The end of `update`: animate, then drop the moving flags. */
    method Settle()
      modifies this
      ensures Snapshot() == Settled(old(Snapshot()))
    {
      Animate();
      moving := Still;
      SetDir();
    }
  }

  /** The timeline `jump` builds. */
  method JumpTimeline() returns (tl: Timeline<Cue>)
    ensures fresh(tl) && tl.Valid() && tl.Snapshot() == JumpTrack
  {
    tl := new Timeline();
    var t1 := tl.Add(Motion(400.0, None), None);
    var t2 := t1.Add(Motion(300.0, None), None);
    assert tl.triggers == [0.0, 400.0];
  }
}
