/**
 * The foot soldier. It walks towards the player, stops near them to think,
 * then decides to attack or walk on; it is hurt by the player's blows, and
 * the third blow starts a death fall that ends with an explosion.
 *
 * Each step the script takes is a function on the soldier's state as a
 * value; the class performs the same step on its fields and promises the
 * function's result. The draws of `Math.random()` come from a `Dice`, the
 * range test `inRange` is a parameter, and the tweens and the timeline the
 * soldier creates are handed back for the game to queue.
 */
module Enemies {
  import opened Scene
  import opened Timelines

  const Width: real := 40.0
  const Height: real := 64.0
  const Depth: real := 10.0
  const Speed: real := 1.0
  const StartHealth: int := 6
  const Damage: int := 2
  const Fps: real := 6.0
  const FrameTime: real := 1000.0 / Fps
  /** How long a hurt soldier stands still, and how far a dying one falls back. */
  const HurtTime: real := 1000.0
  const FallDistance: real := 50.0

  /** The animation sequences, `seq`. */
  datatype Sequence = Stand | Walk | Attack | Hurt | Dying | Dead

  /** The frame columns of each sequence, `sequences`; both facings share them. */
  function Frames(q: Sequence): (r: seq<int>)
    ensures 1 <= |r| <= 4
  {
    match q
    case Walk => [0, 1, 2, 3]
    case Attack => [0, 0, 1, 1]
    case _ => [0]
  }

  /**
   * What `seqCount` holds. It starts as the number 0, but `attack` stores
   * the attack's frame array in it rather than that array's length; the
   * script's arithmetic then goes through the array's joined text, and the
   * decrement of an array of several frames is NaN.
   */
  datatype Count = Num(n: int) | Array(items: seq<int>) | NaN

  /** `c == 0` under the script's loose equality. */
  predicate LooselyZero(c: Count)
  {
    match c
    case Num(n) => n == 0
    case Array(items) => |items| == 0 || (|items| == 1 && items[0] == 0)
    case NaN => false
  }

  /** `c--`. */
  function Decrement(c: Count): (r: Count)
    ensures c.Num? ==> r == Num(c.n - 1)
    ensures c.Array? && |c.items| >= 2 ==> r == NaN
    ensures c == NaN ==> r == NaN
  {
    match c
    case Num(n) => Num(n - 1)
    case Array(items) =>
      if |items| == 0 then Num(-1)
      else if |items| == 1 then Num(items[0] - 1)
      else NaN
    case NaN => NaN
  }

  /** `c` decremented k times. */
  function Decrements(c: Count, k: nat): Count
  {
    if k == 0 then c else Decrement(Decrements(c, k - 1))
  }

  /**
   * The count an attack leaves is never again loosely equal to 0, however
   * many frame swaps decrement it: an attack never ends by its animation.
   */
  lemma {:induction false} AttackCountNeverEnds(k: nat)
    ensures k >= 1 ==> Decrements(Array(Frames(Attack)), k) == NaN
    ensures !LooselyZero(Decrements(Array(Frames(Attack)), k))
  {
    if k > 1 {
      AttackCountNeverEnds(k - 1);
    }
  }

  /** Everything about a soldier that its steps change, as one value. */
  datatype State = State(
    posX: real, posY: real, health: int,
    isThinking: int, isTravelling: int, isAttacking: int, isHurt: int, isDying: int, isDead: int,
    sequence: Sequence, sequenceIdx: nat, numOfSeqs: int, seqCount: Count, facing: Facing,
    timeSinceLastFrameSwap: real)

  /** The state `init(x, y)` leaves. */
  function Fresh(x: real, y: real): State
  {
    State(x, y, StartHealth, 0, 1, 0, 0, 0, 0, Stand, 0, 0, Num(0), Left, 0.0)
  }

  /** `getCollisionRect`. */
  function Rect(s: State): Box
  {
    Footprint(s.posX, s.posY, Width, Depth)
  }

  predicate Flag(v: int)
  {
    v == 0 || v == 1
  }

  /**
   * `seqCount` beside `numOfSeqs`: 0 until an attack starts a one-shot
   * sequence, and from then on the attack's frame array or the NaN it
   * decays to.
   */
  predicate CountShape(numOfSeqs: int, c: Count)
  {
    || (numOfSeqs == 0 && c == Num(0))
    || (numOfSeqs == 1 && (c == Array(Frames(Attack)) || c == NaN))
  }

  /** What holds of every soldier between steps. */
  predicate Invariant(s: State)
  {
    && 0 <= s.isThinking <= 24
    && Flag(s.isTravelling) && Flag(s.isAttacking) && Flag(s.isHurt) && Flag(s.isDying) && Flag(s.isDead)
    && CountShape(s.numOfSeqs, s.seqCount)
  }

  lemma FreshIsSound(x: real, y: real)
    ensures Invariant(Fresh(x, y)) && Fresh(x, y).health == StartHealth
  {
  }

  /** `think`: stand still for a drawn number of updates. */
  function AfterThink(s: State, r: Unit): (t: State)
    ensures 15 <= t.isThinking <= 24
    ensures t.isTravelling == 0 && t.sequence == Stand
  {
    s.(isTravelling := 0, isThinking := 15 + Floor(r as real * 10.0), sequence := Stand)
  }

  /**
   * `attack`: ignored while an attack plays; otherwise it starts the attack
   * sequence, and strikes the player when they are in range.
   */
  function AfterAttack(s: State, near: bool): (r: (State, bool))
    ensures s.isAttacking != 0 ==> r == (s, false)
    ensures s.isAttacking == 0 ==> r.1 == near && r.0.isAttacking == 1 && r.0.sequence == Attack
  {
    if s.isAttacking != 0 then (s, false)
    else
      var c := if LooselyZero(s.seqCount) then Array(Frames(Attack)) else s.seqCount;
      (s.(isTravelling := 0, isAttacking := 1, sequence := Attack, sequenceIdx := 0, numOfSeqs := 1, seqCount := c), near)
  }

  /** `decide`: attack when the player is in range, walk on otherwise. */
  function AfterDecide(s: State, near: bool): (r: (State, bool))
  {
    if near then AfterAttack(s, near)
    else (s.(isThinking := 0, isTravelling := 1), false)
  }

  /** `kill`: start dying. */
  function AfterKill(s: State): State
  {
    s.(isTravelling := 0, isHurt := 0, isDying := 1, sequence := Dying)
  }

  /**
   * `hurt`: lose the player's damage; a blow that leaves no health kills,
   * any other starts the hurt pause.
   */
  function AfterHurt(s: State, damage: int): (r: State)
    ensures r.health == s.health - damage
    ensures r.health <= 0 ==> r == AfterKill(s.(health := r.health))
    ensures r.health > 0 ==>
      && r.isHurt == 1 && r.isTravelling == 0 && r.isAttacking == 0 && r.sequence == Hurt
      && r.isDying == s.isDying && r.isThinking == s.isThinking
  {
    var h := s.health - damage;
    if h <= 0 then AfterKill(s.(health := h))
    else s.(health := h, isTravelling := 0, isAttacking := 0, isHurt := 1, sequence := Hurt)
  }

  /** `die`, at the end of the death timeline. */
  function AfterDie(s: State): State
  {
    s.(isDying := 0, isDead := 1)
  }

  /** The soldier after k blows of the player's damage of 2. */
  function Hurts(s: State, k: nat): State
  {
    if k == 0 then s else AfterHurt(Hurts(s, k - 1), 2)
  }

  /** Each blow takes 2 health, so a soldier at full health dies on the third. */
  lemma {:induction false} HurtsDrainHealth(s: State, k: nat)
    ensures Hurts(s, k).health == s.health - 2 * k
  {
    if k > 0 {
      HurtsDrainHealth(s, k - 1);
    }
  }

  lemma ThirdHurtKills(s: State)
    requires s.health == StartHealth && s.isDying == 0
    ensures Hurts(s, 1).isDying == 0 && Hurts(s, 2).isDying == 0
    ensures Hurts(s, 3).isDying == 1 && Hurts(s, 3).sequence == Dying
  {
    HurtsDrainHealth(s, 2);
  }

  /** `update` turns the soldier to face the player's centre. */
  function Faced(s: State, player: Box): (r: State)
    ensures r.facing == Left <==> Centre(player).x < Centre(Rect(s)).x
  {
    s.(facing := if Centre(player).x < Centre(Rect(s)).x then Left else Right)
  }

  /** The horizontal step of a walk: towards the player's rectangle, when travelling. */
  function StepX(s: State, player: Box): real
  {
    var b := Rect(s);
    if b.x1 > player.x2 then (if s.isTravelling != 0 then s.posX - Speed else s.posX)
    else if b.x2 < player.x1 then (if s.isTravelling != 0 then s.posX + Speed else s.posX)
    else s.posX
  }

  /** The vertical step of a walk, at half speed. */
  function StepY(s: State, player: Box): real
  {
    var b := Rect(s);
    if b.y2 < player.y1 then (if s.isTravelling != 0 then s.posY + Speed / 2.0 else s.posY)
    else if b.y1 > player.y2 then (if s.isTravelling != 0 then s.posY - Speed / 2.0 else s.posY)
    else s.posY
  }

  /** Close enough to the player's centre to stop. */
  predicate Close(s: State, player: Box)
  {
    var c, p := Centre(Rect(s)), Centre(player);
    Abs(p.x - c.x) < 50.0 && Abs(p.y - c.y) < 15.0
  }

  /** The first half of a walk: take the walk sequence and step towards the player. */
  function Approached(s: State, player: Box): State
  {
    s.(sequence := Walk, posX := StepX(s, player), posY := StepY(s, player))
  }

  /** The walking branch of `update`; a stop consumes a draw for `think`. */
  function Walked(s: State, player: Box, draws: nat -> Unit, used: nat): (r: (State, nat))
  {
    var moved := Approached(s, player);
    if Close(moved, player) then (AfterThink(moved.(sequence := Stand, isTravelling := 0), draws(used)), used + 1)
    else (moved.(isTravelling := 1), used)
  }

  /** The end of a thought: clear the action flags and decide. */
  function Decided(s: State, player: Box, inRange: (Box, Box) -> bool): (r: (State, bool))
  {
    AfterDecide(s.(isThinking := 0, isAttacking := 0, isHurt := 0), inRange(Rect(s), player))
  }

  /**
   * The state machine of `update`: nothing while attacking, hurt or dying;
   * otherwise count a thought down and decide at its end; otherwise walk.
   * Reports whether `decide` struck the player.
   */
  function Behaved(s: State, player: Box, inRange: (Box, Box) -> bool, draws: nat -> Unit, used: nat): (r: (State, nat, bool))
  {
    if s.isAttacking != 0 || s.isHurt != 0 || s.isDying != 0 then (s, used, false)
    else if s.isThinking != 0 then
      var t := s.(isThinking := s.isThinking - 1);
      if t.isThinking <= 0 then
        var d := Decided(t, player, inRange);
        (d.0, used, d.1)
      else (t, used, false)
    else
      var w := Walked(s, player, draws, used);
      (w.0, w.1, false)
  }

  /**
   * The random afterthought of `update`: when neither thinking nor hurt, a
   * draw below 0.2 in 100 makes the soldier think.
   */
  function Mused(s: State, draws: nat -> Unit, used: nat): (r: (State, nat))
  {
    if s.isThinking == 0 && s.isHurt == 0 then
      if draws(used) as real * 100.0 < 0.2 then (AfterThink(s, draws(used + 1)), used + 2)
      else (s, used + 1)
    else (s, used)
  }

  /**
   * The count-down of a one-shot sequence on a frame swap; at its end the
   * action flags are cleared and the soldier thinks.
   */
  function CountedDown(s: State, draws: nat -> Unit, used: nat): (r: (State, nat))
  {
    var c := Decrement(s.seqCount);
    if LooselyZero(c) then
      (AfterThink(s.(seqCount := c, isAttacking := 0, isHurt := 0, isThinking := 0, numOfSeqs := 0), draws(used)), used + 1)
    else (s.(seqCount := c), used)
  }

  /**
   * `animate`: once the time since the last frame swap exceeds the frame
   * time, step to the next frame of the current sequence, count a one-shot
   * sequence down and restart the clock.
   */
  function Animated(s: State, dt: real, draws: nat -> Unit, used: nat): (r: (State, nat))
  {
    var time := s.timeSinceLastFrameSwap + dt;
    if time <= FrameTime then (s.(timeSinceLastFrameSwap := time), used)
    else
      var swapped := s.(sequenceIdx := NextFrame(s.sequenceIdx, |Frames(s.sequence)|));
      var counted := if s.numOfSeqs > 0 then CountedDown(swapped, draws, used) else (swapped, used);
      (counted.0.(timeSinceLastFrameSwap := 0.0), counted.1)
  }

  /** One `update`: face, act, perhaps think on a whim, animate. */
  function AfterUpdate(s: State, player: Box, inRange: (Box, Box) -> bool, dt: real,
                       draws: nat -> Unit, used: nat): (r: (State, nat, bool))
  {
    var b := Behaved(Faced(s, player), player, inRange, draws, used);
    var m := Mused(b.0, draws, b.1);
    var a := Animated(m.0, dt, draws, m.1);
    (a.0, a.1, b.2)
  }

  /*
   * What the steps promise.
   */

  /** A frame swap leaves the cursor inside the current sequence and resets the clock; no swap without more than the frame time. */
  lemma AnimateSwapsFrames(s: State, dt: real, draws: nat -> Unit, used: nat)
    ensures var r := Animated(s, dt, draws, used).0;
      if s.timeSinceLastFrameSwap + dt > FrameTime then
        r.sequenceIdx < |Frames(s.sequence)| && r.timeSinceLastFrameSwap == 0.0
      else
        r == s.(timeSinceLastFrameSwap := s.timeSinceLastFrameSwap + dt)
  {
  }

  /**
   * Under the invariant the end of a one-shot sequence is never reached:
   * a frame swap changes neither the action flags nor the thought, and
   * draws nothing.
   */
  lemma AnimateNeverEndsSequence(s: State, dt: real, draws: nat -> Unit, used: nat)
    requires CountShape(s.numOfSeqs, s.seqCount)
    ensures var r := Animated(s, dt, draws, used);
      && r.1 == used && CountShape(r.0.numOfSeqs, r.0.seqCount)
      && r.0.isAttacking == s.isAttacking && r.0.isHurt == s.isHurt && r.0.isThinking == s.isThinking
      && r.0.posX == s.posX && r.0.posY == s.posY && r.0.sequence == s.sequence
  {
    if s.numOfSeqs == 1 {
      AttackCountNeverEnds(1);
      assert Decrement(s.seqCount) == NaN;
    }
  }

  lemma BehaveKeepsInvariant(s: State, player: Box, inRange: (Box, Box) -> bool, draws: nat -> Unit, used: nat)
    requires Invariant(s)
    ensures Invariant(Behaved(s, player, inRange, draws, used).0)
  {
  }

  lemma MuseKeepsInvariant(s: State, draws: nat -> Unit, used: nat)
    requires Invariant(s)
    ensures Invariant(Mused(s, draws, used).0)
  {
  }

  /** `update` keeps the invariant. */
  lemma UpdateKeepsInvariant(s: State, player: Box, inRange: (Box, Box) -> bool, dt: real, draws: nat -> Unit, used: nat)
    requires Invariant(s)
    ensures Invariant(AfterUpdate(s, player, inRange, dt, draws, used).0)
  {
    var b := Behaved(Faced(s, player), player, inRange, draws, used);
    BehaveKeepsInvariant(Faced(s, player), player, inRange, draws, used);
    var m := Mused(b.0, draws, b.1);
    MuseKeepsInvariant(b.0, draws, b.1);
    AnimateNeverEndsSequence(m.0, dt, draws, m.1);
  }

  /**
   * Once attacking, a soldier stays attacking through any number of
   * updates; only a hurt clears the flag. Likewise a hurt soldier stays
   * hurt until its recovery tween completes.
   */
  lemma UpdateKeepsAttackAndHurt(s: State, player: Box, inRange: (Box, Box) -> bool, dt: real, draws: nat -> Unit, used: nat)
    requires Invariant(s)
    ensures s.isAttacking == 1 ==> AfterUpdate(s, player, inRange, dt, draws, used).0.isAttacking == 1
    ensures s.isHurt == 1 ==> AfterUpdate(s, player, inRange, dt, draws, used).0.isHurt == 1
  {
    var b := Behaved(Faced(s, player), player, inRange, draws, used);
    var m := Mused(b.0, draws, b.1);
    AnimateNeverEndsSequence(m.0, dt, draws, m.1);
  }

  /**
   * The thought counts down by one per update; when it runs out the soldier
   * attacks if the player is in range and otherwise travels again.
   */
  lemma ThinkingCountsDown(s: State, player: Box, inRange: (Box, Box) -> bool, draws: nat -> Unit, used: nat)
    requires s.isAttacking == 0 && s.isHurt == 0 && s.isDying == 0 && s.isThinking > 0
    ensures var r := Behaved(s, player, inRange, draws, used);
      && r.1 == used && r.0.posX == s.posX && r.0.posY == s.posY
      && (s.isThinking > 1 ==> r.0 == s.(isThinking := s.isThinking - 1) && !r.2)
      && (s.isThinking == 1 && inRange(Rect(s), player) ==>
            r.0.isThinking == 0 && r.0.isAttacking == 1 && r.0.sequence == Attack && r.2)
      && (s.isThinking == 1 && !inRange(Rect(s), player) ==>
            r.0.isThinking == 0 && r.0.isTravelling == 1 && !r.2)
  {
  }

  /**
   * A walking soldier that travels moves towards the player's rectangle by
   * the speed across and half of it in depth; one close to the player's
   * centre afterwards stops and thinks, any other travels on.
   */
  lemma WalkApproaches(s: State, player: Box, draws: nat -> Unit, used: nat)
    requires s.isTravelling == 1 && player.x1 <= player.x2 && player.y1 <= player.y2
    ensures var r := Walked(s, player, draws, used).0;
      && (Rect(s).x1 > player.x2 ==> r.posX == s.posX - Speed)
      && (Rect(s).x2 < player.x1 ==> r.posX == s.posX + Speed)
      && (player.x1 <= Rect(s).x2 && Rect(s).x1 <= player.x2 ==> r.posX == s.posX)
      && (Rect(s).y2 < player.y1 ==> r.posY == s.posY + Speed / 2.0)
      && (Rect(s).y1 > player.y2 ==> r.posY == s.posY - Speed / 2.0)
      && (player.y1 <= Rect(s).y2 && Rect(s).y1 <= player.y2 ==> r.posY == s.posY)
      && (Close(r, player) <==> r.isTravelling == 0)
      && (Close(r, player) ==> r.sequence == Stand && 15 <= r.isThinking <= 24)
      && (!Close(r, player) ==> r.sequence == Walk && r.isThinking == s.isThinking)
  {
    var moved := Approached(s, player);
    var r := Walked(s, player, draws, used).0;
    assert Rect(r) == Rect(moved);
  }

  /**
   * The timeline `kill` builds, with the fall's end point fixed when it is
   * built: the fall-away tween ends at that point, and so does the soldier.
   */
  function DeathTrack(e: Enemy, posX: real, facing: Facing): (t: Track<Cue<Enemy>>)
  {
    var finalX := posX + (if facing == Left then FallDistance else -FallDistance);
    Track(0, 1100.0, 0.0,
          [Motion(800.0, Some(EnemyFell(e, finalX))), Motion(800.0, None), Motion(200.0, None)],
          [0.0, 0.0, 0.0], [0.0, 100.0, 900.0], 0, Some(EnemyDied(e, finalX + Width / 2.0)))
  }

  /**
   * The death timeline ends, and the soldier dies, on the first update
   * that brings it to 1100 ms; none before.
   */
  lemma DeathTakes1100(e: Enemy, posX: real, facing: Facing, dt: real)
    requires dt >= 0.0
    ensures WellFormed(DeathTrack(e, posX, facing))
    ensures Step(DeathTrack(e, posX, facing), dt).0.state == 2 <==> dt >= 1100.0
    ensures dt >= 1100.0 ==>
      (Step(DeathTrack(e, posX, facing), dt).1 ==
       [EnemyDied(e, posX + (if facing == Left then FallDistance else -FallDistance) + Width / 2.0)])
  {
  }

  /** The death timeline's callbacks act on the dying soldier and on no other. */
  lemma DeathCuesNameIt(e: Enemy, posX: real, facing: Facing)
    ensures forall c :: CueOf(DeathTrack(e, posX, facing), c) ==> OnEnemy(c) && c.enemy == e
  {
    var t := DeathTrack(e, posX, facing);
    forall c | CueOf(t, c)
      ensures OnEnemy(c) && c.enemy == e
    {
      if t.onComplete != Some(c) {
        var k :| 0 <= k < |t.tweenQueue| && t.tweenQueue[k].onComplete == Some(c);
      }
    }
  }

  /** The hurt pause: a tween of 1000 ms that holds the soldier at x and whose completion ends it. */
  function Recovery(e: Enemy, x: real): Motion<Cue<Enemy>>
  {
    Motion(HurtTime, Some(EnemyRecovered(e, x)))
  }

  class Enemy {
    var posX: real
    var posY: real
    const width: real := Width
    const height: real := Height
    const depth: real := Depth
    const speed: real := Speed
    var health: int
    const damage: int := Damage
    var isThinking: int
    var isTravelling: int
    var isAttacking: int
    var isHurt: int
    var isDying: int
    var isDead: int
    var sequence: Sequence
    var sequenceIdx: nat
    var numOfSeqs: int
    var seqCount: Count
    var facing: Facing
    const animationUpdateTime: real := FrameTime
    var timeSinceLastFrameSwap: real

    ghost function Snapshot(): State
      reads this
    {
      State(posX, posY, health, isThinking, isTravelling, isAttacking, isHurt, isDying, isDead,
            sequence, sequenceIdx, numOfSeqs, seqCount, facing, timeSinceLastFrameSwap)
    }

    /** `init('footsoldier', x, y)`. */
    constructor (x: real, y: real)
      ensures Snapshot() == Fresh(x, y) && Invariant(Snapshot())
    {
      posX, posY := x, y;
      health := StartHealth;
      isThinking, isTravelling, isAttacking, isHurt, isDying, isDead := 0, 1, 0, 0, 0, 0;
      sequence, sequenceIdx, numOfSeqs, seqCount, facing := Stand, 0, 0, Num(0), Left;
      timeSinceLastFrameSwap := 0.0;
    }

    function CollisionRect(): (b: Box)
      reads this
      ensures b.x1 == posX && b.y1 == posY
      ensures b.x2 - b.x1 == width && b.y2 - b.y1 == depth
    {
      Footprint(posX, posY, width, depth)
    }

    /** `getCenterPoint`: the middle of the floor rectangle. */
    function CenterPoint(): (p: Point)
      reads this
      ensures p == Centre(CollisionRect())
    {
      Point(posX + width / 2.0, posY + depth / 2.0)
    }

    function GetY(): (y: real)
      reads this
      ensures CollisionRect().y1 <= y <= CollisionRect().y2
    {
      CenterPoint().y
    }

    method Think(dice: Dice)
      modifies this, dice
      ensures Snapshot() == AfterThink(old(Snapshot()), dice.draws(old(dice.used)))
      ensures dice.used == old(dice.used) + 1
    {
      isTravelling := 0;
      var r := dice.Roll();
      isThinking := 15 + Floor(r as real * 10.0);
      sequence := Stand;
    }

    method Attack(player: Box, inRange: (Box, Box) -> bool) returns (strike: bool)
      modifies this
      ensures (Snapshot(), strike) == AfterAttack(old(Snapshot()), inRange(old(Rect(Snapshot())), player))
    {
      if isAttacking != 0 {
        return false;
      }
      isTravelling := 0;
      isAttacking := 1;
      sequence := Sequence.Attack;
      sequenceIdx := 0;
      numOfSeqs := 1;
      seqCount := if LooselyZero(seqCount) then Array(Frames(Sequence.Attack)) else seqCount;
      strike := inRange(CollisionRect(), player);
    }

    method Decide(player: Box, inRange: (Box, Box) -> bool) returns (strike: bool)
      modifies this
      ensures (Snapshot(), strike) == AfterDecide(old(Snapshot()), inRange(old(Rect(Snapshot())), player))
    {
      if inRange(CollisionRect(), player) {
        strike := Attack(player, inRange);
      } else {
        isThinking := 0;
        isTravelling := 1;
        strike := false;
      }
    }

    /**
     * `hurt`, with the player's damage. A blow that kills returns the death
     * timeline; any other returns the tween that ends the hurt pause.
     */
    method Hurt(playerDamage: int) returns (recovery: Option<Tween<Cue<Enemy>>>, death: Option<Timeline<Cue<Enemy>>>)
      modifies this
      ensures Snapshot() == AfterHurt(old(Snapshot()), playerDamage)
      ensures recovery.Some? <==> health > 0
      ensures death.Some? <==> health <= 0
      ensures recovery.Some? ==> fresh(recovery.value) && recovery.value.motion == Recovery(this, old(posX)) && recovery.value.elapsed == 0.0
      ensures death.Some? ==> fresh(death.value) && death.value.Valid() && death.value.Snapshot() == DeathTrack(this, posX, facing)
    {
      health := health - playerDamage;
      if health <= 0 {
        var tl := Kill();
        return None, Some(tl);
      }
      isTravelling := 0;
      isAttacking := 0;
      isHurt := 1;
      sequence := Sequence.Hurt;
      var t1 := new Tween(Recovery(this, posX));
      return Some(t1), None;
    }

    /** `kill`: start dying and build the death timeline. */
    method Kill() returns (tl: Timeline<Cue<Enemy>>)
      modifies this
      ensures Snapshot() == AfterKill(old(Snapshot()))
      ensures fresh(tl) && tl.Valid() && tl.Snapshot() == DeathTrack(this, posX, facing)
    {
      isTravelling := 0;
      isHurt := 0;
      isDying := 1;
      sequence := Dying;
      var finalX := posX + (if facing == Left then FallDistance else -FallDistance);
      tl := DeathTimeline(this, finalX);
    }

    /** What the fall-away tween's completion does: the soldier is at the fall's end point, dead. */
    method Fall(fallX: real)
      modifies this
      ensures Snapshot() == old(Snapshot()).(posX := fallX, sequence := Dead)
    {
      posX := fallX;
      sequence := Dead;
    }

    /** What the hurt tween's completion does: the soldier is where it was hurt, no longer hurt. */
    method Recover(pinX: real)
      modifies this
      ensures Snapshot() == old(Snapshot()).(posX := pinX, isHurt := 0)
    {
      posX := pinX;
      isHurt := 0;
    }

    method Die()
      modifies this
      ensures Snapshot() == AfterDie(old(Snapshot()))
    {
      isDying := 0;
      isDead := 1;
    }

    /** The count-down part of `animate`. */
    method CountDown(dice: Dice)
      modifies this, dice
      ensures (Snapshot(), dice.used) == CountedDown(old(Snapshot()), dice.draws, old(dice.used))
    {
      seqCount := Decrement(seqCount);
      if LooselyZero(seqCount) {
        isAttacking := 0;
        isHurt := 0;
        isThinking := 0;
        numOfSeqs := 0;
        Think(dice);
      }
    }

    method Animate(dt: Ms, dice: Dice)
      modifies this, dice
      ensures (Snapshot(), dice.used) == Animated(old(Snapshot()), dt, dice.draws, old(dice.used))
    {
      var time := timeSinceLastFrameSwap + dt;
      if time > animationUpdateTime {
        var frames := Frames(sequence);
        sequenceIdx := if sequenceIdx < |frames| - 1 then sequenceIdx + 1 else 0;
        if numOfSeqs > 0 {
          CountDown(dice);
        }
        timeSinceLastFrameSwap := 0.0;
      } else {
        timeSinceLastFrameSwap := time;
      }
    }

    /** The first half of the walking branch of `update`. */
    method Approach(player: Box)
      modifies this
      ensures Snapshot() == Approached(old(Snapshot()), player)
    {
      sequence := Sequence.Walk;
      var b := CollisionRect();
      if b.x1 > player.x2 {
        if isTravelling != 0 { posX := posX - speed; }
      } else if b.x2 < player.x1 {
        if isTravelling != 0 { posX := posX + speed; }
      }
      if b.y2 < player.y1 {
        if isTravelling != 0 { posY := posY + speed / 2.0; }
      } else if b.y1 > player.y2 {
        if isTravelling != 0 { posY := posY - speed / 2.0; }
      }
    }

    method Walk(player: Box, dice: Dice)
      modifies this, dice
      ensures (Snapshot(), dice.used) == Walked(old(Snapshot()), player, dice.draws, old(dice.used))
    {
      Approach(player);
      var c, p := CenterPoint(), Centre(player);
      if Abs(p.x - c.x) < 50.0 && Abs(p.y - c.y) < 15.0 {
        sequence := Stand;
        isTravelling := 0;
        Think(dice);
      } else {
        isTravelling := 1;
      }
    }

    /** The end of a thought in `update`. */
    method EndThought(player: Box, inRange: (Box, Box) -> bool) returns (strike: bool)
      modifies this
      ensures (Snapshot(), strike) == Decided(old(Snapshot()), player, inRange)
    {
      isThinking := 0;
      isAttacking := 0;
      isHurt := 0;
      strike := Decide(player, inRange);
    }

    method Behave(player: Box, inRange: (Box, Box) -> bool, dice: Dice) returns (strike: bool)
      modifies this, dice
      ensures (Snapshot(), dice.used, strike) == Behaved(old(Snapshot()), player, inRange, dice.draws, old(dice.used))
    {
      strike := false;
      if isAttacking != 0 || isHurt != 0 || isDying != 0 {
      } else if isThinking != 0 {
        isThinking := isThinking - 1;
        if isThinking <= 0 {
          strike := EndThought(player, inRange);
        }
      } else {
        Walk(player, dice);
      }
    }

    method Muse(dice: Dice)
      modifies this, dice
      ensures (Snapshot(), dice.used) == Mused(old(Snapshot()), dice.draws, old(dice.used))
    {
      if isThinking == 0 && isHurt == 0 {
        var r := dice.Roll();
        if r as real * 100.0 < 0.2 {
          Think(dice);
        }
      }
    }

    /**
     * `update`, given the player's floor rectangle, the range test and the
     * dice. Returns whether the soldier struck the player, who then takes
     * the soldier's damage.
     */
    method Update(dt: Ms, player: Box, inRange: (Box, Box) -> bool, dice: Dice) returns (strike: bool)
      modifies this, dice
      ensures (Snapshot(), dice.used, strike) == AfterUpdate(old(Snapshot()), player, inRange, dt, dice.draws, old(dice.used))
    {
      facing := if Centre(player).x < CenterPoint().x then Left else Right;
      strike := Behave(player, inRange, dice);
      Muse(dice);
      Animate(dt, dice);
    }
  }

  /** The states of a list of soldiers. */
  ghost function StatesOf(list: seq<Enemy>): (r: seq<State>)
    reads list
    ensures |r| == |list| && forall j :: 0 <= j < |list| ==> r[j] == list[j].Snapshot()
  {
    seq(|list|, j requires 0 <= j < |list| reads list => list[j].Snapshot())
  }

  /** The timeline `kill` builds: fall away, bounce, lie still; then explode and die. */
  method DeathTimeline(e: Enemy, finalX: real) returns (tl: Timeline<Cue<Enemy>>)
    ensures fresh(tl) && tl.Valid()
    ensures tl.Snapshot() == DeathTrack(e, finalX - (if e.facing == Left then FallDistance else -FallDistance), e.facing)
  {
    tl := new Timeline();
    var t1 := tl.Add(Motion(800.0, Some(EnemyFell(e, finalX))), None);
    var t2 := t1.Add(Motion(800.0, None), Some(100.0));
    var t3 := t2.Add(Motion(200.0, None), None);
    tl.onComplete := Some(EnemyDied(e, finalX + e.width / 2.0));
    assert tl.triggers == [0.0, 100.0, 900.0];
  }

  /**
   * `spawn(x, y)`: x = 0 asks for a random place just off the left or the
   * right edge of the screen, on a random depth.
   */
  method Spawn(x: real, y: real, dice: Dice) returns (e: Enemy)
    modifies dice
    ensures fresh(e)
    ensures x != 0.0 ==> e.Snapshot() == Fresh(x, y) && dice.used == old(dice.used)
    ensures x == 0.0 ==> dice.used == old(dice.used) + 3
    ensures x == 0.0 ==>
      var u := old(dice.used);
      var variance := 40.0 + dice.draws(u + 1) as real * 15.0;
      var px := Round(if dice.draws(u) > 0.5 then -variance else ScreenWidth as real + variance);
      e.Snapshot() == Fresh(px as real, Round(112.0 + dice.draws(u + 2) as real * 112.0) as real)
    ensures x == 0.0 ==>
      && (-55.0 <= e.posX <= -40.0 || 296.0 <= e.posX <= 311.0)
      && 112.0 <= e.posY <= 224.0
  {
    var px, py := x, y;
    if x == 0.0 {
      var placement := dice.Roll();
      var r := dice.Roll();
      var variance := 40.0 + r as real * 15.0;
      px := Round(if placement > 0.5 then -variance else ScreenWidth as real + variance) as real;
      var ry := dice.Roll();
      py := Round(112.0 + ry as real * 112.0) as real;
    }
    e := new Enemy(px, py);
  }
}
