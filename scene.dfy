/**
 * Shared vocabulary of the scene: frame times, the screen, footprints,
 * facings, the sprite frame cursor, the source of random draws and the
 * completion cues that tweens and timelines hand back to their owners.
 */
module Scene {

  /** Milliseconds between two frames; the host clock is monotonic. */
  type Ms = r: real | r >= 0.0

  /** A value `Math.random()` can return. */
  type Unit = r: real | 0.0 <= r < 1.0

  datatype Option<T> = None | Some(value: T)

  /** The logical screen, `Game.width` and `Game.height`. */
  const ScreenWidth: int := 256
  const ScreenHeight: int := 224

  datatype Facing = Left | Right

  /** No entry of s is held twice. */
  predicate Distinct<T(==)>(s: seq<T>)
  {
    forall i, j :: 0 <= i < j < |s| ==> s[i] != s[j]
  }

  /** An axis-aligned floor rectangle, as returned by `getCollisionRect`. */
  datatype Box = Box(x1: real, y1: real, x2: real, y2: real)

  datatype Point = Point(x: real, y: real)

  /** The floor rectangle of an entity whose base starts at (posX, posY). */
  function Footprint(posX: real, posY: real, width: real, depth: real): (b: Box)
    requires width >= 0.0 && depth >= 0.0
    ensures b.x1 == posX && b.y1 == posY
    ensures b.x2 - b.x1 == width && b.y2 - b.y1 == depth
  {
    Box(posX, posY, posX + width, posY + depth)
  }

  /** `getCenterPoint`: the middle of the floor rectangle. */
  function Centre(b: Box): (p: Point)
    ensures b.x1 <= b.x2 ==> b.x1 <= p.x <= b.x2
    ensures b.y1 <= b.y2 ==> b.y1 <= p.y <= b.y2
    ensures p.x - b.x1 == b.x2 - p.x && p.y - b.y1 == b.y2 - p.y
  {
    Point((b.x1 + b.x2) / 2.0, (b.y1 + b.y2) / 2.0)
  }

  function Abs(x: real): real
  {
    if x < 0.0 then -x else x
  }

  function Max(a: real, b: real): (m: real)
    ensures m >= a && m >= b && (m == a || m == b)
  {
    if a >= b then a else b
  }

  /** `Math.round`: the nearest integer, halves rounded towards +infinity. */
  function Round(x: real): (r: int)
    ensures x - 0.5 < r as real <= x + 0.5
  {
    (x + 0.5).Floor
  }

  /** `Math.floor`. */
  function Floor(x: real): (r: int)
    ensures r as real <= x < r as real + 1.0
  {
    x.Floor
  }

  /** `Math.ceil` of n / d for a positive divisor. */
  function CeilDiv(n: int, d: int): (r: int)
    requires d > 0
    ensures (r - 1) * d < n <= r * d
  {
    -((-n) / d)
  }

  /**
   * The sprite frame cursor shared by every actor: step to the next frame of
   * a sequence of length `len`, wrapping to the first one after the last.
   * A cursor left beyond the end by a change of sequence also wraps to 0.
   */
  function NextFrame(idx: nat, len: nat): (r: nat)
    requires len > 0
    ensures r < len
    ensures idx >= len - 1 ==> r == 0
    ensures idx < len - 1 ==> r == idx + 1
  {
    if idx < len - 1 then idx + 1 else 0
  }

  /**
   * The source of `Math.random()`: a fixed stream of draws in [0, 1),
   * consumed one value per call.
   */
  class Dice {
    const draws: nat -> Unit
    var used: nat

    constructor (draws: nat -> Unit)
      ensures this.draws == draws && used == 0
    {
      this.draws := draws;
      used := 0;
    }

    method Roll() returns (r: Unit)
      modifies this
      ensures r == draws(old(used)) && used == old(used) + 1
    {
      r := draws(used);
      used := used + 1;
    }
  }

  /**
   * What an `onComplete` callback does, handed back by the tween or timeline
   * that completed so that its owner performs it. `E` is the enemy type.
   */
  datatype Cue<E> =
    | EnemyRecovered(enemy: E, pinX: real)   // the hurt pause of an enemy ended, pinned at pinX
    | EnemyFell(enemy: E, fallX: real)       // the enemy's fall-away tween ended at fallX
    | EnemyDied(enemy: E, explosionX: real)  // the enemy's death timeline ended
    | BossArrived                            // the boss finished entering
    | BossMoved(spot: Point)                 // the middle leg of a float brought the boss to spot
    | BossLanded                             // the boss finished a float
    | BossRecoiled(spot: Point)              // the boss finished its recoil to spot after a hurt
    | StageCleared                           // the player's victory pose ended

  /** Whether a cue acts on a foot soldier (the one named by its `enemy`). */
  predicate OnEnemy<E>(c: Cue<E>)
  {
    c.EnemyRecovered? || c.EnemyFell? || c.EnemyDied?
  }
}
