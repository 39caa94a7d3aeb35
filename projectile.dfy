/**
 * The boss's thrown projectile: it flies straight along its heading until
 * the game destroys it.
 */
module Projectiles {
  import opened Scene
  import Flames

  const Width: real := 32.0
  const Height: real := 32.0
  const Speed: real := 5.0

  /** The sprite sheet offsets for each heading, `spriteProperties`. */
  function SpriteOffsets(dir: Facing): (r: (int, int))
    ensures r.1 == 464
    ensures dir == Left ==> r.0 == 8
    ensures dir == Right ==> r.0 == 40
  {
    match dir
    case Left => (8, 464)
    case Right => (40, 464)
  }

  /** The fields of a projectile that change, as a value. */
  datatype Flight = Flight(x: real, y: real, state: int)

  class Projectile {
    var x: real
    var y: real
    const width: real := Width
    const height: real := Height
    var state: int
    const speed: real := Speed
    const dir: Facing
    const offsetX: int
    const offsetY: int

    /** `init(x, y, dir)`; a fresh projectile is alive. */
    constructor (x: real, y: real, dir: Facing)
      ensures this.x == x && this.y == y && this.dir == dir
      ensures width == Width && height == Height && speed == Speed
      ensures state == 1 && !IsDead()
      ensures (offsetX, offsetY) == SpriteOffsets(dir)
    {
      this.x := x;
      this.y := y;
      state := 1;
      this.dir := dir;
      offsetX := SpriteOffsets(dir).0;
      offsetY := SpriteOffsets(dir).1;
    }

    ghost function Snapshot(): Flight
      reads this
    {
      Flight(x, y, state)
    }

    function GetY(): real
      reads this
    {
      y
    }

    predicate IsDead()
      reads this
    {
      state == 0
    }

    /** `destroy`: marks the projectile dead; repeating it changes nothing more. */
    method Destroy()
      modifies this
      ensures IsDead() && state == 0
      ensures x == old(x) && y == old(y)
    {
      state := 0;
    }

    /** `update(elapsed)`: one step of `speed` along the heading; the height is kept. */
    method Update(elapsed: Ms)
      modifies this
      ensures dir == Left ==> x == old(x) - Speed
      ensures dir == Right ==> x == old(x) + Speed
      ensures y == old(y) && state == old(state)
    {
      if dir == Left {
        x := x - speed;
      } else {
        x := x + speed;
      }
    }
  }

  /**
   * An entry of the game's projectile list, which holds the boss's thrown
   * projectiles and its rows of flames side by side.
   */
  datatype Shot = Bolt(bolt: Projectile) | Blaze(row: Flames.Flames)

  /** The object behind an entry. */
  function Target(s: Shot): object
  {
    if s.Bolt? then s.bolt else s.row
  }

  /** The thrown projectiles of a list. */
  function Bolts(shots: seq<Shot>): set<Projectile>
  {
    set s | s in shots && s.Bolt? :: s.bolt
  }

  /** The rows of flames of a list. */
  function Rows(shots: seq<Shot>): set<Flames.Flames>
  {
    set s | s in shots && s.Blaze? :: s.row
  }

  /** The changing fields of an entry, as a value. */
  datatype ShotState = Flying(flight: Flight) | Burning(burn: Flames.RowState)

  ghost function StateOf(s: Shot): ShotState
    reads if s.Bolt? then {s.bolt} else {}, if s.Blaze? then {s.row} else {}
  {
    match s
    case Bolt(p) => Flying(p.Snapshot())
    case Blaze(f) => Burning(f.Snapshot())
  }

  /** The states of a list of entries. */
  ghost function StatesOf(shots: seq<Shot>): (r: seq<ShotState>)
    reads Bolts(shots), Rows(shots)
    ensures |r| == |shots| && forall j :: 0 <= j < |shots| ==> r[j] == StateOf(shots[j])
  {
    seq(|shots|, j requires 0 <= j < |shots| reads Bolts(shots), Rows(shots) => StateOf(shots[j]))
  }
}
