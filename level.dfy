/**
 * The scrolling level. Its offset `x` runs from 0 down to `-width`, one
 * step of `speed` at a time, as the player walks against the right edge of
 * the screen; each step moves every foot soldier, explosion and projectile
 * back by the same amount, and the step that would pass the end of the
 * foreground pins the offset there and stops the scrolling for good.
 */
module Levels {
  import opened Scene
  import Enemies
  import Explosions
  import Projectiles
  import Flames

  /** How far one call to `scrollBackground` moves the level. */
  const Speed: int := 2

  /** The level's changing fields, as a value. */
  datatype Scroll = Scroll(x: int, canScroll: bool, atEnd: bool)

  /** `init`: at the start of the foreground, free to scroll. */
  const Start: Scroll := Scroll(0, true, false)

  /** The two flags always disagree, and a level at its end is pinned at `-width`. */
  predicate Invariant(s: Scroll, width: int)
  {
    s.atEnd != s.canScroll && (s.atEnd ==> s.x == -width)
  }

  /**
   * The level's part of `scrollBackground`: step the offset back, and if
   * it passed `-width`, pin it there and mark the end.
   */
  function Scrolled(s: Scroll, width: int): (r: Scroll)
    ensures r.x >= -width
    ensures r.x == if s.x - Speed < -width then -width else s.x - Speed
    ensures r.atEnd == (s.atEnd || s.x - Speed < -width)
    ensures r.canScroll == (s.canScroll && s.x - Speed >= -width)
  {
    var x := s.x - Speed;
    if x < -width then Scroll(-width, false, true) else s.(x := x)
  }

  /** The distance travelled grows by the step only when the level could scroll before it. */
  function Travelled(distance: int, canScroll: bool): (d: int)
    ensures canScroll ==> d == distance + Speed
    ensures !canScroll ==> d == distance
  {
    if canScroll then distance + (if Speed < 0 then -Speed else Speed) else distance
  }

  lemma StartIsSound(width: int)
    ensures Invariant(Start, width)
  {
  }

  /** A scroll keeps the invariant, never clears `atEnd` and never sets `canScroll` again. */
  lemma ScrollKeepsInvariant(s: Scroll, width: int)
    requires Invariant(s, width)
    ensures Invariant(Scrolled(s, width), width)
    ensures s.atEnd ==> Scrolled(s, width).atEnd
    ensures !s.canScroll ==> !Scrolled(s, width).canScroll
  {
  }

  /**
   * Once at the end, a scroll leaves the level where it is and the
   * distance as it is; only the actors are moved.
   */
  lemma ScrollAtEndStays(s: Scroll, width: int, distance: int)
    requires Invariant(s, width) && s.atEnd
    ensures Scrolled(s, width) == s
    ensures Travelled(distance, s.canScroll) == distance
  {
  }

  /** From the start, the level reaches its end exactly on the scroll that would take it past `-width`. */
  function ScrolledTimes(s: Scroll, width: int, n: nat): Scroll
  {
    if n == 0 then s else Scrolled(ScrolledTimes(s, width, n - 1), width)
  }

  lemma {:induction false} EndReachedAfter(width: int, n: nat)
    requires width >= 0
    ensures var r := ScrolledTimes(Start, width, n);
      && (r.atEnd <==> n * Speed > width)
      && (!r.atEnd ==> r.x == -(n * Speed))
      && (r.atEnd ==> r.x == -width)
  {
    if n > 0 {
      EndReachedAfter(width, n - 1);
    }
  }

  /** A foot soldier moved back by d; nothing else about it changes. */
  function EnemyShifted(e: Enemies.State, d: real): (r: Enemies.State)
    ensures r.posX == e.posX - d && r.(posX := e.posX) == e
  {
    e.(posX := e.posX - d)
  }

  function ExplosionShifted(b: Explosions.Blast, d: int): (r: Explosions.Blast)
    ensures r.x == b.x - d && r.(x := b.x) == b
  {
    b.(x := b.x - d)
  }

  function ShotShifted(s: Projectiles.ShotState, d: real): (r: Projectiles.ShotState)
    ensures r.Flying? == s.Flying?
    ensures s.Flying? ==> r.flight.x == s.flight.x - d && r.flight.(x := s.flight.x) == s.flight
    ensures s.Burning? ==> r.burn.x == s.burn.x - d && r.burn.(x := s.burn.x) == s.burn
  {
    match s
    case Flying(f) => Projectiles.Flying(f.(x := f.x - d))
    case Burning(b) => Projectiles.Burning(b.(x := b.x - d))
  }

  /** The soldiers' states once the first k have been moved back by d. */
  function EnemiesShifted(starts: seq<Enemies.State>, d: real, k: nat): (r: seq<Enemies.State>)
    ensures |r| == |starts|
    ensures forall j :: 0 <= j < |starts| ==> r[j] == if j < k then EnemyShifted(starts[j], d) else starts[j]
  {
    seq(|starts|, j requires 0 <= j < |starts| => if j < k then EnemyShifted(starts[j], d) else starts[j])
  }

  function ExplosionsShifted(starts: seq<Explosions.Blast>, d: int, k: nat): (r: seq<Explosions.Blast>)
    ensures |r| == |starts|
    ensures forall j :: 0 <= j < |starts| ==> r[j] == if j < k then ExplosionShifted(starts[j], d) else starts[j]
  {
    seq(|starts|, j requires 0 <= j < |starts| => if j < k then ExplosionShifted(starts[j], d) else starts[j])
  }

  function ShotsShifted(starts: seq<Projectiles.ShotState>, d: real, k: nat): (r: seq<Projectiles.ShotState>)
    ensures |r| == |starts|
    ensures forall j :: 0 <= j < |starts| ==> r[j] == if j < k then ShotShifted(starts[j], d) else starts[j]
  {
    seq(|starts|, j requires 0 <= j < |starts| => if j < k then ShotShifted(starts[j], d) else starts[j])
  }

  /** The states of a list of explosions. */
  ghost function BlastsOf(list: seq<Explosions.Explosion>): (r: seq<Explosions.Blast>)
    reads list
    ensures |r| == |list| && forall j :: 0 <= j < |list| ==> r[j] == list[j].Snapshot()
  {
    seq(|list|, j requires 0 <= j < |list| reads list => list[j].Snapshot())
  }

  /** Every entry of a projectile list is a distinct object. */
  predicate DistinctShots(shots: seq<Projectiles.Shot>)
  {
    forall i, j :: 0 <= i < j < |shots| ==> Projectiles.Target(shots[i]) != Projectiles.Target(shots[j])
  }

  /** Move every foot soldier back by d. */
  method ShiftEnemies(list: seq<Enemies.Enemy>, d: real)
    requires Distinct(list)
    modifies list
    ensures Enemies.StatesOf(list) == EnemiesShifted(old(Enemies.StatesOf(list)), d, |list|)
  {
    ghost var starts := Enemies.StatesOf(list);
    for k := 0 to |list|
      invariant Enemies.StatesOf(list) == EnemiesShifted(starts, d, k)
    {
      ghost var before := Enemies.StatesOf(list);
      list[k].posX := list[k].posX - d;
      EnemyShiftGrows(list, before, starts, d, k);
    }
  }

  lemma EnemyShiftGrows(list: seq<Enemies.Enemy>, before: seq<Enemies.State>, starts: seq<Enemies.State>, d: real, k: nat)
    requires |starts| == |list| == |before| && k < |list|
    requires before == EnemiesShifted(starts, d, k)
    requires forall j :: 0 <= j < |list| && j != k ==> list[j].Snapshot() == before[j]
    requires list[k].Snapshot() == EnemyShifted(starts[k], d)
    ensures Enemies.StatesOf(list) == EnemiesShifted(starts, d, k + 1)
  {
    var now, want := Enemies.StatesOf(list), EnemiesShifted(starts, d, k + 1);
    assert forall j :: 0 <= j < |list| ==> now[j] == want[j];
  }

  /** Move every explosion back by d; each stays valid. */
  method ShiftExplosions(list: seq<Explosions.Explosion>, d: int)
    requires Distinct(list)
    requires forall j :: 0 <= j < |list| ==> list[j].Valid()
    modifies list
    ensures BlastsOf(list) == ExplosionsShifted(old(BlastsOf(list)), d, |list|)
    ensures forall j :: 0 <= j < |list| ==> list[j].Valid()
  {
    ghost var starts := BlastsOf(list);
    for k := 0 to |list|
      invariant BlastsOf(list) == ExplosionsShifted(starts, d, k)
      invariant forall j :: 0 <= j < |list| ==> list[j].Valid()
    {
      ghost var before := BlastsOf(list);
      list[k].x := list[k].x - d;
      ExplosionShiftGrows(list, before, starts, d, k);
    }
  }

  lemma ExplosionShiftGrows(list: seq<Explosions.Explosion>, before: seq<Explosions.Blast>, starts: seq<Explosions.Blast>, d: int, k: nat)
    requires |starts| == |list| == |before| && k < |list|
    requires before == ExplosionsShifted(starts, d, k)
    requires forall j :: 0 <= j < |list| && j != k ==> list[j].Snapshot() == before[j]
    requires list[k].Snapshot() == ExplosionShifted(starts[k], d)
    ensures BlastsOf(list) == ExplosionsShifted(starts, d, k + 1)
  {
    var now, want := BlastsOf(list), ExplosionsShifted(starts, d, k + 1);
    assert forall j :: 0 <= j < |list| ==> now[j] == want[j];
  }

  /** Move every projectile and row of flames back by d; each row stays valid. */
  method ShiftShots(shots: seq<Projectiles.Shot>, d: real)
    requires DistinctShots(shots)
    requires forall r :: r in Projectiles.Rows(shots) ==> r.Valid()
    modifies Projectiles.Bolts(shots), Projectiles.Rows(shots)
    ensures Projectiles.StatesOf(shots) == ShotsShifted(old(Projectiles.StatesOf(shots)), d, |shots|)
    ensures forall r :: r in Projectiles.Rows(shots) ==> r.Valid()
    ensures forall r :: r in Projectiles.Rows(shots) ==> r.flames == old(r.flames)
  {
    ghost var starts := Projectiles.StatesOf(shots);
    for k := 0 to |shots|
      invariant Projectiles.StatesOf(shots) == ShotsShifted(starts, d, k)
      invariant forall r :: r in Projectiles.Rows(shots) ==> r.Valid()
      invariant forall r :: r in Projectiles.Rows(shots) ==> r.flames == old(r.flames)
    {
      ghost var before := Projectiles.StatesOf(shots);
      assert shots[k] in shots;
      ShiftShot(shots[k], d);
      ShotShiftGrows(shots, before, starts, d, k);
    }
  }

  /** Move one projectile or row of flames back by d. */
  method ShiftShot(shot: Projectiles.Shot, d: real)
    requires shot.Blaze? ==> shot.row.Valid()
    modifies if shot.Bolt? then {shot.bolt} else {}, if shot.Blaze? then {shot.row} else {}
    ensures Projectiles.StateOf(shot) == ShotShifted(old(Projectiles.StateOf(shot)), d)
    ensures shot.Blaze? ==> shot.row.Valid() && shot.row.flames == old(shot.row.flames)
  {
    match shot
    case Bolt(p) => p.x := p.x - d;
    case Blaze(f) => f.x := f.x - d;
  }

  lemma ShotShiftGrows(shots: seq<Projectiles.Shot>, before: seq<Projectiles.ShotState>, starts: seq<Projectiles.ShotState>, d: real, k: nat)
    requires |starts| == |shots| == |before| && k < |shots|
    requires before == ShotsShifted(starts, d, k)
    requires forall j :: 0 <= j < |shots| && j != k ==> Projectiles.StateOf(shots[j]) == before[j]
    requires Projectiles.StateOf(shots[k]) == ShotShifted(starts[k], d)
    ensures Projectiles.StatesOf(shots) == ShotsShifted(starts, d, k + 1)
  {
    var now, want := Projectiles.StatesOf(shots), ShotsShifted(starts, d, k + 1);
    assert forall j :: 0 <= j < |shots| ==> now[j] == want[j];
  }

  /** Move every foot soldier, explosion and projectile back by d, as the level scrolls. */
  method ShiftActors(enemies: seq<Enemies.Enemy>, explosions: seq<Explosions.Explosion>, shots: seq<Projectiles.Shot>, d: int)
    requires Distinct(enemies) && Distinct(explosions) && DistinctShots(shots)
    requires forall j :: 0 <= j < |explosions| ==> explosions[j].Valid()
    requires forall r :: r in Projectiles.Rows(shots) ==> r.Valid()
    modifies enemies, explosions, Projectiles.Bolts(shots), Projectiles.Rows(shots)
    ensures Enemies.StatesOf(enemies) == EnemiesShifted(old(Enemies.StatesOf(enemies)), d as real, |enemies|)
    ensures BlastsOf(explosions) == ExplosionsShifted(old(BlastsOf(explosions)), d, |explosions|)
    ensures Projectiles.StatesOf(shots) == ShotsShifted(old(Projectiles.StatesOf(shots)), d as real, |shots|)
    ensures forall j :: 0 <= j < |explosions| ==> explosions[j].Valid()
    ensures forall r :: r in Projectiles.Rows(shots) ==> r.Valid()
    ensures forall r :: r in Projectiles.Rows(shots) ==> r.flames == old(r.flames)
  {
    ShiftEnemies(enemies, d as real);
    ShiftEffects(explosions, shots, d);
  }

  /** Move every explosion and projectile back by d. */
  method ShiftEffects(explosions: seq<Explosions.Explosion>, shots: seq<Projectiles.Shot>, d: int)
    requires Distinct(explosions) && DistinctShots(shots)
    requires forall j :: 0 <= j < |explosions| ==> explosions[j].Valid()
    requires forall r :: r in Projectiles.Rows(shots) ==> r.Valid()
    modifies explosions, Projectiles.Bolts(shots), Projectiles.Rows(shots)
    ensures BlastsOf(explosions) == ExplosionsShifted(old(BlastsOf(explosions)), d, |explosions|)
    ensures Projectiles.StatesOf(shots) == ShotsShifted(old(Projectiles.StatesOf(shots)), d as real, |shots|)
    ensures forall j :: 0 <= j < |explosions| ==> explosions[j].Valid()
    ensures forall r :: r in Projectiles.Rows(shots) ==> r.Valid()
    ensures forall r :: r in Projectiles.Rows(shots) ==> r.flames == old(r.flames)
  {
    ShiftExplosions(explosions, d);
    ShiftShots(shots, d as real);
  }

  class Level {
    const speed: int := Speed
    var x: int
    var canScroll: bool
    var atEnd: bool
    /** How far the level scrolls: the foreground's width less one screen. */
    const width: int
    const tileWidth: int := 8
    const tileHeight: int := 72
    const foregroundWidth: int

    ghost function Snapshot(): Scroll
      reads this
    {
      Scroll(x, canScroll, atEnd)
    }

    ghost predicate Valid()
      reads this
    {
      Invariant(Snapshot(), width)
    }

    /** `init`, given the width of the foreground image. */
    constructor (foregroundWidth: nat)
      ensures Snapshot() == Start && Valid()
      ensures width == foregroundWidth - ScreenWidth && this.foregroundWidth == foregroundWidth
    {
      x := 0;
      canScroll := true;
      atEnd := false;
      width := foregroundWidth - ScreenWidth;
      this.foregroundWidth := foregroundWidth;
    }

    /**
     * `scrollBackground`, given the game's distance travelled and its
     * actors: step the level back, count the distance if the level could
     * scroll, move every actor back by the same step, then pin the level
     * at its end. Returns the new distance travelled.
     */
    method ScrollBackground(distance: int, enemies: seq<Enemies.Enemy>, explosions: seq<Explosions.Explosion>,
                            shots: seq<Projectiles.Shot>)
      returns (distance': int)
      requires Valid()
      requires Distinct(enemies) && Distinct(explosions) && DistinctShots(shots)
      requires forall j :: 0 <= j < |explosions| ==> explosions[j].Valid()
      requires forall r :: r in Projectiles.Rows(shots) ==> r.Valid()
      modifies this, enemies, explosions, Projectiles.Bolts(shots), Projectiles.Rows(shots)
      ensures Valid() && Snapshot() == Scrolled(old(Snapshot()), width)
      ensures distance' == Travelled(distance, old(canScroll))
      ensures Enemies.StatesOf(enemies) == EnemiesShifted(old(Enemies.StatesOf(enemies)), Speed as real, |enemies|)
      ensures BlastsOf(explosions) == ExplosionsShifted(old(BlastsOf(explosions)), Speed, |explosions|)
      ensures Projectiles.StatesOf(shots) == ShotsShifted(old(Projectiles.StatesOf(shots)), Speed as real, |shots|)
      ensures forall j :: 0 <= j < |explosions| ==> explosions[j].Valid()
      ensures forall r :: r in Projectiles.Rows(shots) ==> r.Valid()
      ensures forall r :: r in Projectiles.Rows(shots) ==> r.flames == old(r.flames)
    {
      x := x - speed;
      distance' := Travelled(distance, canScroll);
      ShiftActors(enemies, explosions, shots, speed);
      Pin();
    }

    /** The end of `scrollBackground`: a level stepped past `-width` is pinned there, and scrolls no more. */
    method Pin()
      modifies this
      ensures x == if old(x) < -width then -width else old(x)
      ensures atEnd == (old(atEnd) || old(x) < -width)
      ensures canScroll == (old(canScroll) && old(x) >= -width)
    {
      if x < -width {
        x := -width;
        atEnd := true;
        canScroll := false;
      }
    }
  }
}
