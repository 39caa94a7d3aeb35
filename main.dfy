/**
 * The game loop (main.js): the game object holds the level, the player's
 * turtle, the foot soldiers, the boss once it has spawned, the boss's bolts
 * and rows of flames, the explosions, and the tweens and timelines that
 * every actor queues on it. Each animation frame `render` runs one step of
 * the screen it is on: the opening fade, a playing frame, the closing fade,
 * the ending message and the final message.
 *
 * The completion callbacks of the queued tweens and timelines are cues
 * (`Scene.Cue`) that the game performs: a foot soldier recovers, falls or
 * explodes and dies, the boss recoils, the stage is cleared.
 *
 * The game's lists are grouped by what reads them: `Effects` holds the
 * explosions and the projectiles, `Schedule` the tweens and the timelines,
 * and each keeps its own invariant over the objects it has held.
 */
module Games {
  import opened Scene
  import opened Timelines
  import Enemies
  import Turtles
  import Shredders
  import Flames
  import Projectiles
  import Explosions
  import Levels
  import Messages
  import Sorting
  import Config

  type Cue = Scene.Cue<Enemies.Enemy>

  /** The distances past which the foot soldiers spawn, in order. */
  const SpawnPoints: seq<int> := [100, 350, 650, 980, 1200, 1350, 1650, 1850]
  /** The frames of the opening fade; a closing fade starts from the same count. */
  const StartFade: int := 60
  /** The frames over which the ending message dims before the final message. */
  const MessageFade: int := 90
  /** Where the turtle starts. */
  const PlayerX: real := 30.0
  const PlayerY: real := 195.0
  /** The foot soldiers that spawn per 500 of the spawn point's distance, rounded up, besides the one ahead. */
  const SpawnSpan: int := 500
  /** Where the soldier placed ahead spawns: 42 past the right edge, between depths 125 and 245. */
  const AheadX: real := 298.0
  /** The damage a flame in range does to the turtle. */
  const FlameDamage: int := 2
  /** The frame time of the final message's typewriter. */
  const FinalFrameTime: real := 1000.0 / 16.0

  /*
   * Filtering a list in place: the splice loops of `cleanUp`.
   */

  /** The entries of list whose flag is not set, in their order. */
  function Kept<T>(list: seq<T>, gone: seq<bool>): (r: seq<T>)
    requires |gone| == |list|
    ensures |r| <= |list|
    decreases |list|
  {
    if list == [] then []
    else Kept(list[..|list| - 1], gone[..|list| - 1]) + if gone[|list| - 1] then [] else [list[|list| - 1]]
  }

  /** Filtering one more entry appends it, unless its flag is set. */
  lemma KeptSnoc<T>(list: seq<T>, gone: seq<bool>, k: nat)
    requires k < |list| == |gone|
    ensures Kept(list[..k + 1], gone[..k + 1]) == Kept(list[..k], gone[..k]) + if gone[k] then [] else [list[k]]
  {
    assert list[..k + 1][..k] == list[..k] && gone[..k + 1][..k] == gone[..k];
  }

  /** Indices that strictly increase. */
  ghost predicate Rising(idx: seq<nat>)
  {
    forall i, j :: 0 <= i < j < |idx| ==> idx[i] < idx[j]
  }

  /**
   * The kept entries are the unflagged entries, in their order: the i-th
   * kept entry is the entry at idx[i], the indices strictly increase, and
   * every unflagged index is among them.
   */
  lemma {:induction false} KeptInOrder<T>(list: seq<T>, gone: seq<bool>) returns (idx: seq<nat>)
    requires |gone| == |list|
    ensures |idx| == |Kept(list, gone)|
    ensures forall i :: 0 <= i < |idx| ==> idx[i] < |list| && Kept(list, gone)[i] == list[idx[i]] && !gone[idx[i]]
    ensures Rising(idx)
    ensures forall j :: 0 <= j < |list| && !gone[j] ==> j in idx
    decreases |list|
  {
    if list == [] {
      idx := [];
    } else {
      var n := |list| - 1;
      var head, flags := list[..n], gone[..n];
      var prev := KeptInOrder(head, flags);
      KeptLast(list, gone, prev);
      KeptLastIndex(gone, prev);
      idx := if gone[n] then prev else prev + [n];
    }
  }

  /** One step of `KeptInOrder`: the entries kept from all but the last entry, then the last one if it is kept. */
  lemma KeptLast<T>(list: seq<T>, gone: seq<bool>, prev: seq<nat>)
    requires |gone| == |list| > 0
    requires var n := |list| - 1; |prev| == |Kept(list[..n], gone[..n])|
    requires var n := |list| - 1; forall i :: 0 <= i < |prev| ==> prev[i] < n && Kept(list[..n], gone[..n])[i] == list[..n][prev[i]] && !gone[..n][prev[i]]
    ensures var n := |list| - 1; var idx := if gone[n] then prev else prev + [n];
      && |idx| == |Kept(list, gone)|
      && (forall i :: 0 <= i < |idx| ==> idx[i] < |list| && Kept(list, gone)[i] == list[idx[i]] && !gone[idx[i]])
  {
    var n := |list| - 1;
    var head, flags := list[..n], gone[..n];
    var idx := if gone[n] then prev else prev + [n];
    var kept := Kept(list, gone);
    assert kept == Kept(head, flags) + if gone[n] then [] else [list[n]];
    forall i | 0 <= i < |idx|
      ensures idx[i] < |list| && kept[i] == list[idx[i]] && !gone[idx[i]]
    {
      if i < |prev| {
        assert head[prev[i]] == list[prev[i]] && flags[prev[i]] == gone[prev[i]];
      }
    }
  }

  /** One step of `KeptInOrder`: the last index, if kept, comes after the others, and no unflagged index is missed. */
  lemma KeptLastIndex(gone: seq<bool>, prev: seq<nat>)
    requires |gone| > 0
    requires forall i :: 0 <= i < |prev| ==> prev[i] < |gone| - 1
    requires Rising(prev)
    requires var n := |gone| - 1; forall j :: 0 <= j < n && !gone[..n][j] ==> j in prev
    ensures var n := |gone| - 1; var idx := if gone[n] then prev else prev + [n];
      && Rising(idx) && (forall j :: 0 <= j < |gone| && !gone[j] ==> j in idx)
  {
    var n := |gone| - 1;
    var idx := if gone[n] then prev else prev + [n];
    assert Rising(idx) by {
      forall i, j | 0 <= i < j < |idx|
        ensures idx[i] < idx[j]
      {
        assert idx[i] == prev[i];
      }
    }
    forall j | 0 <= j < |gone| && !gone[j]
      ensures j in idx
    {
      if j < n {
        assert gone[..n][j] == gone[j];
      }
    }
  }

  /** Filtering keeps a list free of repeats. */
  lemma KeptDistinct<T>(list: seq<T>, gone: seq<bool>)
    requires |gone| == |list| && Distinct(list)
    ensures Distinct(Kept(list, gone))
  {
    var idx := KeptInOrder(list, gone);
  }

  /** An entry is kept exactly when it is listed under an unset flag. */
  lemma KeptIff<T>(list: seq<T>, gone: seq<bool>, x: T)
    requires |gone| == |list|
    ensures x in Kept(list, gone) <==> exists j :: 0 <= j < |list| && list[j] == x && !gone[j]
  {
    var idx := KeptInOrder(list, gone);
    if x in Kept(list, gone) {
      var i :| 0 <= i < |idx| && Kept(list, gone)[i] == x;
      assert list[idx[i]] == x;
    }
    if j :| 0 <= j < |list| && list[j] == x && !gone[j] {
      assert j in idx;
      var i :| 0 <= i < |idx| && idx[i] == j;
      assert Kept(list, gone)[i] == x;
    }
  }

  /*
   * The projectiles' part of `cleanUp`.
   */

  /** A thrown projectile outside the screen: its right edge left of 0 or its left edge right of 256. */
  predicate Offscreen(f: Projectiles.Flight)
  {
    f.x + Projectiles.Width < 0.0 || f.x > ScreenWidth as real
  }

  /**
   * A row of flames right of the screen: `cleanUp` calls its `destroy`,
   * which rows do not have, and the frame ends there with an error.
   */
  predicate Halts(s: Projectiles.ShotState)
  {
    s.Burning? && s.burn.x > ScreenWidth as real
  }

  /** Whether `cleanUp` splices an entry out: a projectile it destroys or that is dead, a row that is dead. */
  predicate Gone(s: Projectiles.ShotState)
  {
    match s
    case Flying(f) => Offscreen(f) || f.state == 0
    case Burning(b) => b.state == 0
  }

  function GoneFlags(states: seq<Projectiles.ShotState>): (r: seq<bool>)
    ensures |r| == |states| && forall j :: 0 <= j < |states| ==> r[j] == Gone(states[j])
  {
    seq(|states|, j requires 0 <= j < |states| => Gone(states[j]))
  }

  /** The index of the first entry whose row halts the frame, or the length if none does. */
  function FirstHalt(states: seq<Projectiles.ShotState>): (k: nat)
    ensures k <= |states|
    ensures forall j :: 0 <= j < k ==> !Halts(states[j])
    ensures k < |states| ==> Halts(states[k])
  {
    if states == [] then 0 else if Halts(states[0]) then 0 else 1 + FirstHalt(states[1..])
  }

  /** The states once the loop has passed the first k entries: every off-screen projectile among them destroyed. */
  function Destroyed(states: seq<Projectiles.ShotState>, k: nat): (r: seq<Projectiles.ShotState>)
    ensures |r| == |states|
  {
    seq(|states|, j requires 0 <= j < |states| =>
      if j < k && states[j].Flying? && Offscreen(states[j].flight)
      then Projectiles.Flying(states[j].flight.(state := 0)) else states[j])
  }

  /** Filtering the front of a list of distinct entries and keeping the rest leaves the entries distinct. */
  lemma KeptShotsDistinct(list: seq<Projectiles.Shot>, gone: seq<bool>, k: nat)
    requires |gone| == |list| && k <= |list| && Levels.DistinctShots(list)
    ensures Levels.DistinctShots(Kept(list[..k], gone[..k]) + list[k..])
    ensures forall s :: s in Kept(list[..k], gone[..k]) + list[k..] ==> s in list
  {
    var front := Kept(list[..k], gone[..k]);
    var idx := KeptInOrder(list[..k], gone[..k]);
    var r := front + list[k..];
    var at := idx + seq(|list| - k, i requires 0 <= i < |list| - k => k + i);
    assert forall i :: 0 <= i < |r| ==> at[i] < |list| && r[i] == list[at[i]] by {
      forall i | 0 <= i < |r|
        ensures at[i] < |list| && r[i] == list[at[i]]
      {
        if i < |front| {
          assert r[i] == front[i];
        } else {
          assert r[i] == list[k..][i - |front|];
        }
      }
    }
    forall i, j | 0 <= i < j < |r|
      ensures Projectiles.Target(r[i]) != Projectiles.Target(r[j])
    {
      assert at[i] < at[j];
    }
  }

  /** Every explosion of the set is sound. */
  ghost predicate BlastsSound(blasts: set<Explosions.Explosion>)
    reads blasts
  {
    forall b :: b in blasts ==> b.Valid()
  }

  /** The row is sound and its flames are in the set. */
  ghost predicate RowHeld(r: Flames.Flames, embers: set<Flames.Flame>)
    reads r, embers
  {
    (forall f :: f in r.flames ==> f in embers) && r.Valid()
  }

  /** Every row of the set is sound, and its flames are in the second set. */
  ghost predicate RowsSound(rows: set<Flames.Flames>, embers: set<Flames.Flame>)
    reads rows, embers
  {
    forall r :: r in rows ==> RowHeld(r, embers)
  }

  /** Rows that stay sound stay sound among more held flames; a row whose flames are held rejoins them. */
  lemma RowsRejoin(rows: set<Flames.Flames>, embers: set<Flames.Flame>, r: Flames.Flames, embers': set<Flames.Flame>)
    requires forall r' :: r' in rows && r' != r ==> RowHeld(r', embers)
    requires r in rows && embers <= embers' && RowHeld(r, embers')
    ensures RowsSound(rows, embers')
  {
  }

  /** The flames of a sound row belong to it alone: no other sound row lists them. */
  lemma RowsApart(rows: set<Flames.Flames>, embers: set<Flames.Flame>, r: Flames.Flames)
    requires RowsSound(rows, embers) && r in rows
    ensures forall r', f :: r' in rows && r' != r && f in r'.flames ==> f !in r.flames
  {
    forall r', f | r' in rows && r' != r && f in r'.flames
      ensures f !in r.flames
    {
      assert f.owner == r';
    }
  }

  /** The finished flags of a list of explosions. */
  ghost function FinishedFlags(list: seq<Explosions.Explosion>): (r: seq<bool>)
    reads list
    ensures |r| == |list| && forall j :: 0 <= j < |list| ==> r[j] == list[j].IsFinished()
  {
    seq(|list|, j requires 0 <= j < |list| reads list => list[j].IsFinished())
  }

  /** A sound row whose flames are held joins the sound rows. */
  lemma RowsJoin(rows: set<Flames.Flames>, embers: set<Flames.Flame>, r: Flames.Flames, embers': set<Flames.Flame>)
    requires RowsSound(rows, embers) && embers <= embers'
    requires (forall f :: f in r.flames ==> f in embers') && r.Valid()
    ensures RowsSound(rows + {r}, embers')
  {
    RowsRejoin(rows + {r}, embers, r, embers');
  }

  /**
   * The level's `scrollBackground`, as `Levels.Level.ScrollBackground`
   * states it, seen from the effects: the listed explosions and rows stay
   * sound and every row keeps its flames.
   */
  method ScrollActors(level: Levels.Level, distance: int, enemies: seq<Enemies.Enemy>,
                      explosions: seq<Explosions.Explosion>, shots: seq<Projectiles.Shot>) returns (distance': int)
    requires level.Valid() && Distinct(enemies) && Distinct(explosions) && Levels.DistinctShots(shots)
    requires forall j :: 0 <= j < |explosions| ==> explosions[j].Valid()
    requires forall r :: r in Projectiles.Rows(shots) ==> r.Valid()
    modifies level, enemies, explosions, Projectiles.Bolts(shots), Projectiles.Rows(shots)
    ensures level.Valid() && level.Snapshot() == Levels.Scrolled(old(level.Snapshot()), level.width)
    ensures distance' == Levels.Travelled(distance, old(level.canScroll))
    ensures Enemies.StatesOf(enemies) == Levels.EnemiesShifted(old(Enemies.StatesOf(enemies)), Levels.Speed as real, |enemies|)
    ensures Levels.BlastsOf(explosions) == Levels.ExplosionsShifted(old(Levels.BlastsOf(explosions)), Levels.Speed, |explosions|)
    ensures Projectiles.StatesOf(shots) == Levels.ShotsShifted(old(Projectiles.StatesOf(shots)), Levels.Speed as real, |shots|)
    ensures forall j :: 0 <= j < |explosions| ==> explosions[j].Valid()
    ensures forall r :: r in Projectiles.Rows(shots) ==> r.Valid() && r.flames == old(r.flames)
  {
    distance' := level.ScrollBackground(distance, enemies, explosions, shots);
  }

  /**
   * A row's `update`, as `Flames.Flames.Update` states it, seen from the
   * effects: the row stays sound and lists only flames it had or has just laid.
   */
  method BurnRow(r: Flames.Flames, dt: Ms)
    requires r.Valid()
    modifies r, r.flames
    ensures r.Valid() && forall f :: f in r.flames ==> f in old(r.flames) || fresh(f)
  {
    var _, _ := r.Update(dt);
  }

  /** The explosions and the projectiles, with every explosion, projectile, row and flame the game has held. */
  class Effects {
    var explosions: seq<Explosions.Explosion>
    var projectiles: seq<Projectiles.Shot>
    ghost var blasts: set<Explosions.Explosion>
    ghost var bolts: set<Projectiles.Projectile>
    ghost var rows: set<Flames.Flames>
    ghost var embers: set<Flames.Flame>

    ghost function Repr(): (r: set<object>)
      reads this
    {
      var b: set<object> := blasts;
      var p: set<object> := bolts;
      var w: set<object> := rows;
      var e: set<object> := embers;
      b + p + w + e
    }

    /**
     * The lists hold no entry twice and only held objects; every explosion
     * and every row ever held is sound, and the flames of a row are held.
     */
    ghost predicate Valid()
      reads this, blasts, rows, embers
    {
      && Distinct(explosions) && Levels.DistinctShots(projectiles)
      && (forall b :: b in explosions ==> b in blasts)
      && Projectiles.Bolts(projectiles) <= bolts && Projectiles.Rows(projectiles) <= rows
      && BlastsSound(blasts) && RowsSound(rows, embers)
    }

    /** What a step may do to the held objects: hold more, all of them new. */
    twostate predicate Grew()
      reads this
    {
      && old(blasts) <= blasts && old(bolts) <= bolts && old(rows) <= rows && old(embers) <= embers
      && (forall b :: b in blasts ==> b in old(blasts) || fresh(b))
      && (forall p :: p in bolts ==> p in old(bolts) || fresh(p))
      && (forall r :: r in rows ==> r in old(rows) || fresh(r))
      && (forall f :: f in embers ==> f in old(embers) || fresh(f))
    }

    constructor ()
      ensures Valid() && explosions == [] && projectiles == []
      ensures blasts == {} && bolts == {} && rows == {} && embers == {}
    {
      explosions, projectiles := [], [];
      blasts, bolts, rows, embers := {}, {}, {}, {};
    }

    /** `addExplosion(x, y)`: a fresh explosion at the end of the list. */
    method AddExplosion(x: real, y: real)
      requires Valid()
      modifies this
      ensures Valid() && Grew() && projectiles == old(projectiles)
      ensures |explosions| == |old(explosions)| + 1 && explosions[..|old(explosions)|] == old(explosions)
      ensures var b := explosions[|old(explosions)|];
        && fresh(b) && b.x == Explosions.ToInt32(x) && b.y == Explosions.ToInt32(y)
        && b.state == 1 && b.sequenceIdx == 0 && b.swaps == 0
    {
      var b := new Explosions.Explosion(x, y);
      explosions := explosions + [b];
      blasts := blasts + {b};
    }

    /** `addProjectile(x, y, dir)`: a fresh projectile at the end of the list. */
    method AddProjectile(x: real, y: real, dir: Facing)
      requires Valid()
      modifies this
      ensures Valid() && Grew() && explosions == old(explosions)
      ensures |projectiles| == |old(projectiles)| + 1 && projectiles[..|old(projectiles)|] == old(projectiles)
      ensures var s := projectiles[|old(projectiles)|];
        s.Bolt? && fresh(s.bolt) && s.bolt.Snapshot() == Projectiles.Flight(x, y, 1) && s.bolt.dir == dir
    {
      var p := new Projectiles.Projectile(x, y, dir);
      projectiles := projectiles + [Projectiles.Bolt(p)];
      bolts := bolts + {p};
    }

    /** The boss's `flamer`: a fresh row of flames pushed onto the projectile list. */
    method AddFlames(x: real, y: real, dir: Facing)
      requires Valid()
      modifies this
      ensures Valid() && Grew() && explosions == old(explosions)
      ensures |projectiles| == |old(projectiles)| + 1 && projectiles[..|old(projectiles)|] == old(projectiles)
      ensures var s := projectiles[|old(projectiles)|];
        && s.Blaze? && fresh(s.row) && s.row.x == x && s.row.y == y && s.row.dir == dir
        && s.row.state == 1 && s.row.flameCount == 1 && |s.row.flames| == 1
    {
      var r := new Flames.Flames(x, y, dir);
      RowsJoin(rows, embers, r, embers + {r.flames[0]});
      projectiles := projectiles + [Projectiles.Blaze(r)];
      rows := rows + {r};
      embers := embers + {r.flames[0]};
    }

    /**
     * The projectile loop of `cleanUp`: front to back, destroy a projectile
     * that has left the screen, then splice out the entry if it is dead. A
     * row of flames right of the screen ends the frame with an error
     * (`halted`), leaving it and every later entry in place.
     */
    method PruneShots() returns (halted: bool)
      requires Valid()
      modifies this, Projectiles.Bolts(projectiles)
      ensures Valid() && explosions == old(explosions)
      ensures blasts == old(blasts) && bolts == old(bolts) && rows == old(rows) && embers == old(embers)
      ensures var starts := old(Projectiles.StatesOf(projectiles)); var k := FirstHalt(starts);
        && halted == (k < |starts|)
        && projectiles == Kept(old(projectiles)[..k], GoneFlags(starts)[..k]) + old(projectiles)[k..]
        && Projectiles.StatesOf(old(projectiles)) == Destroyed(starts, k)
    {
      var list := projectiles;
      var kept;
      kept, halted := PruneList(list);
      projectiles := kept;
    }

    /** The explosion loop of `cleanUp`: splice out every finished explosion. */
    method PruneBlasts()
      requires Valid()
      modifies this
      ensures Valid() && projectiles == old(projectiles)
      ensures blasts == old(blasts) && bolts == old(bolts) && rows == old(rows) && embers == old(embers)
      ensures explosions == Kept(old(explosions), FinishedFlags(old(explosions)))
    {
      var list := explosions;
      ghost var flags := FinishedFlags(list);
      var kept: seq<Explosions.Explosion> := [];
      for k := 0 to |list|
        invariant kept == Kept(list[..k], flags[..k])
      {
        assert list[..k + 1][..k] == list[..k] && flags[..k + 1][..k] == flags[..k];
        if !list[k].IsFinished() {
          kept := kept + [list[k]];
        }
      }
      assert list[..|list|] == list && flags[..|list|] == flags;
      KeptDistinct(list, flags);
      forall b | b in kept
        ensures b in blasts
      {
        KeptIff(list, flags, b);
      }
      explosions := kept;
    }

    /**
     * The level's `scrollBackground` over the game's actors: the level and
     * every listed soldier, explosion, projectile and row of flames move
     * back one step, as `Levels.Level.ScrollBackground` states.
     */
    method Scroll(level: Levels.Level, distance: int, enemies: seq<Enemies.Enemy>) returns (distance': int)
      requires Valid() && level.Valid() && Distinct(enemies)
      modifies level, enemies, explosions, Projectiles.Bolts(projectiles), Projectiles.Rows(projectiles)
      ensures Valid() && level.Valid() && level.Snapshot() == Levels.Scrolled(old(level.Snapshot()), level.width)
      ensures distance' == Levels.Travelled(distance, old(level.canScroll))
      ensures Enemies.StatesOf(enemies) == Levels.EnemiesShifted(old(Enemies.StatesOf(enemies)), Levels.Speed as real, |enemies|)
      ensures Levels.BlastsOf(explosions) == Levels.ExplosionsShifted(old(Levels.BlastsOf(explosions)), Levels.Speed, |explosions|)
      ensures Projectiles.StatesOf(projectiles) == Levels.ShotsShifted(old(Projectiles.StatesOf(projectiles)), Levels.Speed as real, |projectiles|)
      ensures explosions == old(explosions) && projectiles == old(projectiles)
      ensures blasts == old(blasts) && bolts == old(bolts) && rows == old(rows) && embers == old(embers)
    {
      distance' := ScrollActors(level, distance, enemies, explosions, projectiles);
      assert Valid() by {
        forall b | b in blasts
          ensures b.Valid()
        {
          if b in explosions {
            var j :| 0 <= j < |explosions| && explosions[j] == b;
          } else {
            assert old(b.Valid());
          }
        }
        forall r | r in rows
          ensures RowHeld(r, embers)
        {
          assert old(RowHeld(r, embers));
        }
      }
    }

    /**
     * A row of flames updates itself, as `Flames.Flames.Update` states; the
     * flames it lays are held from then on.
     */
    method UpdateRow(r: Flames.Flames, dt: Ms)
      requires Valid() && r in rows
      modifies this, r, r.flames
      ensures Valid() && Grew() && explosions == old(explosions) && projectiles == old(projectiles)
      ensures blasts == old(blasts) && bolts == old(bolts) && rows == old(rows)
    {
      RowsApart(rows, embers, r);
      BurnRow(r, dt);
      assert forall r' :: r' in rows && r' != r ==> RowHeld(r', embers) by {
        forall r' | r' in rows && r' != r
          ensures RowHeld(r', embers)
        {
          assert old(RowHeld(r', embers));
        }
      }
      ghost var lit: set<Flames.Flame> := set f | f in r.flames;
      RowsRejoin(rows, embers, r, embers + lit);
      embers := embers + lit;
    }

    /** An explosion animates itself (`Explosions.Explosion.Animate`). */
    method UpdateBlast(b: Explosions.Explosion, dt: Ms)
      requires Valid() && b in blasts
      modifies b
      ensures Valid() && b.x == old(b.x) && b.y == old(b.y)
      ensures old(b.timeSinceLastFrameSwap) + dt <= b.animationUpdateTime ==>
        b.timeSinceLastFrameSwap == old(b.timeSinceLastFrameSwap) + dt && b.swaps == old(b.swaps) &&
        b.sequenceIdx == old(b.sequenceIdx) && b.state == old(b.state) && b.offsetX == old(b.offsetX)
      ensures old(b.timeSinceLastFrameSwap) + dt > b.animationUpdateTime ==>
        b.timeSinceLastFrameSwap == 0.0 && b.swaps == old(b.swaps) + 1 &&
        (b.sequenceIdx, b.state) == Explosions.Swap(old(b.sequenceIdx), old(b.state)) &&
        b.offsetX == Explosions.Sequence[b.sequenceIdx] * b.width
    {
      b.Animate(dt);
    }
  }

  /** The loop of `PruneShots` on a list of entries: the entries it keeps, and whether a row halted it. */
  method PruneList(list: seq<Projectiles.Shot>) returns (kept: seq<Projectiles.Shot>, halted: bool)
    requires Levels.DistinctShots(list)
    modifies Projectiles.Bolts(list)
    ensures var starts := old(Projectiles.StatesOf(list)); var k := FirstHalt(starts);
      && halted == (k < |starts|)
      && kept == Kept(list[..k], GoneFlags(starts)[..k]) + list[k..]
      && Projectiles.StatesOf(list) == Destroyed(starts, k)
    ensures Levels.DistinctShots(kept) && forall s :: s in kept ==> s in list
  {
    ghost var starts := Projectiles.StatesOf(list);
    ghost var flags := GoneFlags(starts);
    kept := [];
    var k := 0;
    halted := false;
    while k < |list|
      invariant k <= |list| && !halted
      invariant forall j :: 0 <= j < k ==> !Halts(starts[j])
      invariant kept == Kept(list[..k], flags[..k])
      invariant Projectiles.StatesOf(list) == Destroyed(starts, k)
    {
      var s := list[k];
      if s.Blaze? && s.row.x > ScreenWidth as real {
        halted := true;
        break;
      }
      ShotStep(list, starts, k);
      var dead := if s.Bolt? then s.bolt.IsDead() else s.row.IsDead();
      KeptSnoc(list, flags, k);
      if !dead {
        kept := kept + [s];
      }
      k := k + 1;
    }
    KeptShotsDistinct(list, flags, k);
    kept := kept + list[k..];
  }

  /** `cleanUp`'s work on entry k: a projectile off the screen is destroyed. */
  method ShotStep(list: seq<Projectiles.Shot>, ghost starts: seq<Projectiles.ShotState>, k: nat)
    requires k < |list| == |starts| && Levels.DistinctShots(list) && !Halts(starts[k])
    requires Projectiles.StatesOf(list) == Destroyed(starts, k)
    modifies Projectiles.Bolts(list)
    ensures Projectiles.StatesOf(list) == Destroyed(starts, k + 1)
    ensures list[k].Bolt? ==> (list[k].bolt.IsDead() <==> Gone(starts[k]))
    ensures list[k].Blaze? ==> (list[k].row.IsDead() <==> Gone(starts[k]))
  {
    var s := list[k];
    if s.Bolt? && (s.bolt.x + s.bolt.width < 0.0 || s.bolt.x > ScreenWidth as real) {
      s.bolt.Destroy();
    }
    assert forall j :: 0 <= j < |list| && j != k ==> Projectiles.Target(list[j]) != Projectiles.Target(s);
  }

  /*
   * The game's tweens and timelines.
   */

  /**
   * What a queued cue may act on: a foot soldier among `named`, the boss's
   * recoil once the boss can recoil, or the end of the stage. The boss's
   * entrance and floats run on the boss's own lists.
   */
  ghost predicate Known(c: Cue, named: set<Enemies.Enemy>, recoils: bool)
  {
    match c
    case EnemyRecovered(e, _) => e in named
    case EnemyFell(e, _) => e in named
    case EnemyDied(e, _) => e in named
    case BossRecoiled(_) => recoils
    case StageCleared => true
    case BossArrived => false
    case BossMoved(_) => false
    case BossLanded => false
  }

  /** The callback of a tween, if any, is known. */
  ghost predicate Heard(m: Motion<Cue>, named: set<Enemies.Enemy>, recoils: bool)
  {
    m.onComplete.Some? ==> Known(m.onComplete.value, named, recoils)
  }

  /** Every callback a timeline can fire is known. */
  ghost predicate Planned(t: Track<Cue>, named: set<Enemies.Enemy>, recoils: bool)
  {
    && (t.onComplete.Some? ==> Known(t.onComplete.value, named, recoils))
    && forall k :: 0 <= k < |t.tweenQueue| ==> Heard(t.tweenQueue[k], named, recoils)
  }

  /** An update leaves a timeline's schedule and callback alone, so what it can fire stays known. */
  lemma VisitKeepsPlan(t: Track<Cue>, dt: Ms, named: set<Enemies.Enemy>, recoils: bool)
    requires WellFormed(t) && Planned(t, named, recoils)
    ensures Planned(Visit(t, dt), named, recoils)
  {
    if t.state != 2 {
      StepFacts(t, dt);
    }
  }

  /** A callback a timeline with a known plan can fire is known. */
  lemma PlannedCues(t: Track<Cue>, c: Cue, named: set<Enemies.Enemy>, recoils: bool)
    requires Planned(t, named, recoils) && CueOf(t, c)
    ensures Known(c, named, recoils)
  {
    if t.onComplete != Some(c) {
      var k :| 0 <= k < |t.tweenQueue| && t.tweenQueue[k].onComplete == Some(c);
      assert Heard(t.tweenQueue[k], named, recoils);
    }
  }

  /** A timeline every callback of which is known has a known plan. */
  lemma PlannedIfKnown(t: Track<Cue>, named: set<Enemies.Enemy>, recoils: bool)
    requires forall c :: CueOf(t, c) ==> Known(c, named, recoils)
    ensures Planned(t, named, recoils)
  {
    forall k | 0 <= k < |t.tweenQueue|
      ensures Heard(t.tweenQueue[k], named, recoils)
    {
      if t.tweenQueue[k].onComplete.Some? {
        assert CueOf(t, t.tweenQueue[k].onComplete.value);
      }
    }
  }

  /** Two lists free of repeats with nothing in common join into one. */
  lemma DistinctJoin<T>(a: seq<T>, b: seq<T>)
    requires Distinct(a) && Distinct(b) && forall x :: x in b ==> x !in a
    ensures Distinct(a + b)
  {
    forall i, j | 0 <= i < j < |a + b|
      ensures (a + b)[i] != (a + b)[j]
    {
      if i < |a| && j >= |a| {
        assert (a + b)[j] in b;
      }
    }
  }

  /**
   * The recoveries and deaths an attack starts call back only to the
   * soldiers it struck.
   */
  lemma StartedKnown(list: seq<Enemies.Enemy>, starts: seq<Enemies.State>, rect: Box, inRange: (Box, Box) -> bool,
                     tweens: seq<Tween<Cue>>, tls: seq<Timeline<Cue>>, named: set<Enemies.Enemy>, recoils: bool)
    requires |starts| == |list| && Turtles.Started(list, starts, rect, inRange, |list|, tweens, tls)
    requires forall e :: e in list ==> e in named
    ensures forall k :: 0 <= k < |tweens| ==> Heard(tweens[k].motion, named, recoils)
    ensures forall k :: 0 <= k < |tls| ==> Planned(tls[k].Snapshot(), named, recoils)
  {
    Turtles.RecoveriesNameSoldiers(list, starts, rect, inRange, |list|);
    Turtles.DeathsNameSoldiers(list, starts, rect, inRange, |list|);
    forall k | 0 <= k < |tweens|
      ensures Heard(tweens[k].motion, named, recoils)
    {
      assert tweens[k].motion == Turtles.MotionsOf(tweens)[k];
    }
    forall k | 0 <= k < |tls|
      ensures Planned(tls[k].Snapshot(), named, recoils)
    {
      var t := tls[k].Snapshot();
      assert t == SnapshotsOf(tls)[k];
      assert t in Turtles.Deaths(list, starts, rect, inRange, |list|);
      PlannedIfKnown(t, named, recoils);
    }
  }

  /** `Game.tweens` and `Game.timelines`, which the actors push onto and every playing frame sweeps. */
  class Schedule {
    var tweens: seq<Tween<Cue>>
    var timelines: seq<Timeline<Cue>>
    /** The soldiers that queued callbacks may name. */
    ghost var named: set<Enemies.Enemy>
    /** Whether a recoil of the boss may be queued. */
    ghost var recoils: bool

    /** Nothing is queued twice, every timeline is sound and every callback is known. */
    ghost predicate Valid()
      reads this, timelines
    {
      && Distinct(tweens) && Distinct(timelines)
      && (forall k :: 0 <= k < |timelines| ==> timelines[k].Valid())
      && (forall k :: 0 <= k < |tweens| ==> Heard(tweens[k].motion, named, recoils))
      && (forall k :: 0 <= k < |timelines| ==> Planned(timelines[k].Snapshot(), named, recoils))
    }

    /** The tweens and timelines queued, as the objects a frame may change. */
    ghost function Queued(): set<object>
      reads this
    {
      var a: set<object> := set t | t in tweens;
      var b: set<object> := set t | t in timelines;
      a + b
    }

    /** What a step may do to the queues: keep what they held, or add new tweens and timelines. */
    twostate predicate Grew()
      reads this
    {
      && (forall t :: t in tweens ==> t in old(tweens) || fresh(t))
      && (forall t :: t in timelines ==> t in old(timelines) || fresh(t))
    }

    constructor ()
      ensures Valid() && tweens == [] && timelines == [] && named == {} && !recoils
    {
      tweens, timelines := [], [];
      named, recoils := {}, false;
    }

    /** `Game.tweens.push(...)` of new tweens, in order. */
    method PushTweens(ts: seq<Tween<Cue>>, ghost names: set<Enemies.Enemy>, ghost recoil: bool)
      requires Valid() && Distinct(tweens + ts)
      requires forall k :: 0 <= k < |ts| ==> Heard(ts[k].motion, named + names, recoils || recoil)
      modifies this
      ensures Valid() && tweens == old(tweens) + ts && timelines == old(timelines)
      ensures named == old(named) + names && recoils == (old(recoils) || recoil)
    {
      tweens := tweens + ts;
      named, recoils := named + names, recoils || recoil;
    }

    /** `SweepTweens` as the rest of the game sees it: the timelines and what is known stay, and what fires is known. */
    method StepTweens(dt: Ms) returns (fired: seq<Cue>)
      requires Valid()
      modifies this, tweens
      ensures Valid() && timelines == old(timelines) && named == old(named) && recoils == old(recoils)
      ensures tweens == Animating(old(tweens), old(ElapsedOf(tweens)), |old(tweens)|)
      ensures fired == SweptCues(old(tweens), old(ElapsedOf(tweens)), dt, |old(tweens)|)
      ensures forall c :: c in fired ==> Known(c, named, recoils)
    {
      fired := SweepTweens(dt);
    }

    /** `SweepTimelines` as the rest of the game sees it: only listed timelines stay, and what fires is known. */
    method StepTimelines(dt: Ms) returns (fired: seq<Cue>)
      requires Valid()
      modifies this, timelines
      ensures Valid() && tweens == old(tweens) && named == old(named) && recoils == old(recoils)
      ensures forall t :: t in timelines ==> t in old(timelines)
      ensures AllWellFormed(old(SnapshotsOf(timelines)))
      ensures timelines == Unfinished(old(timelines), old(SnapshotsOf(timelines)), |old(timelines)|)
      ensures fired == TimelineCues(old(timelines), old(SnapshotsOf(timelines)), dt, |old(timelines)|)
      ensures forall c :: c in fired ==> Known(c, named, recoils)
    {
      fired := SweepTimelines(dt);
    }

    /** `Game.timelines.push(...)` of new timelines, in order. */
    method PushTimelines(ts: seq<Timeline<Cue>>, ghost names: set<Enemies.Enemy>)
      requires Valid() && Distinct(timelines + ts)
      requires forall k :: 0 <= k < |ts| ==> ts[k].Valid() && Planned(ts[k].Snapshot(), named + names, recoils)
      modifies this
      ensures Valid() && timelines == old(timelines) + ts && tweens == old(tweens)
      ensures named == old(named) + names && recoils == old(recoils)
    {
      timelines := timelines + ts;
      named := named + names;
    }

    /** New tweens and timelines pushed in order, as an attack's blows push them. */
    method Enqueue(ts: seq<Tween<Cue>>, tls: seq<Timeline<Cue>>, ghost names: set<Enemies.Enemy>)
      requires Valid() && Distinct(ts) && Distinct(tls)
      requires forall t :: t in ts ==> t !in tweens
      requires forall t :: t in tls ==> t !in timelines
      requires forall k :: 0 <= k < |ts| ==> Heard(ts[k].motion, named + names, recoils)
      requires forall k :: 0 <= k < |tls| ==> tls[k].Valid() && Planned(tls[k].Snapshot(), named + names, recoils)
      modifies this
      ensures Valid() && tweens == old(tweens) + ts && timelines == old(timelines) + tls
      ensures named == old(named) + names && recoils == old(recoils)
    {
      DistinctJoin(tweens, ts);
      DistinctJoin(timelines, tls);
      tweens, timelines := tweens + ts, timelines + tls;
      named := named + names;
    }

    /**
     * The tween sweep of a playing frame: every tween still animating is
     * advanced exactly once and kept, every other one is spliced out; the
     * callbacks fired are known ones.
     */
    method SweepTweens(dt: Ms) returns (fired: seq<Cue>)
      requires Valid()
      modifies this, tweens
      ensures Valid() && timelines == old(timelines) && named == old(named) && recoils == old(recoils)
      ensures tweens == Animating(old(tweens), old(ElapsedOf(tweens)), |old(tweens)|)
      ensures forall j :: 0 <= j < |old(tweens)| ==>
        old(tweens)[j].elapsed == if old(tweens[j].elapsed) < old(tweens)[j].motion.duration
                                  then old(tweens[j].elapsed) + dt else old(tweens[j].elapsed)
      ensures fired == SweptCues(old(tweens), old(ElapsedOf(tweens)), dt, |old(tweens)|)
      ensures forall c :: c in fired ==> Known(c, named, recoils)
    {
      var list := tweens;
      ghost var starts := ElapsedOf(list);
      var kept;
      kept, fired := Timelines.SweepTweens(list, dt);
      DistinctSweepKeepsAnimating(list, starts, dt, |list|);
      AnimatingDistinct(list, starts, |list|);
      forall j | 0 <= j < |list|
        ensures list[j].elapsed == if starts[j] < list[j].motion.duration then starts[j] + dt else starts[j]
      {
        DistinctElapsedAt(list, starts, dt, |list|, j);
      }
      SweptCuesBelong(list, starts, dt, |list|);
      forall k | 0 <= k < |kept|
        ensures Heard(kept[k].motion, named, recoils)
      {
        assert kept[k] in list[..|list|];
      }
      tweens := kept;
    }

    /**
     * The timeline sweep of a playing frame: every unfinished timeline is
     * updated exactly once and kept, every finished one is spliced out; the
     * callbacks fired are known ones.
     */
    method SweepTimelines(dt: Ms) returns (fired: seq<Cue>)
      requires Valid()
      modifies this, timelines
      ensures Valid() && tweens == old(tweens) && named == old(named) && recoils == old(recoils)
      ensures AllWellFormed(old(SnapshotsOf(timelines)))
      ensures timelines == Unfinished(old(timelines), old(SnapshotsOf(timelines)), |old(timelines)|)
      ensures forall j :: 0 <= j < |old(timelines)| ==> old(timelines)[j].Holds(Visit(old(timelines[j].Snapshot()), dt))
      ensures fired == TimelineCues(old(timelines), old(SnapshotsOf(timelines)), dt, |old(timelines)|)
      ensures forall c :: c in fired ==> Known(c, named, recoils)
      ensures forall t :: t in timelines ==> t in old(timelines)
    {
      var list := timelines;
      ghost var starts := SnapshotsOf(list);
      var kept;
      kept, fired := SweepDistinctTimelines(list, dt);
      forall j | 0 <= j < |list|
        ensures Planned(list[j].Snapshot(), named, recoils)
      {
        VisitKeepsPlan(starts[j], dt, named, recoils);
      }
      forall c | c in fired
        ensures Known(c, named, recoils)
      {
        var j :| 0 <= j < |list| && CueOf(starts[j], c);
        PlannedCues(starts[j], c, named, recoils);
      }
      forall k | 0 <= k < |kept|
        ensures kept[k].Valid() && Planned(kept[k].Snapshot(), named, recoils)
      {
        assert kept[k] in list;
        var j :| 0 <= j < |list| && list[j] == kept[k];
      }
      timelines := kept;
    }
  }

  /*
   * Spawning.
   */

  /** The soldiers a spawn point brings: one placed ahead, and one per 500 of its distance, rounded up. */
  function Wave(p: int): (n: int)
    ensures p > 0 ==> n >= 2
  {
    1 + CeilDiv(p, SpawnSpan)
  }

  /** The soldiers a list of spawn points brings. */
  function Waves(ps: seq<int>): (n: int)
  {
    if ps == [] then 0 else Waves(ps[..|ps| - 1]) + Wave(ps[|ps| - 1])
  }

  /** Over a whole game, 28 foot soldiers spawn. */
  lemma SoldiersInAll()
    ensures Waves(SpawnPoints) == 28
  {
    var p := SpawnPoints;
    assert p[..1][..0] == [] && p[..2][..1] == p[..1] && p[..3][..2] == p[..2] && p[..4][..3] == p[..3];
    assert p[..5][..4] == p[..4] && p[..6][..5] == p[..5] && p[..7][..6] == p[..6] && p[..8][..7] == p[..7];
    assert Waves(p[..1]) == 2;
    assert Waves(p[..2]) == 4;
    assert Waves(p[..3]) == 7;
    assert Waves(p[..4]) == 10;
    assert Waves(p[..5]) == 14;
    assert Waves(p[..6]) == 18;
    assert Waves(p[..7]) == 23;
    assert p[..8] == p;
  }

  /*
   * Collisions: `handleCollisions`.
   */

  /**
   * Whether a flame touches the turtle: `inRange` of the two floor
   * rectangles, or, for a flame laid without coordinates, whatever
   * `unplaced` answers for the turtle's rectangle.
   */
  function Touches(flame: Option<Box>, player: Box, inRange: (Box, Box) -> bool, unplaced: Box -> bool): bool
  {
    if flame.Some? then inRange(player, flame.value) else unplaced(player)
  }

  /** The number of flames, given by their rectangles, that touch the turtle. */
  function Hits(flames: seq<Option<Box>>, player: Box, inRange: (Box, Box) -> bool, unplaced: Box -> bool): (n: nat)
    ensures n <= |flames|
  {
    if flames == [] then 0
    else Hits(flames[..|flames| - 1], player, inRange, unplaced) + if Touches(flames[|flames| - 1], player, inRange, unplaced) then 1 else 0
  }

  /** The rectangles of a row's flames, in order. */
  ghost function FlameRects(flames: seq<Flames.Flame>): (r: seq<Option<Box>>)
    reads flames
    ensures |r| == |flames| && forall j :: 0 <= j < |flames| ==> r[j] == flames[j].CollisionRect()
  {
    seq(|flames|, j requires 0 <= j < |flames| reads flames => flames[j].CollisionRect())
  }

  /** The number of flames of the rows of a projectile list, row by row, that touch the turtle. */
  ghost function ShotHits(list: seq<Projectiles.Shot>, embers: set<Flames.Flame>, player: Box,
                          inRange: (Box, Box) -> bool, unplaced: Box -> bool): nat
    requires forall r :: r in Projectiles.Rows(list) ==> forall f :: f in r.flames ==> f in embers
    reads Projectiles.Rows(list), embers
  {
    if list == [] then 0
    else
      var last := list[|list| - 1];
      ShotHits(list[..|list| - 1], embers, player, inRange, unplaced)
      + if last.Blaze? then Hits(FlameRects(last.row.flames), player, inRange, unplaced) else 0
  }

  /** One more entry of the list adds the hits of its flames, if it is a row of flames. */
  lemma ShotHitsStep(list: seq<Projectiles.Shot>, k: nat, embers: set<Flames.Flame>, player: Box,
                     inRange: (Box, Box) -> bool, unplaced: Box -> bool)
    requires k < |list|
    requires forall r :: r in Projectiles.Rows(list) ==> forall f :: f in r.flames ==> f in embers
    ensures Projectiles.Rows(list[..k]) <= Projectiles.Rows(list[..k + 1]) <= Projectiles.Rows(list)
    ensures ShotHits(list[..k + 1], embers, player, inRange, unplaced)
         == ShotHits(list[..k], embers, player, inRange, unplaced)
            + if list[k].Blaze? then Hits(FlameRects(list[k].row.flames), player, inRange, unplaced) else 0
  {
    assert list[..k + 1][..k] == list[..k];
  }

  /** The turtle after n flames in range: `hurt(2)` once for each. */
  function Scorched(s: Turtles.State, n: nat): (r: Turtles.State)
  {
    if n == 0 then s else Turtles.Hurted(Scorched(s, n - 1), FlameDamage)
  }

  /**
   * A frame's flames hurt the turtle at most twice: the first hurt either
   * reels it, after which nothing hurts it, or costs a life and refills
   * its health, which the next flame then hurts. A turtle already reeling
   * or jumping is not hurt at all, and one whose health outlasts the first
   * hurt is hurt exactly once.
   */
  lemma {:induction false} ScorchedAtMostTwice(s: Turtles.State, n: nat)
    ensures n >= 2 ==> Scorched(s, n) == Scorched(s, 2)
    ensures s.isHurt != 0 || s.isJumping != 0 ==> Scorched(s, n) == s
    ensures s.isHurt == 0 && s.isJumping == 0 && s.health > FlameDamage && n >= 1 ==>
      Scorched(s, n) == Turtles.Hurted(s, FlameDamage) && Scorched(s, n).isHurt == Turtles.HurtTime
  {
    if n > 2 {
      ScorchedAtMostTwice(s, n - 1);
    }
    if n > 0 && (s.isHurt != 0 || s.isJumping != 0) {
      ScorchedAtMostTwice(s, n - 1);
    }
    if n > 1 && s.isHurt == 0 && s.isJumping == 0 && s.health > FlameDamage {
      ScorchedAtMostTwice(s, n - 1);
    }
  }

  /** One more flame counts one more hit when it touches. */
  lemma HitsStep(flames: seq<Option<Box>>, k: nat, player: Box, inRange: (Box, Box) -> bool, unplaced: Box -> bool)
    requires k < |flames|
    ensures Hits(flames[..k + 1], player, inRange, unplaced)
         == Hits(flames[..k], player, inRange, unplaced) + if Touches(flames[k], player, inRange, unplaced) then 1 else 0
  {
    assert flames[..k + 1][..k] == flames[..k];
  }

  /**
   * The inner loop of `handleCollisions`: every flame of the row in range
   * hurts the turtle by 2. Hurting never moves the turtle, so its floor
   * rectangle is the same for every flame of the row.
   */
  method ScorchRow(player: Turtles.Turtle, r: Flames.Flames, inRange: (Box, Box) -> bool, unplaced: Box -> bool,
                   ghost start: Turtles.State, ghost before: nat) returns (ghost hits: nat)
    requires player.posX == start.posX && player.posY == start.posY && player.Snapshot() == Scorched(start, before)
    modifies player
    ensures hits == Hits(FlameRects(r.flames), Turtles.Rect(start), inRange, unplaced)
    ensures player.posX == start.posX && player.posY == start.posY && player.Snapshot() == Scorched(start, before + hits)
  {
    ghost var rects := FlameRects(r.flames);
    ghost var n := before;
    var box := player.CollisionRect();
    for k := 0 to |r.flames|
      invariant player.posX == start.posX && player.posY == start.posY
      invariant n == before + Hits(rects[..k], box, inRange, unplaced)
      invariant player.Snapshot() == Scorched(start, n)
    {
      HitsStep(rects, k, box, inRange, unplaced);
      if Touches(r.flames[k].CollisionRect(), box, inRange, unplaced) {
        player.Hurt(FlameDamage);
        n := n + 1;
      }
    }
    assert rects[..|r.flames|] == rects;
    hits := n - before;
  }

  /**
   * The outer loop of `handleCollisions`: the rows of flames in list order,
   * each flame in range hurting the turtle by 2; thrown projectiles pass
   * over its head.
   */
  method ScorchAll(player: Turtles.Turtle, list: seq<Projectiles.Shot>, ghost embers: set<Flames.Flame>,
                   inRange: (Box, Box) -> bool, unplaced: Box -> bool)
    requires forall r :: r in Projectiles.Rows(list) ==> forall f :: f in r.flames ==> f in embers
    modifies player
    ensures player.Snapshot() == Scorched(old(player.Snapshot()), ShotHits(list, embers, Turtles.Rect(old(player.Snapshot())), inRange, unplaced))
  {
    ghost var start := player.Snapshot();
    ghost var n := 0;
    for i := 0 to |list|
      invariant player.posX == start.posX && player.posY == start.posY
      invariant n == ShotHits(list[..i], embers, Turtles.Rect(start), inRange, unplaced)
      invariant player.Snapshot() == Scorched(start, n)
    {
      n := ScorchShot(player, list, i, embers, inRange, unplaced, start, n);
    }
    assert list[..|list|] == list;
  }

  /** The body of `ScorchAll`'s loop: shot i, a row of flames or a bolt, adds its hits to the first i's. */
  method ScorchShot(player: Turtles.Turtle, list: seq<Projectiles.Shot>, i: nat, ghost embers: set<Flames.Flame>,
                    inRange: (Box, Box) -> bool, unplaced: Box -> bool, ghost start: Turtles.State, ghost n: nat)
    returns (ghost n': nat)
    requires i < |list| && forall r :: r in Projectiles.Rows(list) ==> forall f :: f in r.flames ==> f in embers
    requires player.posX == start.posX && player.posY == start.posY && player.Snapshot() == Scorched(start, n)
    requires n == ShotHits(list[..i], embers, Turtles.Rect(start), inRange, unplaced)
    modifies player
    ensures n' == ShotHits(list[..i + 1], embers, Turtles.Rect(start), inRange, unplaced)
    ensures player.posX == start.posX && player.posY == start.posY && player.Snapshot() == Scorched(start, n')
  {
    ShotHitsStep(list, i, embers, Turtles.Rect(start), inRange, unplaced);
    n' := n;
    if list[i].Blaze? {
      var hits := ScorchRow(player, list[i].row, inRange, unplaced, start, n);
      n' := n + hits;
    }
  }

  /*
   * The soldiers' part of `cleanUp`.
   */

  /** The dead flags of a list of soldiers. */
  ghost function DeadFlags(list: seq<Enemies.Enemy>): (r: seq<bool>)
    reads list
    ensures |r| == |list| && forall j :: 0 <= j < |list| ==> r[j] == (list[j].isDead != 0)
  {
    seq(|list|, j requires 0 <= j < |list| reads list => list[j].isDead != 0)
  }

  /** The soldier loop of `cleanUp`: splice out every dead soldier; exactly the living ones stay, in order. */
  method PruneEnemies(list: seq<Enemies.Enemy>) returns (kept: seq<Enemies.Enemy>)
    ensures kept == Kept(list, DeadFlags(list))
  {
    ghost var flags := DeadFlags(list);
    kept := [];
    for k := 0 to |list|
      invariant kept == Kept(list[..k], flags[..k])
    {
      KeptSnoc(list, flags, k);
      if list[k].isDead == 0 {
        kept := kept + [list[k]];
      }
    }
    assert list[..|list|] == list && flags[..|list|] == flags;
  }

  /** Exactly the living soldiers survive `cleanUp`, each once. */
  lemma LivingSurvive(list: seq<Enemies.Enemy>)
    requires Distinct(list)
    ensures forall e :: e in Kept(list, DeadFlags(list)) <==> e in list && e.isDead == 0
    ensures Distinct(Kept(list, DeadFlags(list)))
  {
    forall e
      ensures e in Kept(list, DeadFlags(list)) <==> e in list && e.isDead == 0
    {
      KeptIff(list, DeadFlags(list), e);
    }
    KeptDistinct(list, DeadFlags(list));
  }

  /*
   * The game.
   */

  /** The game's screens: `state` in main.js. */
  datatype Screen = Start | Playing | GameEnding | End | FinalMessage | Paused

  /** An entry of the frame's entity list: a foot soldier, a projectile or row, an explosion, the turtle or the boss. */
  datatype Entity = Soldier(e: Enemies.Enemy) | Missile(shot: Projectiles.Shot) | Burst(b: Explosions.Explosion) | Hero | Chief

  /** The keys held during a frame. */
  datatype Keys = Keys(left: bool, right: bool, up: bool, down: bool, space: bool, x: bool)

  /** No timeline is on both lists. */
  ghost predicate Apart(a: seq<Timeline<Cue>>, b: seq<Timeline<Cue>>)
  {
    forall t :: t in a ==> t !in b
  }

  /*
   * Input.
   */

  /** The turtle after the arrow keys: left, right, up and down, each held one pressed in that order. */
  function Steered(s: Turtles.State, keys: Keys): (r: Turtles.State)
  {
    var s1 := if keys.left then Turtles.Pressed(s, s.moving.(left := true)) else s;
    var s2 := if keys.right then Turtles.Pressed(s1, s1.moving.(right := true)) else s1;
    var s3 := if keys.up then Turtles.Pressed(s2, s2.moving.(up := true)) else s2;
    if keys.down then Turtles.Pressed(s3, s3.moving.(down := true)) else s3
  }

  /**
   * The order of the presses does not matter: the turtle ends up with the
   * flags it had and those of the keys held, heading and facing as they
   * direct it.
   */
  lemma SteeringFollowsKeys(s: Turtles.State, keys: Keys)
    requires keys.left || keys.right || keys.up || keys.down
    ensures var m := s.moving;
      var d := Turtles.Directed(Turtles.Moving(m.up || keys.up, m.down || keys.down, m.left || keys.left, m.right || keys.right, m.dir), s.facing);
      Steered(s, keys) == s.(moving := d.0, facing := d.1)
  {
  }

  /** The turtle after `handleInput`: the arrows, then SPACE (jump, or release), then X (attack, or release). */
  function Handled(s: Turtles.State, keys: Keys): (r: Turtles.State)
  {
    var s2 := Leapt(s, keys);
    if keys.x then Turtles.Attacked(s2).0 else s2.(allowAttack := true)
  }

  /** The turtle after the arrows and SPACE. */
  function Leapt(s: Turtles.State, keys: Keys): (r: Turtles.State)
  {
    var s1 := Steered(s, keys);
    if keys.space then Turtles.Jumped(s1).0 else s1.(allowJumping := true)
  }

  /**
   * Holding SPACE jumps once: a jump disarms the key, a held key leaves it
   * disarmed and starts no jump, and only a frame without SPACE re-arms it.
   */
  lemma HeldSpaceJumpsOnce(s: Turtles.State, keys: Keys)
    ensures keys.space && Turtles.Jumped(Steered(s, keys)).1 ==> !Handled(s, keys).allowJumping
    ensures keys.space && !s.allowJumping ==> !Turtles.Jumped(Steered(s, keys)).1 && !Handled(s, keys).allowJumping
    ensures keys.space && Handled(s, keys).allowJumping ==> s.allowJumping
    ensures !keys.space ==> Handled(s, keys).allowJumping
  {
  }

  /**
   * The turtle's `attack`, whose blows `Turtles.Turtle.Attack` states,
   * seen from the game: the tweens and timelines it starts are new, listed
   * once each, and call back only to the soldiers struck.
   */
  method Assault(player: Turtles.Turtle, enemies: seq<Enemies.Enemy>, boss: Option<Shredders.Shredder>,
                 inRange: (Box, Box) -> bool, ghost named: set<Enemies.Enemy>, ghost recoils: bool)
    returns (ts: seq<Tween<Cue>>, tls: seq<Timeline<Cue>>)
    requires Distinct(enemies) && forall e :: e in enemies ==> e in named
    modifies player, enemies, if boss.Some? then {boss.value} else {}
    ensures player.Snapshot() == Turtles.Attacked(old(player.Snapshot())).0
    ensures !Turtles.Attacked(old(player.Snapshot())).1 ==>
      ts == [] && tls == []
    ensures boss.Some? ==> boss.value.tweens == old(boss.value.tweens) && boss.value.timelines == old(boss.value.timelines)
    ensures forall t :: t in ts ==> fresh(t)
    ensures forall t :: t in tls ==> fresh(t)
    ensures Distinct(ts) && Distinct(tls)
    ensures forall k :: 0 <= k < |ts| ==> Heard(ts[k].motion, named, recoils)
    ensures forall k :: 0 <= k < |tls| ==> tls[k].Valid() && Planned(tls[k].Snapshot(), named, recoils)
  {
    ghost var starts := Enemies.StatesOf(enemies);
    ghost var rect := Turtles.Rect(player.Snapshot());
    ts, tls := player.Attack(enemies, boss, inRange);
    if Turtles.Attacked(old(player.Snapshot())).1 {
      StartedKnown(enemies, starts, rect, inRange, ts, tls, named, recoils);
    }
  }

  /** `setupGame`'s parts: the level at its start, the turtle at (30, 195), and empty lists. */
  method SetupParts(foregroundWidth: nat)
    returns (level: Levels.Level, player: Turtles.Turtle, effects: Effects, schedule: Schedule)
    ensures fresh(level) && fresh(player) && fresh(effects) && fresh(schedule)
    ensures level.Valid() && level.Snapshot() == Levels.Start && player.Snapshot() == Turtles.Fresh(PlayerX, PlayerY)
    ensures effects.Valid() && effects.explosions == [] && effects.projectiles == []
    ensures effects.blasts == {} && effects.bolts == {} && effects.rows == {} && effects.embers == {}
    ensures schedule.Valid() && schedule.tweens == [] && schedule.timelines == [] && schedule.named == {} && !schedule.recoils
  {
    level := new Levels.Level(foregroundWidth);
    player := new Turtles.Turtle(PlayerX, PlayerY);
    effects := new Effects();
    schedule := new Schedule();
  }

  /** The arrow keys of `handleInput`. */
  method Steer(player: Turtles.Turtle, keys: Keys)
    modifies player
    ensures player.Snapshot() == Steered(old(player.Snapshot()), keys)
  {
    if keys.left {
      player.MoveLeft();
    }
    if keys.right {
      player.MoveRight();
    }
    if keys.up {
      player.MoveUp();
    }
    if keys.down {
      player.MoveDown();
    }
  }

  /** SPACE in `handleInput`: a jump, whose timeline joins the game's, or, with the key up, re-arming the jump. */
  method JumpKey(player: Turtles.Turtle, schedule: Schedule, space: bool)
    requires schedule.Valid()
    modifies player, schedule
    ensures schedule.Valid()
    ensures player.Snapshot() == if space then Turtles.Jumped(old(player.Snapshot())).0 else old(player.Snapshot()).(allowJumping := true)
    ensures schedule.tweens == old(schedule.tweens) && schedule.named == old(schedule.named) && schedule.recoils == old(schedule.recoils)
    ensures !(space && Turtles.Jumped(old(player.Snapshot())).1) ==> schedule.timelines == old(schedule.timelines)
    ensures space && Turtles.Jumped(old(player.Snapshot())).1 ==>
      && |schedule.timelines| == |old(schedule.timelines)| + 1
      && schedule.timelines[..|old(schedule.timelines)|] == old(schedule.timelines)
      && var tl := schedule.timelines[|old(schedule.timelines)|]; fresh(tl) && tl.Snapshot() == Turtles.JumpTrack
  {
    if space {
      var tl := player.Jump();
      if tl.Some? {
        schedule.PushTimelines([tl.value], {});
      }
    }
    if !space {
      player.allowJumping := true;
    }
  }

  /**
   * X in `handleInput`: an attack, whose tweens and timelines join the
   * game's, or, with the key up, re-arming the attack.
   */
  method AttackKey(player: Turtles.Turtle, enemies: seq<Enemies.Enemy>, boss: Option<Shredders.Shredder>, schedule: Schedule,
                   x: bool, inRange: (Box, Box) -> bool) returns (ts: seq<Tween<Cue>>, tls: seq<Timeline<Cue>>)
    requires schedule.Valid() && Distinct(enemies)
    modifies player, enemies, if boss.Some? then {boss.value} else {}, schedule
    ensures schedule.Valid() && schedule.recoils == old(schedule.recoils)
    ensures schedule.named == if x then old(schedule.named) + set e | e in enemies else old(schedule.named)
    ensures schedule.tweens == old(schedule.tweens) + ts && schedule.timelines == old(schedule.timelines) + tls
    ensures player.Snapshot() == if x then Turtles.Attacked(old(player.Snapshot())).0 else old(player.Snapshot()).(allowAttack := true)
    ensures !(x && Turtles.Attacked(old(player.Snapshot())).1) ==> ts == [] && tls == []
    ensures boss.Some? ==> boss.value.tweens == old(boss.value.tweens) && boss.value.timelines == old(boss.value.timelines)
    ensures forall t :: t in ts ==> fresh(t)
    ensures forall t :: t in tls ==> fresh(t)
  {
    if x {
      ghost var names := set e | e in enemies;
      ts, tls := Assault(player, enemies, boss, inRange, schedule.named + names, schedule.recoils);
      schedule.Enqueue(ts, tls, names);
    } else {
      ts, tls := [], [];
      player.ResetAttack();
    }
  }

  /**
   * `handleInput` over the game's parts: the turtle ends up as `Handled`
   * states; what a jump or an attack starts joins the game's tweens and
   * timelines after what was queued, and calls back only to soldiers of
   * `foes`.
   */
  method Handle(player: Turtles.Turtle, enemies: seq<Enemies.Enemy>, boss: Option<Shredders.Shredder>, schedule: Schedule,
                keys: Keys, inRange: (Box, Box) -> bool, ghost foes: set<Enemies.Enemy>)
    requires schedule.Valid() && Distinct(enemies) && schedule.named <= foes && forall e :: e in enemies ==> e in foes
    requires boss.Some? ==> boss.value.Valid() && Apart(boss.value.timelines, schedule.timelines)
    modifies player, enemies, if boss.Some? then {boss.value} else {}, schedule
    ensures schedule.Valid() && schedule.recoils == old(schedule.recoils) && schedule.named <= foes
    ensures boss.Some? ==> boss.value.Valid() && Apart(boss.value.timelines, schedule.timelines)
    ensures player.Snapshot() == Handled(old(player.Snapshot()), keys)
    ensures Shredders.Extends(old(schedule.tweens), schedule.tweens) && Shredders.Extends(old(schedule.timelines), schedule.timelines)
    ensures schedule.Grew()
    ensures boss.Some? ==> boss.value.tweens == old(boss.value.tweens) && boss.value.timelines == old(boss.value.timelines)
  {
    SteerAndJump(player, schedule, keys);
    var ts, tls := AttackKey(player, enemies, boss, schedule, keys.x, inRange);
  }

  /** The arrows and SPACE of `handleInput`. */
  method SteerAndJump(player: Turtles.Turtle, schedule: Schedule, keys: Keys)
    requires schedule.Valid()
    modifies player, schedule
    ensures schedule.Valid() && schedule.tweens == old(schedule.tweens)
    ensures schedule.named == old(schedule.named) && schedule.recoils == old(schedule.recoils)
    ensures player.Snapshot() == Leapt(old(player.Snapshot()), keys)
    ensures Shredders.Extends(old(schedule.timelines), schedule.timelines)
    ensures forall t :: t in schedule.timelines ==> t in old(schedule.timelines) || fresh(t)
  {
    Steer(player, keys);
    JumpKey(player, schedule, keys.space);
    forall t | t in schedule.timelines
      ensures t in old(schedule.timelines) || fresh(t)
    {
      var k :| 0 <= k < |schedule.timelines| && schedule.timelines[k] == t;
      if k < |old(schedule.timelines)| {
        assert t == old(schedule.timelines)[k];
      }
    }
  }

  /** The effects' part of `cleanUp`: the projectiles, then, unless a row of flames halted the frame, the explosions. */
  method Tidy(effects: Effects) returns (halted: bool)
    requires effects.Valid()
    modifies effects, effects.bolts
    ensures effects.Valid()
    ensures effects.blasts == old(effects.blasts) && effects.bolts == old(effects.bolts) && effects.rows == old(effects.rows)
    ensures effects.embers == old(effects.embers)
    ensures var starts := old(Projectiles.StatesOf(effects.projectiles)); var k := FirstHalt(starts);
      && halted == (k < |starts|)
      && effects.projectiles == Kept(old(effects.projectiles)[..k], GoneFlags(starts)[..k]) + old(effects.projectiles)[k..]
    ensures effects.explosions == if halted then old(effects.explosions) else Kept(old(effects.explosions), old(FinishedFlags(effects.explosions)))
  {
    ghost var flags := FinishedFlags(effects.explosions);
    halted := effects.PruneShots();
    if !halted {
      assert FinishedFlags(effects.explosions) == flags;
      effects.PruneBlasts();
    }
  }

  /** The end of `cleanUp`: once the boss has spawned and is dead, the turtle's victory pose, whose tween joins the queue. */
  method Conclude(player: Turtles.Turtle, schedule: Schedule, ended: bool)
    requires schedule.Valid()
    modifies player, schedule
    ensures schedule.Valid() && schedule.Grew() && schedule.named == old(schedule.named) && schedule.recoils == old(schedule.recoils)
    ensures schedule.timelines == old(schedule.timelines)
    ensures if ended
      then player.Snapshot() == Turtles.Ended(old(player.Snapshot()))
        && |schedule.tweens| == |old(schedule.tweens)| + 1 && schedule.tweens[..|old(schedule.tweens)|] == old(schedule.tweens)
        && schedule.tweens[|old(schedule.tweens)|].motion == Turtles.Victory
      else player.Snapshot() == old(player.Snapshot()) && schedule.tweens == old(schedule.tweens)
  {
    if ended {
      var t := player.End();
      schedule.PushTweens([t], {}, false);
    }
  }

  /** The rest of `cleanUp` once the soldiers are pruned: the effects, then the ending once the boss is dead. */
  method Close(effects: Effects, player: Turtles.Turtle, schedule: Schedule, ended: bool) returns (halted: bool)
    requires effects.Valid() && schedule.Valid()
    modifies effects, effects.bolts, player, schedule
    ensures effects.Valid() && schedule.Valid() && schedule.named == old(schedule.named) && schedule.recoils == old(schedule.recoils)
    ensures effects.blasts == old(effects.blasts) && effects.bolts == old(effects.bolts) && effects.rows == old(effects.rows)
    ensures effects.embers == old(effects.embers) && schedule.Grew()
    ensures var starts := old(Projectiles.StatesOf(effects.projectiles)); var k := FirstHalt(starts);
      && halted == (k < |starts|)
      && effects.projectiles == Kept(old(effects.projectiles)[..k], GoneFlags(starts)[..k]) + old(effects.projectiles)[k..]
    ensures effects.explosions == if halted then old(effects.explosions) else Kept(old(effects.explosions), old(FinishedFlags(effects.explosions)))
    ensures if !halted && ended
      then player.Snapshot() == Turtles.Ended(old(player.Snapshot()))
        && |schedule.tweens| == |old(schedule.tweens)| + 1 && schedule.tweens[..|old(schedule.tweens)|] == old(schedule.tweens)
        && schedule.tweens[|old(schedule.tweens)|].motion == Turtles.Victory
      else player.Snapshot() == old(player.Snapshot()) && schedule.tweens == old(schedule.tweens)
    ensures schedule.timelines == old(schedule.timelines)
  {
    halted := Tidy(effects);
    assert schedule.Valid() && unchanged(player) && unchanged(schedule);
    if !halted {
      Conclude(player, schedule, ended);
    }
  }

  /*
   * The entities' own steps, seen from the parts of the game they touch.
   */

  /** A soldier's `update`, whose blow, when it lands, hurts the turtle by the soldier's damage of 2. */
  method Strike(e: Enemies.Enemy, player: Turtles.Turtle, dice: Dice, dt: Ms, inRange: (Box, Box) -> bool) returns (strike: bool)
    modifies e, dice, player
    ensures (e.Snapshot(), dice.used, strike) ==
      Enemies.AfterUpdate(old(e.Snapshot()), old(player.CollisionRect()), inRange, dt, dice.draws, old(dice.used))
    ensures player.Snapshot() == if strike then Turtles.Hurted(old(player.Snapshot()), Enemies.Damage) else old(player.Snapshot())
  {
    strike := e.Update(dt, player.CollisionRect(), inRange, dice);
    if strike {
      player.Hurt(e.damage);
    }
  }

  /**
   * The turtle's `update`; pushed against its right bound while the level
   * can scroll, it scrolls the level and everything on it, and the distance
   * travelled grows.
   */
  method Walk(player: Turtles.Turtle, level: Levels.Level, effects: Effects, enemies: seq<Enemies.Enemy>, ghost foes: set<Enemies.Enemy>,
              distance: int, dt: Ms) returns (scroll: bool, distance': int)
    requires effects.Valid() && level.Valid() && Distinct(enemies) && forall e :: e in enemies ==> e in foes
    modifies player, level, foes, effects.blasts, effects.bolts, effects.rows
    ensures effects.Valid() && level.Valid()
    ensures (player.Snapshot(), scroll) == Turtles.AfterUpdate(old(player.Snapshot()), dt, old(level.canScroll))
    ensures level.Snapshot() == if scroll then Levels.Scrolled(old(level.Snapshot()), level.width) else old(level.Snapshot())
    ensures distance' == if scroll then Levels.Travelled(distance, old(level.canScroll)) else distance
    ensures Enemies.StatesOf(enemies)
            == if scroll then Levels.EnemiesShifted(old(Enemies.StatesOf(enemies)), Levels.Speed as real, |enemies|)
               else old(Enemies.StatesOf(enemies))
    ensures Levels.BlastsOf(effects.explosions)
            == if scroll then Levels.ExplosionsShifted(old(Levels.BlastsOf(effects.explosions)), Levels.Speed, |effects.explosions|)
               else old(Levels.BlastsOf(effects.explosions))
    ensures Projectiles.StatesOf(effects.projectiles)
            == if scroll then Levels.ShotsShifted(old(Projectiles.StatesOf(effects.projectiles)), Levels.Speed as real, |effects.projectiles|)
               else old(Projectiles.StatesOf(effects.projectiles))
  {
    scroll := player.Update(dt, level.canScroll);
    distance' := distance;
    if scroll {
      distance' := effects.Scroll(level, distance, enemies);
    }
  }

  /** `Walk` as the rest of the game sees it: the level and the effects stay sound, and the distance grows by a scroll. */
  method Tread(player: Turtles.Turtle, level: Levels.Level, effects: Effects, enemies: seq<Enemies.Enemy>, ghost foes: set<Enemies.Enemy>,
               distance: int, dt: Ms) returns (scroll: bool, distance': int)
    requires effects.Valid() && level.Valid() && Distinct(enemies) && forall e :: e in enemies ==> e in foes
    modifies player, level, foes, effects.blasts, effects.bolts, effects.rows
    ensures effects.Valid() && level.Valid()
    ensures distance' == if scroll then Levels.Travelled(distance, old(level.canScroll)) else distance
  {
    scroll, distance' := Walk(player, level, effects, enemies, foes, distance, dt);
  }

  /** The boss's attack joins the projectiles: a thrown bolt by `addProjectile`, a row of flames directly. */
  method Loose(effects: Effects, launch: Option<Shredders.Launch>)
    requires effects.Valid()
    modifies effects
    ensures effects.Valid() && effects.Grew() && effects.explosions == old(effects.explosions)
    ensures launch.None? ==> effects.projectiles == old(effects.projectiles)
    ensures launch.Some? ==>
      |effects.projectiles| == |old(effects.projectiles)| + 1 && effects.projectiles[..|old(effects.projectiles)|] == old(effects.projectiles)
    ensures launch.Some? && launch.value.Bolt? ==> var s := effects.projectiles[|old(effects.projectiles)|];
      s.Bolt? && s.bolt.Snapshot() == Projectiles.Flight(launch.value.x, launch.value.y, 1) && s.bolt.dir == launch.value.dir
    ensures launch.Some? && launch.value.Flamer? ==> var s := effects.projectiles[|old(effects.projectiles)|];
      s.Blaze? && s.row.x == launch.value.x && s.row.y == launch.value.y && s.row.dir == launch.value.dir
  {
    match launch
    case None =>
    case Some(Bolt(x, y, dir)) =>
      effects.AddProjectile(x, y, dir);
    case Some(Flamer(x, y, dir)) =>
      effects.AddFlames(x, y, dir);
  }

  /**
   * What the boss's `update` hands the game: its attack joins the
   * projectiles (`Loose`), and the recoil tween that ends its hurt joins the
   * game's tweens and calls back the boss when it ends.
   */
  method Deliver(effects: Effects, schedule: Schedule, launch: Option<Shredders.Launch>, recoil: Option<Tween<Cue>>)
    requires effects.Valid() && schedule.Valid()
    requires recoil.Some? ==> recoil.value !in schedule.tweens && recoil.value.motion.onComplete.Some?
                              && recoil.value.motion.onComplete.value.BossRecoiled?
    modifies effects, schedule
    ensures effects.Valid() && schedule.Valid()
    ensures effects.Grew() && effects.explosions == old(effects.explosions)
    ensures |effects.projectiles| == |old(effects.projectiles)| + (if launch.Some? then 1 else 0)
    ensures schedule.timelines == old(schedule.timelines) && schedule.named == old(schedule.named)
    ensures schedule.recoils == (old(schedule.recoils) || recoil.Some?)
    ensures schedule.tweens == old(schedule.tweens) + if recoil.Some? then [recoil.value] else []
  {
    Loose(effects, launch);
    if recoil.Some? {
      schedule.PushTweens([recoil.value], {}, true);
    }
  }

  /**
   * The boss's `update`, as `Shredders.Shredder.Update` states it, with what
   * it hands the game delivered (`Deliver`).
   */
  method Rampage(boss: Shredders.Shredder, effects: Effects, schedule: Schedule, dice: Dice, player: Box, dt: Ms)
    returns (launch: Option<Shredders.Launch>, recoiled: bool, ghost acted: Shredders.State,
             ghost acting: seq<Timeline<Cue>>, ghost tracks: seq<Track<Cue>>, ghost fired: seq<Cue>)
    requires boss.Valid() && effects.Valid() && schedule.Valid() && Apart(boss.timelines, schedule.timelines)
    modifies boss, boss.tweens, boss.timelines, dice, effects, schedule
    ensures boss.Valid() && effects.Valid() && schedule.Valid() && Apart(boss.timelines, schedule.timelines)
    ensures var r := Shredders.Acted(Shredders.Faced(old(boss.Snapshot()), player), dice.draws, old(dice.used));
      acted == r.0 && launch == r.2 && recoiled == r.3
    ensures Shredders.ActedLists(old(boss.timelines), old(SnapshotsOf(boss.timelines)), acting, tracks,
                                 Shredders.EndsAttack(old(boss.Snapshot())), Shredders.Landing(dice.draws, old(dice.used)))
    ensures AllWellFormed(tracks)
    ensures fired == SweptCues(old(boss.tweens), old(ElapsedOf(boss.tweens)), dt, |old(boss.tweens)|)
                     + TimelineCues(acting, tracks, dt, |acting|)
    ensures boss.tweens == KeptTweens(old(boss.tweens), old(ElapsedOf(boss.tweens)), dt, |old(boss.tweens)|)
    ensures var kept := KeptTimelines(acting, tracks, dt, |acting|);
      && Shredders.Extends(kept, boss.timelines)
      && SnapshotsOf(boss.timelines[|kept|..])
         == Shredders.HeardFloats(fired, dice.draws, Shredders.Acted(Shredders.Faced(old(boss.Snapshot()), player), dice.draws, old(dice.used)).1)
    ensures var h := Shredders.HeardAll(acted, fired, Shredders.Acted(Shredders.Faced(old(boss.Snapshot()), player), dice.draws, old(dice.used)).1);
      boss.Snapshot() == Shredders.Animated(h.0, dt) && dice.used == h.1
    ensures effects.Grew() && effects.explosions == old(effects.explosions)
    ensures |effects.projectiles| == |old(effects.projectiles)| + (if launch.Some? then 1 else 0)
    ensures schedule.timelines == old(schedule.timelines) && schedule.named == old(schedule.named)
    ensures schedule.recoils == (old(schedule.recoils) || recoiled)
    ensures |schedule.tweens| == |old(schedule.tweens)| + (if recoiled then 1 else 0) && schedule.Grew()
    ensures schedule.tweens[..|old(schedule.tweens)|] == old(schedule.tweens)
    ensures recoiled ==> var t := schedule.tweens[|old(schedule.tweens)|];
      && fresh(t) && t.elapsed == 0.0
      && t.motion == Shredders.Recoil(Shredders.RecoilSpot(Shredders.Faced(old(boss.Snapshot()), player), dice.draws(old(dice.used))))
    ensures forall t :: t in boss.timelines ==> t in old(boss.timelines) || fresh(t)
    ensures forall t :: t in boss.tweens ==> t in old(boss.tweens)
  {
    var recoil;
    launch, recoil, acted, acting, tracks, fired := boss.Update(dt, player, dice);
    forall k | 0 <= k < |schedule.timelines|
      ensures unchanged(schedule.timelines[k])
    {
      assert schedule.timelines[k] !in old(boss.timelines);
    }
    recoiled := recoil.Some?;
    assert recoil.Some? ==> recoil.value !in old(schedule.tweens);
    Deliver(effects, schedule, launch, recoil);
  }

  /** The soldiers' entries of the entity list. */
  function Soldiers(enemies: seq<Enemies.Enemy>): (r: seq<Entity>)
    ensures |r| == |enemies| && forall i :: 0 <= i < |enemies| ==> r[i] == Soldier(enemies[i])
  {
    seq(|enemies|, i requires 0 <= i < |enemies| => Soldier(enemies[i]))
  }

  /** The projectiles' entries of the entity list. */
  function Missiles(shots: seq<Projectiles.Shot>): (r: seq<Entity>)
    ensures |r| == |shots| && forall i :: 0 <= i < |shots| ==> r[i] == Missile(shots[i])
  {
    seq(|shots|, i requires 0 <= i < |shots| => Missile(shots[i]))
  }

  /** The explosions' entries of the entity list. */
  function Bursts(explosions: seq<Explosions.Explosion>): (r: seq<Entity>)
    ensures |r| == |explosions| && forall i :: 0 <= i < |explosions| ==> r[i] == Burst(explosions[i])
  {
    seq(|explosions|, i requires 0 <= i < |explosions| => Burst(explosions[i]))
  }

  /** The entity list of a playing frame before sorting: soldiers, projectiles, explosions, the turtle, then the boss once spawned. */
  function Gathered(enemies: seq<Enemies.Enemy>, shots: seq<Projectiles.Shot>, explosions: seq<Explosions.Explosion>,
                    bossSpawned: bool): (r: seq<Entity>)
  {
    Soldiers(enemies) + Missiles(shots) + Bursts(explosions) + [Hero] + if bossSpawned then [Chief] else []
  }

  /** Every soldier, projectile and explosion is gathered once, in list order, then the turtle, then the boss once spawned. */
  lemma GatheredHolds(enemies: seq<Enemies.Enemy>, shots: seq<Projectiles.Shot>, explosions: seq<Explosions.Explosion>, bossSpawned: bool)
    ensures var r := Gathered(enemies, shots, explosions, bossSpawned);
      && |r| == |enemies| + |shots| + |explosions| + 1 + (if bossSpawned then 1 else 0)
      && forall x :: x in r <==>
        || (x.Soldier? && x.e in enemies) || (x.Missile? && x.shot in shots) || (x.Burst? && x.b in explosions)
        || x.Hero? || (x.Chief? && bossSpawned)
  {
    var r := Gathered(enemies, shots, explosions, bossSpawned);
    forall x
      ensures x in r <==>
        || (x.Soldier? && x.e in enemies) || (x.Missile? && x.shot in shots) || (x.Burst? && x.b in explosions)
        || x.Hero? || (x.Chief? && bossSpawned)
    {
      if x.Soldier? && x.e in enemies {
        var i :| 0 <= i < |enemies| && enemies[i] == x.e;
        assert r[i] == x;
      } else if x.Missile? && x.shot in shots {
        var i :| 0 <= i < |shots| && shots[i] == x.shot;
        assert r[|enemies| + i] == x;
      } else if x.Burst? && x.b in explosions {
        var i :| 0 <= i < |explosions| && explosions[i] == x.b;
        assert r[|enemies| + |shots| + i] == x;
      } else if x.Hero? {
        assert r[|enemies| + |shots| + |explosions|] == x;
      } else if x.Chief? && bossSpawned {
        assert r[|r| - 1] == x;
      }
    }
  }

  /**
   * An entity of the frame's list is one the game holds: a spawned soldier,
   * a held projectile, row or explosion, the turtle, or the boss once
   * spawned.
   */
  ghost predicate Held(x: Entity, foes: set<Enemies.Enemy>, bolts: set<Projectiles.Projectile>, rows: set<Flames.Flames>,
                       blasts: set<Explosions.Explosion>, bossSpawned: bool)
  {
    match x
    case Soldier(e) => e in foes
    case Missile(s) => if s.Bolt? then s.bolt in bolts else s.row in rows
    case Burst(b) => b in blasts
    case Hero => true
    case Chief => bossSpawned
  }

  /*
   * The callbacks of the game's tweens and timelines.
   */

  /** The soldier a cue acts on, if any. */
  function Subject(c: Cue): set<object>
  {
    if Scene.OnEnemy(c) then {c.enemy} else {}
  }

  /**
   * A soldier's callbacks: the end of the hurt pause, of the fall-away
   * tween, and of the death timeline, which leaves an explosion at the
   * soldier's final middle and then kills it.
   */
  method Answer(c: Cue, effects: Effects)
    requires Scene.OnEnemy(c) && effects.Valid()
    modifies c.enemy, effects
    ensures effects.Valid() && effects.Grew() && effects.projectiles == old(effects.projectiles)
    ensures c.EnemyRecovered? ==>
      c.enemy.Snapshot() == old(c.enemy.Snapshot()).(posX := c.pinX, isHurt := 0) && effects.explosions == old(effects.explosions)
    ensures c.EnemyFell? ==>
      c.enemy.Snapshot() == old(c.enemy.Snapshot()).(posX := c.fallX, sequence := Enemies.Dead) && effects.explosions == old(effects.explosions)
    ensures c.EnemyDied? ==>
      && c.enemy.Snapshot() == Enemies.AfterDie(old(c.enemy.Snapshot()))
      && |effects.explosions| == |old(effects.explosions)| + 1 && effects.explosions[..|old(effects.explosions)|] == old(effects.explosions)
      && var b := effects.explosions[|old(effects.explosions)|];
        fresh(b) && b.x == Explosions.ToInt32(c.explosionX) && b.y == Explosions.ToInt32(old(c.enemy.CenterPoint().y))
  {
    match c
    case EnemyRecovered(e, x) =>
      e.Recover(x);
    case EnemyFell(e, x) =>
      e.Fall(x);
    case EnemyDied(e, x) =>
      effects.AddExplosion(x, e.CenterPoint().y);
      e.Die();
  }

  /** Callbacks known to a schedule are known to a game whose soldiers include the schedule's. */
  lemma Widened(cues: seq<Cue>, named: set<Enemies.Enemy>, recoils: bool, foes: set<Enemies.Enemy>, bossSpawned: bool)
    requires forall c :: c in cues ==> Known(c, named, recoils)
    requires named <= foes && (recoils ==> bossSpawned)
    ensures forall c :: c in cues ==> Known(c, foes, bossSpawned)
  {
    forall c | c in cues
      ensures Known(c, foes, bossSpawned)
    {
      assert Known(c, named, recoils);
    }
  }

  /** How many of a list of cues are soldiers' deaths, each of which leaves an explosion. */
  function Deaths(cues: seq<Cue>): (n: nat)
    ensures n <= |cues|
  {
    if cues == [] then 0 else Deaths(cues[..|cues| - 1]) + if cues[|cues| - 1].EnemyDied? then 1 else 0
  }

  /*
   * The actors.
   */

  /** The first soldier of a wave, `spawn(width + 42, y)`: just right of the screen, on a depth drawn at `u`. */
  ghost function Vanguard(draws: nat -> Unit, u: nat): Enemies.State
  {
    Enemies.Fresh(AheadX, Round(125.0 + draws(u) as real * 120.0) as real)
  }

  /** A soldier of `spawn()`, from the draws at `u`: just off the left or the right edge, on a random depth. */
  ghost function Recruit(draws: nat -> Unit, u: nat): Enemies.State
  {
    var variance := 40.0 + draws(u + 1) as real * 15.0;
    var px := Round(if draws(u) > 0.5 then -variance else ScreenWidth as real + variance);
    Enemies.Fresh(px as real, Round(112.0 + draws(u + 2) as real * 112.0) as real)
  }

  /** Soldiers of `spawn()`, each from the draws after the last one's, from the draws at `u`. */
  ghost predicate Levied(rs: seq<Enemies.Enemy>, draws: nat -> Unit, u: nat)
    reads rs
  {
    forall j :: 0 <= j < |rs| ==> rs[j].Snapshot() == Recruit(draws, u + 3 * j)
  }

  /**
   * The soldiers of one spawn point, from the draws at `u`: one ahead of
   * the turtle, then `count` at random places.
   */
  ghost predicate Mustered(troop: seq<Enemies.Enemy>, count: nat, draws: nat -> Unit, u: nat)
    reads troop
  {
    |troop| == 1 + count && troop[0].Snapshot() == Vanguard(draws, u) && Levied(troop[1..], draws, u + 1)
  }

  /** The loop of `spawnEnemies`: `count` new soldiers at random places, each from the draws after the last one's. */
  method Levy(count: nat, dice: Dice) returns (rs: seq<Enemies.Enemy>)
    modifies dice
    ensures |rs| == count && Distinct(rs) && forall e :: e in rs ==> fresh(e)
    ensures Levied(rs, dice.draws, old(dice.used)) && dice.used == old(dice.used) + 3 * count
  {
    rs := [];
    for i := 0 to count
      invariant |rs| == i && Distinct(rs) && forall e :: e in rs ==> fresh(e)
      invariant forall j :: 0 <= j < i ==> rs[j].Snapshot() == Recruit(dice.draws, old(dice.used) + 3 * j)
      invariant dice.used == old(dice.used) + 3 * i
    {
      var e := Enemies.Spawn(0.0, 0.0, dice);
      rs := rs + [e];
    }
  }

  /** The soldiers of one spawn point, all new: one ahead of the turtle, then the loop's. */
  method Muster(count: nat, dice: Dice) returns (troop: seq<Enemies.Enemy>)
    modifies dice
    ensures Mustered(troop, count, dice.draws, old(dice.used)) && Distinct(troop) && forall e :: e in troop ==> fresh(e)
    ensures dice.used == old(dice.used) + 1 + 3 * count
  {
    var r := dice.Roll();
    var ahead := Enemies.Spawn(AheadX, Round(125.0 + r as real * 120.0) as real, dice);
    ghost var first := ahead.Snapshot();
    assert first == Vanguard(dice.draws, old(dice.used));
    var rs := Levy(count, dice);
    assert ahead.Snapshot() == first;
    assert ahead !in rs;
    troop := [ahead] + rs;
    assert troop[1..] == rs;
  }

  /** A list of distinct objects holds as many as it is long. */
  lemma {:induction false} DistinctCount<T>(s: seq<T>)
    requires Distinct(s)
    ensures |set x | x in s| == |s|
  {
    if s != [] {
      var t := s[..|s| - 1];
      assert Distinct(t);
      DistinctCount(t);
      assert (set x | x in s) == (set x | x in t) + {s[|s| - 1]};
    }
  }

  /** The soldiers a list of spawn points brings grow point by point. */
  lemma WavesStep(passed: nat)
    requires passed < |SpawnPoints|
    ensures Waves(SpawnPoints[..passed + 1]) == Waves(SpawnPoints[..passed]) + Wave(SpawnPoints[passed])
  {
    assert SpawnPoints[..passed + 1][..passed] == SpawnPoints[..passed];
  }

  /**
   * The actors on stage: the foot soldiers (`enemies`), the boss once
   * spawned (`boss`, `bossSpawned`), the spawn points still ahead and the
   * frame's list of entities.
   */
  class Cast {
    var enemies: seq<Enemies.Enemy>
    var boss: Option<Shredders.Shredder>
    var spawnPoints: seq<int>
    var entities: seq<Entity>
    /** Every foot soldier ever spawned. */
    ghost var foes: set<Enemies.Enemy>
    /** How many foot soldiers have spawned. */
    ghost var spawned: int
    /** How many spawn points have been passed. */
    ghost var passed: nat

    ghost function BossRepr(): set<object>
      reads this
    {
      if boss.Some? then {boss.value} else {}
    }

    /** The boss's own tweens and timelines, once it has spawned. */
    ghost function Motions(): set<object>
      reads this, BossRepr()
    {
      if boss.Some? then
        var tweens: set<object> := set t | t in boss.value.tweens;
        var timelines: set<object> := set t | t in boss.value.timelines;
        tweens + timelines
      else {}
    }

    /** What a step may do to the boss's tweens and timelines: keep them, or add new ones. */
    twostate predicate MotionsGrew()
      reads this, BossRepr()
    {
      forall o :: o in Motions() ==> o in old(Motions()) || fresh(o)
    }

    /** What a step may do to the cast: keep its soldiers and boss, or add new ones. */
    twostate predicate Grew()
      reads this, BossRepr()
    {
      && (forall e :: e in foes ==> e in old(foes) || fresh(e))
      && (boss.Some? ==> boss == old(boss) || fresh(boss.value))
      && MotionsGrew()
    }

    /**
     * The soldier list holds no soldier twice, and only spawned ones; the
     * spawn points left are the last ones, and the soldiers ever spawned are
     * those the points passed bring.
     */
    ghost predicate Valid()
      reads this
    {
      && Distinct(enemies) && (forall e :: e in enemies ==> e in foes)
      && passed <= |SpawnPoints| && spawnPoints == SpawnPoints[passed..]
      && spawned == Waves(SpawnPoints[..passed]) && |foes| == spawned
    }

    constructor ()
      ensures Valid() && enemies == [] && boss.None? && spawnPoints == SpawnPoints && entities == []
      ensures foes == {} && passed == 0
    {
      enemies, boss, spawnPoints, entities := [], None, SpawnPoints, [];
      foes, spawned, passed := {}, 0, 0;
      assert SpawnPoints[..0] == [];
    }

    /** The soldier loop of `cleanUp`: the dead soldiers are spliced out, the living kept in order. */
    method Cull()
      requires Valid()
      modifies this
      ensures Valid() && enemies == Kept(old(enemies), old(DeadFlags(enemies)))
      ensures boss == old(boss) && spawnPoints == old(spawnPoints) && entities == old(entities)
      ensures foes == old(foes) && spawned == old(spawned) && passed == old(passed)
    {
      ghost var living := Kept(enemies, DeadFlags(enemies));
      LivingSurvive(enemies);
      forall e | e in living
        ensures e in foes
      {
        KeptIff(enemies, DeadFlags(enemies), e);
      }
      enemies := PruneEnemies(enemies);
    }

    /**
     * The soldiers' part of `spawnEnemies`, from `distance` travelled and the
     * draws: once the distance passes the next spawn point p, the new
     * soldiers `troop` of `Muster(ceil(p / 500))` join the list and the
     * point is dropped.
     */
    method Enlist(distance: int, dice: Dice) returns (troop: seq<Enemies.Enemy>)
      requires Valid()
      modifies this, dice
      ensures Valid() && Grew() && boss == old(boss) && entities == old(entities)
      ensures forall e :: e in troop ==> fresh(e)
      ensures if old(spawnPoints) != [] && distance > old(spawnPoints)[0] then
          var count := CeilDiv(old(spawnPoints)[0], SpawnSpan);
          && count >= 0 && Mustered(troop, count, dice.draws, old(dice.used)) && dice.used == old(dice.used) + 1 + 3 * count
          && enemies == old(enemies) + troop && spawnPoints == old(spawnPoints)[1..] && passed == old(passed) + 1
          && spawned == old(spawned) + Wave(old(spawnPoints)[0]) && foes == old(foes) + set e | e in troop
        else
          && troop == [] && enemies == old(enemies) && spawnPoints == old(spawnPoints) && passed == old(passed)
          && spawned == old(spawned) && foes == old(foes) && dice.used == old(dice.used)
    {
      troop := [];
      if spawnPoints != [] && distance > spawnPoints[0] {
        assert spawnPoints[0] == SpawnPoints[passed] && spawnPoints[0] > 0;
        troop := Muster(CeilDiv(spawnPoints[0], SpawnSpan), dice);
        Join(troop);
      }
    }

    /** The new soldiers of the next spawn point join the list, and the point is dropped. */
    method Join(troop: seq<Enemies.Enemy>)
      requires Valid() && spawnPoints != [] && |troop| == Wave(spawnPoints[0])
      requires Distinct(troop) && forall e :: e in troop ==> e !in enemies && e !in foes
      modifies this
      ensures Valid() && boss == old(boss) && entities == old(entities)
      ensures enemies == old(enemies) + troop && spawnPoints == old(spawnPoints)[1..] && passed == old(passed) + 1
      ensures spawned == old(spawned) + |troop| && foes == old(foes) + set e | e in troop
    {
      ghost var recruits := set e | e in troop;
      DistinctJoin(enemies, troop);
      DistinctCount(troop);
      assert |foes + recruits| == |foes| + |troop| by {
        assert foes * recruits == {};
      }
      WavesStep(passed);
      assert SpawnPoints[passed + 1..] == spawnPoints[1..];
      enemies, spawnPoints := enemies + troop, spawnPoints[1..];
      foes, spawned, passed := foes + recruits, spawned + |troop|, passed + 1;
    }

    /** The boss's part of `spawnEnemies`: at the end of the level the boss spawns, once, entering. */
    method Summon(atEnd: bool)
      requires Valid()
      modifies this
      ensures Valid() && Grew() && enemies == old(enemies) && spawnPoints == old(spawnPoints) && entities == old(entities)
      ensures foes == old(foes) && spawned == old(spawned) && passed == old(passed)
      ensures if atEnd && old(boss).None?
        then boss.Some? && fresh(boss.value) && boss.value.Snapshot() == Shredders.Arrival && boss.value.Valid()
          && boss.value.timelines == [] && |boss.value.tweens| == 1 && boss.value.tweens[0].motion == Shredders.Entrance
        else boss == old(boss)
    {
      if atEnd && boss.None? {
        var b := new Shredders.Shredder();
        boss := Some(b);
      }
    }
  }

  /** The message boards: the closing message (`messager`) and, once shown, the final one (`finalmessager`). */
  class Boards {
    const messager: Messages.Messager
    var final: Option<Messages.Messager>

    ghost function FinalRepr(): set<object>
      reads this
    {
      if final.Some? then {final.value} else {}
    }

    ghost predicate Valid()
      reads this, messager, FinalRepr()
    {
      messager.Valid() && (final.Some? ==> final.value != messager && final.value.Valid())
    }

    /** The closing message's board of `setupGame`, showing `thanks`, and no final board yet. */
    constructor (thanks: string)
      ensures Valid() && fresh(messager) && messager.sentences == [thanks] && !messager.isComplete && final.None?
    {
      messager := new Messages.Messager(Messages.Text(thanks), None);
      final := None;
    }
  }

  class Game {
    const level: Levels.Level
    const player: Turtles.Turtle
    const boards: Boards
    const dice: Dice
    const effects: Effects
    const schedule: Schedule
    const cast: Cast
    var distanceTravelled: int
    var state: Screen
    var fading: int

    /**
     * The level, the effects, the schedule, the cast and the boss are sound;
     * queued callbacks name only spawned soldiers, and the boss's recoil only
     * once it has spawned; the frame's entities are held. (The message
     * boards, which no playing step touches, are sound from the start.)
     */
    ghost predicate Valid()
      reads level, effects, effects.blasts, effects.rows, effects.embers
      reads schedule, schedule.timelines, cast, cast.BossRepr(), if cast.boss.Some? then cast.boss.value.timelines else []
    {
      && level.Valid() && effects.Valid() && schedule.Valid() && cast.Valid()
      && (cast.boss.Some? ==> cast.boss.value.Valid() && Apart(cast.boss.value.timelines, schedule.timelines))
      && schedule.named <= cast.foes && (schedule.recoils ==> cast.boss.Some?)
      && forall i :: 0 <= i < |cast.entities| ==> Held(cast.entities[i], cast.foes, effects.bolts, effects.rows, effects.blasts, cast.boss.Some?)
    }

    /** The objects an entity's step may change or add: the effects and the boss's motions. */
    ghost function Parts(): set<object>
      reads this, effects, cast, cast.BossRepr()
    {
      effects.Repr() + cast.Motions()
    }

    /** What an entity's step may do to those objects: keep them, or add new ones. */
    twostate predicate Grown()
      reads this, effects, cast, cast.BossRepr()
    {
      forall o :: o in Parts() ==> o in old(Parts()) || fresh(o)
    }

    /** `init` and `setupGame`: the opening fade of 60 frames, the level at its start, the turtle at (30, 195). */
    constructor (foregroundWidth: nat, dice: Dice)
      ensures Valid() && this.dice == dice
      ensures state == Start && fading == StartFade && distanceTravelled == 0
      ensures cast.enemies == [] && cast.boss.None? && cast.spawnPoints == SpawnPoints && cast.entities == [] && cast.passed == 0
      ensures level.Snapshot() == Levels.Start && player.Snapshot() == Turtles.Fresh(PlayerX, PlayerY)
      ensures boards.Valid() && boards.messager.sentences == [Config.Thanks] && !boards.messager.isComplete && boards.final.None?
      ensures effects.explosions == [] && effects.projectiles == [] && schedule.tweens == [] && schedule.timelines == []
    {
      var l, p, e, s := SetupParts(foregroundWidth);
      level, player, effects, schedule := l, p, e, s;
      boards := new Boards(Config.Thanks);
      cast := new Cast();
      this.dice := dice;
      distanceTravelled := 0;
      state := Start;
      fading := StartFade;
    }


    /** The objects whose fields an entity's depth reads. */
    ghost function Footing(x: Entity): set<object>
      reads cast
    {
      match x
      case Soldier(e) => {e}
      case Missile(s) => {Projectiles.Target(s)}
      case Burst(b) => {b}
      case Hero => {player}
      case Chief => cast.BossRepr()
    }

    /** The objects whose fields the depths of a list of entities read. */
    ghost function Footings(list: seq<Entity>): set<object>
      reads cast
    {
      set i, o | 0 <= i < |list| && o in Footing(list[i]) :: o
    }

    /** `getY`: the floor's middle for soldiers, the turtle and the boss; the top edge for projectiles, rows and explosions. */
    function Depth(x: Entity): real
      reads cast, Footing(x)
    {
      match x
      case Soldier(e) => e.GetY()
      case Missile(s) => if s.Bolt? then s.bolt.GetY() else s.row.GetY()
      case Burst(b) => b.GetY() as real
      case Hero => player.GetY()
      case Chief => if cast.boss.Some? then cast.boss.value.GetY() else 0.0
    }

    /** The entities of a list, each paired with its depth. */
    ghost function Keyed(list: seq<Entity>): (r: seq<(Entity, real)>)
      reads cast, Footings(list)
    {
      seq(|list|, i requires 0 <= i < |list| reads cast, Footings(list) => (list[i], Depth(list[i])))
    }

    /** The comparator's reads of `getY`, once per entity. */
    method Key(list: seq<Entity>) returns (keyed: seq<(Entity, real)>)
      ensures keyed == Keyed(list)
    {
      keyed := [];
      for i := 0 to |list|
        invariant keyed == Keyed(list[..i])
      {
        keyed := keyed + [(list[i], Depth(list[i]))];
      }
    }

    /**
     * The entity list of a playing frame: the gathered soldiers,
     * projectiles, explosions, the turtle and the boss once spawned, paired
     * with their depths and sorted by a stable sort. `order` is a
     * permutation of the gathered pairs and ascends by depth.
     */
    method Arrange() returns (order: seq<(Entity, real)>)
      requires Valid()
      modifies cast
      ensures Valid()
      ensures cast.enemies == old(cast.enemies) && cast.boss == old(cast.boss) && cast.spawnPoints == old(cast.spawnPoints)
      ensures cast.foes == old(cast.foes) && cast.spawned == old(cast.spawned) && cast.passed == old(cast.passed)
      ensures var keyed := old(Keyed(Gathered(cast.enemies, effects.projectiles, effects.explosions, cast.boss.Some?)));
        && order == Sorting.Sort(keyed) && multiset(order) == multiset(keyed)
      ensures Sorting.Ascending(order) && cast.entities == Sorting.Firsts(order)
    {
      var gathered := Gathered(cast.enemies, effects.projectiles, effects.explosions, cast.boss.Some?);
      ghost var pairs := Keyed(gathered);
      var keyed := Key(gathered);
      assert keyed == pairs;
      order := Sorting.Sort(keyed);
      Sorting.SortAscending(keyed);
      Sorting.SortPermutes(keyed);
      LineupHeld(this, keyed, order);
      Line(Sorting.Firsts(order));
    }

    /** The frame's list of entities set to `list`, every entry of which the game holds. */
    method Line(list: seq<Entity>)
      requires Valid()
      requires forall i :: 0 <= i < |list| ==> Held(list[i], cast.foes, effects.bolts, effects.rows, effects.blasts, cast.boss.Some?)
      modifies cast
      ensures Valid() && cast.entities == list
      ensures cast.enemies == old(cast.enemies) && cast.boss == old(cast.boss) && cast.spawnPoints == old(cast.spawnPoints)
      ensures cast.foes == old(cast.foes) && cast.spawned == old(cast.spawned) && cast.passed == old(cast.passed)
    {
      cast.entities := list;
    }

    /**
     * What a queued callback does, performed by the game: a soldier's as
     * `Answer` states; the boss's recoil ends with the boss floating away
     * (`Shredders.Heard`); the victory pose's end starts the closing fade.
     */
    method Perform(c: Cue)
      requires Valid() && Known(c, cast.foes, cast.boss.Some?)
      modifies this, Subject(c), effects, cast.BossRepr(), dice
      ensures Valid() && cast.MotionsGrew() && effects.Grew()
      ensures |effects.explosions| == |old(effects.explosions)| + if c.EnemyDied? then 1 else 0
      ensures state == if c.StageCleared? then GameEnding else old(state)
    {
      match c
      case BossRecoiled(_) =>
        Refloat(c);
      case StageCleared =>
        Finish();
      case BossArrived =>
      case BossMoved(_) =>
      case BossLanded =>
      case _ =>
        Respond(c);
    }

    /** The end of the victory pose: the closing fade begins. */
    method Finish()
      requires Valid()
      modifies this
      ensures Valid() && state == GameEnding && fading == old(fading) && distanceTravelled == old(distanceTravelled)
    {
      state := GameEnding;
    }

    /** The end of the boss's recoil: it floats away (`Shredders.Heard`), on new timelines of its own. */
    method Refloat(c: Cue)
      requires Valid() && cast.boss.Some? && c.BossRecoiled?
      modifies cast.BossRepr(), dice
      ensures Valid() && cast.MotionsGrew()
      ensures (cast.boss.value.Snapshot(), dice.used) == Shredders.Heard(old(cast.boss.value.Snapshot()), c, old(dice.used))
      ensures cast.boss.value.tweens == old(cast.boss.value.tweens)
      ensures Shredders.Floating(old(cast.boss.value.timelines), cast.boss.value.timelines, Shredders.Landing(dice.draws, old(dice.used)))
    {
      var boss := cast.boss.value;
      ghost var before := boss.timelines;
      boss.Hear(c, dice);
      assert Apart(boss.timelines, schedule.timelines) by {
        forall t | t in boss.timelines
          ensures t !in schedule.timelines
        {
          var k :| 0 <= k < |boss.timelines| && boss.timelines[k] == t;
          if k < |before| {
            assert t in before;
          }
        }
      }
      Upheld(this);
    }

    /** A soldier's callback, as `Answer` states. */
    method Respond(c: Cue)
      requires Valid() && Scene.OnEnemy(c)
      modifies c.enemy, effects
      ensures Valid() && effects.Grew()
      ensures c.EnemyRecovered? ==>
        c.enemy.Snapshot() == old(c.enemy.Snapshot()).(posX := c.pinX, isHurt := 0) && effects.explosions == old(effects.explosions)
      ensures c.EnemyFell? ==>
        c.enemy.Snapshot() == old(c.enemy.Snapshot()).(posX := c.fallX, sequence := Enemies.Dead) && effects.explosions == old(effects.explosions)
      ensures c.EnemyDied? ==>
        && c.enemy.Snapshot() == Enemies.AfterDie(old(c.enemy.Snapshot()))
        && |effects.explosions| == |old(effects.explosions)| + 1 && effects.explosions[..|old(effects.explosions)|] == old(effects.explosions)
    {
      Answer(c, effects);
      Upheld(this);
    }

    /**
     * The callbacks a sweep fired, performed in order: every soldier's death
     * adds one explosion, and the stage's end starts the closing fade.
     */
    method Dispatch(cues: seq<Cue>)
      requires Valid() && forall c :: c in cues ==> Known(c, cast.foes, cast.boss.Some?)
      modifies this, cast.foes, effects, cast.BossRepr(), dice
      ensures Valid() && cast.MotionsGrew() && effects.Grew()
      ensures state == if StageCleared in cues then GameEnding else old(state)
      ensures |effects.explosions| == |old(effects.explosions)| + Deaths(cues)
    {
      for k := 0 to |cues|
        invariant Valid() && cast.MotionsGrew() && effects.Grew()
        invariant state == if StageCleared in cues[..k] then GameEnding else old(state)
        invariant |effects.explosions| == |old(effects.explosions)| + Deaths(cues[..k])
      {
        assert cues[..k + 1][..k] == cues[..k];
        assert cues[k] in cues;
        Perform(cues[k]);
      }
      assert cues[..|cues|] == cues;
    }

    /** The tween loop of a playing frame, as `Schedule.SweepTweens` states; what it fires is known to the game. */
    method SweepTweens(dt: Ms) returns (fired: seq<Cue>)
      requires Valid()
      modifies schedule, schedule.tweens
      ensures Valid() && schedule.timelines == old(schedule.timelines)
      ensures fired == SweptCues(old(schedule.tweens), old(ElapsedOf(schedule.tweens)), dt, |old(schedule.tweens)|)
      ensures forall c :: c in fired ==> Known(c, cast.foes, cast.boss.Some?)
    {
      fired := schedule.StepTweens(dt);
      Widened(fired, schedule.named, schedule.recoils, cast.foes, cast.boss.Some?);
    }

    /** The timeline loop of a playing frame, as `Schedule.SweepTimelines` states; what it fires is known to the game. */
    method SweepTimelines(dt: Ms) returns (fired: seq<Cue>)
      requires Valid()
      modifies schedule, schedule.timelines
      ensures Valid() && forall c :: c in fired ==> Known(c, cast.foes, cast.boss.Some?)
      ensures AllWellFormed(old(SnapshotsOf(schedule.timelines)))
      ensures fired == TimelineCues(old(schedule.timelines), old(SnapshotsOf(schedule.timelines)), dt, |old(schedule.timelines)|)
    {
      fired := schedule.StepTimelines(dt);
      Widened(fired, schedule.named, schedule.recoils, cast.foes, cast.boss.Some?);
      if cast.boss.Some? {
        var boss := cast.boss.value;
        forall k | 0 <= k < |boss.timelines|
          ensures unchanged(boss.timelines[k])
        {
          assert boss.timelines[k] !in old(schedule.timelines);
        }
        assert Apart(cast.boss.value.timelines, schedule.timelines) by {
          forall t | t in cast.boss.value.timelines
            ensures t !in schedule.timelines
          {
            assert t !in old(schedule.timelines);
          }
        }
      }
    }

    /** The tween loop of a playing frame, its callbacks performed in order once it is over. */
    method RunTweens(dt: Ms) returns (cues: seq<Cue>)
      requires Valid()
      modifies this, schedule, schedule.tweens, cast.foes, effects, cast.BossRepr(), dice
      ensures Valid() && cast.MotionsGrew() && effects.Grew() && schedule.timelines == old(schedule.timelines)
      ensures cues == SweptCues(old(schedule.tweens), old(ElapsedOf(schedule.tweens)), dt, |old(schedule.tweens)|)
      ensures state == if StageCleared in cues then GameEnding else old(state)
      ensures |effects.explosions| == |old(effects.explosions)| + Deaths(cues)
    {
      cues := SweepTweens(dt);
      Dispatch(cues);
    }

    /** The timeline loop of a playing frame, its callbacks performed in order once it is over. */
    method RunTimelines(dt: Ms) returns (cues: seq<Cue>)
      requires Valid()
      modifies this, schedule, schedule.timelines, cast.foes, effects, cast.BossRepr(), dice
      ensures Valid() && cast.MotionsGrew() && effects.Grew()
      ensures AllWellFormed(old(SnapshotsOf(schedule.timelines)))
      ensures cues == TimelineCues(old(schedule.timelines), old(SnapshotsOf(schedule.timelines)), dt, |old(schedule.timelines)|)
      ensures state == if StageCleared in cues then GameEnding else old(state)
      ensures |effects.explosions| == |old(effects.explosions)| + Deaths(cues)
    {
      cues := SweepTimelines(dt);
      Dispatch(cues);
    }

    /*
     * The entities' own steps: `entity.update(this.elapsed)` for each entity
     * of the frame, in the order of their depths.
     */

    /** A soldier's `update`, as `Strike` states it. */
    method Advance(e: Enemies.Enemy, dt: Ms, inRange: (Box, Box) -> bool) returns (strike: bool)
      requires Valid()
      modifies e, dice, player
      ensures Valid() && Grown() && unchanged(cast)
      ensures (e.Snapshot(), dice.used, strike) ==
        Enemies.AfterUpdate(old(e.Snapshot()), old(player.CollisionRect()), inRange, dt, dice.draws, old(dice.used))
      ensures player.Snapshot() == if strike then Turtles.Hurted(old(player.Snapshot()), Enemies.Damage) else old(player.Snapshot())
    {
      strike := Strike(e, player, dice, dt, inRange);
    }

    /** The turtle's `update`, as `Walk` states it; a scroll adds to the game's distance travelled. */
    method Stride(dt: Ms) returns (scroll: bool)
      requires Valid()
      modifies this, player, level, cast.foes, effects.blasts, effects.bolts, effects.rows
      ensures Valid() && Grown() && state == old(state) && fading == old(fading) && unchanged(cast)
      ensures distanceTravelled == if scroll then Levels.Travelled(old(distanceTravelled), old(level.canScroll)) else old(distanceTravelled)
    {
      var d;
      scroll, d := Pace(dt, distanceTravelled);
      Travel(d);
    }

    /** The parts of the game the turtle's `update` moves, as `Walk` states them. */
    method Pace(dt: Ms, distance: int) returns (scroll: bool, distance': int)
      requires Valid()
      modifies player, level, cast.foes, effects.blasts, effects.bolts, effects.rows
      ensures Valid()
      ensures distance' == if scroll then Levels.Travelled(distance, old(level.canScroll)) else distance
    {
      scroll, distance' := Tread(player, level, effects, cast.enemies, cast.foes, distance, dt);
      Aside(this);
    }

    /** The game's distance travelled, set. */
    method Travel(distance: int)
      requires Valid()
      modifies this
      ensures Valid() && distanceTravelled == distance && state == old(state) && fading == old(fading)
    {
      distanceTravelled := distance;
    }

    /** A thrown projectile's `update`: one step of its speed along its heading. */
    method Soar(p: Projectiles.Projectile, dt: Ms)
      requires Valid()
      modifies p
      ensures Valid() && Grown()
      ensures p.y == old(p.y) && p.state == old(p.state) &&
        p.x == if p.dir == Left then old(p.x) - Projectiles.Speed else old(p.x) + Projectiles.Speed
    {
      p.Update(dt);
    }

    /** A row of flames' `update`: it burns on, and stays sound. */
    method Burn(r: Flames.Flames, dt: Ms)
      requires Valid() && r in effects.rows
      modifies effects, r, r.flames
      ensures Valid() && Grown() && effects.explosions == old(effects.explosions) && effects.projectiles == old(effects.projectiles)
    {
      effects.UpdateRow(r, dt);
      Upheld(this);
    }

    /** An explosion's `update`: its frames advance, and the last one ends it. */
    method Flare(b: Explosions.Explosion, dt: Ms)
      requires Valid() && b in effects.blasts
      modifies b
      ensures Valid() && Grown() && b.x == old(b.x) && b.y == old(b.y)
      ensures old(b.timeSinceLastFrameSwap) + dt <= b.animationUpdateTime ==>
        b.timeSinceLastFrameSwap == old(b.timeSinceLastFrameSwap) + dt && b.swaps == old(b.swaps) &&
        b.sequenceIdx == old(b.sequenceIdx) && b.state == old(b.state) && b.offsetX == old(b.offsetX)
      ensures old(b.timeSinceLastFrameSwap) + dt > b.animationUpdateTime ==>
        b.timeSinceLastFrameSwap == 0.0 && b.swaps == old(b.swaps) + 1 &&
        (b.sequenceIdx, b.state) == Explosions.Swap(old(b.sequenceIdx), old(b.state)) &&
        b.offsetX == Explosions.Sequence[b.sequenceIdx] * b.width
    {
      effects.UpdateBlast(b, dt);
    }

    /** The boss's `update`, as `Rampage` states it. */
    method Menace(dt: Ms)
      returns (launch: Option<Shredders.Launch>, recoiled: bool, ghost acted: Shredders.State,
               ghost acting: seq<Timeline<Cue>>, ghost tracks: seq<Track<Cue>>, ghost fired: seq<Cue>)
      requires Valid() && cast.boss.Some?
      modifies cast.BossRepr(), cast.boss.value.tweens, cast.boss.value.timelines, dice, effects, schedule
      ensures Valid()
      ensures var r := Shredders.Acted(Shredders.Faced(old(cast.boss.value.Snapshot()), player.CollisionRect()), dice.draws, old(dice.used));
        && acted == r.0 && launch == r.2 && recoiled == r.3
        && var h := Shredders.HeardAll(acted, fired, r.1);
           cast.boss.value.Snapshot() == Shredders.Animated(h.0, dt) && dice.used == h.1
      ensures |effects.projectiles| == |old(effects.projectiles)| + (if launch.Some? then 1 else 0)
      ensures |schedule.tweens| == |old(schedule.tweens)| + (if recoiled then 1 else 0)
      ensures recoiled ==>
        schedule.tweens[|old(schedule.tweens)|].motion
        == Shredders.Recoil(Shredders.RecoilSpot(Shredders.Faced(old(cast.boss.value.Snapshot()), player.CollisionRect()), dice.draws(old(dice.used))))
      ensures Grown() && unchanged(cast)
    {
      ghost var before, used := cast.boss.value.Snapshot(), dice.used;
      var box := player.CollisionRect();
      launch, recoiled, acted, acting, tracks, fired := Rampage(cast.boss.value, effects, schedule, dice, box, dt);
      Grows(this);
      Upheld(this);
    }

    /** `entity.update(this.elapsed)` for one entity of the frame's list, by its kind. */
    method UpdateEntity(x: Entity, dt: Ms, inRange: (Box, Box) -> bool)
      requires Valid() && Held(x, cast.foes, effects.bolts, effects.rows, effects.blasts, cast.boss.Some?)
      modifies this, player, level, dice, cast.foes, effects, schedule, cast.BossRepr(), Parts()
      ensures Valid() && Grown() && state == old(state) && unchanged(cast)
    {
      match x
      case Missile(s) =>
        if s.Bolt? {
          Soar(s.bolt, dt);
        } else {
          Burn(s.row, dt);
        }
      case Burst(b) =>
        Flare(b, dt);
      case _ =>
        UpdateActor(x, dt, inRange);
    }

    /** The `update` of a soldier, the turtle or the boss. */
    method UpdateActor(x: Entity, dt: Ms, inRange: (Box, Box) -> bool)
      requires Valid() && Held(x, cast.foes, effects.bolts, effects.rows, effects.blasts, cast.boss.Some?)
      requires x.Soldier? || x.Hero? || x.Chief?
      modifies this, player, level, dice, cast.foes, effects, schedule, cast.BossRepr(), Parts()
      ensures Valid() && Grown() && state == old(state) && unchanged(cast)
    {
      match x
      case Soldier(e) =>
        var strike := Advance(e, dt, inRange);
      case Hero =>
        var scroll := Stride(dt);
      case Chief =>
        ghost var acted, acting, tracks, fired;
        var launch, recoiled;
        launch, recoiled, acted, acting, tracks, fired := Menace(dt);
    }

    /** The entity loop of a playing frame: every entity of the frame's list updates, in list order. */
    method UpdateEntities(dt: Ms, inRange: (Box, Box) -> bool)
      requires Valid()
      modifies this, player, level, dice, cast.foes, effects, schedule, cast.BossRepr(), Parts()
      ensures Valid() && Grown() && state == old(state) && unchanged(cast)
    {
      var list := cast.entities;
      for i := 0 to |list|
        invariant Valid() && Grown() && state == old(state) && unchanged(cast) && cast.entities == list
      {
        UpdateEntity(list[i], dt, inRange);
      }
    }

    /**
     * The playing branch of `render`: the frame's entities are gathered and
     * sorted by depth, then input, collisions and the clean-up are handled;
     * a clean-up that throws ends the frame there (`halted`), otherwise the
     * soldiers and the boss spawn, the tweens and timelines run, and every
     * entity of the sorted list updates. A stage-cleared cue from a tween or
     * a timeline starts the ending fade.
     */
    method PlayFrame(keys: Keys, dt: Ms, inRange: (Box, Box) -> bool, unplaced: Box -> bool)
      returns (order: seq<(Entity, real)>, halted: bool, fired: seq<Cue>)
      requires Valid() && state == Playing
      modifies this, player, level, dice, cast, cast.foes, cast.enemies, cast.BossRepr(), cast.Motions()
      modifies effects, effects.Repr(), schedule, schedule.Queued()
      ensures Valid()
      ensures Sorting.Ascending(order) && cast.entities == Sorting.Firsts(order)
      ensures halted ==> fired == []
      ensures state == if StageCleared in fired then GameEnding else Playing
    {
      order := Arrange();
      halted, fired := Play(keys, dt, inRange, unplaced);
    }

    /** A playing frame once its entities are sorted: the first half, then the second unless the first threw. */
    method Play(keys: Keys, dt: Ms, inRange: (Box, Box) -> bool, unplaced: Box -> bool) returns (halted: bool, fired: seq<Cue>)
      requires Valid()
      modifies this, player, level, dice, cast, cast.foes, cast.enemies, cast.BossRepr(), cast.Motions()
      modifies effects, effects.Repr(), schedule, schedule.Queued()
      ensures Valid() && cast.entities == old(cast.entities)
      ensures halted ==> fired == []
      ensures state == if StageCleared in fired then GameEnding else old(state)
    {
      halted := Settle(keys, inRange, unplaced);
      fired := [];
      if !halted {
        fired := Proceed(dt, inRange);
      }
    }

    /** The first half of a playing frame: `handleInput`, `handleCollisions` and `cleanUp`. */
    method Settle(keys: Keys, inRange: (Box, Box) -> bool, unplaced: Box -> bool) returns (halted: bool)
      requires Valid()
      modifies player, cast, cast.enemies, cast.BossRepr(), effects, effects.bolts, schedule
      ensures Valid() && cast.entities == old(cast.entities)
      ensures schedule.Grew() && cast.MotionsGrew() && cast.foes == old(cast.foes) && cast.boss == old(cast.boss)
      ensures effects.Repr() == old(effects.Repr())
    {
      Heed(keys, inRange, unplaced);
      halted := Purge();
    }

    /** `handleInput` and `handleCollisions`, as they state them, seen from the rest of the frame. */
    method Heed(keys: Keys, inRange: (Box, Box) -> bool, unplaced: Box -> bool)
      requires Valid()
      modifies player, cast.enemies, cast.BossRepr(), schedule
      ensures Valid() && schedule.Grew() && cast.MotionsGrew()
    {
      HandleInput(keys, inRange);
      HandleCollisions(inRange, unplaced);
    }

    /** `cleanUp`, as `CleanUp` states it, seen from the rest of the frame. */
    method Purge() returns (halted: bool)
      requires Valid()
      modifies cast, effects, effects.bolts, player, schedule
      ensures Valid() && schedule.Grew() && effects.Repr() == old(effects.Repr())
      ensures cast.entities == old(cast.entities) && cast.foes == old(cast.foes) && cast.boss == old(cast.boss)
    {
      halted := CleanUp();
    }

    /**
     * The second half of a playing frame: `spawnEnemies`, the tween and
     * timeline loops, then each entity's `update`.
     */
    method Proceed(dt: Ms, inRange: (Box, Box) -> bool) returns (fired: seq<Cue>)
      requires Valid()
      modifies this, player, level, dice, cast, cast.foes, cast.BossRepr(), cast.Motions()
      modifies effects, effects.Repr(), schedule, schedule.Queued()
      ensures Valid() && cast.entities == old(cast.entities)
      ensures state == if StageCleared in fired then GameEnding else old(state)
    {
      Populate();
      fired := Progress(dt, inRange);
    }

    /** `spawnEnemies`, as `SpawnEnemies` states it, seen from the rest of the frame. */
    method Populate()
      requires Valid()
      modifies cast, dice
      ensures Valid() && cast.Grew() && cast.entities == old(cast.entities)
    {
      var troop := SpawnEnemies();
    }

    /** The tween and timeline loops, then each entity's `update`, in the frame's order. */
    method Progress(dt: Ms, inRange: (Box, Box) -> bool) returns (fired: seq<Cue>)
      requires Valid()
      modifies this, player, level, dice, cast.foes, cast.BossRepr(), cast.Motions()
      modifies effects, effects.Repr(), schedule, schedule.Queued()
      ensures Valid() && cast.entities == old(cast.entities)
      ensures state == if StageCleared in fired then GameEnding else old(state)
    {
      fired := RunQueues(dt);
      Grows(this);
      UpdateEntities(dt, inRange);
    }

    /** The tween loop, then the timeline loop, with the callbacks each fired. */
    method RunQueues(dt: Ms) returns (fired: seq<Cue>)
      requires Valid()
      modifies this, schedule, schedule.Queued(), cast.foes, effects, cast.BossRepr(), dice
      ensures Valid() && cast.MotionsGrew() && effects.Grew()
      ensures AllWellFormed(old(SnapshotsOf(schedule.timelines)))
      ensures fired == SweptCues(old(schedule.tweens), old(ElapsedOf(schedule.tweens)), dt, |old(schedule.tweens)|)
                       + TimelineCues(old(schedule.timelines), old(SnapshotsOf(schedule.timelines)), dt, |old(schedule.timelines)|)
      ensures state == if StageCleared in fired then GameEnding else old(state)
    {
      ghost var tracks := SnapshotsOf(schedule.timelines);
      var cues := RunTweens(dt);
      assert SnapshotsOf(schedule.timelines) == tracks;
      var more := RunTimelines(dt);
      fired := cues + more;
    }

    /**
     * `handleInput`: the arrows, SPACE, then X. The turtle ends up as
     * `Handled` states; what a jump or an attack starts joins the game's
     * tweens and timelines after what was queued.
     */
    method HandleInput(keys: Keys, inRange: (Box, Box) -> bool)
      requires Valid()
      modifies player, cast.enemies, cast.BossRepr(), schedule
      ensures Valid()
      ensures player.Snapshot() == Handled(old(player.Snapshot()), keys)
      ensures Shredders.Extends(old(schedule.tweens), schedule.tweens) && Shredders.Extends(old(schedule.timelines), schedule.timelines)
      ensures schedule.Grew() && cast.MotionsGrew()
    {
      Handle(player, cast.enemies, cast.boss, schedule, keys, inRange, cast.foes);
      Upheld(this);
    }

    /**
     * `handleCollisions`: the turtle is hurt by 2 for every flame of a row
     * of flames in range, in list order, which comes to at most two hurts
     * (`ScorchedAtMostTwice`).
     */
    method HandleCollisions(inRange: (Box, Box) -> bool, unplaced: Box -> bool)
      requires Valid()
      modifies player
      ensures Valid()
      ensures player.Snapshot() == Scorched(old(player.Snapshot()),
        ShotHits(effects.projectiles, effects.embers, Turtles.Rect(old(player.Snapshot())), inRange, unplaced))
    {
      assert forall r :: r in Projectiles.Rows(effects.projectiles) ==> RowHeld(r, effects.embers);
      ScorchAll(player, effects.projectiles, effects.embers, inRange, unplaced);
    }

    /**
     * `cleanUp`: dead soldiers are spliced out; then projectiles off the
     * screen are destroyed and dead ones spliced out, where a row of flames
     * right of the screen ends the frame (`halted`); then finished
     * explosions are spliced out; and once the boss is dead the turtle
     * strikes its victory pose, whose tween joins the queue.
     */
    method CleanUp() returns (halted: bool)
      requires Valid()
      modifies cast, effects, effects.bolts, player, schedule
      ensures Valid() && schedule.Grew()
      ensures effects.blasts == old(effects.blasts) && effects.bolts == old(effects.bolts) && effects.rows == old(effects.rows)
      ensures effects.embers == old(effects.embers)
      ensures cast.enemies == Kept(old(cast.enemies), old(DeadFlags(cast.enemies)))
      ensures var starts := old(Projectiles.StatesOf(effects.projectiles)); var k := FirstHalt(starts);
        && halted == (k < |starts|)
        && effects.projectiles == Kept(old(effects.projectiles)[..k], GoneFlags(starts)[..k]) + old(effects.projectiles)[k..]
      ensures effects.explosions == if halted then old(effects.explosions) else Kept(old(effects.explosions), old(FinishedFlags(effects.explosions)))
      ensures if !halted && old(cast.boss.Some? && cast.boss.value.isDead != 0)
        then player.Snapshot() == Turtles.Ended(old(player.Snapshot()))
          && |schedule.tweens| == |old(schedule.tweens)| + 1 && schedule.tweens[..|old(schedule.tweens)|] == old(schedule.tweens)
          && schedule.tweens[|old(schedule.tweens)|].motion == Turtles.Victory
        else player.Snapshot() == old(player.Snapshot()) && schedule.tweens == old(schedule.tweens)
      ensures schedule.timelines == old(schedule.timelines)
      ensures cast.boss == old(cast.boss) && cast.spawnPoints == old(cast.spawnPoints) && cast.entities == old(cast.entities)
      ensures cast.foes == old(cast.foes)
    {
      var ended := cast.boss.Some? && cast.boss.value.isDead != 0;
      ghost var starts := Projectiles.StatesOf(effects.projectiles);
      ghost var flags := FinishedFlags(effects.explosions);
      Bury();
      assert Projectiles.StatesOf(effects.projectiles) == starts && FinishedFlags(effects.explosions) == flags;
      halted := Clear(ended);
    }

    /** `cleanUp`'s first loop, as `Cast.Cull` states it: dead soldiers are spliced out. */
    method Bury()
      requires Valid()
      modifies cast
      ensures Valid() && cast.enemies == Kept(old(cast.enemies), old(DeadFlags(cast.enemies)))
      ensures cast.boss == old(cast.boss) && cast.spawnPoints == old(cast.spawnPoints) && cast.entities == old(cast.entities)
      ensures cast.foes == old(cast.foes)
    {
      cast.Cull();
      Upheld(this);
    }

    /** The rest of `cleanUp`, as `Close` states it, for a boss that is dead or not. */
    method Clear(ended: bool) returns (halted: bool)
      requires Valid()
      modifies effects, effects.bolts, player, schedule
      ensures Valid() && schedule.Grew()
      ensures effects.blasts == old(effects.blasts) && effects.bolts == old(effects.bolts) && effects.rows == old(effects.rows)
      ensures effects.embers == old(effects.embers)
      ensures var starts := old(Projectiles.StatesOf(effects.projectiles)); var k := FirstHalt(starts);
        && halted == (k < |starts|)
        && effects.projectiles == Kept(old(effects.projectiles)[..k], GoneFlags(starts)[..k]) + old(effects.projectiles)[k..]
      ensures effects.explosions == if halted then old(effects.explosions) else Kept(old(effects.explosions), old(FinishedFlags(effects.explosions)))
      ensures if !halted && ended
        then player.Snapshot() == Turtles.Ended(old(player.Snapshot()))
          && |schedule.tweens| == |old(schedule.tweens)| + 1 && schedule.tweens[..|old(schedule.tweens)|] == old(schedule.tweens)
          && schedule.tweens[|old(schedule.tweens)|].motion == Turtles.Victory
        else player.Snapshot() == old(player.Snapshot()) && schedule.tweens == old(schedule.tweens)
      ensures schedule.timelines == old(schedule.timelines)
    {
      halted := Close(effects, player, schedule, ended);
      Upheld(this);
    }

    /**
     * `spawnEnemies`, at the distance travelled and with the level's end
     * flag: the soldiers' part as `Cast.Enlist` states it, then the boss's
     * as `Cast.Summon` does.
     */
    method SpawnEnemies() returns (troop: seq<Enemies.Enemy>)
      requires Valid()
      modifies cast, dice
      ensures Valid() && cast.Grew() && cast.entities == old(cast.entities)
      ensures forall e :: e in troop ==> fresh(e)
      ensures if old(cast.spawnPoints) != [] && distanceTravelled > old(cast.spawnPoints)[0] then
          var count := CeilDiv(old(cast.spawnPoints)[0], SpawnSpan);
          && count >= 0 && Mustered(troop, count, dice.draws, old(dice.used)) && dice.used == old(dice.used) + 1 + 3 * count
          && cast.enemies == old(cast.enemies) + troop && cast.spawnPoints == old(cast.spawnPoints)[1..]
          && cast.passed == old(cast.passed) + 1 && cast.spawned == old(cast.spawned) + Wave(old(cast.spawnPoints)[0])
        else
          && troop == [] && cast.enemies == old(cast.enemies) && cast.spawnPoints == old(cast.spawnPoints)
          && cast.passed == old(cast.passed) && dice.used == old(dice.used)
      ensures if level.atEnd && old(cast.boss).None?
        then cast.boss.Some? && fresh(cast.boss.value) && cast.boss.value.Snapshot() == Shredders.Arrival
          && |cast.boss.value.tweens| == 1 && cast.boss.value.tweens[0].motion == Shredders.Entrance
        else cast.boss == old(cast.boss)
    {
      troop := Reinforce();
      Herald();
    }

    /** The soldiers' part of `spawnEnemies`, as `Cast.Enlist` states it at the distance travelled. */
    method Reinforce() returns (troop: seq<Enemies.Enemy>)
      requires Valid()
      modifies cast, dice
      ensures Valid() && cast.Grew() && cast.entities == old(cast.entities) && cast.boss == old(cast.boss)
      ensures forall e :: e in troop ==> fresh(e)
      ensures if old(cast.spawnPoints) != [] && distanceTravelled > old(cast.spawnPoints)[0] then
          var count := CeilDiv(old(cast.spawnPoints)[0], SpawnSpan);
          && count >= 0 && Mustered(troop, count, dice.draws, old(dice.used)) && dice.used == old(dice.used) + 1 + 3 * count
          && cast.enemies == old(cast.enemies) + troop && cast.spawnPoints == old(cast.spawnPoints)[1..]
          && cast.passed == old(cast.passed) + 1 && cast.spawned == old(cast.spawned) + Wave(old(cast.spawnPoints)[0])
        else
          && troop == [] && cast.enemies == old(cast.enemies) && cast.spawnPoints == old(cast.spawnPoints)
          && cast.passed == old(cast.passed) && dice.used == old(dice.used)
    {
      troop := cast.Enlist(distanceTravelled, dice);
      Upheld(this);
    }

    /** The boss's part of `spawnEnemies`, as `Cast.Summon` states it with the level's end flag. */
    method Herald()
      requires Valid()
      modifies cast
      ensures Valid() && cast.Grew() && cast.entities == old(cast.entities)
      ensures cast.enemies == old(cast.enemies) && cast.spawnPoints == old(cast.spawnPoints)
      ensures cast.passed == old(cast.passed) && cast.spawned == old(cast.spawned)
      ensures if level.atEnd && old(cast.boss).None?
        then cast.boss.Some? && fresh(cast.boss.value) && cast.boss.value.Snapshot() == Shredders.Arrival
          && |cast.boss.value.tweens| == 1 && cast.boss.value.tweens[0].motion == Shredders.Entrance
        else cast.boss == old(cast.boss)
    {
      cast.Summon(level.atEnd);
      Upheld(this);
    }
  }

  /**
   * The game stays valid when its parts stay sound, the effects hold what
   * they held, queued callbacks stay known, no spawned soldier or boss is
   * forgotten and the entity list is as it was.
   */
  twostate lemma Upheld(g: Game)
    requires old(g.Valid())
    requires g.level.Valid() && g.effects.Valid() && g.schedule.Valid() && g.cast.Valid()
    requires g.cast.boss.Some? ==> g.cast.boss.value.Valid() && Apart(g.cast.boss.value.timelines, g.schedule.timelines)
    requires g.schedule.named <= g.cast.foes && (g.schedule.recoils ==> g.cast.boss.Some?)
    requires g.cast.entities == old(g.cast.entities) && old(g.cast.foes) <= g.cast.foes && (old(g.cast.boss).Some? ==> g.cast.boss.Some?)
    requires old(g.effects.blasts) <= g.effects.blasts && old(g.effects.bolts) <= g.effects.bolts && old(g.effects.rows) <= g.effects.rows
    ensures g.Valid()
  {
    forall i | 0 <= i < |g.cast.entities|
      ensures Held(g.cast.entities[i], g.cast.foes, g.effects.bolts, g.effects.rows, g.effects.blasts, g.cast.boss.Some?)
    {
      assert old(Held(g.cast.entities[i], g.cast.foes, g.effects.bolts, g.effects.rows, g.effects.blasts, g.cast.boss.Some?));
    }
  }

  /** A step that only adds effects and boss motions only adds parts. */
  twostate lemma Grows(g: Game)
    requires unchanged(g.cast)
    requires g.effects.Grew() && g.cast.MotionsGrew()
    ensures g.Grown()
  {
  }

  /**
   * The game stays sound across a step that leaves its schedule, its cast
   * and its boss alone, and keeps its level and its effects sound.
   */
  twostate lemma Aside(g: Game)
    requires old(g.Valid())
    requires unchanged(g.schedule, g.cast, g.effects)
    requires unchanged(g.schedule.timelines) && unchanged(g.cast.BossRepr())
    requires g.cast.boss.Some? ==> unchanged(g.cast.boss.value.timelines)
    requires g.level.Valid() && g.effects.Valid()
    ensures g.Valid()
  {
    Upheld(g);
  }

  /** Every gathered entity is held, and so is every entry of a permutation of the gathered pairs. */
  lemma LineupHeld(g: Game, keyed: seq<(Entity, real)>, order: seq<(Entity, real)>)
    requires g.Valid()
    requires keyed == g.Keyed(Gathered(g.cast.enemies, g.effects.projectiles, g.effects.explosions, g.cast.boss.Some?))
    requires multiset(order) == multiset(keyed)
    ensures forall i :: 0 <= i < |order| ==>
      Held(order[i].0, g.cast.foes, g.effects.bolts, g.effects.rows, g.effects.blasts, g.cast.boss.Some?)
  {
    var r := Gathered(g.cast.enemies, g.effects.projectiles, g.effects.explosions, g.cast.boss.Some?);
    GatheredHolds(g.cast.enemies, g.effects.projectiles, g.effects.explosions, g.cast.boss.Some?);
    forall i | 0 <= i < |order|
      ensures Held(order[i].0, g.cast.foes, g.effects.bolts, g.effects.rows, g.effects.blasts, g.cast.boss.Some?)
    {
      assert order[i] in multiset(keyed);
      var j :| 0 <= j < |keyed| && keyed[j] == order[i];
      var x := r[j];
      assert order[i].0 == x && x in r;
      if x.Missile? {
        if x.shot.Bolt? {
          assert x.shot.bolt in Projectiles.Bolts(g.effects.projectiles);
        } else {
          assert x.shot.row in Projectiles.Rows(g.effects.projectiles);
        }
      }
    }
  }
}
