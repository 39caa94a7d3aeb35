/**
 * The boss. It drops in from above the screen, then cycles: it charges for
 * 50 updates, launches a bolt or a row of flames, holds the attack for 50
 * updates and floats to a new spot, after which it charges again. Hits
 * interrupt the attack; after four hits it shrugs off further blows until
 * its recoil ends.
 *
 * As for the foot soldier, each step is a function on the boss's state as
 * a value and the class promises that function's result. The boss also
 * keeps its own lists of tweens and timelines and sweeps them on every
 * update; the bolt or flames it launches are handed back as a `Launch`
 * for the game to create, and its recoil tween for the game to queue.
 */
module Shredders {
  import opened Scene
  import opened Timelines
  import Enemies

  const Width: real := 64.0
  const Height: real := 96.0
  const Depth: real := 20.0
  const StartX: real := 165.0
  const StartY: real := 200.0
  /** The row the entrance tween brings the boss down to. */
  const EntranceRow: real := 180.0
  const StartHealth: int := 32
  const MaxHits: int := 4
  const FrameTime: real := 1000.0 / 12.5
  /** The updates spent charging, and holding an attack. */
  const ChargeTime: int := 50
  const AttackTime: int := 50
  /** The updates a hit keeps the boss reeling. */
  const HurtTime: int := 30
  /** The share of draws below which the boss shoots forward rather than down. */
  const ForwardChance: real := 0.35

  /** The boss's animation sequences, `seq` without the facing. */
  datatype Sequence = Stand | Float | Walk | Charge | AttackForward | AttackDown | Hurt

  /** The number of frames of each sequence, the same for both facings. */
  function FrameCount(q: Sequence): (n: nat)
    ensures 1 <= n <= 3
  {
    match q
    case Walk => 2
    case Charge => 3
    case _ => 1
  }

  /** What an attack launches: a bolt (a `Projectile`) or a row of flames. */
  datatype Launch = Bolt(x: real, y: real, dir: Facing) | Flamer(x: real, y: real, dir: Facing)

  /** Everything about the boss that its steps change, as one value. */
  datatype State = State(
    posX: real, posY: real, health: int, hitNumber: int,
    isEntering: int, isFloating: int, isCharging: int, isAttacking: int, isHurt: int,
    isDying: int, isDead: int,
    sequence: Sequence, sequenceIdx: nat, facing: Facing, timeSinceLastFrameSwap: real)

  /**
   * The state `init` leaves. The entrance tween then carries the boss from
   * above the screen down to `EntranceRow`, which its end writes.
   */
  const Arrival: State :=
    State(StartX, StartY, StartHealth, 0, 1, 0, 0, 0, 0, 0, 0, Float, 0, Left, 0.0)

  function Rect(s: State): Box
  {
    Footprint(s.posX, s.posY, Width, Depth)
  }

  /** The entrance: a 6300 ms tween whose end starts the first charge. */
  const Entrance: Motion<Cue<Enemies.Enemy>> := Motion(6300.0, Some(BossArrived))

  /** The recoil after the last update of a hurt: 100 ms to `spot`, whose end floats the boss away. */
  function Recoil(spot: Point): Motion<Cue<Enemies.Enemy>>
  {
    Motion(100.0, Some(BossRecoiled(spot)))
  }

  /**
   * Where the recoil takes the boss: five units away from the way it faces,
   * and five up or down as the draw `r` falls below one half or not.
   */
  function RecoilSpot(s: State, r: Unit): (p: Point)
    ensures p.x - s.posX == (if s.facing == Left then 5.0 else -5.0)
    ensures p.y - s.posY == (if r < 0.5 then -5.0 else 5.0)
  {
    Point(if s.facing == Left then s.posX + 5.0 else s.posX - 5.0, if r < 0.5 then s.posY - 5.0 else s.posY + 5.0)
  }

  /** The rise and the descent of a float, which move only the drawn sprite. */
  const Leg: Motion<Cue<Enemies.Enemy>> := Motion(1000.0, None)

  /** The middle leg of a float, which brings the boss to `spot`. */
  function Move(spot: Point): Motion<Cue<Enemies.Enemy>>
  {
    Motion(1000.0, Some(BossMoved(spot)))
  }

  /**
   * The spot a float lands on, from two draws: a column across the screen,
   * less half the boss's width, and a row in the band the foot soldiers
   * walk, less the boss's depth.
   */
  function Landing(draws: nat -> Unit, used: nat): (p: Point)
    ensures -Width / 2.0 <= p.x <= ScreenWidth as real - 1.0 - Width / 2.0
    ensures 140.0 - Depth <= p.y <= 219.0 - Depth
  {
    Point(Floor(draws(used) as real * ScreenWidth as real) as real - Width / 2.0,
          140.0 + Floor(draws(used + 1) as real * 80.0) as real - Depth)
  }

  predicate Flag(v: int)
  {
    v == 0 || v == 1
  }

  /** What holds of the boss between steps. */
  predicate Invariant(s: State)
  {
    && 0 <= s.hitNumber <= MaxHits
    && Flag(s.isEntering) && Flag(s.isFloating) && Flag(s.isDying) && Flag(s.isDead)
    && 0 <= s.isCharging <= ChargeTime && 0 <= s.isAttacking <= AttackTime && 0 <= s.isHurt <= HurtTime
  }

  lemma ArrivalIsSound()
    ensures Invariant(Arrival) && Arrival.isEntering == 1 && Arrival.health == StartHealth
  {
  }

  /** `update` turns the boss to face the player. */
  function Faced(s: State, player: Box): (r: State)
    ensures r.facing == Left <==> Centre(player).x < Centre(Rect(s)).x
  {
    s.(facing := if Centre(player).x < Centre(Rect(s)).x then Left else Right)
  }

  /** The end of `hurt` for a lethal hit: `kill`, which calls `die`. */
  function Killed(s: State): State
  {
    s.(isHurt := 0, isDying := 0, isDead := 1)
  }

  /** A hit the boss takes: it reels, counts the hit and loses the player's damage. */
  function Hit(s: State, damage: int): State
  {
    s.(isAttacking := 0, isHurt := HurtTime, hitNumber := s.hitNumber + 1, sequence := Hurt,
       health := s.health - damage)
  }

  /**
   * `hurt`, with the player's damage: ignored while entering or floating,
   * and once four hits have landed since the last recoil.
   */
  function Hurted(s: State, damage: int): (r: State)
  {
    if s.isEntering != 0 || s.isFloating != 0 then s
    else if s.hitNumber < MaxHits then
      var t := Hit(s, damage);
      if t.health <= 0 then Killed(t) else t
    else s
  }

  /** `float`: the float sequence; two draws pick the landing spot. */
  function Floated(s: State): State
  {
    s.(sequence := Float, isFloating := 1)
  }

  /** Where an attack's missile starts: at the front edge for a bolt, ahead of it for flames. */
  function Launched(s: State, forward: bool): (l: Launch)
    ensures l.dir == s.facing && (l.Bolt? <==> forward)
  {
    if forward then Bolt(if s.facing == Left then s.posX else s.posX + Width, s.posY - Height + 20.0, s.facing)
    else Flamer(if s.facing == Left then s.posX - 10.0 else s.posX + Width + 10.0, Centre(Rect(s)).y, s.facing)
  }

  /** One update of the charge; the last one draws the attack and launches it. */
  function Charged(s: State, draws: nat -> Unit, used: nat): (r: (State, nat, Option<Launch>))
  {
    var t := s.(isCharging := s.isCharging - 1, sequence := Charge);
    if t.isCharging == 0 then
      var forward := draws(used) < ForwardChance;
      (t.(sequence := if forward then AttackForward else AttackDown, isAttacking := AttackTime),
       used + 1, Some(Launched(t, forward)))
    else (t, used, None)
  }

  /** One update of the attack; the last one floats the boss away, drawing its landing spot. */
  function Attacked(s: State, used: nat): (r: (State, nat))
  {
    var t := s.(isAttacking := s.isAttacking - 1);
    if t.isAttacking == 0 then (Floated(t), used + 2) else (t, used)
  }

  /** One update of a hurt; the last one draws the recoil's direction and starts it. */
  function Reeled(s: State, used: nat): (r: (State, nat, bool))
  {
    var t := s.(isHurt := s.isHurt - 1);
    if t.isHurt == 0 then (t, used + 1, true) else (t, used, false)
  }

  /**
   * The state machine of `update`: exactly one of entering, charging,
   * attacking or hurt acts, in that order of priority. Returns the new
   * state, the draws used, what was launched and whether a recoil started.
   */
  function Acted(s: State, draws: nat -> Unit, used: nat): (r: (State, nat, Option<Launch>, bool))
  {
    if s.isEntering != 0 then (s, used, None, false)
    else if s.isCharging != 0 then
      var c := Charged(s, draws, used);
      (c.0, c.1, c.2, false)
    else if s.isAttacking != 0 then
      var a := Attacked(s, used);
      (a.0, a.1, None, false)
    else if s.isHurt != 0 then
      var h := Reeled(s, used);
      (h.0, h.1, None, h.2)
    else (s, used, None, false)
  }

  /** What a completion callback of the boss's tweens and timelines does to it. */
  function Heard(s: State, cue: Cue<Enemies.Enemy>, used: nat): (r: (State, nat))
  {
    match cue
    case BossArrived => (s.(posY := EntranceRow, isEntering := 0, isCharging := ChargeTime), used)
    case BossMoved(p) => (s.(posX := p.x, posY := p.y), used)
    case BossLanded => (s.(isFloating := 0, isCharging := ChargeTime), used)
    case BossRecoiled(p) => (Floated(s.(posX := p.x, posY := p.y, hitNumber := 0)), used + 2)
    case _ => (s, used)
  }

  /** The callbacks of a sweep, heard in order. */
  function HeardAll(s: State, cues: seq<Cue<Enemies.Enemy>>, used: nat): (r: (State, nat))
    decreases |cues|
  {
    if cues == [] then (s, used)
    else
      var h := Heard(s, cues[0], used);
      HeardAll(h.0, cues[1..], h.1)
  }

  /** `animate`: a frame swap once the frame time is exceeded; there is no sequence reset. */
  function Animated(s: State, dt: real): (r: State)
  {
    var time := s.timeSinceLastFrameSwap + dt;
    if time > FrameTime then
      s.(sequenceIdx := NextFrame(s.sequenceIdx, FrameCount(s.sequence)), timeSinceLastFrameSwap := 0.0)
    else s.(timeSinceLastFrameSwap := time)
  }

  /** The timeline `float` builds: three chained legs of 1000 ms, the middle one to `spot`, then land. */
  function FloatTrack(spot: Point): Track<Cue<Enemies.Enemy>>
  {
    Track(0, 3000.0, 0.0, [Leg, Move(spot), Leg], [0.0, 0.0, 0.0], [0.0, 1000.0, 2000.0], 0, Some(BossLanded))
  }

  /** Whether an update's state machine ends the attack, and so floats the boss away. */
  predicate EndsAttack(s: State)
  {
    s.isEntering == 0 && s.isCharging == 0 && s.isAttacking == 1
  }

  /**
   * The tracks of the float timelines that hearing `cues` in order lists:
   * the timeline of every recoil among them, twice, landing where the two
   * draws it takes pick.
   */
  function HeardFloats(cues: seq<Cue<Enemies.Enemy>>, draws: nat -> Unit, used: nat): (r: seq<Track<Cue<Enemies.Enemy>>>)
    decreases |cues|
  {
    if cues == [] then []
    else if cues[0].BossRecoiled? then
      [FloatTrack(Landing(draws, used)), FloatTrack(Landing(draws, used))] + HeardFloats(cues[1..], draws, used + 2)
    else HeardFloats(cues[1..], draws, used)
  }

  /** The floats of a list of callbacks: those of its first, then those of the rest. */
  lemma HeardFloatsStep(cues: seq<Cue<Enemies.Enemy>>, draws: nat -> Unit, used: nat)
    requires cues != []
    ensures HeardFloats(cues, draws, used)
         == if cues[0].BossRecoiled?
            then [FloatTrack(Landing(draws, used)), FloatTrack(Landing(draws, used))] + HeardFloats(cues[1..], draws, used + 2)
            else HeardFloats(cues[1..], draws, used)
  {
  }

  /** Hearing the callbacks takes the draws `HeardFloats` lands the floats with. */
  lemma {:induction false} HeardFloatsDraws(s: State, cues: seq<Cue<Enemies.Enemy>>, draws: nat -> Unit, used: nat)
    ensures |HeardFloats(cues, draws, used)| == HeardAll(s, cues, used).1 - used
    decreases |cues|
  {
    if cues != [] {
      var h := Heard(s, cues[0], used);
      HeardFloatsDraws(h.0, cues[1..], draws, h.1);
    }
  }

  /**
   * The boss's timelines once its state machine has acted: the ones it had,
   * then, if the attack ended, one float timeline landing on `spot` listed
   * twice. `starts` and `tracks` are the tracks of the two lists.
   */
  ghost predicate ActedLists(before: seq<Timeline<Cue<Enemies.Enemy>>>, starts: seq<Track<Cue<Enemies.Enemy>>>,
                             acting: seq<Timeline<Cue<Enemies.Enemy>>>, tracks: seq<Track<Cue<Enemies.Enemy>>>,
                             floats: bool, spot: Point)
  {
    && |starts| == |before| && |tracks| == |acting| == |before| + (if floats then 2 else 0)
    && acting[..|before|] == before && tracks[..|before|] == starts
    && (floats ==> acting[|before|] == acting[|before| + 1] && tracks[|before|] == tracks[|before| + 1] == FloatTrack(spot))
  }

  /** `after` is `before` with one more timeline, of `FloatTrack(spot)`, listed twice. */
  ghost predicate Floating(before: seq<Timeline<Cue<Enemies.Enemy>>>, after: seq<Timeline<Cue<Enemies.Enemy>>>, spot: Point)
    reads after
  {
    && |after| == |before| + 2 && after[..|before|] == before
    && after[|before|] == after[|before| + 1] && after[|before|].Snapshot() == FloatTrack(spot)
  }

  /** The tracks of a list that grew by a list, split. */
  lemma SnapshotsAppend(a: seq<Timeline<Cue<Enemies.Enemy>>>, b: seq<Timeline<Cue<Enemies.Enemy>>>)
    ensures SnapshotsOf(a + b) == SnapshotsOf(a) + SnapshotsOf(b)
  {
    assert forall j :: 0 <= j < |a + b| ==> SnapshotsOf(a + b)[j] == (SnapshotsOf(a) + SnapshotsOf(b))[j];
  }

  /*
   * What the steps promise.
   */

  /** `hurt` is ignored while the boss enters or floats. */
  lemma HurtIgnoredWhileEnteringOrFloating(s: State, damage: int)
    requires s.isEntering != 0 || s.isFloating != 0
    ensures Hurted(s, damage) == s
  {
  }

  /**
   * A hit lands only while fewer than four have landed: it counts itself,
   * takes the player's damage, stops the attack and reels the boss for 30
   * updates unless it is lethal, in which case the boss ends dead, neither
   * dying nor hurt.
   */
  lemma HurtLandsBelowCap(s: State, damage: int)
    requires s.isEntering == 0 && s.isFloating == 0
    ensures var r := Hurted(s, damage);
      && (s.hitNumber >= MaxHits ==> r == s)
      && (s.hitNumber < MaxHits ==>
            && r.hitNumber == s.hitNumber + 1 && r.health == s.health - damage
            && r.isAttacking == 0 && r.sequence == Hurt
            && (r.health > 0 ==> r.isHurt == HurtTime && r.isDying == s.isDying && r.isDead == s.isDead)
            && (r.health <= 0 ==> r.isHurt == 0 && r.isDying == 0 && r.isDead == 1))
  {
  }

  /** No step but the end of a recoil lowers the hit count. */
  lemma OnlyRecoilResetsHits(s: State, damage: int, cue: Cue<Enemies.Enemy>, draws: nat -> Unit, used: nat, dt: real)
    ensures Hurted(s, damage).hitNumber >= s.hitNumber
    ensures Acted(s, draws, used).0.hitNumber == s.hitNumber
    ensures Animated(s, dt).hitNumber == s.hitNumber
    ensures Heard(s, cue, used).0.hitNumber == if cue.BossRecoiled? then 0 else s.hitNumber
  {
  }

  lemma HurtKeepsInvariant(s: State, damage: int)
    requires Invariant(s)
    ensures Invariant(Hurted(s, damage))
  {
  }

  lemma ActKeepsInvariant(s: State, draws: nat -> Unit, used: nat)
    requires Invariant(s)
    ensures Invariant(Acted(s, draws, used).0)
  {
  }

  lemma HearKeepsInvariant(s: State, cue: Cue<Enemies.Enemy>, used: nat)
    requires Invariant(s)
    ensures Invariant(Heard(s, cue, used).0)
  {
  }

  lemma {:induction false} HearAllKeepsInvariant(s: State, cues: seq<Cue<Enemies.Enemy>>, used: nat)
    requires Invariant(s)
    ensures Invariant(HeardAll(s, cues, used).0)
    decreases |cues|
  {
    if cues != [] {
      HearKeepsInvariant(s, cues[0], used);
      var h := Heard(s, cues[0], used);
      HearAllKeepsInvariant(h.0, cues[1..], h.1);
    }
  }

  /** `update` keeps the invariant, whatever callbacks the boss's sweeps fire. */
  lemma UpdateKeepsInvariant(s: State, player: Box, draws: nat -> Unit, used: nat, cues: seq<Cue<Enemies.Enemy>>, dt: real)
    requires Invariant(s)
    ensures var a := Acted(Faced(s, player), draws, used);
      Invariant(Animated(HeardAll(a.0, cues, a.1).0, dt))
  {
    var a := Acted(Faced(s, player), draws, used);
    ActKeepsInvariant(Faced(s, player), draws, used);
    HearAllKeepsInvariant(a.0, cues, a.1);
  }

  /**
   * The charge counts down by one per update; its last update picks the
   * attack by one draw, launches the bolt or flames and holds the attack
   * for 50 updates.
   */
  lemma ChargeCountsDown(s: State, draws: nat -> Unit, used: nat)
    requires s.isEntering == 0 && s.isCharging > 0
    ensures var r := Acted(s, draws, used);
      && r.0.isCharging == s.isCharging - 1 && !r.3
      && (s.isCharging > 1 ==> r.0.sequence == Charge && r.1 == used && r.2 == None && r.0.isAttacking == s.isAttacking)
      && (s.isCharging == 1 ==>
            && r.0.isAttacking == AttackTime && r.1 == used + 1 && r.2.Some?
            && (r.0.sequence == AttackForward <==> draws(used) < ForwardChance)
            && (r.0.sequence == AttackForward || r.0.sequence == AttackDown)
            && (r.2.value.Bolt? <==> r.0.sequence == AttackForward))
  {
  }

  /** An attack counts down once the charge is over; its last update floats the boss away. */
  lemma AttackEndsInFloat(s: State, draws: nat -> Unit, used: nat)
    requires s.isEntering == 0 && s.isCharging == 0 && s.isAttacking > 0
    ensures var r := Acted(s, draws, used);
      && r.0.isAttacking == s.isAttacking - 1 && r.2 == None && !r.3
      && (s.isAttacking == 1 <==> r.0.isFloating == 1 && r.0.sequence == Float && r.1 == used + 2)
      && (s.isAttacking > 1 ==> r.0 == s.(isAttacking := s.isAttacking - 1) && r.1 == used)
  {
  }

  /** `n` updates of the state machine, with no hit or callback in between. */
  function ActedTimes(s: State, draws: nat -> Unit, used: nat, n: nat): (r: (State, nat))
    decreases n
  {
    if n == 0 then (s, used)
    else
      var p := ActedTimes(s, draws, used, n - 1);
      var a := Acted(p.0, draws, p.1);
      (a.0, a.1)
  }

  /**
   * A charge of `c` updates ends after exactly `c` updates, having drawn
   * once: the boss then holds its attack for 50 updates.
   */
  lemma {:induction false} ChargeLasts(s: State, draws: nat -> Unit, used: nat, n: nat)
    requires s.isEntering == 0 && n <= s.isCharging
    ensures var r := ActedTimes(s, draws, used, n);
      && r.0.isCharging == s.isCharging - n && r.0.isEntering == 0
      && (n < s.isCharging ==> r.1 == used && r.0.isAttacking == s.isAttacking)
      && (n == s.isCharging > 0 ==> r.1 == used + 1 && r.0.isAttacking == AttackTime)
    decreases n
  {
    if n > 0 {
      ChargeLasts(s, draws, used, n - 1);
      var p := ActedTimes(s, draws, used, n - 1);
      ChargeCountsDown(p.0, draws, p.1);
    }
  }

  /**
   * What the boss's callbacks do: the end of the entrance and the landing
   * of a float start a charge, the entrance's end at `EntranceRow`; the
   * middle leg of a float and the recoil leave the boss at their spot, and
   * the recoil's end floats it away with two draws and no hits counted.
   */
  lemma CallbacksStartCharge(s: State, used: nat, spot: Point)
    ensures var r := Heard(s, BossArrived, used);
      r.0.isEntering == 0 && r.0.isCharging == ChargeTime && r.0.posY == EntranceRow && r.0.posX == s.posX && r.1 == used
    ensures var r := Heard(s, BossLanded, used);
      r.0.isFloating == 0 && r.0.isCharging == ChargeTime && r.0.posX == s.posX && r.0.posY == s.posY && r.1 == used
    ensures var r := Heard(s, BossMoved(spot), used); r.0 == s.(posX := spot.x, posY := spot.y) && r.1 == used
    ensures var r := Heard(s, BossRecoiled(spot), used);
      && r.0.hitNumber == 0 && r.0.isFloating == 1 && r.0.sequence == Float && r.1 == used + 2
      && r.0.posX == spot.x && r.0.posY == spot.y
  {
  }

  /**
   * A float is three chained legs of 1000 ms: 3000 ms in all, after which
   * it lands. Its callbacks are the move to its spot and the landing.
   */
  lemma FloatTakes3000(spot: Point, dt: real)
    requires dt >= 0.0
    ensures WellFormed(FloatTrack(spot))
    ensures FloatTrack(spot).triggers == [0.0, 1000.0, 2000.0] && FloatTrack(spot).totalDuration == 3000.0
    ensures Step(FloatTrack(spot), dt).0.state == 2 <==> dt >= 3000.0
    ensures dt >= 3000.0 ==> Step(FloatTrack(spot), dt).1 == [BossLanded]
    ensures forall c :: CueOf(FloatTrack(spot), c) <==> c == BossMoved(spot) || c == BossLanded
  {
    var t := FloatTrack(spot);
    assert t.tweenQueue[1].onComplete == Some(BossMoved(spot));
    forall c | CueOf(t, c)
      ensures c == BossMoved(spot) || c == BossLanded
    {
      if t.onComplete != Some(c) {
        var k :| 0 <= k < |t.tweenQueue| && t.tweenQueue[k].onComplete == Some(c);
      }
    }
  }

  /**
   * The boss lists each float timeline twice, so one sweep updates it
   * twice: an unfinished float timeline listed at two entries of the
   * boss's list ends the sweep as two updates of it.
   */
  lemma FloatSweptTwice(list: seq<Timeline<Cue<Enemies.Enemy>>>, starts: seq<Track<Cue<Enemies.Enemy>>>, dt: real, j: nat)
    requires |starts| == |list| && j + 1 < |list| && list[j] == list[j + 1] && dt >= 0.0
    requires WellFormed(starts[j]) && starts[j].state != 2
    requires forall k :: 0 <= k < |list| && k != j && k != j + 1 ==> list[k] != list[j]
    ensures TrackAt(list, starts, dt, |list|, j) == Visit(Step(starts[j], dt).0, dt)
  {
    SweepStepsOncePerListing(list, starts, dt, |list|, j);
    assert list[..|list|] == list;
    CountTwo(list, list[j], j);
    assert StepTimes(starts[j], dt, 1) == Visit(starts[j], dt);
  }

  /** An object held at exactly two adjacent entries is counted twice. */
  lemma {:induction false} CountTwo<T>(s: seq<T>, x: T, j: nat)
    requires j + 1 < |s| && s[j] == x && s[j + 1] == x
    requires forall k :: 0 <= k < |s| && k != j && k != j + 1 ==> s[k] != x
    ensures Count(s, x) == 2
    decreases |s|
  {
    var n := |s| - 1;
    assert s[..n] == s[..|s| - 1];
    if n == j + 1 {
      CountNone(s[..j], x);
      assert s[..n][..j] == s[..j];
      assert s[..n] == s[..j] + [x];
    } else {
      CountTwo(s[..n], x, j);
    }
  }

  /** A sequence that does not hold x counts it zero times. */
  lemma {:induction false} CountNone<T>(s: seq<T>, x: T)
    requires forall k :: 0 <= k < |s| ==> s[k] != x
    ensures Count(s, x) == 0
    decreases |s|
  {
    if s != [] {
      CountNone(s[..|s| - 1], x);
    }
  }

  /** b holds a as its front part. */
  predicate Extends<T(==)>(a: seq<T>, b: seq<T>)
  {
    |a| <= |b| && b[..|a|] == a
  }

  class Shredder {
    var posX: real
    var posY: real
    const width: real := Width
    const height: real := Height
    const depth: real := Depth
    var health: int
    var hitNumber: int
    const maxHits: int := MaxHits
    var isEntering: int
    var isFloating: int
    var isCharging: int
    var isAttacking: int
    var isHurt: int
    var isDying: int
    var isDead: int
    var tweens: seq<Tween<Cue<Enemies.Enemy>>>
    var timelines: seq<Timeline<Cue<Enemies.Enemy>>>
    var sequence: Sequence
    var sequenceIdx: nat
    var facing: Facing
    const animationUpdateTime: real := FrameTime
    var timeSinceLastFrameSwap: real

    ghost function Snapshot(): State
      reads this
    {
      State(posX, posY, health, hitNumber, isEntering, isFloating, isCharging, isAttacking, isHurt,
            isDying, isDead, sequence, sequenceIdx, facing, timeSinceLastFrameSwap)
    }

    /** The boss's timelines are sound. */
    ghost predicate Valid()
      reads this, timelines
    {
      forall k :: 0 <= k < |timelines| ==> timelines[k].Valid()
    }

    /** `init`, which ends by calling `enter`: the entrance tween is the boss's only tween. */
    constructor ()
      ensures Snapshot() == Arrival && Valid()
      ensures |tweens| == 1 && fresh(tweens[0]) && tweens[0].motion == Entrance && tweens[0].elapsed == 0.0
      ensures timelines == []
    {
      posX, posY := StartX, StartY;
      health, hitNumber := StartHealth, 0;
      isEntering, isFloating, isCharging, isAttacking, isHurt, isDying, isDead := 1, 0, 0, 0, 0, 0, 0;
      sequence, sequenceIdx, facing := Sequence.Float, 0, Left;
      timeSinceLastFrameSwap := 0.0;
      timelines := [];
      var t1 := new Tween(Entrance);
      tweens := [t1];
    }

    function CollisionRect(): (b: Box)
      reads this
      ensures b.x1 == posX && b.y1 == posY
      ensures b.x2 - b.x1 == width && b.y2 - b.y1 == depth
    {
      Footprint(posX, posY, width, depth)
    }

    /** `getCenterPoint`: the middle of the floor rectangle. */
    function CenterPoint(): (p: Point)
      reads this
      ensures p == Centre(CollisionRect())
    {
      Point(posX + width / 2.0, posY + depth / 2.0)
    }

    function GetY(): (y: real)
      reads this
      ensures CollisionRect().y1 <= y <= CollisionRect().y2
    {
      CenterPoint().y
    }

    /** `attack`. */
    method Attack()
      modifies this
      ensures Snapshot() == old(Snapshot()).(isAttacking := 1)
      ensures tweens == old(tweens) && timelines == old(timelines)
    {
      isAttacking := 1;
    }

    /**
     * `float`: take the float sequence and list a new three-leg timeline,
     * twice, as the script does.
     */
    method Float(dice: Dice)
      requires Valid()
      modifies this, dice
      ensures Valid() && Snapshot() == Floated(old(Snapshot())) && dice.used == old(dice.used) + 2
      ensures tweens == old(tweens)
      ensures Floating(old(timelines), timelines, Landing(dice.draws, old(dice.used))) && fresh(timelines[|old(timelines)|])
    {
      sequence := Sequence.Float;
      isFloating := 1;
      var tl := FloatTimeline(dice);
      timelines := timelines + [tl, tl];
    }

    /** `kill`, which calls `die`. */
    method Kill()
      modifies this
      ensures Snapshot() == Killed(old(Snapshot()))
      ensures tweens == old(tweens) && timelines == old(timelines)
    {
      isHurt := 0;
      isDying := 1;
      Die();
    }

    method Die()
      modifies this
      ensures Snapshot() == old(Snapshot()).(isDying := 0, isDead := 1)
      ensures tweens == old(tweens) && timelines == old(timelines)
    {
      isDying := 0;
      isDead := 1;
    }

    /** The part of `hurt` that takes a hit. */
    method TakeHit(damage: int)
      modifies this
      ensures Snapshot() == Hit(old(Snapshot()), damage)
      ensures tweens == old(tweens) && timelines == old(timelines)
    {
      isAttacking := 0;
      isHurt := HurtTime;
      hitNumber := hitNumber + 1;
      sequence := Sequence.Hurt;
      health := health - damage;
    }

    /** `hurt`, with the player's damage. */
    method Hurt(damage: int)
      modifies this
      ensures Snapshot() == Hurted(old(Snapshot()), damage)
      ensures tweens == old(tweens) && timelines == old(timelines)
    {
      if isEntering != 0 || isFloating != 0 {
        return;
      }
      if hitNumber < maxHits {
        TakeHit(damage);
        if health <= 0 {
          Kill();
        }
      }
    }

    /** The charging branch of `update`. */
    method Charge(dice: Dice) returns (launch: Option<Launch>)
      modifies this, dice
      ensures (Snapshot(), dice.used, launch) == Charged(old(Snapshot()), dice.draws, old(dice.used))
      ensures tweens == old(tweens) && timelines == old(timelines)
    {
      isCharging := isCharging - 1;
      sequence := Sequence.Charge;
      launch := None;
      if isCharging == 0 {
        var r := dice.Roll();
        var forward := r < ForwardChance;
        launch := Some(
          if forward then Bolt(if facing == Left then posX else posX + width, posY - height + 20.0, facing)
          else Flamer(if facing == Left then posX - 10.0 else posX + width + 10.0, CenterPoint().y, facing));
        sequence := if forward then AttackForward else AttackDown;
        isAttacking := AttackTime;
      }
    }

    /** The attacking branch of `update`. */
    method HoldAttack(dice: Dice)
      requires Valid()
      modifies this, dice
      ensures Valid() && (Snapshot(), dice.used) == Attacked(old(Snapshot()), old(dice.used))
      ensures tweens == old(tweens) && Extends(old(timelines), timelines)
      ensures forall k :: |old(timelines)| <= k < |timelines| ==> fresh(timelines[k])
      ensures if old(isAttacking) == 1
              then Floating(old(timelines), timelines, Landing(dice.draws, old(dice.used))) && fresh(timelines[|old(timelines)|])
              else timelines == old(timelines)
    {
      isAttacking := isAttacking - 1;
      if isAttacking == 0 {
        Float(dice);
      }
    }

    /** The hurt branch of `update`; its last update returns the recoil tween. */
    method Reel(dice: Dice) returns (recoil: Option<Tween<Cue<Enemies.Enemy>>>)
      modifies this, dice
      ensures var r := Reeled(old(Snapshot()), old(dice.used));
        Snapshot() == r.0 && dice.used == r.1 && (recoil.Some? <==> r.2)
      ensures tweens == old(tweens) && timelines == old(timelines)
      ensures recoil.Some? ==> && fresh(recoil.value) && recoil.value.elapsed == 0.0
                               && recoil.value.motion == Recoil(RecoilSpot(old(Snapshot()), dice.draws(old(dice.used))))
    {
      isHurt := isHurt - 1;
      recoil := None;
      if isHurt == 0 {
        var r := dice.Roll();
        var t := new Tween(Recoil(Point(if facing == Left then posX + 5.0 else posX - 5.0,
                                        if r < 0.5 then posY - 5.0 else posY + 5.0)));
        recoil := Some(t);
      }
    }

    /** The state machine of `update`. */
    method Act(dice: Dice) returns (launch: Option<Launch>, recoil: Option<Tween<Cue<Enemies.Enemy>>>)
      requires Valid()
      modifies this, dice
      ensures Valid()
      ensures var r := Acted(old(Snapshot()), dice.draws, old(dice.used));
        Snapshot() == r.0 && dice.used == r.1 && launch == r.2 && (recoil.Some? <==> r.3)
      ensures recoil.Some? ==> && fresh(recoil.value) && recoil.value.elapsed == 0.0
                               && recoil.value.motion == Recoil(RecoilSpot(old(Snapshot()), dice.draws(old(dice.used))))
      ensures tweens == old(tweens) && Extends(old(timelines), timelines)
      ensures forall k :: |old(timelines)| <= k < |timelines| ==> fresh(timelines[k])
      ensures if EndsAttack(old(Snapshot()))
              then Floating(old(timelines), timelines, Landing(dice.draws, old(dice.used))) && fresh(timelines[|old(timelines)|])
              else timelines == old(timelines)
    {
      launch, recoil := None, None;
      if isEntering != 0 {
      } else if isCharging != 0 {
        launch := Charge(dice);
      } else if isAttacking != 0 {
        HoldAttack(dice);
      } else if isHurt != 0 {
        recoil := Reel(dice);
      }
    }

    /** What a callback of the boss's tweens and timelines does; the game calls it for the recoil. */
    method Hear(cue: Cue<Enemies.Enemy>, dice: Dice)
      requires Valid()
      modifies this, dice
      ensures Valid() && (Snapshot(), dice.used) == Heard(old(Snapshot()), cue, old(dice.used))
      ensures tweens == old(tweens) && Extends(old(timelines), timelines)
      ensures forall k :: |old(timelines)| <= k < |timelines| ==> fresh(timelines[k])
      ensures if cue.BossRecoiled?
              then Floating(old(timelines), timelines, Landing(dice.draws, old(dice.used))) && fresh(timelines[|old(timelines)|])
              else timelines == old(timelines)
    {
      match cue
      case BossArrived =>
        posY := EntranceRow;
        isEntering := 0;
        isCharging := ChargeTime;
      case BossMoved(p) =>
        posX, posY := p.x, p.y;
      case BossLanded =>
        isFloating := 0;
        isCharging := ChargeTime;
      case BossRecoiled(p) =>
        Recoiled(p, dice);
      case _ =>
    }

    /** The end of the recoil: the boss is at `spot`, counts no hits and floats away. */
    method Recoiled(spot: Point, dice: Dice)
      requires Valid()
      modifies this, dice
      ensures Valid() && (Snapshot(), dice.used) == Heard(old(Snapshot()), BossRecoiled(spot), old(dice.used))
      ensures tweens == old(tweens)
      ensures Floating(old(timelines), timelines, Landing(dice.draws, old(dice.used))) && fresh(timelines[|old(timelines)|])
    {
      posX, posY := spot.x, spot.y;
      hitNumber := 0;
      Float(dice);
    }

    /** The callbacks fired by the boss's own sweeps, heard in order. */
    method HearAll(cues: seq<Cue<Enemies.Enemy>>, dice: Dice)
      requires Valid()
      modifies this, dice
      ensures Valid() && (Snapshot(), dice.used) == HeardAll(old(Snapshot()), cues, old(dice.used))
      ensures tweens == old(tweens) && Extends(old(timelines), timelines)
      ensures forall k :: |old(timelines)| <= k < |timelines| ==> fresh(timelines[k])
      ensures SnapshotsOf(timelines[|old(timelines)|..]) == HeardFloats(cues, dice.draws, old(dice.used))
    {
      var k := 0;
      while k < |cues|
        invariant k <= |cues| && Valid()
        invariant HeardAll(Snapshot(), cues[k..], dice.used) == HeardAll(old(Snapshot()), cues, old(dice.used))
        invariant tweens == old(tweens) && Extends(old(timelines), timelines)
        invariant forall k :: |old(timelines)| <= k < |timelines| ==> fresh(timelines[k])
        invariant SnapshotsOf(timelines[|old(timelines)|..]) + HeardFloats(cues[k..], dice.draws, dice.used)
                  == HeardFloats(cues, dice.draws, old(dice.used))
      {
        HearNext(cues, k, dice, |old(timelines)|, HeardFloats(cues, dice.draws, old(dice.used)));
        assert cues[k..][1..] == cues[k + 1..];
        k := k + 1;
      }
    }

    /** One step of `HearAll`: the callback at `k` is heard and its floats join those already added since `start`. */
    method HearNext(cues: seq<Cue<Enemies.Enemy>>, k: nat, dice: Dice, ghost start: nat, ghost goal: seq<Track<Cue<Enemies.Enemy>>>)
      requires Valid() && k < |cues| && start <= |timelines|
      requires SnapshotsOf(timelines[start..]) + HeardFloats(cues[k..], dice.draws, dice.used) == goal
      modifies this, dice
      ensures Valid() && (Snapshot(), dice.used) == Heard(old(Snapshot()), cues[k], old(dice.used))
      ensures tweens == old(tweens) && Extends(old(timelines), timelines)
      ensures forall j :: |old(timelines)| <= j < |timelines| ==> fresh(timelines[j])
      ensures SnapshotsOf(timelines[start..]) + HeardFloats(cues[k + 1..], dice.draws, dice.used) == goal
    {
      ghost var added := timelines[start..];
      ghost var before := SnapshotsOf(added);
      ghost var c, u := cues[k], dice.used;
      ghost var floats := if c.BossRecoiled? then [FloatTrack(Landing(dice.draws, u)), FloatTrack(Landing(dice.draws, u))] else [];
      assert HeardFloats(cues[k..], dice.draws, u) == floats + HeardFloats(cues[k + 1..], dice.draws, u + |floats|) by {
        HeardFloatsStep(cues[k..], dice.draws, u);
        assert cues[k..][1..] == cues[k + 1..];
      }
      Hear(cues[k], dice);
      assert dice.used == u + |floats|;
      assert SnapshotsOf(timelines[start..]) == before + floats by {
        assert SnapshotsOf(added) == before;
        if c.BossRecoiled? {
          var n := |timelines| - 2;
          assert timelines[start..] == added + timelines[n..];
          assert SnapshotsOf(timelines[n..]) == floats;
          SnapshotsAppend(added, timelines[n..]);
        } else {
          assert timelines[start..] == added;
        }
      }
    }

    /** Callback k of `HearAll`'s list, heard: the float timelines it lists join those listed since `start`. */

    /** The boss's own sweep of its tweens. */
    method SweepOwnTweens(dt: Ms) returns (fired: seq<Cue<Enemies.Enemy>>)
      modifies this, tweens
      ensures Snapshot() == old(Snapshot()) && timelines == old(timelines)
      ensures tweens == KeptTweens(old(tweens), old(ElapsedOf(tweens)), dt, |old(tweens)|)
      ensures fired == SweptCues(old(tweens), old(ElapsedOf(tweens)), dt, |old(tweens)|)
    {
      var kept;
      kept, fired := SweepTweens(tweens, dt);
      tweens := kept;
    }

    /** The boss's own sweep of its timelines. */
    method SweepOwnTimelines(dt: Ms) returns (fired: seq<Cue<Enemies.Enemy>>)
      requires Valid()
      modifies this, timelines
      ensures Valid() && Snapshot() == old(Snapshot()) && tweens == old(tweens)
      ensures AllWellFormed(old(SnapshotsOf(timelines)))
      ensures timelines == KeptTimelines(old(timelines), old(SnapshotsOf(timelines)), dt, |old(timelines)|)
      ensures fired == TimelineCues(old(timelines), old(SnapshotsOf(timelines)), dt, |old(timelines)|)
    {
      ghost var starts := SnapshotsOf(timelines);
      var kept;
      kept, fired := SweepTimelines(timelines, dt);
      KeptAreListed(timelines, starts, dt, |timelines|);
      timelines := kept;
    }

    /** `animate`. */
    method Animate(dt: Ms)
      modifies this
      ensures Snapshot() == Animated(old(Snapshot()), dt)
      ensures tweens == old(tweens) && timelines == old(timelines)
    {
      var time := timeSinceLastFrameSwap + dt;
      if time > animationUpdateTime {
        sequenceIdx := if sequenceIdx < FrameCount(sequence) - 1 then sequenceIdx + 1 else 0;
        timeSinceLastFrameSwap := 0.0;
      } else {
        timeSinceLastFrameSwap := time;
      }
    }

    /** The first part of `update`: turn to the player. */
    method Face(player: Box)
      modifies this
      ensures Snapshot() == Faced(old(Snapshot()), player)
      ensures tweens == old(tweens) && timelines == old(timelines)
    {
      facing := if Centre(player).x < CenterPoint().x then Left else Right;
    }

    /** Both of the boss's own sweeps: its tweens, then its timelines. */
    method Sweep(dt: Ms) returns (fired: seq<Cue<Enemies.Enemy>>)
      requires Valid()
      modifies this, tweens, timelines
      ensures Valid() && Snapshot() == old(Snapshot())
      ensures fired == SweptCues(old(tweens), old(ElapsedOf(tweens)), dt, |old(tweens)|)
                       + TimelineCues(old(timelines), old(SnapshotsOf(timelines)), dt, |old(timelines)|)
      ensures tweens == KeptTweens(old(tweens), old(ElapsedOf(tweens)), dt, |old(tweens)|)
      ensures timelines == KeptTimelines(old(timelines), old(SnapshotsOf(timelines)), dt, |old(timelines)|)
      ensures forall t :: t in tweens ==> t in old(tweens)
      ensures forall t :: t in timelines ==> t in old(timelines)
    {
      ghost var elapsed := ElapsedOf(tweens);
      ghost var listed := tweens;
      var fromTweens := SweepOwnTweens(dt);
      KeptTweensListed(listed, elapsed, dt, |listed|);
      assert listed[..|listed|] == listed;
      ghost var starts := SnapshotsOf(timelines);
      ghost var tracked := timelines;
      var fromTimelines := SweepOwnTimelines(dt);
      KeptAreListed(tracked, starts, dt, |tracked|);
      assert tracked[..|tracked|] == tracked;
      fired := fromTweens + fromTimelines;
    }

    /**
     * The last part of `update`: sweep the boss's own tweens, then its
     * timelines, hear the callbacks they fired, and animate.
     */
    method Settle(dt: Ms, dice: Dice) returns (fired: seq<Cue<Enemies.Enemy>>)
      requires Valid()
      modifies this, dice, tweens, timelines
      ensures Valid()
      ensures fired == SweptCues(old(tweens), old(ElapsedOf(tweens)), dt, |old(tweens)|)
                       + TimelineCues(old(timelines), old(SnapshotsOf(timelines)), dt, |old(timelines)|)
      ensures var h := HeardAll(old(Snapshot()), fired, old(dice.used));
        Snapshot() == Animated(h.0, dt) && dice.used == h.1
      ensures tweens == KeptTweens(old(tweens), old(ElapsedOf(tweens)), dt, |old(tweens)|)
      ensures var kept := KeptTimelines(old(timelines), old(SnapshotsOf(timelines)), dt, |old(timelines)|);
        Extends(kept, timelines) && SnapshotsOf(timelines[|kept|..]) == HeardFloats(fired, dice.draws, old(dice.used))
      ensures forall t :: t in tweens ==> t in old(tweens)
      ensures forall t :: t in timelines ==> t in old(timelines) || fresh(t)
    {
      fired := Sweep(dt);
      ghost var swept := timelines;
      HearAll(fired, dice);
      ghost var floats := SnapshotsOf(timelines[|swept|..]);
      assert floats == HeardFloats(fired, dice.draws, old(dice.used));
      assert forall t :: t in timelines ==> t in swept || fresh(t) by {
        forall t | t in timelines ensures t in swept || fresh(t) {
          var k :| 0 <= k < |timelines| && timelines[k] == t;
          if k < |swept| {
            assert t == swept[k];
          }
        }
      }
      Animate(dt);
      assert SnapshotsOf(timelines[|swept|..]) == floats;
    }

    /**
     * `update`, given the player's floor rectangle: face the player, act,
     * then settle. Returns what an attack launched, the recoil tween and
     * the callbacks the boss's own sweeps fired; as ghosts, the state after
     * acting and the timelines then listed, with their tracks. The sweeps
     * fire the callbacks of the tweens and of those timelines, and keep
     * the unfinished ones, after which the floats the callbacks start join.
     */
    method Update(dt: Ms, player: Box, dice: Dice)
      returns (launch: Option<Launch>, recoil: Option<Tween<Cue<Enemies.Enemy>>>,
               ghost acted: State, ghost acting: seq<Timeline<Cue<Enemies.Enemy>>>,
               ghost tracks: seq<Track<Cue<Enemies.Enemy>>>, fired: seq<Cue<Enemies.Enemy>>)
      requires Valid()
      modifies this, dice, tweens, timelines
      ensures Valid()
      ensures var r := Acted(Faced(old(Snapshot()), player), dice.draws, old(dice.used));
        acted == r.0 && launch == r.2 && (recoil.Some? <==> r.3)
      ensures ActedLists(old(timelines), old(SnapshotsOf(timelines)), acting, tracks,
                         EndsAttack(old(Snapshot())), Landing(dice.draws, old(dice.used)))
      ensures forall k :: |old(timelines)| <= k < |acting| ==> fresh(acting[k])
      ensures AllWellFormed(tracks)
      ensures fired == SweptCues(old(tweens), old(ElapsedOf(tweens)), dt, |old(tweens)|) + TimelineCues(acting, tracks, dt, |acting|)
      ensures tweens == KeptTweens(old(tweens), old(ElapsedOf(tweens)), dt, |old(tweens)|)
      ensures var kept := KeptTimelines(acting, tracks, dt, |acting|);
        && Extends(kept, timelines)
        && SnapshotsOf(timelines[|kept|..]) == HeardFloats(fired, dice.draws, Acted(Faced(old(Snapshot()), player), dice.draws, old(dice.used)).1)
      ensures recoil.Some? ==> && fresh(recoil.value) && recoil.value.elapsed == 0.0
                               && recoil.value.motion == Recoil(RecoilSpot(Faced(old(Snapshot()), player), dice.draws(old(dice.used))))
      ensures var h := HeardAll(acted, fired, Acted(Faced(old(Snapshot()), player), dice.draws, old(dice.used)).1);
        Snapshot() == Animated(h.0, dt) && dice.used == h.1
      ensures forall t :: t in tweens ==> t in old(tweens)
      ensures forall t :: t in timelines ==> t in old(timelines) || fresh(t)
    {
      launch, recoil, acted, acting, tracks := Begin(player, dice);
      fired := Settle(dt, dice);
    }

    /** The first part of `update`: face the player and act; returns what `Update` does of it. */
    method Begin(player: Box, dice: Dice)
      returns (launch: Option<Launch>, recoil: Option<Tween<Cue<Enemies.Enemy>>>,
               ghost acted: State, ghost acting: seq<Timeline<Cue<Enemies.Enemy>>>, ghost tracks: seq<Track<Cue<Enemies.Enemy>>>)
      requires Valid()
      modifies this, dice
      ensures Valid() && acted == Snapshot() && acting == timelines && tracks == SnapshotsOf(timelines) && tweens == old(tweens)
      ensures var r := Acted(Faced(old(Snapshot()), player), dice.draws, old(dice.used));
        acted == r.0 && dice.used == r.1 && launch == r.2 && (recoil.Some? <==> r.3)
      ensures recoil.Some? ==> && fresh(recoil.value) && recoil.value.elapsed == 0.0
                               && recoil.value.motion == Recoil(RecoilSpot(Faced(old(Snapshot()), player), dice.draws(old(dice.used))))
      ensures ActedLists(old(timelines), old(SnapshotsOf(timelines)), acting, tracks,
                         EndsAttack(old(Snapshot())), Landing(dice.draws, old(dice.used)))
      ensures forall k :: |old(timelines)| <= k < |acting| ==> fresh(acting[k])
      ensures forall t :: t in acting ==> t in old(timelines) || fresh(t)
    {
      Face(player);
      launch, recoil := Act(dice);
      acted := Snapshot();
      acting := timelines;
      tracks := SnapshotsOf(timelines);
      assert tracks[..|old(timelines)|] == old(SnapshotsOf(timelines));
      assert forall t :: t in acting ==> t in old(timelines) || fresh(t) by {
        forall t | t in acting ensures t in old(timelines) || fresh(t) {
          var k :| 0 <= k < |acting| && acting[k] == t;
          if k < |old(timelines)| {
            assert t == old(timelines)[k];
          }
        }
      }
    }
  }

  /**
   * The timeline `float` builds. The two draws pick the landing spot, which
   * the middle leg's end writes to the boss's position.
   */
  method FloatTimeline(dice: Dice) returns (tl: Timeline<Cue<Enemies.Enemy>>)
    modifies dice
    ensures fresh(tl) && tl.Valid() && tl.Snapshot() == FloatTrack(Landing(dice.draws, old(dice.used)))
    ensures dice.used == old(dice.used) + 2
  {
    tl := new Timeline();
    var rx := dice.Roll();
    var ry := dice.Roll();
    var newX := Floor(rx as real * ScreenWidth as real) as real - Width / 2.0;
    var newY := 140.0 + Floor(ry as real * 80.0) as real - Depth;
    var t1 := tl.Add(Leg, None);
    var t2 := t1.Add(Move(Point(newX, newY)), None);
    var t3 := t2.Add(Leg, None);
    tl.onComplete := Some(BossLanded);
    assert tl.triggers == [0.0, 1000.0, 2000.0];
  }
}
