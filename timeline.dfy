/**
 * Tweens and the timeline that schedules them (timeline.js), and the sweeps
 * the game loop and the boss run over their lists of each.
 *
 * A tween is modelled only by what the timeline and the game loop observe:
 * its duration, the time it has been advanced by, whether it is still
 * animating and the cue its `onComplete` performs. The values it writes
 * into its target are not modelled.
 *
 * Every tween queued on a timeline is created for that timeline alone and
 * held by nothing else, so the timeline owns its tweens' progress: its
 * queue holds each tween's timing and a parallel sequence holds how far
 * each has been advanced.
 */
module Timelines {
  import opened Scene

  /** The cues an optional callback contributes when it is called. */
  function Cues<C>(o: Option<C>): (r: seq<C>)
    ensures |r| <= 1 && (o.Some? <==> |r| == 1)
    ensures o.Some? ==> r[0] == o.value
  {
    if o.Some? then [o.value] else []
  }

  /** The timing of a tween: how long it runs and what its callback does. */
  datatype Motion<C> = Motion(duration: real, onComplete: Option<C>)

  /** The callback of `m` fires when its elapsed time goes from below its duration to at least it. */
  function Crossed<C>(m: Motion<C>, before: real, after: real): (r: Option<C>)
    ensures r.Some? <==> before < m.duration <= after && m.onComplete.Some?
    ensures r.Some? ==> r == m.onComplete
  {
    if before < m.duration <= after then m.onComplete else None
  }

  /** A tween held directly by the game or the boss. */
  class Tween<C> {
    const motion: Motion<C>
    var elapsed: real

    constructor (motion: Motion<C>)
      ensures this.motion == motion && elapsed == 0.0
    {
      this.motion := motion;
      elapsed := 0.0;
    }

    predicate IsAnimating()
      reads this
    {
      elapsed < motion.duration
    }

    /** Advance by `dt`; the callback fires on the advance that ends the tween. */
    method Update(dt: Ms) returns (fired: Option<C>)
      modifies this
      ensures elapsed == old(elapsed) + dt
      ensures fired == Crossed(motion, old(elapsed), elapsed)
    {
      var before := elapsed;
      elapsed := elapsed + dt;
      fired := Crossed(motion, before, elapsed);
    }
  }

  /** The callbacks fired when a tween at elapsed time `e` is advanced by each of `dts` in turn. */
  function CuesOver<C>(m: Motion<C>, e: real, dts: seq<real>): seq<C>
    decreases |dts|
  {
    if dts == [] then [] else Cues(Crossed(m, e, e + dts[0])) + CuesOver(m, e + dts[0], dts[1..])
  }

  function Sum(s: seq<real>): real
    decreases |s|
  {
    if s == [] then 0.0 else Sum(s[..|s| - 1]) + s[|s| - 1]
  }

  lemma {:induction false} SumFront(s: seq<real>)
    requires s != []
    ensures Sum(s) == s[0] + Sum(s[1..])
    decreases |s|
  {
    if |s| > 1 {
      var n := |s| - 1;
      SumFront(s[..n]);
      assert s[..n][1..] == s[1..][..|s[1..]| - 1];
    }
  }

  lemma {:induction false} SumNonNegative(s: seq<real>)
    requires forall k :: 0 <= k < |s| ==> s[k] >= 0.0
    ensures Sum(s) >= 0.0
    decreases |s|
  {
    if s != [] {
      SumNonNegative(s[..|s| - 1]);
    }
  }

  /**
   * However a tween is advanced by non-negative steps, its callback fires at
   * most once, and it fires exactly when the steps carry it from below its
   * duration to at least it.
   */
  lemma {:induction false} CallbackFiresOnce<C>(m: Motion<C>, e: real, dts: seq<real>)
    requires forall k :: 0 <= k < |dts| ==> dts[k] >= 0.0
    ensures |CuesOver(m, e, dts)| <= 1
    ensures |CuesOver(m, e, dts)| == 1 <==> e < m.duration <= e + Sum(dts) && m.onComplete.Some?
    ensures |CuesOver(m, e, dts)| == 1 ==> CuesOver(m, e, dts)[0] == m.onComplete.value
    decreases |dts|
  {
    if dts != [] {
      var e1, rest := e + dts[0], dts[1..];
      forall k | 0 <= k < |rest|
        ensures rest[k] >= 0.0
      {
        assert rest[k] == dts[k + 1];
      }
      CallbackFiresOnce(m, e1, rest);
      SumFront(dts);
      SumNonNegative(rest);
      var now, later := Cues(Crossed(m, e, e1)), CuesOver(m, e1, rest);
      assert CuesOver(m, e, dts) == now + later;
      if e1 >= m.duration {
        assert later == [];
      } else {
        assert now == [];
      }
    }
  }

  /** What `add` does to the trigger list and the total duration. */
  function Schedule(triggers: seq<real>, total: real, duration: real, position: Option<real>): (r: (seq<real>, real))
    ensures |r.0| == |triggers| + 1 && r.0[..|triggers|] == triggers
    ensures position.None? ==> r.0[|triggers|] == total && r.1 == total + duration
    ensures position.Some? ==> r.0[|triggers|] == Round(position.value) as real
    ensures position.Some? ==> r.1 >= total && r.1 >= position.value + duration
    ensures position.Some? ==> r.1 == total || r.1 == position.value + duration
  {
    match position
    case None => (triggers + [total], total + duration)
    case Some(p) => (triggers + [Round(p) as real], Max(total, p + duration))
  }

  /**
   * The trigger scan of `update`, from position i on, for a clock reading
   * `time`: while the trigger at i has been reached, the tween at i is
   * advanced by dt, the triggered index `idx` moves on if that tween
   * stopped animating and its callback is collected if it fired. Returns
   * the elapsed times, the triggered index and the callbacks.
   */
  function ScanFrom<C>(q: seq<Motion<C>>, triggers: seq<real>, time: real, dt: real,
                       i: nat, el: seq<real>, idx: nat, fired: seq<C>): (r: (seq<real>, nat, seq<C>))
    requires |q| == |triggers| == |el| && i <= |q|
    ensures |r.0| == |el| && idx <= r.1 <= idx + (|q| - i)
    decreases |q| - i
  {
    if i == |triggers| || time < triggers[i] then (el, idx, fired)
    else
      var e := el[i] + dt;
      ScanFrom(q, triggers, time, dt, i + 1, el[i := e],
               if e < q[i].duration then idx else idx + 1,
               fired + Cues(Crossed(q[i], el[i], e)))
  }

  /*
   * A reference description of the scan, position by position: the scan
   * advances every position from i up to the first trigger not reached.
   */

  /**
   * How many of the tweens at positions lo .. hi-1 stop animating when each
   * is advanced by dt from the elapsed times `el`.
   */
  function Completed<C>(q: seq<Motion<C>>, el: seq<real>, dt: real, lo: nat, hi: nat): (n: nat)
    requires |el| == |q| && lo <= hi <= |q|
    ensures n <= hi - lo
    decreases hi - lo
  {
    if lo == hi then 0
    else (if el[lo] + dt < q[lo].duration then 0 else 1) + Completed(q, el, dt, lo + 1, hi)
  }

  /** The callbacks that fire, in queue order, when positions lo .. hi-1 are each advanced by dt. */
  function FiredIn<C>(q: seq<Motion<C>>, el: seq<real>, dt: real, lo: nat, hi: nat): (r: seq<C>)
    requires |el| == |q| && lo <= hi <= |q|
    ensures |r| <= hi - lo
    decreases hi - lo
  {
    if lo == hi then []
    else Cues(Crossed(q[lo], el[lo], el[lo] + dt)) + FiredIn(q, el, dt, lo + 1, hi)
  }

  /** Completed and FiredIn look only at positions lo .. hi-1 of the elapsed times. */
  lemma {:induction false} ScanReadsOnlyRange<C>(q: seq<Motion<C>>, el1: seq<real>, el2: seq<real>, dt: real, lo: nat, hi: nat)
    requires |el1| == |q| && |el2| == |q| && lo <= hi <= |q|
    requires forall k :: lo <= k < hi ==> el1[k] == el2[k]
    ensures Completed(q, el1, dt, lo, hi) == Completed(q, el2, dt, lo, hi)
    ensures FiredIn(q, el1, dt, lo, hi) == FiredIn(q, el2, dt, lo, hi)
    decreases hi - lo
  {
    if lo < hi {
      ScanReadsOnlyRange(q, el1, el2, dt, lo + 1, hi);
    }
  }

  /** The elapsed times after positions lo .. hi-1 have been advanced by dt. */
  function AdvancedIn(el: seq<real>, dt: real, lo: nat, hi: nat): (r: seq<real>)
    ensures |r| == |el|
    ensures forall k :: 0 <= k < |el| ==> r[k] == if lo <= k < hi then el[k] + dt else el[k]
    decreases |el|
  {
    if el == [] then []
    else
      var n := |el| - 1;
      AdvancedIn(el[..n], dt, lo, hi) + [if lo <= n < hi then el[n] + dt else el[n]]
  }

  /** The first position at or after i whose trigger has not been reached. */
  function FirstUnreached(triggers: seq<real>, i: nat, time: real): (j: nat)
    requires i <= |triggers|
    ensures i <= j <= |triggers|
    ensures forall k :: i <= k < j ==> triggers[k] <= time
    ensures j < |triggers| ==> time < triggers[j]
    decreases |triggers| - i
  {
    if i == |triggers| || time < triggers[i] then i else FirstUnreached(triggers, i + 1, time)
  }

  /** The stop index of the scan is the only index with every trigger before it reached and its own not. */
  lemma {:induction false} FirstUnreachedIs(triggers: seq<real>, i: nat, j: nat, time: real)
    requires i <= j <= |triggers|
    requires forall k :: i <= k < j ==> triggers[k] <= time
    requires j == |triggers| || time < triggers[j]
    ensures FirstUnreached(triggers, i, time) == j
    decreases j - i
  {
    if i < j {
      FirstUnreachedIs(triggers, i + 1, j, time);
    }
  }

  /** Everything a timeline holds, as one value. */
  datatype Track<C> = Track(
    state: int,                 // 0 = paused, 1 = playing, 2 = finished
    totalDuration: real,
    totalTime: real,
    tweenQueue: seq<Motion<C>>,
    elapsed: seq<real>,         // how far each queued tween has been advanced
    triggers: seq<real>,
    triggeredIdx: nat,
    onComplete: Option<C>)

  predicate WellFormed<C>(t: Track<C>)
  {
    && |t.tweenQueue| == |t.elapsed| == |t.triggers|
    && t.triggeredIdx <= |t.tweenQueue|
    && (t.state == 0 || t.state == 2)
  }

  /**
   * One `update` of a timeline by dt, and the callbacks it fires. Once the
   * total time reaches the total duration the timeline is finished and its
   * own callback fires, with no tween advanced; otherwise, from the
   * triggered index on, every tween whose trigger has been reached is
   * advanced, and the index moves on once for each that stops animating.
   */
  function Step<C>(t: Track<C>, dt: real): (r: (Track<C>, seq<C>))
    requires WellFormed(t) && dt >= 0.0
    ensures WellFormed(r.0)
  {
    var time := t.totalTime + dt;
    if time >= t.totalDuration then
      (t.(totalTime := time, state := 2), Cues(t.onComplete))
    else
      var r := ScanFrom(t.tweenQueue, t.triggers, time, dt, t.triggeredIdx, t.elapsed, t.triggeredIdx, []);
      (t.(totalTime := time, elapsed := r.0, triggeredIdx := r.1), r.2)
  }

  /*
   * The scan agrees with the reference: it advances exactly the positions
   * from i up to the first trigger not reached, moves the index on once for
   * each of them that stops and collects their callbacks in order.
   */

  lemma {:induction false} ScanAdvancesReached<C>(q: seq<Motion<C>>, triggers: seq<real>, time: real, dt: real,
                                                  i: nat, el: seq<real>, idx: nat, fired: seq<C>)
    requires |q| == |triggers| == |el| && i <= |q|
    ensures ScanFrom(q, triggers, time, dt, i, el, idx, fired).0 == AdvancedIn(el, dt, i, FirstUnreached(triggers, i, time))
    decreases |q| - i
  {
    var j := FirstUnreached(triggers, i, time);
    var want := AdvancedIn(el, dt, i, j);
    if i == |triggers| || time < triggers[i] {
      assert forall k :: 0 <= k < |el| ==> el[k] == want[k];
      assert el == want;
    } else {
      var e := el[i] + dt;
      var el' := el[i := e];
      ScanAdvancesReached(q, triggers, time, dt, i + 1, el', if e < q[i].duration then idx else idx + 1,
                          fired + Cues(Crossed(q[i], el[i], e)));
      var got := AdvancedIn(el', dt, i + 1, j);
      assert forall k :: 0 <= k < |el| ==> got[k] == want[k];
      assert got == want;
    }
  }

  lemma {:induction false} ScanCountsStopped<C>(q: seq<Motion<C>>, triggers: seq<real>, time: real, dt: real,
                                                i: nat, el: seq<real>, idx: nat, fired: seq<C>)
    requires |q| == |triggers| == |el| && i <= |q|
    ensures ScanFrom(q, triggers, time, dt, i, el, idx, fired).1 == idx + Completed(q, el, dt, i, FirstUnreached(triggers, i, time))
    decreases |q| - i
  {
    if !(i == |triggers| || time < triggers[i]) {
      var j := FirstUnreached(triggers, i, time);
      var e := el[i] + dt;
      var el' := el[i := e];
      ScanCountsStopped(q, triggers, time, dt, i + 1, el', if e < q[i].duration then idx else idx + 1,
                        fired + Cues(Crossed(q[i], el[i], e)));
      ScanReadsOnlyRange(q, el', el, dt, i + 1, j);
    }
  }

  lemma {:induction false} ScanCollectsFired<C>(q: seq<Motion<C>>, triggers: seq<real>, time: real, dt: real,
                                                i: nat, el: seq<real>, idx: nat, fired: seq<C>)
    requires |q| == |triggers| == |el| && i <= |q|
    ensures ScanFrom(q, triggers, time, dt, i, el, idx, fired).2 == fired + FiredIn(q, el, dt, i, FirstUnreached(triggers, i, time))
    decreases |q| - i
  {
    if !(i == |triggers| || time < triggers[i]) {
      var j := FirstUnreached(triggers, i, time);
      var e := el[i] + dt;
      var el' := el[i := e];
      var now := Cues(Crossed(q[i], el[i], e));
      ScanCollectsFired(q, triggers, time, dt, i + 1, el', if e < q[i].duration then idx else idx + 1, fired + now);
      ScanReadsOnlyRange(q, el', el, dt, i + 1, j);
      var rest := FiredIn(q, el, dt, i + 1, j);
      assert FiredIn(q, el, dt, i, j) == now + rest;
      assert (fired + now) + rest == fired + (now + rest);
    }
  }

  /** Every callback a scan fires belongs to one of the tweens it scanned. */
  lemma {:induction false} FiredBelongToScanned<C>(q: seq<Motion<C>>, el: seq<real>, dt: real, lo: nat, hi: nat)
    requires |el| == |q| && lo <= hi <= |q|
    ensures forall c :: c in FiredIn(q, el, dt, lo, hi) ==> exists k :: lo <= k < hi && q[k].onComplete == Some(c)
    decreases hi - lo
  {
    if lo < hi {
      FiredBelongToScanned(q, el, dt, lo + 1, hi);
    }
  }

  /**
   * What one step promises. The schedule and the callbacks are left alone
   * and the clock moves on by dt. The timeline is finished after the step
   * exactly when it was before or its total time has reached its total
   * duration, and the step that reaches it fires the timeline's own
   * callback and no tween's. Otherwise only tweens from the triggered index
   * on fire, the triggered index never moves back, and each tween is either
   * left alone or advanced by exactly dt once its trigger has been reached.
   */
  lemma StepFacts<C>(t: Track<C>, dt: real)
    requires WellFormed(t) && dt >= 0.0
    ensures var r := Step(t, dt);
      && r.0.tweenQueue == t.tweenQueue && r.0.triggers == t.triggers
      && r.0.totalDuration == t.totalDuration && r.0.onComplete == t.onComplete
      && r.0.totalTime == t.totalTime + dt
      && (r.0.state == 2 <==> t.state == 2 || r.0.totalTime >= t.totalDuration)
      && (r.0.totalTime >= t.totalDuration ==> r.1 == Cues(t.onComplete) && r.0.elapsed == t.elapsed)
      && (r.0.totalTime < t.totalDuration ==>
            forall c :: c in r.1 ==> exists k :: t.triggeredIdx <= k < |t.tweenQueue| && t.tweenQueue[k].onComplete == Some(c))
      && t.triggeredIdx <= r.0.triggeredIdx <= |t.tweenQueue|
      && (forall k :: 0 <= k < t.triggeredIdx ==> r.0.elapsed[k] == t.elapsed[k])
      && (forall k :: 0 <= k < |t.elapsed| ==>
            r.0.elapsed[k] == t.elapsed[k] || (r.0.elapsed[k] == t.elapsed[k] + dt && t.triggers[k] <= r.0.totalTime))
  {
    var time := t.totalTime + dt;
    if time < t.totalDuration {
      var j := FirstUnreached(t.triggers, t.triggeredIdx, time);
      ScanAdvancesReached(t.tweenQueue, t.triggers, time, dt, t.triggeredIdx, t.elapsed, t.triggeredIdx, []);
      ScanCountsStopped(t.tweenQueue, t.triggers, time, dt, t.triggeredIdx, t.elapsed, t.triggeredIdx, []);
      ScanCollectsFired(t.tweenQueue, t.triggers, time, dt, t.triggeredIdx, t.elapsed, t.triggeredIdx, []);
      FiredBelongToScanned(t.tweenQueue, t.elapsed, dt, t.triggeredIdx, j);
    }
  }

  class Timeline<C> {
    var state: int                 // 0 = paused, 1 = playing, 2 = finished
    var totalDuration: real
    var totalTime: real
    var tweenQueue: seq<Motion<C>>
    var elapsed: seq<real>
    var triggers: seq<real>
    var triggeredIdx: nat
    var onComplete: Option<C>

    /** The whole state of the timeline as a value. */
    ghost function Snapshot(): Track<C>
      reads this
    {
      Track(state, totalDuration, totalTime, tweenQueue, elapsed, triggers, triggeredIdx, onComplete)
    }

    /** The timeline holds exactly the state t. */
    ghost predicate Holds(t: Track<C>)
      reads this
    {
      && state == t.state && totalDuration == t.totalDuration && totalTime == t.totalTime
      && tweenQueue == t.tweenQueue && elapsed == t.elapsed && triggers == t.triggers
      && triggeredIdx == t.triggeredIdx && onComplete == t.onComplete
    }

    ghost predicate Valid()
      reads this
    {
      WellFormed(Snapshot())
    }

    constructor ()
      ensures Valid() && !IsFinished()
      ensures Snapshot() == Track(0, 0.0, 0.0, [], [], [], 0, None)
    {
      state := 0;
      totalDuration := 0.0;
      totalTime := 0.0;
      tweenQueue := [];
      elapsed := [];
      triggers := [];
      triggeredIdx := 0;
      onComplete := None;
    }

    predicate IsFinished()
      reads this
    {
      state == 2
    }

    /**
     * Queue a new tween, either after everything queued so far (no position)
     * or at an explicit position; returns the timeline itself for chaining.
     */
    method Add(tween: Motion<C>, position: Option<real>) returns (self: Timeline<C>)
      requires Valid()
      modifies this
      ensures Valid() && self == this
      ensures tweenQueue == old(tweenQueue) + [tween] && elapsed == old(elapsed) + [0.0]
      ensures (triggers, totalDuration) == Schedule(old(triggers), old(totalDuration), tween.duration, position)
      ensures state == old(state) && totalTime == old(totalTime)
      ensures triggeredIdx == old(triggeredIdx) && onComplete == old(onComplete)
    {
      tweenQueue := tweenQueue + [tween];
      elapsed := elapsed + [0.0];
      if position.None? {
        triggers := triggers + [totalDuration];
        totalDuration := totalDuration + tween.duration;
      } else {
        triggers := triggers + [Round(position.value) as real];
        totalDuration := Max(totalDuration, position.value + tween.duration);
      }
      self := this;
    }

    /**
     * Advance the timeline by dt. Nothing here refuses a timeline that is
     * already finished: its callback fires again.
     */
    method Update(dt: Ms) returns (fired: seq<C>)
      requires Valid()
      modifies this
      ensures Valid()
      ensures Holds(Step(old(Snapshot()), dt).0)
      ensures fired == Step(old(Snapshot()), dt).1
    {
      ghost var before := Snapshot();
      var time := totalTime + dt;
      if time >= totalDuration {
        totalTime := time;
        state := 2;
        fired := Cues(onComplete);
        return;
      }
      var el, idx := elapsed, triggeredIdx;
      var i := triggeredIdx;
      fired := [];
      while i < |triggers|
        invariant i <= |triggers| && |el| == |elapsed|
        invariant ScanFrom(tweenQueue, triggers, time, dt, i, el, idx, fired)
                  == ScanFrom(tweenQueue, triggers, time, dt, triggeredIdx, elapsed, triggeredIdx, [])
        decreases |triggers| - i
      {
        if time >= triggers[i] {
          var e := el[i] + dt;
          fired := fired + Cues(Crossed(tweenQueue[i], el[i], e));
          el := el[i := e];
          if e >= tweenQueue[i].duration {
            idx := idx + 1;
          }
          i := i + 1;
        } else {
          break;
        }
      }
      assert ScanFrom(tweenQueue, triggers, time, dt, i, el, idx, fired) == (el, idx, fired);
      totalTime, elapsed, triggeredIdx := time, el, idx;
    }
  }

  /** The schedule built by a series of `add` calls on a fresh timeline. */
  function ScheduleAll(durations: seq<real>, positions: seq<Option<real>>): (r: (seq<real>, real))
    requires |durations| == |positions|
    ensures |r.0| == |durations|
    decreases |durations|
  {
    if durations == [] then ([], 0.0)
    else
      var n := |durations| - 1;
      var prev := ScheduleAll(durations[..n], positions[..n]);
      Schedule(prev.0, prev.1, durations[n], positions[n])
  }

  /**
   * Adds without a position chain their tweens one after another: each is
   * triggered at the sum of the durations before it, and the total is the
   * sum of all durations.
   */
  lemma {:induction false} ChainedAddsArePrefixSums(durations: seq<real>, positions: seq<Option<real>>)
    requires |durations| == |positions|
    requires forall k :: 0 <= k < |positions| ==> positions[k].None?
    ensures var r := ScheduleAll(durations, positions);
            && r.1 == Sum(durations)
            && forall k :: 0 <= k < |durations| ==> r.0[k] == Sum(durations[..k])
    decreases |durations|
  {
    if durations != [] {
      var n := |durations| - 1;
      ChainedAddsArePrefixSums(durations[..n], positions[..n]);
      assert durations[..n][..n] == durations[..n];
      forall k | 0 <= k < n ensures durations[..n][..k] == durations[..k] { }
    }
  }

  /** With non-negative durations the total duration never decreases over a series of adds. */
  lemma {:induction false} TotalNeverDecreases(durations: seq<real>, positions: seq<Option<real>>, m: nat)
    requires |durations| == |positions| && m <= |durations|
    requires forall k :: 0 <= k < |durations| ==> durations[k] >= 0.0
    ensures ScheduleAll(durations[..m], positions[..m]).1 <= ScheduleAll(durations, positions).1
    decreases |durations|
  {
    if m < |durations| {
      var n := |durations| - 1;
      assert durations[..n][..m] == durations[..m] && positions[..n][..m] == positions[..m];
      TotalNeverDecreases(durations[..n], positions[..n], m);
    } else {
      assert durations[..m] == durations && positions[..m] == positions;
    }
  }

  /*
   * The sweeps. The game loop and the boss each hold a list of tweens and a
   * list of timelines and sweep them once per frame, front to back: an entry
   * that has stopped is spliced out of the list, any other is updated once.
   * The same object may be listed twice (the boss pushes each float
   * timeline twice), in which case it is updated once per entry.
   *
   * The reference definitions say what state each entry holds after the
   * sweep has visited the first n entries; the methods record what they see
   * on reaching each entry, and a lemma ties that record to the reference.
   */

  predicate AllWellFormed<C>(s: seq<Track<C>>)
  {
    forall k :: 0 <= k < |s| ==> WellFormed(s[k])
  }

  /** What a sweep does to the timeline of an entry it reaches: update it unless it is finished. */
  function Visit<C>(t: Track<C>, dt: real): (r: Track<C>)
    requires WellFormed(t) && dt >= 0.0
    ensures WellFormed(r)
  {
    if t.state == 2 then t else Step(t, dt).0
  }

  /** The state of the timeline at entry j once a sweep has visited the first n entries. */
  function TrackAt<C>(list: seq<Timeline<C>>, starts: seq<Track<C>>, dt: real, n: nat, j: nat): (r: Track<C>)
    requires |starts| == |list| && n <= |list| && j < |list| && WellFormed(starts[j]) && dt >= 0.0
    ensures WellFormed(r)
    decreases n
  {
    if n == 0 then starts[j]
    else
      var p := TrackAt(list, starts, dt, n - 1, j);
      if list[n - 1] == list[j] then Visit(p, dt) else p
  }

  /** The entries among the first n that a timeline sweep keeps: those not finished when reached. */
  function KeptTimelines<C>(list: seq<Timeline<C>>, starts: seq<Track<C>>, dt: real, n: nat): (r: seq<Timeline<C>>)
    requires |starts| == |list| && n <= |list| && AllWellFormed(starts) && dt >= 0.0
    ensures |r| <= n
    decreases n
  {
    if n == 0 then []
    else
      KeptTimelines(list, starts, dt, n - 1)
      + if TrackAt(list, starts, dt, n - 1, n - 1).state == 2 then [] else [list[n - 1]]
  }

  /** The callbacks a timeline sweep fires among the first n entries, in firing order. */
  function TimelineCues<C>(list: seq<Timeline<C>>, starts: seq<Track<C>>, dt: real, n: nat): seq<C>
    requires |starts| == |list| && n <= |list| && AllWellFormed(starts) && dt >= 0.0
    decreases n
  {
    if n == 0 then []
    else
      var p := TrackAt(list, starts, dt, n - 1, n - 1);
      TimelineCues(list, starts, dt, n - 1) + if p.state == 2 then [] else Step(p, dt).1
  }

  /** The elapsed time of the tween at entry j once a sweep has visited the first n entries. */
  function ElapsedAt<C>(list: seq<Tween<C>>, starts: seq<real>, dt: real, n: nat, j: nat): real
    requires |starts| == |list| && n <= |list| && j < |list|
    decreases n
  {
    if n == 0 then starts[j]
    else
      var e := ElapsedAt(list, starts, dt, n - 1, j);
      if list[n - 1] == list[j] && e < list[j].motion.duration then e + dt else e
  }

  /** The entries among the first n that a tween sweep keeps: those still animating when reached. */
  function KeptTweens<C>(list: seq<Tween<C>>, starts: seq<real>, dt: real, n: nat): (r: seq<Tween<C>>)
    requires |starts| == |list| && n <= |list|
    ensures |r| <= n
    decreases n
  {
    if n == 0 then []
    else
      var t := list[n - 1];
      KeptTweens(list, starts, dt, n - 1)
      + if ElapsedAt(list, starts, dt, n - 1, n - 1) < t.motion.duration then [t] else []
  }

  /** The callbacks a tween sweep fires among the first n entries, in firing order. */
  function SweptCues<C>(list: seq<Tween<C>>, starts: seq<real>, dt: real, n: nat): seq<C>
    requires |starts| == |list| && n <= |list|
    decreases n
  {
    if n == 0 then []
    else
      var m := list[n - 1].motion;
      var e := ElapsedAt(list, starts, dt, n - 1, n - 1);
      SweptCues(list, starts, dt, n - 1) + if e < m.duration then Cues(Crossed(m, e, e + dt)) else []
  }

  ghost function SnapshotsOf<C>(list: seq<Timeline<C>>): (r: seq<Track<C>>)
    reads list
    ensures |r| == |list| && forall j :: 0 <= j < |list| ==> r[j] == list[j].Snapshot()
  {
    seq(|list|, j requires 0 <= j < |list| reads list => list[j].Snapshot())
  }

  ghost function ElapsedOf<C>(list: seq<Tween<C>>): (r: seq<real>)
    reads list
    ensures |r| == |list| && forall j :: 0 <= j < |list| ==> r[j] == list[j].elapsed
  {
    seq(|list|, j requires 0 <= j < |list| reads list => list[j].elapsed)
  }

  /**
   * The body of the timeline sweep for entry k: a finished timeline is
   * dropped, any other is updated once and kept.
   */
  method VisitTimeline<C>(list: seq<Timeline<C>>, ghost starts: seq<Track<C>>, k: nat, dt: Ms, kept: seq<Timeline<C>>, fired: seq<C>)
    returns (kept': seq<Timeline<C>>, fired': seq<C>)
    requires |starts| == |list| && k < |list| && AllWellFormed(starts)
    requires forall j :: 0 <= j < |list| ==> list[j].Holds(TrackAt(list, starts, dt, k, j))
    requires kept == KeptTimelines(list, starts, dt, k) && fired == TimelineCues(list, starts, dt, k)
    modifies list[k]
    ensures forall j :: 0 <= j < |list| ==> list[j].Holds(TrackAt(list, starts, dt, k + 1, j))
    ensures kept' == KeptTimelines(list, starts, dt, k + 1) && fired' == TimelineCues(list, starts, dt, k + 1)
  {
    var T := list[k];
    kept', fired' := kept, fired;
    if !T.IsFinished() {
      var f := T.Update(dt);
      fired' := fired + f;
      kept' := kept + [T];
    }
  }

  /** The timeline sweep; finished timelines are spliced out, which the kept list records. */
  method SweepTimelines<C>(list: seq<Timeline<C>>, dt: Ms) returns (kept: seq<Timeline<C>>, fired: seq<C>)
    requires forall j :: 0 <= j < |list| ==> list[j].Valid()
    modifies list
    ensures forall j :: 0 <= j < |list| ==> list[j].Valid()
    ensures AllWellFormed(old(SnapshotsOf(list)))
    ensures kept == KeptTimelines(list, old(SnapshotsOf(list)), dt, |list|)
    ensures fired == TimelineCues(list, old(SnapshotsOf(list)), dt, |list|)
    ensures forall j :: 0 <= j < |list| ==> list[j].Holds(TrackAt(list, old(SnapshotsOf(list)), dt, |list|, j))
  {
    ghost var starts := SnapshotsOf(list);
    kept := [];
    fired := [];
    var k := 0;
    while k < |list|
      invariant k <= |list|
      invariant kept == KeptTimelines(list, starts, dt, k)
      invariant fired == TimelineCues(list, starts, dt, k)
      invariant forall j :: 0 <= j < |list| ==> list[j].Holds(TrackAt(list, starts, dt, k, j))
    {
      kept, fired := VisitTimeline(list, starts, k, dt, kept, fired);
      k := k + 1;
    }
  }

  /**
   * The timeline sweep over a list that holds no timeline twice: each
   * unfinished timeline is updated exactly once and kept, in order.
   */
  method SweepDistinctTimelines<C>(list: seq<Timeline<C>>, dt: Ms) returns (kept: seq<Timeline<C>>, fired: seq<C>)
    requires Distinct(list) && forall j :: 0 <= j < |list| ==> list[j].Valid()
    modifies list
    ensures AllWellFormed(old(SnapshotsOf(list)))
    ensures kept == Unfinished(list, old(SnapshotsOf(list)), |list|)
    ensures Distinct(kept) && forall t :: t in kept ==> t in list
    ensures forall j :: 0 <= j < |list| ==> list[j].Valid() && list[j].Holds(Visit(old(list[j].Snapshot()), dt))
    ensures fired == TimelineCues(list, old(SnapshotsOf(list)), dt, |list|)
    ensures forall c :: c in fired ==> exists j :: 0 <= j < |list| && CueOf(old(list[j].Snapshot()), c)
  {
    ghost var starts := SnapshotsOf(list);
    kept, fired := SweepTimelines(list, dt);
    DistinctSweepKeepsUnfinished(list, starts, dt, |list|);
    UnfinishedDistinct(list, starts, |list|);
    assert list[..|list|] == list;
    forall j | 0 <= j < |list|
      ensures list[j].Holds(Visit(starts[j], dt))
    {
      DistinctTrackAt(list, starts, dt, |list|, j);
    }
    TimelineCuesBelong(list, starts, dt, |list|);
  }

  /**
   * The body of the tween sweep for entry k: a tween that stopped animating
   * is dropped, any other is advanced once and kept.
   */
  method VisitTween<C>(list: seq<Tween<C>>, ghost starts: seq<real>, k: nat, dt: Ms, kept: seq<Tween<C>>, fired: seq<C>)
    returns (kept': seq<Tween<C>>, fired': seq<C>)
    requires |starts| == |list| && k < |list|
    requires forall j :: 0 <= j < |list| ==> list[j].elapsed == ElapsedAt(list, starts, dt, k, j)
    requires kept == KeptTweens(list, starts, dt, k) && fired == SweptCues(list, starts, dt, k)
    modifies list[k]
    ensures forall j :: 0 <= j < |list| ==> list[j].elapsed == ElapsedAt(list, starts, dt, k + 1, j)
    ensures kept' == KeptTweens(list, starts, dt, k + 1) && fired' == SweptCues(list, starts, dt, k + 1)
  {
    var t := list[k];
    kept', fired' := kept, fired;
    if t.IsAnimating() {
      var f := t.Update(dt);
      fired' := fired + Cues(f);
      kept' := kept + [t];
    }
  }

  /** The tween sweep; tweens that stopped animating are spliced out, which the kept list records. */
  method SweepTweens<C>(list: seq<Tween<C>>, dt: Ms) returns (kept: seq<Tween<C>>, fired: seq<C>)
    modifies list
    ensures kept == KeptTweens(list, old(ElapsedOf(list)), dt, |list|)
    ensures fired == SweptCues(list, old(ElapsedOf(list)), dt, |list|)
    ensures forall j :: 0 <= j < |list| ==> list[j].elapsed == ElapsedAt(list, old(ElapsedOf(list)), dt, |list|, j)
  {
    ghost var starts := ElapsedOf(list);
    kept := [];
    fired := [];
    var k := 0;
    while k < |list|
      invariant k <= |list|
      invariant kept == KeptTweens(list, starts, dt, k)
      invariant fired == SweptCues(list, starts, dt, k)
      invariant forall j :: 0 <= j < |list| ==> list[j].elapsed == ElapsedAt(list, starts, dt, k, j)
    {
      kept, fired := VisitTween(list, starts, k, dt, kept, fired);
      k := k + 1;
    }
  }

  /** A sweep over a list that holds no timeline twice updates each unfinished timeline exactly once. */
  lemma {:induction false} DistinctTrackAt<C>(list: seq<Timeline<C>>, starts: seq<Track<C>>, dt: real, n: nat, j: nat)
    requires |starts| == |list| && n <= |list| && j < |list| && WellFormed(starts[j]) && dt >= 0.0
    requires Distinct(list)
    ensures TrackAt(list, starts, dt, n, j) ==
              if n <= j then starts[j] else Visit(starts[j], dt)
    decreases n
  {
    if n > 0 {
      DistinctTrackAt(list, starts, dt, n - 1, j);
      if n - 1 > j {
        assert list[n - 1] != list[j];
      }
    }
  }

  /** With no timeline listed twice, the sweep keeps exactly the timelines that were unfinished. */
  lemma {:induction false} DistinctSweepKeepsUnfinished<C>(list: seq<Timeline<C>>, starts: seq<Track<C>>, dt: real, n: nat)
    requires |starts| == |list| && n <= |list| && AllWellFormed(starts) && dt >= 0.0
    requires Distinct(list)
    ensures KeptTimelines(list, starts, dt, n) == Unfinished(list, starts, n)
    decreases n
  {
    if n > 0 {
      DistinctSweepKeepsUnfinished(list, starts, dt, n - 1);
      DistinctTrackAt(list, starts, dt, n - 1, n - 1);
    }
  }

  /** The entries among the first n whose timeline is not finished. */
  function Unfinished<C>(list: seq<Timeline<C>>, starts: seq<Track<C>>, n: nat): (r: seq<Timeline<C>>)
    requires |starts| == |list| && n <= |list|
    decreases n
  {
    if n == 0 then [] else Unfinished(list, starts, n - 1) + if starts[n - 1].state == 2 then [] else [list[n - 1]]
  }

  /** How many entries of s hold x. */
  function Count<T(==)>(s: seq<T>, x: T): (n: nat)
    ensures n <= |s|
    decreases |s|
  {
    if s == [] then 0 else Count(s[..|s| - 1], x) + if s[|s| - 1] == x then 1 else 0
  }

  /** A timeline updated c times in a row, each update skipped once it is finished. */
  function StepTimes<C>(t: Track<C>, dt: real, c: nat): (r: Track<C>)
    requires WellFormed(t) && dt >= 0.0
    ensures WellFormed(r)
    decreases c
  {
    if c == 0 then t else Visit(StepTimes(t, dt, c - 1), dt)
  }

  /**
   * A sweep updates a timeline once for every entry that holds it, as long
   * as it is not finished: a timeline listed twice, as the boss lists each
   * float timeline, is updated twice in one frame.
   */
  lemma {:induction false} SweepStepsOncePerListing<C>(list: seq<Timeline<C>>, starts: seq<Track<C>>, dt: real, n: nat, j: nat)
    requires |starts| == |list| && n <= |list| && j < |list| && WellFormed(starts[j]) && dt >= 0.0
    ensures TrackAt(list, starts, dt, n, j) == StepTimes(starts[j], dt, Count(list[..n], list[j]))
    decreases n
  {
    if n > 0 {
      SweepStepsOncePerListing(list, starts, dt, n - 1, j);
      assert list[..n][..n - 1] == list[..n - 1];
      var c := Count(list[..n - 1], list[j]);
      var p := TrackAt(list, starts, dt, n - 1, j);
      if list[n - 1] == list[j] {
        assert Count(list[..n], list[j]) == c + 1;
        assert TrackAt(list, starts, dt, n, j) == Visit(p, dt);
      } else {
        assert Count(list[..n], list[j]) == c;
        assert TrackAt(list, starts, dt, n, j) == p;
      }
    }
  }

  /** A sweep over a list that holds no tween twice advances each animating tween exactly once. */
  lemma {:induction false} DistinctElapsedAt<C>(list: seq<Tween<C>>, starts: seq<real>, dt: real, n: nat, j: nat)
    requires |starts| == |list| && n <= |list| && j < |list|
    requires Distinct(list)
    ensures ElapsedAt(list, starts, dt, n, j) ==
              if n <= j || starts[j] >= list[j].motion.duration then starts[j] else starts[j] + dt
    decreases n
  {
    if n > 0 {
      DistinctElapsedAt(list, starts, dt, n - 1, j);
      if n - 1 > j {
        assert list[n - 1] != list[j];
      }
    }
  }

  /** The entries among the first n whose tween is still animating. */
  function Animating<C>(list: seq<Tween<C>>, starts: seq<real>, n: nat): (r: seq<Tween<C>>)
    requires |starts| == |list| && n <= |list|
    decreases n
  {
    if n == 0 then [] else Animating(list, starts, n - 1) + if starts[n - 1] < list[n - 1].motion.duration then [list[n - 1]] else []
  }

  /** The timelines an unfinished-filter keeps are entries of the list, none twice if none is listed twice. */
  lemma {:induction false} UnfinishedDistinct<C>(list: seq<Timeline<C>>, starts: seq<Track<C>>, n: nat)
    requires |starts| == |list| && n <= |list| && Distinct(list)
    ensures Distinct(Unfinished(list, starts, n))
    ensures forall t :: t in Unfinished(list, starts, n) ==> t in list[..n]
    decreases n
  {
    if n > 0 {
      UnfinishedDistinct(list, starts, n - 1);
      assert list[..n] == list[..n - 1] + [list[n - 1]];
      assert list[n - 1] !in list[..n - 1];
    }
  }

  /** With no tween listed twice, the sweep keeps exactly the tweens that were animating. */
  lemma {:induction false} DistinctSweepKeepsAnimating<C>(list: seq<Tween<C>>, starts: seq<real>, dt: real, n: nat)
    requires |starts| == |list| && n <= |list|
    requires Distinct(list)
    ensures KeptTweens(list, starts, dt, n) == Animating(list, starts, n)
    decreases n
  {
    if n > 0 {
      DistinctSweepKeepsAnimating(list, starts, dt, n - 1);
      DistinctElapsedAt(list, starts, dt, n - 1, n - 1);
    }
  }
  /** The tweens an animating-filter keeps are entries of the list, none twice if none is listed twice. */
  lemma {:induction false} AnimatingDistinct<C>(list: seq<Tween<C>>, starts: seq<real>, n: nat)
    requires |starts| == |list| && n <= |list| && Distinct(list)
    ensures Distinct(Animating(list, starts, n))
    ensures forall t :: t in Animating(list, starts, n) ==> t in list[..n]
    decreases n
  {
    if n > 0 {
      AnimatingDistinct(list, starts, n - 1);
      assert list[..n] == list[..n - 1] + [list[n - 1]];
      assert list[n - 1] !in list[..n - 1];
    }
  }

  /** The timelines a sweep keeps are entries of the swept list. */
  lemma {:induction false} KeptAreListed<C>(list: seq<Timeline<C>>, starts: seq<Track<C>>, dt: real, n: nat)
    requires |starts| == |list| && n <= |list| && AllWellFormed(starts) && dt >= 0.0
    ensures forall k :: 0 <= k < |KeptTimelines(list, starts, dt, n)| ==> KeptTimelines(list, starts, dt, n)[k] in list[..n]
    decreases n
  {
    if n > 0 {
      KeptAreListed(list, starts, dt, n - 1);
      assert list[..n] == list[..n - 1] + [list[n - 1]];
    }
  }

  /** The tweens a sweep keeps are entries of the swept list. */
  lemma {:induction false} KeptTweensListed<C>(list: seq<Tween<C>>, starts: seq<real>, dt: real, n: nat)
    requires |starts| == |list| && n <= |list|
    ensures forall k :: 0 <= k < |KeptTweens(list, starts, dt, n)| ==> KeptTweens(list, starts, dt, n)[k] in list[..n]
    decreases n
  {
    if n > 0 {
      KeptTweensListed(list, starts, dt, n - 1);
      assert list[..n] == list[..n - 1] + [list[n - 1]];
    }
  }

  /** Every callback a tween sweep fires is the callback of one of the tweens it swept. */
  lemma {:induction false} SweptCuesBelong<C>(list: seq<Tween<C>>, starts: seq<real>, dt: real, n: nat)
    requires |starts| == |list| && n <= |list|
    ensures forall c :: c in SweptCues(list, starts, dt, n) ==> exists j :: 0 <= j < n && list[j].motion.onComplete == Some(c)
    decreases n
  {
    if n > 0 {
      SweptCuesBelong(list, starts, dt, n - 1);
    }
  }

  /** A callback that the schedule of a timeline or its own completion can fire. */
  ghost predicate CueOf<C>(t: Track<C>, c: C)
  {
    t.onComplete == Some(c) || exists k :: 0 <= k < |t.tweenQueue| && t.tweenQueue[k].onComplete == Some(c)
  }

  /** A sweep leaves the schedule and the completion callback of every timeline alone. */
  lemma {:induction false} TrackAtKeepsSchedule<C>(list: seq<Timeline<C>>, starts: seq<Track<C>>, dt: real, n: nat, j: nat)
    requires |starts| == |list| && n <= |list| && j < |list| && WellFormed(starts[j]) && dt >= 0.0
    ensures TrackAt(list, starts, dt, n, j).tweenQueue == starts[j].tweenQueue
    ensures TrackAt(list, starts, dt, n, j).onComplete == starts[j].onComplete
    decreases n
  {
    if n > 0 {
      TrackAtKeepsSchedule(list, starts, dt, n - 1, j);
      var p := TrackAt(list, starts, dt, n - 1, j);
      if p.state != 2 {
        StepFacts(p, dt);
      }
    }
  }

  /** Every callback a timeline sweep fires belongs to one of the swept timelines as it stood before the sweep. */
  lemma {:induction false} TimelineCuesBelong<C>(list: seq<Timeline<C>>, starts: seq<Track<C>>, dt: real, n: nat)
    requires |starts| == |list| && n <= |list| && AllWellFormed(starts) && dt >= 0.0
    ensures forall c :: c in TimelineCues(list, starts, dt, n) ==> exists j :: 0 <= j < n && CueOf(starts[j], c)
    decreases n
  {
    if n > 0 {
      TimelineCuesBelong(list, starts, dt, n - 1);
      var p := TrackAt(list, starts, dt, n - 1, n - 1);
      TrackAtKeepsSchedule(list, starts, dt, n - 1, n - 1);
      if p.state != 2 {
        StepFacts(p, dt);
        forall c | c in Step(p, dt).1
          ensures CueOf(starts[n - 1], c)
        {
        }
      }
    }
  }
}
