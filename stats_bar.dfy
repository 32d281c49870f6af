/**
 * The count-up figure of the stats bar (`CountUp`): once the element is in
 * view, each animation frame sets the displayed count to
 * `floor(value * progress)` and asks for another frame, until progress
 * reaches 1, when the count is set to `value` and the chain ends.
 *
 * Frame timestamps (milliseconds, as `requestAnimationFrame` delivers them)
 * are an input sequence. The start time holds `0.0` where the source holds
 * `null`: both are falsy and take the same branch.
 */
module StatsBar {

  /** The timestamps delivered by the browser never go backwards. */
  predicate NonDecreasing(frames: seq<real>) {
    forall i, j :: 0 <= i < j < |frames| ==> frames[i] <= frames[j]
  }

  /** `(timestamp - startTime) / (duration * 1000)`. */
  function Progress(startTime: real, t: real, duration: real): real
    requires duration != 0.0
  {
    (t - startTime) / (duration * 1000.0)
  }

  /**
   * `progress < 1`. With `duration == 0` the quotient is NaN (at the start
   * time) or +Infinity (later), and neither is below 1.
   */
  predicate BelowOne(startTime: real, t: real, duration: real) {
    duration != 0.0 && Progress(startTime, t, duration) < 1.0
  }

  /** The captured start time is unset, or no later than the frame's timestamp. */
  predicate Admissible(startTime: real, t: real) {
    startTime == 0.0 || startTime <= t
  }

  /** What one call of the frame callback leaves behind. */
  datatype Frame = Frame(startTime: real, count: int, again: bool)

  /** One frame at time `t`: fix the start time if unset, then show the interpolated or the final value. */
  function Animate(startTime: real, t: real, value: int, duration: real): (f: Frame)
    requires Admissible(startTime, t)
    ensures f.startTime <= t
    ensures f.startTime == (if startTime == 0.0 then t else startTime)
  {
    var start := if startTime == 0.0 then t else startTime;
    if BelowOne(start, t, duration) then
      Frame(start, (value as real * Progress(start, t, duration)).Floor, true)
    else
      Frame(start, value, false)
  }

  /** The counts shown by a run of frames, and the state the run ends in. */
  datatype Run = Run(shown: seq<int>, startTime: real, pending: bool)

  /**
   * Deliver `frames` while a frame is pending: each delivered frame shows one
   * count; a frame that reaches progress 1 ends the chain, and later
   * timestamps are not delivered.
   */
  function RunFrames(startTime: real, pending: bool, frames: seq<real>, value: int, duration: real): (r: Run)
    requires NonDecreasing(frames) && (frames != [] ==> Admissible(startTime, frames[0]))
    ensures |r.shown| <= |frames|
    decreases |frames|
  {
    if !pending || frames == [] then Run([], startTime, pending)
    else
      var f := Animate(startTime, frames[0], value, duration);
      var rest := RunFrames(f.startTime, f.again, frames[1..], value, duration);
      Run([f.count] + rest.shown, rest.startTime, rest.pending)
  }

  /**
   * The two branches of a frame: below progress 1 the count is
   * `floor(value * progress)`, which for a positive value and a positive
   * duration lies in `[0, value)`, and another frame is requested; otherwise
   * the count is `value` and the chain ends.
   */
  lemma AnimateCases(startTime: real, t: real, value: int, duration: real)
    requires Admissible(startTime, t)
    ensures var f := Animate(startTime, t, value, duration);
            if BelowOne(f.startTime, t, duration) then
              f.again && f.count == (value as real * Progress(f.startTime, t, duration)).Floor &&
              (value > 0 && duration > 0.0 ==> 0 <= f.count < value)
            else
              !f.again && f.count == value
  {
    var f := Animate(startTime, t, value, duration);
    if BelowOne(f.startTime, t, duration) && value > 0 && duration > 0.0 {
      FloorBelow(value, Progress(f.startTime, t, duration), t - f.startTime, duration);
    }
  }

  /** For a positive value and progress in `[0, 1)`, `floor(value * progress)` lies in `[0, value)`. */
  lemma FloorBelow(value: int, p: real, elapsed: real, duration: real)
    requires value > 0 && duration > 0.0 && elapsed >= 0.0
    requires p == elapsed / (duration * 1000.0) && p < 1.0
    ensures 0 <= (value as real * p).Floor < value
  {
    assert p >= 0.0;
    var v := value as real;
    assert v * p < v * 1.0;
    assert 0.0 <= v * p;
  }

  /** The first frame after the start is reset shows 0, unless the duration is 0. */
  lemma FirstFrameShowsZero(t: real, value: int, duration: real)
    requires duration != 0.0
    ensures Animate(0.0, t, value, duration).count == 0
    ensures Animate(0.0, t, value, duration).again
  {
    assert Progress(t, t, duration) == 0.0;
  }

  /** Nothing is ever shown while no frame is pending, that is, before the element comes into view. */
  lemma NothingWithoutPendingFrame(startTime: real, frames: seq<real>, value: int, duration: real)
    requires NonDecreasing(frames) && (frames != [] ==> Admissible(startTime, frames[0]))
    ensures RunFrames(startTime, false, frames, value, duration) == Run([], startTime, false)
  {
  }

  /** `floor` is monotone. */
  lemma FloorMonotone(x: real, y: real)
    requires x <= y
    ensures x.Floor <= y.Floor
  {
  }

  /** Scaling by a non-negative factor keeps order. */
  lemma ScaleMonotone(v: real, a: real, b: real)
    requires v >= 0.0 && a <= b
    ensures v * a <= v * b
  {
    assert v * b - v * a == v * (b - a);
  }

  /** Progress is non-negative from the start time on, and grows with the timestamp. */
  lemma ProgressMonotone(start: real, t0: real, t1: real, duration: real)
    requires start <= t0 <= t1 && duration > 0.0
    ensures 0.0 <= Progress(start, t0, duration) <= Progress(start, t1, duration)
  {
    var d := duration * 1000.0;
    assert Progress(start, t1, duration) - Progress(start, t0, duration) == (t1 - t0) / d;
  }

  /** Two consecutive frames with the same start time show non-decreasing counts. */
  lemma NextFrameNotSmaller(start: real, t0: real, t1: real, value: int, duration: real)
    requires start <= t0 <= t1 && value >= 0 && duration > 0.0 && start != 0.0
    requires BelowOne(start, t0, duration)
    ensures Animate(start, t0, value, duration).count <= Animate(start, t1, value, duration).count
  {
    var p0, p1 := Progress(start, t0, duration), Progress(start, t1, duration);
    var v := value as real;
    ProgressMonotone(start, t0, t1, duration);
    if BelowOne(start, t1, duration) {
      ScaleMonotone(v, p0, p1);
      FloorMonotone(v * p0, v * p1);
    } else {
      ScaleMonotone(v, p0, 1.0);
      FloorMonotone(v * p0, v * 1.0);
    }
  }

  /**
   * A frame that asks for another is followed by a count no smaller than its
   * own, provided time does not go backwards.
   */
  lemma FollowingFrameNotSmaller(startTime: real, t0: real, t1: real, value: int, duration: real)
    requires Admissible(startTime, t0) && t0 <= t1 && value >= 0 && duration > 0.0
    requires Animate(startTime, t0, value, duration).again
    ensures var f := Animate(startTime, t0, value, duration);
            f.count <= Animate(f.startTime, t1, value, duration).count
  {
    var f := Animate(startTime, t0, value, duration);
    if f.startTime == 0.0 {
      // The start time is still unset only when the first timestamp was 0:
      // this frame showed 0 and the next one starts over.
      FirstFrameShowsZero(t0, value, duration);
      AnimateCases(f.startTime, t1, value, duration);
      FirstFrameShowsZero(t1, value, duration);
    } else {
      assert Animate(f.startTime, t0, value, duration) == f;
      NextFrameNotSmaller(f.startTime, t0, t1, value, duration);
    }
  }

  /** Each element is at most the next one. */
  predicate StepwiseAscending(s: seq<int>) {
    forall k :: 0 <= k < |s| - 1 ==> s[k] <= s[k + 1]
  }

  /**
   * For non-decreasing timestamps, a non-negative value and a positive
   * duration, every count shown is at most the next one.
   */
  lemma {:induction false} ShownIsNonDecreasing(startTime: real, pending: bool, frames: seq<real>,
                                                value: int, duration: real)
    requires NonDecreasing(frames) && (frames != [] ==> Admissible(startTime, frames[0]))
    requires value >= 0 && duration > 0.0
    ensures StepwiseAscending(RunFrames(startTime, pending, frames, value, duration).shown)
    decreases |frames|
  {
    if pending && frames != [] {
      var f := Animate(startTime, frames[0], value, duration);
      var tail := frames[1..];
      var rest := RunFrames(f.startTime, f.again, tail, value, duration);
      ShownIsNonDecreasing(f.startTime, f.again, tail, value, duration);
      if rest.shown != [] {
        assert rest.shown[0] == Animate(f.startTime, tail[0], value, duration).count;
        FollowingFrameNotSmaller(startTime, frames[0], tail[0], value, duration);
      }
      var s := [f.count] + rest.shown;
      assert StepwiseAscending(rest.shown);
      forall k | 0 <= k < |s| - 1 ensures s[k] <= s[k + 1] {
        if k > 0 {
          assert s[k] == rest.shown[k - 1] && s[k + 1] == rest.shown[k];
          assert rest.shown[k - 1] <= rest.shown[k];
        } else {
          assert s[0] == f.count && s[1] == rest.shown[0];
          assert f.count <= rest.shown[0];
        }
      }
    }
  }

  /** Adjacent order gives order between any two positions. */
  lemma {:induction false} AdjacentOrderIsOrder(s: seq<int>, i: nat, j: nat)
    requires StepwiseAscending(s)
    requires i <= j < |s|
    ensures s[i] <= s[j]
    decreases j - i
  {
    if i < j {
      AdjacentOrderIsOrder(s, i + 1, j);
    }
  }

  /** The counts shown by a run never decrease, between any two positions. */
  lemma ShownIsMonotone(startTime: real, pending: bool, frames: seq<real>, value: int, duration: real,
                        i: nat, j: nat)
    requires NonDecreasing(frames) && (frames != [] ==> Admissible(startTime, frames[0]))
    requires value >= 0 && duration > 0.0
    requires i <= j < |RunFrames(startTime, pending, frames, value, duration).shown|
    ensures RunFrames(startTime, pending, frames, value, duration).shown[i] <=
            RunFrames(startTime, pending, frames, value, duration).shown[j]
  {
    ShownIsNonDecreasing(startTime, pending, frames, value, duration);
    AdjacentOrderIsOrder(RunFrames(startTime, pending, frames, value, duration).shown, i, j);
  }

  /**
   * A run stops early only by reaching its final frame: if fewer counts are
   * shown than frames were offered, the last one shown is `value` and no frame
   * is pending.
   */
  lemma {:induction false} EarlyStopShowsValue(startTime: real, frames: seq<real>, value: int, duration: real)
    requires NonDecreasing(frames) && (frames != [] ==> Admissible(startTime, frames[0]))
    ensures var r := RunFrames(startTime, true, frames, value, duration);
            0 < |r.shown| < |frames| ==> r.shown[|r.shown| - 1] == value && !r.pending
    decreases |frames|
  {
    if frames != [] {
      var f := Animate(startTime, frames[0], value, duration);
      AnimateCases(startTime, frames[0], value, duration);
      if f.again {
        EarlyStopShowsValue(f.startTime, frames[1..], value, duration);
      }
    }
  }

  /** Delivering from position `i` on: one frame, then the rest from `i + 1`. */
  lemma RunFramesFrom(startTime: real, frames: seq<real>, i: nat, value: int, duration: real)
    requires NonDecreasing(frames) && i < |frames| && Admissible(startTime, frames[i])
    ensures NonDecreasing(frames[i..]) && NonDecreasing(frames[i + 1..])
    ensures i + 1 < |frames| ==> Admissible(Animate(startTime, frames[i], value, duration).startTime, frames[i + 1])
    ensures
            var f := Animate(startTime, frames[i], value, duration);
            var rest := RunFrames(f.startTime, f.again, frames[i + 1..], value, duration);
            RunFrames(startTime, true, frames[i..], value, duration) ==
              Run([f.count] + rest.shown, rest.startTime, rest.pending)
  {
    assert frames[i..][1..] == frames[i + 1..];
  }

  /** One `CountUp` instance with its state: the count shown, the captured start time, a pending frame. */
  class CountUp {
    const value: int
    const duration: real
    var count: int
    var startTime: real
    var pending: bool

    /** The duration defaults to 2 seconds at the call site; here it is always given. */
    constructor (value: int, duration: real)
      ensures this.value == value && this.duration == duration
      ensures count == 0 && startTime == 0.0 && !pending
    {
      this.value := value;
      this.duration := duration;
      count := 0;
      startTime := 0.0;
      pending := false;
    }

    /** The effect: nothing unless in view; otherwise clear the start time and request the first frame. */
    method Start(isInView: bool)
      modifies this
      ensures count == old(count)
      ensures if isInView then startTime == 0.0 && pending
              else startTime == old(startTime) && pending == old(pending)
    {
      if !isInView {
        return;
      }
      startTime := 0.0;
      pending := true;
    }

    /** The frame callback `animate(timestamp)`. */
    method OnFrame(t: real)
      requires Admissible(startTime, t)
      modifies this
      ensures var f := Animate(old(startTime), t, value, duration);
              startTime == f.startTime && count == f.count && pending == f.again
    {
      if startTime == 0.0 {
        startTime := t;
      }
      if duration != 0.0 && (t - startTime) / (duration * 1000.0) < 1.0 {
        count := (value as real * ((t - startTime) / (duration * 1000.0))).Floor;
        pending := true;
      } else {
        count := value;
        pending := false;
      }
    }

    /** Deliver the timestamps in order, each only while a frame is pending; `shown` lists the counts set. */
    method Play(frames: seq<real>) returns (shown: seq<int>)
      requires NonDecreasing(frames) && (frames != [] ==> Admissible(startTime, frames[0]))
      modifies this
      ensures Run(shown, startTime, pending) == RunFrames(old(startTime), old(pending), frames, value, duration)
      ensures count == if shown == [] then old(count) else shown[|shown| - 1]
    {
      shown := [];
      for i := 0 to |frames|
        invariant NonDecreasing(frames[i..]) && (i < |frames| ==> Admissible(startTime, frames[i]))
        invariant var rest := RunFrames(startTime, pending, frames[i..], value, duration);
                  RunFrames(old(startTime), old(pending), frames, value, duration) ==
                  Run(shown + rest.shown, rest.startTime, rest.pending)
        invariant count == if shown == [] then old(count) else shown[|shown| - 1]
      {
        RunFramesFrom(startTime, frames, i, value, duration);
        if pending {
          OnFrame(frames[i]);
          shown := shown + [count];
        }
      }
    }
  }
}
