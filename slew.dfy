/** The camera's two slews: a timer that carries a vector quantity (the view
    target, or the camera direction) to a goal along an ease-in, ease-out
    curve, one frame tick at a time. */
module Slew {
  import opened Geometry

  /** One slew timer of PositionDirection: its progress (0 at the start, idle
      from 1 on), its duration in seconds and the value it slews to. */
  datatype Timer = Timer(progress: real, time: real, goal: Vec3)

  predicate Idle(t: Timer) {
    t.progress >= 1.0
  }

  /** A timer as the camera leaves it when time only moves forward: progress
      is never negative, and an active timer has a positive duration. */
  predicate Healthy(t: Timer) {
    t.progress >= 0.0 && (!Idle(t) ==> t.time > 0.0)
  }

  /** What the slew step relies on of its easing curve s(x) = sin((x - 0.5) * pi):
      s does not decrease on [0, 1] and stays below 1 before x reaches 1. */
  ghost predicate IsEasing(ease: real -> real) {
    && (forall x, y :: 0.0 <= x <= y <= 1.0 ==> ease(x) <= ease(y))
    && (forall x :: 0.0 <= x < 1.0 ==> ease(x) < 1.0)
  }

  /** The progress after a tick of `msticks` milliseconds: the tick covers
      msticks out of the slew's time * 1000 milliseconds, so time moving
      forward never moves a forward slew back. */
  function NextProgress(t: Timer, msticks: int): (p: real)
    requires t.time != 0.0
    ensures (p - t.progress) * (t.time * 1000.0) == msticks as real
    ensures msticks >= 0 && t.time > 0.0 ==> p >= t.progress
  {
    t.progress + msticks as real / (t.time * 1000.0)
  }

  /** The assertions DoCameraSlew makes before it divides: an active timer has
      a non-zero duration, and a step that does not complete the slew starts
      where 1 - s(progress) is not zero. */
  predicate CanAdvance(t: Timer, msticks: int, ease: real -> real) {
    !Idle(t) ==> t.time != 0.0 && (NextProgress(t, msticks) < 1.0 ==> ease(t.progress) != 1.0)
  }

  /** The share of the REMAINING way to the goal that a step from progress
      `from` to progress `to` covers. */
  function SlewFactor(ease: real -> real, from: real, to: real): real
    requires ease(from) != 1.0
  {
    (ease(to) - ease(from)) / (1.0 - ease(from))
  }

  lemma QuotientInUnit(n: real, d: real)
    requires 0.0 <= n < d
    ensures 0.0 <= n / d < 1.0
  {
  }

  /** While the step stays below completion, it covers a share in [0, 1) of
      the remaining way: it never overshoots and never moves backwards. */
  lemma SlewFactorInUnit(ease: real -> real, from: real, to: real)
    requires IsEasing(ease) && 0.0 <= from <= to < 1.0
    ensures ease(from) != 1.0
    ensures 0.0 <= SlewFactor(ease, from, to) < 1.0
  {
    QuotientInUnit(ease(to) - ease(from), 1.0 - ease(from));
  }

  /** One tick of one timer, as DoCameraSlew does it for each of its two
      timers: an idle timer leaves everything as it is; otherwise progress
      moves on by msticks / (time * 1000), and the quantity either lands
      exactly on the goal (the step completes) or covers the slew factor's
      share of the remaining way. */
  function Advance(t: Timer, cur: Vec3, msticks: int, ease: real -> real): (r: (Timer, Vec3))
    requires CanAdvance(t, msticks, ease)
    ensures Idle(t) ==> r == (t, cur)
    ensures !Idle(t) ==> r.0 == t.(progress := NextProgress(t, msticks))
    ensures !Idle(t) && Idle(r.0) ==> r.1 == t.goal
  {
    if Idle(t) then (t, cur)
    else
      var newprogress := NextProgress(t, msticks);
      if newprogress >= 1.0 then (t.(progress := newprogress), t.goal)
      else
        var slewfact := SlewFactor(ease, t.progress, newprogress);
        (t.(progress := newprogress), Add(cur, Scale(Sub(t.goal, cur), slewfact)))
  }

  /** A step that completes the slew leaves the quantity on the goal and the
      timer idle, so every later step changes nothing. */
  lemma CompletedSlewStays(t: Timer, cur: Vec3, msticks: int, later: int, ease: real -> real)
    requires CanAdvance(t, msticks, ease) && !Idle(t) && NextProgress(t, msticks) >= 1.0
    ensures var r := Advance(t, cur, msticks, ease);
      r.1 == t.goal && Advance(r.0, r.1, later, ease) == r
  {
  }

  predicate Within(a: real, b: real, c: real) {
    (a <= c <= b) || (b <= c <= a)
  }

  /** Each component of v lies between the matching components of a and b. */
  predicate OnSegment(a: Vec3, b: Vec3, v: Vec3) {
    Within(a.x, b.x, v.x) && Within(a.y, b.y, v.y) && Within(a.z, b.z, v.z)
  }

  lemma LerpWithin(c: real, g: real, f: real)
    requires 0.0 <= f <= 1.0
    ensures Within(c, g, c + (g - c) * f)
  {
  }

  lemma StepNonNegative(msticks: int, time: real)
    requires msticks >= 0 && time > 0.0
    ensures msticks as real / (time * 1000.0) >= 0.0
  {
  }

  /** With time moving forward and a genuine easing curve, a tick keeps the
      timer healthy, never moves progress back, and leaves the quantity on
      the segment from where it was to the goal. */
  lemma AdvanceTowardGoal(t: Timer, cur: Vec3, msticks: int, ease: real -> real)
    requires Healthy(t) && msticks >= 0 && IsEasing(ease)
    ensures CanAdvance(t, msticks, ease)
    ensures Healthy(Advance(t, cur, msticks, ease).0)
    ensures Advance(t, cur, msticks, ease).0.progress >= t.progress
    ensures OnSegment(cur, t.goal, Advance(t, cur, msticks, ease).1)
  {
    if !Idle(t) {
      StepNonNegative(msticks, t.time);
      var np := NextProgress(t, msticks);
      if np < 1.0 {
        SlewFactorInUnit(ease, t.progress, np);
        var f := SlewFactor(ease, t.progress, np);
        LerpWithin(cur.x, t.goal.x, f);
        LerpWithin(cur.y, t.goal.y, f);
        LerpWithin(cur.z, t.goal.z, f);
      }
    }
  }

  function Sum(ticks: seq<int>): int {
    if ticks == [] then 0 else ticks[0] + Sum(ticks[1..])
  }

  predicate NonNegative(ticks: seq<int>) {
    forall i :: 0 <= i < |ticks| ==> ticks[i] >= 0
  }

  /** A run of frame ticks of the given lengths, one Advance per tick. */
  function Run(t: Timer, cur: Vec3, ticks: seq<int>, ease: real -> real): (r: (Timer, Vec3))
    requires Healthy(t) && IsEasing(ease) && NonNegative(ticks)
    ensures Healthy(r.0) && r.0.time == t.time && r.0.goal == t.goal
    decreases |ticks|
  {
    if ticks == [] then (t, cur)
    else
      AdvanceTowardGoal(t, cur, ticks[0], ease);
      var next := Advance(t, cur, ticks[0], ease);
      Run(next.0, next.1, ticks[1..], ease)
  }

  /** Once a timer is idle (completed or killed), no number of further ticks
      changes it or its quantity. */
  lemma {:induction false} RunIdle(t: Timer, cur: Vec3, ticks: seq<int>, ease: real -> real)
    requires Healthy(t) && IsEasing(ease) && NonNegative(ticks)
    requires Idle(t)
    ensures Run(t, cur, ticks, ease) == (t, cur)
    decreases |ticks|
  {
    if ticks != [] {
      RunIdle(t, cur, ticks[1..], ease);
    }
  }

  /** Whether a run of ticks takes a slew at `progress`, of `duration`
      milliseconds, to completion. */
  predicate Completes(progress: real, duration: real, ticks: seq<int>)
    requires duration != 0.0
    decreases |ticks|
  {
    ticks != [] &&
    var next := progress + ticks[0] as real / duration;
    next >= 1.0 || Completes(next, duration, ticks[1..])
  }

  /** A run of ticks completes the slew as soon as a tick lands its progress
      at 1 or beyond; from then on the timer is idle and the quantity stays
      exactly on the goal. */
  lemma {:induction false} RunCompletes(t: Timer, cur: Vec3, ticks: seq<int>, ease: real -> real)
    requires Healthy(t) && IsEasing(ease) && NonNegative(ticks)
    requires !Idle(t) && Completes(t.progress, t.time * 1000.0, ticks)
    ensures Run(t, cur, ticks, ease).1 == t.goal
    ensures Idle(Run(t, cur, ticks, ease).0)
    decreases |ticks|
  {
    AdvanceTowardGoal(t, cur, ticks[0], ease);
    var next := Advance(t, cur, ticks[0], ease);
    assert Run(t, cur, ticks, ease) == Run(next.0, next.1, ticks[1..], ease);
    if Idle(next.0) {
      RunIdle(next.0, next.1, ticks[1..], ease);
    } else {
      RunCompletes(next.0, next.1, ticks[1..], ease);
    }
  }

  lemma RemainingPositive(p: real, duration: real)
    requires duration > 0.0 && p < 1.0
    ensures (1.0 - p) * duration > 0.0
  {
  }

  /** What is left of the ticks after the first still covers what is left of
      the slew after the first step. */
  lemma RemainingAfterStep(total: int, step: int, p: real, duration: real)
    requires duration > 0.0
    requires total as real >= (1.0 - p) * duration
    ensures (total - step) as real >= (1.0 - (p + step as real / duration)) * duration
  {
  }

  /** Ticks that add up to the rest of the slew's duration complete it. */
  lemma {:induction false} CoveringTicksComplete(p: real, duration: real, ticks: seq<int>)
    requires duration > 0.0 && p < 1.0
    requires Sum(ticks) as real >= (1.0 - p) * duration
    ensures Completes(p, duration, ticks)
    decreases |ticks|
  {
    RemainingPositive(p, duration);
    assert ticks != [];
    var next := p + ticks[0] as real / duration;
    if next < 1.0 {
      RemainingAfterStep(Sum(ticks), ticks[0], p, duration);
      assert Sum(ticks[1..]) == Sum(ticks) - ticks[0];
      CoveringTicksComplete(next, duration, ticks[1..]);
    }
  }

  /** Frame-rate independence: however the elapsed time is cut into ticks,
      once the ticks add up to the rest of the slew's duration the quantity
      is EXACTLY the goal and the timer is idle. */
  lemma RunReachesGoal(t: Timer, cur: Vec3, ticks: seq<int>, ease: real -> real)
    requires Healthy(t) && IsEasing(ease) && NonNegative(ticks)
    requires !Idle(t)
    requires Sum(ticks) as real >= (1.0 - t.progress) * (t.time * 1000.0)
    ensures Run(t, cur, ticks, ease).1 == t.goal
    ensures Idle(Run(t, cur, ticks, ease).0)
  {
    CoveringTicksComplete(t.progress, t.time * 1000.0, ticks);
    RunCompletes(t, cur, ticks, ease);
  }
}
