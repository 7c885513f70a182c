/** The assignment loop yields exactly the aligned windows that contain the event's time. */
module WindowAssign {
  import opened Basics
  import opened Windows
  import opened WindowShape

  lemma AlignedGap(s: int, start: int, step: int)
    requires step > 0 && s % step == 0 && start % step == 0 && s < start
    ensures s <= start - step
  {
    var a, b := s / step, start / step;
    assert s == step * a && start == step * b;
    MulGrows(step, b - a);
    assert step * (b - a) == start - s;
    if b - a <= 0 {
      NonPositive(step, b - a);
    }
  }

  lemma NonPositive(d: int, k: int)
    requires d > 0
    ensures k <= 0 ==> d * k <= 0
  {
  }

  /** Reference: aligned, representable, and holding `t`. */
  predicate Contains(c: Config, t: int, s: int)
    requires c.kind != Session && c.Valid()
  {
    s % c.Step() == 0 && MIN_INT64 <= s <= t < s + c.size
  }

  lemma {:induction false} AssignFromExact(c: Config, t: int, start: int, s: int)
    requires c.kind != Session && c.Valid() && start % c.Step() == 0 && MIN_INT64 <= start <= t
    requires AssignFrom(c, t, start).Some?
    ensures s in AssignFrom(c, t, start).value <==> Contains(c, t, s) && s <= start
    decreases Max(0, start + c.size - t)
  {
    var step := c.Step();
    if Contains(c, t, s) && s < start {
      AlignedGap(s, start, step);
    }
    if t < start + c.size && c.kind != Tumbling && start >= MIN_INT64 + step {
      StepDown(start, step);
      AssignFromExact(c, t, start - step, s);
    }
  }

  /** Whenever assignment succeeds, a start is assigned exactly when its window contains the time. */
  lemma AssignIsExact(c: Config, t: int, s: int)
    requires c.kind != Session && c.Valid() && MIN_INT64 <= t && Assign(c, t).Some?
    ensures s in Assign(c, t).value <==> Contains(c, t, s)
  {
    var step := c.Step();
    FloorIsAligned(t, step);
    var start := FloorStart(t, step).value;
    AssignFromExact(c, t, start, s);
    if Contains(c, t, s) && s > start {
      AlignedGap(start, s, step);
    }
  }
}
