/** How precise the CoDel mark rate is: in an episode that starts afresh the spacing is not only at most
    interval / sqrt(count) but also at least seven tenths of it. */
module CoDelAccuracy {
  import opened Arithmetic
  import opened CoDel
  import opened CoDelRuns

  const COUNT_LIMIT: nat := 0x100_0000  // 2^24

  /** rec / 2^16 is at least 7/10 of 1 / sqrt(count). */
  ghost predicate AtLeastInvSqrt(count: nat, rec: nat)
  {
    100 * (count * (rec * rec)) >= 49 * U32
  }

  // ---------------------------------------------------------------- the cubic from below

  /** y (3 - y)^2 - 3.08 >= (y - 0.49) (y^2 - 5.51 y + 6.3001), and both factors are non-negative here. */
  lemma CubicBelow(y: real)
    requires 0.49 <= y <= 1.5
    ensures y * ((3.0 - y) * (3.0 - y)) >= 3.08
  {
    var a, b := y - 0.49, 1.5 - y;
    var f := y * y - 5.51 * y + 6.3001;
    assert f == b * b + 2.51 * b + 0.2851;
    assert b * b >= 0.0;
    NotNegative(a, f);
    assert y * ((3.0 - y) * (3.0 - y)) == a * f + 3.087049;
  }

  lemma NotNegative(a: real, b: real)
    requires a >= 0.0 && b >= 0.0
    ensures a * b >= 0.0
  {}

  lemma SquareLe(a: real, b: real)
    requires 0.0 <= a <= b
    ensures a * a <= b * b
  {
    assert b * b - a * a == (b - a) * (b + a);
  }

  /** Losing 2 of at least 14 costs little. */
  lemma RoundedSquare(r: real, n: real)
    requires r >= 14.0 && n >= r - 2.0
    ensures n * n >= 0.73 * (r * r)
  {
    SquareLe(r - 2.0, n);
    assert (r - 2.0) * (r - 2.0) - 0.73 * (r * r) == 0.27 * (r * r) - 4.0 * r + 4.0;
    assert r * r >= 14.0 * r;
    assert 0.27 * (r * r) + 4.0 >= 4.0 * r by {
      assert 0.27 * (r * r) - 4.0 * r + 4.0 == 0.27 * ((r - 14.0) * (r - 14.0)) + 3.56 * (r - 14.0) + 0.92;
      assert (r - 14.0) * (r - 14.0) >= 0.0;
    }
  }

  lemma AtLeast14(r: real)
    requires r >= 0.0 && r * r >= 197.0
    ensures r >= 14.0
  {
    if r < 14.0 {
      SquareLe(r, 14.0);
    }
  }

  /** With weight c: c r^2 is what the unrounded step reaches, n the rounded one. */
  lemma StepReaches(c: real, r: real, n: real)
    requires 0.0 < c <= 16777216.0 && r >= 0.0 && n >= r - 2.0
    requires c * (r * r) >= 0.77 * 4294967296.0
    ensures c * (n * n) >= 0.49 * 4294967296.0
  {
    var r2 := r * r;
    NotNegative(r, r);
    NotNegative(16777216.0 - c, r2);
    assert (16777216.0 - c) * r2 == 16777216.0 * r2 - c * r2;
    AtLeast14(r);
    RoundedSquare(r, n);
    NotNegative(c, n * n - 0.73 * r2);
    assert c * (n * n - 0.73 * r2) == c * (n * n) - 0.73 * (c * r2);
  }

  // ---------------------------------------------------------------- one Newton step

  /** The unrounded step in integers: 2 * 2^32 * next is within 4 * 2^32 of rec * (3 * 2^32 - count * rec^2). */
  lemma RoundingLoses(val: nat, rec: nat)
    requires rec < U16
    ensures 2 * U32 * (val / 4 * rec / U31) >= val * rec - 4 * U32
  {
    var v := val / 4;
    MulLe(val - 3, 4 * v, rec);
    assert 4 * v * rec == 4 * (v * rec);
    Distribute(rec, val, -3);
    assert rec * (-3) == -3 * rec;
    assert val * rec - 3 * rec <= 4 * (v * rec);
  }

  /** c * (rec * val / 2^33)^2 / 2^32 == y (3 - y)^2 / 4 for y == c * rec^2 / 2^32. */
  lemma Unrounded(c: real, rec: real, y: real, r: real)
    requires y * 4294967296.0 == c * (rec * rec) && r == rec * (3.0 - y) / 2.0
    ensures c * (r * r) == y * ((3.0 - y) * (3.0 - y)) * 4294967296.0 / 4.0
  {
    var v := 3.0 - y;
    assert r * r == (rec * rec) * (v * v) / 4.0;
    assert c * ((rec * rec) * (v * v)) == (c * (rec * rec)) * (v * v);
  }

  lemma ToReal(a: int, b: int)
    ensures (a * b) as real == a as real * b as real
  {}

  lemma CubeToReal(count: int, rec: int)
    ensures (count * (rec * rec)) as real == count as real * (rec as real * rec as real)
  {
    ToReal(rec, rec);
    ToReal(count, rec * rec);
  }

  lemma Halved(r0: real, y: real, n: real)
    requires 2.0 * 4294967296.0 * n >= ((3.0 - y) * 4294967296.0) * r0 - 4.0 * 4294967296.0
    ensures n >= r0 * (3.0 - y) / 2.0 - 2.0
  {
    assert ((3.0 - y) * 4294967296.0) * r0 == 4294967296.0 * (r0 * (3.0 - y));
  }

  lemma RealStep(count: nat, rec: nat, next: nat)
    requires 0 < count <= COUNT_LIMIT
    requires 49 * U32 <= 100 * (count * (rec * rec)) && 2 * (count * (rec * rec)) <= 3 * U32
    requires 2 * U32 * next >= (3 * U32 - count * (rec * rec)) * rec - 4 * U32
    ensures AtLeastInvSqrt(count, next)
  {
    var c, r0, n := count as real, rec as real, next as real;
    var cube := count * (rec * rec);
    var y := cube as real / 4294967296.0;
    CubeToReal(count, rec);
    CubeToReal(count, next);
    ToReal(3 * U32 - cube, rec);
    assert (3 * U32 - cube) as real == (3.0 - y) * 4294967296.0;
    RealBound(c, r0, n, y);
  }

  lemma RealBound(c: real, r0: real, n: real, y: real)
    requires 0.0 < c <= 16777216.0 && r0 >= 0.0 && y * 4294967296.0 == c * (r0 * r0) && 0.49 <= y <= 1.5
    requires 2.0 * 4294967296.0 * n >= ((3.0 - y) * 4294967296.0) * r0 - 4.0 * 4294967296.0
    ensures c * (n * n) >= 0.49 * 4294967296.0
  {
    CubicBelow(y);
    var r := r0 * (3.0 - y) / 2.0;
    Unrounded(c, r0, y, r);
    NotNegative(r0, 3.0 - y);
    Halved(r0, y, n);
    StepReaches(c, r, n);
  }

  /** The bound survives a Newton step for one more mark. */
  lemma NewtonStaysClose(count: nat, rec: nat)
    requires 2 <= count < COUNT_LIMIT && AtMostInvSqrt(count, rec) && AtLeastInvSqrt(count, rec)
    ensures AtLeastInvSqrt(count + 1, NewtonStep(count + 1, rec))
  {
    var sq := rec * rec;
    assert (count + 1) * sq == count * sq + sq;
    MulLe(2, count, sq);
    SquareWord(rec);
    NewtonStepSafe(count + 1, rec);
    var val := 3 * U32 - (count + 1) * sq;
    hide NewtonStep, AtLeastInvSqrt;
    RoundingLoses(val, rec);
    RealStep(count + 1, rec, val / 4 * rec / U31);
  }

  /** The first two marks, by computation. */
  lemma FirstSteps()
    ensures AtLeastInvSqrt(1, U16 - 1) && AtLeastInvSqrt(2, NewtonStep(2, U16 - 1))
  {
    var rec := U16 - 1;
    assert rec * rec == 4294836225;
    NewtonStepSafe(2, rec);
    var val := 3 * U32 - 2 * (rec * rec);
    assert val / 4 == 1073807359;
    assert val / 4 * rec / U31 == 32769;
  }

  // ---------------------------------------------------------------- fresh episodes

  /** The latest episode started from one. */
  ghost predicate Fresh(es: seq<Event>, p: Params, k: nat)
    requires k <= |es|
  {
    if k == 0 then false
    else if MarkedAt(es, p, k - 1) && !StateAt(es, p, k - 1).marking then StateAt(es, p, k).count == 1
    else Fresh(es, p, k - 1)
  }

  /** What a mark does to the rate. */
  lemma RateEffect(s: State, e: Event, p: Params)
    ensures var (s', ce) := Marking(s, e, p);
            && (!ce ==> s'.recInvSqrt == s.recInvSqrt && s'.count == s.count)
            && (ce && s.marking ==> s'.count == Wrap(s.count + 1) && s'.recInvSqrt == NewtonStep(s'.count, s.recInvSqrt))
            && (ce && !s.marking && s'.count == 1 ==> s'.recInvSqrt == U16 - 1)
  {
    ShouldMarkFrame(s, e, p);
    hide ShouldMark, NewtonStep, Increment, TimeAfter, TimeAfterEq, Wrap;
  }

  /** Two marks into an episode of one, the first rate is still the one it started with. */
  ghost predicate Close(s: State)
  {
    s.count >= 1 && AtLeastInvSqrt(s.count, s.recInvSqrt) && (s.count == 1 ==> s.recInvSqrt == U16 - 1)
  }

  lemma StepStaysClose(s: State, e: Event, p: Params, afresh: bool)
    requires NewtonInv(s) && !CountOverflows(s, e, p) && Marking(s, e, p).0.count <= COUNT_LIMIT
    requires afresh ==> Close(s)
    ensures var (s', ce) := Marking(s, e, p);
            (if ce && !s.marking then s'.count == 1 else afresh) ==> Close(s')
  {
    RateEffect(s, e, p);
    FirstSteps();
    if s.count + 1 < U32 {
      SmallWrap(s.count + 1);
    }
    hide Marking, NewtonStep, Wrap;
    if afresh && s.marking && Marking(s, e, p).1 && s.count >= 2 {
      NewtonStaysClose(s.count, s.recInvSqrt);
    }
  }

  /** No count up to event k exceeds 2^24. */
  ghost predicate Limited(es: seq<Event>, p: Params, k: nat)
    requires k <= |es|
  {
    forall m :: 0 <= m <= k ==> StateAt(es, p, m).count <= COUNT_LIMIT
  }

  lemma LimitedStep(es: seq<Event>, p: Params, k: nat)
    requires 0 < k <= |es| && Limited(es, p, k)
    ensures Limited(es, p, k - 1) && StateAt(es, p, k).count <= COUNT_LIMIT
  {
    hide StateAt;
  }

  lemma NotFreshYet(es: seq<Event>, p: Params)
    ensures !Fresh(es, p, 0)
  {}

  lemma {:induction false} FreshStaysClose(es: seq<Event>, p: Params, k: nat)
    requires k <= |es| && NoOverflow(es, p, k) && Limited(es, p, k)
    ensures Fresh(es, p, k) ==> Close(StateAt(es, p, k))
  {
    hide Marking, StateAt, MarkedAt, NoOverflow, CountOverflows, Close, Fresh, NewtonInv, Limited;
    if k == 0 {
      NotFreshYet(es, p);
    } else {
      NoOverflowStep(es, p, k);
      LimitedStep(es, p, k);
      UnfoldState(es, p, k - 1);
      UnfoldFresh(es, p, k);
      FreshStaysClose(es, p, k - 1);
      RunKeepsNewtonInv(es, p, k - 1);
      StepStaysClose(StateAt(es, p, k - 1), es[k - 1], p, Fresh(es, p, k - 1));
    }
  }

  lemma UnfoldFresh(es: seq<Event>, p: Params, k: nat)
    requires 0 < k <= |es|
    ensures Fresh(es, p, k) <==> if MarkedAt(es, p, k - 1) && !StateAt(es, p, k - 1).marking then StateAt(es, p, k).count == 1
                                 else Fresh(es, p, k - 1)
  {
    hide MarkedAt, StateAt;
  }

  /** step, rounded up, is at least 7/10 of interval / sqrt(count). */
  ghost predicate NotMuchFaster(count: nat, step: nat, interval: nat)
  {
    100 * (count * ((step + 1) * (step + 1))) >= 49 * (interval * interval)
  }

  lemma FromSquares(i2: nat, c: nat, ct: nat)
    requires i2 * c <= U32 * ct && 100 * c >= 49 * U32
    ensures 100 * ct >= 49 * i2
  {
    MulLe(49 * U32, 100 * c, i2);
    assert i2 * (100 * c) == 100 * (i2 * c) && i2 * (49 * U32) == U32 * (49 * i2);
  }

  lemma CloseSpacing(count: nat, rec: nat, interval: nat)
    requires rec < U16 && AtLeastInvSqrt(count, rec)
    ensures NotMuchFaster(count, Increment(interval, rec), interval)
  {
    IncrementExact(interval, rec);
    var t := Increment(interval, rec) + 1;
    Squares(interval * rec, U16 * t, count);
    RearrangeSquares(count, interval, rec);
    RearrangeSquares(count, U16, t);
    hide Increment;
    FromSquares(interval * interval, count * (rec * rec), count * (t * t));
  }

  /** s' schedules its mark by a step after the previous schedule point, or after now for a first mark, and
      the step is not much shorter than interval / sqrt(count). */
  ghost predicate WellSpaced(s: State, s': State, e: Event, p: Params)
  {
    var step := Increment(p.interval, s'.recInvSqrt);
    && s'.markNext == Wrap((if s.marking then s.markNext else Wrap(Now(e))) + step)
    && NotMuchFaster(s'.count, step, p.interval)
  }

  /** In every run, up to the 2^24th mark of an episode that started afresh: each mark schedules the next one
      by a step that, rounded up, is at least seven tenths of interval / sqrt(count). */
  lemma SpacingIsClose(es: seq<Event>, p: Params, k: nat)
    requires k < |es| && NoOverflow(es, p, k + 1) && Limited(es, p, k + 1)
    requires MarkedAt(es, p, k) && Fresh(es, p, k + 1)
    ensures WellSpaced(StateAt(es, p, k), StateAt(es, p, k + 1), es[k], p)
  {
    hide StateAt, MarkedAt, NoOverflow, Fresh, Limited, Close, NewtonInv, WellSpaced;
    UnfoldState(es, p, k);
    hide Marking;
    FreshStaysClose(es, p, k + 1);
    RunKeepsNewtonInv(es, p, k + 1);
    MarkIsClose(StateAt(es, p, k), es[k], p);
  }

  lemma MarkIsClose(s: State, e: Event, p: Params)
    requires Marking(s, e, p).1 && Close(Marking(s, e, p).0) && NewtonInv(Marking(s, e, p).0)
    ensures WellSpaced(s, Marking(s, e, p).0, e, p)
  {
    hide Marking, ShouldMark, Increment, AtLeastInvSqrt, NotMuchFaster, Wrap;
    MarkingEffect(s, e, p);
    var s' := Marking(s, e, p).0;
    CloseSpacing(s'.count, s'.recInvSqrt, p.interval);
  }
}
