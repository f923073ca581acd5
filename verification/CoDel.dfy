/** CoDel marking of sch_dwrr (sch_wfq carries the same text): a u32 clock in units of 1024 ns, a
    16-bit reciprocal square root refined by Newton steps, and the marking state machine. */
module CoDel {
  import opened Arithmetic

  const U16: nat := 0x1_0000
  const U31: nat := 0x8000_0000
  const U32: nat := 0x1_0000_0000
  const U64: nat := 0x1_0000_0000_0000_0000
  const MAX_PKT_BYTES: nat := 1538
  const TICK_NS: nat := 1024  // 1 << dwrr_codel_shift

  /** Configuration: both are non-negative 32-bit ints. */
  datatype Params = Params(target: nat, interval: nat)

  ghost predicate ParamsValid(p: Params)
  {
    p.target < U31 && p.interval < U31
  }

  /** One dequeue of the class: the clock, the packet's enqueue time stamp, and the class's
      backlog once the packet has left. */
  datatype Event = Event(nowNs: int, stampNs: int, backlog: nat)

  datatype State = State(
    count: nat, lastcount: nat, marking: bool, recInvSqrt: nat,
    firstAbove: nat, markNext: nat, ldelay: nat)

  const INIT: State := State(0, 0, false, 0, 0, 0, 0)

  // ---------------------------------------------------------------- the 32-bit clock

  /** Ticks on an unbounded clock; the shift of a signed value rounds down. */
  function Ticks(ns: int): int
  {
    ns / TICK_NS
  }

  function Wrap(t: int): (w: nat)
    ensures w < U32
  {
    t % U32
  }

  lemma WrapTurns(t: int, n: int)
    ensures Wrap(t + n * U32) == Wrap(t)
  {}

  lemma WrapAdds(a: int, b: int)
    ensures Wrap(Wrap(a) + b) == Wrap(a + b)
  {
    WrapTurns(a + b, -(a / U32));
  }

  lemma WrapSubtracts(a: int, b: int)
    ensures Wrap(a - Wrap(b)) == Wrap(a - b)
  {
    WrapTurns(a - b, b / U32);
  }

  lemma WrapDifference(a: int, b: int)
    ensures Wrap(Wrap(a) - Wrap(b)) == Wrap(a - b)
  {
    WrapAdds(a, -(Wrap(b) as int));
    WrapSubtracts(a, b);
  }

  /** A wrapped difference of less than a turn either way. */
  lemma WrapNear(d: int)
    ensures 0 <= d < U32 ==> Wrap(d) == d
    ensures -(U32 as int) <= d < 0 ==> Wrap(d) == d + U32
  {
    if -(U32 as int) <= d < 0 {
      WrapTurns(d, 1);
    }
  }

  predicate TimeAfter(a: nat, b: nat)
  {
    0 < Wrap(a - b) < U31
  }

  predicate TimeAfterEq(a: nat, b: nat)
  {
    Wrap(a - b) < U31
  }

  // ---------------------------------------------------------------- the transitions

  function ShouldMark(s: State, e: Event, p: Params): (State, bool)
  {
    var now := Wrap(Ticks(e.nowNs));
    var s1 := s.(ldelay := Wrap(Ticks(e.nowNs - e.stampNs)));
    if TimeAfter(p.target, s1.ldelay) || e.backlog <= MAX_PKT_BYTES then
      (s1.(firstAbove := 0), false)
    else if s.firstAbove == 0 then
      (s1.(firstAbove := Wrap(now + p.interval)), false)
    else
      (s1, TimeAfter(now, s.firstAbove))
  }

  // The Newton step on machine words: every intermediate wraps as its C type does.

  function InvSqrtSquared(invsqrt: nat): nat
  {
    invsqrt * invsqrt / U32 % U32
  }

  function ThreeMinus(count: nat, invsqrt2: nat): nat
  {
    (3 * U32 - count * invsqrt2) % U64
  }

  function HalfProduct(val: nat, invsqrt: nat): nat
  {
    val / 4 * invsqrt % U64 / U31
  }

  function NewtonStep(count: nat, rec: nat): nat
  {
    var invsqrt := rec * U16 % U32;
    HalfProduct(ThreeMinus(count, InvSqrtSquared(invsqrt)), invsqrt) / U16 % U16
  }

  /** How far the next mark lies ahead: interval scaled by the reciprocal square root. */
  function Increment(interval: nat, rec: nat): nat
  {
    interval * (rec * U16 % U32) / U32
  }

  function ControlLaw(t: nat, interval: nat, rec: nat): nat
  {
    Wrap(t + Increment(interval, rec))
  }

  /** The next mark of a class that is already marking. */
  function MarkAgain(s: State, p: Params): State
  {
    var count := Wrap(s.count + 1);
    var rec := NewtonStep(count, s.recInvSqrt);
    s.(count := count, recInvSqrt := rec, markNext := ControlLaw(s.markNext, p.interval, rec))
  }

  /** The first mark of an episode resumes the last rate if the previous one ended recently. */
  function EnterMarking(s: State, now: nat, p: Params): State
  {
    var delta := Wrap(s.count - s.lastcount);
    var resume := delta > 1 && TimeAfter(Wrap(p.interval * 16), Wrap(now - s.markNext));
    var count := if resume then delta else 1;
    var rec := if resume then NewtonStep(delta, s.recInvSqrt) else U16 - 1;
    s.(marking := true, count := count, recInvSqrt := rec, lastcount := count,
       markNext := ControlLaw(now, p.interval, rec))
  }

  function Marking(s: State, e: Event, p: Params): (State, bool)
  {
    var now := Wrap(Ticks(e.nowNs));
    var (s1, mark) := ShouldMark(s, e, p);
    if s1.marking then
      if !mark then (s1.(marking := false), false)
      else if TimeAfterEq(now, s1.markNext) then (MarkAgain(s1, p), true)
      else (s1, false)
    else if mark then (EnterMarking(s1, now, p), true)
    else (s1, false)
  }

  // ---------------------------------------------------------------- Newton invariant

  /** rec / 2^16 is at most 1 / sqrt(count). */
  ghost predicate AtMostInvSqrt(count: nat, rec: nat)
  {
    rec < U16 && count * (rec * rec) <= U32
  }

  ghost predicate NewtonInv(s: State)
  {
    s.lastcount <= s.count < U32 && AtMostInvSqrt(s.count, s.recInvSqrt)
  }

  /** With y = count * rec^2 / 2^32 scaled to n = 2^32: 4 - y(3-y)^2 = (1-y)^2 (4-y). */
  lemma Cubic(n: int, y: int)
    requires 0 <= y <= 4 * n
    ensures y * ((3 * n - y) * (3 * n - y)) <= 4 * (n * n * n)
  {
    var u := n - y;
    assert (u * u) * (4 * n - y) >= 0;
    assert 3 * n - y == u + 2 * n;
    assert y == n - u && 4 * n - y == 3 * n + u;
    assert (u + 2 * n) * (u + 2 * n) == u * u + 4 * (u * n) + 4 * (n * n);
    calc {
      y * ((3 * n - y) * (3 * n - y));
      (n - u) * (u * u + 4 * (u * n) + 4 * (n * n));
      n * (u * u) + 4 * (n * (u * n)) + 4 * (n * (n * n)) - u * (u * u) - 4 * (u * (u * n)) - 4 * (u * (n * n));
      { assert n * (u * n) == u * (n * n); assert u * (u * n) == n * (u * u); }
      4 * (n * (n * n)) - u * (u * u) - 3 * (n * (u * u));
      { assert (u * u) * (3 * n + u) == 3 * (n * (u * u)) + u * (u * u); }
      4 * (n * (n * n)) - (u * u) * (3 * n + u);
    }
  }

  lemma Squares(a: nat, b: nat, c: nat)
    requires a <= b
    ensures c * (a * a) <= c * (b * b)
  {
    MulLe(a, b, a);
    MulLe(a, b, b);
    MulLe(a * a, b * b, c);
  }

  lemma RearrangeSquares(c: nat, x: nat, y: nat)
    ensures c * ((x * y) * (x * y)) == (x * x) * (c * (y * y))
  {
    assert (x * y) * (x * y) == (x * x) * (y * y);
  }

  /** If twice the next reciprocal is at most rec * (3 - y), the next one satisfies the bound again. */
  lemma NewtonContracts(n: nat, count: nat, rec: nat, next: nat)
    requires n > 0 && count * (rec * rec) <= 2 * n
    requires 2 * n * next <= (3 * n - count * (rec * rec)) * rec
    ensures count * (next * next) <= n
  {
    var y := count * (rec * rec);
    var v: nat := 3 * n - y;
    Squares(2 * n * next, v * rec, count);
    RearrangeSquares(count, v, rec);
    RearrangeSquares(count, 2 * n, next);
    Cubic(n, y);
    CubeOf(n, y, v);
    CancelLe((2 * n) * (2 * n), count * (next * next), n);
  }

  lemma CubeOf(n: nat, y: nat, v: nat)
    requires y * (v * v) <= 4 * (n * n * n)
    ensures (2 * n) * (2 * n) > 0 || n == 0
    ensures (v * v) * y <= (2 * n) * (2 * n) * n
  {}

  /** No word of the Newton step overflows or underflows, and the step restores the invariant. */
  lemma NewtonStepSafe(count: nat, rec: nat)
    requires 0 < count < U32 && rec < U16
    requires count * (rec * rec) <= 2 * U32
    ensures var val := 3 * U32 - count * (rec * rec);
            && U32 <= val < U64
            && val / 4 * (rec * U16) < U64
            && NewtonStep(count, rec) == val / 4 * rec / U31 < U16
    ensures AtMostInvSqrt(count, NewtonStep(count, rec))
  {
    hide NewtonStep;
    var val: nat := 3 * U32 - count * (rec * rec);
    NewtonWords(count, rec, val);
    var next := val / 4 * rec / U31;
    QuarterProduct(val, rec);
    NewtonContracts(U32, count, rec, next);
    NewtonFits(U16, count, rec, next);
  }

  lemma QuarterProduct(val: nat, rec: nat)
    ensures 2 * U32 * (val / 4 * rec / U31) <= val * rec
  {
    var v := val / 4;
    MulLe(4 * v, val, rec);
    assert 4 * v * rec == 4 * (v * rec);
  }

  /** One more mark. */
  lemma NewtonAdvances(count: nat, rec: nat)
    requires count + 1 < U32 && AtMostInvSqrt(count, rec)
    ensures AtMostInvSqrt(count + 1, NewtonStep(count + 1, rec))
  {
    hide NewtonStep;
    SquareWord(rec);
    assert (count + 1) * (rec * rec) == count * (rec * rec) + rec * rec;
    NewtonStepSafe(count + 1, rec);
  }

  /** Resuming with a smaller count. */
  lemma NewtonResumes(count: nat, rec: nat, delta: nat)
    requires 0 < delta <= count < U32 && AtMostInvSqrt(count, rec)
    ensures AtMostInvSqrt(delta, NewtonStep(delta, rec))
  {
    hide NewtonStep;
    MulLe(delta, count, rec * rec);
    NewtonStepSafe(delta, rec);
  }

  lemma SquareWord(rec: nat)
    requires rec < U16
    ensures rec * rec < U32 && InvSqrtSquared(rec * U16) == rec * rec
  {
    MulLe(rec, U16 - 1, rec);
    MulLe(rec, U16 - 1, U16 - 1);
    assert (rec * U16) * (rec * U16) == rec * rec * U32;
  }

  lemma ThreeMinusWord(count: nat, sq: nat)
    requires count * sq <= 3 * U32
    ensures ThreeMinus(count, sq) == 3 * U32 - count * sq
  {}

  lemma HalfProductWord(val: nat, invsqrt: nat, p: nat)
    requires val / 4 * invsqrt == p * U16 < U64
    ensures HalfProduct(val, invsqrt) == p * U16 / U31
  {}

  lemma TimesLeft(v: nat, rec: nat, u: nat)
    ensures v * (rec * u) == v * rec * u
  {}

  lemma ProductWord(val: nat, rec: nat)
    requires val <= 3 * U32 && rec < U16
    ensures val / 4 * (rec * U16) < U64
    ensures HalfProduct(val, rec * U16) / U16 == val / 4 * rec / U31
  {
    hide HalfProduct;
    var p := val / 4 * rec;
    MulLe(val / 4, 3 * U31 / 2, rec);
    TimesLeft(val / 4, rec, U16);
    HalfProductWord(val, rec * U16, p);
    ShiftsCompose(p);
  }

  lemma NewtonWords(count: nat, rec: nat, val: nat)
    requires rec < U16 && val == 3 * U32 - count * (rec * rec)
    ensures val / 4 * (rec * U16) < U64
    ensures NewtonStep(count, rec) == val / 4 * rec / U31 % U16
  {
    hide ThreeMinus, HalfProduct, InvSqrtSquared;
    SquareWord(rec);
    var sq := rec * rec;
    ThreeMinusWord(count, sq);
    ProductWord(val, rec);
    assert rec * U16 % U32 == rec * U16;
  }

  lemma ShiftsCompose(p: nat)
    ensures p * U16 / U31 / U16 == p / U31
  {
    var a := p / U31;
    var b := p * U16 / U31;
    assert U31 * a <= p < U31 * a + U31;
    assert U31 * b <= p * U16 < U31 * b + U31;
    assert a * U16 <= b;
    assert b < a * U16 + U16;
  }

  /** The next reciprocal stays below u = 2^16: 3 u^2 r - r^3 = 2 u^3 - (u - r)^2 (2 u + r). */
  lemma NewtonFits(u: nat, count: nat, rec: nat, next: nat)
    requires 0 < count && rec < u
    requires 2 * (u * u) * next <= (3 * (u * u) - count * (rec * rec)) * rec
    ensures next < u
  {
    var u2, r2 := u * u, rec * rec;
    var lhs := 2 * u2 * next;
    MulLe(1, count, r2);
    MulLe(3 * u2 - count * r2, 3 * u2 - r2, rec);
    FitsIdentity(u, rec, u - rec);
    FitsPositive(u, rec, u - rec);
    CancelLess(2 * u2, next, u);
  }

  lemma FitsPositive(u: nat, r: nat, g: nat)
    requires 0 < g && r + g == u
    ensures (g * g) * (2 * u + r) > 0
  {}

  lemma FitsIdentity(u: int, r: int, g: int)
    requires g == u - r
    ensures (3 * (u * u) - r * r) * r == 2 * (u * u) * u - (g * g) * (2 * u + r)
  {
    var u2, r2, ur := u * u, r * r, u * r;
    assert g * g == u2 - 2 * ur + r2;
    assert ur * u == u2 * r && ur * r == r2 * u;
  }

  /** count wraps exactly when an already marking class marks with count at its maximum. */
  ghost predicate CountOverflows(s: State, e: Event, p: Params)
  {
    s.marking && s.count == U32 - 1 && Marking(s, e, p).1
  }

  lemma ShouldMarkFrame(s: State, e: Event, p: Params)
    ensures var s1 := ShouldMark(s, e, p).0;
            s1 == s.(firstAbove := s1.firstAbove, ldelay := s1.ldelay)
  {}

  /** The invariant survives every step short of the 2^32nd mark. */
  lemma MarkingKeepsNewtonInv(s: State, e: Event, p: Params)
    requires NewtonInv(s) && !CountOverflows(s, e, p)
    ensures NewtonInv(Marking(s, e, p).0)
    ensures Marking(s, e, p).0.count <= s.count + 1
  {
    ShouldMarkFrame(s, e, p);
    var s1 := ShouldMark(s, e, p).0;
    if s.marking && s.count + 1 < U32 {
      MarkAgainKeepsNewtonInv(s1, p);
    } else if !s.marking {
      EnterMarkingKeepsNewtonInv(s1, Wrap(Ticks(e.nowNs)), p);
    }
    hide ShouldMark, MarkAgain, EnterMarking, AtMostInvSqrt, TimeAfterEq, Wrap;
  }

  lemma MarkAgainKeepsNewtonInv(s: State, p: Params)
    requires NewtonInv(s) && s.count + 1 < U32
    ensures NewtonInv(MarkAgain(s, p)) && MarkAgain(s, p).count == s.count + 1
  {
    assert Wrap(s.count + 1) == s.count + 1;
    hide NewtonStep, ControlLaw, AtMostInvSqrt, Wrap;
    NewtonAdvances(s.count, s.recInvSqrt);
  }

  lemma EnterMarkingKeepsNewtonInv(s: State, now: nat, p: Params)
    requires NewtonInv(s)
    ensures NewtonInv(EnterMarking(s, now, p)) && 0 < EnterMarking(s, now, p).count <= s.count + 1
  {
    var delta := s.count - s.lastcount;
    assert Wrap(delta) == delta;
    assert AtMostInvSqrt(1, U16 - 1);
    if delta > 1 {
      NewtonResumes(s.count, s.recInvSqrt, delta);
    }
    hide NewtonStep, ControlLaw, AtMostInvSqrt, TimeAfter, Wrap;
  }

  /** A wrapped count ends below lastcount, so overflow is the only way to lose the invariant
      once the class has marked. */
  lemma OverflowBreaksNewtonInv(s: State, e: Event, p: Params)
    requires NewtonInv(s) && s.lastcount > 0
    ensures NewtonInv(Marking(s, e, p).0) <==> !CountOverflows(s, e, p)
  {
    ShouldMarkFrame(s, e, p);
    if !CountOverflows(s, e, p) {
      MarkingKeepsNewtonInv(s, e, p);
    }
  }

  // ---------------------------------------------------------------- whole runs

  /** The state before event k of a run that starts from the initial class. */
  ghost function StateAt(es: seq<Event>, p: Params, k: nat): State
    requires k <= |es|
  {
    if k == 0 then INIT else Marking(StateAt(es, p, k - 1), es[k - 1], p).0
  }

  ghost predicate MarkedAt(es: seq<Event>, p: Params, k: nat)
    requires k < |es|
  {
    Marking(StateAt(es, p, k), es[k], p).1
  }

  ghost predicate NoOverflow(es: seq<Event>, p: Params, k: nat)
    requires k <= |es|
  {
    forall m :: 0 <= m < k ==> !CountOverflows(StateAt(es, p, m), es[m], p)
  }

  lemma NoOverflowStep(es: seq<Event>, p: Params, k: nat)
    requires 0 < k <= |es|
    ensures NoOverflow(es, p, k)
            <==> NoOverflow(es, p, k - 1) && !CountOverflows(StateAt(es, p, k - 1), es[k - 1], p)
    ensures StateAt(es, p, k) == Marking(StateAt(es, p, k - 1), es[k - 1], p).0
  {
    hide Marking, CountOverflows;
  }

  lemma InitialInv()
    ensures NewtonInv(INIT) && INIT.count == 0
  {}

  /** Every state of a run in which count has not wrapped satisfies the invariant. */
  lemma {:induction false} RunKeepsNewtonInv(es: seq<Event>, p: Params, k: nat)
    requires k <= |es| && NoOverflow(es, p, k)
    ensures NewtonInv(StateAt(es, p, k)) && StateAt(es, p, k).count <= k
  {
    hide Marking, NewtonInv, NoOverflow, CountOverflows;
    if k == 0 {
      InitialInv();
    } else {
      NoOverflowStep(es, p, k);
      hide StateAt;
      RunKeepsNewtonInv(es, p, k - 1);
      MarkingKeepsNewtonInv(StateAt(es, p, k - 1), es[k - 1], p);
    }
  }

  /** Wrapping takes 2^32 - 1 dequeues. */
  lemma {:induction false} ShortRunsNeverOverflow(es: seq<Event>, p: Params, k: nat)
    requires k <= |es| && k < U32
    ensures NoOverflow(es, p, k)
  {
    if k > 0 {
      hide Marking, NewtonInv, NoOverflow;
      ShortRunsNeverOverflow(es, p, k - 1);
      RunKeepsNewtonInv(es, p, k - 1);
      NoOverflowStep(es, p, k);
    }
  }

  lemma SpacingBound(u: nat, count: nat, rec: nat, interval: nat, s: nat)
    requires u > 0 && u * s <= interval * rec
    requires count * (rec * rec) <= u * u
    ensures count * (s * s) <= interval * interval
  {
    Squares(u * s, interval * rec, count);
    RearrangeSquares(count, u, s);
    RearrangeSquares(count, interval, rec);
    MulLe(count * (rec * rec), u * u, interval * interval);
    Positive(u);
    CancelLe(u * u, count * (s * s), interval * interval);
  }

  lemma Positive(u: nat)
    requires u > 0
    ensures u * u > 0
  {}

  /** An increment under the invariant is at most interval / sqrt(count). */
  lemma IncrementSpacing(count: nat, rec: nat, interval: nat)
    requires AtMostInvSqrt(count, rec)
    ensures Increment(interval, rec) <= interval
    ensures count * (Increment(interval, rec) * Increment(interval, rec)) <= interval * interval
  {
    var s := Increment(interval, rec);
    assert interval * (rec * U16) == interval * rec * U16;
    assert U16 * s <= interval * rec;
    MulLe(rec, U16, interval);
    SpacingBound(U16, count, rec, interval, s);
  }

  /** And it is the interval times rec / 2^16, rounded down. */
  lemma IncrementExact(interval: nat, rec: nat)
    requires rec < U16
    ensures U16 * Increment(interval, rec) <= interval * rec < U16 * (Increment(interval, rec) + 1)
  {
    TimesLeft(interval, rec, U16);
    assert rec * U16 % U32 == rec * U16;
    HalfShift(interval * rec);
  }

  lemma HalfShift(x: nat)
    ensures U16 * (x * U16 / U32) <= x < U16 * (x * U16 / U32 + 1)
  {}

  /** Mark spacing over whole runs: after every mark the next one is scheduled at most
      interval / sqrt(count) after the previous schedule point. */
  lemma MarkSpacing(es: seq<Event>, p: Params, k: nat) returns (step: nat)
    requires k < |es| && NoOverflow(es, p, k + 1)
    requires MarkedAt(es, p, k)
    ensures var s, s' := StateAt(es, p, k), StateAt(es, p, k + 1);
            && s'.marking && s'.count > 0
            && s'.markNext == Wrap((if s.marking then s.markNext else Wrap(Ticks(es[k].nowNs))) + step)
            && step <= p.interval
            && s'.count * (step * step) <= p.interval * p.interval
  {
    hide Marking, CountOverflows, Increment, AtMostInvSqrt, Wrap;
    RunKeepsNewtonInv(es, p, k);
    RunKeepsNewtonInv(es, p, k + 1);
    var s, s' := StateAt(es, p, k), StateAt(es, p, k + 1);
    MarkShape(s, es[k], p);
    step := Increment(p.interval, s'.recInvSqrt);
    IncrementSpacing(s'.count, s'.recInvSqrt, p.interval);
  }

  lemma MarkShape(s: State, e: Event, p: Params)
    requires NewtonInv(s) && !CountOverflows(s, e, p) && Marking(s, e, p).1
    ensures var s' := Marking(s, e, p).0;
            && s'.marking && s'.count > 0
            && s'.markNext == Wrap((if s.marking then s.markNext else Wrap(Ticks(e.nowNs)))
                                   + Increment(p.interval, s'.recInvSqrt))
  {
    ShouldMarkFrame(s, e, p);
    var s1 := ShouldMark(s, e, p).0;
    if s.marking {
      MarkAgainKeepsNewtonInv(s1, p);
    } else {
      EnterMarkingKeepsNewtonInv(s1, Wrap(Ticks(e.nowNs)), p);
    }
    hide ShouldMark, NewtonStep, Increment, TimeAfter, TimeAfterEq, AtMostInvSqrt, Wrap;
  }

  // ---------------------------------------------------------------- why a mark is justified

  /** The clock never runs backwards and no packet leaves before it came. */
  ghost predicate Clocked(es: seq<Event>)
  {
    && (forall i, j :: 0 <= i <= j < |es| ==> es[i].nowNs <= es[j].nowNs)
    && (forall i :: 0 <= i < |es| ==> es[i].stampNs <= es[i].nowNs)
  }

  /** In real, unwrapped time: the packet waited for at least the target and more than one
      maximum-size packet stayed behind. */
  ghost predicate Above(e: Event, p: Params)
  {
    Ticks(e.nowNs - e.stampNs) >= p.target && e.backlog > MAX_PKT_BYTES
  }

  ghost predicate AboveSince(es: seq<Event>, p: Params, j: nat, k: nat)
    requires j <= k <= |es|
  {
    forall m :: j <= m < k ==> Above(es[m], p)
  }

  lemma WrappedSojourn(soj: nat, target: nat)
    requires target < U31
    ensures soj < target ==> TimeAfter(target, Wrap(soj))
  {
    if soj < target {
      WrapNear(soj);
      WrapNear(target - soj);
    }
  }

  lemma NotBelowIsAbove(s: State, e: Event, p: Params)
    requires ParamsValid(p) && e.stampNs <= e.nowNs
    requires ShouldMark(s, e, p).0.firstAbove != 0
    ensures Above(e, p)
  {
    hide TimeAfter, Wrap;
    WrappedSojourn(Ticks(e.nowNs - e.stampNs), p.target);
  }

  /** The marking part of the machine leaves firstAbove to ShouldMark and never marks without its consent. */
  lemma MarkingFrame(s: State, e: Event, p: Params)
    ensures Marking(s, e, p).0.firstAbove == ShouldMark(s, e, p).0.firstAbove
    ensures Marking(s, e, p).1 ==> ShouldMark(s, e, p).1
  {
    hide ShouldMark, NewtonStep, ControlLaw, TimeAfter, TimeAfterEq, Wrap;
  }

  lemma FirstAboveStep(s: State, e: Event, p: Params)
    requires ParamsValid(p) && e.stampNs <= e.nowNs
    ensures var s' := Marking(s, e, p).0;
            s'.firstAbove != 0 ==>
              Above(e, p) && s'.firstAbove == if s.firstAbove == 0 then Wrap(Ticks(e.nowNs) + p.interval) else s.firstAbove
  {
    hide Marking, TimeAfter, Wrap, Above, Ticks;
    MarkingFrame(s, e, p);
    WrapAdds(Ticks(e.nowNs), p.interval);
    if ShouldMark(s, e, p).0.firstAbove != 0 {
      NotBelowIsAbove(s, e, p);
    }
  }

  /** firstAbove, when set, was set by a dequeue since which the queue has stayed above. */
  lemma {:induction false} FirstAboveWitness(es: seq<Event>, p: Params, k: nat) returns (j: nat)
    requires ParamsValid(p) && Clocked(es) && k <= |es|
    requires StateAt(es, p, k).firstAbove != 0
    ensures j < k && StateAt(es, p, k).firstAbove == Wrap(Ticks(es[j].nowNs) + p.interval)
    ensures AboveSince(es, p, j, k)
  {
    assert k > 0;
    hide Marking, TimeAfter, Wrap, Above, Ticks;
    var s := StateAt(es, p, k - 1);
    FirstAboveStep(s, es[k - 1], p);
    if s.firstAbove == 0 {
      j := k - 1;
    } else {
      j := FirstAboveWitness(es, p, k - 1);
    }
  }

  lemma WrappedDeadline(t0: int, t: int, interval: nat)
    requires t0 <= t && interval < U31
    ensures t - t0 <= interval ==> !TimeAfter(Wrap(t), Wrap(t0 + interval))
  {
    if t - t0 <= interval {
      WrapDifference(t, t0 + interval);
      WrapNear(t - t0 - interval);
      hide Wrap;
    }
  }

  /** Every mark is justified in real time: some earlier dequeue lies more than an interval back,
      and from it up to the marked packet every dequeue saw a sojourn time of at least the target
      and a backlog above one packet, however often the 32-bit clock wrapped. */
  lemma MarkJustified(es: seq<Event>, p: Params, k: nat) returns (j: nat)
    requires ParamsValid(p) && Clocked(es) && k < |es|
    requires MarkedAt(es, p, k)
    ensures j < k && Ticks(es[k].nowNs) - Ticks(es[j].nowNs) > p.interval
    ensures AboveSince(es, p, j, k + 1)
  {
    hide Marking, TimeAfter, Wrap;
    var s := StateAt(es, p, k);
    MarkingFrame(s, es[k], p);
    j := FirstAboveWitness(es, p, k);
    NotBelowIsAbove(s, es[k], p);
    WrappedDeadline(Ticks(es[j].nowNs), Ticks(es[k].nowNs), p.interval);
  }

  // ---------------------------------------------------------------- the class

  /** The CoDel fields of struct dwrr_class, updated in place as the kernel does. */
  class Class {
    var count: nat
    var lastcount: nat
    var marking: bool
    var recInvSqrt: nat
    var firstAbove: nat
    var markNext: nat
    var ldelay: nat

    ghost function Abs(): State
      reads this
    {
      State(count, lastcount, marking, recInvSqrt, firstAbove, markNext, ldelay)
    }

    constructor ()
      ensures Abs() == INIT
    {
      count, lastcount, marking, recInvSqrt, firstAbove, markNext, ldelay := 0, 0, false, 0, 0, 0, 0;
    }

    method CodelShouldMark(e: Event, p: Params) returns (okToMark: bool)
      modifies this`ldelay, this`firstAbove
      ensures (Abs(), okToMark) == ShouldMark(old(Abs()), e, p)
    {
      var now := Wrap(Ticks(e.nowNs));
      ldelay := Wrap(Ticks(e.nowNs - e.stampNs));
      if TimeAfter(p.target, ldelay) || e.backlog <= MAX_PKT_BYTES {
        firstAbove := 0;
        return false;
      }
      okToMark := false;
      if firstAbove == 0 {
        firstAbove := Wrap(now + p.interval);
      } else if TimeAfter(now, firstAbove) {
        okToMark := true;
      }
    }

    method CodelNewtonStep()
      modifies this`recInvSqrt
      ensures recInvSqrt == NewtonStep(count, old(recInvSqrt))
    {
      var invsqrt := recInvSqrt * U16 % U32;
      var invsqrt2 := invsqrt * invsqrt / U32 % U32;
      var val := (3 * U32 - count * invsqrt2) % U64;
      val := val / 4;
      val := val * invsqrt % U64 / U31;
      recInvSqrt := val / U16 % U16;
    }

    method CodelMarking(e: Event, p: Params) returns (ce: bool)
      modifies this
      ensures (Abs(), ce) == Marking(old(Abs()), e, p)
    {
      ce := false;
      var now := Wrap(Ticks(e.nowNs));
      var mark := CodelShouldMark(e, p);
      if marking {
        if !mark {
          marking := false;
        } else if TimeAfterEq(now, markNext) {
          count := Wrap(count + 1);
          CodelNewtonStep();
          markNext := ControlLaw(markNext, p.interval, recInvSqrt);
          ce := true;
        }
      } else if mark {
        ce := true;
        marking := true;
        var delta := Wrap(count - lastcount);
        if delta > 1 && TimeAfter(Wrap(p.interval * 16), Wrap(now - markNext)) {
          count := delta;
          CodelNewtonStep();
        } else {
          count := 1;
          recInvSqrt := U16 - 1;
        }
        lastcount := count;
        markNext := ControlLaw(now, p.interval, recInvSqrt);
      }
    }
  }
}
