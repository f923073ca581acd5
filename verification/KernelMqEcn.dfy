/** MQ-ECN marking in sch_dwrr: the threshold of a class from the round time of its priority. */
module KernelMqEcn {
  import opened Arithmetic
  import opened TokenBucket

  const SHIFTED: nat := 0x2_0000_0000  // 1 << 33, standing in for 8 * 10^9

  datatype Option<T> = Some(value: T) | None

  /** div_u64 takes a 32-bit divisor; dividing by zero traps. */
  function DivU64(dividend: nat, divisor: nat): Option<nat>
  {
    if divisor % U32 == 0 then None else Some(dividend / (divisor % U32))
  }

  function ThresholdOf(estimate: nat, rate: nat, portThresh: nat): nat
    requires rate > 0
  {
    (if estimate < rate then estimate else rate) * portThresh / rate
  }

  /** ecn_thresh_bytes of a class. */
  function Threshold(quantum: nat, roundTime: int, rate: nat, portThresh: nat): Option<nat>
    requires rate > 0
  {
    if roundTime <= 0 then Some(ThresholdOf(rate, rate, portThresh))
    else
      match DivU64(quantum * SHIFTED, roundTime)
      case None => None
      case Some(estimate) => Some(ThresholdOf(estimate, rate, portThresh))
  }

  /** A backlogged class of one priority. */
  datatype Share = Share(quantum: nat, lenBytes: nat)

  predicate Marks(c: Share, roundTime: int, rate: nat, portThresh: nat)
    requires rate > 0
  {
    var t := Threshold(c.quantum, roundTime, rate, portThresh);
    t.Some? && c.lenBytes > t.value
  }

  ghost function QuantumSum(cs: seq<Share>): nat
  {
    if cs == [] then 0 else cs[0].quantum + QuantumSum(cs[1..])
  }

  ghost function LengthSum(cs: seq<Share>): nat
  {
    if cs == [] then 0 else cs[0].lenBytes + LengthSum(cs[1..])
  }

  /** The division does not trap. */
  predicate Defined(roundTime: int)
  {
    roundTime <= 0 || roundTime % U32 != 0
  }

  ghost function ThresholdSum(cs: seq<Share>, roundTime: int, rate: nat, portThresh: nat): nat
    requires rate > 0 && Defined(roundTime)
  {
    if cs == [] then 0
    else Threshold(cs[0].quantum, roundTime, rate, portThresh).value + ThresholdSum(cs[1..], roundTime, rate, portThresh)
  }

  // ---------------------------------------------------------------- the divisor

  /** Only the low word of a positive round time counts: the threshold is that of the low word, and there
      is none, for any class, exactly when the low word of a positive round time is zero. */
  lemma LowWordOnly(quantum: nat, roundTime: int, rate: nat, portThresh: nat)
    requires rate > 0
    ensures Threshold(quantum, roundTime, rate, portThresh).None? <==> roundTime > 0 && roundTime % U32 == 0
    ensures roundTime > 0 && roundTime % U32 > 0 ==>
              Threshold(quantum, roundTime, rate, portThresh) == Threshold(quantum, roundTime % U32, rate, portThresh)
  {
    assert roundTime % U32 % U32 == roundTime % U32;
  }

  // ---------------------------------------------------------------- one threshold

  /** The class is entitled to the whole link. */
  predicate Capped(quantum: nat, roundTime: int, rate: nat)
  {
    roundTime <= 0 || quantum * SHIFTED >= rate * (roundTime % U32)
  }

  lemma WholeShare(rate: nat, portThresh: nat)
    requires rate > 0
    ensures rate * portThresh / rate == portThresh
  {
    QuotientBelow(rate * portThresh, rate, portThresh);
    QuotientBelow(rate * portThresh, rate, portThresh + 1);
    Distribute(rate, portThresh, 1);
  }

  lemma FloorTimes(a: nat, d: nat)
    requires d > 0
    ensures a / d * d <= a
  {}

  /** No threshold exceeds the port's; a capped class gets exactly that. */
  lemma ThresholdAtMost(quantum: nat, roundTime: int, rate: nat, portThresh: nat)
    requires rate > 0 && Defined(roundTime)
    ensures Threshold(quantum, roundTime, rate, portThresh).Some?
    ensures Threshold(quantum, roundTime, rate, portThresh).value <= portThresh
    ensures Capped(quantum, roundTime, rate) ==> Threshold(quantum, roundTime, rate, portThresh).value == portThresh
  {
    WholeShare(rate, portThresh);
    if roundTime > 0 {
      var rt := roundTime % U32;
      var e0 := quantum * SHIFTED / rt;
      CappedEstimate(quantum, rt, rate);
      ThresholdOfAtMost(e0, rate, portThresh);
      assert Threshold(quantum, roundTime, rate, portThresh) == Some(ThresholdOf(e0, rate, portThresh));
      hide Threshold, ThresholdOf;
    }
  }

  lemma CappedEstimate(quantum: nat, rt: nat, rate: nat)
    requires rt > 0
    ensures quantum * SHIFTED >= rate * rt <==> quantum * SHIFTED / rt >= rate
  {
    QuotientBelow(quantum * SHIFTED, rt, rate);
    assert rate * rt == rt * rate;
  }

  lemma ThresholdOfAtMost(estimate: nat, rate: nat, portThresh: nat)
    requires rate > 0
    ensures ThresholdOf(estimate, rate, portThresh) <= portThresh
    ensures estimate >= rate ==> ThresholdOf(estimate, rate, portThresh) == portThresh
  {
    var e := if estimate < rate then estimate else rate;
    WholeShare(rate, portThresh);
    MulLe(e, rate, portThresh);
    DivMono(e * portThresh, rate * portThresh, rate);
  }

  // ---------------------------------------------------------------- longer rounds

  ghost predicate NeverRaises(r1: nat, r2: nat)
    requires r1 % U32 > 0 && r2 % U32 > 0
  {
    forall quantum: nat, rate: nat, portThresh: nat :: rate > 0 ==> NotAbove(quantum, r1, r2, rate, portThresh)
  }

  /** The threshold at round time r2 is at most that at r1. */
  ghost predicate NotAbove(quantum: nat, r1: nat, r2: nat, rate: nat, portThresh: nat)
    requires r1 % U32 > 0 && r2 % U32 > 0 && rate > 0
  {
    var t1, t2 := Threshold(quantum, r1, rate, portThresh), Threshold(quantum, r2, rate, portThresh);
    t1.Some? && t2.Some? && t2.value <= t1.value
  }

  lemma DivAntitone(x: nat, a: nat, b: nat)
    requires 0 < a <= b
    ensures x / b <= x / a
  {
    var q := x / b;
    QuotientBelow(x, b, q);
    MulLe(a, b, q);
    QuotientBelow(x, a, q);
  }

  lemma ShorterRoundNotBelow(quantum: nat, r1: nat, r2: nat, rate: nat, portThresh: nat)
    requires rate > 0 && 0 < r1 % U32 <= r2 % U32
    ensures NotAbove(quantum, r1, r2, rate, portThresh)
  {
    var e1, e2 := quantum * SHIFTED / (r1 % U32), quantum * SHIFTED / (r2 % U32);
    DivAntitone(quantum * SHIFTED, r1 % U32, r2 % U32);
    assert Threshold(quantum, r1, rate, portThresh) == Some(ThresholdOf(e1, rate, portThresh));
    assert Threshold(quantum, r2, rate, portThresh) == Some(ThresholdOf(e2, rate, portThresh));
    hide Threshold;
    ThresholdOfMono(e2, e1, rate, portThresh);
    hide ThresholdOf;
  }

  lemma ThresholdOfMono(low: nat, high: nat, rate: nat, portThresh: nat)
    requires rate > 0 && low <= high
    ensures ThresholdOf(low, rate, portThresh) <= ThresholdOf(high, rate, portThresh)
  {
    var a, b := if low < rate then low else rate, if high < rate then high else rate;
    MulLe(a, b, portThresh);
    DivMono(a * portThresh, b * portThresh, rate);
  }

  lemma ExactQuotient(d: nat, q: nat)
    requires d > 0
    ensures d * q / d == q
  {
    QuotientBelow(d * q, d, q);
    QuotientBelow(d * q, d, q + 1);
    Distribute(d, q, 1);
  }

  /** With low words a > b and quantum a * b, the rate and port threshold a * 2^33 set them apart. */
  lemma RaisedAt(r1: nat, r2: nat)
    requires 0 < r2 % U32 < r1 % U32
    ensures var a, b := r1 % U32, r2 % U32; a * SHIFTED > 0 && !NotAbove(a * b, r1, r2, a * SHIFTED, a * SHIFTED)
  {
    var a, b := r1 % U32, r2 % U32;
    var rate := a * SHIFTED;
    assert a * b * SHIFTED == a * (b * SHIFTED) == b * (a * SHIFTED);
    ExactQuotient(a, b * SHIFTED);
    ExactQuotient(b, a * SHIFTED);
    assert Threshold(a * b, r1, rate, rate) == Some(ThresholdOf(b * SHIFTED, rate, rate));
    assert Threshold(a * b, r2, rate, rate) == Some(ThresholdOf(rate, rate, rate));
    hide Threshold;
    WholeShare(rate, rate);
    ExactQuotient(rate, b * SHIFTED);
    assert b * SHIFTED * rate == rate * (b * SHIFTED);
  }

  /** A change of round time raises no threshold, whatever the quantum, the rate and the port threshold, if
      and only if it does not lower the low word; so a round that gets longer can raise one. */
  lemma LongerRoundExact(r1: nat, r2: nat)
    requires r1 % U32 > 0 && r2 % U32 > 0
    ensures NeverRaises(r1, r2) <==> r1 % U32 <= r2 % U32
  {
    hide NotAbove;
    if r1 % U32 <= r2 % U32 {
      forall quantum: nat, rate: nat, portThresh: nat | rate > 0 ensures NotAbove(quantum, r1, r2, rate, portThresh) {
        ShorterRoundNotBelow(quantum, r1, r2, rate, portThresh);
      }
    } else {
      RaisedAt(r1, r2);
    }
  }

  /** An instance for every quantum: with the rate in this range a threshold leaps from nothing at 2^32 - 1
      ns to the whole port threshold at 2^32 + 1 ns. */
  lemma WrapRaisesThreshold(quantum: nat, rate: nat, portThresh: nat)
    requires 0 < rate <= quantum * SHIFTED
    requires quantum * SHIFTED / (U32 - 1) < rate && quantum * SHIFTED / (U32 - 1) * portThresh < rate
    ensures Threshold(quantum, U32 - 1, rate, portThresh) == Some(0)
    ensures Threshold(quantum, U32 + 1, rate, portThresh) == Some(portThresh)
  {
    QuotientBelow(quantum * SHIFTED / (U32 - 1) * portThresh, rate, 1);
    WholeShare(rate, portThresh);
    assert (U32 - 1) % U32 == U32 - 1 && (U32 + 1) % U32 == 1;
    assert quantum * SHIFTED / 1 == quantum * SHIFTED;
  }

  lemma Reorder(t: nat, rate: nat, rt: nat, e: nat, portThresh: nat, x: nat)
    requires t * rate <= e * portThresh && e * rt <= x
    ensures Times(t, rt * rate) <= Times(portThresh, x)
  {
    MulLe(t * rate, e * portThresh, rt);
    MulLe(e * rt, x, portThresh);
    assert t * (rt * rate) == (t * rate) * rt;
    assert (e * portThresh) * rt == (e * rt) * portThresh;
  }

  lemma OneThreshold(quantum: nat, roundTime: nat, rate: nat, portThresh: nat)
    requires rate > 0 && roundTime % U32 > 0
    ensures Threshold(quantum, roundTime, rate, portThresh).Some?
    ensures Times(Threshold(quantum, roundTime, rate, portThresh).value, roundTime % U32 * rate)
            <= Times(portThresh, quantum * SHIFTED)
  {
    var rt, x := roundTime % U32, quantum * SHIFTED;
    var e0 := x / rt;
    var e := if e0 < rate then e0 else rate;
    assert Threshold(quantum, roundTime, rate, portThresh) == Some(e * portThresh / rate);
    hide Threshold;
    FloorTimes(x, rt);
    MulLe(e, e0, rt);
    FloorTimes(e * portThresh, rate);
    hide Times;
    Reorder(e * portThresh / rate, rate, rt, e, portThresh, x);
  }

  /** What the two divisions of an uncapped class drop. */
  function Rounding(quantum: nat, roundTime: nat, rate: nat, portThresh: nat): nat
    requires rate > 0 && roundTime % U32 > 0
  {
    var rt := roundTime % U32;
    portThresh * (quantum * SHIFTED % rt) + rt * (quantum * SHIFTED / rt * portThresh % rate)
  }

  lemma Recombine(t: nat, rate: nat, rt: nat, e: nat, portThresh: nat, x: nat, a: nat, b: nat)
    requires x == rt * e + a && e * portThresh == rate * t + b
    ensures Times(t, rt * rate) + (portThresh * a + rt * b) == Times(portThresh, x)
  {
    Distribute(portThresh, rt * e, a);
    Distribute(rt, rate * t, b);
    assert portThresh * (rt * e) == rt * (e * portThresh);
    assert rt * (rate * t) == t * (rt * rate);
  }

  lemma OneThresholdExact(quantum: nat, roundTime: nat, rate: nat, portThresh: nat)
    requires rate > 0 && roundTime % U32 > 0 && !Capped(quantum, roundTime, rate)
    ensures Threshold(quantum, roundTime, rate, portThresh).Some?
    ensures Times(Threshold(quantum, roundTime, rate, portThresh).value, roundTime % U32 * rate)
            + Rounding(quantum, roundTime, rate, portThresh) == Times(portThresh, quantum * SHIFTED)
  {
    var rt, x := roundTime % U32, quantum * SHIFTED;
    var e := x / rt;
    assert rate * rt == rt * rate;
    QuotientBelow(x, rt, rate);
    assert Threshold(quantum, roundTime, rate, portThresh) == Some(e * portThresh / rate);
    hide Threshold, Capped;
    Recombine(e * portThresh / rate, rate, rt, e, portThresh, x, x % rt, e * portThresh % rate);
  }

  lemma RoundingBounded(quantum: nat, roundTime: nat, rate: nat, portThresh: nat)
    requires rate > 0 && roundTime % U32 > 0
    ensures Rounding(quantum, roundTime, rate, portThresh) <= Times(roundTime % U32, portThresh + rate)
  {
    var rt := roundTime % U32;
    MulLe(quantum * SHIFTED % rt, rt, portThresh);
    MulLe(quantum * SHIFTED / rt * portThresh % rate, rate, rt);
    Distribute(rt, portThresh, rate);
  }

  /** A class is marked exactly when it holds more than its share, both divisions taken into account: more
      than the port threshold if it is entitled to the whole link, otherwise a length that times the rate
      exceeds the port threshold times its estimated rate. */
  lemma MarksExact(c: Share, roundTime: int, rate: nat, portThresh: nat)
    requires rate > 0 && Defined(roundTime)
    ensures Marks(c, roundTime, rate, portThresh)
            <==> if Capped(c.quantum, roundTime, rate) then c.lenBytes > portThresh
                 else Times(c.lenBytes, rate) > Times(c.quantum * SHIFTED / (roundTime % U32), portThresh)
  {
    ThresholdAtMost(c.quantum, roundTime, rate, portThresh);
    if !Capped(c.quantum, roundTime, rate) {
      var e := c.quantum * SHIFTED / (roundTime % U32);
      CappedEstimate(c.quantum, roundTime % U32, rate);
      assert Threshold(c.quantum, roundTime, rate, portThresh) == Some(e * portThresh / rate);
      QuotientBelow(e * portThresh, rate, c.lenBytes);
      assert rate * c.lenBytes == c.lenBytes * rate;
    }
  }

  // ---------------------------------------------------------------- sums of thresholds

  lemma ShareOfSum(t: nat, a: nat, b: nat)
    ensures Times(t, (a + b) * SHIFTED) == Times(t, a * SHIFTED) + Times(t, b * SHIFTED)
  {
    Distribute(t, a * SHIFTED, b * SHIFTED);
  }

  /** Whatever the round time: the thresholds of any classes of a priority, times the low word of the
      round time, are at most the port threshold times what their quanta take at the link rate, in units
      of 2^33. */
  lemma {:induction false} SharesBounded(cs: seq<Share>, roundTime: nat, rate: nat, portThresh: nat)
    requires rate > 0 && roundTime % U32 > 0
    ensures Times(ThresholdSum(cs, roundTime, rate, portThresh), roundTime % U32 * rate)
            <= Times(portThresh, QuantumSum(cs) * SHIFTED)
  {
    hide Times, Threshold;
    TimesSum(0, 0, roundTime % U32 * rate);
    if cs == [] {
      ShareOfSum(portThresh, 0, 0);
    } else {
      SharesBounded(cs[1..], roundTime, rate, portThresh);
      OneThreshold(cs[0].quantum, roundTime, rate, portThresh);
      TimesSum(Threshold(cs[0].quantum, roundTime, rate, portThresh).value,
               ThresholdSum(cs[1..], roundTime, rate, portThresh), roundTime % U32 * rate);
      ShareOfSum(portThresh, cs[0].quantum, QuantumSum(cs[1..]));
    }
  }

  ghost predicate NoneCapped(cs: seq<Share>, roundTime: int, rate: nat)
  {
    forall k :: 0 <= k < |cs| ==> !Capped(cs[k].quantum, roundTime, rate)
  }

  ghost function RoundingSum(cs: seq<Share>, roundTime: nat, rate: nat, portThresh: nat): nat
    requires rate > 0 && roundTime % U32 > 0
  {
    if cs == [] then 0
    else Rounding(cs[0].quantum, roundTime, rate, portThresh) + RoundingSum(cs[1..], roundTime, rate, portThresh)
  }

  /** If no class is capped, what is missing from that is exactly what the divisions drop. */
  lemma {:induction false} SharesBalance(cs: seq<Share>, roundTime: nat, rate: nat, portThresh: nat)
    requires rate > 0 && roundTime % U32 > 0 && NoneCapped(cs, roundTime, rate)
    ensures Times(ThresholdSum(cs, roundTime, rate, portThresh), roundTime % U32 * rate)
            + RoundingSum(cs, roundTime, rate, portThresh) == Times(portThresh, QuantumSum(cs) * SHIFTED)
  {
    hide Times, Threshold, Capped, Rounding;
    TimesSum(0, 0, roundTime % U32 * rate);
    if cs == [] {
      ShareOfSum(portThresh, 0, 0);
    } else {
      assert !Capped(cs[0].quantum, roundTime, rate);
      SharesBalance(cs[1..], roundTime, rate, portThresh);
      OneThresholdExact(cs[0].quantum, roundTime, rate, portThresh);
      TimesSum(Threshold(cs[0].quantum, roundTime, rate, portThresh).value,
               ThresholdSum(cs[1..], roundTime, rate, portThresh), roundTime % U32 * rate);
      ShareOfSum(portThresh, cs[0].quantum, QuantumSum(cs[1..]));
    }
  }

  lemma {:induction false} RoundingSumBounded(cs: seq<Share>, roundTime: nat, rate: nat, portThresh: nat)
    requires rate > 0 && roundTime % U32 > 0
    ensures RoundingSum(cs, roundTime, rate, portThresh) <= Times(|cs|, Times(roundTime % U32, portThresh + rate))
  {
    hide Times, Rounding;
    var most := Times(roundTime % U32, portThresh + rate);
    TimesSum(0, 0, most);
    if cs != [] {
      RoundingBounded(cs[0].quantum, roundTime, rate, portThresh);
      RoundingSumBounded(cs[1..], roundTime, rate, portThresh);
      TimesSum(1, |cs| - 1, most);
      OneTimes(most);
    }
  }

  lemma OneTimes(x: int)
    ensures Times(1, x) == x
  {}

  lemma {:induction false} SumSplits(cs: seq<Share>, k: nat, roundTime: int, rate: nat, portThresh: nat)
    requires rate > 0 && Defined(roundTime) && k < |cs|
    ensures Threshold(cs[k].quantum, roundTime, rate, portThresh).Some?
    ensures ThresholdSum(cs, roundTime, rate, portThresh)
            == Threshold(cs[k].quantum, roundTime, rate, portThresh).value
               + ThresholdSum(cs[..k] + cs[k + 1..], roundTime, rate, portThresh)
  {
    ThresholdAtMost(cs[k].quantum, roundTime, rate, portThresh);
    hide Threshold;
    var others := cs[..k] + cs[k + 1..];
    if k == 0 {
      assert others == cs[1..];
    } else {
      SumSplits(cs[1..], k - 1, roundTime, rate, portThresh);
      assert others[0] == cs[0] && others[1..] == cs[1..][..k - 1] + cs[1..][k..];
    }
  }

  /** A class gets no threshold at all. */
  predicate Starved(quantum: nat, roundTime: int, rate: nat, portThresh: nat)
    requires Defined(roundTime)
  {
    portThresh == 0 || (roundTime > 0 && !Capped(quantum, roundTime, rate)
                        && quantum * SHIFTED / (roundTime % U32) * portThresh < rate)
  }

  lemma StarvedExact(quantum: nat, roundTime: int, rate: nat, portThresh: nat)
    requires rate > 0 && Defined(roundTime)
    ensures Threshold(quantum, roundTime, rate, portThresh).Some?
    ensures Threshold(quantum, roundTime, rate, portThresh).value == 0 <==> Starved(quantum, roundTime, rate, portThresh)
  {
    ThresholdAtMost(quantum, roundTime, rate, portThresh);
    if roundTime > 0 && !Capped(quantum, roundTime, rate) {
      var rt := roundTime % U32;
      assert rate * rt == rt * rate;
      QuotientBelow(quantum * SHIFTED, rt, rate);
      QuotientBelow(quantum * SHIFTED / rt * portThresh, rate, 1);
    }
  }

  ghost predicate AllStarved(cs: seq<Share>, roundTime: int, rate: nat, portThresh: nat)
    requires Defined(roundTime)
  {
    forall k :: 0 <= k < |cs| ==> Starved(cs[k].quantum, roundTime, rate, portThresh)
  }

  lemma {:induction false} SumZeroExact(cs: seq<Share>, roundTime: int, rate: nat, portThresh: nat)
    requires rate > 0 && Defined(roundTime)
    ensures ThresholdSum(cs, roundTime, rate, portThresh) == 0 <==> AllStarved(cs, roundTime, rate, portThresh)
  {
    hide Threshold, Starved;
    if cs != [] {
      SumZeroExact(cs[1..], roundTime, rate, portThresh);
      StarvedExact(cs[0].quantum, roundTime, rate, portThresh);
      assert AllStarved(cs, roundTime, rate, portThresh) ==> AllStarved(cs[1..], roundTime, rate, portThresh) by {
        forall k | 0 <= k < |cs[1..]| ensures cs[1..][k] == cs[k + 1] {}
      }
    }
  }

  // ---------------------------------------------------------------- sharing the port threshold

  /** One class never gets more than the port threshold. */
  lemma OneClassShares(cs: seq<Share>, roundTime: int, rate: nat, portThresh: nat)
    requires rate > 0 && Defined(roundTime) && |cs| <= 1
    ensures ThresholdSum(cs, roundTime, rate, portThresh) <= portThresh
  {
    if cs != [] {
      ThresholdAtMost(cs[0].quantum, roundTime, rate, portThresh);
      assert ThresholdSum(cs[1..], roundTime, rate, portThresh) == 0;
    }
  }

  /** With a capped class the thresholds share out the port threshold exactly when every other class gets
      nothing. */
  lemma CappedSharesExact(cs: seq<Share>, k: nat, roundTime: int, rate: nat, portThresh: nat)
    requires rate > 0 && Defined(roundTime) && k < |cs| && Capped(cs[k].quantum, roundTime, rate)
    ensures ThresholdSum(cs, roundTime, rate, portThresh) <= portThresh
            <==> AllStarved(cs[..k] + cs[k + 1..], roundTime, rate, portThresh)
  {
    ThresholdAtMost(cs[k].quantum, roundTime, rate, portThresh);
    SumSplits(cs, k, roundTime, rate, portThresh);
    SumZeroExact(cs[..k] + cs[k + 1..], roundTime, rate, portThresh);
  }

  /** Without one: exactly when what the quanta take beyond the low word of the round time, weighted with
      the port threshold, is no more than the divisions drop. */
  lemma UncappedSharesExact(cs: seq<Share>, roundTime: nat, rate: nat, portThresh: nat)
    requires rate > 0 && roundTime % U32 > 0 && NoneCapped(cs, roundTime, rate)
    ensures ThresholdSum(cs, roundTime, rate, portThresh) <= portThresh
            <==> Times(portThresh, QuantumSum(cs) * SHIFTED)
                 <= Times(portThresh, roundTime % U32 * rate) + RoundingSum(cs, roundTime, rate, portThresh)
  {
    var sum, unit := ThresholdSum(cs, roundTime, rate, portThresh), roundTime % U32 * rate;
    SharesBalance(cs, roundTime, rate, portThresh);
    hide ThresholdSum, NoneCapped, QuantumSum, RoundingSum, Times;
    UnitPositive(roundTime % U32, rate);
    TimesOrder(sum, portThresh, unit);
  }

  lemma TimesFactor(t: nat, a: int, b: int)
    requires a <= b
    ensures Times(t, a) <= Times(t, b)
  {
    MulLe(a, b, t);
  }

  lemma TimesOrder(a: int, b: int, unit: nat)
    requires unit > 0
    ensures a <= b <==> Times(a, unit) <= Times(b, unit)
  {
    if a <= b {
      TimesMono(a, b, unit);
    } else {
      TimesMono(b + 1, a, unit);
      TimesSum(b, 1, unit);
    }
  }

  lemma UnitPositive(rt: nat, rate: nat)
    requires rt > 0 && rate > 0
    ensures rt * rate > 0
  {
    MulLe(1, rate, rt);
  }

  /** So they do, capped or not, from a low word of 2^33 * sum(Q) / rate on, and they do not, uncapped, if
      it is shorter by more than the rounding of two divisions a class. */
  lemma SharesByRoundTime(cs: seq<Share>, roundTime: nat, rate: nat, portThresh: nat)
    requires rate > 0 && roundTime % U32 > 0
    ensures QuantumSum(cs) * SHIFTED <= roundTime % U32 * rate ==> ThresholdSum(cs, roundTime, rate, portThresh) <= portThresh
    ensures NoneCapped(cs, roundTime, rate)
            && Times(portThresh, QuantumSum(cs) * SHIFTED)
               > Times(portThresh, roundTime % U32 * rate) + Times(|cs|, Times(roundTime % U32, portThresh + rate))
            ==> ThresholdSum(cs, roundTime, rate, portThresh) > portThresh
  {
    var sum, unit := ThresholdSum(cs, roundTime, rate, portThresh), roundTime % U32 * rate;
    SharesBounded(cs, roundTime, rate, portThresh);
    if NoneCapped(cs, roundTime, rate) {
      UncappedSharesExact(cs, roundTime, rate, portThresh);
      RoundingSumBounded(cs, roundTime, rate, portThresh);
    }
    hide ThresholdSum, NoneCapped, RoundingSum, Times;
    if QuantumSum(cs) * SHIFTED <= unit {
      TimesFactor(portThresh, QuantumSum(cs) * SHIFTED, unit);
      UnitPositive(roundTime % U32, rate);
      TimesOrder(sum, portThresh, unit);
    }
  }

  /** Sharing as a maintainer can check it beforehand. */
  ghost predicate SharesOut(cs: seq<Share>, roundTime: int, rate: nat)
  {
    |cs| <= 1 || (roundTime > 0 && QuantumSum(cs) * SHIFTED <= roundTime % U32 * rate)
  }

  lemma SharesPortThreshold(cs: seq<Share>, roundTime: int, rate: nat, portThresh: nat)
    requires rate > 0 && Defined(roundTime) && SharesOut(cs, roundTime, rate)
    ensures ThresholdSum(cs, roundTime, rate, portThresh) <= portThresh
  {
    if |cs| <= 1 {
      OneClassShares(cs, roundTime, rate, portThresh);
    } else {
      SharesByRoundTime(cs, roundTime, rate, portThresh);
    }
  }

  lemma {:induction false} UnmarkedWithin(cs: seq<Share>, roundTime: int, rate: nat, portThresh: nat)
    requires rate > 0 && Defined(roundTime) && forall k :: 0 <= k < |cs| ==> !Marks(cs[k], roundTime, rate, portThresh)
    ensures LengthSum(cs) <= ThresholdSum(cs, roundTime, rate, portThresh)
  {
    if cs != [] {
      ThresholdAtMost(cs[0].quantum, roundTime, rate, portThresh);
      UnmarkedWithin(cs[1..], roundTime, rate, portThresh);
      assert !Marks(cs[0], roundTime, rate, portThresh);
    }
    hide Threshold;
  }

  /** Then classes that together hold more than the port threshold include one that marks. */
  lemma PortOverMeansClassOver(cs: seq<Share>, roundTime: int, rate: nat, portThresh: nat)
    requires rate > 0 && Defined(roundTime) && SharesOut(cs, roundTime, rate) && LengthSum(cs) > portThresh
    ensures exists k :: 0 <= k < |cs| && Marks(cs[k], roundTime, rate, portThresh)
  {
    SharesPortThreshold(cs, roundTime, rate, portThresh);
    if forall k :: 0 <= k < |cs| ==> !Marks(cs[k], roundTime, rate, portThresh) {
      UnmarkedWithin(cs, roundTime, rate, portThresh);
    }
  }

  // ---------------------------------------------------------------- the true round time

  /** What the quanta take at the link rate, times that rate. */
  ghost function TrueRound(cs: seq<Share>): nat
  {
    QuantumSum(cs) * (8 * NSEC_PER_SEC)
  }

  lemma PerCent(sum: nat, portThresh: nat, q: nat)
    requires q > 0 && Times(sum, q * (8 * NSEC_PER_SEC)) <= Times(portThresh, q * SHIFTED)
    ensures sum * (8 * NSEC_PER_SEC) <= portThresh * SHIFTED
  {
    assert sum * (q * (8 * NSEC_PER_SEC)) == q * (sum * (8 * NSEC_PER_SEC));
    assert portThresh * (q * SHIFTED) == q * (portThresh * SHIFTED);
    CancelLe(q, sum * (8 * NSEC_PER_SEC), portThresh * SHIFTED);
  }

  /** The shift by 33 stands in for 8 * 10^9.  So from the true round time on, the thresholds exceed the
      port threshold by less than 7.38 per cent, */
  lemma OvershootBounded(cs: seq<Share>, roundTime: nat, rate: nat, portThresh: nat)
    requires rate > 0 && roundTime % U32 > 0 && QuantumSum(cs) > 0 && TrueRound(cs) <= roundTime % U32 * rate
    ensures ThresholdSum(cs, roundTime, rate, portThresh) * 10000 <= portThresh * 10738
  {
    var sum := ThresholdSum(cs, roundTime, rate, portThresh);
    SharesBounded(cs, roundTime, rate, portThresh);
    MulLe(TrueRound(cs), roundTime % U32 * rate, sum);
    hide ThresholdSum, QuantumSum;
    PerCent(sum, portThresh, QuantumSum(cs));
    assert portThresh * SHIFTED * 10000 <= portThresh * 10738 * (8 * NSEC_PER_SEC);
  }

  /** and at the true round time itself they do exceed it, for any uncapped classes, as soon as those
      7.37 per cent outweigh the rounding. */
  lemma TrueRoundTimeIsTooShort(cs: seq<Share>, roundTime: nat, rate: nat, portThresh: nat)
    requires rate > 0 && roundTime % U32 > 0 && NoneCapped(cs, roundTime, rate)
    requires TrueRound(cs) == roundTime % U32 * rate
    requires Times(portThresh, QuantumSum(cs) * (SHIFTED - 8 * NSEC_PER_SEC))
             > Times(|cs|, Times(roundTime % U32, portThresh + rate))
    ensures ThresholdSum(cs, roundTime, rate, portThresh) > portThresh
  {
    Distribute(portThresh, QuantumSum(cs) * (SHIFTED - 8 * NSEC_PER_SEC), TrueRound(cs));
    SharesByRoundTime(cs, roundTime, rate, portThresh);
  }

  /** For instance two classes of 10000 bytes at 1 Gbit/s get 34358 of 32000 bytes. */
  lemma TwoClassesOverrun()
    ensures var cs := [Share(10000, 0), Share(10000, 0)];
            && TrueRound(cs) == 160000 * 1_000_000_000
            && ThresholdSum(cs, 160000, 1_000_000_000, 32000) == 34358
  {
    var one := [Share(10000, 0)];
    var cs := [Share(10000, 0), Share(10000, 0)];
    assert one[1..] == [] && cs[1..] == one;
    assert Threshold(10000, 160000, 1_000_000_000, 32000) == Some(17179);
    assert QuantumSum(one) == 10000 && ThresholdSum(one, 160000, 1_000_000_000, 32000) == 17179;
  }
}
