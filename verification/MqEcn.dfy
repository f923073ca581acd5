/** MQ-ECN on the NS2 queue (marking scheme MQ_MARKING_GENER): every active queue gets a share of the
    port threshold in proportion to its quantum.  Doubles are modelled as reals. */
module MqEcn {
  import opened ActiveOrder
  import opened Ns2Dwrr
  import opened Ns2Packets

  const TINY: real := 0.000000001

  /** The threshold of a queue, in packets. */
  function Threshold(quantum: int, estimate: real, portThresh: real): real
  {
    if estimate >= TINY then
      (if quantum as real / estimate < 1.0 then quantum as real / estimate else 1.0) * portThresh
    else portThresh
  }

  function MarkingECN(s: Sched, q: nat, estimate: real, portThresh: real, meanPktsize: nat): bool
    requires q < |s.qs|
  {
    Bytes(s.qs[q].pkts) as real > Threshold(s.qs[q].quantum, estimate, portThresh) * meanPktsize as real
  }

  // ---------------------------------------------------------------- sharing the port threshold

  ghost function SumR(s: seq<real>): real
  {
    if s == [] then 0.0 else s[0] + SumR(s[1..])
  }

  /** The thresholds of the active queues; an inactive queue takes no share. */
  ghost function Shares(qs: seq<Queue>, estimate: real, portThresh: real): seq<real>
  {
    seq(|qs|, k requires 0 <= k < |qs| =>
      if qs[k].active then Threshold(qs[k].quantum, estimate, portThresh) else 0.0)
  }

  ghost function Scaled(q: int, unit: real): real
  {
    q as real * unit
  }

  lemma ScaledSum(a: int, b: int, unit: real)
    ensures Scaled(a + b, unit) == Scaled(a, unit) + Scaled(b, unit) && Scaled(0, unit) == 0.0
  {}

  lemma RealMulLe(a: real, b: real, c: real)
    requires a <= b && c >= 0.0
    ensures a * c <= b * c
  {
    assert (b - a) * c >= 0.0;
  }

  lemma RealMulLess(a: real, b: real, c: real)
    requires c > 0.0
    ensures a < b <==> a * c < b * c
  {
    if a < b {
      assert (b - a) * c > 0.0;
    } else {
      RealMulLe(b, a, c);
    }
  }

  lemma Exchange(ratio: real, unit: real, estimate: real)
    ensures ratio * (unit * estimate) == (ratio * estimate) * unit
  {}

  lemma RatioOf(q: real, ratio: real, unit: real, estimate: real, portThresh: real)
    requires q > 0.0 && estimate > 0.0 && ratio == q / estimate && unit == portThresh / estimate
    ensures ratio > 0.0 && (ratio < 1.0 <==> q < estimate)
    ensures ratio * portThresh == q * unit
  {
    assert ratio * estimate == q && unit * estimate == portThresh;
    assert 1.0 * estimate == estimate && 0.0 * estimate == 0.0;
    RealMulLess(0.0, ratio, estimate);
    RealMulLess(ratio, 1.0, estimate);
    Exchange(ratio, unit, estimate);
  }

  /** A share is the exact proportion unless that exceeds the port threshold. */
  lemma ShareOf(quantum: int, estimate: real, portThresh: real)
    requires quantum > 0 && portThresh > 0.0
    ensures 0.0 < Threshold(quantum, estimate, portThresh) <= portThresh
    ensures estimate >= TINY ==> Threshold(quantum, estimate, portThresh) <= Scaled(quantum, portThresh / estimate)
    ensures estimate >= TINY && quantum as real < estimate ==>
              Threshold(quantum, estimate, portThresh) == Scaled(quantum, portThresh / estimate)
    ensures estimate < TINY || quantum as real >= estimate ==> Threshold(quantum, estimate, portThresh) == portThresh
  {
    if estimate >= TINY {
      var q, ratio, unit := quantum as real, quantum as real / estimate, portThresh / estimate;
      RatioOf(q, ratio, unit, estimate, portThresh);
      assert Threshold(quantum, estimate, portThresh) == if ratio < 1.0 then ratio * portThresh else portThresh;
      assert Scaled(quantum, unit) == ratio * portThresh;
      hide Threshold, Scaled;
      if ratio >= 1.0 {
        RealMulLe(1.0, ratio, portThresh);
      } else {
        RealMulLess(ratio, 1.0, portThresh);
        RealMulLess(0.0, ratio, portThresh);
      }
    }
  }

  lemma PeelFirst(qs: seq<Queue>, estimate: real, portThresh: real)
    requires qs != []
    ensures var first := if qs[0].active then Threshold(qs[0].quantum, estimate, portThresh) else 0.0;
            SumR(Shares(qs, estimate, portThresh)) == first + SumR(Shares(qs[1..], estimate, portThresh))
    ensures Sum(ActiveQuanta(qs)) == ActiveQuantum(qs[0]) + Sum(ActiveQuanta(qs[1..]))
  {
    hide Threshold;
    assert Shares(qs, estimate, portThresh)[1..] == Shares(qs[1..], estimate, portThresh);
    assert ActiveQuanta(qs)[1..] == ActiveQuanta(qs[1..]);
  }

  ghost predicate AllBelow(qs: seq<Queue>, estimate: real)
  {
    forall k :: 0 <= k < |qs| && qs[k].active ==> qs[k].quantum as real < estimate
  }

  lemma {:induction false} SharesAtMost(qs: seq<Queue>, estimate: real, portThresh: real)
    requires forall k :: 0 <= k < |qs| ==> QueueOk(qs[k])
    requires estimate >= TINY && portThresh > 0.0
    ensures var whole := Scaled(Sum(ActiveQuanta(qs)), portThresh / estimate);
            && SumR(Shares(qs, estimate, portThresh)) <= whole
            && (AllBelow(qs, estimate) ==> SumR(Shares(qs, estimate, portThresh)) == whole)
  {
    hide Threshold, Scaled;
    var unit := portThresh / estimate;
    if qs == [] {
      ScaledSum(0, 0, unit);
    } else {
      assert QueueOk(qs[0]) && qs[0].quantum > 0;
      SharesAtMost(qs[1..], estimate, portThresh);
      PeelFirst(qs, estimate, portThresh);
      ShareOf(qs[0].quantum, estimate, portThresh);
      ScaledSum(ActiveQuantum(qs[0]), Sum(ActiveQuanta(qs[1..])), unit);
      ScaledSum(0, 0, unit);
      assert AllBelow(qs, estimate) ==> AllBelow(qs[1..], estimate);
      hide Shares, SumR, ActiveQuanta, Sum, QueueOk;
    }
  }

  lemma {:induction false} SumRBounds(s: seq<real>, k: nat)
    requires k < |s| && forall n :: 0 <= n < |s| ==> s[n] >= 0.0
    ensures SumR(s) >= s[k]
    ensures forall n :: 0 <= n < |s| && n != k ==> SumR(s) >= s[k] + s[n]
  {
    if k > 0 {
      SumRBounds(s[1..], k - 1);
      forall n | 0 <= n < |s| && n != k ensures SumR(s) >= s[k] + s[n] {
        if n > 0 {
          assert s[n] == s[1..][n - 1];
        }
      }
    } else {
      SumRNonNegative(s[1..]);
      forall n | 0 <= n < |s| && n != k ensures SumR(s) >= s[k] + s[n] {
        SumRBounds(s[1..], n - 1);
        assert s[n] == s[1..][n - 1];
      }
    }
  }

  lemma {:induction false} SumRNonNegative(s: seq<real>)
    requires forall n :: 0 <= n < |s| ==> s[n] >= 0.0
    ensures SumR(s) >= 0.0
  {
    if s != [] {
      SumRNonNegative(s[1..]);
    }
  }

  /** Once one of two active queues gets the whole port threshold, the shares exceed it. */
  lemma SharesOverflow(s: Sched, estimate: real, portThresh: real, a: nat, b: nat)
    requires Wf(s) && portThresh > 0.0
    requires a < |s.qs| && b < |s.qs| && a != b && s.qs[a].active && s.qs[b].active
    requires estimate < TINY || s.qs[a].quantum as real >= estimate
    ensures SumR(Shares(s.qs, estimate, portThresh)) > portThresh
  {
    var shares := Shares(s.qs, estimate, portThresh);
    forall k | 0 <= k < |shares| ensures shares[k] >= 0.0 {
      assert QueueOk(s.qs[k]);
      ShareOf(s.qs[k].quantum, estimate, portThresh);
    }
    ShareOf(s.qs[a].quantum, estimate, portThresh);
    ShareOf(s.qs[b].quantum, estimate, portThresh);
    SumRBounds(shares, a);
    assert shares[a] + shares[b] > portThresh;
  }

  /** The active queues' thresholds add up to at most the port threshold exactly when the estimate
      has caught up with the true quantum sum, or at most one queue is active. */
  lemma SharingExact(s: Sched, estimate: real, portThresh: real)
    requires Wf(s) && portThresh > 0.0
    ensures SumR(Shares(s.qs, estimate, portThresh)) <= portThresh
            <==> |s.order| <= 1 || estimate >= s.quantumSum as real
  {
    if |s.order| <= 1 {
      FewShares(s, estimate, portThresh);
    } else {
      ManyShares(s, estimate, portThresh);
    }
  }

  lemma ManyShares(s: Sched, estimate: real, portThresh: real)
    requires Wf(s) && portThresh > 0.0 && |s.order| > 1
    ensures SumR(Shares(s.qs, estimate, portThresh)) <= portThresh <==> estimate >= s.quantumSum as real
  {
    var a, b := s.order[0], s.order[1];
    assert s.qs[a].active && s.qs[b].active && a != b;
    assert s.quantumSum == Sum(ActiveQuanta(s.qs)) && forall k :: 0 <= k < |s.qs| ==> QueueOk(s.qs[k]);
    SomeQuantum(s, a);
    hide Wf, SumR, Shares, Sum, ActiveQuanta, QueueOk, Threshold;
    if estimate < TINY {
      SharesOverflow(s, estimate, portThresh, a, b);
    } else if AllBelow(s.qs, estimate) {
      SharesAtMost(s.qs, estimate, portThresh);
      Proportion(s.quantumSum, estimate, portThresh);
    } else {
      var k :| 0 <= k < |s.qs| && s.qs[k].active && s.qs[k].quantum as real >= estimate;
      var other := if k == a then b else a;
      SharesOverflow(s, estimate, portThresh, k, other);
      TwoQuanta(s, k, other);
    }
  }

  lemma Proportion(q: int, estimate: real, portThresh: real)
    requires estimate > 0.0 && portThresh > 0.0
    ensures Scaled(q, portThresh / estimate) <= portThresh <==> q as real <= estimate
  {
    var unit := portThresh / estimate;
    assert portThresh == estimate * unit && unit > 0.0;
    if q as real > estimate {
      assert (q as real - estimate) * unit > 0.0;
    } else {
      assert (estimate - q as real) * unit >= 0.0;
    }
  }

  lemma SomeQuantum(s: Sched, a: nat)
    requires Wf(s) && a < |s.qs| && s.qs[a].active
    ensures s.quantumSum >= s.qs[a].quantum >= 1
  {
    assert QueueOk(s.qs[a]);
    var quanta := ActiveQuanta(s.qs);
    forall k | 0 <= k < |quanta| ensures quanta[k] >= 0 {
      assert QueueOk(s.qs[k]);
    }
    SumOfNonNegatives(quanta);
    assert quanta[a] == s.qs[a].quantum;
  }

  lemma TwoQuanta(s: Sched, a: nat, b: nat)
    requires Wf(s) && a < |s.qs| && b < |s.qs| && a != b && s.qs[a].active && s.qs[b].active
    ensures s.quantumSum > s.qs[a].quantum
  {
    var quanta := ActiveQuanta(s.qs);
    var without := quanta[b := 0];
    assert QueueOk(s.qs[b]);
    forall k | 0 <= k < |without| ensures without[k] >= 0 {
      assert QueueOk(s.qs[k]);
    }
    SumUpdate(quanta, b, 0);
    SumOfNonNegatives(without);
    assert without[a] == s.qs[a].quantum;
  }

  lemma {:induction false} AtMostOneShare(shares: seq<real>, portThresh: real)
    requires portThresh > 0.0 && forall k :: 0 <= k < |shares| ==> 0.0 <= shares[k] <= portThresh
    requires forall a, b :: 0 <= a < b < |shares| ==> shares[a] == 0.0 || shares[b] == 0.0
    ensures SumR(shares) <= portThresh
  {
    if shares != [] {
      AtMostOneShare(shares[1..], portThresh);
      if shares[0] != 0.0 {
        forall k | 0 <= k < |shares[1..]| ensures shares[1..][k] == 0.0 {
          assert shares[1..][k] == shares[k + 1];
        }
        AllZero(shares[1..]);
      }
    }
  }

  lemma {:induction false} AllZero(s: seq<real>)
    requires forall k :: 0 <= k < |s| ==> s[k] == 0.0
    ensures SumR(s) == 0.0
  {
    if s != [] {
      AllZero(s[1..]);
    }
  }

  lemma FewShares(s: Sched, estimate: real, portThresh: real)
    requires Wf(s) && portThresh > 0.0 && |s.order| <= 1
    ensures SumR(Shares(s.qs, estimate, portThresh)) <= portThresh
  {
    var shares := Shares(s.qs, estimate, portThresh);
    forall k | 0 <= k < |shares| ensures 0.0 <= shares[k] <= portThresh {
      assert QueueOk(s.qs[k]);
      ShareOf(s.qs[k].quantum, estimate, portThresh);
    }
    forall a, b | 0 <= a < b < |shares| ensures shares[a] == 0.0 || shares[b] == 0.0 {
      assert s.qs[a].active ==> a == s.order[0];
      assert s.qs[b].active ==> b == s.order[0];
    }
    AtMostOneShare(shares, portThresh);
  }

  /** A queue is marked exactly when its bytes exceed the port threshold, or its share of it in proportion to
      the estimated quantum sum; a queue within both stays unmarked. */
  lemma MarkingExact(s: Sched, q: nat, estimate: real, portThresh: real, meanPktsize: nat)
    requires q < |s.qs| && s.qs[q].quantum > 0 && portThresh > 0.0
    ensures var bytes, mean := Bytes(s.qs[q].pkts) as real, meanPktsize as real;
            MarkingECN(s, q, estimate, portThresh, meanPktsize)
            <==> bytes > TimesR(portThresh, mean)
                 || (estimate >= TINY && TimesR(bytes, estimate) > TimesR(TimesR(portThresh, mean), s.qs[q].quantum as real))
  {
    var bytes, mean, quantum := Bytes(s.qs[q].pkts) as real, meanPktsize as real, s.qs[q].quantum;
    ShareOf(quantum, estimate, portThresh);
    var t := Threshold(quantum, estimate, portThresh);
    assert MarkingECN(s, q, estimate, portThresh, meanPktsize) <==> bytes > TimesR(t, mean);
    hide Threshold, MarkingECN, Scaled, TimesR;
    TimesMonoR(t, portThresh, mean);
    if estimate >= TINY {
      ShareTimes(quantum, estimate, portThresh);
      Cleared(bytes, t, mean, estimate, portThresh, quantum as real);
    }
  }

  /** With estimate at least the quantum, the threshold times the estimate is the quantum times the port
      threshold; otherwise it is the port threshold. */
  lemma ShareTimes(quantum: int, estimate: real, portThresh: real)
    requires quantum > 0 && estimate >= TINY && portThresh > 0.0
    ensures var t := Threshold(quantum, estimate, portThresh);
            if quantum as real < estimate then TimesR(t, estimate) == TimesR(portThresh, quantum as real) else t == portThresh
  {
    ShareOf(quantum, estimate, portThresh);
    if quantum as real < estimate {
      var unit := portThresh / estimate;
      assert unit * estimate == portThresh;
      assert Scaled(quantum, unit) == quantum as real * unit;
      Exchange(quantum as real, unit, estimate);
      assert (quantum as real * unit) * estimate == quantum as real * (unit * estimate) by {
        Associate(quantum as real, unit, estimate);
      }
    }
  }

  lemma Associate(a: real, b: real, c: real)
    ensures (a * b) * c == a * (b * c)
  {}

  lemma Cleared(bytes: real, t: real, mean: real, estimate: real, portThresh: real, quantum: real)
    requires estimate > 0.0 && bytes >= 0.0 && mean >= 0.0 && portThresh > 0.0 && quantum > 0.0
    requires if quantum < estimate then TimesR(t, estimate) == TimesR(portThresh, quantum) && t <= portThresh else t == portThresh
    ensures bytes > TimesR(t, mean)
            <==> bytes > TimesR(portThresh, mean) || TimesR(bytes, estimate) > TimesR(TimesR(portThresh, mean), quantum)
  {
    assert (portThresh * mean) * quantum == (portThresh * quantum) * mean;
    RealMulLe(t, portThresh, mean);
    if quantum < estimate {
      assert (t * mean) * estimate == (t * estimate) * mean;
      RealMulLess(t * mean, bytes, estimate);
    } else {
      RealMulLe(0.0, portThresh * mean, quantum);
      RealMulLe(estimate, quantum, portThresh * mean);
      RealMulLess(portThresh * mean, bytes, estimate);
      assert estimate * (portThresh * mean) == (portThresh * mean) * estimate;
      assert quantum * (portThresh * mean) == (portThresh * mean) * quantum;
    }
  }

  /** While the thresholds share out the port threshold, a port above its threshold always has a
      queue above its own, so congestion never goes unmarked. */
  lemma PortOverMeansQueueOver(s: Sched, estimate: real, portThresh: real, meanPktsize: nat)
    requires Wf(s) && portThresh > 0.0 && meanPktsize > 0
    requires |s.order| <= 1 || estimate >= s.quantumSum as real
    requires TotalByteLength(s.qs) as real > portThresh * meanPktsize as real
    ensures exists k :: 0 <= k < |s.qs| && s.qs[k].active && MarkingECN(s, k, estimate, portThresh, meanPktsize)
  {
    assert TotalByteLength(s.qs) as real > TimesR(portThresh, meanPktsize as real);
    hide TimesR, SumR, Shares, TotalByteLength, MarkingECN, Threshold;
    var sum := SumR(Shares(s.qs, estimate, portThresh));
    if forall k :: 0 <= k < |s.qs| && s.qs[k].active ==> !MarkingECN(s, k, estimate, portThresh, meanPktsize) {
      SharingExact(s, estimate, portThresh);
      TotalWithinShares(s, s.qs, estimate, portThresh, meanPktsize);
      TimesMonoR(sum, portThresh, meanPktsize as real);
      assert false;
    }
  }

  ghost function TimesR(a: real, b: real): real
  {
    a * b
  }

  lemma TimesMonoR(a: real, b: real, c: real)
    requires a <= b && c >= 0.0
    ensures TimesR(a, c) <= TimesR(b, c)
  {
    RealMulLe(a, b, c);
  }

  lemma TimesSumR(a: real, b: real, c: real)
    ensures TimesR(a + b, c) == TimesR(a, c) + TimesR(b, c) && TimesR(0.0, c) == 0.0
  {}

  lemma UnmarkedShare(s: Sched, q: nat, estimate: real, portThresh: real, mean: nat)
    requires q < |s.qs| && !MarkingECN(s, q, estimate, portThresh, mean)
    ensures Bytes(s.qs[q].pkts) as real <= TimesR(Threshold(s.qs[q].quantum, estimate, portThresh), mean as real)
  {}

  /** qs is a suffix of the queues of s. */
  lemma {:induction false} TotalWithinShares(s: Sched, qs: seq<Queue>, estimate: real, portThresh: real, mean: nat)
    requires Wf(s) && |qs| <= |s.qs| && qs == s.qs[|s.qs| - |qs|..]
    requires forall k :: 0 <= k < |s.qs| && s.qs[k].active ==> !MarkingECN(s, k, estimate, portThresh, mean)
    ensures TotalByteLength(qs) as real <= TimesR(SumR(Shares(qs, estimate, portThresh)), mean as real)
    decreases |qs|
  {
    hide TimesR, Threshold, MarkingECN;
    TimesSumR(0.0, 0.0, mean as real);
    if qs != [] {
      var at := |s.qs| - |qs|;
      assert QueueOk(s.qs[at]) && qs[0] == s.qs[at];
      TotalWithinShares(s, qs[1..], estimate, portThresh, mean);
      PeelFirst(qs, estimate, portThresh);
      var first := if qs[0].active then Threshold(qs[0].quantum, estimate, portThresh) else 0.0;
      TimesSumR(first, SumR(Shares(qs[1..], estimate, portThresh)), mean as real);
      if qs[0].active {
        UnmarkedShare(s, at, estimate, portThresh, mean);
      }
      hide Wf, Shares, SumR, QueueOk;
    }
  }

  // ---------------------------------------------------------------- the estimator

  /** One tick of the timer, or of the sampling at the end of deque. */
  function Smooth(estimate: real, quantumSum: int, alpha: real): real
  {
    estimate * alpha + quantumSum as real * (1.0 - alpha)
  }

  function SmoothTimes(estimate: real, quantumSum: int, alpha: real, n: nat): real
    decreases n
  {
    if n == 0 then estimate else SmoothTimes(Smooth(estimate, quantumSum, alpha), quantumSum, alpha, n - 1)
  }

  function Power(x: real, n: nat): real
  {
    if n == 0 then 1.0 else x * Power(x, n - 1)
  }

  lemma ErrorShrinks(estimate: real, quantumSum: int, alpha: real)
    ensures Smooth(estimate, quantumSum, alpha) - quantumSum as real == TimesR(estimate - quantumSum as real, alpha)
  {
    var q := quantumSum as real;
    assert q * (1.0 - alpha) == q - q * alpha;
    assert (estimate - q) * alpha == estimate * alpha - q * alpha;
  }

  lemma Reassociate(a: real, b: real, c: real, ba: real)
    requires ba == b * a
    ensures TimesR(a, TimesR(c, b)) == TimesR(ba, c)
    ensures TimesR(1.0, c) == c
  {
    assert a * (c * b) == (b * a) * c;
  }

  lemma {:induction false} ErrorAfter(estimate: real, quantumSum: int, alpha: real, n: nat)
    requires 0.0 <= alpha <= 1.0
    ensures SmoothTimes(estimate, quantumSum, alpha, n) - quantumSum as real
            == TimesR(Power(alpha, n), estimate - quantumSum as real)
    ensures estimate >= quantumSum as real ==> SmoothTimes(estimate, quantumSum, alpha, n) >= quantumSum as real
    decreases n
  {
    var x := estimate - quantumSum as real;
    hide TimesR, Smooth;
    if n == 0 {
      Reassociate(1.0, 1.0, x, 1.0);
    } else {
      var next := Smooth(estimate, quantumSum, alpha);
      ErrorShrinks(estimate, quantumSum, alpha);
      TimesNonNegative(x, alpha);
      ErrorAfter(next, quantumSum, alpha, n - 1);
      Reassociate(Power(alpha, n - 1), alpha, x, Power(alpha, n));
      var error := next - quantumSum as real;
      assert error == TimesR(x, alpha);
      assert SmoothTimes(next, quantumSum, alpha, n - 1) - quantumSum as real == TimesR(Power(alpha, n - 1), error);
    }
  }

  lemma TimesNonNegative(a: real, b: real)
    requires b >= 0.0
    ensures a >= 0.0 ==> TimesR(a, b) >= 0.0
  {}

  /** While the active set stays the same, n ticks shrink the estimation error by alpha^n and never
      change its sign: an estimate that has caught up stays caught up. */
  lemma EstimateConverges(estimate: real, quantumSum: int, alpha: real, n: nat)
    requires 0.0 <= alpha <= 1.0
    ensures SmoothTimes(estimate, quantumSum, alpha, n) - quantumSum as real
            == Power(alpha, n) * (estimate - quantumSum as real)
    ensures estimate >= quantumSum as real ==> SmoothTimes(estimate, quantumSum, alpha, n) >= quantumSum as real
  {
    hide SmoothTimes, Power;
    ErrorAfter(estimate, quantumSum, alpha, n);
  }

  // ---------------------------------------------------------------- reconfiguration

  /** set-quantum overwrites the quantum and does not look at the quantum sum. */
  function SetQuantum(s: Sched, k: nat, quantum: int): Sched
    requires k < |s.qs|
  {
    s.(qs := s.qs[k := s.qs[k].(quantum := quantum)])
  }

  /** Hence reconfiguring keeps the sum right exactly when the queue is idle or nothing changes. */
  lemma SetQuantumExact(s: Sched, k: nat, quantum: int)
    requires Wf(s) && k < |s.qs| && quantum > 0
    ensures Wf(SetQuantum(s, k, quantum)) <==> !s.qs[k].active || quantum == s.qs[k].quantum
  {
    var s' := SetQuantum(s, k, quantum);
    QuantaUpdate(s.qs, k, s'.qs[k]);
    assert QueueOk(s.qs[k]) && QueueOk(s'.qs[k]);
    assert s.qs[k].current || Short(s.qs[k]);
    if s'.quantumSum == Sum(ActiveQuanta(s'.qs)) {
      hide ActiveQuanta, Sum;
      assert Wf(s');
    }
  }
}
