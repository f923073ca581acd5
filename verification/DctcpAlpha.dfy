/** What alpha is, over whole runs: a weighted average of the marked fractions of the epochs. */
module DctcpAlpha {
  import opened Dctcp

  // ---------------------------------------------------------------- epochs, without the sender's counters

  /** This event brings the sender an ACK beyond the barrier, so an epoch closes. */
  ghost predicate Closes(y: System, e: Event, barrier: int)
  {
    e.AckArrives? && y.acks != [] && y.acks[0].ackno > barrier
  }

  /** Where the next epoch will close: at the first ACK beyond what had been sent when this one closed. */
  ghost function NextBarrier(y: System, e: Event, barrier: int): int
  {
    if Closes(y, e, barrier) then y.s.maxseq else barrier
  }

  /** How far the acknowledgements had come when each epoch of the run closed. */
  ghost function Closings(y: System, es: seq<Event>, p: Params, barrier: int): seq<int>
    decreases |es|
  {
    if es == [] then []
    else
      (if Closes(y, es[0], barrier) then [y.acks[0].ackno] else [])
      + Closings(Step(y, es[0], p), es[1..], p, NextBarrier(y, es[0], barrier))
  }

  ghost function LastBarrier(y: System, es: seq<Event>, p: Params, barrier: int): int
    decreases |es|
  {
    if es == [] then barrier else LastBarrier(Step(y, es[0], p), es[1..], p, NextBarrier(y, es[0], barrier))
  }

  /** The CE-marked fraction of bytes a up to b of the data received. */
  ghost function Fraction(log: seq<bool>, a: int, b: int): real
  {
    if 0 <= a < b <= |log| then (MarkedBytes(log, b) - MarkedBytes(log, a)) as real / (b - a) as real else 0.0
  }

  /** The fractions of the epochs that close at these bytes, the first of them beginning at byte from. */
  ghost function Fractions(log: seq<bool>, from: int, ends: seq<int>): seq<real>
    decreases |ends|
  {
    if ends == [] then [] else [Fraction(log, from, ends[0])] + Fractions(log, ends[0], ends[1..])
  }

  ghost function Power(x: real, n: nat): real
  {
    if n == 0 then 1.0 else x * Power(x, n - 1)
  }

  /** Each fraction weighs g, less a factor 1 - g for every later epoch. */
  ghost function Weighted(fs: seq<real>, g: real): real
  {
    if fs == [] then 0.0 else g * Power(1.0 - g, |fs| - 1) * fs[0] + Weighted(fs[1..], g)
  }

  // ---------------------------------------------------------------- one event

  /** The log only grows, so fractions of what is acknowledged stay what they are. */
  lemma FractionGrows(log: seq<bool>, more: seq<bool>, a: int, b: int)
    requires 0 <= a < b <= |log|
    ensures Fraction(log + more, a, b) == Fraction(log, a, b)
  {
    MarkedGrows(log, more, a);
    MarkedGrows(log, more, b);
  }

  lemma ClosingStep(y: System, p: Params, base: int)
    requires Inv(y) && y.acks != [] && y.acks[0].ackno > y.s.alphaUpdateSeq
    requires 0 <= base <= y.s.highestAck && y.doneTotal == base && y.doneMarked == MarkedBytes(y.ceLog, base)
    ensures base < y.acks[0].ackno <= |y.ceLog|
    ensures var y' := Step(y, AckArrives, p);
            && y'.s.alphaUpdateSeq == y.s.maxseq && y'.ceLog == y.ceLog
            && y'.s.alpha == (1.0 - p.g) * y.s.alpha + p.g * Fraction(y.ceLog, base, y.acks[0].ackno)
            && y'.doneTotal == y.acks[0].ackno && y'.doneMarked == MarkedBytes(y.ceLog, y.acks[0].ackno)
            && y'.s.highestAck == y.acks[0].ackno
  {
    var a := y.acks[0];
    var lo := y.s.highestAck;
    assert lo < a.ackno <= |y.ceLog|;
    MarkedUniform(y.ceLog, lo, a.ackno, a.ece);
    assert AckedBytes(y.s, a, p) == a.ackno - lo;
    hide MarkedBytes, ReceiverInv, Uniform, Truthful;
    var total := y.s.total + (a.ackno - lo);
    var marked := if a.ece then y.s.marked + (a.ackno - lo) else y.s.marked;
    assert total == a.ackno - base;
    assert marked == MarkedBytes(y.ceLog, a.ackno) - MarkedBytes(y.ceLog, base);
  }

  /** What is known of an open epoch. */
  ghost predicate Opened(y: System, base: int)
  {
    0 <= base <= y.s.highestAck <= |y.ceLog| && y.doneTotal == base && y.doneMarked == MarkedBytes(y.ceLog, base)
  }

  lemma OtherStep(y: System, e: Event, p: Params, base: int)
    requires Inv(y) && EventOk(e) && Opened(y, base) && !Closes(y, e, y.s.alphaUpdateSeq)
    ensures var y' := Step(y, e, p);
            && Opened(y', base) && y'.s.alpha == y.s.alpha && y'.s.alphaUpdateSeq == y.s.alphaUpdateSeq
            && y.ceLog <= y'.ceLog
  {
    if e.Data? {
      MarkedGrows(y.ceLog, seq(e.datalen, _ => e.ce), base);
    }
    if e.AckArrives? && y.acks != [] {
      assert y.s.highestAck < y.acks[0].ackno <= |y.ceLog|;
    }
    hide MarkedBytes, ReceiverInv, Truthful, Uniform, RecvData, DelackTimeout;
  }

  // ---------------------------------------------------------------- the log of a run

  lemma {:induction false} LogGrows(y: System, es: seq<Event>, p: Params)
    ensures y.ceLog <= Run(y, es, p).ceLog
    decreases |es|
  {
    if es != [] {
      LogGrows(Step(y, es[0], p), es[1..], p);
      hide RecvData, DelackTimeout, RecvAck, SendData;
    }
  }

  /** Fractions of the final log, over bytes that an earlier log already held. */
  lemma FractionStays(log: seq<bool>, final: seq<bool>, a: int, b: int)
    requires log <= final && 0 <= a < b <= |log|
    ensures Fraction(final, a, b) == Fraction(log, a, b)
  {
    assert final == log + final[|log|..];
    FractionGrows(log, final[|log|..], a, b);
  }

  // ---------------------------------------------------------------- the law

  lemma Regroup(g: real, power: real, alpha: real, f: real, rest: real)
    ensures power * ((1.0 - g) * alpha + g * f) + rest == ((1.0 - g) * power) * alpha + (g * power * f + rest)
  {
    assert power * ((1.0 - g) * alpha) == ((1.0 - g) * power) * alpha;
    assert power * (g * f) == g * power * f;
  }

  ghost function Law(alpha: real, fs: seq<real>, g: real): real
  {
    Power(1.0 - g, |fs|) * alpha + Weighted(fs, g)
  }

  lemma LawStep(alpha: real, f: real, alpha1: real, fs: seq<real>, g: real)
    requires alpha1 == (1.0 - g) * alpha + g * f
    ensures Law(alpha1, fs, g) == Law(alpha, [f] + fs, g)
  {
    assert ([f] + fs)[1..] == fs;
    Regroup(g, Power(1.0 - g, |fs|), alpha, f, Weighted(fs, g));
  }

  lemma EmptyLaw(alpha: real, g: real)
    ensures Law(alpha, [], g) == alpha
  {}

  lemma {:induction false} RunFollowsLaw(y: System, es: seq<Event>, p: Params, base: int, log: seq<bool>)
    requires Inv(y) && (forall n :: 0 <= n < |es| ==> EventOk(es[n])) && 0.0 <= p.g <= 1.0
    requires Opened(y, base) && log == Run(y, es, p).ceLog
    ensures var y' := Run(y, es, p);
            && y'.s.alphaUpdateSeq == LastBarrier(y, es, p, y.s.alphaUpdateSeq)
            && y'.s.alpha == Law(y.s.alpha, Fractions(log, base, Closings(y, es, p, y.s.alphaUpdateSeq)), p.g)
    decreases |es|
  {
    hide Law, Fraction, Inv, Opened, Step, EventOk;
    if es == [] {
      EmptyLaw(y.s.alpha, p.g);
    } else {
      var e, barrier := es[0], y.s.alphaUpdateSeq;
      StepKeepsInv(y, e, p);
      var y1 := Step(y, e, p);
      assert Run(y, es, p) == Run(y1, es[1..], p);
      LogGrows(y1, es[1..], p);
      var rest := Closings(y1, es[1..], p, NextBarrier(y, e, barrier));
      if Closes(y, e, barrier) {
        var b := y.acks[0].ackno;
        CloseEpoch(y, p, base);
        RunFollowsLaw(y1, es[1..], p, b, log);
        FractionStays(y.ceLog, log, base, b);
        assert ([b] + rest)[1..] == rest;
        assert Closings(y, es, p, barrier) == [b] + rest;
        assert Fractions(log, base, [b] + rest) == [Fraction(log, base, b)] + Fractions(log, b, rest);
        var alpha1 := (1.0 - p.g) * y.s.alpha + p.g * Fraction(log, base, b);
        assert y1.s.alpha == alpha1;
        LawStep(y.s.alpha, Fraction(log, base, b), alpha1, Fractions(log, b, rest), p.g);
        assert Run(y, es, p).s.alpha == Law(alpha1, Fractions(log, b, rest), p.g);
      } else {
        OtherStep(y, e, p, base);
        RunFollowsLaw(y1, es[1..], p, base, log);
        assert [] + rest == rest;
      }
    }
  }

  lemma CloseEpoch(y: System, p: Params, base: int)
    requires Inv(y) && Opened(y, base) && Closes(y, AckArrives, y.s.alphaUpdateSeq)
    ensures 0 <= base < y.acks[0].ackno <= |y.ceLog|
    ensures var y' := Step(y, AckArrives, p);
            && Opened(y', y.acks[0].ackno) && y'.s.alphaUpdateSeq == y.s.maxseq && y'.ceLog == y.ceLog
            && y'.s.alpha == (1.0 - p.g) * y.s.alpha + p.g * Fraction(y.ceLog, base, y.acks[0].ackno)
  {
    ClosingStep(y, p, base);
    hide Inv, Step, Fraction, MarkedBytes;
  }

  // ---------------------------------------------------------------- main results

  /** In every run from the start alpha is the weighted sum of the CE-marked fractions of the epochs, each
      counted on the bytes received; and an epoch closes exactly at the first ACK beyond the highest sequence
      number sent when the one before it closed. */
  lemma AlphaIsWeightedAverage(es: seq<Event>, p: Params)
    requires (forall n :: 0 <= n < |es| ==> EventOk(es[n])) && 0.0 <= p.g <= 1.0
    ensures var y := Run(Start(), es, p);
            && y.s.alpha == Weighted(Fractions(y.ceLog, 0, Closings(Start(), es, p, 0)), p.g)
            && y.s.alphaUpdateSeq == LastBarrier(Start(), es, p, 0)
  {
    hide Inv, Opened, Step, Run, Start, Closings, LastBarrier, EventOk, Fractions, Law, Weighted;
    StartIsInv();
    StartOpens();
    var log := Run(Start(), es, p).ceLog;
    RunFollowsLaw(Start(), es, p, 0, log);
    LawFromZero(Fractions(log, 0, Closings(Start(), es, p, 0)), p.g);
  }

  lemma StartOpens()
    ensures Opened(Start(), 0) && Start().s.alpha == 0.0 && Start().s.alphaUpdateSeq == 0
  {}

  lemma LawFromZero(fs: seq<real>, g: real)
    ensures Law(0.0, fs, g) == Weighted(fs, g)
  {
    hide Weighted;
  }

  lemma WeightOfOne(g: real, f: real, power: real)
    ensures g * power * f + f * (1.0 - power) == f * (1.0 - (1.0 - g) * power)
  {
    assert f * (1.0 - (1.0 - g) * power) == f - f * power + g * power * f;
  }

  lemma {:induction false} ConstantWeight(fs: seq<real>, g: real, f: real)
    requires forall n :: 0 <= n < |fs| ==> fs[n] == f
    ensures Weighted(fs, g) == f * (1.0 - Power(1.0 - g, |fs|))
  {
    if fs != [] {
      ConstantWeight(fs[1..], g, f);
      WeightOfOne(g, f, Power(1.0 - g, |fs| - 1));
    }
  }

  /** Convergence: from any reachable state at which an epoch has just closed, if every epoch that closes in
      a run has the marked fraction f, then n epochs shrink the distance of alpha to f by (1 - g)^n. */
  lemma AlphaConverges(y: System, es: seq<Event>, p: Params, f: real)
    requires Inv(y) && (forall n :: 0 <= n < |es| ==> EventOk(es[n])) && 0.0 <= p.g <= 1.0
    requires Opened(y, y.s.highestAck)
    requires var fs := Fractions(Run(y, es, p).ceLog, y.s.highestAck, Closings(y, es, p, y.s.alphaUpdateSeq));
             forall n :: 0 <= n < |fs| ==> fs[n] == f
    ensures var n := |Closings(y, es, p, y.s.alphaUpdateSeq)|;
            Run(y, es, p).s.alpha - f == Power(1.0 - p.g, n) * (y.s.alpha - f)
  {
    var log := Run(y, es, p).ceLog;
    var ends := Closings(y, es, p, y.s.alphaUpdateSeq);
    var fs := Fractions(log, y.s.highestAck, ends);
    hide Inv, Opened, Step, Run, Closings, EventOk, Fractions, Weighted, Power;
    RunFollowsLaw(y, es, p, y.s.highestAck, log);
    FractionsCount(log, y.s.highestAck, ends);
    ConstantWeight(fs, p.g, f);
    var power := Power(1.0 - p.g, |ends|);
    assert f * (1.0 - power) == f - power * f;
    assert power * (y.s.alpha - f) == power * y.s.alpha - power * f;
  }

  lemma {:induction false} FractionsCount(log: seq<bool>, from: int, ends: seq<int>)
    ensures |Fractions(log, from, ends)| == |ends|
    decreases |ends|
  {
    if ends != [] {
      FractionsCount(log, ends[0], ends[1..]);
    }
  }
}
