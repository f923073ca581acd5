/** The DCTCP slice of the NS2 full TCP agent: the receiver's CE state machine, its delayed ACKs, and
    the sender's marked-byte counters, joined by a FIFO ACK path. */
module Dctcp {

  /** segs_per_ack_, spa_thresh_, maxseg_, irs_, size_ and dctcp_g_. */
  datatype Params = Params(segsPerAck: int, spaThresh: int, maxseg: int, irs: int, size: nat, g: real)

  datatype Ack = Ack(ackno: int, ece: bool)

  // ---------------------------------------------------------------- receiver

  datatype Receiver = Receiver(recentCe: bool, ceTransition: bool, rcvNxt: int, lastAckSent: int, delack: bool)

  /** sendpacket: acknowledge everything received, echoing the CE state; no ACK stays pending. */
  function SendAck(r: Receiver): (Receiver, Ack)
  {
    (r.(lastAckSent := r.rcvNxt, delack := false), Ack(r.rcvNxt, r.recentCe))
  }

  predicate NeedSend(r: Receiver, p: Params)
  {
    var spa := if p.spaThresh > 0 && r.rcvNxt - p.irs < p.spaThresh then 1 else p.segsPerAck;
    r.rcvNxt - r.lastAckSent >= spa * p.maxseg
  }

  function UpdateCe(r: Receiver, datalen: nat, ce: bool, ect: bool): Receiver
  {
    if ce && ect then r.(ceTransition := !r.recentCe, recentCe := true)
    else if datalen > 0 && !ce && ect then r.(ceTransition := r.recentCe, recentCe := false)
    else r
  }

  /** An immediate ACK with the previous CE state, if the state just changed over pending bytes. */
  function TransitionAck(r: Receiver): (Receiver, seq<Ack>)
  {
    if r.ceTransition && r.rcvNxt - r.lastAckSent > 0 then
      var (r1, a) := SendAck(r.(recentCe := !r.recentCe));
      (r1.(recentCe := !r1.recentCe), [a])
    else (r, [])
  }

  /** In-order data: CE state first, then the data, then an ACK if one is due. */
  function RecvData(r: Receiver, datalen: nat, ce: bool, ect: bool, p: Params): (Receiver, seq<Ack>)
  {
    var (r1, early) := TransitionAck(UpdateCe(r, datalen, ce, ect));
    var r2 := r1.(rcvNxt := r1.rcvNxt + datalen, delack := true);
    if NeedSend(r2, p) then
      var (r3, a) := SendAck(r2);
      (r3, early + [a])
    else (r2, early)
  }

  function DelackTimeout(r: Receiver): (Receiver, seq<Ack>)
  {
    if r.delack then
      var (r1, a) := SendAck(r);
      (r1, [a])
    else (r, [])
  }

  // ---------------------------------------------------------------- sender

  datatype Sender = Sender(
    highestAck: int, total: int, marked: int, alpha: real, alphaUpdateSeq: int, maxseq: int)

  function AckedBytes(s: Sender, ack: Ack, p: Params): int
  {
    if ack.ackno - s.highestAck <= 0 then p.size else ack.ackno - s.highestAck
  }

  /** update_dctcp_alpha. */
  function UpdateAlpha(s: Sender, ack: Ack, p: Params): Sender
  {
    var acked := AckedBytes(s, ack, p);
    var total := s.total + acked;
    var marked := if ack.ece then s.marked + acked else s.marked;
    if ack.ackno > s.alphaUpdateSeq then
      var sample := if total > 0 then marked as real / total as real else 0.0;
      s.(alphaUpdateSeq := s.maxseq, alpha := (1.0 - p.g) * s.alpha + p.g * sample, marked := 0, total := 0)
    else s.(total := total, marked := marked)
  }

  /** An ACK arrives: the counters first, then the cumulative acknowledgement. */
  function RecvAck(s: Sender, ack: Ack, p: Params): Sender
  {
    var s1 := UpdateAlpha(s, ack, p);
    if ack.ackno > s1.highestAck then s1.(highestAck := ack.ackno) else s1
  }

  function SendData(s: Sender, highest: int): Sender
  {
    if highest > s.maxseq then s.(maxseq := highest) else s
  }

  // ---------------------------------------------------------------- the system

  /** ceLog holds, byte by byte, whether the received data was CE-marked; doneTotal and doneMarked sum
      the counters over the epochs already closed. */
  datatype System = System(
    r: Receiver, s: Sender, acks: seq<Ack>, ceLog: seq<bool>, doneTotal: int, doneMarked: int)

  datatype Event = Data(datalen: nat, ce: bool) | DelackFires | AckArrives | SenderSends(highest: int)

  /** Events on a path where every data packet is ECN-capable and nothing is lost or reordered. */
  function Step(y: System, e: Event, p: Params): System
  {
    match e
    case Data(datalen, ce) =>
      var (r, sent) := RecvData(y.r, datalen, ce, true, p);
      y.(r := r, acks := y.acks + sent, ceLog := y.ceLog + seq(datalen, _ => ce))
    case DelackFires =>
      var (r, sent) := DelackTimeout(y.r);
      y.(r := r, acks := y.acks + sent)
    case AckArrives =>
      if y.acks == [] then y
      else
        var s := RecvAck(y.s, y.acks[0], p);
        var acked := AckedBytes(y.s, y.acks[0], p);
        var closed := y.acks[0].ackno > y.s.alphaUpdateSeq;
        y.(s := s, acks := y.acks[1..],
           doneTotal := if closed then y.doneTotal + y.s.total + acked else y.doneTotal,
           doneMarked := if !closed then y.doneMarked
                         else y.doneMarked + y.s.marked + (if y.acks[0].ece then acked else 0))
    case SenderSends(highest) => y.(s := SendData(y.s, highest))
  }

  function Run(y: System, es: seq<Event>, p: Params): System
    decreases |es|
  {
    if es == [] then y else Run(Step(y, es[0], p), es[1..], p)
  }

  predicate EventOk(e: Event)
  {
    e.Data? ==> e.datalen > 0
  }

  // ---------------------------------------------------------------- the invariant

  /** Every byte from lo up to hi has this CE value. */
  ghost predicate Uniform(log: seq<bool>, lo: int, hi: int, ce: bool)
  {
    0 <= lo <= hi <= |log| && forall b :: lo <= b < hi ==> log[b] == ce
  }

  /** Received but unacknowledged bytes share one CE value, the one recentCe holds, and a delayed ACK
      is pending exactly when there are any. */
  ghost predicate ReceiverInv(r: Receiver, log: seq<bool>)
  {
    r.rcvNxt == |log| && Uniform(log, r.lastAckSent, r.rcvNxt, r.recentCe) && (r.delack <==> r.lastAckSent < r.rcvNxt)
  }

  /** The ACKs in flight continue from byte lo without gaps up to hi, and each echoes the CE value of
      every byte it acknowledges. */
  ghost predicate Truthful(acks: seq<Ack>, log: seq<bool>, lo: int, hi: int)
  {
    if acks == [] then lo == hi
    else lo < acks[0].ackno && Uniform(log, lo, acks[0].ackno, acks[0].ece) && Truthful(acks[1..], log, acks[0].ackno, hi)
  }

  ghost function MarkedBytes(log: seq<bool>, n: nat): nat
    requires n <= |log|
  {
    if n == 0 then 0 else MarkedBytes(log, n - 1) + (if log[n - 1] then 1 else 0)
  }

  ghost predicate SenderInv(y: System)
  {
    && 0 <= y.s.highestAck <= |y.ceLog|
    && 0 <= y.s.marked <= y.s.total
    && 0.0 <= y.s.alpha <= 1.0
    && y.doneTotal + y.s.total == y.s.highestAck
    && y.doneMarked + y.s.marked == MarkedBytes(y.ceLog, y.s.highestAck)
  }

  ghost predicate Inv(y: System)
  {
    && ReceiverInv(y.r, y.ceLog) && SenderInv(y)
    && Truthful(y.acks, y.ceLog, y.s.highestAck, y.r.lastAckSent)
  }

  // ---------------------------------------------------------------- receiver steps

  lemma {:induction false} TruthfulAppend(acks: seq<Ack>, log: seq<bool>, lo: int, mid: int, a: Ack)
    requires Truthful(acks, log, lo, mid) && mid < a.ackno && Uniform(log, mid, a.ackno, a.ece)
    ensures Truthful(acks + [a], log, lo, a.ackno)
  {
    if acks == [] {
      assert acks + [a] == [a] && [a][1..] == [];
    } else {
      TruthfulAppend(acks[1..], log, acks[0].ackno, mid, a);
      assert (acks + [a])[1..] == acks[1..] + [a];
    }
  }

  lemma {:induction false} TruthfulGrows(acks: seq<Ack>, log: seq<bool>, more: seq<bool>, lo: int, hi: int)
    requires Truthful(acks, log, lo, hi)
    ensures Truthful(acks, log + more, lo, hi)
  {
    if acks != [] {
      TruthfulGrows(acks[1..], log, more, acks[0].ackno, hi);
    }
  }

  lemma {:induction false} MarkedGrows(log: seq<bool>, more: seq<bool>, n: nat)
    requires n <= |log|
    ensures MarkedBytes(log + more, n) == MarkedBytes(log, n)
  {
    if n > 0 {
      MarkedGrows(log, more, n - 1);
    }
  }

  lemma {:induction false} MarkedUniform(log: seq<bool>, lo: nat, hi: nat, ce: bool)
    requires Uniform(log, lo, hi, ce)
    ensures MarkedBytes(log, hi) == MarkedBytes(log, lo) + (if ce then hi - lo else 0)
    decreases hi
  {
    if lo < hi {
      MarkedUniform(log, lo, hi - 1, ce);
    }
  }

  /** The immediate ACK on a CE transition covers exactly the bytes of the previous CE value. */
  lemma TransitionIsTruthful(r: Receiver, acks: seq<Ack>, log: seq<bool>, lo: int, datalen: nat, ce: bool)
    requires ReceiverInv(r, log) && Truthful(acks, log, lo, r.lastAckSent) && datalen > 0
    ensures var (r1, early) := TransitionAck(UpdateCe(r, datalen, ce, true));
            && r1.recentCe == ce && r1.rcvNxt == r.rcvNxt
            && Uniform(log, r1.lastAckSent, r1.rcvNxt, ce)
            && Truthful(acks + early, log, lo, r1.lastAckSent)
  {
    var early := TransitionAck(UpdateCe(r, datalen, ce, true)).1;
    if early == [] {
      assert acks + early == acks;
    } else {
      TruthfulAppend(acks, log, lo, r.lastAckSent, early[0]);
    }
  }

  lemma DataKeepsReceiver(r: Receiver, acks: seq<Ack>, log: seq<bool>, lo: int, datalen: nat, ce: bool, p: Params)
    requires ReceiverInv(r, log) && Truthful(acks, log, lo, r.lastAckSent) && datalen > 0
    ensures var (r', sent) := RecvData(r, datalen, ce, true, p);
            var log' := log + seq(datalen, _ => ce);
            ReceiverInv(r', log') && Truthful(acks + sent, log', lo, r'.lastAckSent)
  {
    hide NeedSend, TransitionAck, UpdateCe, Truthful;
    var more := seq(datalen, _ => ce);
    var log' := log + more;
    TransitionIsTruthful(r, acks, log, lo, datalen, ce);
    var (r1, early) := TransitionAck(UpdateCe(r, datalen, ce, true));
    TruthfulGrows(acks + early, log, more, lo, r1.lastAckSent);
    var r2 := r1.(rcvNxt := r1.rcvNxt + datalen, delack := true);
    assert Uniform(log', r1.lastAckSent, r2.rcvNxt, ce);
    if NeedSend(r2, p) {
      var a := SendAck(r2).1;
      TruthfulAppend(acks + early, log', lo, r1.lastAckSent, a);
      assert acks + (early + [a]) == (acks + early) + [a];
    }
  }

  // ---------------------------------------------------------------- sender steps

  ghost function Part(c: real, x: real): real
  {
    c * x
  }

  lemma Fraction(c: real, x: real)
    requires 0.0 <= c && 0.0 <= x <= 1.0
    ensures 0.0 <= Part(c, x) <= c
  {
    assert c * (1.0 - x) >= 0.0;
  }

  lemma SumOfParts(c: real, g: real, x: real, y: real)
    requires 0.0 <= c && 0.0 <= g && 0.0 <= x <= 1.0 && 0.0 <= y <= 1.0
    ensures 0.0 <= Part(c, x) + Part(g, y) <= c + g
  {
    hide Part;
    Fraction(c, x);
    Fraction(g, y);
  }

  lemma Quotient(m: real, t: real)
    requires 0.0 <= m <= t && 0.0 < t
    ensures 0.0 <= m / t <= 1.0
  {
    var q := m / t;
    assert q * t == m;
    assert q < 0.0 ==> q * t < 0.0;
    assert q > 1.0 ==> (q - 1.0) * t > 0.0;
  }

  lemma AlphaStaysInRange(alpha: real, g: real, marked: int, total: int)
    requires 0.0 <= alpha <= 1.0 && 0.0 <= g <= 1.0 && 0 <= marked <= total
    ensures var sample := if total > 0 then marked as real / total as real else 0.0;
            0.0 <= (1.0 - g) * alpha + g * sample <= 1.0
  {
    var sample := if total > 0 then marked as real / total as real else 0.0;
    if total > 0 {
      Quotient(marked as real, total as real);
    }
    assert 0.0 <= sample <= 1.0;
    SumOfParts(1.0 - g, g, alpha, sample);
  }

  lemma AckKeepsInv(y: System, p: Params)
    requires Inv(y) && y.acks != [] && 0.0 <= p.g <= 1.0
    ensures Inv(Step(y, AckArrives, p))
  {
    var a := y.acks[0];
    var lo := y.s.highestAck;
    assert lo < a.ackno <= |y.ceLog|;
    MarkedUniform(y.ceLog, lo, a.ackno, a.ece);
    var acked := a.ackno - lo;
    assert AckedBytes(y.s, a, p) == acked;
    AlphaStaysInRange(y.s.alpha, p.g, if a.ece then y.s.marked + acked else y.s.marked, y.s.total + acked);
    var y' := Step(y, AckArrives, p);
    assert y'.s.highestAck == a.ackno;
    hide MarkedBytes, ReceiverInv;
    assert 0.0 <= y'.s.alpha <= 1.0;
    assert 0 <= y'.s.marked <= y'.s.total;
    assert y'.doneTotal + y'.s.total == y'.s.highestAck;
    assert SenderInv(y');
    assert Truthful(y'.acks, y'.ceLog, y'.s.highestAck, y'.r.lastAckSent);
  }

  /** Every step keeps the invariant. */
  lemma StepKeepsInv(y: System, e: Event, p: Params)
    requires Inv(y) && EventOk(e) && 0.0 <= p.g <= 1.0
    ensures Inv(Step(y, e, p))
  {
    match e
    case Data(datalen, ce) =>
      DataKeepsReceiver(y.r, y.acks, y.ceLog, y.s.highestAck, datalen, ce, p);
      MarkedGrows(y.ceLog, seq(datalen, _ => ce), y.s.highestAck);
      hide RecvData, Truthful, Uniform, MarkedBytes, ReceiverInv;
    case DelackFires =>
      if y.r.delack {
        TruthfulAppend(y.acks, y.ceLog, y.s.highestAck, y.r.lastAckSent, SendAck(y.r).1);
      } else {
        assert y.acks + [] == y.acks;
      }
    case AckArrives =>
      if y.acks != [] {
        AckKeepsInv(y, p);
      }
    case SenderSends(highest) =>
  }

  // ---------------------------------------------------------------- main results

  lemma {:induction false} RunKeepsInv(y: System, es: seq<Event>, p: Params)
    requires Inv(y) && (forall n :: 0 <= n < |es| ==> EventOk(es[n])) && 0.0 <= p.g <= 1.0
    ensures Inv(Run(y, es, p))
    decreases |es|
  {
    if es != [] {
      StepKeepsInv(y, es[0], p);
      RunKeepsInv(Step(y, es[0], p), es[1..], p);
    }
  }

  /** An established connection before any data. */
  function Start(): System
  {
    System(Receiver(false, false, 0, 0, false), Sender(0, 0, 0, 0.0, 0, 0), [], [], 0, 0)
  }

  /** Echo conservation: in every run, the sender's marked bytes summed over all epochs are exactly the
      CE-marked bytes among those acknowledged to it, its totals are exactly the acknowledged bytes, and
      alpha is a fraction.  Once no ACK is in flight or owed, nothing is missing at all. */
  lemma EchoConservation(es: seq<Event>, p: Params)
    requires (forall n :: 0 <= n < |es| ==> EventOk(es[n])) && 0.0 <= p.g <= 1.0
    ensures var y := Run(Start(), es, p);
            && 0 <= y.s.highestAck <= |y.ceLog|
            && y.doneMarked + y.s.marked == MarkedBytes(y.ceLog, y.s.highestAck)
            && y.doneTotal + y.s.total == y.s.highestAck
            && 0 <= y.s.marked <= y.s.total && 0.0 <= y.s.alpha <= 1.0
            && (y.acks == [] && !y.r.delack ==> y.doneMarked + y.s.marked == MarkedBytes(y.ceLog, |y.ceLog|))
  {
    hide MarkedBytes, Step, Truthful, Run, EventOk, Start, Uniform;
    StartIsInv();
    RunKeepsInv(Start(), es, p);
    LastAckCoversAll(Run(Start(), es, p));
  }

  lemma StartIsInv()
    ensures Inv(Start())
  {
    StartReceiver();
    StartSender();
    hide Start, ReceiverInv, SenderInv, Truthful;
  }

  lemma StartReceiver()
    ensures ReceiverInv(Start().r, Start().ceLog)
    ensures Truthful(Start().acks, Start().ceLog, Start().s.highestAck, Start().r.lastAckSent)
  {}

  lemma StartSender()
    ensures SenderInv(Start())
  {
    assert MarkedBytes([], 0) == 0;
    hide MarkedBytes;
  }

  lemma LastAckCoversAll(y: System)
    requires Inv(y)
    ensures y.acks == [] && !y.r.delack ==> y.s.highestAck == |y.ceLog|
  {}

  // ---------------------------------------------------------------- what the sender remembers

  /** The highest sequence number sent in a run, or m if that is higher. */
  ghost function HighestSent(es: seq<Event>, m: int): int
  {
    if es == [] then m
    else HighestSent(es[1..], if es[0].SenderSends? && es[0].highest > m then es[0].highest else m)
  }

  lemma {:induction false} MaxseqIsHighestSent(y: System, es: seq<Event>, p: Params)
    ensures Run(y, es, p).s.maxseq == HighestSent(es, y.s.maxseq)
    decreases |es|
  {
    if es != [] {
      hide RecvData, DelackTimeout;
      MaxseqIsHighestSent(Step(y, es[0], p), es[1..], p);
    }
  }

  /** An ACK that acknowledges nothing new still counts, as one segment of size_ bytes, and moves nothing
      else unless it closes an epoch. */
  lemma OldAckCountsSegment(s: Sender, ack: Ack, p: Params)
    requires ack.ackno <= s.highestAck && ack.ackno <= s.alphaUpdateSeq
    ensures RecvAck(s, ack, p) == s.(total := s.total + p.size, marked := s.marked + if ack.ece then p.size else 0)
  {}

  // ---------------------------------------------------------------- when ACKs are sent

  /** Bytes that make an ACK due. */
  ghost function DueAt(rcvNxt: int, p: Params): int
  {
    if p.spaThresh > 0 && rcvNxt - p.irs < p.spaThresh then p.maxseg else p.segsPerAck * p.maxseg
  }

  /** In-order data is acknowledged at once exactly when the bytes then pending reach the limit, and before
      that, with the previous state, exactly when a CE transition meets pending bytes. */
  lemma AcksExact(r: Receiver, datalen: nat, ce: bool, p: Params)
    requires datalen > 0
    ensures var (r', sent) := RecvData(r, datalen, ce, true, p);
            var early := ce != r.recentCe && r.rcvNxt > r.lastAckSent;
            var pending := r.rcvNxt + datalen - (if early then r.rcvNxt else r.lastAckSent);
            var due := pending >= DueAt(r.rcvNxt + datalen, p);
            && sent == (if early then [Ack(r.rcvNxt, r.recentCe)] else []) + (if due then [Ack(r.rcvNxt + datalen, ce)] else [])
            && r'.rcvNxt == r.rcvNxt + datalen && r'.rcvNxt - r'.lastAckSent == (if due then 0 else pending)
            && (r'.delack <==> !due)
  {
    var spa := if p.spaThresh > 0 && r.rcvNxt + datalen - p.irs < p.spaThresh then 1 else p.segsPerAck;
    assert spa * p.maxseg == DueAt(r.rcvNxt + datalen, p);
  }

  /** So in every state of every run the unacknowledged bytes stay below the limit. */
  lemma {:induction false} UnackedBelowLimit(y: System, es: seq<Event>, p: Params)
    requires (forall n :: 0 <= n < |es| ==> EventOk(es[n])) && p.segsPerAck * p.maxseg > 0 && p.maxseg > 0
    requires y.r.rcvNxt - y.r.lastAckSent < DueAt(y.r.rcvNxt, p)
    ensures var r := Run(y, es, p).r; r.rcvNxt - r.lastAckSent < DueAt(r.rcvNxt, p)
    decreases |es|
  {
    if es != [] {
      var e := es[0];
      if e.Data? {
        AcksExact(y.r, e.datalen, e.ce, p);
      }
      hide RecvData, RecvAck, SendData, EventOk;
      UnackedBelowLimit(Step(y, e, p), es[1..], p);
    }
  }

  // ---------------------------------------------------------------- packets that are not ECN-capable

  lemma {:induction false} TruthfulSuffix(acks: seq<Ack>, rest: seq<Ack>, log: seq<bool>, lo: int, mid: int, hi: int)
    requires Truthful(acks, log, lo, mid) && Truthful(acks + rest, log, lo, hi)
    ensures Truthful(rest, log, mid, hi)
  {
    if acks == [] {
      assert acks + rest == rest;
    } else {
      assert (acks + rest)[1..] == acks[1..] + rest;
      TruthfulSuffix(acks[1..], rest, log, acks[0].ackno, mid, hi);
    }
  }

  /** The receiver's rule depends on ECT.  A data packet without it leaves ceTransition stale: the state
      stays honest exactly when recentCe is clear and no stale transition meets pending bytes. */
  lemma NotEctExact(r: Receiver, acks: seq<Ack>, log: seq<bool>, lo: int, datalen: nat, p: Params)
    requires ReceiverInv(r, log) && Truthful(acks, log, lo, r.lastAckSent) && datalen > 0
    ensures var (r', sent) := RecvData(r, datalen, false, false, p);
            var log' := log + seq(datalen, _ => false);
            ReceiverInv(r', log') && Truthful(acks + sent, log', lo, r'.lastAckSent)
            <==> !r.recentCe && !(r.ceTransition && r.lastAckSent < r.rcvNxt)
  {
    var log' := log + seq(datalen, _ => false);
    var (r', sent) := RecvData(r, datalen, false, false, p);
    TruthfulGrows(acks, log, seq(datalen, _ => false), lo, r.lastAckSent);
    assert log'[|log|] == false;
    assert r.lastAckSent < r.rcvNxt ==> log'[r.lastAckSent] == r.recentCe;
    if Truthful(acks + sent, log', lo, r'.lastAckSent) {
      TruthfulSuffix(acks, sent, log', lo, r.lastAckSent, r'.lastAckSent);
    }
    if !r.recentCe && !(r.ceTransition && r.lastAckSent < r.rcvNxt) {
      assert Uniform(log', r.lastAckSent, |log'|, false);
      if sent == [] {
        assert acks + sent == acks;
      } else {
        assert sent == [sent[0]];
        TruthfulAppend(acks, log', lo, r.lastAckSent, sent[0]);
      }
    }
  }

  lemma {:induction false} TruthfulLast(acks: seq<Ack>, last: Ack, log: seq<bool>, lo: int, hi: int)
    requires Truthful(acks + [last], log, lo, hi)
    ensures hi == last.ackno && 0 < last.ackno <= |log| && log[last.ackno - 1] == last.ece
  {
    if acks == [] {
      assert (acks + [last])[1..] == [];
    } else {
      assert (acks + [last])[1..] == acks[1..] + [last];
      TruthfulLast(acks[1..], last, log, acks[0].ackno, hi);
    }
  }

  /** The failing family from the start: a CE-marked packet, one that is not ECN-capable, and the delayed-ACK
      timer.  Whatever the sizes and the ACK policy, the ACKs do not echo the marks. */
  lemma NotEctMisleads(d1: nat, d2: nat, p: Params)
    requires d1 > 0 && d2 > 0
    ensures var (r1, a1) := RecvData(Start().r, d1, true, true, p);
            var (r2, a2) := RecvData(r1, d2, false, false, p);
            var (r3, a3) := DelackTimeout(r2);
            var log := seq(d1, _ => true) + seq(d2, _ => false);
            r3.lastAckSent == |log| && !Truthful(a1 + a2 + a3, log, 0, |log|)
  {
    var (r1, a1) := RecvData(Start().r, d1, true, true, p);
    var (r2, a2) := RecvData(r1, d2, false, false, p);
    var (r3, a3) := DelackTimeout(r2);
    var log := seq(d1, _ => true) + seq(d2, _ => false);
    var acks := a1 + a2 + a3;
    var last := Ack(d1 + d2, true);
    assert r1.recentCe && r2.recentCe && r2.rcvNxt == d1 + d2;
    assert acks != [] && acks[|acks| - 1] == last;
    assert log[last.ackno - 1] == false;
    hide NeedSend, RecvData, DelackTimeout, Truthful;
    if Truthful(acks, log, 0, |log|) {
      assert acks == acks[..|acks| - 1] + [last];
      TruthfulLast(acks[..|acks| - 1], last, log, 0, |log|);
    }
  }

  // ---------------------------------------------------------------- the agents

  /** The receiving side of FullTcpAgent. */
  class ReceiverAgent {
    var recentCe: bool
    var ceTransition: bool
    var rcvNxt: int
    var lastAckSent: int
    var delack: bool
    var ackNow: bool

    function Abs(): Receiver
      reads this
    {
      Receiver(recentCe, ceTransition, rcvNxt, lastAckSent, delack)
    }

    /** foutput and sendpacket for an agent with no data of its own. */
    method Output() returns (ack: Ack)
      modifies this`lastAckSent, this`delack, this`ackNow
      ensures (Abs(), ack) == SendAck(old(Abs())) && !ackNow
    {
      ack := Ack(rcvNxt, recentCe);
      lastAckSent := rcvNxt;
      ackNow := false;
      delack := false;
    }

    /** The CE state takes note of a segment. */
    method NoteCe(datalen: nat, ce: bool, ect: bool)
      modifies this`ceTransition, this`recentCe
      ensures Abs() == UpdateCe(old(Abs()), datalen, ce, ect)
    {
      if ce && ect {
        if !recentCe {
          ceTransition := true;
          recentCe := true;
        } else {
          ceTransition := false;
        }
      } else if datalen > 0 && !ce && ect {
        if recentCe {
          ceTransition := true;
          recentCe := false;
        } else {
          ceTransition := false;
        }
      }
    }

    /** The previous state is acknowledged before the new one takes over. */
    method AckTransition() returns (acks: seq<Ack>)
      requires !ackNow
      modifies this
      ensures (Abs(), acks) == TransitionAck(old(Abs())) && !ackNow
    {
      acks := [];
      if ceTransition && rcvNxt - lastAckSent > 0 {
        ackNow := true;
        recentCe := !recentCe;
        var ack := Output();
        recentCe := !recentCe;
        acks := [ack];
      }
    }

    /** recv of an in-order data segment. */
    method Recv(datalen: nat, ce: bool, ect: bool, p: Params) returns (acks: seq<Ack>)
      requires !ackNow
      modifies this
      ensures (Abs(), acks) == RecvData(old(Abs()), datalen, ce, ect, p) && !ackNow
    {
      hide UpdateCe, TransitionAck;
      NoteCe(datalen, ce, ect);
      acks := AckTransition();
      rcvNxt := rcvNxt + datalen;
      delack := true;
      if ackNow || NeedSend(Abs(), p) {
        var ack := Output();
        acks := acks + [ack];
      }
    }

    method DelackTimer() returns (acks: seq<Ack>)
      requires !ackNow
      modifies this
      ensures (Abs(), acks) == DelackTimeout(old(Abs())) && !ackNow
    {
      acks := [];
      if delack {
        delack := false;
        ackNow := true;
        var ack := Output();
        acks := [ack];
      }
    }
  }

  /** The sending side of FullTcpAgent. */
  class SenderAgent {
    var highestAck: int
    var total: int
    var marked: int
    var alpha: real
    var alphaUpdateSeq: int
    var maxseq: int

    function Abs(): Sender
      reads this
    {
      Sender(highestAck, total, marked, alpha, alphaUpdateSeq, maxseq)
    }

    method UpdateDctcpAlpha(ack: Ack, p: Params)
      modifies this`total, this`marked, this`alpha, this`alphaUpdateSeq
      ensures Abs() == UpdateAlpha(old(Abs()), ack, p)
    {
      var ackedBytes := ack.ackno - highestAck;
      if ackedBytes <= 0 {
        ackedBytes := p.size;
      }
      total := total + ackedBytes;
      if ack.ece {
        marked := marked + ackedBytes;
      }
      if ack.ackno > alphaUpdateSeq {
        alphaUpdateSeq := maxseq;
        var tempAlpha := 0.0;
        if total > 0 {
          tempAlpha := marked as real / total as real;
        }
        alpha := (1.0 - p.g) * alpha + p.g * tempAlpha;
        marked := 0;
        total := 0;
      }
    }

    method Recv(ack: Ack, p: Params)
      modifies this
      ensures Abs() == RecvAck(old(Abs()), ack, p)
    {
      UpdateDctcpAlpha(ack, p);
      if ack.ackno > highestAck {
        highestAck := ack.ackno;
      }
    }
  }
}
