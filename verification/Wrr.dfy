/** The NS2 weighted round robin queue (class WRR): a cyclic scan in which an unused counter is not
    carried over.  One iteration of deque's while(1) is one step of the machine.  Every sequence of
    enqueues and dequeues is a run of it, so what holds of all runs holds of the queue; the converse is
    not so, because a run may let packets arrive between two iterations of one dequeue.  WrrGap.Calls
    singles out the runs that the single-threaded simulator can make. */
module Wrr {
  import opened Arithmetic
  import opened Ns2Packets

  datatype Queue = Queue(pkts: seq<Packet>, quantum: int, counter: int, updated: bool)

  datatype Port = Port(queues: seq<Queue>, current: nat)

  // ---------------------------------------------------------------- the transitions

  function TotalByteLength(qs: seq<Queue>): nat
  {
    if qs == [] then 0 else Bytes(qs[0].pkts) + TotalByteLength(qs[1..])
  }

  predicate Shape(s: Port)
  {
    s.current < |s.queues|
  }

  /** Receive a packet, or drop it when the shared buffer would overflow. */
  function Enque(s: Port, prio: int, p: Packet, qlimBytes: int): (s': Port)
    requires Shape(s)
    ensures Shape(s')
  {
    if TotalByteLength(s.queues) + p.size > qlimBytes then s
    else
      var k := Classify(prio, |s.queues|);
      s.(queues := s.queues[k := s.queues[k].(pkts := s.queues[k].pkts + [p])])
  }

  /** The first visit of a round sets the counter to the quantum. */
  function Visit(q: Queue): Queue
  {
    if q.updated then q else q.(updated := true, counter := q.quantum)
  }

  /** This iteration of the loop sends a packet. */
  predicate Fits(s: Port)
    requires Shape(s)
  {
    var q := s.queues[s.current];
    q.pkts != [] && q.pkts[0].size <= Visit(q).counter
  }

  function Next(k: nat, n: nat): (next: nat)
    requires k < n
    ensures next < n
  {
    (k + 1) % n
  }

  /** Close the current queue's visit as q and go on to the next queue. */
  function Leave(s: Port, q: Queue): (s': Port)
    requires Shape(s)
    ensures Shape(s')
  {
    Port(s.queues[s.current := q.(updated := false)], Next(s.current, |s.queues|))
  }

  /** An iteration that sends nothing. */
  function PassOn(s: Port): (s': Port)
    requires Shape(s)
    ensures Shape(s')
  {
    var q := s.queues[s.current];
    Leave(s, if q.pkts != [] then Visit(q) else q)
  }

  /** An iteration that sends the head packet; an emptied queue ends its visit. */
  function Send(s: Port): (s': Port)
    requires Shape(s) && Fits(s)
    ensures Shape(s')
  {
    var q := Visit(s.queues[s.current]);
    var q' := q.(pkts := q.pkts[1..], counter := q.counter - q.pkts[0].size);
    if q'.pkts == [] then Leave(s, q') else s.(queues := s.queues[s.current := q'])
  }

  /** k iterations in a row that send nothing. */
  function PassOnTimes(s: Port, k: nat): (s': Port)
    requires Shape(s)
    ensures Shape(s')
    decreases k
  {
    if k == 0 then s else PassOn(PassOnTimes(s, k - 1))
  }

  // ---------------------------------------------------------------- termination of deque

  /** Only the current queue's counter can be live. */
  ghost predicate Flags(s: Port)
  {
    Shape(s) && forall k :: 0 <= k < |s.queues| && s.queues[k].updated ==> k == s.current && s.queues[k].pkts != []
  }

  ghost predicate NoFlags(s: Port)
  {
    forall k :: 0 <= k < |s.queues| ==> !s.queues[k].updated
  }

  ghost predicate SameLoad(s: Port, t: Port)
  {
    && |s.queues| == |t.queues|
    && forall k :: 0 <= k < |s.queues| ==> s.queues[k].pkts == t.queues[k].pkts && s.queues[k].quantum == t.queues[k].quantum
  }

  /** Queue k can send from its quantum. */
  ghost predicate Affordable(s: Port, k: nat)
  {
    k < |s.queues| && s.queues[k].pkts != [] && s.queues[k].pkts[0].size <= s.queues[k].quantum
  }

  /** Some head packet can be afforded: by the live counter, or by its queue's quantum. */
  ghost predicate Servable(s: Port)
    requires Shape(s)
  {
    Fits(s) || exists k: nat :: Affordable(s, k)
  }

  /** Where the scan stands after k iterations, for k up to the number of queues. */
  function Position(c: nat, k: nat, n: nat): nat
  {
    if c + k < n then c + k else c + k - n
  }

  lemma NextIs(k: nat, n: nat)
    requires k < n
    ensures Next(k, n) == Position(k, 1, n)
  {
    if k + 1 < n {
      assert (k + 1) % n == k + 1;
    } else {
      assert (k + 1) % n == 0;
    }
  }

  lemma {:induction false} ScanMeets(s: Port, k: nat)
    requires Flags(s)
    ensures SameLoad(s, PassOnTimes(s, k)) && Flags(PassOnTimes(s, k))
    ensures k > 0 ==> NoFlags(PassOnTimes(s, k))
    ensures k <= |s.queues| ==> PassOnTimes(s, k).current == Position(s.current, k, |s.queues|)
  {
    if k > 0 {
      ScanMeets(s, k - 1);
      NextIs(PassOnTimes(s, k - 1).current, |s.queues|);
    }
  }

  lemma FitsMeansServable(s: Port, k: nat)
    requires Flags(s) && Fits(PassOnTimes(s, k))
    ensures Servable(s)
  {
    ScanMeets(s, k);
    hide PassOn;
    if k > 0 {
      assert Affordable(s, PassOnTimes(s, k).current);
    }
  }

  lemma ServableFits(s: Port) returns (k: nat)
    requires Flags(s) && Servable(s)
    ensures k <= |s.queues| && Fits(PassOnTimes(s, k))
  {
    if Fits(s) {
      k := 0;
      assert PassOnTimes(s, k) == s;
    } else {
      var i: nat :| Affordable(s, i);
      k := if i > s.current then i - s.current else i - s.current + |s.queues|;
      ScanMeets(s, k);
      hide PassOn, PassOnTimes;
      assert PassOnTimes(s, k).current == i;
    }
  }

  /** The while(1) of deque ends exactly when some non-empty queue can afford its head packet, and then
      within |queues| + 1 iterations; otherwise it never does. */
  lemma TerminationExact(s: Port)
    requires Flags(s)
    ensures (exists k: nat :: Fits(PassOnTimes(s, k))) <==> Servable(s)
    ensures Servable(s) ==> exists k: nat :: k <= |s.queues| && Fits(PassOnTimes(s, k))
  {
    assert Shape(s);
    hide Flags, Servable, PassOn, PassOnTimes, Fits;
    if Servable(s) {
      var k := ServableFits(s);
      assert k <= |s.queues| && Fits(PassOnTimes(s, k));
    } else if k: nat :| Fits(PassOnTimes(s, k)) {
      FitsMeansServable(s, k);
      assert false;
    }
  }

  /** deque passes on k times before it can send. */
  ghost predicate SendsAfter(s: Port, k: nat)
    requires Shape(s)
  {
    Fits(PassOnTimes(s, k)) && forall j: nat :: j < k ==> !Fits(PassOnTimes(s, j))
  }

  function HeadPacket(s: Port): Packet
    requires Shape(s) && Fits(s)
  {
    s.queues[s.current].pkts[0]
  }

  ghost predicate NoneFits(s: Port, k: nat)
    requires Shape(s)
  {
    forall j: nat :: j < k ==> !Fits(PassOnTimes(s, j))
  }

  lemma StartOfScan(s: Port)
    requires Shape(s)
    ensures PassOnTimes(s, 0) == s && NoneFits(s, 0)
  {}

  lemma OnePass(s: Port, k: nat)
    requires Flags(s) && NoneFits(s, k)
    ensures PassOnTimes(s, k + 1) == PassOn(PassOnTimes(s, k)) && Flags(PassOnTimes(s, k + 1))
    ensures if Fits(PassOnTimes(s, k)) then SendsAfter(s, k) && Flags(Send(PassOnTimes(s, k))) else NoneFits(s, k + 1)
  {
    ScanMeets(s, k);
    ScanMeets(s, k + 1);
    hide Next;
  }

  lemma EndOfScan(s: Port, k: nat)
    requires Flags(s)
    ensures SendsAfter(s, k) ==> Servable(s)
    ensures NoneFits(s, k) && k > |s.queues| ==> !Servable(s)
  {
    TerminationExact(s);
    hide Servable, PassOn, Fits;
    if SendsAfter(s, k) {
      assert Fits(PassOnTimes(s, k));
    }
    if Servable(s) {
      var n: nat :| n <= |s.queues| && Fits(PassOnTimes(s, n));
      assert k > n ==> !NoneFits(s, k);
    }
  }

  // ---------------------------------------------------------------- runs

  datatype Event = Arrive(prio: int, p: Packet, qlimBytes: int) | Iterate

  function Step(s: Port, e: Event): (s': Port)
    requires Shape(s)
    ensures Shape(s')
  {
    match e
    case Arrive(prio, p, qlimBytes) => Enque(s, prio, p, qlimBytes)
    case Iterate => if Fits(s) then Send(s) else PassOn(s)
  }

  function Run(s: Port, es: seq<Event>): (s': Port)
    requires Shape(s)
    ensures Shape(s')
    decreases |es|
  {
    if es == [] then s else Run(Step(s, es[0]), es[1..])
  }

  function Iterates(k: nat): seq<Event>
  {
    if k == 0 then [] else [Iterate] + Iterates(k - 1)
  }

  /** A dequeue is a run: all its iterations, the last of which sends. */
  lemma {:induction false} DequeIsRun(s: Port, k: nat, j: nat)
    requires Shape(s) && SendsAfter(s, k) && j <= k
    ensures Run(PassOnTimes(s, j), Iterates(k - j + 1)) == Send(PassOnTimes(s, k))
    decreases k - j
  {
    assert Iterates(k - j + 1)[1..] == Iterates(k - j);
    hide Send, PassOn, Fits;
    if j < k {
      DequeIsRun(s, k, j + 1);
    } else {
      assert Iterates(0) == [];
    }
  }

  /** Bytes queue i sends in a step. */
  ghost function StepBytes(s: Port, e: Event, i: nat): nat
    requires Shape(s)
  {
    if e.Iterate? && s.current == i && Fits(s) then HeadPacket(s).size else 0
  }

  /** 1 when the step ends a visit to queue i. */
  ghost function StepVisits(s: Port, e: Event, i: nat): nat
    requires Shape(s)
  {
    if e.Iterate? && s.current == i && (!Fits(s) || |s.queues[i].pkts| == 1) then 1 else 0
  }

  ghost function SentBytes(s: Port, es: seq<Event>, i: nat): nat
    requires Shape(s)
    decreases |es|
  {
    if es == [] then 0 else StepBytes(s, es[0], i) + SentBytes(Step(s, es[0]), es[1..], i)
  }

  ghost function Visits(s: Port, es: seq<Event>, i: nat): nat
    requires Shape(s)
    decreases |es|
  {
    if es == [] then 0 else StepVisits(s, es[0], i) + Visits(Step(s, es[0]), es[1..], i)
  }

  /** Queue i always holds a packet, and its head never exceeds m bytes. */
  ghost predicate Backlogged(s: Port, es: seq<Event>, i: nat, m: int)
    requires Shape(s)
    decreases |es|
  {
    && i < |s.queues| && s.queues[i].pkts != [] && s.queues[i].pkts[0].size <= m
    && (es != [] ==> Backlogged(Step(s, es[0]), es[1..], i, m))
  }

  /** A live counter lies between 0 and the quantum; true as long as no quantum is rewritten. */
  ghost predicate Counters(s: Port)
  {
    forall k :: 0 <= k < |s.queues| && s.queues[k].updated ==> 0 <= s.queues[k].counter <= s.queues[k].quantum
  }

  lemma StepKeepsFlags(s: Port, e: Event)
    requires Flags(s) && Counters(s)
    ensures Flags(Step(s, e)) && Counters(Step(s, e))
    ensures |Step(s, e).queues| == |s.queues|
    ensures forall k :: 0 <= k < |s.queues| ==> Step(s, e).queues[k].quantum == s.queues[k].quantum
  {
    hide TotalByteLength, Next;
  }

  // ---------------------------------------------------------------- admission

  lemma {:induction false} TotalUpdate(qs: seq<Queue>, k: nat, q: Queue)
    requires k < |qs|
    ensures TotalByteLength(qs[k := q]) == TotalByteLength(qs) - Bytes(qs[k].pkts) + Bytes(q.pkts)
  {
    if k == 0 {
      assert qs[k := q][1..] == qs[1..];
    } else {
      TotalUpdate(qs[1..], k - 1, q);
      assert qs[k := q][1..] == qs[1..][k - 1 := q];
    }
  }

  /** A packet is let in exactly when it fits the limit with all bytes queued; then it is appended to the
      queue of its priority, or to the last queue, and nothing else changes. */
  lemma AdmissionExact(s: Port, prio: int, p: Packet, qlimBytes: int)
    requires Shape(s)
    ensures var s' := Enque(s, prio, p, qlimBytes);
            && |s'.queues| == |s.queues| && s'.current == s.current
            && forall k: nat :: k < |s.queues| ==>
                 s'.queues[k] == if TotalByteLength(s.queues) + p.size <= qlimBytes && GoesTo(prio, |s.queues|, k)
                                 then s.queues[k].(pkts := s.queues[k].pkts + [p]) else s.queues[k]
  {
    hide TotalByteLength;
  }

  lemma StepStaysWithin(s: Port, e: Event, qlimBytes: int)
    requires Shape(s) && TotalByteLength(s.queues) <= qlimBytes && (e.Arrive? ==> e.qlimBytes == qlimBytes)
    ensures TotalByteLength(Step(s, e).queues) <= qlimBytes
  {
    var s' := Step(s, e);
    if e.Arrive? {
      if TotalByteLength(s.queues) + e.p.size <= qlimBytes {
        var k := Classify(e.prio, |s.queues|);
        BytesAppend(s.queues[k].pkts, e.p);
        TotalUpdate(s.queues, k, s'.queues[k]);
      }
    } else {
      var q := s'.queues[s.current];
      assert Bytes(q.pkts) <= Bytes(s.queues[s.current].pkts);
      TotalUpdate(s.queues, s.current, q);
      assert s'.queues == s.queues[s.current := q];
    }
    hide TotalByteLength, Bytes;
  }

  /** With a fixed limit no run takes the port beyond it. */
  lemma {:induction false} RunStaysWithin(s: Port, es: seq<Event>, qlimBytes: int)
    requires Shape(s) && TotalByteLength(s.queues) <= qlimBytes
    requires forall n :: 0 <= n < |es| && es[n].Arrive? ==> es[n].qlimBytes == qlimBytes
    ensures TotalByteLength(Run(s, es).queues) <= qlimBytes
    decreases |es|
  {
    if es != [] {
      StepStaysWithin(s, es[0], qlimBytes);
      hide TotalByteLength, Step;
      RunStaysWithin(Step(s, es[0]), es[1..], qlimBytes);
    }
  }

  // ---------------------------------------------------------------- bytes per visit

  /** What the open visit of queue i has sent so far. */
  ghost function Spent(s: Port, i: nat): int
    requires i < |s.queues|
  {
    if s.queues[i].updated then s.queues[i].quantum - s.queues[i].counter else 0
  }

  lemma StepPerVisit(s: Port, e: Event, i: nat, m: int)
    requires Flags(s) && Counters(s) && Backlogged(s, [e], i, m) && m <= s.queues[i].quantum
    ensures var s' := Step(s, e);
            var v := StepVisits(s, e, i);
            var gain := StepBytes(s, e, i) + Spent(s, i) - Spent(s', i);
            && v <= 1 && (v == 0 ==> gain == 0)
            && (v == 1 ==> s.queues[i].quantum - m + 1 <= gain)
            && (v == 1 ==> gain <= s.queues[i].quantum)
  {
    hide TotalByteLength, Next;
    assert Backlogged(Step(s, e), [], i, m);
  }

  lemma TimesStep(v: int, w: int, q: int)
    ensures Times(0, q) == 0
    ensures w == 0 || w == 1 ==> Times(w + v, q) == Times(v, q) + (if w == 1 then q else 0)
  {}

  lemma SpentRange(s: Port, i: nat)
    requires Counters(s) && i < |s.queues| && s.queues[i].quantum >= 0
    ensures 0 <= Spent(s, i) <= s.queues[i].quantum
  {}

  lemma UnfoldBacklog(s: Port, es: seq<Event>, i: nat, m: int)
    requires Shape(s) && es != [] && Backlogged(s, es, i, m)
    ensures Backlogged(s, [es[0]], i, m) && Backlogged(Step(s, es[0]), es[1..], i, m) && i < |s.queues|
    ensures Run(s, es) == Run(Step(s, es[0]), es[1..])
    ensures SentBytes(s, es, i) == StepBytes(s, es[0], i) + SentBytes(Step(s, es[0]), es[1..], i)
    ensures Visits(s, es, i) == StepVisits(s, es[0], i) + Visits(Step(s, es[0]), es[1..], i)
  {
    assert Backlogged(Step(s, es[0]), es[1..], i, m);
    assert Backlogged(Step(s, es[0]), [], i, m);
    assert [es[0]][1..] == [];
    hide Step, StepBytes, StepVisits;
  }

  /** v completed visits to a backlogged queue send more than v(Q - m) and at most vQ bytes; what an
      open visit sent before the run or leaves open after it is set off against it. */
  lemma {:induction false} BytesPerVisit(s: Port, es: seq<Event>, i: nat, m: int)
    requires Flags(s) && Counters(s) && Backlogged(s, es, i, m) && m <= s.queues[i].quantum
    ensures i < |Run(s, es).queues| && Run(s, es).queues[i].quantum == s.queues[i].quantum
    ensures Flags(Run(s, es)) && Counters(Run(s, es))
    ensures var v, q := Visits(s, es, i), s.queues[i].quantum;
            Times(v, q - m + 1) <= SentBytes(s, es, i) + Spent(s, i) - Spent(Run(s, es), i) <= Times(v, q)
    decreases |es|
  {
    assert Shape(s) && i < |s.queues|;
    var q := s.queues[i].quantum;
    TimesStep(0, 0, q);
    TimesStep(0, 0, q - m + 1);
    if es != [] {
      hide Times, StepBytes, StepVisits, SentBytes, Visits, Step, Run, Spent, Flags, Counters, Backlogged;
      var s' := Step(s, es[0]);
      UnfoldBacklog(s, es, i, m);
      StepKeepsFlags(s, es[0]);
      StepPerVisit(s, es[0], i, m);
      BytesPerVisit(s', es[1..], i, m);
      var v, w := Visits(s', es[1..], i), StepVisits(s, es[0], i);
      TimesStep(v, w, q - m + 1);
      TimesStep(v, w, q);
    }
  }

  // ---------------------------------------------------------------- visits alternate

  ghost function Distance(c: nat, k: nat, n: nat): int
  {
    if k >= c then k - c else k - c + n
  }

  /** 1 when the scan reaches j before i. */
  ghost function Owed(s: Port, i: nat, j: nat): int
  {
    if Distance(s.current, j, |s.queues|) < Distance(s.current, i, |s.queues|) then 1 else 0
  }

  lemma StepAlternates(s: Port, e: Event, i: nat, j: nat)
    requires Shape(s) && i < |s.queues| && j < |s.queues| && i != j
    ensures StepVisits(s, e, i) - StepVisits(s, e, j) == Owed(Step(s, e), i, j) - Owed(s, i, j)
    ensures |Step(s, e).queues| == |s.queues|
  {
    hide TotalByteLength;
    NextIs(s.current, |s.queues|);
  }

  /** In every run the visits to two queues differ by at most one. */
  lemma {:induction false} VisitsAlternate(s: Port, es: seq<Event>, i: nat, j: nat)
    requires Shape(s) && i < |s.queues| && j < |s.queues| && i != j
    ensures Visits(s, es, i) - Visits(s, es, j) == Owed(Run(s, es), i, j) - Owed(s, i, j)
    ensures -1 <= Visits(s, es, i) - Visits(s, es, j) <= 1
    decreases |es|
  {
    if es != [] {
      StepAlternates(s, es[0], i, j);
      VisitsAlternate(Step(s, es[0]), es[1..], i, j);
    }
  }

  lemma Combine(a: int, b: int, vi: nat, vj: nat, qi: nat, w: nat, qj: nat)
    requires a <= Times(vi, qi) + qi && Times(vj, w) <= b + qj && vi <= vj + 1
    ensures Times(a, w) <= Times(b + qj + 2 * w, qi)
  {
    var n := vj + 2;
    TimesMono(vi + 1, n, qi);
    TimesSum(vi, 1, qi);
    assert Times(1, qi) == qi && Times(2, w) == 2 * w;
    TimesMono(a, Times(n, qi), w);
    TimesSum(vj, 2, w);
    TimesMono(Times(n, w), b + qj + 2 * w, qi);
    TimesSwap(n, qi, w);
    hide Times;
  }

  lemma TimesSwap(n: int, a: int, b: int)
    ensures Times(Times(n, a), b) == Times(Times(n, b), a)
  {
    assert (n * a) * b == (n * b) * a;
  }

  /** Share of the link: two queues backlogged throughout a run, with quanta of at least the largest
      packet, keep sent_i / Q_i within a factor Q_j / (Q_j - m + 1) of sent_j / Q_j, up to a constant. */
  lemma PairwiseShare(s: Port, es: seq<Event>, i: nat, j: nat, m: nat)
    requires Flags(s) && Counters(s) && i < |s.queues| && j < |s.queues| && i != j
    requires Backlogged(s, es, i, m) && Backlogged(s, es, j, m)
    requires m <= s.queues[i].quantum && m <= s.queues[j].quantum
    ensures var qi, qj := s.queues[i].quantum, s.queues[j].quantum;
            var w := qj - m + 1;
            Times(SentBytes(s, es, i), w) <= Times(SentBytes(s, es, j) + qj + 2 * w, qi)
  {
    hide Times, Run, Backlogged, Counters, Spent, SentBytes, Visits;
    BytesPerVisit(s, es, i, m);
    BytesPerVisit(s, es, j, m);
    VisitsAlternate(s, es, i, j);
    SpentRange(s, i);
    SpentRange(s, j);
    SpentRange(Run(s, es), i);
    SpentRange(Run(s, es), j);
    var qi, qj := s.queues[i].quantum, s.queues[j].quantum;
    Combine(SentBytes(s, es, i), SentBytes(s, es, j), Visits(s, es, i), Visits(s, es, j), qi, qj - m + 1, qj);
  }

  // ---------------------------------------------------------------- the class

  /** class WRR. */
  class WrrPort {
    const queues: array<Queue>
    var current: nat

    ghost function Abs(): Port
      reads this, queues
    {
      Port(queues[..], current)
    }

    constructor (quanta: seq<int>)
      requires quanta != []
      ensures Flags(Abs()) && fresh(queues) && queues.Length == |quanta| && current == 0
      ensures forall k :: 0 <= k < |quanta| ==> queues[k] == Queue([], quanta[k], 0, false)
    {
      queues := new Queue[|quanta|](k requires 0 <= k < |quanta| => Queue([], quanta[k], 0, false));
      current := 0;
    }

    method TotalBytes() returns (total: nat)
      ensures total == TotalByteLength(queues[..])
    {
      total := 0;
      var i := queues.Length;
      while i > 0
        invariant 0 <= i <= queues.Length
        invariant total == TotalByteLength(queues[i..])
      {
        i := i - 1;
        assert queues[i..][1..] == queues[i + 1..];
        total := Bytes(queues[i].pkts) + total;
      }
      assert queues[0..] == queues[..];
    }

    /** An arrival at the port. */
    method EnquePacket(prio: int, p: Packet, qlimBytes: int)
      requires Flags(Abs())
      modifies queues
      ensures Abs() == Enque(old(Abs()), prio, p, qlimBytes) && Flags(Abs())
    {
      var total := TotalBytes();
      if total + p.size > qlimBytes {
        return;
      }
      var k := Classify(prio, queues.Length);
      queues[k] := queues[k].(pkts := queues[k].pkts + [p]);
    }

    /** set-quantum, allowed at any time. */
    method SetQuantum(k: nat, quantum: int)
      requires Flags(Abs()) && k < queues.Length
      modifies queues
      ensures queues[..] == old(queues[..])[k := old(queues[k]).(quantum := quantum)] && Flags(Abs())
    {
      queues[k] := queues[k].(quantum := quantum);
    }

    /** One iteration of the loop of deque. */
    method VisitCurrent() returns (pkt: seq<Packet>)
      requires Flags(Abs())
      modifies this, queues
      ensures var s := old(Abs());
              if Fits(s) then Abs() == Send(s) && pkt == [HeadPacket(s)]
              else Abs() == PassOn(s) && pkt == []
    {
      pkt := [];
      var q := queues[current];
      if |q.pkts| > 0 {
        if !q.updated {
          q := q.(updated := true, counter := q.quantum);
        }
        var p := q.pkts[0];
        if p.size <= q.counter {
          q := q.(pkts := q.pkts[1..], counter := q.counter - p.size);
          queues[current] := q;
          if |q.pkts| == 0 {
            queues[current] := q.(updated := false);
            current := Next(current, queues.Length);
          }
          return [p];
        }
      }
      queues[current] := q.(updated := false);
      current := Next(current, queues.Length);
    }

    /** deque, observed for some number of iterations of its unbounded loop: it is done once it has
        returned.  On a non-empty port more than |queues| iterations decide: either it is done by then,
        or it never will be, and that is so exactly when the port is not servable. */
    method DequePacket(iterations: nat) returns (done: bool, pkt: seq<Packet>, passes: nat)
      requires Flags(Abs())
      modifies this, queues
      ensures Flags(Abs())
      ensures TotalByteLength(old(queues[..])) == 0 ==> done && pkt == [] && Abs() == old(Abs())
      ensures TotalByteLength(old(queues[..])) > 0 && done ==>
                && passes < iterations && SendsAfter(old(Abs()), passes)
                && Abs() == Send(PassOnTimes(old(Abs()), passes))
                && pkt == [HeadPacket(PassOnTimes(old(Abs()), passes))]
      ensures !done ==> pkt == [] && Abs() == PassOnTimes(old(Abs()), iterations)
      ensures TotalByteLength(old(queues[..])) > 0 && iterations > queues.Length ==> (done <==> Servable(old(Abs())))
    {
      done, pkt, passes := true, [], 0;
      var total := TotalBytes();
      if total == 0 {
        return;
      }
      ghost var s0 := Abs();
      hide TotalByteLength, Servable, Send, PassOn, Fits, HeadPacket, PassOnTimes, SendsAfter, NoneFits;
      StartOfScan(s0);
      while passes < iterations
        invariant Flags(Abs()) && Abs() == PassOnTimes(s0, passes)
        invariant pkt == [] && passes <= iterations && NoneFits(s0, passes)
      {
        OnePass(s0, passes);
        pkt := VisitCurrent();
        if pkt != [] {
          EndOfScan(s0, passes);
          return;
        }
        passes := passes + 1;
      }
      EndOfScan(s0, passes);
      done := false;
    }
  }
}
