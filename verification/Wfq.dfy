/** sch_wfq: strict priorities, weighted fair queueing by virtual finish tags within each, and a token
    bucket.  The same machine is run with unbounded tags (Exact) and with u64 tags (Wrapped). */
module Wfq {
  import opened Accounting
  import opened ActiveOrder
  import opened Arithmetic
  import opened KernelPackets
  import opened TokenBucket

  const U63: nat := 0x8000_0000_0000_0000
  const U64: nat := 0x1_0000_0000_0000_0000

  datatype Class = Class(pkts: seq<Packet>, prio: nat, lenBytes: int, headFin: int)

  datatype Sched = Sched(cls: seq<Class>, bucket: Bucket, sumLen: int, prioLen: seq<int>, vtime: seq<int>)

  datatype Config = Config(
    weight: seq<nat>, prio: seq<nat>, rate: RateCfg, bucketBytes: nat, buffer: BufferMode)

  datatype Outcome = Sent(queue: nat, pkt: Packet, prio: nat) | Throttled(wakeup: int) | Nothing

  // ---------------------------------------------------------------- tag arithmetic

  datatype Tags = Exact | Wrapped

  function Norm(m: Tags, t: int): int
  {
    if m.Exact? then t else t % U64
  }

  /** The circular comparison of u64 time stamps. */
  function WfqTimeBefore(time1: int, time2: int): bool
  {
    if time1 < time2 && time2 - time1 <= U63 then true
    else time1 > time2 && time1 - time2 > U63
  }

  function Earlier(m: Tags, a: int, b: int): bool
  {
    if m.Exact? then a < b else WfqTimeBefore(a, b)
  }

  // ---------------------------------------------------------------- enqueue

  predicate Sized(s: Sched)
  {
    |s.cls| == MAX_QUEUES && |s.prioLen| == |s.vtime| == MAX_PRIO
  }

  ghost predicate ConfigOk(c: Config)
  {
    && |c.weight| == MAX_QUEUES && (forall k :: 0 <= k < MAX_QUEUES ==> 1 <= c.weight[k] <= MIN_PKT_BYTES)
    && |c.prio| == MAX_QUEUES && (forall k :: 0 <= k < MAX_QUEUES ==> c.prio[k] < MAX_PRIO)
    && (c.buffer.StaticBuffer? ==> |c.buffer.limits| == MAX_QUEUES)
  }

  function Overfill(s: Sched, c: Config, k: nat, len: nat): bool
    requires Sized(s) && k < MAX_QUEUES && (c.buffer.StaticBuffer? ==> |c.buffer.limits| == MAX_QUEUES)
  {
    match c.buffer
    case SharedBuffer(limit) => s.sumLen + len > limit
    case StaticBuffer(limits) => s.cls[k].lenBytes + len > limits[k]
  }

  /** An empty class latches its priority and is tagged behind the virtual time, which it advances. */
  function Accept(m: Tags, s: Sched, c: Config, k: nat, p: Packet): Sched
    requires Sized(s) && ConfigOk(c) && k < MAX_QUEUES && s.cls[k].prio < MAX_PRIO
  {
    var len := SkbSize(p);
    var prio := if s.cls[k].pkts == [] then c.prio[k] else s.cls[k].prio;
    var retag := s.cls[k].pkts == [] && c.weight[k] > 0;
    var fin := if retag then Norm(m, len / c.weight[k] + s.vtime[prio]) else s.cls[k].headFin;
    s.(cls := s.cls[k := Class(s.cls[k].pkts + [p], prio, s.cls[k].lenBytes + len, fin)],
       sumLen := s.sumLen + len,
       prioLen := s.prioLen[prio := s.prioLen[prio] + len],
       vtime := if retag then s.vtime[prio := fin] else s.vtime)
  }

  function Enqueue(m: Tags, s: Sched, c: Config, k: nat, p: Packet, childAccepts: bool): (Sched, Verdict)
    requires Sized(s) && ConfigOk(c) && k < MAX_QUEUES && s.cls[k].prio < MAX_PRIO
  {
    if Overfill(s, c, k, SkbSize(p)) then (s, Dropped)
    else if !childAccepts then (s, Refused)
    else (Accept(m, s, c, k, p), Queued)
  }

  // ---------------------------------------------------------------- dequeue

  /** The highest priority with queued bytes, from i on. */
  function PrioFrom(prioLen: seq<int>, i: nat): (prio: int)
    requires i <= |prioLen|
    ensures prio == -1 || i <= prio < |prioLen|
    ensures forall q :: i <= q < (if prio == -1 then |prioLen| else prio) ==> prioLen[q] <= 0
    ensures prio != -1 ==> prioLen[prio] > 0
    decreases |prioLen| - i
  {
    if i == |prioLen| then -1
    else if prioLen[i] > 0 then i
    else PrioFrom(prioLen, i + 1)
  }

  predicate Live(cl: Class, prio: nat)
  {
    cl.prio == prio && cl.lenBytes != 0
  }

  /** The scan over the classes: best is the earliest live tag among the first i, or -1. */
  function Select(m: Tags, cls: seq<Class>, prio: nat, i: nat, best: int): (k: int)
    requires i <= |cls| && -1 <= best < |cls|
    ensures k == -1 || k == best || (i <= k < |cls| && Live(cls[k], prio))
    decreases |cls| - i
  {
    if i == |cls| then best
    else if Live(cls[i], prio) && (best == -1 || Earlier(m, cls[i].headFin, cls[best].headFin))
    then Select(m, cls, prio, i + 1, i)
    else Select(m, cls, prio, i + 1, best)
  }

  /** Whether class k has a next packet to tag once its head has left. */
  predicate Retags(s: Sched, c: Config, k: nat)
    requires Sized(s) && ConfigOk(c) && k < MAX_QUEUES && s.cls[k].pkts != []
  {
    s.cls[k].lenBytes - SkbSize(s.cls[k].pkts[0]) > 0 && |s.cls[k].pkts| > 1 && c.weight[k] > 0
  }

  function NextFin(m: Tags, s: Sched, c: Config, k: nat): int
    requires Sized(s) && ConfigOk(c) && k < MAX_QUEUES && s.cls[k].pkts != []
  {
    if Retags(s, c, k) then Norm(m, s.cls[k].headFin + SkbSize(s.cls[k].pkts[1]) / c.weight[k])
    else s.cls[k].headFin
  }

  function NextVtime(m: Tags, s: Sched, c: Config, prio: nat, k: nat): int
    requires Sized(s) && ConfigOk(c) && prio < MAX_PRIO && k < MAX_QUEUES && s.cls[k].pkts != []
  {
    var fin := NextFin(m, s, c, k);
    if Retags(s, c, k) && Earlier(m, s.vtime[prio], fin) then fin else s.vtime[prio]
  }

  /** Send the head packet of class k and tag the next one. */
  function SendFrom(m: Tags, s: Sched, c: Config, prio: nat, k: nat, now: int): Sched
    requires Sized(s) && ConfigOk(c) && prio < MAX_PRIO && k < MAX_QUEUES && s.cls[k].pkts != []
  {
    var cl := s.cls[k];
    var len := SkbSize(cl.pkts[0]);
    Sched(s.cls[k := Class(cl.pkts[1..], cl.prio, cl.lenBytes - len, NextFin(m, s, c, k))],
          Depart(s.bucket, L2tNs(c.rate, c.bucketBytes), L2tNs(c.rate, len), now),
          s.sumLen - len,
          s.prioLen[prio := s.prioLen[prio] - len],
          s.vtime[prio := NextVtime(m, s, c, prio, k)])
  }

  function Dequeue(m: Tags, s: Sched, c: Config, now: int): (Sched, Outcome)
    requires Sized(s) && ConfigOk(c)
  {
    var prio := PrioFrom(s.prioLen, 0);
    if prio < 0 then (s, Nothing)
    else
      var k := Select(m, s.cls, prio, 0, -1);
      if k < 0 || s.cls[k].pkts == [] then (s, Nothing)
      else
        var p := s.cls[k].pkts[0];
        var result := TbfSchedule(SkbSize(p), c.rate, c.bucketBytes, s.bucket, now);
        if result < 0 then (s, Throttled(now - result))
        else (SendFrom(m, s, c, prio, k, now), Sent(k, p, prio))
  }

  // ---------------------------------------------------------------- the invariant

  ghost predicate ClassOk(cl: Class)
  {
    && cl.prio < MAX_PRIO && cl.lenBytes == Bytes(cl.pkts)
    && forall n :: 0 <= n < |cl.pkts| ==> SkbSize(cl.pkts[n]) <= MAX_PKT_BYTES
  }

  ghost function LoadOf(cl: Class): Load
  {
    Load(cl.prio, cl.lenBytes)
  }

  ghost function Loads(cls: seq<Class>): seq<Load>
  {
    seq(|cls|, k requires 0 <= k < |cls| => LoadOf(cls[k]))
  }

  /** Byte counts are right at the port, at every priority and at every class. */
  ghost predicate Accounts(s: Sched)
  {
    && Sized(s) && Balanced(Loads(s.cls), s.sumLen, s.prioLen)
    && forall k :: 0 <= k < MAX_QUEUES ==> ClassOk(s.cls[k])
  }

  /** The most a tag of this class can have advanced for its current head packet, when weights have
      always been at least w. */
  ghost function Span(cl: Class, w: nat): nat
    requires w > 0
  {
    if cl.pkts == [] then 0 else SkbSize(cl.pkts[0]) / w
  }

  ghost predicate Weights(w: seq<nat>)
  {
    |w| == MAX_QUEUES && forall k :: 0 <= k < MAX_QUEUES ==> w[k] > 0
  }

  /** Tag x lies in the interval that class k's head packet occupies. */
  ghost predicate Covers(s: Sched, w: seq<nat>, k: nat, x: int)
    requires Sized(s) && Weights(w) && k < MAX_QUEUES
  {
    s.cls[k].headFin - Span(s.cls[k], w[k]) < x <= s.cls[k].headFin
  }

  ghost predicate LiveAt(s: Sched, p: nat, k: nat)
    requires Sized(s)
  {
    k < MAX_QUEUES && Live(s.cls[k], p)
  }

  /** No live tag exceeds the virtual time, and the virtual time is one of them. */
  ghost predicate TopTag(s: Sched, p: nat)
    requires Sized(s) && p < MAX_PRIO
  {
    && (forall k: nat :: LiveAt(s, p, k) ==> s.cls[k].headFin <= s.vtime[p])
    && ((exists k: nat :: LiveAt(s, p, k)) ==> exists k: nat :: LiveAt(s, p, k) && s.cls[k].headFin == s.vtime[p])
  }

  ghost predicate Covered(s: Sched, w: seq<nat>, p: nat, x: int)
    requires Sized(s) && Weights(w)
  {
    exists k: nat :: LiveAt(s, p, k) && Covers(s, w, k, x)
  }

  /** The intervals of the live classes leave no gap between the least tag and the virtual time. */
  ghost predicate NoGap(s: Sched, w: seq<nat>, p: nat)
    requires Sized(s) && Weights(w) && p < MAX_PRIO
  {
    forall b: nat, x: int {:trigger LiveAt(s, p, b), Covered(s, w, p, x)} ::
      LiveAt(s, p, b) && s.cls[b].headFin < x <= s.vtime[p] ==> Covered(s, w, p, x)
  }

  ghost predicate Inv(s: Sched, w: seq<nat>)
  {
    && Weights(w) && Accounts(s)
    && forall p :: 0 <= p < MAX_PRIO ==> TopTag(s, p) && NoGap(s, w, p)
  }

  /** Configured weights are at least w. */
  ghost predicate WeightsAtLeast(c: Config, w: seq<nat>)
    requires ConfigOk(c) && Weights(w)
  {
    forall k :: 0 <= k < MAX_QUEUES ==> w[k] <= c.weight[k]
  }

  lemma LiveHasPackets(s: Sched, p: nat, k: nat)
    requires Accounts(s) && k < MAX_QUEUES
    ensures LiveAt(s, p, k) <==> s.cls[k].prio == p && s.cls[k].pkts != []
    ensures s.cls[k].lenBytes > 0 <==> s.cls[k].pkts != []
    ensures s.cls[k].lenBytes >= 0
  {
    assert ClassOk(s.cls[k]);
  }

  /** The scan finds the live class with the least tag. */
  lemma {:induction false} SelectIsLeast(s: Sched, prio: nat, i: nat, best: int)
    requires Sized(s) && i <= MAX_QUEUES && -1 <= best < i
    requires best == -1 ==> forall k: nat :: k < i ==> !LiveAt(s, prio, k)
    requires best >= 0 ==> LiveAt(s, prio, best)
    requires best >= 0 ==> forall k: nat :: k < i && LiveAt(s, prio, k) ==> s.cls[best].headFin <= s.cls[k].headFin
    ensures var k := Select(Exact, s.cls, prio, i, best);
            && (k == -1 ==> forall n: nat :: !LiveAt(s, prio, n))
            && (k >= 0 ==> LiveAt(s, prio, k) && forall n: nat :: LiveAt(s, prio, n) ==> s.cls[k].headFin <= s.cls[n].headFin)
    decreases MAX_QUEUES - i
  {
    if i < MAX_QUEUES {
      assert LiveAt(s, prio, i) <==> Live(s.cls[i], prio);
      if Live(s.cls[i], prio) && (best == -1 || s.cls[i].headFin < s.cls[best].headFin) {
        SelectIsLeast(s, prio, i + 1, i);
      } else {
        SelectIsLeast(s, prio, i + 1, best);
      }
    }
  }

  // ---------------------------------------------------------------- the spread of live tags

  ghost function SpanIn(s: Sched, w: seq<nat>, ks: set<nat>, k: nat): int
    requires Sized(s) && Weights(w) && k < MAX_QUEUES
  {
    if k in ks then Span(s.cls[k], w[k]) else 0
  }

  ghost function Spans(s: Sched, w: seq<nat>, ks: set<nat>): seq<int>
    requires Sized(s) && Weights(w)
  {
    seq(MAX_QUEUES, k requires 0 <= k < MAX_QUEUES => SpanIn(s, w, ks, k))
  }

  ghost predicate CoveredBy(s: Sched, w: seq<nat>, ks: set<nat>, x: int)
    requires Sized(s) && Weights(w) && forall k :: k in ks ==> k < MAX_QUEUES
  {
    exists k :: k in ks && Covers(s, w, k, x)
  }

  /** Points (low, x] covered by the classes ks alone reach no further than their spans. */
  lemma {:induction false} CoverReach(s: Sched, w: seq<nat>, ks: set<nat>, low: int, x: int)
    requires Sized(s) && Weights(w) && (forall k :: k in ks ==> k < MAX_QUEUES)
    requires forall y :: low < y <= x ==> CoveredBy(s, w, ks, y)
    ensures x - low <= Sum(Spans(s, w, ks))
    decreases ks
  {
    if x > low {
      assert CoveredBy(s, w, ks, x);
      var k :| k in ks && Covers(s, w, k, x);
      var rest := ks - {k};
      var x' := s.cls[k].headFin - Span(s.cls[k], w[k]);
      forall y | low < y <= x' ensures CoveredBy(s, w, rest, y) {
        assert CoveredBy(s, w, ks, y);
        var n :| n in ks && Covers(s, w, n, y);
        assert n in rest;
      }
      CoverReach(s, w, rest, low, x');
      SumUpdate(Spans(s, w, ks), k, 0);
      assert Spans(s, w, rest) == Spans(s, w, ks)[k := 0];
    } else {
      SumOfNonNegatives(Spans(s, w, ks));
    }
  }

  ghost function LiveSet(s: Sched, p: nat): set<nat>
    requires Sized(s)
  {
    set k: nat | k < MAX_QUEUES && LiveAt(s, p, k)
  }

  /** The tag window: a live tag lies at most the spans of the other live classes below the virtual
      time, which is the greatest live tag. */
  lemma TagWindow(s: Sched, w: seq<nat>, p: nat, b: nat)
    requires Inv(s, w) && p < MAX_PRIO && LiveAt(s, p, b)
    ensures 0 <= s.vtime[p] - s.cls[b].headFin <= Sum(Spans(s, w, LiveSet(s, p) - {b}))
  {
    var others := LiveSet(s, p) - {b};
    assert TopTag(s, p) && NoGap(s, w, p);
    forall y | s.cls[b].headFin < y <= s.vtime[p]
      ensures CoveredBy(s, w, others, y)
    {
      assert Covered(s, w, p, y);
      var k: nat :| LiveAt(s, p, k) && Covers(s, w, k, y);
      assert k in others;
    }
    CoverReach(s, w, others, s.cls[b].headFin, s.vtime[p]);
  }

  /** The largest packet's span for each of the classes ks. */
  ghost function MaxSpans(w: seq<nat>, ks: set<nat>): seq<int>
    requires Weights(w)
  {
    seq(MAX_QUEUES, k requires 0 <= k < MAX_QUEUES => if k in ks then MAX_PKT_BYTES / w[k] else 0)
  }

  /** The sum of floor(M / w_k) over the classes ks. */
  ghost function Window(w: seq<nat>, ks: set<nat>): int
    requires Weights(w)
  {
    Sum(MaxSpans(w, ks))
  }

  lemma WindowGrows(w: seq<nat>, ks: set<nat>, ks': set<nat>)
    requires Weights(w) && ks <= ks'
    ensures 0 <= Window(w, ks) <= Window(w, ks')
  {
    SumOfNonNegatives(MaxSpans(w, ks));
    SumMonotone(MaxSpans(w, ks), MaxSpans(w, ks'));
  }

  lemma SpanBound(cl: Class, w: nat)
    requires ClassOk(cl) && w > 0
    ensures 0 <= Span(cl, w) <= MAX_PKT_BYTES / w
  {
    if cl.pkts != [] {
      DivMono(SkbSize(cl.pkts[0]), MAX_PKT_BYTES, w);
    }
  }

  /** Hence a live tag lies at most the sum of floor(M / w_k) over the other live classes of its
      priority below any other live tag. */
  lemma TagSpread(s: Sched, w: seq<nat>, p: nat, a: nat, b: nat)
    requires Inv(s, w) && p < MAX_PRIO && LiveAt(s, p, a) && LiveAt(s, p, b)
    ensures s.cls[a].headFin - s.cls[b].headFin <= s.vtime[p] - s.cls[b].headFin <= Window(w, LiveSet(s, p) - {b})
  {
    TagWindow(s, w, p, a);
    TagWindow(s, w, p, b);
    var others := LiveSet(s, p) - {b};
    var spans := Spans(s, w, others);
    forall k | 0 <= k < MAX_QUEUES ensures spans[k] <= MaxSpans(w, others)[k] {
      SpanBound(s.cls[k], w[k]);
    }
    SumMonotone(spans, MaxSpans(w, others));
  }
}
