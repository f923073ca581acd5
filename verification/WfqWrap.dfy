/** u64 tags refine unbounded tags in every run of sch_wfq, across any number of wraps. */
module WfqWrap {
  import opened Accounting
  import opened ActiveOrder
  import opened KernelPackets
  import opened TokenBucket
  import opened Wfq
  import opened WfqRuns

  // ---------------------------------------------------------------- the circular comparison

  /** Two tags less than half the circle apart compare as the unbounded tags do. */
  lemma TimeBeforeExact(a: int, b: int)
    requires -(U63 as int) < a - b < U63
    ensures WfqTimeBefore(a % U64, b % U64) <==> a < b
  {}

  /** Half the circle is the exact limit: for tags a and a + d the circular comparison is right
      wherever on the circle a lies, if and only if d is less than 2^63 either way. */
  lemma CircleExact(d: int)
    requires -(U64 as int) < d < U64
    ensures (forall a: int :: WfqTimeBefore(a % U64, (a + d) % U64) <==> a < a + d) <==> -(U63 as int) < d < U63
  {
    if -(U63 as int) < d < U63 {
      forall a: int ensures WfqTimeBefore(a % U64, (a + d) % U64) <==> a < a + d {
        TimeBeforeExact(a, a + d);
      }
    } else {
      var a := if d == U63 then U63 else 0;
      assert (a + d) % U64 == (if 0 <= a + d < U64 then a + d else if d < 0 then d + U64 else d - U63);
      assert !(WfqTimeBefore(a % U64, (a + d) % U64) <==> a < a + d);
    }
  }

  // ---------------------------------------------------------------- the abstraction

  function WrapClass(cl: Class): Class
  {
    cl.(headFin := cl.headFin % U64)
  }

  function WrapClasses(cls: seq<Class>): seq<Class>
  {
    seq(|cls|, k requires 0 <= k < |cls| => WrapClass(cls[k]))
  }

  function WrapTags(vtime: seq<int>): seq<int>
  {
    seq(|vtime|, p requires 0 <= p < |vtime| => vtime[p] % U64)
  }

  function WrapSched(s: Sched): Sched
  {
    s.(cls := WrapClasses(s.cls), vtime := WrapTags(s.vtime))
  }

  // ---------------------------------------------------------------- the window is small

  lemma {:induction false} SumOfConstant(s: seq<int>, v: int)
    requires forall k :: 0 <= k < |s| ==> s[k] == v
    ensures Sum(s) == |s| * v
  {
    if s != [] {
      SumOfConstant(s[1..], v);
    }
  }

  lemma WindowIsSmall(w: seq<nat>, ks: set<nat>)
    requires Weights(w)
    ensures Window(w, ks) <= MAX_QUEUES * MAX_PKT_BYTES
  {
    var top := seq(MAX_QUEUES, k => MAX_PKT_BYTES);
    forall k | 0 <= k < MAX_QUEUES ensures MaxSpans(w, ks)[k] <= top[k] {
      DivWeights(MAX_PKT_BYTES, 1, w[k]);
    }
    SumMonotone(MaxSpans(w, ks), top);
    SumOfConstant(top, MAX_PKT_BYTES);
  }

  // ---------------------------------------------------------------- one step

  /** Live tags of one priority are within the window of each other. */
  ghost predicate Close(s: Sched, prio: nat)
    requires Sized(s)
  {
    forall a: nat, b: nat {:trigger LiveAt(s, prio, a), LiveAt(s, prio, b)} ::
      LiveAt(s, prio, a) && LiveAt(s, prio, b) ==> s.cls[a].headFin - s.cls[b].headFin < U63
  }

  lemma InvIsClose(s: Sched, w: seq<nat>, prio: nat)
    requires Inv(s, w) && prio < MAX_PRIO
    ensures Close(s, prio)
  {
    forall a: nat, b: nat | LiveAt(s, prio, a) && LiveAt(s, prio, b)
      ensures s.cls[a].headFin - s.cls[b].headFin < U63
    {
      TagSpread(s, w, prio, a, b);
      WindowIsSmall(w, LiveSet(s, prio) - {b});
    }
  }

  lemma {:induction false} SelectRefines(s: Sched, prio: nat, i: nat, best: int)
    requires Sized(s) && i <= MAX_QUEUES && -1 <= best < MAX_QUEUES && Close(s, prio)
    requires best >= 0 ==> LiveAt(s, prio, best)
    ensures Select(Wrapped, WrapClasses(s.cls), prio, i, best) == Select(Exact, s.cls, prio, i, best)
    decreases MAX_QUEUES - i
  {
    if i < MAX_QUEUES {
      var take := Live(s.cls[i], prio) && (best == -1 || s.cls[i].headFin < s.cls[best].headFin);
      assert Live(WrapClasses(s.cls)[i], prio) == Live(s.cls[i], prio) == LiveAt(s, prio, i);
      if Live(s.cls[i], prio) && best >= 0 {
        TimeBeforeExact(s.cls[i].headFin, s.cls[best].headFin);
      }
      hide WfqTimeBefore, Close;
      SelectRefines(s, prio, i + 1, if take then i else best);
    }
  }

  lemma PlusRefines(a: int, b: int)
    ensures Norm(Wrapped, a % U64 + b) == Norm(Exact, a + b) % U64
    ensures Norm(Wrapped, b + a % U64) == Norm(Exact, a + b) % U64
  {}

  lemma WrapUpdates(s: Sched, k: nat, cl: Class, prio: nat, t: int)
    requires Sized(s) && k < MAX_QUEUES && prio < MAX_PRIO
    ensures WrapClasses(s.cls[k := cl]) == WrapClasses(s.cls)[k := WrapClass(cl)]
    ensures WrapTags(s.vtime[prio := t]) == WrapTags(s.vtime)[prio := t % U64]
    ensures WrapTags(s.vtime)[prio := s.vtime[prio] % U64] == WrapTags(s.vtime)
  {}

  lemma LookThrough(s: Sched, k: nat, prio: nat)
    requires Sized(s) && k < MAX_QUEUES && prio < MAX_PRIO
    ensures Sized(WrapSched(s))
    ensures WrapSched(s).cls[k] == WrapClass(s.cls[k]) && WrapSched(s).vtime[prio] == s.vtime[prio] % U64
  {}

  /** Tagging the next packet of the served class. */
  lemma NextFinRefines(s: Sched, c: Config, k: nat)
    requires Sized(s) && ConfigOk(c) && k < MAX_QUEUES && s.cls[k].pkts != []
    ensures Retags(WrapSched(s), c, k) == Retags(s, c, k)
    ensures NextFin(Wrapped, WrapSched(s), c, k) == NextFin(Exact, s, c, k) % U64
  {
    LookThrough(s, k, 0);
    if Retags(s, c, k) {
      PlusRefines(s.cls[k].headFin, SkbSize(s.cls[k].pkts[1]) / c.weight[k]);
    }
    hide WrapSched, SkbSize;
  }

  /** The next tag is close to the virtual time. */
  lemma NextFinClose(s: Sched, c: Config, w: seq<nat>, prio: nat, k: nat)
    requires Inv(s, w) && ConfigOk(c) && WeightsAtLeast(c, w) && prio < MAX_PRIO
    requires LiveAt(s, prio, k) && s.cls[k].pkts != [] && Retags(s, c, k)
    ensures -(U63 as int) < s.vtime[prio] - NextFin(Exact, s, c, k) < U63
  {
    assert ClassOk(s.cls[k]);
    TagSpread(s, w, prio, k, k);
    WindowIsSmall(w, LiveSet(s, prio) - {k});
    DivWeights(SkbSize(s.cls[k].pkts[1]), 1, c.weight[k]);
    hide Inv, ClassOk;
  }

  /** The test that advances the virtual time. */
  lemma NextVtimeRefines(s: Sched, c: Config, w: seq<nat>, prio: nat, k: nat)
    requires Inv(s, w) && ConfigOk(c) && WeightsAtLeast(c, w) && prio < MAX_PRIO
    requires LiveAt(s, prio, k) && s.cls[k].pkts != []
    ensures Sized(WrapSched(s)) && WrapSched(s).cls[k].pkts != []
    ensures NextVtime(Wrapped, WrapSched(s), c, prio, k) == NextVtime(Exact, s, c, prio, k) % U64
  {
    LookThrough(s, k, prio);
    NextFinRefines(s, c, k);
    if Retags(s, c, k) {
      NextFinClose(s, c, w, prio, k);
      TimeBeforeExact(s.vtime[prio], NextFin(Exact, s, c, k));
    }
    hide Inv, WrapSched, WfqTimeBefore, NextFin, Retags;
  }

  lemma SendRefines(s: Sched, c: Config, w: seq<nat>, prio: nat, k: nat, now: int)
    requires Inv(s, w) && ConfigOk(c) && WeightsAtLeast(c, w) && prio < MAX_PRIO
    requires Least(s, prio, k) && s.cls[k].pkts != []
    ensures Sized(WrapSched(s)) && WrapSched(s).cls[k].pkts != []
    ensures SendFrom(Wrapped, WrapSched(s), c, prio, k, now) == WrapSched(SendFrom(Exact, s, c, prio, k, now))
  {
    NextFinRefines(s, c, k);
    NextVtimeRefines(s, c, w, prio, k);
    LookThrough(s, k, prio);
    var s' := SendFrom(Exact, s, c, prio, k, now);
    WrapUpdates(s, k, s'.cls[k], prio, s'.vtime[prio]);
    hide Inv, Depart, L2tNs, SkbSize, Least, NextFin, NextVtime, ConfigOk, WrapClasses, WrapTags;
  }

  lemma DequeueRefines(s: Sched, c: Config, w: seq<nat>, now: int)
    requires Inv(s, w) && ConfigOk(c) && WeightsAtLeast(c, w)
    ensures var (s', o) := Dequeue(Exact, s, c, now);
            Dequeue(Wrapped, WrapSched(s), c, now) == (WrapSched(s'), o)
  {
    DequeueFinds(s, w);
    var prio := PrioFrom(s.prioLen, 0);
    if prio >= 0 {
      InvIsClose(s, w, prio);
      SelectRefines(s, prio, 0, -1);
      var k := Select(Exact, s.cls, prio, 0, -1);
      SendRefines(s, c, w, prio, k, now);
    }
    hide Inv, Select, SendFrom, Least, Close, TbfSchedule, PrioFrom;
  }

  lemma EnqueueRefines(s: Sched, c: Config, k: nat, p: Packet, childAccepts: bool)
    requires Sized(s) && ConfigOk(c) && k < MAX_QUEUES && s.cls[k].prio < MAX_PRIO
    ensures var (s', v) := Enqueue(Exact, s, c, k, p, childAccepts);
            Enqueue(Wrapped, WrapSched(s), c, k, p, childAccepts) == (WrapSched(s'), v)
  {
    var s' := Accept(Exact, s, c, k, p);
    if s.cls[k].pkts == [] {
      PlusRefines(s.vtime[c.prio[k]], SkbSize(p) / c.weight[k]);
    }
    hide SkbSize;
    var prio := s'.cls[k].prio;
    assert WrapClasses(s'.cls) == WrapClasses(s.cls)[k := WrapClass(s'.cls[k])];
    assert WrapTags(s'.vtime) == WrapTags(s.vtime)[prio := s'.vtime[prio] % U64];
    assert WrapTags(s.vtime)[prio := s.vtime[prio] % U64] == WrapTags(s.vtime);
  }

  // ---------------------------------------------------------------- runs

  datatype Event =
    | Arrive(c: Config, queue: nat, pkt: Packet, childAccepts: bool)
    | Tick(c: Config, now: int)

  ghost predicate EventOk(e: Event, w: seq<nat>)
    requires Weights(w)
  {
    ConfigOk(e.c) && WeightsAtLeast(e.c, w) && (e.Arrive? ==> e.queue < MAX_QUEUES && SkbSize(e.pkt) <= MAX_PKT_BYTES)
  }

  ghost predicate EventsOk(es: seq<Event>, w: seq<nat>)
    requires Weights(w)
  {
    forall n :: 0 <= n < |es| ==> EventOk(es[n], w)
  }

  predicate Shaped(s: Sched)
  {
    Sized(s) && forall k :: 0 <= k < MAX_QUEUES ==> s.cls[k].prio < MAX_PRIO
  }

  ghost function Step(m: Tags, s: Sched, e: Event): (Sched, Outcome)
    requires Shaped(s) && ConfigOk(e.c) && (e.Arrive? ==> e.queue < MAX_QUEUES)
    ensures Shaped(Step(m, s, e).0)
  {
    match e
    case Arrive(c, k, p, childAccepts) => (Enqueue(m, s, c, k, p, childAccepts).0, Nothing)
    case Tick(c, now) => Dequeue(m, s, c, now)
  }

  lemma InvIsShaped(s: Sched, w: seq<nat>)
    requires Inv(s, w)
    ensures Shaped(s) && Shaped(WrapSched(s))
  {
    forall k | 0 <= k < MAX_QUEUES ensures s.cls[k].prio < MAX_PRIO {
      assert ClassOk(s.cls[k]);
    }
  }

  lemma StepRefines(s: Sched, e: Event, w: seq<nat>)
    requires Inv(s, w) && EventOk(e, w) && Shaped(s) && Shaped(WrapSched(s))
    ensures Inv(Step(Exact, s, e).0, w)
    ensures Step(Wrapped, WrapSched(s), e) == (WrapSched(Step(Exact, s, e).0), Step(Exact, s, e).1)
  {
    match e
    case Arrive(c, k, p, childAccepts) =>
      EnqueueKeepsInv(s, c, w, k, p, childAccepts);
      EnqueueRefines(s, c, k, p, childAccepts);
    case Tick(c, now) =>
      DequeueKeepsInv(s, c, w, now);
      DequeueRefines(s, c, w, now);
  }

  ghost predicate Runnable(es: seq<Event>)
  {
    forall n :: 0 <= n < |es| ==> ConfigOk(es[n].c) && (es[n].Arrive? ==> es[n].queue < MAX_QUEUES)
  }

  /** The final state and the outcome of every call. */
  ghost function Run(m: Tags, s: Sched, es: seq<Event>): (Sched, seq<Outcome>)
    requires Shaped(s) && Runnable(es)
    ensures Shaped(Run(m, s, es).0)
    decreases |es|
  {
    if es == [] then (s, [])
    else
      var (s1, o) := Step(m, s, es[0]);
      var (s2, os) := Run(m, s1, es[1..]);
      (s2, [o] + os)
  }

  /** The refinement: with u64 tags every call of every run has the same outcome as with unbounded
      tags, and the stored tags are the unbounded ones modulo 2^64. */
  lemma {:induction false} WrappedRefinesExact(s: Sched, es: seq<Event>, w: seq<nat>)
    requires Inv(s, w) && EventsOk(es, w)
    ensures Shaped(s) && Shaped(WrapSched(s)) && Runnable(es)
    ensures var (s', os) := Run(Exact, s, es);
            Inv(s', w) && Run(Wrapped, WrapSched(s), es) == (WrapSched(s'), os)
    decreases |es|
  {
    InvIsShaped(s, w);
    assert forall n :: 0 <= n < |es| ==> EventOk(es[n], w);
    if es != [] {
      StepRefines(s, es[0], w);
      hide Inv, Step, EventOk, WrapSched;
      WrappedRefinesExact(Step(Exact, s, es[0]).0, es[1..], w);
    }
  }

  /** The initial state satisfies the invariant for every choice of weights. */
  lemma InitialState(s: Sched, w: seq<nat>)
    requires Sized(s) && Weights(w) && s.sumLen == 0
    requires forall k :: 0 <= k < MAX_QUEUES ==> s.cls[k] == Class([], 0, 0, 0)
    requires forall p :: 0 <= p < MAX_PRIO ==> s.prioLen[p] == 0 && s.vtime[p] == 0
    ensures Inv(s, w) && WrapSched(s) == s
  {
    EmptyBalanced(Loads(s.cls), s.prioLen);
    assert WrapClasses(s.cls) == s.cls && WrapTags(s.vtime) == s.vtime;
    forall p, k: nat | 0 <= p < MAX_PRIO ensures !LiveAt(s, p, k) {}
  }

  /** Whatever the u64 machine sends has the least unbounded tag among the classes of the highest
      non-empty priority. */
  lemma ServesLeastTag(s: Sched, c: Config, w: seq<nat>, now: int)
    requires Inv(s, w) && ConfigOk(c) && WeightsAtLeast(c, w)
    ensures var o := Dequeue(Wrapped, WrapSched(s), c, now).1;
            && (o.Sent? ==> Least(s, o.prio, o.queue) && s.cls[o.queue].pkts != [] && o.pkt == s.cls[o.queue].pkts[0]
                            && forall k :: 0 <= k < MAX_QUEUES && s.cls[k].pkts != [] ==> o.prio <= s.cls[k].prio)
            && (o.Nothing? ==> forall k :: 0 <= k < MAX_QUEUES ==> s.cls[k].pkts == [])
  {
    DequeueFinds(s, w);
    DequeueRefines(s, c, w, now);
    hide Inv, Select, SendFrom, Least, TbfSchedule, PrioFrom, WrapSched;
  }
}
