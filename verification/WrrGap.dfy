/** How far two queues of the NS2 weighted round robin can drift apart: what each visit wastes decides. */
module WrrGap {
  import opened Arithmetic
  import opened Ns2Packets
  import opened Wrr

  // ---------------------------------------------------------------- packets of one size

  /** The bytes of x that whole packets of size c can use. */
  function WholePackets(x: int, c: nat): int
    requires c > 0
  {
    x / c * c
  }

  lemma QuotientIs(x: int, c: nat, q: int)
    requires c > 0 && c * q <= x < c * q + c
    ensures x / c == q
  {
    var p := x / c;
    assert c * p <= x < c * p + c;
    Distribute(c, p, 1);
    Distribute(c, q, 1);
    CancelLess(c, p, q + 1);
    CancelLess(c, q, p + 1);
  }

  lemma WholePacketsStep(x: int, c: nat)
    requires c > 0
    ensures WholePackets(x - c, c) == WholePackets(x, c) - c
    ensures WholePackets(x, c) <= x < WholePackets(x, c) + c
    ensures 0 <= x < c ==> WholePackets(x, c) == 0
  {
    var q := x / c;
    assert c * q <= x < c * q + c;
    Distribute(c, q, -1);
    QuotientIs(x - c, c, q - 1);
    Distribute(c, q - 1, 1);
    if 0 <= x < c {
      QuotientIs(x, c, 0);
    }
  }

  lemma WholePacketsMono(x: int, y: int, c: nat)
    requires c > 0 && 0 <= x <= y
    ensures 0 <= WholePackets(x, c) <= WholePackets(y, c)
  {
    DivMono(x, y, c);
    MulLe(x / c, y / c, c);
    MulLe(0, x / c, c);
  }

  /** Queue i holds packets, all of size c. */
  ghost predicate FixedSize(s: Port, i: nat, c: nat)
  {
    && i < |s.queues| && s.queues[i].pkts != []
    && forall n :: 0 <= n < |s.queues[i].pkts| ==> s.queues[i].pkts[n].size == c
  }

  /** Queue i does so before and after every event. */
  ghost predicate FixedRun(s: Port, es: seq<Event>, i: nat, c: nat)
    requires Shape(s)
    decreases |es|
  {
    FixedSize(s, i, c) && (es == [] || FixedRun(Step(s, es[0]), es[1..], i, c))
  }

  /** What a visit to queue i can use of its quantum. */
  ghost function Useful(s: Port, i: nat, c: nat): int
    requires i < |s.queues| && c > 0
  {
    WholePackets(s.queues[i].quantum, c)
  }

  /** What the open visit to queue i has used of that. */
  ghost function Used(s: Port, i: nat, c: nat): int
    requires i < |s.queues| && c > 0
  {
    if s.queues[i].updated then Useful(s, i, c) - WholePackets(s.queues[i].counter, c) else 0
  }

  lemma UsedRange(s: Port, i: nat, c: nat)
    requires Counters(s) && i < |s.queues| && 0 < c <= s.queues[i].quantum
    ensures 0 <= Used(s, i, c) <= Useful(s, i, c) <= s.queues[i].quantum
  {
    WholePacketsMono(0, s.queues[i].quantum, c);
    WholePacketsStep(s.queues[i].quantum, c);
    if s.queues[i].updated {
      WholePacketsMono(s.queues[i].counter, s.queues[i].quantum, c);
    }
  }

  lemma StepExact(s: Port, e: Event, i: nat, c: nat)
    requires Flags(s) && Counters(s) && FixedSize(s, i, c) && FixedSize(Step(s, e), i, c)
    requires 0 < c <= s.queues[i].quantum
    ensures StepVisits(s, e, i) <= 1
    ensures StepBytes(s, e, i)
            == (if StepVisits(s, e, i) == 1 then Useful(s, i, c) else 0) + Used(Step(s, e), i, c) - Used(s, i, c)
  {
    var q := s.queues[i];
    WholePacketsStep(Visit(q).counter, c);
    WholePacketsStep(q.counter, c);
    hide TotalByteLength, Next, WholePackets;
  }

  /** Exact account: with packets of size c, v completed visits to a backlogged queue send v times the
      whole packets of its quantum, up to what open visits have used at either end. */
  lemma {:induction false} BytesExact(s: Port, es: seq<Event>, i: nat, c: nat)
    requires Flags(s) && Counters(s) && FixedRun(s, es, i, c) && 0 < c <= s.queues[i].quantum
    ensures i < |Run(s, es).queues| && Run(s, es).queues[i].quantum == s.queues[i].quantum
    ensures Flags(Run(s, es)) && Counters(Run(s, es))
    ensures SentBytes(s, es, i) == Times(Visits(s, es, i), Useful(s, i, c)) + Used(Run(s, es), i, c) - Used(s, i, c)
    decreases |es|
  {
    hide Times;
    TimesSum(0, 0, Useful(s, i, c));
    if es != [] {
      var s' := Step(s, es[0]);
      StepKeepsFlags(s, es[0]);
      assert FixedRun(s', es[1..], i, c) && FixedSize(s', i, c);
      StepExact(s, es[0], i, c);
      hide StepBytes, StepVisits, Step, Used, Flags, Counters, WholePackets, FixedSize;
      BytesExact(s', es[1..], i, c);
      TimesStep(Visits(s', es[1..], i), StepVisits(s, es[0], i), Useful(s, i, c));
    }
  }

  // ---------------------------------------------------------------- the gap follows the visits

  /** Bytes of i against bytes of j, each weighted with the other's quantum. */
  ghost function Gap(s: Port, es: seq<Event>, i: nat, j: nat): int
    requires Shape(s) && i < |s.queues| && j < |s.queues|
  {
    Times(SentBytes(s, es, i), s.queues[j].quantum) - Times(SentBytes(s, es, j), s.queues[i].quantum)
  }

  /** What a pair of visits adds to the gap. */
  ghost function Drift(s: Port, i: nat, j: nat, ci: nat, cj: nat): int
    requires i < |s.queues| && j < |s.queues| && ci > 0 && cj > 0
  {
    Times(Useful(s, i, ci), s.queues[j].quantum) - Times(Useful(s, j, cj), s.queues[i].quantum)
  }

  /** Both queues backlogged with fixed sizes, and quanta that admit them. */
  ghost predicate Paired(s: Port, i: nat, j: nat, ci: nat, cj: nat)
  {
    && Flags(s) && Counters(s) && i != j && FixedSize(s, i, ci) && FixedSize(s, j, cj)
    && 0 < ci <= s.queues[i].quantum && 0 < cj <= s.queues[j].quantum
  }

  lemma Expand(v: int, u: int, x: int, q: int)
    ensures Times(Times(v, u) + x, q) == Times(v, Times(u, q)) + Times(x, q)
  {
    TimesSum(Times(v, u), x, q);
    assert (v * u) * q == v * (u * q);
  }

  lemma TimesLess(v: int, a: int, b: int)
    ensures Times(v, a - b) == Times(v, a) - Times(v, b)
  {
    Distribute(v, a, -b);
  }

  lemma TimesWithin(x: int, m: int, q: nat)
    requires -m <= x <= m
    ensures -Times(m, q) <= Times(x, q) <= Times(m, q)
  {
    TimesMono(x, m, q);
    TimesMono(-m, x, q);
    TimesSum(-m, m, q);
  }

  lemma GapArithmetic(a: int, b: int, vi: int, vj: int, ui: int, uj: int, xi: int, xj: int, qi: nat, qj: nat)
    requires a == Times(vi, ui) + xi && b == Times(vj, uj) + xj && -1 <= vi - vj <= 1
    requires -ui <= xi <= ui <= qi && -uj <= xj <= uj <= qj
    ensures var off := Times(a, qj) - Times(b, qi) - Times(vi, Times(ui, qj) - Times(uj, qi));
            -3 * Times(qi, qj) <= off <= 3 * Times(qi, qj)
  {
    var lost := Times(uj, qi);
    Expand(vi, ui, xi, qj);
    Expand(vj, uj, xj, qi);
    TimesLess(vi, Times(ui, qj), lost);
    TimesSum(vi - vj, vj, lost);
    TimesWithin(xi, qi, qj);
    TimesWithin(xj, qj, qi);
    TimesWithin(uj, qj, qi);
    TimesMono(0, uj, qi);
    TimesSum(0, 0, qi);
    TimesWithin(vi - vj, 1, lost);
    assert Times(1, lost) == lost && Times(qj, qi) == Times(qi, qj);
    hide Times;
  }

  /** With fixed packet sizes the gap follows the visits: it is the drift times the completed visits, up
      to a constant that does not depend on the run. */
  lemma GapFollowsVisits(s: Port, es: seq<Event>, i: nat, j: nat, ci: nat, cj: nat)
    requires Paired(s, i, j, ci, cj) && FixedRun(s, es, i, ci) && FixedRun(s, es, j, cj)
    ensures var off := Gap(s, es, i, j) - Times(Visits(s, es, i), Drift(s, i, j, ci, cj));
            var slack := 3 * Times(s.queues[i].quantum, s.queues[j].quantum);
            -slack <= off <= slack
  {
    BytesExact(s, es, i, ci);
    BytesExact(s, es, j, cj);
    VisitsAlternate(s, es, i, j);
    var s' := Run(s, es);
    UsedRange(s, i, ci);
    UsedRange(s', i, ci);
    UsedRange(s, j, cj);
    UsedRange(s', j, cj);
    hide Times, Run, FixedRun, FixedSize, Flags, Counters, Used, SentBytes, Visits;
    assert Useful(s', i, ci) == Useful(s, i, ci) && Useful(s', j, cj) == Useful(s, j, cj);
    hide Useful;
    GapArithmetic(SentBytes(s, es, i), SentBytes(s, es, j), Visits(s, es, i), Visits(s, es, j),
                  Useful(s, i, ci), Useful(s, j, cj), Used(s', i, ci) - Used(s, i, ci), Used(s', j, cj) - Used(s, j, cj),
                  s.queues[i].quantum, s.queues[j].quantum);
  }

  // ---------------------------------------------------------------- runs of whole calls

  /** Whether deque is under way after this event: an iteration that sends ends the call. */
  ghost predicate BusyAfter(s: Port, e: Event)
    requires Shape(s)
  {
    e.Iterate? && !Fits(s)
  }

  /** Nothing arrives during a call, and a call enters its loop only on a non-empty port. */
  ghost predicate MayHappen(s: Port, e: Event, busy: bool)
  {
    if e.Arrive? then !busy else busy || TotalByteLength(s.queues) > 0
  }

  /** es is what a single thread can do: it starts within a call iff busy and ends within one iff end. */
  ghost predicate Serial(s: Port, es: seq<Event>, busy: bool, end: bool)
    requires Shape(s)
    decreases |es|
  {
    if es == [] then busy == end
    else MayHappen(s, es[0], busy) && Serial(Step(s, es[0]), es[1..], BusyAfter(s, es[0]), end)
  }

  /** es consists of enqueues and whole dequeues. */
  ghost predicate Calls(s: Port, es: seq<Event>)
    requires Shape(s)
  {
    Serial(s, es, false, false)
  }

  /** The iterations of a dequeue on a non-empty port, from the first to the one that sends, are a call. */
  lemma {:induction false} DequeIsCall(s: Port, k: nat, j: nat)
    requires Shape(s) && SendsAfter(s, k) && j <= k && TotalByteLength(s.queues) > 0
    ensures Serial(PassOnTimes(s, j), Iterates(k - j + 1), j > 0, false)
    decreases k - j
  {
    var t, rest := PassOnTimes(s, j), Iterates(k - j);
    StartOfScan(s);
    assert Iterates(k - j + 1) == [Iterate] + rest;
    assert MayHappen(t, Iterate, j > 0) && (Fits(t) <==> j == k);
    assert Step(t, Iterate) == if j == k then Send(t) else PassOnTimes(s, j + 1);
    assert BusyAfter(t, Iterate) == (j < k);
    hide Serial, Send, PassOn, PassOnTimes, Step, Fits, MayHappen, BusyAfter, SendsAfter, TotalByteLength;
    SerialUnfolds(t, Iterate, rest, j > 0, false);
    if j < k {
      DequeIsCall(s, k, j + 1);
    } else {
      SerialEnds(Step(t, Iterate), false);
    }
  }

  lemma SerialUnfolds(s: Port, e: Event, rest: seq<Event>, busy: bool, end: bool)
    requires Shape(s)
    ensures Serial(s, [e] + rest, busy, end) <==> MayHappen(s, e, busy) && Serial(Step(s, e), rest, BusyAfter(s, e), end)
  {
    assert ([e] + rest)[1..] == rest;
    hide MayHappen, Step, BusyAfter;
  }

  lemma SerialEnds(s: Port, busy: bool)
    requires Shape(s)
    ensures Serial(s, [], busy, busy)
  {}

  /** es keeps both queues backlogged with their sizes. */
  ghost predicate Feeds(s: Port, es: seq<Event>, i: nat, j: nat, ci: nat, cj: nat)
    requires Shape(s)
  {
    FixedRun(s, es, i, ci) && FixedRun(s, es, j, cj)
  }

  // ---------------------------------------------------------------- runs with many visits

  lemma {:induction false} Concat(s: Port, a: seq<Event>, b: seq<Event>, i: nat, c: nat)
    requires Shape(s)
    ensures Run(s, a + b) == Run(Run(s, a), b)
    ensures Visits(s, a + b, i) == Visits(s, a, i) + Visits(Run(s, a), b, i)
    ensures FixedRun(s, a, i, c) && FixedRun(Run(s, a), b, i, c) ==> FixedRun(s, a + b, i, c)
    decreases |a|
  {
    if a == [] {
      assert a + b == b;
    } else {
      assert (a + b)[1..] == a[1..] + b;
      Concat(Step(s, a[0]), a[1..], b, i, c);
      hide Step, StepVisits, FixedSize;
    }
  }

  lemma {:induction false} SerialConcat(s: Port, a: seq<Event>, b: seq<Event>, busy: bool, mid: bool, end: bool)
    requires Shape(s) && Serial(s, a, busy, mid) && Serial(Run(s, a), b, mid, end)
    ensures Serial(s, a + b, busy, end)
    decreases |a|
  {
    if a == [] {
      assert a + b == b;
    } else {
      assert (a + b)[1..] == a[1..] + b;
      SerialConcat(Step(s, a[0]), a[1..], b, BusyAfter(s, a[0]), mid, end);
      hide Step, BusyAfter, MayHappen;
    }
  }

  /** Both queues backlogged and, during a call, with a packet to spare. */
  ghost predicate Ready(s: Port, busy: bool, i: nat, j: nat, ci: nat, cj: nat)
  {
    && Paired(s, i, j, ci, cj) && |s.queues| > 1
    && (busy ==> |s.queues[i].pkts| > 1 && |s.queues[j].pkts| > 1)
  }

  /** es leads from one such state to another and visits i at least v times. */
  ghost predicate Leads(s: Port, busy: bool, es: seq<Event>, end: bool, v: nat, i: nat, j: nat, ci: nat, cj: nat)
  {
    && Shape(s) && Feeds(s, es, i, j, ci, cj) && Serial(s, es, busy, end) && Ready(Run(s, es), end, i, j, ci, cj)
    && |Run(s, es).queues| == |s.queues| && Visits(s, es, i) >= v
  }

  lemma LeadsJoin(s: Port, b0: bool, a: seq<Event>, b1: bool, v: nat, b: seq<Event>, b2: bool, w: nat,
                  i: nat, j: nat, ci: nat, cj: nat)
    requires Leads(s, b0, a, b1, v, i, j, ci, cj) && Leads(Run(s, a), b1, b, b2, w, i, j, ci, cj)
    ensures Leads(s, b0, a + b, b2, v + w, i, j, ci, cj) && Run(s, a + b) == Run(Run(s, a), b)
  {
    hide Ready, FixedRun, Serial, Run, Visits;
    Concat(s, a, b, i, ci);
    Concat(s, a, b, j, cj);
    SerialConcat(s, a, b, b0, b1, b2);
  }

  lemma LeadsNowhere(s: Port, busy: bool, i: nat, j: nat, ci: nat, cj: nat)
    requires Ready(s, busy, i, j, ci, cj)
    ensures Leads(s, busy, [], busy, 0, i, j, ci, cj) && Run(s, []) == s
  {}

  /** A run of one event. */
  lemma LeadsOne(s: Port, busy: bool, e: Event, i: nat, j: nat, ci: nat, cj: nat)
    requires Ready(s, busy, i, j, ci, cj) && MayHappen(s, e, busy)
    requires Ready(Step(s, e), BusyAfter(s, e), i, j, ci, cj) && |Step(s, e).queues| == |s.queues|
    ensures Leads(s, busy, [e], BusyAfter(s, e), StepVisits(s, e, i), i, j, ci, cj) && Run(s, [e]) == Step(s, e)
  {
    var s', one := Step(s, e), [e];
    assert one[1..] == [];
    assert FixedSize(s, i, ci) && FixedSize(s, j, cj) && FixedSize(s', i, ci) && FixedSize(s', j, cj);
    hide Flags, Counters, FixedSize, Step, BusyAfter, MayHappen, StepVisits;
    assert Run(s', []) == s' && Visits(s', [], i) == 0;
    assert FixedRun(s', [], i, ci) && FixedRun(s', [], j, cj);
    assert Serial(s', [], BusyAfter(s, e), BusyAfter(s, e));
    assert Run(s, one) == s' && Visits(s, one, i) == StepVisits(s, e, i);
    assert Serial(s, one, busy, BusyAfter(s, e));
  }

  /** The longest the current queue can go on sending without an arrival, or on its counter. */
  ghost function Effort(s: Port, i: nat, j: nat): nat
    requires Shape(s)
  {
    var q := s.queues[s.current];
    if s.current != i && s.current != j then |q.pkts| else if Visit(q).counter >= 0 then Visit(q).counter else 0
  }

  /** One packet of size c more for queue k, within the limit. */
  function Feed(s: Port, k: nat, c: nat): Event
  {
    Arrive(k, Packet(0, c), TotalByteLength(s.queues) + c)
  }

  lemma FeedOne(s: Port, k: nat, c: nat, i: nat, j: nat, ci: nat, cj: nat)
    requires Ready(s, false, i, j, ci, cj) && ((k == i && c == ci) || (k == j && c == cj))
    ensures var s1 := Step(s, Feed(s, k, c));
            && Leads(s, false, [Feed(s, k, c)], false, 0, i, j, ci, cj) && Run(s, [Feed(s, k, c)]) == s1
            && Ready(s1, false, i, j, ci, cj) && s1.current == s.current && |s1.queues| == |s.queues|
            && Effort(s1, i, j) == Effort(s, i, j)
            && |s1.queues[k].pkts| > 1 && forall n :: 0 <= n < |s.queues| ==> |s1.queues[n].pkts| >= |s.queues[n].pkts|
  {
    var e := Feed(s, k, c);
    var s1 := Step(s, e);
    assert s1 == s.(queues := s.queues[k := s.queues[k].(pkts := s.queues[k].pkts + [Packet(0, c)])]);
    assert Ready(s1, false, i, j, ci, cj) by {
      hide TotalByteLength, Enque;
    }
    assert MayHappen(s, e, false) && !BusyAfter(s, e) && StepVisits(s, e, i) == 0;
    assert Effort(s1, i, j) == Effort(s, i, j);
    hide Ready, TotalByteLength, Enque, Feed, Step, BusyAfter, MayHappen, StepVisits, Effort, Leads;
    LeadsOne(s, false, e, i, j, ci, cj);
  }

  /** Before a call both queues are fed. */
  lemma FeedBoth(s: Port, i: nat, j: nat, ci: nat, cj: nat) returns (es: seq<Event>)
    requires Ready(s, false, i, j, ci, cj)
    ensures Leads(s, false, es, false, 0, i, j, ci, cj)
    ensures var s' := Run(s, es);
            s'.current == s.current && Effort(s', i, j) == Effort(s, i, j) && Ready(s', true, i, j, ci, cj)
  {
    assert Shape(s);
    var s1 := Step(s, Feed(s, i, ci));
    FeedOne(s, i, ci, i, j, ci, cj);
    FeedOne(s1, j, cj, i, j, ci, cj);
    var s2 := Step(s1, Feed(s1, j, cj));
    hide Paired, Step, Feed, Leads, Run, Effort;
    es := [Feed(s, i, ci)] + [Feed(s1, j, cj)];
    LeadsJoin(s, false, [Feed(s, i, ci)], false, 0, [Feed(s1, j, cj)], false, 0, i, j, ci, cj);
  }

  lemma {:induction false} TotalCounts(qs: seq<Queue>, k: nat)
    requires k < |qs|
    ensures TotalByteLength(qs) >= Bytes(qs[k].pkts)
  {
    if k > 0 {
      TotalCounts(qs[1..], k - 1);
    }
  }

  lemma PortNotEmpty(s: Port, i: nat, c: nat)
    requires FixedSize(s, i, c) && c > 0
    ensures TotalByteLength(s.queues) > 0
  {
    TotalCounts(s.queues, i);
  }

  /** An iteration ends the current visit or leaves less effort. */
  ghost predicate Advances(s: Port, s': Port, visits: nat, i: nat, j: nat)
    requires Shape(s) && Shape(s')
  {
    if s'.current == s.current then Effort(s', i, j) < Effort(s, i, j)
    else s'.current == Next(s.current, |s.queues|) && (s.current == i ==> visits >= 1)
  }

  lemma IterateAdvances(s: Port, i: nat, j: nat, ci: nat, cj: nat)
    requires Ready(s, true, i, j, ci, cj)
    ensures Advances(s, Step(s, Iterate), StepVisits(s, Iterate, i), i, j)
    ensures |Step(s, Iterate).queues| == |s.queues|
  {
    NextMoves(s.current, |s.queues|);
    hide Flags, Next, TotalByteLength;
  }

  lemma IterateKeepsReady(s: Port, i: nat, j: nat, ci: nat, cj: nat)
    requires Ready(s, true, i, j, ci, cj)
    ensures Ready(Step(s, Iterate), BusyAfter(s, Iterate), i, j, ci, cj)
  {
    StepKeepsFlags(s, Iterate);
    hide Next, Flags, Counters;
  }

  lemma OneIteration(s: Port, busy: bool, i: nat, j: nat, ci: nat, cj: nat)
    requires Ready(s, true, i, j, ci, cj)
    ensures Leads(s, busy, [Iterate], BusyAfter(s, Iterate), StepVisits(s, Iterate, i), i, j, ci, cj)
    ensures Run(s, [Iterate]) == Step(s, Iterate)
  {
    PortNotEmpty(s, i, ci);
    IterateKeepsReady(s, i, j, ci, cj);
    IterateAdvances(s, i, j, ci, cj);
    assert Ready(s, busy, i, j, ci, cj) && MayHappen(s, Iterate, busy);
    hide Ready, Leads, Step, BusyAfter, StepVisits, TotalByteLength, Advances;
    LeadsOne(s, busy, Iterate, i, j, ci, cj);
  }

  /** Feed if no call is under way, then iterate once. */
  lemma Nudge(s: Port, busy: bool, i: nat, j: nat, ci: nat, cj: nat) returns (es: seq<Event>, end: bool, v: nat)
    requires Ready(s, busy, i, j, ci, cj)
    ensures Leads(s, busy, es, end, v, i, j, ci, cj) && Advances(s, Run(s, es), v, i, j)
  {
    assert Shape(s);
    hide Leads, Effort, Step, StepVisits, Run, Next, Fits;
    var s1 := s;
    es := [];
    if !busy {
      es := FeedBoth(s, i, j, ci, cj);
      s1 := Run(s, es);
      assert |s1.queues| == |s.queues| by { LeadsSize(s, busy, es, false, 0, i, j, ci, cj); }
    } else {
      LeadsNowhere(s, busy, i, j, ci, cj);
    }
    hide Ready;
    assert Shape(s1);
    OneIteration(s1, busy, i, j, ci, cj);
    IterateAdvances(s1, i, j, ci, cj);
    end, v := BusyAfter(s1, Iterate), StepVisits(s1, Iterate, i);
    LeadsJoin(s, busy, es, busy, 0, [Iterate], end, v, i, j, ci, cj);
    es := es + [Iterate];
  }

  lemma LeadsSize(s: Port, busy: bool, es: seq<Event>, end: bool, v: nat, i: nat, j: nat, ci: nat, cj: nat)
    requires Leads(s, busy, es, end, v, i, j, ci, cj)
    ensures Shape(s) && |Run(s, es).queues| == |s.queues| && Ready(Run(s, es), end, i, j, ci, cj)
  {}

  lemma NextMoves(k: nat, n: nat)
    requires k < n
    ensures n > 1 ==> Next(k, n) != k
    ensures n == 1 ==> Next(k, n) == k
  {
    NextIs(k, n);
  }

  lemma LeaveCurrent(s: Port, busy: bool, i: nat, j: nat, ci: nat, cj: nat) returns (es: seq<Event>, end: bool, v: nat)
    requires Ready(s, busy, i, j, ci, cj)
    ensures Leads(s, busy, es, end, v, i, j, ci, cj)
    ensures Run(s, es).current == Next(s.current, |s.queues|) && (s.current == i ==> v >= 1)
    decreases Effort(s, i, j)
  {
    assert Shape(s);
    hide Leads, Effort, Run, Next, Ready, Shape;
    es, end, v := Nudge(s, busy, i, j, ci, cj);
    LeadsSize(s, busy, es, end, v, i, j, ci, cj);
    var s' := Run(s, es);
    if s'.current == s.current {
      var more, end', w := LeaveCurrent(s', end, i, j, ci, cj);
      LeadsJoin(s, busy, es, end, v, more, end', w, i, j, ci, cj);
      es, end, v := es + more, end', v + w;
    }
  }

  lemma VisitOnce(s: Port, busy: bool, i: nat, j: nat, ci: nat, cj: nat) returns (es: seq<Event>, end: bool)
    requires Ready(s, busy, i, j, ci, cj)
    ensures Leads(s, busy, es, end, 1, i, j, ci, cj)
    decreases Distance(s.current, i, |s.queues|)
  {
    var v;
    es, end, v := LeaveCurrent(s, busy, i, j, ci, cj);
    NextIs(s.current, |s.queues|);
    LeadsSize(s, busy, es, end, v, i, j, ci, cj);
    if s.current != i {
      hide Run, Ready, Leads;
      var more, end' := VisitOnce(Run(s, es), end, i, j, ci, cj);
      LeadsJoin(s, busy, es, end, v, more, end', 1, i, j, ci, cj);
      LeadsFewer(s, busy, es + more, end', v + 1, 1, i, j, ci, cj);
      es, end := es + more, end';
    } else {
      LeadsFewer(s, busy, es, end, v, 1, i, j, ci, cj);
    }
  }

  lemma LeadsFewer(s: Port, busy: bool, es: seq<Event>, end: bool, v: nat, w: nat, i: nat, j: nat, ci: nat, cj: nat)
    requires Leads(s, busy, es, end, v, i, j, ci, cj) && w <= v
    ensures Leads(s, busy, es, end, w, i, j, ci, cj)
  {}

  lemma {:induction false} PassOnFirst(s: Port, k: nat)
    requires Shape(s)
    ensures PassOnTimes(PassOn(s), k) == PassOnTimes(s, k + 1)
  {
    if k > 0 {
      PassOnFirst(s, k - 1);
    } else {
      assert PassOnTimes(s, 0) == s;
    }
    hide PassOn;
  }

  /** A call under way comes to its end: some queue can send within k more passes. */
  lemma FinishCall(s: Port, k: nat, i: nat, j: nat, ci: nat, cj: nat) returns (es: seq<Event>)
    requires Ready(s, true, i, j, ci, cj) && Fits(PassOnTimes(s, k))
    ensures Leads(s, true, es, false, 0, i, j, ci, cj)
    decreases k
  {
    assert Shape(s) && PassOnTimes(s, 0) == s;
    OneIteration(s, true, i, j, ci, cj);
    es := [Iterate];
    hide Ready, Leads, Run, PassOn, PassOnTimes, StepVisits;
    LeadsSize(s, true, es, BusyAfter(s, Iterate), StepVisits(s, Iterate, i), i, j, ci, cj);
    if Fits(s) {
      LeadsFewer(s, true, es, false, StepVisits(s, Iterate, i), 0, i, j, ci, cj);
    } else {
      PassOnFirst(s, k - 1);
      var more := FinishCall(PassOn(s), k - 1, i, j, ci, cj);
      LeadsJoin(s, true, es, true, StepVisits(s, Iterate, i), more, false, 0, i, j, ci, cj);
      LeadsFewer(s, true, es + more, false, StepVisits(s, Iterate, i) + 0, 0, i, j, ci, cj);
      es := es + more;
    }
  }

  lemma Finish(s: Port, busy: bool, i: nat, j: nat, ci: nat, cj: nat) returns (es: seq<Event>)
    requires Ready(s, busy, i, j, ci, cj)
    ensures Leads(s, busy, es, false, 0, i, j, ci, cj)
  {
    if busy {
      assert Affordable(s, i);
      var k := ServableFits(s);
      es := FinishCall(s, k, i, j, ci, cj);
    } else {
      es := [];
      LeadsNowhere(s, false, i, j, ci, cj);
    }
  }

  lemma {:induction false} VisitMany(s: Port, busy: bool, i: nat, j: nat, ci: nat, cj: nat, n: nat)
    returns (es: seq<Event>, end: bool)
    requires Ready(s, busy, i, j, ci, cj)
    ensures Leads(s, busy, es, end, n, i, j, ci, cj)
    decreases n
  {
    assert Shape(s);
    hide Leads, Ready, Run, Shape;
    if n == 0 {
      es, end := [], busy;
      LeadsNowhere(s, busy, i, j, ci, cj);
    } else {
      es, end := VisitOnce(s, busy, i, j, ci, cj);
      LeadsSize(s, busy, es, end, 1, i, j, ci, cj);
      var more, end' := VisitMany(Run(s, es), end, i, j, ci, cj, n - 1);
      LeadsJoin(s, busy, es, end, 1, more, end', n - 1, i, j, ci, cj);
      es, end := es + more, end';
    }
  }

  /** From every state with both queues backlogged, whatever the others hold, some run of enqueues and
      whole dequeues that keeps them so completes n visits to queue i. */
  lemma VisitOften(s: Port, i: nat, j: nat, ci: nat, cj: nat, n: nat) returns (es: seq<Event>)
    requires Paired(s, i, j, ci, cj)
    ensures Calls(s, es) && Feeds(s, es, i, j, ci, cj) && Paired(Run(s, es), i, j, ci, cj) && Visits(s, es, i) >= n
  {
    assert Ready(s, false, i, j, ci, cj);
    var many, end := VisitMany(s, false, i, j, ci, cj, n);
    LeadsSize(s, false, many, end, n, i, j, ci, cj);
    var rest := Finish(Run(s, many), end, i, j, ci, cj);
    LeadsJoin(s, false, many, end, n, rest, false, 0, i, j, ci, cj);
    es := many + rest;
    hide Run, Visits, Feeds, Serial, Paired;
  }

  // ---------------------------------------------------------------- when a constant bounds the gap

  /** The gap stays within k over every run of whole calls that keeps both queues backlogged with their
      sizes. */
  ghost predicate GapWithin(s: Port, i: nat, j: nat, ci: nat, cj: nat, k: nat)
    requires Shape(s) && i < |s.queues| && j < |s.queues|
  {
    forall es :: Calls(s, es) && Feeds(s, es, i, j, ci, cj) ==> -(k as int) <= Gap(s, es, i, j) <= k
  }

  lemma TimesGrows(v: nat, d: int)
    ensures d >= 1 ==> Times(v, d) >= v
    ensures d <= -1 ==> Times(v, d) <= -(v as int)
    ensures d == 0 ==> Times(v, d) == 0
  {
    if d >= 1 {
      MulLe(1, d, v);
    } else if d <= -1 {
      MulLe(d, -1, v);
    }
  }

  /** Packets of fixed sizes: a constant bounds the difference of two backlogged queues in proportion to
      their quanta if and only if what a visit can use of either quantum is in that proportion. */
  lemma BoundedExact(s: Port, i: nat, j: nat, ci: nat, cj: nat)
    requires Paired(s, i, j, ci, cj)
    ensures (exists k: nat :: GapWithin(s, i, j, ci, cj, k)) <==> Drift(s, i, j, ci, cj) == 0
  {
    var d := Drift(s, i, j, ci, cj);
    var slack := 3 * Times(s.queues[i].quantum, s.queues[j].quantum);
    assert slack >= 0;
    hide Times, Gap, Drift, Paired, FixedRun, Calls;
    if d == 0 {
      forall es | Calls(s, es) && Feeds(s, es, i, j, ci, cj) ensures -slack <= Gap(s, es, i, j) <= slack {
        GapFollowsVisits(s, es, i, j, ci, cj);
        TimesGrows(Visits(s, es, i), d);
      }
      assert GapWithin(s, i, j, ci, cj, slack);
    } else if k: nat :| GapWithin(s, i, j, ci, cj, k) {
      var es := VisitOften(s, i, j, ci, cj, k + slack + 1);
      GapFollowsVisits(s, es, i, j, ci, cj);
      TimesGrows(Visits(s, es, i), d);
      assert false;
    }
  }

  // ---------------------------------------------------------------- no constant bound: an instance

  function Small(): Packet { Packet(0, 1000) }
  function Large(): Packet { Packet(0, 1500) }

  function TwoQueues(a: seq<Packet>, ua: bool, b: seq<Packet>, ub: bool, current: nat): Port
  {
    Port([Queue(a, 1500, 500, ua), Queue(b, 1500, 0, ub)], current)
  }

  function Uneven(): Port
  {
    TwoQueues([Small()], false, [Large()], true, 1)
  }

  /** Halfway: queue 0 has sent and is next to pass on. */
  function Halfway(): Port
  {
    TwoQueues([Small()], true, [Large()], false, 0)
  }

  function UnevenRounds(n: nat): seq<Event>
    decreases n, 1
  {
    if n == 0 then []
    else [Arrive(0, Small(), 10000)] + ([Iterate] + ([Iterate] + HalfRound(n)))
  }

  function HalfRound(n: nat): seq<Event>
    requires n > 0
    decreases n, 0
  {
    [Arrive(1, Large(), 10000)] + ([Iterate] + ([Iterate] + UnevenRounds(n - 1)))
  }

  lemma TwoQueuesLength(p: Packet, ua: bool, q: Packet, ub: bool, current: nat)
    ensures TotalByteLength(TwoQueues([p], ua, [q], ub, current).queues) == p.size + q.size
  {
    var queues := TwoQueues([p], ua, [q], ub, current).queues;
    assert Bytes([p]) == p.size && Bytes([q]) == q.size;
    assert queues == [queues[0]] + [queues[1]];
    assert TotalByteLength([queues[1]]) == Bytes([q]);
  }

  lemma Arrives(p: Packet, ua: bool, q: Packet, ub: bool, current: nat)
    requires p.size + q.size <= 5000 && current < 2
    ensures var s := TwoQueues([p], ua, [q], ub, current);
            && Step(s, Arrive(0, p, 10000)) == TwoQueues([p, p], ua, [q], ub, current)
            && Step(s, Arrive(1, q, 10000)) == TwoQueues([p], ua, [q, q], ub, current)
  {
    TwoQueuesLength(p, ua, q, ub, current);
    assert [p] + [p] == [p, p] && [q] + [q] == [q, q];
    hide TotalByteLength;
  }

  lemma FirstEvent(s: Port, e: Event, rest: seq<Event>, s': Port)
    requires Shape(s) && |s.queues| == 2 && Step(s, e) == s'
    ensures forall i: nat :: SentBytes(s, [e] + rest, i) == StepBytes(s, e, i) + SentBytes(s', rest, i)
    ensures forall i: nat, m :: Backlogged(s, [e] + rest, i, m) <==>
              i < 2 && s.queues[i].pkts != [] && s.queues[i].pkts[0].size <= m && Backlogged(s', rest, i, m)
    ensures forall b: bool :: Serial(s, [e] + rest, b, false) <==> MayHappen(s, e, b) && Serial(s', rest, BusyAfter(s, e), false)
  {
    assert ([e] + rest)[1..] == rest;
  }

  /** Both stay backlogged and send this much, in whole calls. */
  ghost predicate Sends(s: Port, es: seq<Event>, sent0: nat, sent1: nat)
    requires Shape(s)
  {
    && Backlogged(s, es, 0, 1500) && Backlogged(s, es, 1, 1500)
    && SentBytes(s, es, 0) == sent0 && SentBytes(s, es, 1) == sent1 && Calls(s, es)
  }

  lemma FirstHalf(n: nat, sent0: nat, sent1: nat)
    requires n > 0 && Sends(Halfway(), HalfRound(n), sent0, sent1)
    ensures Sends(Uneven(), UnevenRounds(n), sent0 + 1000, sent1)
  {
    var a, b := Small(), Large();
    Arrives(a, false, b, true, 1);
    PortNotEmpty(TwoQueues([a, a], false, [b], true, 1), 0, 1000);
    hide SentBytes, Backlogged, Serial, Enque, HalfRound, TotalByteLength;
    var rest := HalfRound(n);
    FirstEvent(Uneven(), Arrive(0, a, 10000), [Iterate] + ([Iterate] + rest), TwoQueues([a, a], false, [b], true, 1));
    FirstEvent(TwoQueues([a, a], false, [b], true, 1), Iterate, [Iterate] + rest, TwoQueues([a, a], false, [b], false, 0));
    FirstEvent(TwoQueues([a, a], false, [b], false, 0), Iterate, rest, Halfway());
  }

  lemma SecondHalf(n: nat, sent0: nat, sent1: nat)
    requires n > 0 && Sends(Uneven(), UnevenRounds(n - 1), sent0, sent1)
    ensures Sends(Halfway(), HalfRound(n), sent0, sent1 + 1500)
  {
    var a, b := Small(), Large();
    Arrives(a, true, b, false, 0);
    PortNotEmpty(TwoQueues([a], true, [b, b], false, 0), 0, 1000);
    hide SentBytes, Backlogged, Serial, Enque, UnevenRounds, TotalByteLength;
    var rest := UnevenRounds(n - 1);
    FirstEvent(Halfway(), Arrive(1, b, 10000), [Iterate] + ([Iterate] + rest), TwoQueues([a], true, [b, b], false, 0));
    FirstEvent(TwoQueues([a], true, [b, b], false, 0), Iterate, [Iterate] + rest, TwoQueues([a], false, [b, b], false, 1));
    FirstEvent(TwoQueues([a], false, [b, b], false, 1), Iterate, rest, Uneven());
  }

  /** Unlike deficit round robin: with equal quanta and both queues backlogged, the gap grows by 500
      bytes a round, for any number of rounds. */
  lemma {:induction false} GapGrows(n: nat)
    ensures Calls(Uneven(), UnevenRounds(n))
    ensures Backlogged(Uneven(), UnevenRounds(n), 0, 1500) && Backlogged(Uneven(), UnevenRounds(n), 1, 1500)
    ensures SentBytes(Uneven(), UnevenRounds(n), 0) == 1000 * n
    ensures SentBytes(Uneven(), UnevenRounds(n), 1) == 1500 * n
  {
    if n > 0 {
      GapGrows(n - 1);
      SecondHalf(n, 1000 * (n - 1), 1500 * (n - 1));
      FirstHalf(n, 1000 * (n - 1), 1500 * n);
    }
  }
}
