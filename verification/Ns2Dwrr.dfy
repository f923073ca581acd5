/** The NS2 deficit weighted round robin queue (class DWRR): the scheduler as a state machine, and
    what holds over whole runs of it.  Ns2DwrrHeap.dfy refines it to the pointer list. */
module Ns2Dwrr {
  import opened ActiveOrder
  import opened Ns2Packets

  datatype Queue = Queue(pkts: seq<Packet>, quantum: int, deficit: int, active: bool, current: bool)

  /** order is the active list, head first. */
  datatype Sched = Sched(qs: seq<Queue>, order: seq<nat>, quantumSum: int)

  datatype Outcome = Sent(queue: nat, pkt: Packet) | Nothing

  // ---------------------------------------------------------------- the transitions

  function TotalByteLength(qs: seq<Queue>): nat
  {
    if qs == [] then 0 else Bytes(qs[0].pkts) + TotalByteLength(qs[1..])
  }

  function Activate(q: Queue): Queue
  {
    q.(deficit := 0, active := true, current := false)
  }

  /** Receive a packet, or drop it when the shared buffer would overflow. */
  function Enque(s: Sched, prio: int, p: Packet, qlimBytes: int): Sched
    requires |s.qs| > 0
  {
    if TotalByteLength(s.qs) + p.size > qlimBytes then s
    else
      var k := Classify(prio, |s.qs|);
      var q := s.qs[k].(pkts := s.qs[k].pkts + [p]);
      if q.active then s.(qs := s.qs[k := q])
      else Sched(s.qs[k := Activate(q)], s.order + [k], s.quantumSum + q.quantum)
  }

  /** The first visit of a round adds the quantum. */
  function Grant(q: Queue): Queue
  {
    if q.current then q else q.(deficit := q.deficit + q.quantum, current := true)
  }

  function GrantHead(s: Sched): Sched
    requires Listed(s) && s.order != []
  {
    s.(qs := s.qs[s.order[0] := Grant(s.qs[s.order[0]])])
  }

  /** Send the head packet; an emptied queue leaves the list and forfeits its deficit. */
  function ServeHead(s: Sched): Sched
    requires Listed(s) && s.order != [] && s.qs[s.order[0]].pkts != []
  {
    var h := s.order[0];
    var q := s.qs[h].(pkts := s.qs[h].pkts[1..], deficit := s.qs[h].deficit - s.qs[h].pkts[0].size);
    if q.pkts == [] then
      Sched(s.qs[h := q.(deficit := 0, active := false, current := false)], s.order[1..], s.quantumSum - q.quantum)
    else s.(qs := s.qs[h := q])
  }

  /** End the head's turn. */
  function RotateHead(s: Sched): Sched
    requires Listed(s) && s.order != []
  {
    var h := s.order[0];
    s.(qs := s.qs[h := s.qs[h].(current := false)], order := s.order[1..] + [h])
  }

  predicate CanServe(s: Sched)
    requires Listed(s) && s.order != []
  {
    var q := s.qs[s.order[0]];
    q.pkts != [] && q.pkts[0].size <= q.deficit
  }

  /** The while(1) loop of deque. */
  ghost function Loop(s: Sched): (Sched, Outcome)
    requires Wf(s) && s.order != []
    decreases Shortfall(s), if s.qs[s.order[0]].current then 1 else 0
  {
    GrantKeepsWf(s);
    var g := GrantHead(s);
    if CanServe(g) then (ServeHead(g), Sent(g.order[0], g.qs[g.order[0]].pkts[0]))
    else
      RotateProgress(s);
      Loop(RotateHead(g))
  }

  ghost function Deque(s: Sched): (Sched, Outcome)
    requires Wf(s)
  {
    if TotalByteLength(s.qs) > 0 then (BacklogIsListed(s); Loop(s)) else (s, Nothing)
  }

  // ---------------------------------------------------------------- the invariant

  ghost predicate Listed(s: Sched)
  {
    forall k :: 0 <= k < |s.order| ==> s.order[k] < |s.qs|
  }

  ghost predicate QueueOk(q: Queue)
  {
    && q.quantum > 0
    && (forall k :: 0 <= k < |q.pkts| ==> q.pkts[k].size > 0)
    && (q.active <==> q.pkts != [])
    && (!q.active ==> q.deficit == 0 && !q.current)
    && q.deficit >= 0
  }

  /** A waiting queue cannot afford its head packet. */
  ghost predicate Short(q: Queue)
  {
    !q.current && (q.pkts != [] ==> q.deficit < q.pkts[0].size)
  }

  ghost function ActiveQuantum(q: Queue): int
  {
    if q.active then q.quantum else 0
  }

  ghost function ActiveQuanta(qs: seq<Queue>): seq<int>
  {
    seq(|qs|, k requires 0 <= k < |qs| => ActiveQuantum(qs[k]))
  }

  /** The active list holds exactly the non-empty queues, once each; every queue is in order; all
      but a current head are short; the quantum sum is that of the active queues. */
  ghost predicate Wf(s: Sched)
  {
    && Shape(s)
    && (forall k :: 0 <= k < |s.qs| ==> s.qs[k].current || Short(s.qs[k]))
  }

  ghost predicate Shape(s: Sched)
  {
    && |s.qs| > 0
    && Listed(s) && Distinct(s.order)
    && (forall k :: 0 <= k < |s.qs| ==> QueueOk(s.qs[k]))
    && (forall k :: 0 <= k < |s.qs| ==> (s.qs[k].active <==> k in s.order))
    && (forall k :: 0 <= k < |s.qs| && s.qs[k].current ==> s.order != [] && s.order[0] == k)
    && s.quantumSum == Sum(ActiveQuanta(s.qs))
  }

  /** Sizes are at most maxSize, and a current queue holds less than a quantum plus a packet. */
  ghost predicate Bounded(s: Sched, maxSize: nat)
  {
    forall k :: 0 <= k < |s.qs| ==> QueueBounded(s.qs[k], maxSize)
  }

  ghost predicate QueueBounded(q: Queue, maxSize: nat)
  {
    && (forall n :: 0 <= n < |q.pkts| ==> q.pkts[n].size <= maxSize)
    && q.deficit < (if q.current then q.quantum else 0) + maxSize
  }

  ghost function Need(q: Queue): int
  {
    if q.pkts != [] && q.deficit < q.pkts[0].size then q.pkts[0].size - q.deficit else 0
  }

  ghost function Needs(qs: seq<Queue>): seq<int>
  {
    seq(|qs|, k requires 0 <= k < |qs| => Need(qs[k]))
  }

  ghost function Shortfall(s: Sched): nat
  {
    SumOfNonNegatives(Needs(s.qs));
    Sum(Needs(s.qs))
  }

  lemma QuantaUpdate(qs: seq<Queue>, k: nat, q: Queue)
    requires k < |qs|
    ensures Sum(ActiveQuanta(qs[k := q])) == Sum(ActiveQuanta(qs)) - ActiveQuantum(qs[k]) + ActiveQuantum(q)
  {
    SumUpdate(ActiveQuanta(qs), k, ActiveQuantum(q));
    assert ActiveQuanta(qs[k := q]) == ActiveQuanta(qs)[k := ActiveQuantum(q)];
  }

  lemma NeedsUpdate(qs: seq<Queue>, k: nat, q: Queue)
    requires k < |qs|
    ensures Sum(Needs(qs[k := q])) == Sum(Needs(qs)) - Need(qs[k]) + Need(q)
  {
    SumUpdate(Needs(qs), k, Need(q));
    assert Needs(qs[k := q]) == Needs(qs)[k := Need(q)];
  }

  lemma {:induction false} SomeBytes(qs: seq<Queue>)
    requires forall k :: 0 <= k < |qs| ==> QueueOk(qs[k])
    ensures TotalByteLength(qs) > 0 <==> exists k :: 0 <= k < |qs| && qs[k].active
  {
    if qs != [] {
      SomeBytes(qs[1..]);
      if TotalByteLength(qs[1..]) > 0 {
        var k :| 0 <= k < |qs[1..]| && qs[1..][k].active;
        assert qs[k + 1].active;
      }
      assert Bytes(qs[0].pkts) > 0 <==> qs[0].active;
      if k :| 0 < k < |qs| && qs[k].active {
        assert qs[1..][k - 1].active;
      }
    }
  }

  /** Bytes are queued exactly when the active list is non-empty, so the loop never meets a null
      or an empty head. */
  lemma BacklogIsListed(s: Sched)
    requires Wf(s)
    ensures TotalByteLength(s.qs) > 0 <==> s.order != []
  {
    SomeBytes(s.qs);
    if s.order != [] {
      assert s.order[0] in s.order && s.qs[s.order[0]].active;
    }
  }

  lemma GrantKeepsWf(s: Sched)
    requires Wf(s) && s.order != []
    ensures Shape(GrantHead(s)) && s.qs[s.order[0]].pkts != []
    ensures var q := GrantHead(s).qs[s.order[0]]; q.current && q.active
    ensures forall k :: 0 <= k < |s.qs| && k != s.order[0] ==> Short(GrantHead(s).qs[k])
  {
    assert s.order[0] in s.order;
    QuantaUpdate(s.qs, s.order[0], Grant(s.qs[s.order[0]]));
  }

  lemma HeadUpdateKeepsWf(s: Sched, q: Queue)
    requires Wf(s) && s.order != []
    requires QueueOk(q) && q.active && (q.current || Short(q)) && q.quantum == s.qs[s.order[0]].quantum
    ensures Wf(s.(qs := s.qs[s.order[0] := q]))
  {
    assert s.order[0] in s.order;
    QuantaUpdate(s.qs, s.order[0], q);
    hide QueueOk, Short, ActiveQuanta, Sum;
  }

  lemma HeadRemovalKeepsWf(s: Sched, q: Queue)
    requires Wf(s) && s.order != []
    requires QueueOk(q) && !q.active && Short(q)
    ensures Wf(Sched(s.qs[s.order[0] := q], s.order[1..], s.quantumSum - s.qs[s.order[0]].quantum))
  {
    assert s.order[0] in s.order;
    QuantaUpdate(s.qs, s.order[0], q);
    DistinctTail(s.order);
    hide QueueOk, Short, ActiveQuanta, Sum;
  }

  lemma ServeKeepsWf(s: Sched)
    requires Wf(s) && s.order != [] && CanServe(GrantHead(s))
    ensures Wf(ServeHead(GrantHead(s)))
  {
    GrantKeepsWf(s);
    var h := s.order[0];
    var g, s' := GrantHead(s), ServeHead(GrantHead(s));
    assert g.qs[h := s'.qs[h]] == s.qs[h := s'.qs[h]];
    assert QueueOk(s.qs[h]) && QueueOk(s'.qs[h]);
    if s'.qs[h].active {
      HeadUpdateKeepsWf(s, s'.qs[h]);
    } else {
      HeadRemovalKeepsWf(s, s'.qs[h]);
    }
    hide Wf;
  }

  lemma RotateKeepsWf(s: Sched)
    requires Wf(s) && s.order != [] && !CanServe(GrantHead(s))
    ensures Wf(RotateHead(GrantHead(s)))
  {
    GrantKeepsWf(s);
    DistinctTail(s.order);
    var g, s' := GrantHead(s), RotateHead(GrantHead(s));
    QuantaUpdate(g.qs, s.order[0], s'.qs[s.order[0]]);
    hide ActiveQuanta, Sum;
  }

  /** The measure: either a shortfall shrinks by a quantum, or a head left over from the last call
      gives up its turn. */
  lemma RotateProgress(s: Sched)
    requires Wf(s) && s.order != [] && !CanServe(GrantHead(s))
    ensures var s' := RotateHead(GrantHead(s));
            && Wf(s') && s'.order != []
            && !s'.qs[s'.order[0]].current
            && (if s.qs[s.order[0]].current then Shortfall(s') == Shortfall(s) else Shortfall(s') < Shortfall(s))
  {
    RotateKeepsWf(s);
    GrantKeepsWf(s);
    var h := s.order[0];
    var s' := RotateHead(GrantHead(s));
    NeedsUpdate(s.qs, h, s'.qs[h]);
    assert s'.qs == s.qs[h := s'.qs[h]];
  }

  lemma AppendKeepsWf(s: Sched, k: nat, q: Queue)
    requires Wf(s) && k < |s.qs| && s.qs[k].active
    requires QueueOk(q) && (q.current || Short(q)) && q.active
    requires q.current == s.qs[k].current && q.quantum == s.qs[k].quantum
    ensures Wf(s.(qs := s.qs[k := q]))
  {
    QuantaUpdate(s.qs, k, q);
    hide QueueOk, Short, ActiveQuanta, Sum;
  }

  lemma ActivateKeepsWf(s: Sched, k: nat, q: Queue)
    requires Wf(s) && k < |s.qs| && !s.qs[k].active
    requires QueueOk(q) && Short(q) && q.active
    ensures Wf(Sched(s.qs[k := q], s.order + [k], s.quantumSum + q.quantum))
  {
    QuantaUpdate(s.qs, k, q);
    assert forall x :: x in s.order + [k] <==> x in s.order || x == k;
    hide QueueOk, Short, ActiveQuanta, Sum;
  }

  lemma EnqueKeepsWf(s: Sched, prio: int, p: Packet, qlim: int)
    requires Wf(s) && p.size > 0
    ensures Wf(Enque(s, prio, p, qlim))
  {
    var k := Classify(prio, |s.qs|);
    var q := s.qs[k].(pkts := s.qs[k].pkts + [p]);
    assert QueueOk(s.qs[k]) && (s.qs[k].current || Short(s.qs[k]));
    if q.active {
      AppendKeepsWf(s, k, q);
    } else {
      ActivateKeepsWf(s, k, Activate(q));
    }
    hide Wf;
  }
}
