/** The NS2 queue as it is written: queue objects threaded on an intrusive list behind a sentinel,
    rewritten in place.  Every method is tied to the state machine of Ns2Dwrr. */
module Ns2DwrrHeap {
  import opened ActiveOrder
  import opened Ns2Dwrr
  import opened Ns2Packets

  class PacketDWRR {
    const id: int
    var pkts: seq<Packet>
    var quantum: int
    var deficitCounter: int
    var active: bool
    var current: bool
    var next: PacketDWRR?

    constructor (id: int)
      ensures this.id == id && Abs() == Queue([], 1500, 0, false, false) && next == null
    {
      this.id := id;
      pkts, quantum, deficitCounter, active, current, next := [], 1500, 0, false, false, null;
    }

    ghost function Abs(): Queue
      reads this`pkts, this`quantum, this`deficitCounter, this`active, this`current
    {
      Queue(pkts, quantum, deficitCounter, active, current)
    }
  }

  /** The first cell is the sentinel; the chain of next pointers runs through exactly these cells. */
  ghost predicate Chain(cells: seq<PacketDWRR>)
    reads (set c | c in cells)`next
  {
    && cells != [] && Distinct(cells)
    && forall k {:trigger cells[k]} :: 0 <= k < |cells| ==> cells[k].next == CellAt(cells, k + 1)
  }

  ghost function CellAt(cells: seq<PacketDWRR>, k: nat): PacketDWRR?
  {
    if k < |cells| then cells[k] else null
  }

  /** Walk to the tail and append; a null list or node is ignored. */
  method InsertTailList(list: PacketDWRR?, q: PacketDWRR?, ghost cells: seq<PacketDWRR>)
    requires list != null ==> Chain(cells) && cells[0] == list
    requires q != null && list != null ==> q !in cells
    modifies (if list == null || q == null then {} else {q} + set n | n in cells)`next
    ensures list != null && q != null ==> Chain(cells + [q])
  {
    if q != null && list != null {
      var tmp := list;
      ghost var at := 0;
      while tmp.next != null
        invariant at < |cells| && tmp == cells[at]
        invariant Chain(cells)
        decreases |cells| - at
      {
        at := at + 1;
        tmp := tmp.next;
      }
      tmp.next := q;
      q.next := null;
    }
  }

  /** Unlink and return the head, or null. */
  method RemoveHeadList(list: PacketDWRR?, ghost cells: seq<PacketDWRR>) returns (r: PacketDWRR?)
    requires list != null ==> Chain(cells) && cells[0] == list
    modifies (if list == null then {} else {list})`next
    ensures r == if list == null || |cells| == 1 then null else cells[1]
    ensures list != null ==> Chain(if |cells| == 1 then cells else [list] + cells[2..])
  {
    r := null;
    if list != null {
      assert list.next == cells[0].next;
      var tmp := list.next;
      if tmp != null {
        assert tmp.next == cells[1].next;
        list.next := tmp.next;
        ghost var rest := [list] + cells[2..];
        forall k | 0 <= k < |rest|
          ensures rest[k].next == CellAt(rest, k + 1)
        {
          if k > 0 {
            assert rest[k] == cells[k + 1];
          }
        }
        return tmp;
      }
    }
  }

  class DWRR {
    const queues: seq<PacketDWRR>
    const activeList: PacketDWRR
    var quantumSum: int
    ghost var model: Sched

    ghost function Cells(order: seq<nat>): (cells: seq<PacketDWRR>)
      requires forall k :: 0 <= k < |order| ==> order[k] < |queues|
      ensures |cells| == |order| + 1 && cells[0] == activeList
      ensures forall k :: 0 <= k < |order| ==> cells[k + 1] == queues[order[k]]
    {
      [activeList] + seq(|order|, k requires 0 <= k < |order| => queues[order[k]])
    }

    ghost predicate Separate()
    {
      activeList !in queues && forall k :: 0 <= k < |queues| ==> queues[k].id == k
    }

    /** The queue objects hold the queues of the model. */
    ghost predicate Holds(qs: seq<Queue>)
      reads (set q | q in queues)`pkts, (set q | q in queues)`quantum, (set q | q in queues)`deficitCounter
      reads (set q | q in queues)`active, (set q | q in queues)`current
    {
      |qs| == |queues| && forall k :: 0 <= k < |queues| ==> queues[k].Abs() == qs[k]
    }

    /** The pointer structure represents s. */
    ghost predicate Represents(s: Sched)
      reads this, activeList, queues
    {
      Separate() && |s.qs| == |queues| && Holds(s.qs) && Listed(s) && Chain(Cells(s.order)) && quantumSum == s.quantumSum
    }

    ghost predicate Valid()
      reads this, activeList, queues
    {
      Wf(model) && Represents(model)
    }

    constructor (queues: seq<PacketDWRR>, sentinel: PacketDWRR)
      requires sentinel !in queues && queues != [] && sentinel.next == null
      requires forall k :: 0 <= k < |queues| ==>
        queues[k].id == k && queues[k].pkts == [] && queues[k].quantum > 0 && queues[k].deficitCounter == 0
        && !queues[k].active && !queues[k].current
      ensures this.queues == queues && activeList == sentinel
      ensures Valid() && model.order == [] && |model.qs| == |queues|
      ensures forall k :: 0 <= k < |queues| ==> model.qs[k] == queues[k].Abs()
    {
      this.queues := queues;
      activeList := sentinel;
      quantumSum := 0;
      var qs := seq(|queues|, k requires 0 <= k < |queues| reads queues => queues[k].Abs());
      model := Sched(qs, [], 0);
      new;
      SumOfZeros(ActiveQuanta(qs));
    }

    lemma CellsOf(order: seq<nat>, k: nat)
      requires Separate() && k < |queues| && k !in order
      requires forall m :: 0 <= m < |order| ==> order[m] < |queues|
      ensures queues[k] !in Cells(order)
      ensures Cells(order + [k]) == Cells(order) + [queues[k]]
    {}

    lemma CellsTail(order: seq<nat>)
      requires order != [] && forall m :: 0 <= m < |order| ==> order[m] < |queues|
      ensures Cells(order[1..]) == [activeList] + Cells(order)[2..]
    {}

    /** What a caller sees of the structure: the fields of a queue and the head pointer. */
    lemma Look(s: Sched, k: nat)
      requires Represents(s) && k < |queues|
      ensures |s.qs| == |queues| && queues[k].Abs() == s.qs[k] && queues[k].id == k
    {}

    lemma LookHead(s: Sched)
      requires Represents(s)
      ensures s.order == [] <==> activeList.next == null
      ensures s.order != [] ==> s.order[0] < |queues| && activeList.next == queues[s.order[0]]
    {
      assert activeList.next == CellAt(Cells(s.order), 1);
    }

    ghost function WithQueue(s: Sched, k: nat, q: Queue): Sched
      requires k < |s.qs|
    {
      s.(qs := s.qs[k := q])
    }

    /** Overwrite the scheduling fields of one queue. */
    method Store(k: nat, pkts: seq<Packet>, deficit: int, active: bool, current: bool, ghost s: Sched)
      requires Represents(s) && k < |queues|
      modifies queues
      ensures Represents(WithQueue(s, k, Queue(pkts, s.qs[k].quantum, deficit, active, current)))
    {
      StoreFields(k, pkts, deficit, active, current, s.qs, s.order);
      hide Holds, Chain, Separate;
    }

    method StoreFields(k: nat, pkts: seq<Packet>, deficit: int, active: bool, current: bool,
                       ghost qs: seq<Queue>, ghost order: seq<nat>)
      requires Separate() && |qs| == |queues| && Holds(qs) && k < |qs|
      requires forall m :: 0 <= m < |order| ==> order[m] < |queues|
      requires Chain(Cells(order))
      modifies queues
      ensures Holds(qs[k := Queue(pkts, qs[k].quantum, deficit, active, current)])
      ensures Chain(Cells(order))
    {
      hide Chain, Cells;
      var node := queues[k];
      node.pkts := pkts;
      node.deficitCounter := deficit;
      node.active := active;
      node.current := current;
    }

    method Link(k: nat, ghost s: Sched)
      requires Represents(s) && k < |queues| && k !in s.order
      modifies activeList, queues
      ensures Represents(s.(order := s.order + [k]))
    {
      CellsOf(s.order, k);
      assert Listed(s.(order := s.order + [k]));
      hide Chain, Separate;
      InsertTailList(activeList, queues[k], Cells(s.order));
    }

    method Unlink(ghost s: Sched) returns (node: PacketDWRR?)
      requires Represents(s) && s.order != []
      modifies activeList
      ensures Represents(s.(order := s.order[1..])) && node == queues[s.order[0]]
    {
      CellsTail(s.order);
      assert Listed(s.(order := s.order[1..]));
      hide Chain, Cells, Holds, Listed, Separate;
      node := RemoveHeadList(activeList, Cells(s.order));
    }

    method AddQuantum(delta: int, ghost s: Sched)
      requires Represents(s)
      modifies this`quantumSum
      ensures Represents(s.(quantumSum := s.quantumSum + delta))
    {
      quantumSum := quantumSum + delta;
    }

    method TotalByteLength() returns (result: nat)
      requires Represents(model)
      ensures result == Ns2Dwrr.TotalByteLength(model.qs)
    {
      result := 0;
      for i := 0 to |queues|
        invariant result == Ns2Dwrr.TotalByteLength(model.qs[..i])
      {
        TotalOfPrefix(model.qs, i);
        assert queues[i].Abs() == model.qs[i];
        result := result + Bytes(queues[i].pkts);
      }
      assert model.qs[..|queues|] == model.qs;
    }

    ghost method Commit(s: Sched)
      requires Represents(s) && Wf(s)
      modifies this`model
      ensures Valid() && model == s
    {
      model := s;
    }

    /** A queue that was not on the list starts with an empty deficit at the tail. */
    method ActivateQueue(k: nat, ghost s: Sched)
      requires Represents(s) && k < |queues| && k !in s.order
      modifies this`quantumSum, queues, activeList
      ensures Represents(Sched(s.qs[k := Activate(s.qs[k])], s.order + [k], s.quantumSum + s.qs[k].quantum))
    {
      hide Represents;
      Look(s, k);
      Store(k, queues[k].pkts, 0, true, false, s);
      ghost var s1 := WithQueue(s, k, Activate(s.qs[k]));
      Link(k, s1);
      ghost var s2 := s1.(order := s1.order + [k]);
      Look(s2, k);
      AddQuantum(queues[k].quantum, s2);
    }

    method Enque(prio: int, p: Packet, qlimBytes: int)
      requires Valid() && p.size > 0
      modifies this, queues, activeList
      ensures Valid() && model == Ns2Dwrr.Enque(old(model), prio, p, qlimBytes)
    {
      var total := TotalByteLength();
      EnqueKeepsWf(model, prio, p, qlimBytes);
      if total + p.size <= qlimBytes {
        var k := Classify(prio, |queues|);
        assert Wf(model) && (!model.qs[k].active ==> k !in model.order);
        ghost var s' := Ns2Dwrr.Enque(model, prio, p, qlimBytes);
        AcceptedIs(model, k, prio, p, qlimBytes);
        hide Represents, Wf, Listed, WithQueue;
        Append(k, p, model);
        Commit(s');
      }
    }

    lemma AcceptedIs(s: Sched, k: nat, prio: int, p: Packet, qlimBytes: int)
      requires |s.qs| > 0 && Ns2Dwrr.TotalByteLength(s.qs) + p.size <= qlimBytes && k == Classify(prio, |s.qs|)
      ensures var q := s.qs[k].(pkts := s.qs[k].pkts + [p]);
              Ns2Dwrr.Enque(s, prio, p, qlimBytes)
              == if q.active then WithQueue(s, k, q)
                 else Sched(s.qs[k := Activate(q)], s.order + [k], s.quantumSum + q.quantum)
    {}

    method Append(k: nat, p: Packet, ghost s: Sched)
      requires Represents(s) && k < |queues| && k < |s.qs| && (!s.qs[k].active ==> k !in s.order)
      modifies this`quantumSum, queues, activeList
      ensures var q := s.qs[k].(pkts := s.qs[k].pkts + [p]);
              Represents(if q.active then WithQueue(s, k, q)
                         else Sched(s.qs[k := Activate(q)], s.order + [k], s.quantumSum + q.quantum))
    {
      hide Represents;
      Push(k, p, s);
      ghost var s1 := WithQueue(s, k, s.qs[k].(pkts := s.qs[k].pkts + [p]));
      Look(s1, k);
      if !queues[k].active {
        UpdateTwice(s.qs, k, s1.qs[k], Activate(s1.qs[k]));
        ActivateQueue(k, s1);
      }
    }

    method Push(k: nat, p: Packet, ghost s: Sched)
      requires Represents(s) && k < |queues| && k < |s.qs|
      modifies this`quantumSum, queues, activeList
      ensures Represents(WithQueue(s, k, s.qs[k].(pkts := s.qs[k].pkts + [p])))
    {
      Look(s, k);
      Store(k, queues[k].pkts + [p], queues[k].deficitCounter, queues[k].active, queues[k].current, s);
    }

    /** The head starts its turn. */
    method GrantQuantum(h: nat, ghost s: Sched)
      requires Represents(s) && s.order != [] && h == s.order[0] < |queues|
      modifies queues
      ensures Represents(GrantHead(s))
    {
      Look(s, h);
      hide Represents;
      var q := queues[h];
      if !q.current {
        Store(h, q.pkts, q.deficitCounter + q.quantum, q.active, true, s);
      }
    }

    /** The emptied head leaves the list. */
    method Deactivate(h: nat, ghost s: Sched)
      requires Represents(s) && s.order != [] && h == s.order[0] < |queues|
      modifies this`quantumSum, queues, activeList
      ensures Listed(s) && Represents(WithoutHead(s))
    {
      Look(s, h);
      assert Listed(s);
      hide Represents;
      AddQuantum(-queues[h].quantum, s);
      ghost var s1 := s.(quantumSum := s.quantumSum - s.qs[h].quantum);
      var headNode := Unlink(s1);
      ghost var s2 := s1.(order := s1.order[1..]);
      Look(s2, h);
      Store(h, headNode.pkts, 0, false, false, s2);
    }

    /** The head sends one packet and leaves the list if that was its last. */
    method SendPacket(h: nat, ghost s: Sched) returns (pkt: Packet)
      requires Represents(s) && Listed(s) && s.order != [] && h == s.order[0] < |queues|
      requires s.qs[h].pkts != []
      modifies this`quantumSum, queues, activeList
      ensures Represents(ServeHead(s)) && pkt == s.qs[h].pkts[0]
    {
      Look(s, h);
      ServeInTwo(s);
      hide Represents, ServeHead, WithoutHead;
      var q := queues[h];
      pkt := q.pkts[0];
      Store(h, q.pkts[1..], q.deficitCounter - pkt.size, q.active, q.current, s);
      ghost var s1 := PopHead(s);
      Look(s1, h);
      if |q.pkts| == 0 {
        Deactivate(h, s1);
      }
    }

    /** The head's turn ends; it goes to the tail. */
    method EndTurn(h: nat, ghost s: Sched)
      requires Represents(s) && s.order != [] && h == s.order[0] < |queues| && Distinct(s.order)
      modifies queues, activeList
      ensures Listed(s) && Represents(RotateHead(s))
    {
      Look(s, h);
      assert Listed(s);
      DistinctTail(s.order);
      hide Represents;
      var headNode := Unlink(s);
      ghost var s1 := s.(order := s.order[1..]);
      Look(s1, h);
      Store(h, headNode.pkts, headNode.deficitCounter, headNode.active, false, s1);
      Link(h, WithQueue(s1, h, s1.qs[h].(current := false)));
    }

    /** One turn of the while(1) loop. */
    method Visit() returns (o: Outcome)
      requires Valid() && model.order != []
      modifies this, queues, activeList
      ensures Valid()
      ensures var g := GrantHead(old(model));
              if CanServe(g) then model == ServeHead(g) && o == Sent(g.order[0], g.qs[g.order[0]].pkts[0])
              else model == RotateHead(g) && o == Nothing
    {
      ghost var m := model;
      GrantKeepsWf(m);
      ghost var g := GrantHead(m);
      if CanServe(g) {
        ServeKeepsWf(m);
      } else {
        RotateKeepsWf(m);
      }
      LookHead(m);
      var headNode := activeList.next;
      Look(m, m.order[0]);
      var h := headNode.id;
      hide Represents, Wf, QueueOk, Short;
      GrantQuantum(h, m);
      Look(g, h);
      if headNode.pkts[0].size <= headNode.deficitCounter {
        var pkt := SendPacket(h, g);
        Commit(ServeHead(g));
        o := Sent(h, pkt);
      } else {
        EndTurn(h, g);
        Commit(RotateHead(g));
        o := Nothing;
      }
    }

    /** Send the next packet, if any. */
    method Deque() returns (o: Outcome)
      requires Valid()
      modifies this, queues, activeList
      ensures Valid() && (model, o) == Ns2Dwrr.Deque(old(model))
    {
      o := Nothing;
      var total := TotalByteLength();
      BacklogIsListed(model);
      if total > 0 {
        while o.Nothing?
          invariant Valid()
          invariant if o.Nothing? then model.order != [] && Loop(model) == Loop(old(model))
                    else (model, o) == Loop(old(model))
          decreases o.Nothing?, if o.Nothing? then Shortfall(model) else 0,
                    if o.Nothing? && model.qs[model.order[0]].current then 1 else 0
        {
          ghost var m := model;
          GrantKeepsWf(m);
          if !CanServe(GrantHead(m)) {
            RotateProgress(m);
          }
          o := Visit();
        }
      }
    }
  }

  ghost function PopHead(s: Sched): Sched
    requires Listed(s) && s.order != [] && s.qs[s.order[0]].pkts != []
  {
    var q := s.qs[s.order[0]];
    s.(qs := s.qs[s.order[0] := q.(pkts := q.pkts[1..], deficit := q.deficit - q.pkts[0].size)])
  }

  ghost function WithoutHead(s: Sched): Sched
    requires Listed(s) && s.order != []
  {
    var q := s.qs[s.order[0]];
    Sched(s.qs[s.order[0] := q.(deficit := 0, active := false, current := false)], s.order[1..],
          s.quantumSum - q.quantum)
  }

  lemma ServeInTwo(s: Sched)
    requires Listed(s) && s.order != [] && s.qs[s.order[0]].pkts != []
    ensures ServeHead(s) == if PopHead(s).qs[s.order[0]].pkts == [] then WithoutHead(PopHead(s)) else PopHead(s)
  {
    var h := s.order[0];
    UpdateTwice(s.qs, h, PopHead(s).qs[h], WithoutHead(PopHead(s)).qs[h]);
  }

  lemma UpdateTwice(qs: seq<Queue>, k: nat, a: Queue, b: Queue)
    requires k < |qs|
    ensures qs[k := a][k := b] == qs[k := b]
  {}

  lemma {:induction false} TotalOfPrefix(qs: seq<Queue>, i: nat)
    requires i < |qs|
    ensures Ns2Dwrr.TotalByteLength(qs[..i + 1]) == Ns2Dwrr.TotalByteLength(qs[..i]) + Bytes(qs[i].pkts)
  {
    if i == 0 {
      assert qs[..1] == [qs[0]] && qs[..0] == [];
    } else {
      TotalOfPrefix(qs[1..], i - 1);
      assert qs[..i + 1][1..] == qs[1..][..i] && qs[..i][1..] == qs[1..][..i - 1];
    }
  }
}
