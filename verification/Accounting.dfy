/** Byte counts kept per port and per priority: they agree with the classes they summarise. */
module Accounting {
  import opened ActiveOrder

  /** What a class contributes: its latched priority and its length in bytes. */
  datatype Load = Load(prio: nat, bytes: int)

  ghost function BytesAt(l: Load, p: nat): int
  {
    if l.prio == p then l.bytes else 0
  }

  ghost function AllBytes(loads: seq<Load>): seq<int>
  {
    seq(|loads|, k requires 0 <= k < |loads| => loads[k].bytes)
  }

  ghost function PrioBytes(loads: seq<Load>, p: nat): seq<int>
  {
    seq(|loads|, k requires 0 <= k < |loads| => BytesAt(loads[k], p))
  }

  ghost predicate Balanced(loads: seq<Load>, sumLen: int, prioLen: seq<int>)
  {
    && sumLen == Sum(AllBytes(loads))
    && forall p: nat :: p < |prioLen| ==> prioLen[p] == Sum(PrioBytes(loads, p))
  }

  /** Changing one class moves both counts by the change of its length; it may change priority only
      while it holds no bytes. */
  lemma BalancedUpdate(loads: seq<Load>, k: nat, l: Load, delta: int, sumLen: int, prioLen: seq<int>)
    requires Balanced(loads, sumLen, prioLen) && k < |loads|
    requires l.bytes == loads[k].bytes + delta && l.prio < |prioLen|
    requires l.prio == loads[k].prio || loads[k].bytes == 0
    ensures Balanced(loads[k := l], sumLen + delta, prioLen[l.prio := prioLen[l.prio] + delta])
  {
    var loads' := loads[k := l];
    SumUpdate(AllBytes(loads), k, l.bytes);
    assert AllBytes(loads') == AllBytes(loads)[k := l.bytes];
    forall p: nat | p < |prioLen|
      ensures Sum(PrioBytes(loads', p)) == prioLen[l.prio := prioLen[l.prio] + delta][p]
    {
      SumUpdate(PrioBytes(loads, p), k, BytesAt(l, p));
      assert PrioBytes(loads', p) == PrioBytes(loads, p)[k := BytesAt(l, p)];
    }
  }

  lemma EmptyBalanced(loads: seq<Load>, prioLen: seq<int>)
    requires forall k :: 0 <= k < |loads| ==> loads[k].bytes == 0
    requires forall p :: 0 <= p < |prioLen| ==> prioLen[p] == 0
    ensures Balanced(loads, 0, prioLen)
  {
    SumOfZeros(AllBytes(loads));
    forall p: nat | p < |prioLen| ensures Sum(PrioBytes(loads, p)) == 0 {
      SumOfZeros(PrioBytes(loads, p));
    }
  }

  /** A priority's count is positive exactly when one of its classes holds bytes. */
  lemma PositiveCount(loads: seq<Load>, sumLen: int, prioLen: seq<int>, p: nat)
    requires Balanced(loads, sumLen, prioLen) && p < |prioLen|
    requires forall k :: 0 <= k < |loads| ==> loads[k].bytes >= 0
    ensures prioLen[p] > 0 <==> exists k :: 0 <= k < |loads| && loads[k].prio == p && loads[k].bytes > 0
  {
    var s := PrioBytes(loads, p);
    SumOfNonNegatives(s);
    if prioLen[p] > 0 {
      var k :| 0 <= k < |s| && s[k] > 0;
      assert loads[k].prio == p && loads[k].bytes > 0;
    }
    if k :| 0 <= k < |loads| && loads[k].prio == p && loads[k].bytes > 0 {
      assert s[k] > 0;
    }
  }
}
