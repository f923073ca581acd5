/** Facts about finite sums and about the order of an active list that several schedulers share. */
module ActiveOrder {

  // ---------------------------------------------------------------- sums

  ghost function Sum(s: seq<int>): int
  {
    if s == [] then 0 else s[0] + Sum(s[1..])
  }

  lemma {:induction false} SumUpdate(s: seq<int>, k: nat, v: int)
    requires k < |s|
    ensures Sum(s[k := v]) == Sum(s) - s[k] + v
  {
    if k == 0 {
      assert s[k := v][1..] == s[1..];
    } else {
      SumUpdate(s[1..], k - 1, v);
      assert s[k := v][1..] == s[1..][k - 1 := v];
    }
  }

  lemma {:induction false} SumMonotone(s: seq<int>, t: seq<int>)
    requires |s| == |t| && forall k :: 0 <= k < |s| ==> s[k] <= t[k]
    ensures Sum(s) <= Sum(t)
  {
    if s != [] {
      SumMonotone(s[1..], t[1..]);
    }
  }

  lemma {:induction false} SumOfNonNegatives(s: seq<int>)
    requires forall k :: 0 <= k < |s| ==> s[k] >= 0
    ensures Sum(s) >= 0
    ensures forall k :: 0 <= k < |s| ==> s[k] <= Sum(s)
    ensures Sum(s) > 0 ==> exists k :: 0 <= k < |s| && s[k] > 0
  {
    if s != [] {
      SumOfNonNegatives(s[1..]);
      forall k | 0 <= k < |s| ensures s[k] <= Sum(s) {
        if k > 0 {
          assert s[k] == s[1..][k - 1];
        }
      }
      if s[0] == 0 && Sum(s) > 0 {
        var k :| 0 <= k < |s[1..]| && s[1..][k] > 0;
        assert s[k + 1] > 0;
      }
    }
  }

  lemma {:induction false} SumOfZeros(s: seq<int>)
    requires forall k :: 0 <= k < |s| ==> s[k] == 0
    ensures Sum(s) == 0
  {
    if s != [] {
      SumOfZeros(s[1..]);
    }
  }

  // ---------------------------------------------------------------- order

  ghost predicate Distinct<T>(s: seq<T>)
  {
    forall a, b :: 0 <= a < b < |s| ==> s[a] != s[b]
  }

  /** i comes up before j; an absent j counts as standing behind everybody. */
  ghost predicate Before(order: seq<nat>, i: nat, j: nat)
  {
    order != [] && (order[0] == i || (order[0] != j && Before(order[1..], i, j)))
  }

  lemma {:induction false} BeforeAppend(order: seq<nat>, x: nat, i: nat, j: nat)
    requires i != j
    ensures Before(order + [x], i, j) <==> if i in order || j in order then Before(order, i, j) else x == i
  {
    if order == [] {
      assert order + [x] == [x];
    } else {
      BeforeAppend(order[1..], x, i, j);
      assert (order + [x])[1..] == order[1..] + [x];
    }
  }

  lemma {:induction false} BeforeAbsent(order: seq<nat>, i: nat, j: nat)
    requires j !in order
    ensures Before(order, i, j) <==> i in order
  {
    if order != [] {
      BeforeAbsent(order[1..], i, j);
    }
  }

  lemma {:induction false} BeforeNever(order: seq<nat>, i: nat, j: nat)
    requires i !in order
    ensures !Before(order, i, j)
  {
    if order != [] {
      BeforeNever(order[1..], i, j);
    }
  }

  lemma BeforeHead(order: seq<nat>, i: nat, j: nat)
    requires i != j && order != []
    ensures order[0] == i ==> Before(order, i, j)
    ensures order[0] == j ==> !Before(order, i, j)
    ensures order[0] != i && order[0] != j ==> Before(order, i, j) == Before(order[1..], i, j)
  {}

  /** Moving the head to the tail. */
  lemma BeforeRotate(order: seq<nat>, i: nat, j: nat)
    requires i != j && Distinct(order) && i in order
    ensures var rotated := order[1..] + [order[0]];
            Before(rotated, i, j) <==> if j !in order then true
                                       else if order[0] == i then false
                                       else if order[0] == j then true
                                       else Before(order, i, j)
  {
    DistinctTail(order);
    BeforeHead(order, i, j);
    BeforeAppend(order[1..], order[0], i, j);
    if j !in order {
      BeforeAbsent(order[1..] + [order[0]], i, j);
    }
    if j !in order[1..] {
      BeforeAbsent(order[1..], i, j);
    }
    if order[0] == i {
      BeforeNever(order[1..], i, j);
    }
  }

  /** Dropping the head. */
  lemma BeforeDrop(order: seq<nat>, i: nat, j: nat)
    requires i != j && Distinct(order) && i in order && order[0] != i
    ensures Before(order[1..], i, j) <==> order[0] == j || Before(order, i, j)
  {
    BeforeHead(order, i, j);
    if order[0] == j {
      DistinctTail(order);
      BeforeAbsent(order[1..], i, j);
    }
  }

  lemma DistinctTail(order: seq<nat>)
    requires Distinct(order) && order != []
    ensures Distinct(order[1..]) && order[0] !in order[1..]
    ensures Distinct(order[1..] + [order[0]])
    ensures forall x :: x in order[1..] + [order[0]] <==> x in order
    ensures forall x :: x in order[1..] <==> x in order && x != order[0]
  {}
}
