/** The potential that both deficit round robin variants are measured by.  Queue i stays backlogged,
    queue j may come and go; qi, qj are quanta, di, dj deficits, and turn says that of the two the
    next quantum goes to i. */
module Fairness {
  import opened Arithmetic

  ghost function Pot(qi: int, qj: int, di: int, dj: int, turn: bool): int
  {
    qi * dj - qj * di - (if turn then qi * qj else 0)
  }

  lemma Scale(c: int, a: int, b: int)
    requires c > 0
    ensures 0 <= a ==> 0 <= c * a
    ensures a < b ==> c * a < c * b
    ensures a <= b ==> c * a <= c * b
  {}

  lemma PotGrant(qi: int, qj: int, di: int, dj: int)
    ensures Pot(qi, qj, di + qi, dj, false) == Pot(qi, qj, di, dj, true)
    ensures Pot(qi, qj, di, dj + qj, true) == Pot(qi, qj, di, dj, false)
  {
    assert qj * (di + qi) == qj * di + qi * qj;
    assert qi * (dj + qj) == qi * dj + qi * qj;
  }

  /** Sending pays for itself; j may forfeit more than it sent. */
  lemma PotServe(qi: int, qj: int, di: int, dj: int, dj': int, sentI: int, sentJ: int, turn: bool)
    requires qi > 0 && dj' <= dj - sentJ
    ensures Pot(qi, qj, di - sentI, dj', turn) + qi * sentJ - qj * sentI <= Pot(qi, qj, di, dj, turn)
  {
    Scale(qi, dj', dj - sentJ);
    assert qi * (dj - sentJ) == qi * dj - qi * sentJ;
    assert qj * (di - sentI) == qj * di - qj * sentI;
  }

  lemma PotTurn(qi: int, qj: int, di: int, dj: int, turn: bool, turn': bool)
    requires qi > 0 && qj > 0 && (turn ==> turn')
    ensures Pot(qi, qj, di, dj, turn') <= Pot(qi, qj, di, dj, turn)
  {
    Scale(qi, qj, qj);
  }

  lemma PotRange(qi: int, qj: int, di: int, dj: int, maxI: int, maxJ: int, turn: bool)
    requires qi > 0 && qj > 0 && 0 <= dj < maxJ && 0 <= di < maxI
    ensures var t := if turn then qi * qj else 0;
            -(qj * maxI) - t < Pot(qi, qj, di, dj, turn) < qi * maxJ - t
  {
    Scale(qi, dj, maxJ);
    Scale(qj, di, maxI);
  }

  /** How far j is ahead of i, in units of byte * quantum. */
  ghost function Lead(qi: int, qj: int, sentI: int, sentJ: int): int
  {
    qi * sentJ - qj * sentI
  }

  lemma NoLead(qi: int, qj: int)
    ensures Lead(qi, qj, 0, 0) == 0
  {}

  lemma LeadSum(qi: int, qj: int, oi: int, oj: int, si: int, sj: int)
    ensures Lead(qi, qj, oi + si, oj + sj) == Lead(qi, qj, oi, oj) + Lead(qi, qj, si, sj)
  {
    assert qi * (oj + sj) == qi * oj + qi * sj;
    assert qj * (oi + si) == qj * oi + qj * si;
  }

  /** Deficits below maxSize, plus one quantum for the queue whose turn came last. */
  lemma PotRangeTurn(qi: int, qj: int, di: int, dj: int, maxSize: nat, turn: bool)
    requires qi > 0 && qj > 0 && 0 <= di && 0 <= dj
    requires if turn then di < maxSize && dj < qj + maxSize else di < qi + maxSize && dj < maxSize
    ensures -(qj * (qi + maxSize)) < Pot(qi, qj, di, dj, turn) < qi * maxSize
  {
    hide Pot;
    if turn {
      PotRange(qi, qj, di, dj, maxSize, qj + maxSize, turn);
      Distribute(qj, qi, maxSize);
      Distribute(qi, qj, maxSize);
    } else {
      PotRange(qi, qj, di, dj, qi + maxSize, maxSize, turn);
    }
  }

  /** When quanta are granted at the end of a turn: whoever stands behind holds at least a quantum. */
  lemma PotRangeGranted(qi: int, qj: int, di: int, dj: int, maxSize: nat, turn: bool)
    requires qi > 0 && qj > 0 && 0 <= di < qi + maxSize && 0 <= dj < qj + maxSize
    requires if turn then qj <= dj else qi <= di
    ensures -(qj * (qi + maxSize)) < Pot(qi, qj, di, dj, turn) < qi * maxSize
  {
    Distribute(qj, qi, maxSize);
    Distribute(qi, qj, maxSize);
    Scale(qi, dj, qj + maxSize);
    Scale(qj, di, qi + maxSize);
    if turn {
      Scale(qi, qj, dj);
    } else {
      Scale(qj, qi, di);
    }
  }

  /** A queue that leaves, when it was next, forfeits what it had left and will come back with one
      quantum behind i. */
  lemma PotLeave(qi: int, qj: int, di: int, dj: int)
    requires qi > 0 && dj >= 0
    ensures Pot(qi, qj, di, qj, true) <= Pot(qi, qj, di, dj, false)
  {
    Scale(qi, 0, dj);
  }

  /** From the account of a run to the fairness bound. */
  lemma LeadBound(qi: int, qj: int, maxSize: nat, p0: int, p1: int, si: int, sj: int)
    requires p1 + Lead(qi, qj, si, sj) <= p0
    requires -(qj * (qi + maxSize)) < p1 && p0 < qi * maxSize
    ensures sj * qi - si * qj < qi * qj + maxSize * (qi + qj)
  {
    Distribute(qj, qi, maxSize);
    Distribute(maxSize, qi, qj);
  }

  /** A deficit after k more quanta. */
  ghost function Gained(deficit: int, q: int, k: int): int
  {
    deficit + k * q
  }

  lemma GainedTwice(deficit: int, q: int, k1: nat, k2: nat)
    ensures Gained(Gained(deficit, q, k1), q, k2) == Gained(deficit, q, k1 + k2)
    ensures Gained(deficit, q, 0) == deficit && Gained(deficit, q, 1) == deficit + q
  {
    Distribute(q, k1, k2);
  }

  /** How many quanta of size q a packet of the given size takes. */
  function Rounds(size: nat, q: nat): nat
    requires size > 0 && q > 0
  {
    (size - 1) / q + 1
  }

  lemma RoundsBound(size: nat, q: nat, k: nat)
    requires size > 0 && q > 0 && (k == 0 || k * q < size)
    ensures k + 1 <= Rounds(size, q)
  {
    var n := (size - 1) / q;
    assert size - 1 < q * n + q;
    Distribute(q, n, 1);
    CancelLess(q, k, n + 1);
  }

  lemma PotDelta(qi: int, qj: int, di: int, k: int, dj0: int, dj1: int, sent: int, t0: bool, t1: bool)
    requires qi > 0
    requires Pot(qi, qj, di + k * qi, dj1, t1) + qi * sent <= Pot(qi, qj, di, dj0, t0)
    ensures sent + dj1 - dj0 <= qj * (k + Turns(t0, t1))
  {
    var t := Turns(t0, t1);
    Distribute(qj, di, k * qi);
    Distribute(qi, sent, dj1 - dj0);
    Distribute(qi, dj1, -dj0);
    Distribute(qj, k, t);
    Distribute(qi, qj * k, qj * t);
    assert qj * (k * qi) == qi * (qj * k) && qi * (-dj0) == -(qi * dj0);
    assert qi * (qj * t) == (if t1 then qi * qj else 0) - (if t0 then qi * qj else 0);
    CancelLe(qi, sent + (dj1 - dj0), qj * (k + t));
  }

  /** How many turns j is ahead after a stretch, by who is next before and after it. */
  ghost function Turns(t0: bool, t1: bool): int
  {
    (if t1 then 1 else 0) - (if t0 then 1 else 0)
  }

  /** What j sends while i is granted k quanta but sends nothing. */
  lemma WaitBound(qi: int, qj: int, maxSize: nat, size: nat, k: nat,
                  di: int, dj0: int, dj1: int, sent: int, t0: bool, t1: bool)
    requires qi > 0 && qj > 0 && size > 0 && dj1 >= 0
    requires k == 0 || k * qi < size
    requires dj0 < (if t0 then qj else 0) + maxSize
    requires Pot(qi, qj, di + k * qi, dj1, t1) + Lead(qi, qj, 0, sent) <= Pot(qi, qj, di, dj0, t0)
    ensures sent < Rounds(size, qi) * qj + maxSize
  {
    PotDelta(qi, qj, di, k, dj0, dj1, sent, t0, t1);
    hide Pot, Lead, Rounds;
    RoundsBound(size, qi, k);
    SentBelow(qj, maxSize, k, Rounds(size, qi), dj0, dj1, sent, t0, t1);
  }

  lemma SentBelow(qj: int, maxSize: nat, k: nat, rounds: nat, dj0: int, dj1: int, sent: int, t0: bool, t1: bool)
    requires qj > 0 && dj1 >= 0 && k + 1 <= rounds && dj0 < (if t0 then qj else 0) + maxSize
    requires sent + dj1 - dj0 <= qj * (k + Turns(t0, t1))
    ensures sent < rounds * qj + maxSize
  {
    Distribute(qj, k, Turns(t0, t1));
    MulLe(k + 1, rounds, qj);
    Distribute(qj, k, 1);
    assert qj * Turns(t0, t1) == (if t1 then qj else 0) - (if t0 then qj else 0);
  }
}
