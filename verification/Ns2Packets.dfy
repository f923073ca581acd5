/** What the NS2 schedulers share: packets, byte lengths and the choice of a queue. */
module Ns2Packets {

  datatype Packet = Packet(id: int, size: nat)

  function Bytes(pkts: seq<Packet>): nat
  {
    if pkts == [] then 0 else pkts[0].size + Bytes(pkts[1..])
  }

  function Classify(prio: int, queueNum: nat): int
  {
    if prio >= queueNum || prio < 0 then queueNum - 1 else prio
  }

  lemma {:induction false} BytesAppend(pkts: seq<Packet>, p: Packet)
    ensures Bytes(pkts + [p]) == Bytes(pkts) + p.size
  {
    if pkts == [] {
      assert [p][1..] == [] && pkts + [p] == [p];
    } else {
      BytesAppend(pkts[1..], p);
      assert (pkts + [p])[1..] == pkts[1..] + [p];
    }
  }

  /** The queue a packet of this priority goes to: its own, or the last one if there is none such. */
  ghost predicate GoesTo(prio: int, queueNum: nat, k: nat)
  {
    if 0 <= prio < queueNum then k == prio else k + 1 == queueNum
  }
}
