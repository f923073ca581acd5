/** What the kernel schedulers share: packets, class FIFOs and the limits of the modules. */
module KernelPackets {

  const MAX_QUEUES: nat := 8
  const MAX_PRIO: nat := 8
  const MAX_PKT_BYTES: nat := 1538
  const MIN_PKT_BYTES: nat := 64

  datatype Packet = Packet(id: int, skbLen: nat)

  datatype BufferMode = SharedBuffer(limit: int) | StaticBuffer(limits: seq<int>)

  datatype Verdict = Dropped | Refused | Queued

  /** Bytes a packet occupies on the wire. */
  function SkbSize(p: Packet): (size: nat)
    ensures size >= 84
  {
    (if p.skbLen + 4 < MIN_PKT_BYTES then MIN_PKT_BYTES else p.skbLen + 4) + 20
  }

  function Bytes(pkts: seq<Packet>): nat
  {
    if pkts == [] then 0 else SkbSize(pkts[0]) + Bytes(pkts[1..])
  }

  lemma {:induction false} BytesAppend(pkts: seq<Packet>, p: Packet)
    ensures Bytes(pkts + [p]) == Bytes(pkts) + SkbSize(p)
  {
    if pkts == [] {
      assert [p][1..] == [] && pkts + [p] == [p];
    } else {
      BytesAppend(pkts[1..], p);
      assert (pkts + [p])[1..] == pkts[1..] + [p];
    }
  }
}
