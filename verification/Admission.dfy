/** Buffer admission in the kernel schedulers, in terms of the packets queued. */
module Admission {
  import opened ActiveOrder
  import opened KernelPackets

  /** The wire bytes of all queued packets. */
  ghost function QueuedBytes(fifos: seq<seq<Packet>>): nat
  {
    if fifos == [] then 0 else Bytes(fifos[0]) + QueuedBytes(fifos[1..])
  }

  /** A packet of this size would not fit with what is queued. */
  ghost predicate TooMuch(b: BufferMode, fifos: seq<seq<Packet>>, k: nat, size: nat)
    requires k < |fifos| && (b.StaticBuffer? ==> |b.limits| == |fifos|)
  {
    match b
    case SharedBuffer(limit) => QueuedBytes(fifos) + size > limit
    case StaticBuffer(limits) => Bytes(fifos[k]) + size > limits[k]
  }

  /** What is queued respects the limits. */
  ghost predicate Within(b: BufferMode, fifos: seq<seq<Packet>>)
    requires b.StaticBuffer? ==> |b.limits| == |fifos|
  {
    match b
    case SharedBuffer(limit) => QueuedBytes(fifos) <= limit
    case StaticBuffer(limits) => forall k :: 0 <= k < |fifos| ==> Bytes(fifos[k]) <= limits[k]
  }

  lemma {:induction false} QueuedIsSum(fifos: seq<seq<Packet>>, lens: seq<int>)
    requires |lens| == |fifos| && forall k :: 0 <= k < |fifos| ==> lens[k] == Bytes(fifos[k])
    ensures QueuedBytes(fifos) == Sum(lens)
  {
    if fifos != [] {
      QueuedIsSum(fifos[1..], lens[1..]);
    }
  }

  lemma {:induction false} QueuedUpdate(fifos: seq<seq<Packet>>, k: nat, f: seq<Packet>)
    requires k < |fifos|
    ensures QueuedBytes(fifos[k := f]) == QueuedBytes(fifos) - Bytes(fifos[k]) + Bytes(f)
  {
    if k == 0 {
      assert fifos[k := f][1..] == fifos[1..];
    } else {
      QueuedUpdate(fifos[1..], k - 1, f);
      assert fifos[k := f][1..] == fifos[1..][k - 1 := f];
    }
  }

  lemma AppendKeepsWithin(b: BufferMode, fifos: seq<seq<Packet>>, k: nat, p: Packet)
    requires k < |fifos| && (b.StaticBuffer? ==> |b.limits| == |fifos|)
    requires Within(b, fifos) && !TooMuch(b, fifos, k, SkbSize(p))
    ensures Within(b, fifos[k := fifos[k] + [p]])
  {
    BytesAppend(fifos[k], p);
    QueuedUpdate(fifos, k, fifos[k] + [p]);
    hide SkbSize, Bytes, QueuedBytes;
  }

  lemma PopKeepsWithin(b: BufferMode, fifos: seq<seq<Packet>>, k: nat)
    requires k < |fifos| && (b.StaticBuffer? ==> |b.limits| == |fifos|)
    requires Within(b, fifos) && fifos[k] != []
    ensures Within(b, fifos[k := fifos[k][1..]])
  {
    QueuedUpdate(fifos, k, fifos[k][1..]);
    assert Bytes(fifos[k][1..]) <= Bytes(fifos[k]);
    hide SkbSize, Bytes, QueuedBytes;
  }
}
