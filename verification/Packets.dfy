/** Message packets and the constants shared by every cache level (inc/block.h, inc/champsim.h). */
module Packets {

  const UINT64_MAX: nat := 0xFFFF_FFFF_FFFF_FFFF

  const FILL_L1 := 1
  const FILL_L2 := 2
  const FILL_LLC := 4

  /** Access types; the source numbers them 0 to 3. */
  datatype Kind = LOAD | RFO | PREFETCH | WRITEBACK

  /** The `returned` byte: 0, INFLIGHT or COMPLETED. */
  datatype Returned = Fresh | Inflight | Completed

  datatype Packet = Packet(address: nat, fullAddr: nat, fillLevel: int, kind: Kind,
                           returned: Returned, eventCycle: nat)

  /** What the PACKET constructor leaves in a slot: address 0 marks it as free. */
  const EmptyPacket := Packet(0, 0, -1, LOAD, Fresh, UINT64_MAX)

  /** The L1D write queue compares full addresses; every other queue compares block addresses. */
  function KeyOf(p: Packet, byFullAddr: bool): nat {
    if byFullAddr then p.fullAddr else p.address
  }

  /** Adding the access latency to an event cycle, in 64-bit arithmetic. */
  function Delayed(eventCycle: nat, now: nat, latency: nat): nat {
    (if eventCycle < now then now + latency else eventCycle + latency) % (UINT64_MAX + 1)
  }

  /** Position of the oldest packet with the given key, or -1. */
  function FirstMatch(q: seq<Packet>, key: nat, byFullAddr: bool): (r: int)
    ensures -1 <= r < |q|
    ensures r >= 0 ==> KeyOf(q[r], byFullAddr) == key
    ensures forall i :: 0 <= i < (if r < 0 then |q| else r) ==> KeyOf(q[i], byFullAddr) != key
  {
    if |q| == 0 then -1
    else if KeyOf(q[0], byFullAddr) == key then 0
    else
      var r := FirstMatch(q[1..], key, byFullAddr);
      if r < 0 then -1 else r + 1
  }

  /** No two queued packets have the same key. */
  ghost predicate DistinctKeys(q: seq<Packet>, byFullAddr: bool) {
    forall i, j :: 0 <= i < j < |q| ==> KeyOf(q[i], byFullAddr) != KeyOf(q[j], byFullAddr)
  }

  /** The position FirstMatch returns is determined by what it promises. */
  lemma FirstMatchUnique(q: seq<Packet>, key: nat, byFullAddr: bool, r: int)
    requires -1 <= r < |q|
    requires r >= 0 ==> KeyOf(q[r], byFullAddr) == key
    requires forall i :: 0 <= i < (if r < 0 then |q| else r) ==> KeyOf(q[i], byFullAddr) != key
    ensures r == FirstMatch(q, key, byFullAddr)
  {
    var f := FirstMatch(q, key, byFullAddr);
    if r >= 0 && f >= 0 && r != f {
      assert false;
    }
  }

  /** Searching two stretches one after the other searches their concatenation. */
  lemma FirstMatchConcat(a: seq<Packet>, b: seq<Packet>, key: nat, byFullAddr: bool)
    ensures FirstMatch(a + b, key, byFullAddr) ==
            if FirstMatch(a, key, byFullAddr) >= 0 then FirstMatch(a, key, byFullAddr)
            else if FirstMatch(b, key, byFullAddr) >= 0 then |a| + FirstMatch(b, key, byFullAddr)
            else -1
  {
    var r := FirstMatch(a, key, byFullAddr);
    var t := FirstMatch(b, key, byFullAddr);
    FirstMatchUnique(a + b, key, byFullAddr, if r >= 0 then r else if t >= 0 then |a| + t else -1);
  }
}
