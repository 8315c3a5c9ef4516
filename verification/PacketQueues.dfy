/** The ring buffer behind the read, write and prefetch queues (src/block.cc, inc/block.h). */
module PacketQueues {
  import opened Packets

  /** Ring slot of the k-th oldest position. */
  function Slot(head: nat, k: nat, size: nat): nat {
    if head + k < size then head + k else if head + k < 2 * size then head + k - size else 0
  }

  class PacketQueue {
    const SIZE: nat
    const byFullAddr: bool      // NAME == "L1D_WQ"
    const entry: array<Packet>
    var head: nat
    var tail: nat
    var occupancy: nat

    /** Every slot outside the occupied arc is the empty packet, whose address is 0. */
    ghost predicate Valid()
      reads this, entry
    {
      && 0 < SIZE == entry.Length
      && head < SIZE
      && occupancy <= SIZE
      && tail == Slot(head, occupancy, SIZE)
      && forall i :: 0 <= i < SIZE && (if i < head then i + SIZE - head else i - head) >= occupancy
           ==> entry[i] == EmptyPacket
    }

    /** The queued packets, oldest first. */
    ghost function Contents(): (q: seq<Packet>)
      requires Valid()
      reads this, entry
      ensures |q| == occupancy
      ensures forall k :: 0 <= k < occupancy ==> q[k] == entry[Slot(head, k, SIZE)]
    {
      if head < tail then entry[head..tail]
      else if occupancy == 0 then []
      else entry[head..SIZE] + entry[0..tail]
    }

    constructor (size: nat, byFullAddr: bool)
      requires size > 0
      ensures Valid() && Contents() == []
      ensures SIZE == size && this.byFullAddr == byFullAddr && fresh(entry)
    {
      SIZE := size;
      this.byFullAddr := byFullAddr;
      entry := new Packet[size](_ => EmptyPacket);
      head, tail, occupancy := 0, 0, 0;
    }

    /** First slot in `from..to` whose packet has the wanted key, or -1. */
    method Scan(from: nat, to: nat, packet: Packet) returns (index: int)
      requires from <= to <= entry.Length
      ensures var k := FirstMatch(entry[from..to], KeyOf(packet, byFullAddr), byFullAddr);
              index == if k < 0 then -1 else from + k
    {
      ghost var key := KeyOf(packet, byFullAddr);
      var i := from;
      while i < to
        invariant from <= i <= to
        invariant forall j :: from <= j < i ==> KeyOf(entry[j], byFullAddr) != key
      {
        if KeyOf(entry[i], byFullAddr) == KeyOf(packet, byFullAddr) {
          FirstMatchUnique(entry[from..to], key, byFullAddr, i - from);
          return i;
        }
        i := i + 1;
      }
      FirstMatchUnique(entry[from..to], key, byFullAddr, -1);
      return -1;
    }

    /** Slot of the oldest queued packet with the packet's key, or -1. */
    method CheckQueue(packet: Packet) returns (index: int)
      requires Valid()
      ensures var k := FirstMatch(Contents(), KeyOf(packet, byFullAddr), byFullAddr);
              index == if k < 0 then -1 else Slot(head, k, SIZE)
    {
      if head == tail && occupancy == 0 {
        return -1;
      }
      if head < tail {
        index := Scan(head, tail, packet);
      } else {
        FirstMatchConcat(entry[head..SIZE], entry[0..tail], KeyOf(packet, byFullAddr), byFullAddr);
        index := Scan(head, SIZE, packet);
        if index == -1 {
          index := Scan(0, tail, packet);
        }
      }
    }

    /** Appends a packet at the tail. The slot it takes is free (address 0). */
    method AddQueue(packet: Packet)
      requires Valid() && occupancy < SIZE
      modifies this, entry
      ensures Valid() && Contents() == old(Contents()) + [packet]
    {
      ghost var before := Contents();
      assert entry[tail].address == 0;
      entry[tail] := packet;
      occupancy := occupancy + 1;
      tail := tail + 1;
      if tail >= SIZE {
        tail := 0;
      }
      assert Valid();
      assert forall k :: 0 <= k < occupancy - 1 ==> Contents()[k] == before[k];
    }

    /** Takes the oldest packet out and leaves its slot free. */
    method RemoveQueue()
      requires Valid() && occupancy > 0
      modifies this, entry
      ensures Valid() && Contents() == old(Contents())[1..]
    {
      ghost var before := Contents();
      entry[head] := EmptyPacket;
      occupancy := occupancy - 1;
      head := head + 1;
      if head >= SIZE {
        head := 0;
      }
      assert Valid();
      ghost var now := Contents();
      forall k | 0 <= k < occupancy ensures now[k] == before[k + 1] {
        assert Slot(head, k, SIZE) == Slot(old(head), k + 1, SIZE) != old(head);
      }
    }

    /** Lowers the fill level of the packet in a given slot, as a merged prefetch does. */
    method SetFillLevel(index: nat, level: int, ghost k: nat)
      requires Valid() && k < occupancy && index == Slot(head, k, SIZE)
      modifies entry
      ensures Valid()
      ensures Contents() == old(Contents())[k := old(Contents())[k].(fillLevel := level)]
    {
      ghost var before := Contents();
      entry[index] := entry[index].(fillLevel := level);
      assert forall j :: 0 <= j < occupancy && j != k ==> Contents()[j] == before[j];
    }
  }
}
