/** One cache level as a state machine: what each handler of src/cache.cc does to its own state,
    and which messages it sends to the level above and the level below. */
module CacheModel {
  import opened Counting
  import opened Packets
  import opened Replacement
  import opened MshrFile
  import opened HashIndex

  datatype Config = Config(isL1D: bool, fillLevel: int, numSets: nat, numWays: nat, mshrSize: nat,
                           rqSize: nat, wqSize: nat, pqSize: nat, latency: nat)

  /** One counter per access type. */
  datatype Tally = Tally(load: nat, rfo: nat, prefetch: nat, writeback: nat) {
    function Bump(k: Kind): Tally {
      match k
      case LOAD => this.(load := load + 1)
      case RFO => this.(rfo := rfo + 1)
      case PREFETCH => this.(prefetch := prefetch + 1)
      case WRITEBACK => this.(writeback := writeback + 1)
    }

    function Sum(): nat { load + rfo + prefetch + writeback }
  }

  /** TO_CACHE of the three queues, WQ.FORWARD, and ACCESS, HIT, MISS per type. */
  datatype Stats = Stats(rqToCache: nat, wqToCache: nat, pqToCache: nat, wqForward: nat,
                         access: Tally, hit: Tally, miss: Tally) {
    function CountHit(k: Kind): Stats { this.(hit := hit.Bump(k), access := access.Bump(k)) }

    function CountMiss(k: Kind): Stats { this.(miss := miss.Bump(k), access := access.Bump(k)) }
  }

  datatype Cache = Cache(cfg: Config, rq: seq<Packet>, wq: seq<Packet>, pq: seq<Packet>,
                         mshr: Mshr, blocks: seq<seq<Block>>, stats: Stats)

  /** The outcome of one handler: the new state, the packet handed to return_data of the upper
      level, the request sent to the lower level, and the dirty victim sent to its write queue.
      Abort is a failed assert. */
  datatype Effect = Effect(c: Cache, up: Option<Packet>, down: Option<Packet>, victim: Option<Packet>)
                  | Abort

  function Quiet(c: Cache): Effect { Effect(c, None, None, None) }

  // ---- Block array ----

  /** 1 << lg2(n): the largest power of two up to n. */
  function FloorPow2(n: nat): (p: nat)
    requires n > 0
    ensures 0 < p <= n
  {
    if n == 1 then 1 else 2 * FloorPow2(n / 2)
  }

  function GetSet(cfg: Config, address: nat): (s: nat)
    requires cfg.numSets > 0
    ensures s < cfg.numSets
  {
    address % FloorPow2(cfg.numSets)
  }

  /** The greatest power of two up to n, which is n itself for a power of two. */
  lemma {:induction false} FloorPow2Meaning(n: nat, k: nat)
    requires Pow2(k) <= n < 2 * Pow2(k)
    ensures FloorPow2(n) == Pow2(k)
  {
    if k > 0 {
      FloorPow2Meaning(n / 2, k - 1);
    }
  }

  /** get_set is the remainder by the number of sets, or by the greatest power of two up to it. */
  lemma SetMeaning(cfg: Config, k: nat, a: nat)
    requires Pow2(k) <= cfg.numSets < 2 * Pow2(k)
    ensures GetSet(cfg, a) == a % Pow2(k)
  {
    FloorPow2Meaning(cfg.numSets, k);
  }

  /** With a power of two of sets, two lines share a set exactly when they agree modulo their number, and the
      first lines fall into a set each. */
  lemma SameSetExactlyWhen(cfg: Config, k: nat, a: nat, b: nat)
    requires cfg.numSets == Pow2(k)
    ensures GetSet(cfg, a) == GetSet(cfg, b) <==> a % cfg.numSets == b % cfg.numSets
    ensures a < cfg.numSets ==> GetSet(cfg, a) == a
  {
    hide GetSet, Pow2;
    SetMeaning(cfg, k, a);
    SetMeaning(cfg, k, b);
    if a < cfg.numSets {
      DivModUnique(a, cfg.numSets, 0, a);
    }
  }

  /** First way from `from` on that validly holds the address, or -1. */
  function FindWay(set_: seq<Block>, address: nat, from: nat): (w: int)
    requires from <= |set_|
    ensures w == -1 || from <= w < |set_|
    ensures w >= 0 ==> set_[w].valid && set_[w].tag == address
    ensures forall i :: from <= i < (if w < 0 then |set_| else w) ==> !(set_[i].valid && set_[i].tag == address)
    decreases |set_| - from
  {
    if from == |set_| then -1
    else if set_[from].valid && set_[from].tag == address then from
    else FindWay(set_, address, from + 1)
  }

  ghost predicate Shape(c: Cache) {
    && 0 < c.cfg.numSets == |c.blocks|
    && 0 < c.cfg.numWays
    && |c.mshr.entry| == c.cfg.mshrSize
    && forall s :: 0 <= s < |c.blocks| ==> |c.blocks[s]| == c.cfg.numWays
  }

  function CheckHit(c: Cache, address: nat): (w: int)
    requires Shape(c)
    ensures -1 <= w < c.cfg.numWays
  {
    FindWay(c.blocks[GetSet(c.cfg, address)], address, 0)
  }

  /** update_replacement_state: a writeback hit leaves the LRU order alone. */
  function Touch(set_: seq<Block>, way: nat, kind: Kind, hit: bool): (t: seq<Block>)
    requires way < |set_|
    ensures |t| == |set_|
  {
    if kind == WRITEBACK && hit then set_ else LruUpdate(set_, way)
  }

  /** fill_cache: the packet's line replaces the block; only the lru field survives. */
  function FillBlock(b: Block, p: Packet, dirty: bool): Block {
    Block(true, dirty, p.kind == PREFETCH, false, p.address, p.address, p.fullAddr, b.lru)
  }

  function PutSet(c: Cache, s: nat, t: seq<Block>): Cache
    requires s < |c.blocks|
  {
    c.(blocks := c.blocks[s := t])
  }

  /** Fills a way after promoting it. */
  function Install(c: Cache, s: nat, way: nat, p: Packet, dirty: bool): Cache
    requires Shape(c) && s < c.cfg.numSets && way < c.cfg.numWays
  {
    var t := Touch(c.blocks[s], way, p.kind, false);
    PutSet(c, s, t[way := FillBlock(t[way], p, dirty)])
  }

  /** The packet that carries a dirty victim to the lower level's write queue. */
  function WritebackPacket(c: Cache, b: Block, now: nat): Packet {
    Packet(b.address, b.fullAddr, c.cfg.fillLevel * 2, WRITEBACK, Fresh, now)
  }

  function Upward(c: Cache, p: Packet): Option<Packet> {
    if p.fillLevel < c.cfg.fillLevel then Some(p) else None
  }

  // ---- Handlers ----

  /** One round of handle_fill. */
  function FillStep(c: Cache, now: nat, lowerWqFull: bool): Effect
    requires Shape(c)
  {
    var m := c.mshr;
    if m.nextFillIndex >= |m.entry| || m.entry[m.nextFillIndex].address == 0 || now < m.nextFillCycle then Quiet(c)
    else
      var p := m.entry[m.nextFillIndex];
      var s := GetSet(c.cfg, p.address);
      var way := LruVictim(c.blocks[s]);
      if way == c.cfg.numWays then Abort
      else
        var b := c.blocks[s][way];
        if b.dirty && lowerWqFull then Quiet(c)
        else
          Effect(Install(c, s, way, p, c.cfg.isL1D && p.kind == RFO).(mshr := Release(m, m.nextFillIndex)),
                 Upward(c, p), None,
                 if b.dirty then Some(WritebackPacket(c, b, now)) else None)
  }

  /** A demand miss (read, or store miss in the L1D): new register, merge, or stall. */
  function DemandMiss(c: Cache, p: Packet, popped: Cache): Effect {
    var i := CheckMshr(c.mshr, p.address);
    if i == -1 && c.mshr.occupancy < c.cfg.mshrSize then
      Effect(popped.(mshr := AddMshr(c.mshr, p)), None, Some(p), None)
    else if i == -1 then
      if c.mshr.occupancy == c.cfg.mshrSize then Quiet(c) else Abort
    else
      Quiet(popped.(mshr := Merge(c.mshr, i, p, true)))
  }

  /** One round of handle_writeback. */
  function WritebackStep(c: Cache, now: nat, lowerWqFull: bool): Effect
    requires Shape(c)
  {
    if |c.wq| == 0 || now < c.wq[0].eventCycle then Quiet(c)
    else
      var p := c.wq[0];
      var s := GetSet(c.cfg, p.address);
      var w := CheckHit(c, p.address);
      var rest := c.(wq := c.wq[1..]);
      if w >= 0 then
        var t := Touch(c.blocks[s], w, p.kind, true);
        Effect(PutSet(rest, s, t[w := t[w].(dirty := true)]).(stats := c.stats.CountHit(p.kind)),
               Upward(c, p), None, None)
      else if c.cfg.isL1D then
        DemandMiss(c, p, rest.(stats := c.stats.CountMiss(p.kind)))
      else
        var way := LruVictim(c.blocks[s]);
        if way == c.cfg.numWays then Abort
        else
          var b := c.blocks[s][way];
          if b.dirty && lowerWqFull then Quiet(c)
          else
            Effect(Install(rest, s, way, p, true).(stats := c.stats.CountMiss(p.kind)),
                   Upward(c, p), None,
                   if b.dirty then Some(WritebackPacket(c, b, now)) else None)
  }

  /** One round of handle_read. */
  function ReadStep(c: Cache, now: nat): Effect
    requires Shape(c)
  {
    if |c.rq| == 0 || now < c.rq[0].eventCycle then Quiet(c)
    else
      var p := c.rq[0];
      var s := GetSet(c.cfg, p.address);
      var w := CheckHit(c, p.address);
      var rest := c.(rq := c.rq[1..]);
      if w >= 0 then
        var t := Touch(c.blocks[s], w, p.kind, true);
        Effect(PutSet(rest, s, t[w := t[w].(prefetch := false, used := true)]).(stats := c.stats.CountHit(p.kind)),
               Upward(c, p), None, None)
      else
        DemandMiss(c, p, rest.(stats := c.stats.CountMiss(p.kind)))
  }

  /** A prefetch miss; one that fills only lower levels takes no register. */
  function PrefetchMiss(c: Cache, p: Packet, popped: Cache, lowerPqFull: bool): Effect {
    var i := CheckMshr(c.mshr, p.address);
    if i == -1 && c.mshr.occupancy < c.cfg.mshrSize then
      if lowerPqFull then Quiet(c)
      else
        Effect(if p.fillLevel <= c.cfg.fillLevel then popped.(mshr := AddMshr(c.mshr, p)) else popped,
               None, Some(p), None)
    else if i == -1 then
      if c.mshr.occupancy == c.cfg.mshrSize then Quiet(c) else Abort
    else
      Quiet(popped.(mshr := Merge(c.mshr, i, p, false)))
  }

  /** One round of handle_prefetch. */
  function PrefetchStep(c: Cache, now: nat, lowerPqFull: bool): Effect
    requires Shape(c)
  {
    if |c.pq| == 0 || now < c.pq[0].eventCycle then Quiet(c)
    else
      var p := c.pq[0];
      var s := GetSet(c.cfg, p.address);
      var w := CheckHit(c, p.address);
      var rest := c.(pq := c.pq[1..]);
      if w >= 0 then
        var t := Touch(c.blocks[s], w, p.kind, true);
        Effect(PutSet(rest, s, t).(stats := c.stats.CountHit(p.kind)), Upward(c, p), None, None)
      else
        PrefetchMiss(c, p, rest.(stats := c.stats.CountMiss(p.kind)), lowerPqFull)
  }

  // ---- Requests from the level above ----

  /** How a queue takes a packet: served from the write queue (-1), merged (an index),
      refused (-2), or queued (-1). */
  datatype Admission = Forwarded | Merged | Refused | Queued

  function WqIndex(c: Cache, p: Packet): (i: int)
    ensures -1 <= i < |c.wq|
  {
    FirstMatch(c.wq, KeyOf(p, c.cfg.isL1D), c.cfg.isL1D)
  }

  function RqAdmission(c: Cache, p: Packet): Admission {
    if WqIndex(c, p) != -1 then Forwarded
    else if FirstMatch(c.rq, p.address, false) != -1 then Merged
    else if |c.rq| == c.cfg.rqSize then Refused
    else Queued
  }

  function PqAdmission(c: Cache, p: Packet): Admission {
    if WqIndex(c, p) != -1 then Forwarded
    else if FirstMatch(c.pq, p.address, false) != -1 then Merged
    else if |c.pq| == c.cfg.pqSize then Refused
    else Queued
  }

  function Aged(c: Cache, p: Packet, now: nat): Packet {
    p.(eventCycle := Delayed(p.eventCycle, now, c.cfg.latency))
  }

  function AddRq(c: Cache, p: Packet, now: nat): Effect {
    match RqAdmission(c, p)
    case Forwarded =>
      Effect(c.(stats := c.stats.CountHit(p.kind).(wqForward := c.stats.wqForward + 1)), Upward(c, p), None, None)
    case Merged => Quiet(c)
    case Refused => Quiet(c)
    case Queued =>
      if p.address == 0 then Abort
      else Quiet(c.(rq := c.rq + [Aged(c, p, now)], stats := c.stats.(rqToCache := c.stats.rqToCache + 1)))
  }

  function AddPq(c: Cache, p: Packet, now: nat): Effect {
    match PqAdmission(c, p)
    case Forwarded =>
      Effect(c.(stats := c.stats.CountHit(p.kind).(wqForward := c.stats.wqForward + 1)), Upward(c, p), None, None)
    case Merged =>
      var i := FirstMatch(c.pq, p.address, false);
      Quiet(if p.fillLevel < c.pq[i].fillLevel
            then c.(pq := c.pq[i := c.pq[i].(fillLevel := p.fillLevel)]) else c)
    case Refused => Quiet(c)
    case Queued =>
      if p.address == 0 then Abort
      else Quiet(c.(pq := c.pq + [Aged(c, p, now)], stats := c.stats.(pqToCache := c.stats.pqToCache + 1)))
  }

  function AddWq(c: Cache, p: Packet, now: nat): Effect {
    if WqIndex(c, p) != -1 then Quiet(c)
    else if |c.wq| >= c.cfg.wqSize then Abort
    else Quiet(c.(wq := c.wq + [Aged(c, p, now)], stats := c.stats.(wqToCache := c.stats.wqToCache + 1)))
  }

  /** return_data: Abort is its "cannot find a matching entry" assert. */
  function ReturnData(c: Cache, p: Packet, now: nat): Effect {
    var i := CheckMshr(c.mshr, p.address);
    if i == -1 then Abort else Quiet(c.(mshr := Return(c.mshr, i, now, c.cfg.latency)))
  }

  // ---- Construction ----

  ghost predicate ZeroTally(t: Tally) {
    t.load == 0 && t.rfo == 0 && t.prefetch == 0 && t.writeback == 0
  }

  ghost predicate IsInitialSet(t: seq<Block>, numWays: nat) {
    |t| == numWays && forall w :: 0 <= w < |t| ==> t[w] == Block(false, false, false, false, 0, 0, 0, w)
  }

  /** What the CACHE constructor leaves: empty queues and registers, invalid blocks, lru == way. */
  ghost predicate IsInitial(c: Cache) {
    && c.cfg.numSets > 0 && c.cfg.numWays > 0
    && |c.rq| == 0 && |c.wq| == 0 && |c.pq| == 0
    && c.mshr == EmptyMshr(c.cfg.mshrSize)
    && |c.blocks| == c.cfg.numSets
    && (forall s :: 0 <= s < |c.blocks| ==> IsInitialSet(c.blocks[s], c.cfg.numWays))
    && c.stats.rqToCache == 0 && c.stats.wqToCache == 0 && c.stats.pqToCache == 0 && c.stats.wqForward == 0
    && ZeroTally(c.stats.access) && ZeroTally(c.stats.hit) && ZeroTally(c.stats.miss)
  }
}
