/** What the streamer issues between two inserts of a region, over whole runs of Bingo with all its tables
    (prefetcher/bingo.cc, inc/bingo.h). */
module BingoStreaming {
  import opened Counting
  import opened HashIndex
  import opened LruTable
  import opened Footprints
  import opened PatternHistory
  import opened Streamer
  import opened Bingo

  /** The event gives the streamer a new pattern for region q: a trigger access that found one. */
  predicate Inserts(p: Params, s: State, e: Event, q: nat)
    requires p.len > 0
  {
    e.Load? && !Tracked(p, s, Region(p, e.block)) && e.found != [] && Quotient(e.block, p.len) == q
  }

  /** The event is a call of the streamer for a block of region q. */
  predicate Calls(p: Params, e: Event, q: nat)
    requires p.len > 0
  {
    e.Prefetches? && Quotient(e.block, p.len) == q
  }

  /** What the event issues for region q. */
  function Issued(p: Params, s: State, e: Event, q: nat): seq<Request>
    requires LifeOk(p, s)
  {
    if Calls(p, e, q) then Stream(p, s, e.block, e.room).1 else []
  }

  /** The block of region q that a call is for, while the streamer has the region. */
  function Accessed(p: Params, s: State, e: Event, q: nat): set<nat>
    requires p.len > 0
  {
    if Calls(p, e, q) && PsKey(p, q) in s.ps.data then {e.block % p.len} else {}
  }

  /** The entry of region q makes room for another region's. */
  ghost predicate Displaced(p: Params, s: State, e: Event, q: nat)
    requires LifeOk(p, s)
  {
    e.Load? && PsKey(p, q) in s.ps.data && PsKey(p, q) !in Step(p, s, e).0.ps.data
  }

  /** The marks of region q that are left in the streamer. */
  function Left(p: Params, s: State, q: nat): set<nat> {
    if PsKey(p, q) in s.ps.data then Marks(s.ps.data[PsKey(p, q)]) else {}
  }

  /** One event that brings no new pattern for region q: what is issued was marked, the marks issued and the
      block accessed are gone, the others stay; and the entry goes only when it is displaced or, by a call,
      exactly when no mark is left. */
  ghost predicate Consumed(p: Params, s: State, e: Event, q: nat)
    requires LifeOk(p, s)
  {
    var t, issued, accessed := Step(p, s, e).0, Issued(p, s, e, q), Accessed(p, s, e, q);
    var k := PsKey(p, q);
    && DistinctOffsets(issued) && Offsets(issued) <= Left(p, s, q) - accessed
    && (k !in s.ps.data ==> k !in t.ps.data)
    && (Displaced(p, s, e, q) || Left(p, t, q) == Left(p, s, q) - accessed - Offsets(issued))
    && (Calls(p, e, q) && k in s.ps.data ==> (k !in t.ps.data <==> Left(p, s, q) - accessed == Offsets(issued)))
    && (!Calls(p, e, q) && k in s.ps.data && k !in t.ps.data ==> Displaced(p, s, e, q))
  }

  lemma CallConsumes(p: Params, s: State, e: Event, q: nat)
    requires LifeOk(p, s) && Calls(p, e, q)
    ensures Consumed(p, s, e, q)
  {
    hide Hash, Prefetch, Ok, FtOk, AtOk, PhtOk, Apart;
    var k, offset := PsKey(p, q), e.block % p.len;
    if k in s.ps.data {
      PrefetchMeaning(s.ps.data[k], offset, e.room);
    }
  }

  lemma OtherCallConsumes(p: Params, s: State, e: Event, q: nat)
    requires LifeOk(p, s) && e.Prefetches? && !Calls(p, e, q)
    ensures Consumed(p, s, e, q)
  {
    hide Hash, Prefetch, Ok, FtOk, AtOk, PhtOk, Apart;
    HashInjective(Quotient(e.block, p.len), q, p.psIndex);
    assert Offsets([]) == {};
  }

  lemma LoadConsumes(p: Params, s: State, e: Event, q: nat)
    requires LifeOk(p, s) && EventOk(p, e) && e.Load? && !Inserts(p, s, e, q)
    ensures Consumed(p, s, e, q)
  {
    hide Hash, Insert, Ok, FtOk, AtOk, PhtOk, Apart, Mark, Promote, Region;
    assert Offsets([]) == {};
    var x := Quotient(e.block, p.len);
    if !Tracked(p, s, Region(p, e.block)) && e.found != [] {
      HashInjective(x, q, p.psIndex);
      InsertKeys(s.ps, PsKey(p, x), e.found);
    } else {
      LoadKeepsPs(p, s, e);
    }
  }

  lemma LoadKeepsPs(p: Params, s: State, e: Event)
    requires LifeOk(p, s) && e.Load? && (Tracked(p, s, Region(p, e.block)) || e.found == [])
    ensures Step(p, s, e).0.ps == s.ps
  {
    hide Hash, Insert, Ok, PhtOk, Apart, Mark, Admit, Learn, Touch, Leaving;
  }

  lemma EvictConsumes(p: Params, s: State, e: Event, q: nat)
    requires LifeOk(p, s) && e.Evict?
    ensures Consumed(p, s, e, q)
  {
    hide Hash, Ok, FtOk, AtOk, PhtOk, Apart, Learn;
    assert Offsets([]) == {};
  }

  lemma StepConsumes(p: Params, s: State, e: Event, q: nat)
    requires LifeOk(p, s) && EventOk(p, e) && !Inserts(p, s, e, q)
    ensures Consumed(p, s, e, q)
  {
    hide Consumed, Inserts, FtOk, AtOk, PhtOk, PsOk, Apart;
    match e
    case Load(_, _, _) => LoadConsumes(p, s, e, q);
    case Evict(_) => EvictConsumes(p, s, e, q);
    case Prefetches(_, _) =>
      if Calls(p, e, q) {
        CallConsumes(p, s, e, q);
      } else {
        OtherCallConsumes(p, s, e, q);
      }
  }

  // ---- Between two inserts ----

  /** No event of the run brings a new pattern for region q. */
  ghost predicate Undisturbed(p: Params, s: State, events: seq<Event>, q: nat)
    requires LifeOk(p, s) && EventsOk(p, events)
    decreases |events|
  {
    |events| == 0 || (
      StepOk(p, s, events[0]);
      !Inserts(p, s, events[0], q) && Undisturbed(p, Step(p, s, events[0]).0, events[1..], q))
  }

  /** What a run makes of region q: the state, everything issued for it in order, the blocks accessed while
      the streamer had it, and whether its entry was displaced. */
  datatype History = History(s: State, issued: seq<Request>, accessed: set<nat>, displaced: bool)

  ghost function Follow(p: Params, s: State, events: seq<Event>, q: nat): History
    requires LifeOk(p, s) && EventsOk(p, events)
    decreases |events|
  {
    if |events| == 0 then History(s, [], {}, false)
    else
      StepOk(p, s, events[0]);
      var h := Follow(p, Step(p, s, events[0]).0, events[1..], q);
      History(h.s, Issued(p, s, events[0], q) + h.issued, Accessed(p, s, events[0], q) + h.accessed,
              Displaced(p, s, events[0], q) || h.displaced)
  }

  /** Between two inserts for a region, whatever happens in the four tables: each block is requested at most
      once, and only a marked one not accessed before; unless the entry is displaced by other regions, exactly
      the marks neither requested nor accessed are left, and the entry is gone only if none is. */
  lemma {:induction false} RequestedOnceBetweenInserts(p: Params, s: State, events: seq<Event>, q: nat)
    requires LifeOk(p, s) && EventsOk(p, events) && Undisturbed(p, s, events, q)
    ensures var h := Follow(p, s, events, q);
      && DistinctOffsets(h.issued) && Offsets(h.issued) <= Left(p, s, q)
      && Left(p, h.s, q) <= Left(p, s, q) - h.accessed - Offsets(h.issued)
      && (!h.displaced ==> Left(p, h.s, q) == Left(p, s, q) - h.accessed - Offsets(h.issued))
    decreases |events|
  {
    hide FtOk, AtOk, PhtOk, PsOk, Apart, Step, Inserts, Left, Issued, Accessed, Displaced, DistinctOffsets;
    if |events| == 0 {
      NothingIssued();
    } else {
      StepOk(p, s, events[0]);
      StepConsumes(p, s, events[0], q);
      var t := Step(p, s, events[0]).0;
      RequestedOnceBetweenInserts(p, t, events[1..], q);
      var h := Follow(p, t, events[1..], q);
      var issued := Issued(p, s, events[0], q);
      DisplacedLeavesNothing(p, s, events[0], q);
      assert Left(p, t, q) <= Left(p, s, q) - Accessed(p, s, events[0], q) - Offsets(issued);
      JoinDistinct(issued, h.issued);
    }
  }

  lemma NothingIssued()
    ensures DistinctOffsets([]) && Offsets([]) == {}
  {
  }

  lemma DisplacedLeavesNothing(p: Params, s: State, e: Event, q: nat)
    requires LifeOk(p, s)
    ensures Displaced(p, s, e, q) ==> Left(p, Step(p, s, e).0, q) == {}
  {
  }

  // ---- What a trigger access gives the streamer ----

  /** A load of a region in neither table. */
  predicate Triggers(p: Params, s: State, e: Event)
    requires p.len > 0
  {
    e.Load? && !Tracked(p, s, Region(p, e.block))
  }

  lemma TriggerKeys(p: Params, s: State, e: Event)
    requires LifeOk(p, s) && Triggers(p, s, e) && e.found != []
    ensures Ok(s.ps) && s.ps.sets > 0 && Step(p, s, e).0.ps == Insert(s.ps, PsKey(p, Quotient(e.block, p.len)), e.found)
  {
    hide Hash, Insert, FtOk, AtOk, PhtOk, Apart;
  }

  /** The access hands what it found to the streamer, for its own region; the others keep their entries, unless
      one makes room. Finding nothing changes nothing there. */
  lemma TriggerInserts(p: Params, s: State, e: Event)
    requires LifeOk(p, s) && EventOk(p, e) && Triggers(p, s, e)
    ensures var t, q := Step(p, s, e).0, Quotient(e.block, p.len);
      && (e.found == [] ==> t.ps == s.ps)
      && (e.found != [] ==> PsKey(p, q) in t.ps.data && t.ps.data[PsKey(p, q)] == e.found && Left(p, t, q) == Marks(e.found))
      && forall r: nat :: r != q ==>
           (Left(p, t, r) == Left(p, s, r) || (PsKey(p, r) !in t.ps.data && Victim(s.ps, PsKey(p, q)) == Some(PsKey(p, r))))
  {
    hide Hash, Insert, Victim, Ok, FtOk, AtOk, PhtOk, Apart, Region, Step;
    var q := Quotient(e.block, p.len);
    if e.found == [] {
      LoadKeepsPs(p, s, e);
    } else {
      TriggerKeys(p, s, e);
      InsertMeaning(s.ps, PsKey(p, q), e.found);
      var t := Step(p, s, e).0;
      forall r: nat | r != q
        ensures Left(p, t, r) == Left(p, s, r) || (PsKey(p, r) !in t.ps.data && Victim(s.ps, PsKey(p, q)) == Some(PsKey(p, r)))
      {
        HashInjective(r, q, p.psIndex);
        var k := PsKey(p, r);
        assert Victim(s.ps, PsKey(p, q)) != Some(k) ==> Find(t.ps, k) == Find(s.ps, k);
      }
    }
  }

  /** From a trigger access to the next one of its region: all that is requested is marked in what the lookup
      found, each block at most once; unless the entry is displaced, what is neither requested nor accessed is
      still marked. */
  lemma FoundIsRequested(p: Params, s: State, e: Event, events: seq<Event>)
    requires LifeOk(p, s) && EventOk(p, e) && Triggers(p, s, e) && e.found != [] && EventsOk(p, events)
    requires LifeOk(p, Step(p, s, e).0) && Undisturbed(p, Step(p, s, e).0, events, Quotient(e.block, p.len))
    ensures var h, q := Follow(p, Step(p, s, e).0, events, Quotient(e.block, p.len)), Quotient(e.block, p.len);
      && DistinctOffsets(h.issued) && Offsets(h.issued) <= Marks(e.found)
      && (!h.displaced ==> Left(p, h.s, q) == Marks(e.found) - h.accessed - Offsets(h.issued))
  {
    hide LifeOk, Step, Left, Follow, DistinctOffsets, Undisturbed;
    TriggerInserts(p, s, e);
    RequestedOnceBetweenInserts(p, Step(p, s, e).0, events, Quotient(e.block, p.len));
  }

  /** The call of the streamer for the trigger access itself requests, while there is room, every block that the
      lookup found except the accessed one, nearest first, and each into the level that was found for it. */
  lemma FirstCallServes(p: Params, s: State, e: Event, room: nat -> bool)
    requires LifeOk(p, s) && EventOk(p, e) && Triggers(p, s, e) && e.found != [] && LifeOk(p, Step(p, s, e).0)
    ensures var issued := Stream(p, Step(p, s, e).0, e.block, room).1;
      && DistinctOffsets(issued) && Offsets(issued) <= Marks(e.found) - {e.block % p.len}
      && (forall i :: 0 <= i < |issued| ==> issued[i].offset < |e.found| && issued[i].level == e.found[issued[i].offset])
      && (forall i, j :: 0 <= i < j < |issued| ==> Sooner(e.block % p.len, issued[i].offset, issued[j].offset))
      && (room(|issued|) ==> Offsets(issued) == Marks(e.found) - {e.block % p.len})
  {
    hide Step, Hash, Prefetch, Sooner, Ok, FtOk, AtOk, PhtOk, Apart;
    TriggerInserts(p, s, e);
    PrefetchMeaning(e.found, e.block % p.len, room);
    PrefetchInOrder(e.found, e.block % p.len, room);
  }
}
