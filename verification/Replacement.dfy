/** The blocks of one cache set and their LRU replacement (replacement/base_replacement.cc, inc/block.h). */
module Replacement {
  import opened Counting
  import LruOrder

  datatype Block = Block(valid: bool, dirty: bool, prefetch: bool, used: bool,
                         address: nat, tag: nat, fullAddr: nat, lru: nat)

  function Lrus(set_: seq<Block>): (l: seq<nat>)
    ensures |l| == |set_|
  {
    seq(|set_|, i requires 0 <= i < |set_| => set_[i].lru)
  }

  /** The lru fields are a permutation of 0..NUM_WAY-1. */
  ghost predicate LruOk(set_: seq<Block>) {
    LruOrder.Permutation(Lrus(set_))
  }

  /** lru_update on the blocks of a set. */
  function LruUpdate(set_: seq<Block>, way: nat): (t: seq<Block>)
    requires way < |set_|
    ensures |t| == |set_|
  {
    var l := LruOrder.Promote(Lrus(set_), way);
    seq(|set_|, i requires 0 <= i < |set_| => set_[i].(lru := l[i]))
  }

  /** First way from `from` on that holds no valid block, or the number of ways. */
  function FirstInvalid(set_: seq<Block>, from: nat): (w: nat)
    requires from <= |set_|
    ensures from <= w <= |set_|
    ensures forall i :: from <= i < w ==> set_[i].valid
    ensures w < |set_| ==> !set_[w].valid
    decreases |set_| - from
  {
    if from == |set_| || !set_[from].valid then from else FirstInvalid(set_, from + 1)
  }

  /** First way from `from` on at the LRU position, or the number of ways. */
  function FirstOldest(set_: seq<Block>, from: nat): (w: nat)
    requires from <= |set_|
    ensures from <= w <= |set_|
    ensures forall i :: from <= i < w ==> set_[i].lru != |set_| - 1
    ensures w < |set_| ==> set_[w].lru == |set_| - 1
    decreases |set_| - from
  {
    if from == |set_| || set_[from].lru == |set_| - 1 then from else FirstOldest(set_, from + 1)
  }

  /** An invalid way if there is one, otherwise the LRU way; NUM_WAY would trip the source's assert. */
  function LruVictim(set_: seq<Block>): (w: nat)
    ensures w <= |set_|
  {
    var w := FirstInvalid(set_, 0);
    if w < |set_| then w else FirstOldest(set_, 0)
  }

  lemma InitialLru(set_: seq<Block>)
    requires forall w :: 0 <= w < |set_| ==> set_[w].lru == w
    ensures LruOk(set_)
  {
    LruOrder.InitialPermutation(Lrus(set_));
  }

  lemma UpdatedLrus(set_: seq<Block>, way: nat)
    requires way < |set_|
    ensures Lrus(LruUpdate(set_, way)) == LruOrder.Promote(Lrus(set_), way)
  {
  }

  /** Promotion keeps the permutation, and a victim is always found. */
  lemma LruOkKept(set_: seq<Block>, way: nat)
    requires LruOk(set_) && way < |set_|
    ensures LruOk(LruUpdate(set_, way)) && LruVictim(set_) < |set_|
  {
    UpdatedLrus(set_, way);
    LruOrder.PromoteKeepsPermutation(Lrus(set_), way);
    var w :| 0 <= w < |set_| && Lrus(set_)[w] == |set_| - 1;
    assert set_[w].lru == |set_| - 1;
  }

  lemma LruOkFrame(set_: seq<Block>, t: seq<Block>)
    requires LruOk(set_) && |t| == |set_|
    requires forall w :: 0 <= w < |t| ==> t[w].lru == set_[w].lru
    ensures LruOk(t)
  {
    assert Lrus(t) == Lrus(set_);
  }

  /** With every way valid after a history of promotions, the victim is the way that every other
      way was promoted after. */
  lemma VictimLeastRecent(set_: seq<Block>, init: seq<nat>, history: seq<nat>, other: nat)
    requires forall w :: 0 <= w < |init| ==> init[w] == w
    requires forall i :: 0 <= i < |history| ==> history[i] < |init|
    requires Lrus(set_) == LruOrder.PromoteAll(init, history)
    requires forall w :: 0 <= w < |set_| ==> set_[w].valid
    requires other < |set_|
    ensures var v := LruVictim(set_); v < |set_| && (other == v || LruOrder.MoreRecent(history, other, v))
  {
    LruOrder.InitialPermutation(init);
    LruOrder.PromoteAllPermutation(init, history);
    LruOkKept(set_, other);
    var v := LruVictim(set_);
    assert Lrus(set_)[v] == |init| - 1;
    LruOrder.OldestLeastRecent(init, history, v, other);
  }

  /** A set with an invalid way loses no line. */
  lemma VictimIsInvalid(set_: seq<Block>, w: nat)
    requires w < |set_| && !set_[w].valid
    ensures LruVictim(set_) < |set_| && !set_[LruVictim(set_)].valid
  {
  }
}
