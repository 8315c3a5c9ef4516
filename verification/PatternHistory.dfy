/** Bingo's pattern history table (inc/bingo.h): what a lookup finds. */
module PatternHistory {
  import opened Counting
  import opened HashIndex
  import opened LruTable
  import opened Footprints

  type Pattern = seq<bool>

  ghost predicate PhtOk(t: Table<Pattern>, w: Widths, len: nat) {
    && Ok(t) && WidthsOk(w) && t.sets == Pow2(w.indexLen) && len == Pow2(w.minAddr)
    && forall k :: k in t.data ==> k < Pow2(w.pc + w.maxAddr) && |t.data[k]| == len
  }

  /** The trigger offset a stored key came from. */
  function OffsetOf(w: Widths, k: nat): nat {
    Hash(k % Pow2(w.pc + w.minAddr), w.indexLen) % Pow2(w.minAddr)
  }

  /** The pattern stored under a key, in its original orientation. */
  function Stored(t: Table<Pattern>, w: Widths, k: nat): Pattern
    requires k in t.data && |t.data[k]| > 0
  {
    Rotate(t.data[k], OffsetOf(w, k))
  }

  /** insert: the pattern is rotated so that its trigger comes first. */
  function PhtInsert(t: Table<Pattern>, w: Widths, pc: nat, address: nat, pattern: Pattern): Table<Pattern>
    requires |pattern| > 0 && t.sets > 0
  {
    Insert(t, BuildKey(w, pc, address), Rotate(pattern, -(address % |pattern|)))
  }

  /** Keys agree on the trigger. */
  predicate SameLow(w: Widths, k: nat, k': nat) {
    k % Pow2(w.pc + w.minAddr) == k' % Pow2(w.pc + w.minAddr)
  }

  /** The keys a lookup answers with: the key itself, or all that agree on the trigger. */
  ghost predicate Selects(t: Table<Pattern>, w: Widths, key: nat, keys: seq<nat>) {
    if key in t.data then keys == [key]
    else Distinct(keys) && forall k :: k in keys <==> k in t.data && SameLow(w, k, key)
  }

  /** A lookup is exact: `matches` are the stored patterns of the selected keys, rotated back. */
  ghost predicate Exact(t: Table<Pattern>, w: Widths, len: nat, pc: nat, address: nat, keys: seq<nat>, matches: seq<Pattern>)
    requires PhtOk(t, w, len)
  {
    && Selects(t, w, BuildKey(w, pc, address), keys)
    && |matches| == |keys|
    && forall i :: 0 <= i < |keys| ==> keys[i] in t.data && matches[i] == Stored(t, w, keys[i])
  }

  // ---- Properties ----

  /** Keys agree on the trigger exactly when their accesses do. */
  lemma SameLowMeaning(w: Widths, pc: nat, address: nat, pc': nat, address': nat)
    requires WidthsOk(w)
    ensures SameLow(w, BuildKey(w, pc, address), BuildKey(w, pc', address')) <==> SameTrigger(w, pc, address, pc', address')
  {
    KeyParts(w, pc, address);
    KeyParts(w, pc', address');
    TriggerMeaning(w, pc, address, pc', address');
    HashInjective(Trigger(w, pc, address), Trigger(w, pc', address'), w.indexLen);
  }

  /** A key remembers its region offset. */
  lemma OffsetOfKey(w: Widths, pc: nat, address: nat)
    requires WidthsOk(w)
    ensures OffsetOf(w, BuildKey(w, pc, address)) == address % Pow2(w.minAddr)
  {
    hide Pow2, Hash;
    KeyParts(w, pc, address);
    HashSelfInverse(Trigger(w, pc, address), w.indexLen);
    ModMod(address, w.maxAddr, w.minAddr);
    Pair(pc % Pow2(w.pc), address % Pow2(w.minAddr), 0, 0, Pow2(w.minAddr));
  }

  /** Keys that agree on the trigger remember the same offset. */
  lemma SameLowSameOffset(w: Widths, k: nat, k': nat)
    requires SameLow(w, k, k')
    ensures OffsetOf(w, k) == OffsetOf(w, k')
  {
  }

  lemma PhtInsertOk(t: Table<Pattern>, w: Widths, len: nat, pc: nat, address: nat, pattern: Pattern)
    requires PhtOk(t, w, len) && |pattern| == len
    ensures PhtOk(PhtInsert(t, w, pc, address, pattern), w, len)
  {
    hide Pow2, Victim;
    var k, v := BuildKey(w, pc, address), Rotate(pattern, -(address % |pattern|));
    InsertOk(t, k, v);
    InsertMeaning(t, k, v);
    KeyParts(w, pc, address);
    InsertKeys(t, k, v);
  }

  lemma PhtTouchOk(t: Table<Pattern>, w: Widths, len: nat, k: nat)
    requires PhtOk(t, w, len) && k in t.data
    ensures PhtOk(Touch(t, k), w, len)
  {
    TouchOk(t, k);
  }

  /** Only the inserted key is new. */
  lemma InsertKeys<T>(t: Table<T>, k: nat, v: T)
    requires Ok(t)
    ensures forall x :: x in Insert(t, k, v).data ==> x == k || (x in t.data && Insert(t, k, v).data[x] == t.data[x])
    ensures k in Insert(t, k, v).data && Insert(t, k, v).data[k] == v
  {
  }

  /** Rotating every selected pattern to the offset of the access is rotating it back. */
  lemma RotatedBackIsExact(t: Table<Pattern>, w: Widths, len: nat, pc: nat, address: nat, keys: seq<nat>,
                           found: seq<Pattern>, matches: seq<Pattern>)
    requires PhtOk(t, w, len) && Selects(t, w, BuildKey(w, pc, address), keys)
    requires |found| == |keys| == |matches|
    requires forall i :: 0 <= i < |keys| ==> keys[i] in t.data && found[i] == t.data[keys[i]]
    requires forall i :: 0 <= i < |keys| ==> |found[i]| > 0 && matches[i] == Rotate(found[i], address % len)
    ensures Exact(t, w, len, pc, address, keys, matches)
  {
    hide Pow2, BuildKey, OffsetOf, SameLow, Rotate;
    OffsetOfKey(w, pc, address);
    forall i | 0 <= i < |keys| ensures matches[i] == Stored(t, w, keys[i]) {
      assert keys[i] in keys;
      assert keys[i] == BuildKey(w, pc, address) || SameLow(w, keys[i], BuildKey(w, pc, address));
      if keys[i] != BuildKey(w, pc, address) {
        SameLowSameOffset(w, keys[i], BuildKey(w, pc, address));
      }
    }
  }

  /** What is inserted is stored under its PC and address; other keys keep their patterns. */
  lemma InsertStores(t: Table<Pattern>, w: Widths, len: nat, pc: nat, address: nat, pattern: Pattern)
    requires PhtOk(t, w, len) && |pattern| == len
    ensures var t', k := PhtInsert(t, w, pc, address, pattern), BuildKey(w, pc, address);
      && k in t'.data && |t'.data[k]| == len && Stored(t', w, k) == pattern
      && forall x :: x in t'.data && x != k ==> x in t.data && Stored(t', w, x) == Stored(t, w, x)
  {
    hide Pow2, Insert, BuildKey, OffsetOf, Rotate;
    var k, v := BuildKey(w, pc, address), Rotate(pattern, -(address % |pattern|));
    InsertKeys(t, k, v);
    OffsetOfKey(w, pc, address);
    RotateBack(pattern, address % len);
  }

  /** Insert, then find under the same PC and address: exactly the pattern. */
  lemma InsertThenFind(t: Table<Pattern>, w: Widths, len: nat, pc: nat, address: nat, pattern: Pattern,
                       pc': nat, address': nat, keys: seq<nat>, matches: seq<Pattern>)
    requires PhtOk(t, w, len) && |pattern| == len && SameEvent(w, pc, address, pc', address')
    requires PhtOk(PhtInsert(t, w, pc, address, pattern), w, len)
    requires Exact(PhtInsert(t, w, pc, address, pattern), w, len, pc', address', keys, matches)
    ensures matches == [pattern]
  {
    InsertStores(t, w, len, pc, address, pattern);
    KeyMeaning(w, pc, address, pc', address');
  }

  /** A lookup under another PC and address answers with the pattern of a stored access exactly when
      they agree on the trigger and no access of exactly this PC and address is stored. */
  lemma FindMeaning(t: Table<Pattern>, w: Widths, len: nat, pc: nat, address: nat, pc': nat, address': nat,
                    keys: seq<nat>, matches: seq<Pattern>)
    requires PhtOk(t, w, len) && Exact(t, w, len, pc', address', keys, matches) && BuildKey(w, pc, address) in t.data
    ensures BuildKey(w, pc, address) in keys <==>
      SameEvent(w, pc, address, pc', address')
      || (SameTrigger(w, pc, address, pc', address') && BuildKey(w, pc', address') !in t.data)
  {
    SameLowMeaning(w, pc, address, pc', address');
    KeyMeaning(w, pc, address, pc', address');
  }

  /** A row of the table starts at the trigger: its j-th bit is that of the block j places after the trigger, around
      the region. */
  lemma StoredFromTrigger(t: Table<Pattern>, w: Widths, len: nat, pc: nat, address: nat, pattern: Pattern, j: nat)
    requires PhtOk(t, w, len) && |pattern| == len && j < len
    ensures var k, r := BuildKey(w, pc, address), PhtInsert(t, w, pc, address, pattern);
      k in r.data && |r.data[k]| == len && r.data[k][j] == pattern[(address % len + j) % len]
  {
    hide BuildKey, Victim, Ok, Pow2;
    var o := address % len;
    RemNegative(o, len);
    assert Rem(o, len) == o by {
      DivModUnique(o, len, 0, o);
    }
    var n := j + o;
    assert (j - Rem(-o, len) + len) == n + len;
    if n < len {
      DivModUnique(n + len, len, 1, n);
      DivModUnique(n, len, 0, n);
    } else {
      DivModUnique(n + len, len, 2, n - len);
      DivModUnique(n, len, 1, n - len);
    }
  }
}
