/** Keys and patterns of Bingo's pattern history table (inc/bingo.h): the two-granularity key, and
    patterns stored rotated to their trigger offset. */
module Footprints {
  import opened Counting
  import opened HashIndex
  import opened LruTable

  // ---- Rotation ----

  /** The remainder of C++, which truncates towards zero. */
  function Rem(n: int, len: nat): (r: int)
    requires len > 0
    ensures -(len as int) < r < len
  {
    if n >= 0 then n % len else -(-n % len)
  }

  lemma RemNegative(n: int, len: nat)
    requires len > 0
    ensures Rem(-n, len) == -Rem(n, len)
  {
  }

  /** my_rotate */
  function Rotate<T>(x: seq<T>, n: int): (y: seq<T>)
    requires |x| > 0
    ensures |y| == |x|
    ensures forall i :: 0 <= i < |y| ==> y[i] == x[(i - Rem(n, |x|) + |x|) % |x|]
  {
    seq(|x|, i requires 0 <= i < |x| => x[(i - Rem(n, |x|) + |x|) % |x|])
  }

  lemma ModCancel(i: nat, r: int, len: nat)
    requires i < len && -(len as int) < r < len
    ensures var j := (i - r + len) % len; 0 <= j < len && (j + r + len) % len == i
  {
    var m := i - r + len;
    if m < len {
      Residue(m, len, 0);
      Residue(m + r + len, len, 2);
    } else if m < 2 * len {
      Residue(m, len, 1);
      Residue(m - len + r + len, len, 1);
    } else {
      Residue(m, len, 2);
      Residue(m - 2 * len + r + len, len, 0);
    }
  }

  lemma Residue(a: int, len: nat, k: nat)
    requires 0 < len && k * len <= a < k * len + len
    ensures a % len == a - k * len
  {
    DivModUnique(a, len, k, a - k * len);
  }

  /** A pattern rotated there is rotated back. */
  lemma RotateBack<T>(x: seq<T>, n: int)
    requires |x| > 0
    ensures Rotate(Rotate(x, -n), n) == x
  {
    hide Rem;
    RemNegative(n, |x|);
    var y, r := Rotate(x, -n), Rem(n, |x|);
    var z := Rotate(y, n);
    forall i | 0 <= i < |x| ensures z[i] == x[i] {
      ModCancel(i, r, |x|);
      var j := (i - r + |x|) % |x|;
      assert z[i] == y[j] && y[j] == x[(j - Rem(-n, |x|) + |x|) % |x|];
    }
  }

  // ---- Keys ----

  datatype Widths = Widths(pc: nat, minAddr: nat, maxAddr: nat, indexLen: nat)

  /** The masks `(1 << width) - 1` are 32-bit ints in the source, so their widths are at most 30. */
  predicate WidthsOk(w: Widths) {
    && w.minAddr <= w.maxAddr <= 30 && w.pc <= 30 && w.indexLen <= 30
    && w.indexLen <= w.pc + w.minAddr && w.pc + w.maxAddr - w.indexLen <= 30
  }

  /** Two bit fields side by side, the lower one below n. */
  function Join(hi: nat, lo: nat, n: nat): nat { hi * n + lo }

  /** The bits of a trigger that its PC and its offset in the region give. */
  function Trigger(w: Widths, pc: nat, address: nat): nat {
    Join(pc % Pow2(w.pc), address % Pow2(w.maxAddr) % Pow2(w.minAddr), Pow2(w.minAddr))
  }

  /** The address bits above the offset in the region. */
  function Base(w: Widths, address: nat): nat {
    HighBits(address % Pow2(w.maxAddr), w.minAddr)
  }

  function HighBits(a: nat, n: nat): nat { Quotient(a, Pow2(n)) }

  function Quotient(a: nat, d: nat): nat
    requires d > 0
  {
    a / d
  }

  /** build_key: the higher address bits above the hashed trigger. */
  function BuildKey(w: Widths, pc: nat, address: nat): nat {
    Join(Base(w, address), Hash(Trigger(w, pc, address), w.indexLen), Pow2(w.pc + w.minAddr))
  }

  /** Two accesses agree on the PC and on the offset in the region. */
  predicate SameTrigger(w: Widths, pc: nat, address: nat, pc': nat, address': nat) {
    pc % Pow2(w.pc) == pc' % Pow2(w.pc) && address % Pow2(w.minAddr) == address' % Pow2(w.minAddr)
  }

  /** Two accesses agree on the PC and on the address, as far as the table keeps them. */
  predicate SameEvent(w: Widths, pc: nat, address: nat, pc': nat, address': nat) {
    pc % Pow2(w.pc) == pc' % Pow2(w.pc) && address % Pow2(w.maxAddr) == address' % Pow2(w.maxAddr)
  }

  lemma Pair(a: nat, b: nat, a': nat, b': nat, n: nat)
    requires b < n && b' < n
    ensures Join(a, b, n) == Join(a', b', n) <==> a == a' && b == b'
    ensures Join(a, b, n) / n == a && Join(a, b, n) % n == b
  {
    DivModUnique(a * n + b, n, a, b);
    DivModUnique(a' * n + b', n, a', b');
  }

  lemma ProductBelow(a: nat, b: nat, m: nat, n: nat)
    requires a < m && b < n
    ensures Join(a, b, n) < m * n
  {
    MulMono(a + 1, m, n);
  }

  /** Dividing out one factor of a modulus. */
  lemma SplitMod(k: nat, a: nat, b: nat)
    requires a > 0 && b > 0
    ensures b * a > 0
    ensures k / a % b == k % (b * a) / a
    ensures k % a == k % (b * a) % a
  {
    MulMono(1, b, a);
    var n := b * a;
    var h, r := k / n, k % n;
    var q, s := r / a, r % a;
    assert k == n * h + r;
    assert r == a * q + s;
    Regroup3(a, b, h, q);
    DivModUnique(k, a, h * b + q, s);
    QuotientBelow(r, b, a);
    DivModUnique(h * b + q, b, h, q);
  }

  lemma Regroup3(a: nat, b: nat, h: nat, q: nat)
    ensures (b * a) * h + a * q == (h * b + q) * a
  {
    assert (b * a) * h == (h * b) * a;
  }

  lemma ModMod(a: nat, m: nat, n: nat)
    requires n <= m
    ensures a % Pow2(m) % Pow2(n) == a % Pow2(n)
  {
    Pow2Add(m - n, n);
    SplitMod(a, Pow2(n), Pow2(m - n));
  }

  lemma TriggerBelow(w: Widths, pc: nat, address: nat)
    ensures Trigger(w, pc, address) < Pow2(w.pc + w.minAddr)
  {
    ProductBelow(pc % Pow2(w.pc), address % Pow2(w.maxAddr) % Pow2(w.minAddr), Pow2(w.pc), Pow2(w.minAddr));
    Pow2Add(w.pc, w.minAddr);
  }

  lemma TriggerMeaning(w: Widths, pc: nat, address: nat, pc': nat, address': nat)
    requires WidthsOk(w)
    ensures Trigger(w, pc, address) == Trigger(w, pc', address') <==> SameTrigger(w, pc, address, pc', address')
  {
    ModMod(address, w.maxAddr, w.minAddr);
    ModMod(address', w.maxAddr, w.minAddr);
    Pair(pc % Pow2(w.pc), address % Pow2(w.minAddr), pc' % Pow2(w.pc), address' % Pow2(w.minAddr), Pow2(w.minAddr));
  }

  /** The lower part of a key is the hashed trigger, the upper part the address above the region offset. */
  lemma KeyParts(w: Widths, pc: nat, address: nat)
    requires WidthsOk(w)
    ensures var k := BuildKey(w, pc, address);
      && k % Pow2(w.pc + w.minAddr) == Hash(Trigger(w, pc, address), w.indexLen)
      && k / Pow2(w.pc + w.minAddr) == address % Pow2(w.maxAddr) / Pow2(w.minAddr)
      && k < Pow2(w.pc + w.maxAddr)
  {
    hide Pow2, Trigger, Hash;
    var n := w.pc + w.minAddr;
    TriggerBelow(w, pc, address);
    HashBelow(Trigger(w, pc, address), w.indexLen, n);
    var base := address % Pow2(w.maxAddr) / Pow2(w.minAddr);
    Pair(base, Hash(Trigger(w, pc, address), w.indexLen), 0, 0, Pow2(n));
    Pow2Add(w.maxAddr - w.minAddr, w.minAddr);
    Pow2Add(w.maxAddr - w.minAddr, n);
    QuotientBelow(address % Pow2(w.maxAddr), Pow2(w.maxAddr - w.minAddr), Pow2(w.minAddr));
    ProductBelow(base, Hash(Trigger(w, pc, address), w.indexLen), Pow2(w.maxAddr - w.minAddr), Pow2(n));
  }

  lemma QuotientBelow(a: nat, m: nat, n: nat)
    requires n > 0 && a < m * n
    ensures a / n < m
  {
    assert a == n * (a / n) + a % n;
    if a / n >= m {
      MulMono(m, a / n, n);
    }
  }

  /** Keys are equal exactly for the same PC and address. */
  lemma KeyMeaning(w: Widths, pc: nat, address: nat, pc': nat, address': nat)
    requires WidthsOk(w)
    ensures BuildKey(w, pc, address) == BuildKey(w, pc', address') <==> SameEvent(w, pc, address, pc', address')
  {
    hide Pow2, Trigger, Hash, BuildKey;
    var n, m := Pow2(w.pc + w.minAddr), Pow2(w.minAddr);
    KeyParts(w, pc, address);
    KeyParts(w, pc', address');
    TriggerMeaning(w, pc, address, pc', address');
    HashInjective(Trigger(w, pc, address), Trigger(w, pc', address'), w.indexLen);
    ModMod(address, w.maxAddr, w.minAddr);
    ModMod(address', w.maxAddr, w.minAddr);
    if BuildKey(w, pc, address) == BuildKey(w, pc', address') {
      DivModEqual(address % Pow2(w.maxAddr), address' % Pow2(w.maxAddr), m);
    } else if SameEvent(w, pc, address, pc', address') {
      DivModEqual(BuildKey(w, pc, address), BuildKey(w, pc', address'), n);
    }
  }

  // ---- What the masks of find compare ----

  /** Index and tag of a key in a table of Pow2(indexLen) sets: the low bits of the tag are those of the
      hashed trigger. */
  lemma LowTag(k: nat, n: nat, m: nat)
    ensures k / Pow2(n) % Pow2(m) == k % Pow2(n + m) / Pow2(n)
    ensures k % Pow2(n) == k % Pow2(n + m) % Pow2(n)
  {
    Pow2Add(m, n);
    SplitMod(k, Pow2(n), Pow2(m));
  }

  /** In one set, the short mask compares the triggers. */
  lemma MinMatch(w: Widths, k: nat, k': nat)
    requires WidthsOk(w) && k % Pow2(w.indexLen) == k' % Pow2(w.indexLen)
    ensures var m := Pow2(w.pc + w.minAddr - w.indexLen);
      k / Pow2(w.indexLen) % m == k' / Pow2(w.indexLen) % m
      <==> k % Pow2(w.pc + w.minAddr) == k' % Pow2(w.pc + w.minAddr)
  {
    var m := w.pc + w.minAddr - w.indexLen;
    LowTag(k, w.indexLen, m);
    LowTag(k', w.indexLen, m);
    if k / Pow2(w.indexLen) % Pow2(m) == k' / Pow2(w.indexLen) % Pow2(m) {
      DivModEqual(k % Pow2(w.indexLen + m), k' % Pow2(w.indexLen + m), Pow2(w.indexLen));
    }
  }

  /** In one set, the long mask compares whole keys. */
  lemma MaxMatch(w: Widths, k: nat, k': nat)
    requires WidthsOk(w) && k % Pow2(w.indexLen) == k' % Pow2(w.indexLen)
    requires k < Pow2(w.pc + w.maxAddr) && k' < Pow2(w.pc + w.maxAddr)
    ensures var m := Pow2(w.pc + w.maxAddr - w.indexLen);
      k / Pow2(w.indexLen) % m == k' / Pow2(w.indexLen) % m <==> k == k'
  {
    var m := w.pc + w.maxAddr - w.indexLen;
    LowTag(k, w.indexLen, m);
    LowTag(k', w.indexLen, m);
    SmallMod(k, Pow2(w.indexLen + m));
    SmallMod(k', Pow2(w.indexLen + m));
    if k / Pow2(w.indexLen) % Pow2(m) == k' / Pow2(w.indexLen) % Pow2(m) {
      DivModEqual(k, k', Pow2(w.indexLen));
    }
  }

  lemma SmallMod(a: nat, n: nat)
    requires a < n
    ensures a % n == a
  {
  }

  /** Keys with the same trigger fall into the same set. */
  lemma SameTriggerSameSet(w: Widths, k: nat, k': nat)
    requires WidthsOk(w) && k % Pow2(w.pc + w.minAddr) == k' % Pow2(w.pc + w.minAddr)
    ensures k % Pow2(w.indexLen) == k' % Pow2(w.indexLen)
  {
    var m := w.pc + w.minAddr - w.indexLen;
    LowTag(k, w.indexLen, m);
    LowTag(k', w.indexLen, m);
  }
}
