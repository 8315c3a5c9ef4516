/** hash_index of src/bakshalipour_framework.cc: the lowest block of a key is replaced by the
    exclusive-or of all its blocks. Keys are natural numbers; `tag & ((1 << len) - 1)` is `tag % Pow2(len)`. */
module HashIndex {

  function Pow2(n: nat): (p: nat)
    ensures p > 0
  {
    if n == 0 then 1 else 2 * Pow2(n - 1)
  }

  /** Bitwise exclusive or. */
  function Xor(a: nat, b: nat): nat
    decreases a + b
  {
    if a == 0 && b == 0 then 0 else (if a % 2 == b % 2 then 0 else 1) + 2 * Xor(a / 2, b / 2)
  }

  /** The loop of hash_index. */
  function Fold(tag: nat, key: nat, len: nat): nat
    requires len > 0
    decreases tag
  {
    if tag == 0 then key else Fold(Shifted(tag, len), Xor(key, tag % Pow2(len)), len)
  }

  function Shifted(tag: nat, len: nat): (r: nat)
    requires len > 0
    ensures tag > 0 ==> r < tag
  {
    Pow2AtLeastTwo(len);
    DivSmaller(tag, Pow2(len));
    tag / Pow2(len)
  }

  function Hash(key: nat, len: nat): nat {
    if len == 0 then key else Fold(Shifted(key, len), key, len)
  }

  /** The exclusive or of all blocks of `len` bits: what the hash promises as index. */
  function XorOfBlocks(key: nat, len: nat): nat
    requires len > 0
    decreases key
  {
    if key == 0 then 0 else Xor(key % Pow2(len), XorOfBlocks(Shifted(key, len), len))
  }

  // ---- Exclusive or ----

  lemma Pow2AtLeastTwo(n: nat)
    requires n > 0
    ensures Pow2(n) >= 2
  {
  }

  lemma DivSmaller(a: nat, b: nat)
    requires b >= 2
    ensures a > 0 ==> a / b < a
  {
    assert a == b * (a / b) + a % b;
    if a > 0 && a / b >= a {
      MulMono(2, b, a / b);
    }
  }

  /** Equal quotients and remainders. */
  lemma DivModEqual(a: nat, b: nat, d: nat)
    requires d > 0 && a / d == b / d && a % d == b % d
    ensures a == b
  {
    assert a == d * (a / d) + a % d;
    assert b == d * (b / d) + b % d;
  }

  lemma {:induction false} Pow2Add(m: nat, n: nat)
    ensures Pow2(m + n) == Pow2(m) * Pow2(n)
    decreases m
  {
    if m > 0 {
      Pow2Add(m - 1, n);
      assert Pow2(m) * Pow2(n) == 2 * (Pow2(m - 1) * Pow2(n)) by { Regroup(Pow2(m - 1), Pow2(n)); }
    }
  }

  lemma Regroup(a: nat, b: nat)
    ensures 2 * a * b == 2 * (a * b)
  {
  }

  /** One bit of an exclusive or, and the rest. */
  lemma XorBit(a: nat, b: nat)
    ensures Xor(a, b) % 2 == if a % 2 == b % 2 then 0 else 1
    ensures Xor(a, b) / 2 == Xor(a / 2, b / 2)
  {
  }

  lemma {:induction false} XorAssoc(a: nat, b: nat, c: nat)
    ensures Xor(Xor(a, b), c) == Xor(a, Xor(b, c))
    decreases a + b + c
  {
    if a + b + c > 0 {
      hide Xor;
      XorAssoc(a / 2, b / 2, c / 2);
      XorBit(a, b);
      XorBit(b, c);
      XorBit(Xor(a, b), c);
      XorBit(a, Xor(b, c));
      DivModEqual(Xor(Xor(a, b), c), Xor(a, Xor(b, c)), 2);
    }
  }

  lemma {:induction false} XorComm(a: nat, b: nat)
    ensures Xor(a, b) == Xor(b, a)
    decreases a + b
  {
    if a + b > 0 {
      XorComm(a / 2, b / 2);
    }
  }

  lemma {:induction false} XorZero(a: nat)
    ensures Xor(a, 0) == a
  {
    if a > 0 {
      XorZero(a / 2);
    }
  }

  lemma {:induction false} XorSelf(a: nat)
    ensures Xor(a, a) == 0
  {
    if a > 0 {
      XorSelf(a / 2);
    }
  }

  lemma XorTwice(a: nat, b: nat)
    ensures Xor(Xor(a, b), b) == a
  {
    XorAssoc(a, b, b);
    XorSelf(b);
    XorZero(a);
  }

  lemma {:induction false} XorBelow(a: nat, b: nat, n: nat)
    requires a < Pow2(n) && b < Pow2(n)
    ensures Xor(a, b) < Pow2(n)
    decreases n
  {
    if n > 0 {
      XorBelow(a / 2, b / 2, n - 1);
    }
  }

  /** Dividing by a power of two, one bit at a time. */
  lemma DivModTwice(a: nat, p: nat)
    requires p > 0
    ensures a / (2 * p) == a / 2 / p
    ensures a % (2 * p) == 2 * (a / 2 % p) + a % 2
  {
    var h := a / 2;
    var q, r := h / p, 2 * (h % p) + a % 2;
    assert h == q * p + h % p;
    assert a == 2 * h + a % 2;
    assert 2 * (q * p) == q * (2 * p) by { RegroupMid(q, p); }
    DivModUnique(a, 2 * p, q, r);
  }

  lemma RegroupMid(a: nat, b: nat)
    ensures 2 * (a * b) == a * (2 * b)
  {
  }

  lemma DivModUnique(a: nat, d: nat, q: nat, r: nat)
    requires d > 0 && r < d && a == q * d + r
    ensures a / d == q && a % d == r
  {
    var q1, r1 := a / d, a % d;
    assert a == d * q1 + r1;
    if q1 < q {
      MulMono(q1 + 1, q, d);
    } else if q < q1 {
      MulMono(q + 1, q1, d);
    }
  }

  lemma MulMono(a: nat, b: nat, d: nat)
    requires a <= b
    ensures a * d <= b * d
    ensures (a - 1) * d == a * d - d
  {
  }

  /** An exclusive or with fewer than n bits leaves the higher blocks alone. */
  lemma {:induction false} XorLow(a: nat, m: nat, n: nat)
    requires m < Pow2(n)
    ensures Xor(a, m) / Pow2(n) == a / Pow2(n)
    ensures Xor(a, m) % Pow2(n) == Xor(a % Pow2(n), m)
    decreases n
  {
    if n == 0 {
      XorZero(a);
    } else {
      hide Xor;
      var p := Pow2(n - 1);
      assert Pow2(n) == 2 * p;
      XorLow(a / 2, m / 2, n - 1);
      DivModTwice(a, p);
      DivModTwice(Xor(a, m), p);
      XorBit(a, m);
      var r := a % (2 * p);
      XorBit(r, m);
      DivModUnique(r, 2, a / 2 % p, a % 2);
      DivModEqual(Xor(a, m) % (2 * p), Xor(r, m), 2);
    }
  }

  // ---- The hash ----

  lemma {:induction false} FoldMeaning(tag: nat, key: nat, len: nat)
    requires len > 0
    ensures Fold(tag, key, len) / Pow2(len) == key / Pow2(len)
    ensures Fold(tag, key, len) % Pow2(len) == Xor(key % Pow2(len), XorOfBlocks(tag, len))
    decreases tag
  {
    var b := Pow2(len);
    if tag == 0 {
      XorZero(key % b);
    } else {
      var m := tag % b;
      FoldMeaning(Shifted(tag, len), Xor(key, m), len);
      XorLow(key, m, len);
      XorAssoc(key % b, m, XorOfBlocks(Shifted(tag, len), len));
    }
  }

  /** What the hash promises: the higher blocks stay, the lowest becomes the exclusive or of all. */
  lemma HashMeaning(key: nat, len: nat)
    requires len > 0
    ensures Hash(key, len) / Pow2(len) == key / Pow2(len)
    ensures Hash(key, len) % Pow2(len) == XorOfBlocks(key, len)
  {
    hide Fold, Xor, Pow2;
    FoldMeaning(Shifted(key, len), key, len);
    XorZero(0);
  }

  /** Applying it twice is the identity, for every key and every length. */
  lemma HashSelfInverse(key: nat, len: nat)
    ensures Hash(Hash(key, len), len) == key
  {
    if len > 0 {
      hide Pow2, Fold, Xor, XorOfBlocks;
      var b, h := Pow2(len), Hash(key, len);
      var rest := XorOfBlocks(Shifted(key, len), len);
      FoldMeaning(Shifted(key, len), key, len);
      FoldMeaning(Shifted(h, len), h, len);
      XorTwice(key % b, rest);
      DivModEqual(Hash(h, len), key, b);
    }
  }

  /** So different keys hash differently. */
  lemma HashInjective(a: nat, b: nat, len: nat)
    ensures Hash(a, len) == Hash(b, len) <==> a == b
  {
    HashSelfInverse(a, len);
    HashSelfInverse(b, len);
  }

  /** The hash of an n-bit key has n bits. */
  lemma HashBelow(key: nat, len: nat, n: nat)
    requires key < Pow2(n) && len <= n
    ensures Hash(key, len) < Pow2(n)
  {
    if len > 0 {
      var b, h := Pow2(len), Hash(key, len);
      HashMeaning(key, len);
      Pow2Add(n - len, len);
      SameQuotientBelow(key, h, Pow2(n - len), b);
    }
  }

  lemma SameQuotientBelow(a: nat, b: nat, c: nat, d: nat)
    requires d > 0 && a / d == b / d && a < c * d
    ensures b < c * d
  {
    var q := a / d;
    assert a == d * q + a % d;
    assert b == d * q + b % d;
    if q >= c {
      MulMono(c, q, d);
    } else {
      MulMono(q + 1, c, d);
    }
  }

  /** hash_index, on 64-bit keys. The mask `1 << index_len` is a 32-bit int in the source, which bounds
      the length. */
  method HashIndex(key0: nat, indexLen: nat) returns (key: nat)
    requires key0 < Pow2(64) && indexLen <= 30
    ensures key == Hash(key0, indexLen) && key < Pow2(64)
  {
    HashBelow(key0, indexLen, 64);
    key := key0;
    if indexLen == 0 {
      return;
    }
    var tag: nat := Shifted(key, indexLen);
    while tag > 0
      invariant Fold(tag, key, indexLen) == Hash(key0, indexLen)
    {
      key := Xor(key, tag % Pow2(indexLen));
      tag := Shifted(tag, indexLen);
    }
  }
}
