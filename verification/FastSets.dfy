/** fastset of inc/set.h: a sorted array of up to 12 values, or a bitset, proved to be a set of numbers
    below 512. The two forms share storage in the source; here each mode reads only its own array, and
    nothing is assumed of the other one. */
module FastSets {

  const MAX_SIZE := 512
  const SMALL_SIZE := 13
  const SMALLER_SIZE := 6

  // ---- Words ----

  function BitAt(w: bv64, b: bv8): bool
    requires b < 64
  {
    (w >> b) & 1 == 1
  }

  lemma SmallIndex(b: nat, c: nat)
    requires b < 64 && c < 64
    ensures b as bv8 < 64 && c as bv8 < 64
    ensures b as bv8 == c as bv8 <==> b == c
  {
    IndexFits(b);
    IndexFits(c);
    IndexRoundTrip(b);
    IndexRoundTrip(c);
  }

  lemma IndexFits(b: nat)
    requires b < 64
    ensures b as bv8 < 64
  {
  }

  lemma IndexRoundTrip(b: nat)
    requires b < 64
    ensures (b as bv8) as nat == b
  {
  }

  /** (w >> b) & 1 */
  function Bit(w: bv64, b: nat): bool
    requires b < 64
  {
    SmallIndex(b, b);
    BitAt(w, b as bv8)
  }

  /** w | 1ull << b */
  function WithBit(w: bv64, b: nat): bv64
    requires b < 64
  {
    SmallIndex(b, b);
    w | (1 << (b as bv8))
  }

  lemma WithBitAt(w: bv64, b: bv8, c: bv8)
    requires b < 64 && c < 64
    ensures BitAt(w | (1 << b), c) <==> BitAt(w, c) || b == c
  {
  }

  lemma WithBitMeaning(w: bv64, b: nat, c: nat)
    requires b < 64 && c < 64
    ensures Bit(WithBit(w, b), c) <==> Bit(w, c) || b == c
  {
    SmallIndex(b, c);
    WithBitAt(w, b as bv8, c as bv8);
  }

  function OrWord(w: bv64, v: bv64): bv64 { w | v }

  lemma OrAt(w: bv64, v: bv64, c: bv8)
    requires c < 64
    ensures BitAt(w | v, c) <==> BitAt(w, c) || BitAt(v, c)
  {
  }

  lemma OrMeaning(w: bv64, v: bv64, c: nat)
    requires c < 64
    ensures Bit(OrWord(w, v), c) <==> Bit(w, c) || Bit(v, c)
  {
    SmallIndex(c, c);
    OrAt(w, v, c as bv8);
  }

  lemma ZeroBit(c: nat)
    requires c < 64
    ensures !Bit(0, c)
  {
    SmallIndex(c, c);
    ZeroAt(c as bv8);
  }

  lemma ZeroAt(c: bv8)
    requires c < 64
    ensures !BitAt(0, c)
  {
  }

  // ---- Sorted sequences ----

  ghost predicate Increasing(s: seq<nat>) {
    forall i, j :: 0 <= i < j < |s| ==> s[i] < s[j]
  }

  /** `s` lists the elements of `xs` in increasing order. */
  ghost predicate Enumerates(s: seq<nat>, xs: set<nat>) {
    Increasing(s) && forall x :: x in s <==> x in xs
  }

  /** An enumeration has the cardinality of its set. */
  lemma {:induction false} EnumerationSize(s: seq<nat>, xs: set<nat>)
    requires Enumerates(s, xs)
    ensures |s| == |xs|
    decreases |s|
  {
    if |s| == 0 {
      assert xs == {};
    } else {
      var last, front := s[|s| - 1], s[..|s| - 1];
      forall x ensures x in front <==> x in xs - {last} {
        if x in front {
          var i :| 0 <= i < |front| && front[i] == x;
          assert s[i] < last;
        }
        if x in xs && x != last {
          assert x in s;
        }
      }
      EnumerationSize(front, xs - {last});
    }
  }

  /** There is only one enumeration. */
  lemma {:induction false} EnumerationUnique(s: seq<nat>, t: seq<nat>, xs: set<nat>)
    requires Enumerates(s, xs) && Enumerates(t, xs)
    ensures s == t
    decreases |s|
  {
    EnumerationSize(s, xs);
    EnumerationSize(t, xs);
    if |s| > 0 {
      var n := |s| - 1;
      assert s[n] in t && t[n] in s;
      assert s[n] == t[n];
      forall x ensures x in s[..n] <==> x in xs - {s[n]} {
        SplitLast(s, x);
      }
      forall x ensures x in t[..n] <==> x in xs - {t[n]} {
        SplitLast(t, x);
      }
      EnumerationUnique(s[..n], t[..n], xs - {s[n]});
    }
  }

  /** What expand returns is the whole set and its cardinality when n bounds the elements. */
  lemma WholeEnumeration(s: seq<nat>, xs: set<nat>, n: nat)
    requires Enumerates(s, set x | x in xs && x < n) && forall x :: x in xs ==> x < n
    ensures Enumerates(s, xs) && |s| == |xs|
  {
    assert (set x | x in xs && x < n) == xs;
    EnumerationSize(s, xs);
  }

  lemma AppendEnumerates(s: seq<nat>, xs: set<nat>, l: nat)
    requires Enumerates(s, xs) && forall x :: x in xs ==> x < l
    ensures Enumerates(s + [l], xs + {l})
  {
    forall i | 0 <= i < |s| ensures s[i] < l {
      assert s[i] in xs;
    }
  }

  lemma SplitLast(s: seq<nat>, x: nat)
    requires Increasing(s) && |s| > 0
    ensures x in s[..|s| - 1] <==> x in s && x != s[|s| - 1]
  {
    var front := s[..|s| - 1];
    if x in front {
      var i :| 0 <= i < |front| && front[i] == x;
      assert s[i] < s[|s| - 1];
    }
  }

  ghost predicate Member(words: seq<bv64>, x: nat)
    requires |words| == MAX_SIZE / 64 && x < MAX_SIZE
  {
    Bit(words[x / 64], x % 64)
  }

  /** The numbers a bitset holds. */
  ghost function BitsOf(words: seq<bv64>): set<nat>
    requires |words| == MAX_SIZE / 64
  {
    set x: nat | x < MAX_SIZE && Member(words, x)
  }

  lemma SetWord(words: seq<bv64>, x: nat)
    requires |words| == MAX_SIZE / 64 && x < MAX_SIZE
    ensures BitsOf(words[x / 64 := WithBit(words[x / 64], x % 64)]) == BitsOf(words) + {x}
  {
    var after := words[x / 64 := WithBit(words[x / 64], x % 64)];
    forall y: nat | y < MAX_SIZE ensures Member(after, y) <==> Member(words, y) || y == x {
      WithBitMeaning(words[x / 64], x % 64, y % 64);
      SameNumber(x, y);
    }
  }

  lemma OrBits(before: seq<bv64>, theirs: seq<bv64>, after: seq<bv64>, lim: nat)
    requires |before| == |theirs| == |after| == MAX_SIZE / 64
    requires forall k :: 0 <= k < |after| ==> after[k] == if k < lim then OrWord(before[k], theirs[k]) else before[k]
    ensures BitsOf(after) == BitsOf(before) + set x | x in BitsOf(theirs) && x < 64 * lim
  {
    hide Member, OrWord;
    forall y: nat | y < MAX_SIZE
      ensures Member(after, y) <==> Member(before, y) || (Member(theirs, y) && y < 64 * lim)
    {
      OrMember(before, theirs, after, lim, y);
    }
  }

  lemma OrMember(before: seq<bv64>, theirs: seq<bv64>, after: seq<bv64>, lim: nat, y: nat)
    requires |before| == |theirs| == |after| == MAX_SIZE / 64 && y < MAX_SIZE
    requires after[y / 64] == if y / 64 < lim then OrWord(before[y / 64], theirs[y / 64]) else before[y / 64]
    ensures Member(after, y) <==> Member(before, y) || (Member(theirs, y) && y < 64 * lim)
  {
    hide Bit, OrWord;
    OrMeaning(before[y / 64], theirs[y / 64], y % 64);
  }

  lemma NoBits(words: seq<bv64>)
    requires |words| == MAX_SIZE / 64 && forall k :: 0 <= k < |words| ==> words[k] == 0
    ensures BitsOf(words) == {}
  {
    forall y: nat | y < MAX_SIZE ensures !Member(words, y) {
      ZeroBit(y % 64);
    }
  }

  /** What join takes over from the other set: a big one is read in words up to that of n. */
  function Joined(theirs: set<nat>, small: bool, n: nat): set<nat> {
    if small then theirs else set x | x in theirs && x < 64 * (n / 64 + 1)
  }

  /** A join is the union when the elements of the other set are below n, as its callers promise. */
  lemma JoinedIsUnion(ours: set<nat>, theirs: set<nat>, small: bool, n: nat)
    requires forall x :: x in theirs ==> x < n
    ensures ours + Joined(theirs, small, n) == ours + theirs
  {
  }

  /** And in general it is the union exactly when no word is cut off that holds something new. */
  lemma JoinedIsUnionIff(ours: set<nat>, theirs: set<nat>, small: bool, n: nat)
    ensures ours + Joined(theirs, small, n) == ours + theirs
      <==> small || forall x :: x in theirs - ours ==> x < 64 * (n / 64 + 1)
  {
    var u := ours + Joined(theirs, small, n);
    if small || forall x :: x in theirs - ours ==> x < 64 * (n / 64 + 1) {
      forall x | x in theirs ensures x in u {
        assert x in ours || x in theirs - ours;
      }
      assert u == ours + theirs;
    }
    if u == ours + theirs {
      assert forall x :: x in theirs - ours ==> x in u;
    }
  }

  class FastSet {
    const values: array<nat>
    const bits: array<bv64>
    var card: nat

    ghost function Repr(): set<object> { {this, values, bits} }

    ghost predicate Valid()
      reads this, values
    {
      && values.Length == SMALL_SIZE && bits.Length == MAX_SIZE / 64 && card <= SMALL_SIZE
      && (card < SMALL_SIZE ==> SmallOk())
    }

    /** A small set: increasing values in range. */
    ghost predicate SmallOk()
      requires values.Length == SMALL_SIZE && card <= SMALL_SIZE
      reads this, values
    {
      Increasing(values[..card]) && forall i :: 0 <= i < card ==> values[i] < MAX_SIZE
    }

    ghost function BitContents(): set<nat>
      requires bits.Length == MAX_SIZE / 64
      reads bits
    {
      BitsOf(bits[..])
    }

    ghost function SmallContents(): set<nat>
      requires card <= values.Length
      reads this, values
    {
      set i | 0 <= i < card :: values[i]
    }

    /** The set that this object is. */
    ghost function Contents(): set<nat>
      requires Valid()
      reads this, values, bits
    {
      if card < SMALL_SIZE then SmallContents() else BitContents()
    }

    constructor ()
      ensures Valid() && fresh(Repr()) && Contents() == {}
    {
      values := new nat[SMALL_SIZE];
      bits := new bv64[MAX_SIZE / 64];
      card := 0;
    }

    method SetBit(x: nat)
      requires bits.Length == MAX_SIZE / 64 && x < MAX_SIZE
      modifies bits
      ensures BitContents() == old(BitContents()) + {x}
    {
      var word, bit := x / 64, x % 64;
      ghost var before := bits[..];
      bits[word] := WithBit(bits[word], bit);
      SetWord(before, x);
      assert bits[..] == before[word := WithBit(before[word], bit)];
    }

    method GetBit(x: nat) returns (r: bool)
      requires bits.Length == MAX_SIZE / 64 && x < MAX_SIZE
      ensures r == (x in BitContents())
    {
      r := Bit(bits[x / 64], x % 64);
      assert r == Member(bits[..], x);
    }

    /** Moves the values from place i on one place up and puts x there. */
    method ShiftIn(i: nat, x: nat)
      requires values.Length == SMALL_SIZE && i <= card < SMALL_SIZE
      modifies `card, values
      ensures card == old(card) + 1
      ensures values[..card] == old(values[..card])[..i] + [x] + old(values[..card])[i..]
    {
      ghost var before := values[..card];
      var j: int := card - 1;
      while j >= i
        invariant card == |before| && i - 1 <= j < card
        invariant forall k :: 0 <= k <= j ==> values[k] == before[k]
        invariant forall k :: 0 <= k < i ==> values[k] == before[k]
        invariant forall k :: i <= k < card && j < k ==> values[k + 1] == before[k]
      {
        values[j + 1] := values[j];
        j := j - 1;
      }
      values[i] := x;
      card := card + 1;
    }

    /** insert_small */
    method InsertSmall(x: nat)
      requires Valid() && card < SMALL_SIZE && x < MAX_SIZE
      modifies `card, values
      ensures values.Length == SMALL_SIZE && card <= SMALL_SIZE && SmallOk()
      ensures SmallContents() == old(SmallContents()) + {x}
      ensures x in old(SmallContents()) ==> card == old(card) && values[..] == old(values[..])
    {
      ghost var before := values[..card];
      var i := 0;
      while i < card && values[i] <= x
        invariant 0 <= i <= card
        invariant forall k :: 0 <= k < i ==> values[k] < x
      {
        if values[i] == x {
          assert x in SmallContents();
          return;
        }
        i := i + 1;
      }
      assert forall k :: i <= k < card ==> before[i] <= before[k];
      assert x !in SmallContents();
      ShiftIn(i, x);
      InsertedIncreasing(before, i, x);
      SameElements(before, i, x);
      InsertedBelow(before, i, x);
    }

    lemma InsertedBelow(before: seq<nat>, i: nat, x: nat)
      requires i <= |before| && card <= values.Length && values[..card] == before[..i] + [x] + before[i..]
      requires x < MAX_SIZE && forall k :: 0 <= k < |before| ==> before[k] < MAX_SIZE
      ensures forall k :: 0 <= k < card ==> values[k] < MAX_SIZE
    {
      forall k | 0 <= k < card ensures values[k] < MAX_SIZE {
        assert values[k] == values[..card][k];
      }
    }

    lemma SameElements(before: seq<nat>, i: nat, x: nat)
      requires i <= |before| && card <= values.Length && values[..card] == before[..i] + [x] + before[i..]
      ensures SmallContents() == (set k | 0 <= k < |before| :: before[k]) + {x}
    {
      forall y ensures y in SmallContents() <==> y in (set k | 0 <= k < |before| :: before[k]) + {x} {
        var s := before[..i] + [x] + before[i..];
        if y in SmallContents() {
          assert y in s;
        }
        if y in before {
          var k :| 0 <= k < |before| && before[k] == y;
          assert s[if k < i then k else k + 1] == y;
          assert y in values[..card];
        }
        if y == x {
          assert s[i] == x;
          assert y in values[..card];
        }
      }
    }

    /** search_small_linear */
    method SearchSmallLinear(x: nat) returns (r: bool)
      requires Valid() && card < SMALL_SIZE
      ensures r == (x in SmallContents())
    {
      ghost var s := values[..card];
      var i := 0;
      while i < card
        invariant 0 <= i <= card && forall k :: 0 <= k < i ==> values[k] != x
      {
        var y := values[i];
        if y > x {
          assert forall k :: i < k < card ==> s[i] < s[k];
          return false;
        }
        if y == x {
          return true;
        }
        i := i + 1;
      }
      return false;
    }

    /** search_small: binary from SMALLER_SIZE values on. */
    method SearchSmall(x: nat) returns (r: bool)
      requires Valid() && card < SMALL_SIZE
      ensures r == (x in SmallContents())
    {
      if card == 0 {
        return false;
      }
      if card < SMALLER_SIZE {
        r := SearchSmallLinear(x);
        return;
      }
      ghost var s := values[..card];
      var begin: int, end: int := 0, card - 1;
      var middle := end / 2;
      while true
        invariant 0 <= begin <= middle <= end < card
        invariant forall k :: 0 <= k < begin ==> values[k] < x
        invariant forall k :: end < k < card ==> x < values[k]
        decreases end - begin
      {
        var y := values[middle];
        if x < y {
          assert forall k :: middle < k < card ==> s[middle] < s[k];
          end := middle - 1;
        } else if x > y {
          assert forall k :: 0 <= k < middle ==> s[k] < s[middle];
          begin := middle + 1;
        } else {
          return true;
        }
        if end < begin {
          break;
        }
        middle := (begin + end) / 2;
      }
      return false;
    }

    /** smalltobit: afterwards the small values are no longer meaningful. */
    method SmallToBit()
      requires values.Length == SMALL_SIZE && bits.Length == MAX_SIZE / 64 && card <= SMALL_SIZE && SmallOk()
      modifies bits
      ensures BitContents() == SmallContents()
    {
      var w := 0;
      while w < bits.Length
        invariant 0 <= w <= bits.Length && forall k :: 0 <= k < w ==> bits[k] == 0
      {
        bits[w] := 0;
        w := w + 1;
      }
      NoBits(bits[..]);
      var i := 0;
      while i < card
        invariant 0 <= i <= card
        invariant BitContents() == set k | 0 <= k < i :: values[k]
      {
        SetBit(values[i]);
        i := i + 1;
      }
    }

    /** insert adds exactly x. */
    method Insert(x: nat)
      requires Valid() && x < MAX_SIZE
      modifies `card, values, bits
      ensures Valid() && Contents() == old(Contents()) + {x}
      ensures old(card) < SMALL_SIZE && x in old(Contents()) ==> card == old(card) && values[..] == old(values[..])
    {
      if card == 0 {
        values[0] := x;
        card := 1;
        assert values[..1] == [x];
        assert SmallContents() == {x};
      } else if card < SMALL_SIZE {
        InsertSmall(x);
        if card == SMALL_SIZE {
          SmallToBit();
        }
      } else {
        SetBit(x);
      }
    }

    /** search is membership. */
    method Search(x: nat) returns (r: bool)
      requires Valid() && x < MAX_SIZE
      ensures r == (x in Contents())
    {
      if card == 0 {
        return false;
      }
      if card == 1 {
        return values[0] == x;
      }
      if card < SMALL_SIZE {
        r := SearchSmall(x);
      } else {
        r := GetBit(x);
      }
    }

    /** smalltobit before a bitwise join, which then counts as a big set. */
    method MakeBig()
      requires Valid()
      modifies `card, bits
      ensures Valid() && card == SMALL_SIZE && Contents() == old(Contents())
    {
      if card < SMALL_SIZE {
        SmallToBit();
        card := SMALL_SIZE;
      }
    }

    /** The words below `lim` of the other set, ORed in. */
    method OrWords(other: FastSet, lim: nat)
      requires Valid() && card == SMALL_SIZE && other.Valid() && (other == this || bits != other.bits) && lim <= MAX_SIZE / 64
      modifies bits
      ensures BitContents() == old(BitContents()) + set x | x in old(other.BitContents()) && x < 64 * lim
    {
      hide OrWord, BitsOf;
      ghost var before, theirs := bits[..], other.bits[..];
      var i := 0;
      while i < lim
        invariant 0 <= i <= lim
        invariant forall k :: i <= k < bits.Length ==> other.bits[k] == theirs[k]
        invariant forall k :: 0 <= k < bits.Length ==> bits[k] == if k < i then OrWord(before[k], theirs[k]) else before[k]
      {
        bits[i] := OrWord(bits[i], other.bits[i]);
        i := i + 1;
      }
      OrBits(before, theirs, bits[..], lim);
    }

    /** Two objects share no storage. */
    ghost predicate Apart(other: FastSet) { other == this || other.Repr() !! Repr() }

    /** The values of a small set, inserted one by one. */
    method InsertAll(other: FastSet)
      requires Valid() && other.Valid() && Apart(other) && other.card < SMALL_SIZE
      modifies Repr()
      ensures Valid() && other.Contents() == old(other.Contents()) && Contents() == old(Contents()) + old(other.Contents())
    {
      hide BitsOf, Increasing;
      ghost var theirs := other.values[..other.card];
      var i := 0;
      while i < other.card
        invariant 0 <= i <= other.card == |theirs| && Valid()
        invariant other.card == old(other.card) && other.values[..] == old(other.values[..])
        invariant Contents() == old(Contents()) + set k | 0 <= k < i :: theirs[k]
      {
        assert other.values[i] == theirs[i];
        assert other == this ==> theirs[i] in Contents();
        Insert(other.values[i]);
        i := i + 1;
      }
      assert (set k | 0 <= k < |theirs| :: theirs[k]) == old(other.Contents());
    }

    /** join: the union with the other set; of a big one only as far as n reaches. */
    method Join(other: FastSet, n: nat)
      requires Valid() && other.Valid() && Apart(other) && n < MAX_SIZE
      modifies Repr()
      ensures Valid() && other.Contents() == old(other.Contents())
      ensures Contents() == old(Contents()) + Joined(old(other.Contents()), other.card < SMALL_SIZE, n)
    {
      hide BitsOf, Increasing;
      if other.card == 0 {
        return;
      }
      if other.card < SMALL_SIZE {
        InsertAll(other);
        return;
      }
      MakeBig();
      // n | 63 sets the six lowest bits of n
      var lim := (n - n % 64 + 63 + 1) / 64;
      OrWords(other, lim);
    }

    /** expand: the increasing enumeration of the set, up to n if it is big, and its length. */
    method Expand(v: array<nat>, n: nat) returns (k: nat)
      requires Valid() && n <= MAX_SIZE && v !in Repr() && n <= v.Length && (card < SMALL_SIZE ==> card <= v.Length)
      modifies v
      ensures Valid() && Contents() == old(Contents()) && k <= v.Length
      ensures Enumerates(v[..k], if card < SMALL_SIZE then Contents() else set x | x in Contents() && x < n)
    {
      k := 0;
      if card == 0 {
        assert v[..0] == [];
        return;
      }
      if card < SMALL_SIZE {
        CopySmall(v);
        k := card;
        return;
      }
      var i := 0;
      while i < n
        invariant 0 <= i && k <= i && k <= n && i % 64 == 0
        invariant Enumerates(v[..k], Below(if i < n then i else n))
      {
        if bits[i / 64] != 0 {
          k := ExpandWord(v, n, i, k);
        } else {
          NothingIn(i);
        }
        i := i + 64;
      }
      assert Below(n) == set x | x in Contents() && x < n;
    }

    ghost function Below(n: nat): set<nat>
      requires bits.Length == MAX_SIZE / 64
      reads bits
    {
      set x | x in BitContents() && x < n
    }

    lemma BelowStep(l: nat)
      requires bits.Length == MAX_SIZE / 64
      ensures Below(l + 1) == if l in BitContents() then Below(l) + {l} else Below(l)
    {
    }

    lemma NothingIn(i: nat)
      requires bits.Length == MAX_SIZE / 64 && i < MAX_SIZE && i % 64 == 0 && bits[i / 64] == 0
      ensures forall x :: x in BitContents() ==> x < i || x >= i + 64
    {
      forall x: nat | i <= x < i + 64 ensures x !in BitContents() {
        assert x / 64 == i / 64;
        ZeroBit(x % 64);
        assert x < MAX_SIZE ==> !Member(bits[..], x);
      }
    }

    method CopySmall(v: array<nat>)
      requires Valid() && card < SMALL_SIZE && v !in Repr() && card <= v.Length
      modifies v
      ensures v[..card] == values[..card] && Enumerates(v[..card], SmallContents())
    {
      var i := 0;
      while i < card
        invariant 0 <= i <= card && forall j :: 0 <= j < i ==> v[j] == values[j]
      {
        v[i] := values[i];
        i := i + 1;
      }
      assert v[..card] == values[..card];
    }

    /** The elements of one word, appended. */
    method ExpandWord(v: array<nat>, n: nat, i: nat, k0: nat) returns (k: nat)
      requires Valid() && n <= MAX_SIZE && v !in Repr() && n <= v.Length && i < n && i % 64 == 0 && k0 <= i
      requires Enumerates(v[..k0], Below(i))
      modifies v
      ensures k <= i + 64 && k <= n
      ensures Enumerates(v[..k], Below(if i + 64 < n then i + 64 else n))
    {
      k := k0;
      var j := 0;
      while j < 64
        invariant 0 <= j <= 64 && i + j <= n && k <= i + j
        invariant Enumerates(v[..k], Below(i + j))
      {
        var l := i + j;
        if l < n {
          var member := GetBit(l);
          BelowStep(l);
          ghost var before := v[..k];
          if member {
            AppendEnumerates(before, Below(l), l);
            v[k] := l;
            k := k + 1;
            assert v[..k] == before + [l];
          }
        } else {
          break;
        }
        j := j + 1;
      }
    }
  }

  lemma SameNumber(x: nat, y: nat)
    ensures x / 64 == y / 64 && x % 64 == y % 64 <==> x == y
  {
  }

  lemma InsertedIncreasing(s: seq<nat>, i: nat, x: nat)
    requires Increasing(s) && i <= |s|
    requires forall k :: 0 <= k < i ==> s[k] < x
    requires forall k :: i <= k < |s| ==> x < s[k]
    ensures Increasing(s[..i] + [x] + s[i..])
  {
    var t := s[..i] + [x] + s[i..];
    forall a, b | 0 <= a < b < |t| ensures t[a] < t[b] {
      assert t[a] == if a < i then s[a] else if a == i then x else s[a - 1];
      assert t[b] == if b < i then s[b] else if b == i then x else s[b - 1];
    }
  }
}
