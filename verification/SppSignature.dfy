/** The signatures of SPP: twelve bits of the last deltas of a page (prefetcher/spp_dev2.cc). */
module SppSignature {

  /** sig_delta: seven-bit sign magnitude. */
  function SigDelta(delta: int): nat {
    if delta < 0 then -delta + 64 else delta
  }

  function DeltaBits(delta: int): bv32 { (SigDelta(delta) % 0x1_0000_0000) as bv32 }

  function NextSig(sig: bv32, delta: int): bv32 {
    ((sig << 3) ^ DeltaBits(delta)) & 0xFFF
  }

  /** Deltas within a page lead to different signatures, in particular opposite ones do. */
  lemma NextSigDiffers(sig: bv32, d: int, e: int)
    requires -64 < d < 64 && -64 < e < 64
    ensures NextSig(sig, d) == NextSig(sig, e) <==> d == e
  {
    hide DeltaBits;
    DeltaBitsDiffer(d, e);
    LowBitsDiffer(sig << 3, DeltaBits(d), DeltaBits(e));
  }

  lemma DeltaBitsDiffer(d: int, e: int)
    requires -64 < d < 64 && -64 < e < 64
    ensures DeltaBits(d) == DeltaBits(e) <==> d == e
    ensures DeltaBits(d) < 128 && DeltaBits(e) < 128
  {
    hide DeltaBits;
    DeltaBitsAre(d);
    DeltaBitsAre(e);
    SevenBitsDiffer(SigDelta(d), SigDelta(e));
    Widened(SigDelta(d) as bv7, SigDelta(e) as bv7);
  }

  lemma DeltaBitsAre(d: int)
    requires -64 < d < 64
    ensures SigDelta(d) < 128 && DeltaBits(d) == (SigDelta(d) as bv7) as bv32 && DeltaBits(d) < 128
  {
    SevenBits(SigDelta(d));
  }

  lemma SevenBits(n: nat)
    requires n < 128
    ensures n as bv32 == (n as bv7) as bv32 && n as bv32 < 128 && n % 0x1_0000_0000 == n
  {
  }

  lemma SevenBitsDiffer(m: nat, n: nat)
    requires m < 128 && n < 128
    ensures m as bv7 == n as bv7 <==> m == n
  {
    SevenBitsBack(m);
    SevenBitsBack(n);
  }

  lemma SevenBitsBack(n: nat)
    requires n < 128
    ensures (n as bv7) as nat == n
  {
    if n < 64 {
      LowBack(n);
    } else {
      HighBack(n);
    }
  }

  lemma LowBack(n: nat)
    requires n < 64
    ensures (n as bv7) as nat == n
  {
  }

  lemma HighBack(n: nat)
    requires 64 <= n < 128
    ensures (n as bv7) as nat == n
  {
  }

  lemma Widened(x: bv7, y: bv7)
    ensures x as bv32 == y as bv32 <==> x == y
  {
  }

  lemma LowBitsDiffer(s: bv32, x: bv32, y: bv32)
    requires x < 128 && y < 128
    ensures (s ^ x) & 0xFFF == (s ^ y) & 0xFFF <==> x == y
  {
  }

  /** A signature is made of the last four deltas alone, each three bits above the next. */
  lemma FourDeltas(sig: bv32, a: int, b: int, c: int, d: int)
    ensures NextSig(NextSig(NextSig(NextSig(sig, a), b), c), d)
         == ((DeltaBits(a) << 9) ^ (DeltaBits(b) << 6) ^ (DeltaBits(c) << 3) ^ DeltaBits(d)) & 0xFFF
  {
    hide DeltaBits;
    ShiftedOut(sig, DeltaBits(a), DeltaBits(b), DeltaBits(c), DeltaBits(d));
  }

  lemma ShiftedOut(s: bv32, x: bv32, y: bv32, z: bv32, w: bv32)
    ensures ((((((((((((s << 3) ^ x) & 0xFFF) << 3) ^ y) & 0xFFF) << 3) ^ z) & 0xFFF) << 3) ^ w) & 0xFFF)
         == ((x << 9) ^ (y << 6) ^ (z << 3) ^ w) & 0xFFF
  {
  }
}
