/** The macro kroundup32 of src/khash.h, as it shifts and ors 32-bit words. */
module KRound {
  import opened Probing
  import opened KHash

  /** The words the macro goes through. */
  function Rounded(x: bv32): bv32
  {
    var a := x - 1;
    var b := a | (a >> 1);
    var c := b | (b >> 2);
    var d := c | (c >> 4);
    var e := d | (d >> 8);
    var f := e | (e >> 16);
    f + 1
  }

  /** Zero, and what is above 2^31, wrap to zero. */
  lemma Wraps(x: bv32)
    requires x == 0 || x > 0x8000_0000
    ensures Rounded(x) == 0
  {
  }

  /** A word above half a power of two and not above it is rounded up to it. */
  lemma Rounds(x: bv32, p: bv32)
    requires p & (p - 1) == 0 && (p >> 1) < x <= p && x <= 0x8000_0000
    ensures Rounded(x) == p
  {
    RoundedBounds(x);
    RoundedPower(x);
    hide Rounded;
    Unique(Rounded(x), p, x);
  }

  lemma RoundedBounds(x: bv32)
    requires 0 < x <= 0x8000_0000
    ensures x <= Rounded(x) && (Rounded(x) >> 1) < x
  {
  }

  lemma RoundedPower(x: bv32)
    requires 0 < x <= 0x8000_0000
    ensures Rounded(x) & (Rounded(x) - 1) == 0
  {
  }

  /** Only one power of two is the least one not below x. */
  lemma Unique(r: bv32, p: bv32, x: bv32)
    requires r & (r - 1) == 0 && x <= r && (r >> 1) < x
    requires p & (p - 1) == 0 && x <= p && (p >> 1) < x
    ensures r == p
  {
  }

  lemma PowersOfTwo()
    ensures Pow2(0) == 0x1 && Pow2(1) == 0x2 && Pow2(2) == 0x4 && Pow2(3) == 0x8
    ensures Pow2(4) == 0x10 && Pow2(5) == 0x20 && Pow2(6) == 0x40 && Pow2(7) == 0x80
    ensures Pow2(8) == 0x100 && Pow2(9) == 0x200 && Pow2(10) == 0x400 && Pow2(11) == 0x800
    ensures Pow2(12) == 0x1000 && Pow2(13) == 0x2000 && Pow2(14) == 0x4000 && Pow2(15) == 0x8000
    ensures Pow2(16) == 0x1_0000 && Pow2(17) == 0x2_0000 && Pow2(18) == 0x4_0000 && Pow2(19) == 0x8_0000
    ensures Pow2(20) == 0x10_0000 && Pow2(21) == 0x20_0000 && Pow2(22) == 0x40_0000 && Pow2(23) == 0x80_0000
    ensures Pow2(24) == 0x100_0000 && Pow2(25) == 0x200_0000 && Pow2(26) == 0x400_0000 && Pow2(27) == 0x800_0000
    ensures Pow2(28) == 0x1000_0000 && Pow2(29) == 0x2000_0000 && Pow2(30) == 0x4000_0000 && Pow2(31) == 0x8000_0000
  {
  }

  /** A number between two powers of two is rounded up to the second. */
  lemma Exactly(v: nat, b: nat)
    requires b <= MAX_BITS && v <= Pow2(b) && if b == 0 then v > 0 else v > Pow2(b - 1)
    ensures RoundUp(v) == Pow2(b)
  {
    hide Pow2, PowerFrom;
    PowMono(b, MAX_BITS);
    var e := PowerFromBits(0, v);
    if e < b {
      PowMono(e, b - 1);
    } else if b < e {
      PowMono(b, e - 1);
    }
  }

  /** One case: p is the b-th power of two. */
  lemma RoundedTo(x: bv32, p: bv32, b: nat)
    requires p & (p - 1) == 0 && (p >> 1) < x <= p && x <= 0x8000_0000
    requires b <= MAX_BITS && p as nat == Pow2(b) && x as nat <= Pow2(b)
    requires if b == 0 then x as nat > 0 else x as nat > Pow2(b - 1)
    ensures Rounded(x) as nat == RoundUp(x as nat)
  {
    hide Pow2, RoundUp, Rounded;
    Rounds(x, p);
    Exactly(x as nat, b);
  }

  // A word is compared with constants only, four at a time.

  lemma RoundedBits0(x: bv32)
    requires 0 < x <= 0x8
    ensures Rounded(x) as nat == RoundUp(x as nat)
  {
    hide Pow2, RoundUp, Rounded;
    PowersOfTwo();
    if x <= 0x1 { RoundedTo(x, 0x1, 0); }
    else if x <= 0x2 { RoundedTo(x, 0x2, 1); }
    else if x <= 0x4 { RoundedTo(x, 0x4, 2); }
    else { RoundedTo(x, 0x8, 3); }
  }

  lemma RoundedBits4(x: bv32)
    requires 0x8 < x <= 0x80
    ensures Rounded(x) as nat == RoundUp(x as nat)
  {
    hide Pow2, RoundUp, Rounded;
    PowersOfTwo();
    if x <= 0x10 { RoundedTo(x, 0x10, 4); }
    else if x <= 0x20 { RoundedTo(x, 0x20, 5); }
    else if x <= 0x40 { RoundedTo(x, 0x40, 6); }
    else { RoundedTo(x, 0x80, 7); }
  }

  lemma RoundedBits8(x: bv32)
    requires 0x80 < x <= 0x800
    ensures Rounded(x) as nat == RoundUp(x as nat)
  {
    hide Pow2, RoundUp, Rounded;
    PowersOfTwo();
    if x <= 0x100 { RoundedTo(x, 0x100, 8); }
    else if x <= 0x200 { RoundedTo(x, 0x200, 9); }
    else if x <= 0x400 { RoundedTo(x, 0x400, 10); }
    else { RoundedTo(x, 0x800, 11); }
  }

  lemma RoundedBits12(x: bv32)
    requires 0x800 < x <= 0x8000
    ensures Rounded(x) as nat == RoundUp(x as nat)
  {
    hide Pow2, RoundUp, Rounded;
    PowersOfTwo();
    if x <= 0x1000 { RoundedTo(x, 0x1000, 12); }
    else if x <= 0x2000 { RoundedTo(x, 0x2000, 13); }
    else if x <= 0x4000 { RoundedTo(x, 0x4000, 14); }
    else { RoundedTo(x, 0x8000, 15); }
  }

  lemma RoundedBits16(x: bv32)
    requires 0x8000 < x <= 0x8_0000
    ensures Rounded(x) as nat == RoundUp(x as nat)
  {
    hide Pow2, RoundUp, Rounded;
    PowersOfTwo();
    if x <= 0x1_0000 { RoundedTo(x, 0x1_0000, 16); }
    else if x <= 0x2_0000 { RoundedTo(x, 0x2_0000, 17); }
    else if x <= 0x4_0000 { RoundedTo(x, 0x4_0000, 18); }
    else { RoundedTo(x, 0x8_0000, 19); }
  }

  lemma RoundedBits20(x: bv32)
    requires 0x8_0000 < x <= 0x80_0000
    ensures Rounded(x) as nat == RoundUp(x as nat)
  {
    hide Pow2, RoundUp, Rounded;
    PowersOfTwo();
    if x <= 0x10_0000 { RoundedTo(x, 0x10_0000, 20); }
    else if x <= 0x20_0000 { RoundedTo(x, 0x20_0000, 21); }
    else if x <= 0x40_0000 { RoundedTo(x, 0x40_0000, 22); }
    else { RoundedTo(x, 0x80_0000, 23); }
  }

  lemma RoundedBits24(x: bv32)
    requires 0x80_0000 < x <= 0x800_0000
    ensures Rounded(x) as nat == RoundUp(x as nat)
  {
    hide Pow2, RoundUp, Rounded;
    PowersOfTwo();
    if x <= 0x100_0000 { RoundedTo(x, 0x100_0000, 24); }
    else if x <= 0x200_0000 { RoundedTo(x, 0x200_0000, 25); }
    else if x <= 0x400_0000 { RoundedTo(x, 0x400_0000, 26); }
    else { RoundedTo(x, 0x800_0000, 27); }
  }

  lemma RoundedBits28(x: bv32)
    requires 0x800_0000 < x <= 0x8000_0000
    ensures Rounded(x) as nat == RoundUp(x as nat)
  {
    hide Pow2, RoundUp, Rounded;
    PowersOfTwo();
    if x <= 0x1000_0000 { RoundedTo(x, 0x1000_0000, 28); }
    else if x <= 0x2000_0000 { RoundedTo(x, 0x2000_0000, 29); }
    else if x <= 0x4000_0000 { RoundedTo(x, 0x4000_0000, 30); }
    else { RoundedTo(x, 0x8000_0000, 31); }
  }

  lemma RoundedIs(x: bv32)
    requires 0 < x <= 0x8000_0000
    ensures Rounded(x) as nat == RoundUp(x as nat)
  {
    hide RoundUp, Rounded;
    if x <= 0x8 {
      RoundedBits0(x);
    } else if x <= 0x80 {
      RoundedBits4(x);
    } else if x <= 0x800 {
      RoundedBits8(x);
    } else if x <= 0x8000 {
      RoundedBits12(x);
    } else if x <= 0x80000 {
      RoundedBits16(x);
    } else if x <= 0x800000 {
      RoundedBits20(x);
    } else if x <= 0x8000000 {
      RoundedBits24(x);
    } else {
      RoundedBits28(x);
    }
  }

  lemma WrapsUp(x: bv32)
    requires x == 0 || x > 0x8000_0000
    ensures RoundUp(x as nat) == 0
  {
    PowersOfTwo();
    hide Pow2;
  }

  /** The macro gives the least power of two not below its argument, for every 32-bit word. */
  method KRoundUp32(x0: bv32) returns (x: bv32)
    ensures x as nat == RoundUp(x0 as nat)
  {
    hide RoundUp;
    x := x0 - 1;
    x := x | (x >> 1);
    x := x | (x >> 2);
    x := x | (x >> 4);
    x := x | (x >> 8);
    x := x | (x >> 16);
    x := x + 1;
    assert x == Rounded(x0);
    hide Rounded;
    if x0 == 0 || x0 > 0x8000_0000 {
      Wraps(x0);
      WrapsUp(x0);
    } else {
      RoundedIs(x0);
    }
  }
}
