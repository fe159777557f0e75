// The twelve tags of protocol.h and the bit counter that market.c, events.c and
// server_main.c each define.
module Tags {
  import opened Masks

  const TAG_CORP_A: bv32 := 0x001
  const TAG_CORP_B: bv32 := 0x002
  const TAG_CORP_C: bv32 := 0x004
  const TAG_CUSTOMER: bv32 := 0x008
  const TAG_FINANCE: bv32 := 0x010
  const TAG_MILITARY: bv32 := 0x020
  const TAG_GOVERNMENT: bv32 := 0x040
  const TAG_MEDICAL: bv32 := 0x080
  const TAG_RESEARCH: bv32 := 0x100
  const TAG_PERSONAL: bv32 := 0x200
  const TAG_CORP_D: bv32 := 0x400
  const TAG_CORP_E: bv32 := 0x800

  const TAG_COUNT := 12
  const ALL_TAGS: bv32 := 0xFFF

  const TAG_LIST: seq<bv32> := [
    TAG_CORP_A, TAG_CORP_B, TAG_CORP_C,
    TAG_CUSTOMER, TAG_FINANCE, TAG_MILITARY,
    TAG_GOVERNMENT, TAG_MEDICAL, TAG_RESEARCH, TAG_PERSONAL,
    TAG_CORP_D, TAG_CORP_E
  ]

  // Counting bits.

  /** How many of the lowest n bits are set. */
  function BitsIn(v: bv32, n: nat): nat
    decreases n
  {
    if n == 0 then 0 else (if Odd(v) then 1 else 0) + BitsIn(Half(v), n - 1)
  }

  function PopCount(v: bv32): nat {
    BitsIn(v, 32)
  }

  lemma {:induction false} ZeroBits(n: nat)
    ensures BitsIn(0, n) == 0
  {
    if n > 0 {
      assert !Odd(0) && Half(0) == 0;
      ZeroBits(n - 1);
    }
  }

  lemma {:induction false} BitsAdd(a: bv32, b: bv32, n: nat)
    requires !Meets(a, b)
    ensures BitsIn(Join(a, b), n) == BitsIn(a, n) + BitsIn(b, n)
    decreases n
  {
    hide Meets, Join, Half, Odd;
    if n > 0 {
      HalfJoin(a, b);
      HalfMeets(a, b);
      BitsAdd(Half(a), Half(b), n - 1);
    }
  }

  /** The bit counter of market.c, events.c and server_main.c. */
  method CountBits(v: bv32) returns (n: nat)
    ensures n == PopCount(v)
  {
    n := 0;
    var rest := v;
    ghost var left := 32;
    HalvingEnds(v);
    while rest != 0
      invariant 0 <= left && Fits(rest, left)
      invariant n + BitsIn(rest, left) == PopCount(v)
      decreases left
    {
      hide Odd, Half;
      n := n + (if Odd(rest) then 1 else 0);
      rest := Half(rest);
      left := left - 1;
    }
    ZeroBits(left);
  }

  /** Halving v n times leaves nothing. */
  predicate Fits(v: bv32, n: nat)
    decreases n
  {
    if n == 0 then v == 0 else Fits(Half(v), n - 1)
  }

  lemma {:induction false} FitsBelow(v: bv32, top: bv32, n: nat)
    requires Covers(top, v) && Fits(top, n)
    ensures Fits(v, n)
    decreases n
  {
    hide Half, Covers;
    if n == 0 {
      CoversEnds(v);
    } else {
      HalfCovers(top, v);
      FitsBelow(Half(v), Half(top), n - 1);
    }
  }

  lemma HalvingEnds(v: bv32)
    ensures Fits(v, 32)
  {
    assert Fits(0xF, 4);
    assert Fits(0xFF, 8);
    assert Fits(0xFFF, 12);
    assert Fits(0xFFFF, 16);
    assert Fits(0xF_FFFF, 20);
    assert Fits(0xFF_FFFF, 24);
    assert Fits(0xFFF_FFFF, 28);
    assert Fits(0xFFFF_FFFF, 32);
    CoversEnds(v);
    FitsBelow(v, 0xFFFF_FFFF, 32);
  }

  lemma {:induction false} TagBits(t: bv32, n: nat)
    requires SingleBit(t) && Fits(t, n)
    ensures BitsIn(t, n) == 1
    decreases n
  {
    hide Odd, Half;
    if n > 0 {
      TagOdd(t);
      if Odd(t) {
        ZeroBits(n - 1);
      } else {
        TagBits(Half(t), n - 1);
      }
    }
  }
}
