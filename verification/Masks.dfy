// Operators on 32-bit tag masks, each behind a name of its own, so that a proof
// can use the laws below without opening the bit-vectors.
module Masks {

  function Common(a: bv32, b: bv32): bv32 {
    a & b
  }

  function Join(a: bv32, b: bv32): bv32 {
    a | b
  }

  /** a without the tags of b. */
  function Drop(a: bv32, b: bv32): bv32 {
    a & !b
  }

  predicate Meets(a: bv32, b: bv32) {
    Common(a, b) != 0
  }

  /** Every tag of b is a tag of a. */
  predicate Covers(a: bv32, b: bv32) {
    Common(a, b) == b
  }

  predicate Odd(v: bv32) {
    v & 1 == 1
  }

  function Half(v: bv32): bv32 {
    v >> 1
  }

  predicate SingleBit(t: bv32) {
    t != 0 && t & (t - 1) == 0
  }

  // Laws on the bare bit-vectors.

  lemma BitsSpread(a: bv32, b: bv32, c: bv32)
    ensures a & (b | c) == (a & b) | (a & c)
  {
  }

  lemma BitsCut(a: bv32, b: bv32, c: bv32)
    ensures (a | b) & c == (a & c) | (b & c)
  {
  }

  lemma BitsZero(x: bv32, y: bv32)
    ensures x | y == 0 <==> x == 0 && y == 0
  {
  }

  // Laws of the operators.

  lemma CommonJoin(a: bv32, b: bv32, c: bv32)
    ensures Common(a, Join(b, c)) == Join(Common(a, b), Common(a, c))
  {
    calc {
      Common(a, Join(b, c));
      a & Join(b, c);
      a & (b | c);
      { BitsSpread(a, b, c); }
      (a & b) | (a & c);
      Common(a, b) | Common(a, c);
      Join(Common(a, b), Common(a, c));
    }
  }

  lemma JoinZero(x: bv32, y: bv32)
    ensures Join(x, y) == 0 <==> x == 0 && y == 0
  {
    BitsZero(x, y);
  }

  lemma MeetsJoin(a: bv32, b: bv32, c: bv32)
    ensures Meets(a, Join(b, c)) <==> Meets(a, b) || Meets(a, c)
  {
    hide Common, Join;
    CommonJoin(a, b, c);
    JoinZero(Common(a, b), Common(a, c));
  }

  lemma MeetsSymmetric(a: bv32, b: bv32)
    ensures Meets(a, b) <==> Meets(b, a)
  {
  }

  lemma MeetsZero(a: bv32)
    ensures !Meets(a, 0) && !Meets(0, a)
    ensures a != 0 ==> Meets(a, a)
  {
  }

  lemma MeetsDrop(a: bv32, b: bv32, t: bv32)
    ensures Meets(a, Drop(b, t)) ==> Meets(a, b)
    ensures !Meets(a, t) && Meets(a, b) ==> Meets(a, Drop(b, t))
  {
  }

  lemma CoversMeets(a: bv32, b: bv32, t: bv32)
    requires Covers(a, b) && Meets(t, b)
    ensures Meets(t, a)
  {
  }

  lemma HalfJoin(a: bv32, b: bv32)
    ensures Half(Join(a, b)) == Join(Half(a), Half(b))
    ensures Odd(Join(a, b)) <==> Odd(a) || Odd(b)
  {
  }

  lemma HalfMeets(a: bv32, b: bv32)
    requires !Meets(a, b)
    ensures !Meets(Half(a), Half(b))
    ensures !(Odd(a) && Odd(b))
  {
  }

  lemma HalfCovers(a: bv32, b: bv32)
    requires Covers(a, b)
    ensures Covers(Half(a), Half(b))
  {
  }

  lemma CoversEnds(v: bv32)
    ensures Covers(0xFFFF_FFFF, v)
    ensures Covers(0, v) ==> v == 0
    ensures Covers(v, v)
  {
  }

  lemma DropJoin(a: bv32, b: bv32, c: bv32)
    ensures Drop(Join(a, b), c) == Join(Drop(a, c), Drop(b, c))
  {
    calc {
      Drop(Join(a, b), c);
      Join(a, b) & !c;
      (a | b) & !c;
      { BitsCut(a, b, !c); }
      (a & !c) | (b & !c);
      Drop(a, c) | Drop(b, c);
      Join(Drop(a, c), Drop(b, c));
    }
  }

  lemma DropTag(t: bv32, c: bv32)
    requires SingleBit(t)
    ensures Meets(t, c) ==> Drop(t, c) == 0
    ensures !Meets(t, c) ==> Drop(t, c) == t
  {
  }

  lemma TagsApart(a: bv32, b: bv32)
    requires SingleBit(a) && SingleBit(b) && a != b
    ensures !Meets(a, b)
  {
  }

  lemma TagOdd(t: bv32)
    requires SingleBit(t)
    ensures Odd(t) ==> Half(t) == 0
    ensures !Odd(t) ==> SingleBit(Half(t))
  {
  }

  lemma DropZero(c: bv32)
    ensures Drop(0, c) == 0
  {
  }

  lemma JoinNone(a: bv32)
    ensures Join(a, 0) == a == Join(0, a)
  {
  }

  lemma CoversNone(a: bv32)
    ensures Covers(a, 0)
  {
  }

  lemma CoversBoth(a: bv32, b: bv32, c: bv32)
    requires Covers(a, b) && Covers(a, c)
    ensures Covers(a, Join(b, c))
  {
  }

  lemma MissingTags(a: bv32, b: bv32)
    requires !Covers(a, b)
    ensures Meets(Drop(b, a), b) && !Meets(Drop(b, a), a)
  {
  }

  lemma DropSwap(v: bv32, mask: bv32, t: bv32)
    ensures Meets(v, Drop(mask, t)) <==> Meets(Drop(v, t), mask)
    ensures !Meets(Drop(v, t), t) && !Meets(t, Drop(mask, t))
  {
  }

  lemma DropPart(v: bv32, t: bv32, x: bv32)
    requires Meets(Drop(v, t), x)
    ensures Meets(v, x)
  {
  }

  lemma TagCovered(t: bv32, v: bv32)
    requires SingleBit(t) && Meets(v, t)
    ensures Covers(v, t)
  {
  }

  lemma CoversMeetsToo(v: bv32, t: bv32, x: bv32)
    requires Covers(v, t) && Meets(t, x)
    ensures Meets(v, x)
  {
  }

  lemma DropBack(mask: bv32, t: bv32)
    requires !Meets(t, mask)
    ensures Drop(Join(mask, t), t) == mask
  {
  }

  lemma NothingMeetsZero()
    ensures forall t :: !Meets(t, 0)
  {
    hide Meets;
    forall t ensures !Meets(t, 0) {
      MeetsZero(t);
    }
  }
}
