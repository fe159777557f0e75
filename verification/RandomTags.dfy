// The random tag picker of events.c and the price and bounty drawn from it.
// rand() is an arbitrary input: each call is one element of a list of rolls.
module RandomTags {
  import opened Prelude
  import opened Masks
  import opened Tags

  const MARKET_PRICE_PER_TAG := 400

  /** Different tags, each a single bit: what TAG_LIST is, and every part of it. */
  predicate Proper(tags: seq<bv32>) {
    Distinct(tags) && forall i :: 0 <= i < |tags| ==> SingleBit(tags[i])
  }

  /** The tags of a list that a mask leaves free, in list order. */
  function Free(list: seq<bv32>, frozen: bv32): (free: seq<bv32>)
    ensures |free| <= |list|
  {
    if list == [] then []
    else
      var rest := Free(list[..|list| - 1], frozen);
      if Meets(list[|list| - 1], frozen) then rest else rest + [list[|list| - 1]]
  }

  function JoinAll(tags: seq<bv32>): bv32 {
    if tags == [] then 0 else Join(JoinAll(tags[..|tags| - 1]), tags[|tags| - 1])
  }

  function Min(a: nat, b: nat): nat {
    if a < b then a else b
  }

  /** The partial shuffle: slot i receives a roll among the slots from i on. */
  function Shuffle<T>(pool: seq<T>, i: nat, pick: nat, rolls: seq<nat>): (shuffled: seq<T>)
    requires i <= pick <= |pool| && pick <= |rolls|
    ensures |shuffled| == |pool|
    decreases pick - i
  {
    if i == pick then pool
    else
      var j := i + rolls[i] % (|pool| - i);
      Shuffle(Swapped(pool, i, j), i + 1, pick, rolls)
  }

  function Swapped<T>(pool: seq<T>, i: nat, j: nat): (swapped: seq<T>)
    requires i < |pool| && j < |pool|
  {
    pool[i := pool[j]][j := pool[i]]
  }

  lemma {:induction false} ShuffleKeeps<T>(pool: seq<T>, i: nat, pick: nat, rolls: seq<nat>)
    requires i <= pick <= |pool| && pick <= |rolls|
    ensures multiset(Shuffle(pool, i, pick, rolls)) == multiset(pool)
    ensures Shuffle(pool, i, pick, rolls)[..i] == pool[..i]
    decreases pick - i
  {
    if i < pick {
      var j := i + rolls[i] % (|pool| - i);
      var next := Swapped(pool, i, j);
      ShuffleKeeps(next, i + 1, pick, rolls);
      assert next[..i] == pool[..i];
      assert Shuffle(pool, i, pick, rolls)[..i] == Shuffle(next, i + 1, pick, rolls)[..i + 1][..i];
    }
  }

  /** The roll that brings the wanted element to slot i. */
  lemma BringForward<T(!new)>(pool: seq<T>, i: nat, target: seq<T>) returns (k: nat)
    requires i < |target| <= |pool| && target[..i] == pool[..i]
    requires multiset(target[i..]) <= multiset(pool[i..])
    ensures k < |pool| - i
    ensures var next := Swapped(pool, i, i + k);
      target[..i + 1] == next[..i + 1] && multiset(target[i + 1..]) <= multiset(next[i + 1..])
  {
    TailSplits(target, i);
    k := Locate(pool, i, target[i]);
    var next := Swapped(pool, i, i + k);
    SwapTail(pool, i, i + k);
    TailSplits(next, i);
    Cancel(target[i], multiset(target[i + 1..]), multiset(next[i + 1..]));
    SamePrefix(target, pool, next, i);
  }

  lemma Locate<T>(pool: seq<T>, i: nat, want: T) returns (k: nat)
    requires i < |pool| && want in multiset(pool[i..])
    ensures k < |pool| - i && pool[i + k] == want
  {
    assert want in pool[i..];
    k :| 0 <= k < |pool| - i && pool[i..][k] == want;
  }

  lemma SamePrefix<T>(target: seq<T>, pool: seq<T>, next: seq<T>, i: nat)
    requires i < |target| <= |pool| == |next|
    requires target[..i] == pool[..i] == next[..i] && target[i] == next[i]
    ensures target[..i + 1] == next[..i + 1]
  {
    assert target[..i + 1] == target[..i] + [target[i]];
    assert next[..i + 1] == next[..i] + [next[i]];
  }

  lemma Cancel<T(!new)>(x: T, a: multiset<T>, b: multiset<T>)
    requires multiset{x} + a <= multiset{x} + b
    ensures a <= b
  {
    forall y ensures a[y] <= b[y] {
      assert (multiset{x} + a)[y] <= (multiset{x} + b)[y];
    }
  }

  lemma TailSplits<T>(s: seq<T>, i: nat)
    requires i < |s|
    ensures multiset(s[i..]) == multiset{s[i]} + multiset(s[i + 1..])
  {
    assert s[i..] == [s[i]] + s[i + 1..];
  }

  /** No draw is out of reach: every arrangement of a part of the pool is some roll's prefix. */
  lemma {:induction false} ShuffleReaches<T(!new)>(pool: seq<T>, i: nat, target: seq<T>) returns (rolls: seq<nat>)
    requires i <= |target| <= |pool| && target[..i] == pool[..i]
    requires multiset(target[i..]) <= multiset(pool[i..])
    ensures |rolls| == |target|
    ensures Shuffle(pool, i, |target|, rolls)[..|target|] == target
    decreases |target| - i
  {
    if i == |target| {
      rolls := seq(|target|, _ => 0);
      assert target[..i] == target;
    } else {
      var k := BringForward(pool, i, target);
      var later := ShuffleReaches(Swapped(pool, i, i + k), i + 1, target);
      rolls := later[i := k];
      ShuffleIgnores(Swapped(pool, i, i + k), i + 1, |target|, later, rolls);
      SmallRoll(k, |pool| - i);
    }
  }

  lemma SmallRoll(k: nat, n: nat)
    requires k < n
    ensures k % n == k
  {
  }

  lemma SwapTail<T>(pool: seq<T>, i: nat, j: nat)
    requires i <= j < |pool|
    ensures multiset(Swapped(pool, i, j)[i..]) == multiset(pool[i..])
  {
    assert Swapped(pool, i, j)[i..] == Swapped(pool[i..], 0, j - i);
  }

  lemma {:induction false} ShuffleIgnores<T>(pool: seq<T>, i: nat, pick: nat, rolls: seq<nat>, other: seq<nat>)
    requires i <= pick <= |pool| && pick <= |rolls| == |other|
    requires forall k :: i <= k < pick ==> rolls[k] == other[k]
    ensures Shuffle(pool, i, pick, rolls) == Shuffle(pool, i, pick, other)
    decreases pick - i
  {
    if i < pick {
      ShuffleIgnores(Swapped(pool, i, i + rolls[i] % (|pool| - i)), i + 1, pick, rolls, other);
    }
  }

  // The free tags.

  lemma {:induction false} FreeIsProper(list: seq<bv32>, frozen: bv32)
    requires Proper(list)
    ensures Proper(Free(list, frozen))
    ensures forall t :: t in Free(list, frozen) <==> t in list && !Meets(t, frozen)
  {
    hide Meets, SingleBit;
    if list != [] {
      var rest, last := list[..|list| - 1], list[|list| - 1];
      FreeIsProper(rest, frozen);
      assert list == rest + [last];
      assert last !in rest;
    }
  }

  lemma {:induction false} FreeMask(list: seq<bv32>, frozen: bv32)
    requires Proper(list)
    ensures JoinAll(Free(list, frozen)) == Drop(JoinAll(list), frozen)
  {
    hide Meets, Join, Drop, SingleBit;
    if list == [] {
      DropZero(frozen);
    } else {
      var rest, last := list[..|list| - 1], list[|list| - 1];
      FreeMask(rest, frozen);
      DropJoin(JoinAll(rest), last, frozen);
      DropTag(last, frozen);
      JoinNone(JoinAll(Free(rest, frozen)));
      assert (Free(rest, frozen) + [last])[..|Free(rest, frozen)|] == Free(rest, frozen);
    }
  }

  lemma {:induction false} JoinAllMeets(t: bv32, tags: seq<bv32>)
    ensures Meets(t, JoinAll(tags)) <==> exists u :: u in tags && Meets(t, u)
  {
    hide Meets, Join;
    if tags == [] {
      MeetsZero(t);
    } else {
      var rest, last := tags[..|tags| - 1], tags[|tags| - 1];
      JoinAllMeets(t, rest);
      MeetsJoin(t, JoinAll(rest), last);
      assert tags == rest + [last];
    }
  }

  /** Distinct tags: as many bits as tags. */
  lemma {:induction false} ProperBits(tags: seq<bv32>)
    requires Proper(tags)
    ensures PopCount(JoinAll(tags)) == |tags|
  {
    hide Meets, Join, SingleBit, BitsIn;
    if tags == [] {
      ZeroBits(32);
    } else {
      var rest, last := tags[..|tags| - 1], tags[|tags| - 1];
      ProperBits(rest);
      ProperApart(rest, last);
      BitsAdd(JoinAll(rest), last, 32);
      HalvingEnds(last);
      TagBits(last, 32);
    }
  }

  lemma ProperApart(tags: seq<bv32>, t: bv32)
    requires Proper(tags) && SingleBit(t) && t !in tags
    ensures !Meets(JoinAll(tags), t)
  {
    hide Meets, Join, SingleBit;
    JoinAllMeets(t, tags);
    MeetsSymmetric(t, JoinAll(tags));
    forall u | u in tags ensures !Meets(t, u) {
      TagsApart(t, u);
    }
  }

  lemma TagListIsProper()
    ensures Proper(TAG_LIST)
  {
  }

  lemma JoinOne(s: seq<bv32>, t: bv32)
    ensures JoinAll(s + [t]) == Join(JoinAll(s), t)
  {
    hide Join;
    assert (s + [t])[..|s|] == s;
  }

  lemma JoinThree(s: seq<bv32>, a: bv32, b: bv32, c: bv32)
    ensures JoinAll(s + [a, b, c]) == Join(Join(Join(JoinAll(s), a), b), c)
  {
    hide *;
    assert s + [a, b, c] == s + [a] + [b] + [c];
    JoinOne(s, a);
    JoinOne(s + [a], b);
    JoinOne(s + [a] + [b], c);
  }

  lemma TagListMask()
    ensures JoinAll(TAG_LIST) == ALL_TAGS
  {
    var s1 := [] + [TAG_CORP_A, TAG_CORP_B, TAG_CORP_C];
    var s2 := s1 + [TAG_CUSTOMER, TAG_FINANCE, TAG_MILITARY];
    var s3 := s2 + [TAG_GOVERNMENT, TAG_MEDICAL, TAG_RESEARCH];
    var s4 := s3 + [TAG_PERSONAL, TAG_CORP_D, TAG_CORP_E];
    JoinThree([], TAG_CORP_A, TAG_CORP_B, TAG_CORP_C);
    JoinThree(s1, TAG_CUSTOMER, TAG_FINANCE, TAG_MILITARY);
    JoinThree(s2, TAG_GOVERNMENT, TAG_MEDICAL, TAG_RESEARCH);
    JoinThree(s3, TAG_PERSONAL, TAG_CORP_D, TAG_CORP_E);
    assert TAG_LIST == s4;
  }

  // The picker.

  /** rolls[0] chooses how many tags, rolls[1..] drive the swaps. */
  function PickTags(frozen: bv32, rolls: seq<nat>): bv32
    requires |rolls| == 4
  {
    var free := Free(TAG_LIST, frozen);
    var pick := Min(rolls[0] % 3 + 1, |free|);
    JoinAll(Shuffle(free, 0, pick, rolls[1..])[..pick])
  }

  lemma ProperPart(whole: seq<bv32>, shuffled: seq<bv32>, n: nat)
    requires Proper(whole) && multiset(shuffled) == multiset(whole) && n <= |shuffled|
    ensures Proper(shuffled[..n])
    ensures forall t :: t in shuffled[..n] ==> t in whole
  {
    hide SingleBit;
    DistinctPermutes(whole, shuffled);
    forall t | t in shuffled ensures t in whole {
      assert t in multiset(shuffled);
      assert t in multiset(whole);
    }
    forall t | t in shuffled[..n] ensures t in whole {
      assert t in shuffled;
    }
    forall i | 0 <= i < n ensures SingleBit(shuffled[..n][i]) {
      assert shuffled[i] in whole;
    }
    assert shuffled[..n] <= shuffled;
  }

  /** The draw avoids the mask that was read, stays among the twelve tags, is empty
      exactly when they are all frozen, and holds the tags it was asked for. */
  lemma PickTagsLawful(frozen: bv32, rolls: seq<nat>)
    requires |rolls| == 4
    ensures var tags := PickTags(frozen, rolls);
      && !Meets(tags, frozen)
      && Covers(ALL_TAGS, tags)
      && (tags == 0 <==> Drop(ALL_TAGS, frozen) == 0)
      && PopCount(tags) == Min(rolls[0] % 3 + 1, PopCount(Drop(ALL_TAGS, frozen)))
  {
    hide Meets, Covers, Drop, Join, SingleBit, BitsIn;
    var free := Free(TAG_LIST, frozen);
    var pick := Min(rolls[0] % 3 + 1, |free|);
    var drawn := Shuffle(free, 0, pick, rolls[1..])[..pick];
    TagListIsProper();
    FreeIsProper(TAG_LIST, frozen);
    ShuffleKeeps(free, 0, pick, rolls[1..]);
    ProperPart(free, Shuffle(free, 0, pick, rolls[1..]), pick);
    ProperBits(drawn);
    ProperBits(free);
    FreeMask(TAG_LIST, frozen);
    TagListMask();
    DrawnAvoids(drawn, free, frozen);
    DrawnWithin(drawn);
    ZeroBits(32);
  }

  lemma DrawnAvoids(drawn: seq<bv32>, free: seq<bv32>, frozen: bv32)
    requires forall t :: t in drawn ==> t in free
    requires forall t :: t in free ==> !Meets(t, frozen)
    ensures !Meets(JoinAll(drawn), frozen)
  {
    hide Meets;
    JoinAllMeets(frozen, drawn);
    MeetsSymmetric(frozen, JoinAll(drawn));
    forall t | t in drawn ensures !Meets(frozen, t) {
      MeetsSymmetric(frozen, t);
    }
  }

  lemma {:induction false} DrawnWithin(drawn: seq<bv32>)
    requires forall t :: t in drawn ==> t in TAG_LIST
    ensures Covers(ALL_TAGS, JoinAll(drawn))
  {
    hide Join, Covers;
    if drawn == [] {
      CoversNone(ALL_TAGS);
    } else {
      var last := drawn[|drawn| - 1];
      DrawnWithin(drawn[..|drawn| - 1]);
      ListWithin(last);
      CoversBoth(ALL_TAGS, JoinAll(drawn[..|drawn| - 1]), last);
    }
  }

  lemma ListWithin(t: bv32)
    requires t in TAG_LIST
    ensures Covers(ALL_TAGS, t)
  {
  }

  /** Every choice of one to three free tags can be drawn. */
  lemma PickTagsComplete(frozen: bv32, wanted: seq<bv32>) returns (rolls: seq<nat>)
    requires 1 <= |wanted| <= 3 && Distinct(wanted)
    requires forall t :: t in wanted ==> t in TAG_LIST && !Meets(t, frozen)
    ensures |rolls| == 4 && PickTags(frozen, rolls) == JoinAll(wanted)
  {
    hide Meets, Join, SingleBit;
    var free := Free(TAG_LIST, frozen);
    TagListIsProper();
    FreeIsProper(TAG_LIST, frozen);
    forall t | t in wanted ensures t in free {
    }
    PartOf(wanted, free);
    assert wanted[0..] == wanted && free[0..] == free && wanted[..0] == free[..0];
    var swaps := ShuffleReaches(free, 0, wanted);
    var padded := swaps + seq(3 - |wanted|, _ => 0);
    rolls := [|wanted| - 1] + padded;
    assert rolls[1..] == padded;
    Prefix(free, 0, |wanted|, swaps, padded);
    assert Min(rolls[0] % 3 + 1, |free|) == |wanted|;
  }

  lemma {:induction false} Prefix<T>(pool: seq<T>, i: nat, pick: nat, rolls: seq<nat>, longer: seq<nat>)
    requires i <= pick <= |pool| && pick <= |rolls| && rolls <= longer
    ensures Shuffle(pool, i, pick, rolls) == Shuffle(pool, i, pick, longer)
    decreases pick - i
  {
    if i < pick {
      Prefix(Swapped(pool, i, i + rolls[i] % (|pool| - i)), i + 1, pick, rolls, longer);
    }
  }

  lemma PartOf<T(!new)>(part: seq<T>, whole: seq<T>)
    requires Distinct(part) && forall t :: t in part ==> t in whole
    ensures multiset(part) <= multiset(whole) && |part| <= |whole|
  {
    forall t ensures multiset(part)[t] <= multiset(whole)[t] {
      CountOnce(part, t);
      if t in multiset(part) {
        assert t in whole;
        assert multiset(whole)[t] >= 1;
      }
    }
    SmallerBag(multiset(part), multiset(whole));
  }

  /** The first loop: the free tags go to the front of avail. */
  method CollectFree(frozen: bv32, avail: array<bv32>) returns (availCnt: nat)
    requires avail.Length == TAG_COUNT
    modifies avail
    ensures availCnt <= TAG_COUNT && avail[..availCnt] == Free(TAG_LIST, frozen)
  {
    hide Meets;
    availCnt := 0;
    var i := 0;
    while i < TAG_COUNT
      invariant 0 <= i <= TAG_COUNT && availCnt <= i
      invariant avail[..availCnt] == Free(TAG_LIST[..i], frozen)
    {
      assert TAG_LIST[..i + 1][..i] == TAG_LIST[..i];
      if !Meets(TAG_LIST[i], frozen) {
        avail[availCnt] := TAG_LIST[i];
        assert avail[..availCnt + 1] == avail[..availCnt] + [TAG_LIST[i]];
        availCnt := availCnt + 1;
      }
      i := i + 1;
    }
    assert TAG_LIST[..TAG_COUNT] == TAG_LIST;
  }

  /** The partial shuffle, in place. */
  method ShuffleInPlace(pool: array<bv32>, poolCnt: nat, pick: nat, rolls: seq<nat>)
    requires pick <= poolCnt <= pool.Length && pick <= |rolls|
    modifies pool
    ensures pool[..poolCnt] == Shuffle(old(pool[..poolCnt]), 0, pick, rolls)
  {
    var i := 0;
    while i < pick
      invariant 0 <= i <= pick
      invariant Shuffle(pool[..poolCnt], i, pick, rolls) == Shuffle(old(pool[..poolCnt]), 0, pick, rolls)
    {
      var j := i + rolls[i] % (poolCnt - i);
      ghost var before := pool[..poolCnt];
      pool[i], pool[j] := pool[j], pool[i];
      assert pool[..poolCnt] == Swapped(before, i, j);
      i := i + 1;
    }
  }

  method EventRandomTags(frozen: bv32, rolls: seq<nat>) returns (result: bv32)
    requires |rolls| == 4
    ensures result == PickTags(frozen, rolls)
  {
    hide Meets, Join, SingleBit, Shuffle;
    var avail := new bv32[TAG_COUNT];
    var availCnt := CollectFree(frozen, avail);
    ghost var free := Free(TAG_LIST, frozen);
    if availCnt == 0 {
      return 0;
    }

    var pick := rolls[0] % 3 + 1;
    if pick > availCnt {
      pick := availCnt;
    }

    var pool := new bv32[TAG_COUNT];
    for i := 0 to availCnt
      invariant pool[..i] == free[..i] && avail[..availCnt] == free
    {
      pool[i] := avail[i];
    }
    assert pool[..availCnt] == free;
    ShuffleInPlace(pool, availCnt, pick, rolls[1..]);
    ghost var drawn := pool[..availCnt][..pick];

    result := 0;
    for i := 0 to pick
      invariant result == JoinAll(drawn[..i])
    {
      assert drawn[..i + 1][..i] == drawn[..i] && drawn[i] == pool[i];
      result := Join(result, pool[i]);
    }
    assert drawn[..pick] == drawn;
  }

  // What the tags are worth.

  function SpawnPrice(tags: bv32, roll: nat): int {
    PopCount(tags) * MARKET_PRICE_PER_TAG + roll % 4 * 100
  }

  function NpcBounty(tags: bv32, roll: nat): int {
    var tagn := PopCount(tags);
    var capped := if tagn == 1 && roll % 5 > 2 then 2 else roll % 5;
    (capped + tagn) * 500 + (if tagn >= 3 then 1500 else 0)
  }

  /** What a spawned document costs and a spawned request pays. */
  lemma SpawnedWorth(frozen: bv32, rolls: seq<nat>, roll: nat)
    requires |rolls| == 4 && PickTags(frozen, rolls) != 0
    ensures 1 <= PopCount(PickTags(frozen, rolls)) <= 3
    ensures 400 <= SpawnPrice(PickTags(frozen, rolls), roll) <= 1500
    ensures 500 <= NpcBounty(PickTags(frozen, rolls), roll) <= 5000
    ensures PopCount(PickTags(frozen, rolls)) == 3 <==> NpcBounty(PickTags(frozen, rolls), roll) >= 3000 + roll % 5 * 500
  {
    hide Meets, Covers, Drop, Join, BitsIn, PickTags;
    PickTagsLawful(frozen, rolls);
    FewFree(frozen);
  }

  /** A free tag counts. */
  lemma FewFree(frozen: bv32)
    ensures Drop(ALL_TAGS, frozen) == 0 || PopCount(Drop(ALL_TAGS, frozen)) >= 1
  {
    hide Meets, Drop, Join, SingleBit, BitsIn;
    TagListIsProper();
    FreeIsProper(TAG_LIST, frozen);
    ProperBits(Free(TAG_LIST, frozen));
    FreeMask(TAG_LIST, frozen);
    TagListMask();
  }
}
