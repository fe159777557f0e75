// What one purchase and one sale do, and when they succeed.
module Trades {
  import opened Prelude
  import opened Masks
  import opened UserDb
  import opened Sandbox
  import opened Economy
  import opened EconomyLaws
  import M = Market
  import N = NpcBoard

  // Purchases.

  /** A purchase succeeds exactly when the offer is there and not frozen, a slot of the
      seven is free, the balance covers the price and the file moves. It then exchanges
      the price for the document and takes the offer off the board. */
  lemma BuySucceeds(w: World, key: Key, docId: int, env: BuyEnv)
    requires Has(w.records, key)
    ensures var (after, reply) := Buy(w, key, docId, env);
      && (reply.Bought? <==>
           && M.Take(w.board, docId).Taken?
           && CountDocs(w.files, key) < MAX_INVEN_SIZE
           && M.Take(w.board, docId).slot.offer.price <= Money(w.records, key)
           && env.renameOk && CanMove(w.files, key, docId))
      && (reply.Bought? ==>
           && Balance(after, key) == Some(Money(w.records, key) - reply.offer.price)
           && reply.money == Money(w.records, key) - reply.offer.price
           && reply.offer.docId == docId
           && M.Offers(w.board) == M.Offers(after.board) + multiset{reply.offer}
           && Held(after.files, key) == Held(w.files, key)[docId := w.files.master[docId]]
           && after.files.master == w.files.master - {docId}
           && forall k :: k != key ==> Balance(after, k) == Balance(w, k) && Held(after.files, k) == Held(w.files, k))
  {
    hide Money, Has, SetBalance, M.Find, M.Offers, M.AfterTake, M.AddOffer, CountDocs;
    M.TakeKeeps(w.board, docId);
    var (after, reply) := Buy(w, key, docId, env);
    if reply.Bought? {
      forall k ensures Balance(after, k) == if k == key then Some(reply.money) else Balance(w, k) {
        SetOne(w.records, key, reply.money, k);
      }
    }
  }

  /** A refused purchase changes no account and no file, and leaves the same offers on sale
      with true frozen flags, even when the file would not move and the offer was put back,
      perhaps into another slot. */
  lemma BuyRefusedKeeps(w: World, key: Key, docId: int, env: BuyEnv)
    requires M.Consistent(w.board) && Buy(w, key, docId, env).1.Refused?
    ensures var after := Buy(w, key, docId, env).0;
      && after == w.(board := after.board)
      && M.Offers(after.board) == M.Offers(w.board)
      && M.Consistent(after.board) && after.board.mask == w.board.mask
  {
    hide Money, Has, SetBalance, M.Offers, M.Consistent, CountDocs, CanMove, M.HasRoom, M.AddOffer;
    M.TakeKeeps(w.board, docId);
    if BuyRefusal(w, key, docId).None? {
      var offer := M.Take(w.board, docId).slot.offer;
      ReAdd(w.board, docId, env.now, env.roll);
      M.AddKeeps(M.AfterTake(w.board, docId), offer, env.now, env.roll);
      M.AddKeepsMask(M.AfterTake(w.board, docId), offer, env.now, env.roll);
    }
  }

  // Sorting.

  predicate Ascending(s: seq<int>) {
    forall i, j :: 0 <= i < j < |s| ==> s[i] <= s[j]
  }

  lemma {:induction false} InsertBag(x: int, s: seq<int>)
    ensures multiset(Insert(x, s)) == multiset(s) + multiset{x}
  {
    if s != [] && x > s[0] {
      InsertBag(x, s[1..]);
      assert s == [s[0]] + s[1..];
      assert multiset(s) == multiset{s[0]} + multiset(s[1..]);
    }
  }

  lemma {:induction false} InsertSorts(x: int, s: seq<int>)
    requires Ascending(s)
    ensures Ascending(Insert(x, s))
  {
    if s == [] {
    } else if x <= s[0] {
      ConsAscending(x, s);
    } else {
      InsertSorts(x, s[1..]);
      InsertMembers(x, s[1..]);
      ConsAscending(s[0], Insert(x, s[1..]));
    }
  }

  lemma ConsAscending(h: int, rest: seq<int>)
    requires Ascending(rest) && forall y :: y in rest ==> h <= y
    ensures Ascending([h] + rest)
  {
    forall i, j | 0 <= i < j < |[h] + rest| ensures ([h] + rest)[i] <= ([h] + rest)[j] {
      assert rest[j - 1] in rest;
    }
  }

  lemma {:induction false} InsertMembers(x: int, s: seq<int>)
    ensures forall y :: y in Insert(x, s) <==> y == x || y in s
  {
    if s != [] && x > s[0] {
      InsertMembers(x, s[1..]);
      assert s == [s[0]] + s[1..];
    }
  }

  lemma {:induction false} SortSorts(ids: seq<int>)
    ensures Ascending(SortIds(ids)) && multiset(SortIds(ids)) == multiset(ids)
  {
    if ids != [] {
      SortSorts(ids[1..]);
      InsertSorts(ids[0], SortIds(ids[1..]));
      InsertBag(ids[0], SortIds(ids[1..]));
      assert ids == [ids[0]] + ids[1..];
    }
  }

  /** There is one ascending arrangement of a bag. */
  lemma {:induction false} AscendingUnique(a: seq<int>, b: seq<int>)
    requires Ascending(a) && Ascending(b) && multiset(a) == multiset(b)
    ensures a == b
  {
    if a == [] {
      assert |multiset(b)| == 0;
    } else {
      assert |multiset(a)| == |a| && |multiset(b)| == |b|;
      LeastFirst(a, b);
      LeastFirst(b, a);
      assert a == [a[0]] + a[1..] && b == [b[0]] + b[1..];
      assert multiset(a[1..]) == multiset(a) - multiset{a[0]};
      assert multiset(b[1..]) == multiset(b) - multiset{b[0]};
      AscendingUnique(a[1..], b[1..]);
    }
  }

  lemma LeastFirst(a: seq<int>, b: seq<int>)
    requires Ascending(a) && a != [] && b != [] && multiset(a) == multiset(b)
    ensures a[0] <= b[0]
  {
    assert b[0] in multiset(b);
    assert b[0] in a;
  }

  lemma SortCanonical(a: seq<int>, b: seq<int>)
    requires multiset(a) == multiset(b)
    ensures SortIds(a) == SortIds(b)
  {
    SortSorts(a);
    SortSorts(b);
    AscendingUnique(SortIds(a), SortIds(b));
  }

  // Sales.

  /** Answer and world depend only on the bag of the first count ids. */
  lemma SaleDependsOnBag(w: World, key: Key, npcId: int, count: int, one: seq<int>, other: seq<int>)
    requires |one| == |other| == MAX_INVEN_SIZE
    requires 0 < count <= MAX_INVEN_SIZE ==> multiset(one[..count]) == multiset(other[..count])
    ensures Sell(w, key, npcId, count, one) == Sell(w, key, npcId, count, other)
  {
    hide SortIds, CheckDocs, Covers, N.Find;
    if 0 < count <= MAX_INVEN_SIZE {
      SortCanonical(one[..count], other[..count]);
    }
  }

  /** Everything submitted is held and none of it is frozen. */
  predicate Submittable(w: World, key: Key, ids: seq<int>) {
    forall id :: id in ids ==> id in Held(w.files, key) && !Meets(Held(w.files, key)[id].tags, w.board.mask)
  }

  predicate Carries(w: World, key: Key, id: int, t: bv32) {
    id in Held(w.files, key) && Meets(t, Held(w.files, key)[id].tags)
  }

  lemma {:induction false} CheckPasses(w: World, key: Key, ids: seq<int>, tags: bv32)
    ensures CheckDocs(w, key, ids, tags).Good? <==> Submittable(w, key, ids)
    ensures CheckDocs(w, key, ids, tags).Good? ==>
      forall t :: Meets(t, CheckDocs(w, key, ids, tags).tags) <==>
        Meets(t, tags) || exists id :: id in ids && Carries(w, key, id, t)
    decreases |ids|
  {
    hide Meets, Join, Held;
    if ids != [] {
      var id, rest := ids[0], ids[1..];
      assert ids == [id] + rest;
      if id in Held(w.files, key) && !Meets(Held(w.files, key)[id].tags, w.board.mask) {
        var docTags := Held(w.files, key)[id].tags;
        CheckPasses(w, key, rest, Join(tags, docTags));
        forall t ensures Meets(t, Join(tags, docTags)) <==> Meets(t, tags) || Meets(t, docTags) {
          MeetsJoin(t, tags, docTags);
        }
        assert forall t :: Carries(w, key, id, t) <==> Meets(t, docTags);
      }
    }
  }

  lemma CoversIff(a: bv32, b: bv32)
    ensures Covers(a, b) <==> forall t :: Meets(t, b) ==> Meets(t, a)
  {
    if Covers(a, b) {
      forall t | Meets(t, b) ensures Meets(t, a) {
        CoversMeets(a, b, t);
      }
    } else {
      MissingTags(a, b);
    }
  }

  /** A sale succeeds exactly when one to seven ids are submitted, the request is open, every
      document is held and none frozen, and together they carry every required tag. */
  lemma SellSucceeds(w: World, key: Key, npcId: int, count: int, ids: seq<int>)
    requires |ids| == MAX_INVEN_SIZE && Has(w.records, key)
    ensures Sell(w, key, npcId, count, ids).1.Sold? <==>
      && 0 < count <= MAX_INVEN_SIZE
      && N.Find(w.npcs, npcId).Some?
      && Submittable(w, key, ids[..count])
      && forall t :: Meets(t, N.Find(w.npcs, npcId).value.requiredTags) ==> exists id :: id in ids[..count] && Carries(w, key, id, t)
  {
    hide SortIds, CheckDocs, Covers, N.Find, Meets, Carries, SetBalance, Money, Has, Submittable, N.AfterTake, DropDocs;
    if 0 < count <= MAX_INVEN_SIZE && N.Find(w.npcs, npcId).Some? {
      var sorted, part := SortIds(ids[..count]), ids[..count];
      SortSorts(part);
      SameMembers(sorted, part);
      SameSubmission(w, key, sorted, part);
      CheckPasses(w, key, sorted, 0);
      NothingMeetsZero();
      if CheckDocs(w, key, sorted, 0).Good? {
        CoversIff(CheckDocs(w, key, sorted, 0).tags, N.Find(w.npcs, npcId).value.requiredTags);
      }
    }
  }

  lemma SameMembers(a: seq<int>, b: seq<int>)
    requires multiset(a) == multiset(b)
    ensures forall x :: x in a <==> x in b
  {
    forall x ensures x in a <==> x in b {
      assert x in a <==> x in multiset(a);
      assert x in b <==> x in multiset(b);
    }
  }

  lemma SameSubmission(w: World, key: Key, a: seq<int>, b: seq<int>)
    requires forall x :: x in a <==> x in b
    ensures Submittable(w, key, a) <==> Submittable(w, key, b)
  {
    hide Meets, Held;
  }

  /** A sale that succeeds removes exactly the submitted documents, closes one request and
      pays its bounty to the seller alone. One that fails changes nothing. */
  lemma SellEffect(w: World, key: Key, npcId: int, count: int, ids: seq<int>)
    requires |ids| == MAX_INVEN_SIZE
    ensures var (after, reply) := Sell(w, key, npcId, count, ids);
      if reply.Sold? then
        && Has(w.records, key) && N.Find(w.npcs, npcId).Some?
        && var npc := N.Find(w.npcs, npcId).value;
        && npc.npcId == npcId && reply.bounty == npc.bounty
        && N.Requests(w.npcs) == N.Requests(after.npcs) + multiset{npc}
        && reply.money == Money(w.records, key) + npc.bounty
        && (forall k :: Balance(after, k) == if k == key then Some(reply.money) else Balance(w, k))
        && 0 < count <= MAX_INVEN_SIZE
        && (forall id :: id in Held(after.files, key) <==> id in Held(w.files, key) && id !in ids[..count])
        && (forall id :: id in Held(after.files, key) ==> Held(after.files, key)[id] == Held(w.files, key)[id])
        && (forall k :: k != key ==> Held(after.files, k) == Held(w.files, k))
        && after.files.master == w.files.master && after.board == w.board && after.ladder == w.ladder
      else after == w
  {
    hide SortIds, Sell, N.Find, N.Requests, SetBalance, Money, Has, N.AfterTake, DropDocs, Held;
    var (after, reply) := Sell(w, key, npcId, count, ids);
    SellUnfolds(w, key, npcId, count, ids);
    if reply.Sold? {
      N.TakeKeeps(w.npcs, npcId);
      DropEffect(w.files, key, ids[..count]);
      forall k ensures Balance(after, k) == if k == key then Some(reply.money) else Balance(w, k) {
        SetOne(w.records, key, reply.money, k);
      }
    }
  }

  lemma SellUnfolds(w: World, key: Key, npcId: int, count: int, ids: seq<int>)
    requires |ids| == MAX_INVEN_SIZE
    ensures var (after, reply) := Sell(w, key, npcId, count, ids);
      if reply.Sold? then
        && Has(w.records, key) && N.Find(w.npcs, npcId).Some? && 0 < count <= MAX_INVEN_SIZE
        && var bounty := N.Find(w.npcs, npcId).value.bounty;
        && reply == Sold(bounty, Money(w.records, key) + bounty)
        && after == WithMoney(w, key, reply.money).(npcs := N.AfterTake(w.npcs, npcId),
                                                    files := DropDocs(w.files, key, set id | id in ids[..count]))
      else after == w
  {
    hide SortIds, CheckDocs, Covers, N.Find, SetBalance, Money, Has, N.AfterTake, DropDocs;
    if 0 < count <= MAX_INVEN_SIZE {
      SortSorts(ids[..count]);
      SameMembers(SortIds(ids[..count]), ids[..count]);
      SameSet(SortIds(ids[..count]), ids[..count]);
    }
  }

  lemma SameSet(a: seq<int>, b: seq<int>)
    requires forall x :: x in a <==> x in b
    ensures (set x | x in a) == (set x | x in b)
  {
    var inA, inB := set x | x in a, set x | x in b;
    forall x ensures x in inA <==> x in inB {
    }
    assert inA <= inB;
    assert inB <= inA;
  }

  lemma DropEffect(files: Files, key: Key, ids: seq<int>)
    ensures var after := DropDocs(files, key, set id | id in ids);
      && after.master == files.master
      && (forall id :: id in Held(after, key) <==> id in Held(files, key) && id !in ids)
      && (forall id :: id in Held(after, key) ==> Held(after, key)[id] == Held(files, key)[id])
      && (forall k :: k != key ==> Held(after, k) == Held(files, k))
  {
  }
}
