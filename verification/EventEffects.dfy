// What the event thread, a reset and the start do to the world, slot by slot.
module EventEffects {
  import opened Prelude
  import opened Masks
  import opened Tags
  import opened RandomTags
  import opened UserDb
  import opened Sandbox
  import opened Escape
  import opened Economy
  import opened EconomyLaws
  import opened Effects
  import M = Market
  import N = NpcBoard

  // What things are worth.

  /** A document costs 400 a tag and up to 300 more; a request pays 500 a tag and up to 2000 more,
      but no more than 1500 for one tag, and 1500 on top for three. */
  lemma Worth(tags: bv32, roll: nat)
    requires 1 <= PopCount(tags) <= 3
    ensures SpawnPrice(tags, roll) == 400 * PopCount(tags) + [0, 100, 200, 300][roll % 4]
    ensures NpcBounty(tags, roll)
      == if PopCount(tags) == 1 then [500, 1000, 1500, 1500, 1500][roll % 5]
         else if PopCount(tags) == 2 then [1000, 1500, 2000, 2500, 3000][roll % 5]
         else [3000, 3500, 4000, 4500, 5000][roll % 5]
  {
    hide PopCount;
  }

  /** The seeds: four documents of two tags for 800, 400 a tag, and two requests of two tags. */
  lemma SeedsAre()
    ensures |SEED_DOCS| == 4 && |SEED_NPCS| == 2
    ensures SEED_DOCS[0].docId == 124 && SEED_DOCS[0].tags == 0x012 && SEED_DOCS[1].docId == 111 && SEED_DOCS[1].tags == 0x060
    ensures SEED_DOCS[2].docId == 47 && SEED_DOCS[2].tags == 0x208 && SEED_DOCS[3].docId == 70 && SEED_DOCS[3].tags == 0x201
    ensures forall i :: 0 <= i < 4 ==> SEED_DOCS[i].price == 800
    ensures SEED_NPCS[0] == N.Request(102, 0x012, 1200) && SEED_NPCS[1] == N.Request(356, 0x060, 2500)
  {
  }

  /** The tags are the twelve lowest bits. */
  lemma TagsAre()
    ensures TAG_LIST == [0x1, 0x2, 0x4, 0x8, 0x10, 0x20, 0x40, 0x80, 0x100, 0x200, 0x400, 0x800]
  {
  }

  // Spawning.

  predicate FreeFirst(slots: seq<M.MarketSlot>, i: nat) {
    i < |slots| && !slots[i].active && forall j :: 0 <= j < i ==> slots[j].active
  }

  predicate FreeNpcFirst(slots: seq<N.NpcSlot>, i: nat) {
    i < |slots| && !slots[i].active && forall j :: 0 <= j < i ==> slots[j].active
  }

  /** A fresh slot: listed now, for 40 to 90 seconds, and frozen as the mask says. */
  function Listed(doc: M.Offer, mask: bv32, now: int, roll: nat): M.MarketSlot {
    M.MarketSlot(doc, true, Meets(doc.tags, mask), now, 40 + roll % 51)
  }

  lemma AddsAt(b: M.Board, doc: M.Offer, now: int, roll: nat, i: nat)
    requires FreeFirst(b.slots, i)
    ensures M.HasRoom(b) && M.AddOffer(b, doc, now, roll) == b.(slots := b.slots[i := Listed(doc, b.mask, now, roll)])
  {
    hide Meets;
    assert M.FirstFreeFrom(b.slots, 0) == i;
  }

  lemma AddsNpcAt(slots: seq<N.NpcSlot>, r: N.Request, now: int, i: nat)
    requires FreeNpcFirst(slots, i)
    ensures N.AddRequest(slots, r, now) == slots[i := N.NpcSlot(r, true, now)]
  {
    assert N.FirstFreeFrom(slots, 0) == i;
  }

  /** The tags drawn against the mask that was read: none of them frozen by it, one to three of the
      twelve as the first roll says, fewer if fewer are free, and none only if none is. */
  lemma Drawn(maskRead: bv32, tagRolls: seq<nat>)
    requires |tagRolls| == 4
    ensures var tags := PickTags(maskRead, tagRolls);
      && !Meets(tags, maskRead) && Covers(0xFFF, tags)
      && PopCount(tags) == Min(tagRolls[0] % 3 + 1, PopCount(Drop(0xFFF, maskRead)))
      && (tags == 0 <==> Covers(maskRead, 0xFFF))
      && (tags != 0 ==> 1 <= PopCount(tags) <= 3)
  {
    hide Meets, Covers, Drop, PopCount, PickTags;
    PickTagsLawful(maskRead, tagRolls);
    NothingFree(maskRead, ALL_TAGS);
    if PickTags(maskRead, tagRolls) != 0 {
      SpawnedWorth(maskRead, tagRolls, 0);
    }
  }

  /** A spawn fills the first free slot with a drawn document and writes its file. */
  lemma SpawnEventDoes(w: World, docId: int, maskRead: bv32, tagRolls: seq<nat>, priceRoll: nat, name: Name, now: int, roll: nat, i: nat)
    requires |w.ladder.log| == MAX_SCORE_ESCAPED && |tagRolls| == 4 && FreeFirst(w.board.slots, i)
    ensures var out, tags := Step(w, SpawnEvent(docId, maskRead, tagRolls, priceRoll, name, now, roll)), PickTags(maskRead, tagRolls);
      if tags == 0 then out == Outcome(w, Silent, false)
      else
        var doc := M.Offer(docId, tags, 400 * PopCount(tags) + [0, 100, 200, 300][priceRoll % 4], name);
        out == Outcome(w.(board := w.board.(slots := w.board.slots[i := Listed(doc, w.board.mask, now, roll)]),
                          files := w.files.(master := w.files.master[docId := doc])), Silent, false)
  {
    hide PickTags, PopCount, SpawnPrice, Listed, M.AddOffer, M.HasRoom;
    var tags := PickTags(maskRead, tagRolls);
    if tags != 0 {
      Drawn(maskRead, tagRolls);
      Worth(tags, priceRoll);
    }
    AddsAt(w.board, M.Offer(docId, tags, SpawnPrice(tags, priceRoll), name), now, roll, i);
  }

  lemma SpawnOnFull(w: World, docId: int, maskRead: bv32, tagRolls: seq<nat>, priceRoll: nat, name: Name, now: int, roll: nat)
    requires |w.ladder.log| == MAX_SCORE_ESCAPED && |tagRolls| == 4 && forall i :: 0 <= i < |w.board.slots| ==> w.board.slots[i].active
    ensures Step(w, SpawnEvent(docId, maskRead, tagRolls, priceRoll, name, now, roll)) == Outcome(w, Silent, false)
  {
    hide PickTags, SpawnPrice;
  }

  lemma SpawnNpcEventDoes(w: World, npcId: int, maskRead: bv32, tagRolls: seq<nat>, bountyRoll: nat, now: int, i: nat)
    requires |w.ladder.log| == MAX_SCORE_ESCAPED && |tagRolls| == 4 && FreeNpcFirst(w.npcs, i)
    ensures var out, tags := Step(w, SpawnNpcEvent(npcId, maskRead, tagRolls, bountyRoll, now)), PickTags(maskRead, tagRolls);
      if tags == 0 then out == Outcome(w, Silent, false)
      else
        var bounty := if PopCount(tags) == 1 then [500, 1000, 1500, 1500, 1500][bountyRoll % 5]
                      else if PopCount(tags) == 2 then [1000, 1500, 2000, 2500, 3000][bountyRoll % 5]
                      else [3000, 3500, 4000, 4500, 5000][bountyRoll % 5];
        out == Outcome(w.(npcs := w.npcs[i := N.NpcSlot(N.Request(npcId, tags, bounty), true, now)]), Silent, false)
  {
    hide PickTags, PopCount, NpcBounty, N.AddRequest;
    var tags := PickTags(maskRead, tagRolls);
    if tags != 0 {
      Drawn(maskRead, tagRolls);
      Worth(tags, bountyRoll);
    }
    AddsNpcAt(w.npcs, N.Request(npcId, tags, NpcBounty(tags, bountyRoll)), now, i);
  }

  lemma SpawnNpcOnFull(w: World, npcId: int, maskRead: bv32, tagRolls: seq<nat>, bountyRoll: nat, now: int)
    requires |w.ladder.log| == MAX_SCORE_ESCAPED && |tagRolls| == 4 && forall i :: 0 <= i < |w.npcs| ==> w.npcs[i].active
    ensures Step(w, SpawnNpcEvent(npcId, maskRead, tagRolls, bountyRoll, now)) == Outcome(w, Silent, false)
  {
    hide PickTags, NpcBounty;
    assert w.(npcs := w.npcs) == w;
  }

  // Ageing.

  /** On sale, not frozen, and listed longer ago than its lifespan. */
  predicate Outlived(slot: M.MarketSlot, now: int) {
    slot.active && !slot.frozen && now - slot.spawnTime > slot.lifespan
  }

  /** 140 seconds for one tag and 30 less for each other, but never under a minute. */
  predicate Overdue(slot: N.NpcSlot, now: int) {
    slot.active && now - slot.spawnTime > (if 170 - 30 * PopCount(slot.request.requiredTags) < 60 then 60
                                           else 170 - 30 * PopCount(slot.request.requiredTags))
  }

  lemma AgedIdsAre(b: M.Board, now: int, id: int)
    ensures id in M.AgedIds(b, now) <==> exists i :: 0 <= i < |b.slots| && Outlived(b.slots[i], now) && b.slots[i].offer.docId == id
  {
    hide Bag, Live;
    var cells := M.ExpiredCells(b.slots, now);
    BagIsLive(cells);
    BagMember(cells, id);
    assert id in M.AgedIds(b, now) <==> id in multiset(Live(cells));
    forall i | 0 <= i < |b.slots| ensures cells[i] == Some(id) <==> Outlived(b.slots[i], now) && b.slots[i].offer.docId == id {
    }
  }

  /** An ageing pass takes off the board exactly the unfrozen offers that have outlived their time,
      and out of the master directory exactly their files; and requests by the number of their tags. */
  lemma AgeEventDoes(w: World, now: int)
    requires |w.ladder.log| == MAX_SCORE_ESCAPED
    ensures var out := Step(w, AgeEvent(now));
      && out.reply == Silent && !out.bust
      && out.world == w.(board := w.board.(slots := out.world.board.slots), npcs := out.world.npcs,
                         files := Files(out.world.files.master, w.files.users))
      && |out.world.board.slots| == |w.board.slots| && |out.world.npcs| == |w.npcs|
      && (forall i :: 0 <= i < |w.board.slots| ==>
            out.world.board.slots[i] == if Outlived(w.board.slots[i], now) then w.board.slots[i].(active := false) else w.board.slots[i])
      && (forall id :: id in out.world.files.master <==>
            id in w.files.master
            && !exists i :: 0 <= i < |w.board.slots| && Outlived(w.board.slots[i], now) && w.board.slots[i].offer.docId == id)
      && (forall id :: id in out.world.files.master ==> out.world.files.master[id] == w.files.master[id])
      && (forall i :: 0 <= i < |w.npcs| ==>
            out.world.npcs[i] == if Overdue(w.npcs[i], now) then w.npcs[i].(active := false) else w.npcs[i])
  {
    hide M.AgedIds, Outlived, PopCount;
    AgedSlots(w.board, now);
    OverdueIs(w.npcs, now);
    forall id ensures id in M.AgedIds(w.board, now) <==>
      exists i :: 0 <= i < |w.board.slots| && Outlived(w.board.slots[i], now) && w.board.slots[i].offer.docId == id
    {
      AgedIdsAre(w.board, now, id);
    }
  }

  lemma AgedSlots(b: M.Board, now: int)
    ensures |M.AgeOut(b, now).slots| == |b.slots| && M.AgeOut(b, now).mask == b.mask
    ensures forall i :: 0 <= i < |b.slots| ==>
      M.AgeOut(b, now).slots[i] == if Outlived(b.slots[i], now) then b.slots[i].(active := false) else b.slots[i]
  {
  }

  lemma OverdueIs(slots: seq<N.NpcSlot>, now: int)
    ensures var after := N.AgeOut(slots, N.EVT_NPC_MAX_AGE_SEC, N.EVT_NPC_AGE_STEP_SEC, now);
      |after| == |slots|
      && forall i :: 0 <= i < |slots| ==> after[i] == if Overdue(slots[i], now) then slots[i].(active := false) else slots[i]
  {
    hide PopCount;
  }

  /** A frozen offer outlives any pass, and an unfrozen one stays for 40 seconds and is gone after 90. */
  lemma OfferLives(doc: M.Offer, mask: bv32, listed: int, roll: nat, now: int)
    ensures Outlived(Listed(doc, mask, listed, roll), now) ==> now > listed + 40 && !Meets(doc.tags, mask)
    ensures now > listed + 90 && !Meets(doc.tags, mask) ==> Outlived(Listed(doc, mask, listed, roll), now)
    ensures !Outlived(Listed(doc, mask, listed, roll).(frozen := true), now)
  {
    hide Meets;
  }

  // Freezing.

  /** A leak freezes its tags and marks the offers on sale that carry one. */
  lemma FreezeEventDoes(w: World, tags: bv32)
    requires |w.ladder.log| == MAX_SCORE_ESCAPED
    ensures var out := Step(w, FreezeEvent(tags));
      && out.reply == Silent && !out.bust && out.world == w.(board := out.world.board)
      && (forall v :: Meets(v, out.world.board.mask) <==> Meets(v, w.board.mask) || Meets(v, tags))
      && |out.world.board.slots| == |w.board.slots|
      && forall i :: 0 <= i < |w.board.slots| ==>
           var slot := w.board.slots[i];
           out.world.board.slots[i] == slot.(frozen := slot.frozen || (slot.active && Meets(slot.offer.tags, tags)))
  {
    hide Meets, Join;
    forall v ensures Meets(v, Join(w.board.mask, tags)) <==> Meets(v, w.board.mask) || Meets(v, tags) {
      MeetsJoin(v, w.board.mask, tags);
    }
  }

  /** A recovery thaws its tags and unmarks the offers that carry one, and none still frozen. */
  lemma UnfreezeEventDoes(w: World, tags: bv32)
    requires |w.ladder.log| == MAX_SCORE_ESCAPED
    ensures var out := Step(w, UnfreezeEvent(tags));
      && out.reply == Silent && !out.bust && out.world == w.(board := out.world.board)
      && (forall v :: SingleBit(v) ==> (Meets(v, out.world.board.mask) <==> Meets(v, w.board.mask) && !Meets(v, tags)))
      && |out.world.board.slots| == |w.board.slots|
      && forall i :: 0 <= i < |w.board.slots| ==>
           var slot := w.board.slots[i];
           out.world.board.slots[i]
           == slot.(frozen := slot.frozen && !(slot.active && Meets(slot.offer.tags, tags) && !Meets(slot.offer.tags, out.world.board.mask)))
  {
    hide Meets, Drop, SingleBit;
    forall v | SingleBit(v) ensures Meets(v, Drop(w.board.mask, tags)) <==> Meets(v, w.board.mask) && !Meets(v, tags) {
      ThawedTag(v, w.board.mask, tags);
    }
  }

  lemma ThawedTag(v: bv32, mask: bv32, tags: bv32)
    requires SingleBit(v)
    ensures Meets(v, Drop(mask, tags)) <==> Meets(v, mask) && !Meets(v, tags)
  {
    hide Meets, Drop, SingleBit;
    DropSwap(v, mask, tags);
    DropTag(v, tags);
    MeetsZero(mask);
  }

  // The reset and the start.

  lemma {:induction false} SeedSlots(w: World, docs: seq<M.Offer>, now: int, rolls: seq<nat>, k: nat)
    requires |rolls| == |docs| && k + |docs| <= |w.board.slots| && w.board.mask == 0
    requires forall j :: 0 <= j < |w.board.slots| ==> (w.board.slots[j].active <==> j < k)
    ensures var after := SeedDocs(w, docs, now, rolls);
      && after == w.(board := after.board, files := after.files) && after.board.mask == 0
      && after.files.users == w.files.users && |after.board.slots| == |w.board.slots|
      && (forall j :: 0 <= j < |w.board.slots| ==>
            after.board.slots[j]
            == if k <= j < k + |docs| then M.MarketSlot(docs[j - k], true, false, now, 40 + rolls[j - k] % 51) else w.board.slots[j])
    decreases |docs|
  {
    hide Meets, M.AddOffer;
    if docs != [] {
      AddsAt(w.board, docs[0], now, rolls[0], k);
      MeetsZero(docs[0].tags);
      var next := w.(files := w.files.(master := w.files.master[docs[0].docId := docs[0]]),
                     board := M.AddOffer(w.board, docs[0], now, rolls[0]));
      SeedSlots(next, docs[1..], now, rolls[1..], k + 1);
    }
  }

  /** A round reset puts the seeds into the first slots and into the master directory, listed now and
      unfrozen, and nothing else; it empties every directory, restores every account that is not
      burned, starts the ladder again and ends the cooldown; who is logged in stays so. */
  lemma ResetEventDoes(w: World, now: int, rolls: seq<nat>)
    requires |w.ladder.log| == MAX_SCORE_ESCAPED && |rolls| == 4
    ensures var out := Step(w, ResetEvent(now, rolls));
      && out.reply == Silent && !out.bust && Restarted(w, out.world, now, rolls)
  {
    hide RoundReset, Restarted;
    ResetRestarts(w, now, rolls);
  }

  ghost predicate Restarted(w: World, after: World, now: int, rolls: seq<nat>)
    requires |rolls| == 4
  {
    && after.board.mask == 0 && |after.board.slots| == 32 && |after.npcs| == 16
    && (forall i :: 0 <= i < 4 ==> after.board.slots[i] == M.MarketSlot(SEED_DOCS[i], true, false, now, 40 + rolls[i] % 51))
    && (forall i :: 4 <= i < 32 ==> !after.board.slots[i].active)
    && (forall i :: 0 <= i < 2 ==> after.npcs[i] == N.NpcSlot(SEED_NPCS[i], true, now))
    && (forall i :: 2 <= i < 16 ==> !after.npcs[i].active)
    && (forall id :: id in after.files.master <==> exists i :: 0 <= i < 4 && SEED_DOCS[i].docId == id)
    && (forall i :: 0 <= i < 4 ==> SEED_DOCS[i].docId in after.files.master && after.files.master[SEED_DOCS[i].docId] == SEED_DOCS[i])
    && after.files.users.Keys == w.files.users.Keys && (forall k :: Held(after.files, k) == map[])
    && (forall k :: Balance(after, k)
                    == if Balance(w, k) == None || Balance(w, k) == Some(-1) then Balance(w, k) else Some(1000))
    && Tells(after.ladder, []) && after.rumorUntil == 0 && after.online == w.online
  }

  lemma ResetRestarts(w: World, now: int, rolls: seq<nat>)
    requires |rolls| == 4
    ensures Restarted(w, RoundReset(w, now, rolls), now, rolls)
  {
    hide RoundReset, Filed, Has, Money, M.Offers, N.Requests, Reset, NewLadder, Join;
    var after := RoundReset(w, now, rolls);
    ResetBoards(w, now, rolls);
    forall k
      ensures Held(after.files, k) == map[]
      ensures Balance(after, k) == if Balance(w, k) == None || Balance(w, k) == Some(-1) then Balance(w, k) else Some(1000)
    {
      ResetPeople(w, now, rolls, k);
    }
    NewLadderTells();
    ResetSlots(w, now, rolls);
  }

  lemma ResetSlots(w: World, now: int, rolls: seq<nat>)
    requires |rolls| == 4
    ensures var after := RoundReset(w, now, rolls);
      && |after.board.slots| == 32 && |after.npcs| == 16
      && (forall i :: 0 <= i < 4 ==> after.board.slots[i] == M.MarketSlot(SEED_DOCS[i], true, false, now, 40 + rolls[i] % 51))
      && (forall i :: 4 <= i < 32 ==> !after.board.slots[i].active)
      && (forall i :: 0 <= i < 2 ==> after.npcs[i] == N.NpcSlot(SEED_NPCS[i], true, now))
      && (forall i :: 2 <= i < 16 ==> !after.npcs[i].active)
  {
    hide SeedDocs, N.AddRequest, Reset, NewLadder, PurgeAll, Join;
    SeedSlots(Cleaned(w), SEED_DOCS, now, rolls, 0);
    AddsNpcAt(N.EmptyNpcs(), SEED_NPCS[0], now, 0);
    AddsNpcAt(N.EmptyNpcs()[0 := N.NpcSlot(SEED_NPCS[0], true, now)], SEED_NPCS[1], now, 1);
  }

  /** The server starts as after a reset of nothing: no accounts, no directories, nobody logged in. */
  lemma BootDoes(now: int, rolls: seq<nat>)
    requires |rolls| == 4
    ensures var w := Boot(now, rolls);
      && (forall k :: Balance(w, k) == None) && w.files.users == map[] && w.online == {} && w.rumorUntil == 0
      && Tells(w.ladder, []) && w.board.mask == 0 && |w.board.slots| == 32 && |w.npcs| == 16
      && (forall i :: 0 <= i < 4 ==> w.board.slots[i] == M.MarketSlot(SEED_DOCS[i], true, false, now, 40 + rolls[i] % 51))
      && (forall i :: 4 <= i < 32 ==> !w.board.slots[i].active)
      && (forall i :: 0 <= i < 2 ==> w.npcs[i] == N.NpcSlot(SEED_NPCS[i], true, now))
      && (forall id :: id in w.files.master <==> exists i :: 0 <= i < 4 && SEED_DOCS[i].docId == id)
  {
    hide RoundReset, Join;
    var nothing := World(M.EmptyBoard(), N.EmptyNpcs(), [], Files(map[], map[]), NewLadder(), 0, {});
    ResetRestarts(nothing, now, rolls);
    assert Boot(now, rolls).files.users == map[];
  }
}
