// What every handler and event of the economy keeps: accounts burned or solvent, burned
// accounts empty, small sandboxes, priced boards and true flags.
module EconomyLaws {
  import opened Prelude
  import opened Masks
  import opened RandomTags
  import opened UserDb
  import opened Sandbox
  import opened Escape
  import opened Economy
  import M = Market
  import N = NpcBoard

  /** Accounts are burned or solvent. */
  ghost predicate Solvent(records: Records) {
    forall k :: Has(records, k) ==> Money(records, k) == BURNED || Money(records, k) >= 0
  }

  ghost predicate BurnedAreEmpty(records: Records, files: Files) {
    forall k :: Has(records, k) && Money(records, k) == BURNED ==> Held(files, k) == map[]
  }

  ghost predicate SmallSandboxes(files: Files) {
    forall k :: |Held(files, k)| <= MAX_INVEN_SIZE
  }

  ghost predicate Priced(board: M.Board) {
    forall o :: o in M.Offers(board) ==> 400 <= o.price <= 1500
  }

  ghost predicate Paying(npcs: seq<N.NpcSlot>) {
    forall r :: r in N.Requests(npcs) ==> 500 <= r.bounty <= 5000
  }

  ghost predicate Registered(online: set<Key>, records: Records, files: Files) {
    forall k :: k in online ==> Has(records, k) && k in files.users
  }

  ghost predicate Inv(w: World) {
    && Solvent(w.records)
    && BurnedAreEmpty(w.records, w.files)
    && SmallSandboxes(w.files)
    && Priced(w.board)
    && Paying(w.npcs)
    && Registered(w.online, w.records, w.files)
    && M.Consistent(w.board)
    && w.ladder.goal >= GOAL_MONEY && |w.ladder.log| == MAX_SCORE_ESCAPED
  }

  // The parts of a step.

  /** A write to one account. */
  lemma SetOne(records: Records, key: Key, money: int, k: Key)
    requires Has(records, key)
    ensures var after := SetBalance(records, key, money);
      && (Has(after, k) <==> Has(records, k))
      && (Has(records, k) ==> Money(after, k) == if k == key then money else Money(records, k))
  {
    FirstStays(records, SetBalance(records, key, money), k);
  }

  lemma SetSolvent(records: Records, key: Key, money: int)
    requires Solvent(records) && Has(records, key) && (money == BURNED || money >= 0)
    ensures Solvent(SetBalance(records, key, money))
  {
    hide Has, Money, SetBalance;
    forall k ensures var after := SetBalance(records, key, money);
      Has(after, k) ==> Money(after, k) == BURNED || Money(after, k) >= 0
    {
      SetOne(records, key, money, k);
    }
  }

  /** One account is written, and the documents of that user alone change: still no burned
      account holds any. */
  lemma SetEmpty(records: Records, files: Files, key: Key, money: int, after: Files)
    requires BurnedAreEmpty(records, files) && Has(records, key)
    requires forall k :: k != key ==> Held(after, k) == Held(files, k)
    requires money == BURNED ==> Held(after, key) == map[]
    ensures BurnedAreEmpty(SetBalance(records, key, money), after)
  {
    hide Has, Money, SetBalance, Held;
    forall k ensures var later := SetBalance(records, key, money);
      Has(later, k) && Money(later, k) == BURNED ==> Held(after, k) == map[]
    {
      SetOne(records, key, money, k);
    }
  }

  lemma SetRegistered(online: set<Key>, records: Records, files: Files, key: Key, money: int, after: Files)
    requires Registered(online, records, files) && Has(records, key) && after.users.Keys == files.users.Keys
    ensures Registered(online, SetBalance(records, key, money), after)
  {
    hide Has, Money, SetBalance;
    forall k | k in online ensures Has(SetBalance(records, key, money), k) {
      SetOne(records, key, money, k);
    }
  }

  // The handlers one by one.

  /** A take and the re-add of a failed purchase lose no offer and invent none. */
  lemma ReAdd(b: M.Board, docId: int, now: int, roll: nat)
    requires M.Take(b, docId).Taken?
    ensures var offer := M.Take(b, docId).slot.offer;
      && M.HasRoom(M.AfterTake(b, docId))
      && M.Offers(M.AddOffer(M.AfterTake(b, docId), offer, now, roll)) == M.Offers(b)
  {
    hide Bag, Meets;
    var taken := M.AfterTake(b, docId);
    var i := M.FindFrom(b.slots, docId, 0);
    assert !taken.slots[i].active;
    M.TakeKeeps(b, docId);
    M.AddKeeps(taken, M.Take(b, docId).slot.offer, now, roll);
  }

  lemma FoundIsOffered(b: M.Board, docId: int)
    requires M.Find(b, docId).Some?
    ensures M.Find(b, docId).value.offer in M.Offers(b)
  {
    var i := M.FindFrom(b.slots, docId, 0);
    BagMember(M.Cells(b.slots), b.slots[i].offer);
    assert M.Cells(b.slots)[i] == Some(b.slots[i].offer);
  }

  lemma BuyKeeps(w: World, key: Key, docId: int, env: BuyEnv)
    requires Inv(w) && key in w.online
    ensures Inv(Buy(w, key, docId, env).0)
    ensures Burned(w, key) ==> Buy(w, key, docId, env) == (w, Buy(w, key, docId, env).1)
  {
    hide Solvent, BurnedAreEmpty, SmallSandboxes, Registered, M.Offers, M.Consistent, M.AfterTake, M.AddOffer;
    hide Has, Money, SetBalance, M.HasRoom, M.Find, CanMove, MoveDoc, Paying, CountDocs;
    if BuyRefusal(w, key, docId).None? {
      var offer := M.Find(w.board, docId).value.offer;
      FoundIsOffered(w.board, docId);
      M.TakeKeeps(w.board, docId);
      if !env.renameOk || !CanMove(w.files, key, docId) {
        PutBackKeeps(w, docId, offer, env);
      } else {
        BuyMoves(w, key, docId, offer);
      }
    }
  }

  lemma PutBackKeeps(w: World, docId: int, offer: M.Offer, env: BuyEnv)
    requires Inv(w) && M.Take(w.board, docId).Taken? && M.Take(w.board, docId).slot.offer == offer
    ensures Inv(w.(board := M.AddOffer(M.AfterTake(w.board, docId), offer, env.now, env.roll)))
  {
    hide M.Offers, M.Consistent, M.AfterTake, M.AddOffer, M.HasRoom, M.Take, Paying;
    M.TakeKeeps(w.board, docId);
    ReAdd(w.board, docId, env.now, env.roll);
    M.AddKeeps(M.AfterTake(w.board, docId), offer, env.now, env.roll);
    InvParts(w);
    PeopleKeep(w, w.(board := M.AddOffer(M.AfterTake(w.board, docId), offer, env.now, env.roll)));
  }

  lemma BuyMoves(w: World, key: Key, docId: int, offer: M.Offer)
    requires Inv(w) && key in w.online && Has(w.records, key) && 0 <= offer.price <= Money(w.records, key)
    requires CanMove(w.files, key, docId) && CountDocs(w.files, key) < MAX_INVEN_SIZE
    ensures var money := Money(w.records, key) - offer.price;
      var records := SetBalance(w.records, key, money);
      var files := MoveDoc(w.files, key, docId);
      && Solvent(records) && BurnedAreEmpty(records, files) && SmallSandboxes(files)
      && Registered(w.online, records, files)
  {
    hide Solvent, BurnedAreEmpty, M.Offers, M.Consistent, Has, Money, SetBalance, Priced, Paying;
    var money := Money(w.records, key) - offer.price;
    var files := MoveDoc(w.files, key, docId);
    SetSolvent(w.records, key, money);
    SetEmpty(w.records, w.files, key, money, files);
    SetRegistered(w.online, w.records, w.files, key, money, files);
  }

  /** A purchase leaves a document in the directory, so the check that follows it is idle. */
  lemma BuyerNeverBust(w: World, key: Key, docId: int, env: BuyEnv)
    requires Buy(w, key, docId, env).1.Bought?
    ensures !Bankrupt(Buy(w, key, docId, env).0, key)
  {
    hide M.AfterTake, M.AddOffer, M.Find, SetBalance, Has, Money;
    assert docId in Buy(w, key, docId, env).0.files.users[key];
  }

  /** Without documents nothing can be submitted. */
  lemma NothingToSubmit(w: World, key: Key, ids: seq<int>)
    requires Held(w.files, key) == map[] && ids != []
    ensures CheckDocs(w, key, ids, 0) == Bad(DocNotFound)
  {
  }

  lemma AliveIsSolvent(w: World, key: Key)
    requires Inv(w) && Has(w.records, key) && !Burned(w, key)
    ensures Money(w.records, key) >= 0
  {
    hide Has, Money;
  }

  lemma SellKeeps(w: World, key: Key, npcId: int, count: int, ids: seq<int>)
    requires Inv(w) && key in w.online && |ids| == MAX_INVEN_SIZE
    ensures Inv(Sell(w, key, npcId, count, ids).0)
    ensures Burned(w, key) ==> Sell(w, key, npcId, count, ids).1.Refused?
  {
    hide Solvent, SmallSandboxes, Registered, N.Requests, M.Consistent, Has, Money;
    hide SetBalance, N.Find, N.AfterTake, CheckDocs, Covers, SortIds, Priced;
    if 0 < count <= MAX_INVEN_SIZE {
      var sorted := SortIds(ids[..count]);
      if Burned(w, key) {
        NothingToSubmit(w, key, sorted);
      }
      if Sell(w, key, npcId, count, ids).1.Sold? {
        var npc := N.Find(w.npcs, npcId).value;
        N.TakeKeeps(w.npcs, npcId);
        assert npc in N.Requests(w.npcs);
        AliveIsSolvent(w, key);
        SoldKeeps(w, key, Money(w.records, key) + npc.bounty, set id | id in sorted);
      }
    }
  }

  /** A live account is written and some of its documents go. */
  lemma SoldKeeps(w: World, key: Key, money: int, gone: set<int>)
    requires Inv(w) && key in w.online && money >= 0
    ensures var records, files := SetBalance(w.records, key, money), DropDocs(w.files, key, gone);
      && Solvent(records) && BurnedAreEmpty(records, files) && SmallSandboxes(files)
      && Registered(w.online, records, files)
  {
    hide Solvent, BurnedAreEmpty, M.Consistent, Has, Money, SetBalance, Priced, Paying;
    SetSolvent(w.records, key, money);
    SetEmpty(w.records, w.files, key, money, DropDocs(w.files, key, gone));
    SetRegistered(w.online, w.records, w.files, key, money, DropDocs(w.files, key, gone));
    FewerDocs(w.files, key, gone);
  }

  lemma FewerDocs(files: Files, key: Key, gone: set<int>)
    requires SmallSandboxes(files)
    ensures SmallSandboxes(DropDocs(files, key, gone))
  {
    if key in files.users {
      var held, left := files.users[key], files.users[key] - gone;
      assert left.Keys <= held.Keys;
      SmallerBag(multiset(left.Keys), multiset(held.Keys));
      assert |held| == |held.Keys| && |left| == |left.Keys|;
      assert |Held(files, key)| <= MAX_INVEN_SIZE;
      forall k ensures |Held(DropDocs(files, key, gone), k)| <= MAX_INVEN_SIZE {
        assert |Held(files, k)| <= MAX_INVEN_SIZE;
      }
    }
  }

  lemma DisposeKeeps(w: World, key: Key, docId: int)
    requires Inv(w)
    ensures Inv(Dispose(w, key, docId).0)
  {
    hide Solvent, SmallSandboxes, M.Consistent, Has, Money, Priced, Paying;
    FewerDocs(w.files, key, {docId});
  }

  lemma RumorKeeps(w: World, key: Key, now: int)
    requires Inv(w) && key in w.online
    ensures Inv(Rumor(w, key, now).0)
    ensures Burned(w, key) ==> Rumor(w, key, now).1.Refused?
  {
    hide Solvent, BurnedAreEmpty, SmallSandboxes, Registered, M.Consistent, Has, Money, SetBalance, Priced, Paying;
    if Rumor(w, key, now).1.Rumored? {
      var money := Money(w.records, key) - RUMOR_FEE;
      SetSolvent(w.records, key, money);
      SetEmpty(w.records, w.files, key, money, w.files);
      SetRegistered(w.online, w.records, w.files, key, money, w.files);
    }
  }

  lemma PurgeEffect(files: Files, key: Key)
    ensures Purge(files, key).users.Keys == files.users.Keys
    ensures forall k :: Held(Purge(files, key), k) == if k == key then map[] else Held(files, k)
    ensures SmallSandboxes(files) ==> SmallSandboxes(Purge(files, key))
  {
  }

  lemma PayoffKeeps(w: World, key: Key, now: int)
    requires Inv(w) && key in w.online
    ensures Inv(Payoff(w, key, now).0)
    ensures Burned(w, key) ==> Payoff(w, key, now).1.Refused?
  {
    hide Solvent, BurnedAreEmpty, SmallSandboxes, Registered, M.Consistent, Has, Money, SetBalance, Priced, Paying, Purge;
    if Payoff(w, key, now).1.Escaped? {
      var files := Purge(w.files, key);
      PurgeEffect(w.files, key);
      SetSolvent(w.records, key, INITIAL_MONEY);
      SetEmpty(w.records, w.files, key, INITIAL_MONEY, files);
      SetRegistered(w.online, w.records, w.files, key, INITIAL_MONEY, files);
    }
  }

  lemma FewerOnline(online: set<Key>, some: set<Key>, records: Records, files: Files)
    requires Registered(online, records, files) && some <= online
    ensures Registered(some, records, files)
  {
  }

  lemma BankruptcyKeeps(w: World, key: Key)
    requires Inv(w)
    ensures Inv(CheckBankruptcy(w, key))
  {
    hide Solvent, BurnedAreEmpty, SmallSandboxes, Registered, M.Consistent, Has, Money, SetBalance, Priced, Paying;
    if Bankrupt(w, key) {
      SetSolvent(w.records, key, BURNED);
      assert Held(w.files, key) == map[];
      SetEmpty(w.records, w.files, key, BURNED, w.files);
      SetRegistered(w.online, w.records, w.files, key, BURNED, w.files);
      FewerOnline(w.online, w.online - {key}, SetBalance(w.records, key, BURNED), w.files);
    }
  }

  lemma BurnKeeps(w: World, key: Key)
    requires Inv(w)
    ensures Inv(Burn(w, key))
  {
    hide Solvent, SmallSandboxes, M.Consistent, Has, Money, SetBalance, Priced, Paying, Purge;
    var files := Purge(w.files, key);
    PurgeEffect(w.files, key);
    if Has(w.records, key) {
      SetSolvent(w.records, key, BURNED);
      SetEmpty(w.records, w.files, key, BURNED, files);
      SetRegistered(w.online, w.records, w.files, key, BURNED, files);
    }
  }

  lemma ResetOne(records: Records, initial: int, k: Key)
    ensures Has(Reset(records, initial), k) <==> Has(records, k)
    ensures Has(records, k) ==>
      Money(Reset(records, initial), k) == if Money(records, k) == BURNED then BURNED else initial
  {
    FirstStays(records, Reset(records, initial), k);
  }

  /** What a reset leaves of the accounts and the directories. */
  lemma ResetParts(w: World)
    requires Inv(w)
    ensures var records, files := Reset(w.records, INITIAL_MONEY), PurgeAll(w.files);
      && Solvent(records) && BurnedAreEmpty(records, files) && SmallSandboxes(files)
      && Registered(w.online, records, files)
  {
    hide Has, Money, Reset, M.Consistent, Priced, Paying;
    var records := Reset(w.records, INITIAL_MONEY);
    forall k
      ensures Has(records, k) <==> Has(w.records, k)
      ensures Has(records, k) ==> Money(records, k) == BURNED || Money(records, k) >= 0
    {
      ResetOne(w.records, INITIAL_MONEY, k);
    }
  }

  lemma AddPriced(b: M.Board, offer: M.Offer, now: int, roll: nat)
    requires Priced(b) && M.Consistent(b) && 400 <= offer.price <= 1500
    ensures Priced(M.AddOffer(b, offer, now, roll)) && M.Consistent(M.AddOffer(b, offer, now, roll))
  {
    hide M.Offers, M.Consistent, M.AddOffer, M.HasRoom;
    M.AddKeeps(b, offer, now, roll);
  }

  lemma AddPaying(npcs: seq<N.NpcSlot>, request: N.Request, now: int)
    requires Paying(npcs) && 500 <= request.bounty <= 5000
    ensures Paying(N.AddRequest(npcs, request, now))
  {
    hide N.Requests, N.AddRequest, N.HasRoom;
    N.AddKeeps(npcs, request, now);
  }

  /** Same accounts and directories, another board, other requests and other master files. */
  ghost predicate SamePeople(w: World, after: World) {
    && after.records == w.records && after.files.users == w.files.users && after.online == w.online
    && after.ladder == w.ladder
  }

  lemma PeopleKeep(w: World, after: World)
    requires Inv(w) && SamePeople(w, after)
    requires Priced(after.board) && Paying(after.npcs) && M.Consistent(after.board)
    ensures Inv(after)
  {
    hide Has, Money, M.Consistent, Priced, Paying;
    assert forall k :: Held(after.files, k) == Held(w.files, k);
  }

  lemma {:induction false} SeedDocsKeep(w: World, docs: seq<M.Offer>, now: int, rolls: seq<nat>)
    requires |rolls| == |docs| && Priced(w.board) && M.Consistent(w.board)
    requires forall i :: 0 <= i < |docs| ==> docs[i].price == 800
    ensures var after := SeedDocs(w, docs, now, rolls);
      && SamePeople(w, after) && Priced(after.board) && M.Consistent(after.board) && after.npcs == w.npcs
      && after.rumorUntil == w.rumorUntil
    decreases |docs|
  {
    hide Priced, M.Consistent, M.AddOffer;
    if docs != [] {
      AddPriced(w.board, docs[0], now, rolls[0]);
      var next := w.(files := w.files.(master := w.files.master[docs[0].docId := docs[0]]),
                     board := M.AddOffer(w.board, docs[0], now, rolls[0]));
      SeedDocsKeep(next, docs[1..], now, rolls[1..]);
    }
  }

  lemma SeedPrices()
    ensures forall i :: 0 <= i < |SEED_DOCS| ==> SEED_DOCS[i].price == 800
    ensures forall i :: 0 <= i < |SEED_NPCS| ==> 500 <= SEED_NPCS[i].bounty <= 5000
  {
    hide Join;
  }

  lemma ResetKeeps(w: World, now: int, rolls: seq<nat>)
    requires Inv(w) && |rolls| == 4
    ensures Inv(RoundReset(w, now, rolls))
    ensures RoundReset(w, now, rolls).records == Reset(w.records, INITIAL_MONEY)
    ensures RoundReset(w, now, rolls).files.users == PurgeAll(w.files).users
    ensures RoundReset(w, now, rolls).ladder == NewLadder() && RoundReset(w, now, rolls).online == w.online
  {
    hide Solvent, BurnedAreEmpty, SmallSandboxes, Registered, M.Consistent, Priced;
    hide Paying, SeedDocs, N.AddRequest, Reset, M.EmptyBoard, N.EmptyNpcs;
    ResetParts(w);
    var cleared := w.(files := PurgeAll(w.files), records := Reset(w.records, INITIAL_MONEY),
                      board := M.EmptyBoard(), npcs := N.EmptyNpcs(), ladder := NewLadder(), rumorUntil := 0);
    EmptyBoardsKeep();
    SeedPrices();
    SeedDocsKeep(cleared, SEED_DOCS, now, rolls);
    AddPaying(cleared.npcs, SEED_NPCS[0], now);
    AddPaying(N.AddRequest(cleared.npcs, SEED_NPCS[0], now), SEED_NPCS[1], now);
    PeopleKeep(cleared, Seed(cleared, now, rolls));
  }

  lemma EmptyBoardsKeep()
    ensures Priced(M.EmptyBoard()) && M.Consistent(M.EmptyBoard()) && Paying(N.EmptyNpcs())
  {
    M.EmptyIsEmpty();
    N.EmptyIsEmpty();
  }

  lemma LoginKeeps(w: World, key: Key)
    requires Inv(w)
    ensures Inv(Login(w, key).0)
    ensures Burned(w, key) ==> Login(w, key).0 == w
  {
    hide M.Consistent, Priced, Paying, Has, Money;
    var (after, reply) := Login(w, key);
    if reply.LoggedIn? {
      forall k ensures Held(after.files, k) == Held(w.files, k) {
      }
      if reply.created {
        forall k
          ensures Has(after.records, k) <==> Has(w.records, k) || k == key
          ensures Has(w.records, k) ==> Money(after.records, k) == Money(w.records, k)
        {
          NewRecord(w.records, key, k);
        }
        NewRecord(w.records, key, key);
      }
    }
  }

  lemma NewRecord(records: Records, key: Key, k: Key)
    requires !Has(records, key)
    ensures var after := records + [UserRecord(key, INITIAL_MONEY)];
      && (Has(after, k) <==> Has(records, k) || k == key)
      && (Has(records, k) ==> Money(after, k) == Money(records, k))
      && Has(after, key) && Money(after, key) == INITIAL_MONEY
  {
    var after := records + [UserRecord(key, INITIAL_MONEY)];
    FirstStays(records, after, k);
    FirstStays(records, after, key);
    assert after[|records|].key == key;
  }

  lemma SpawnKeeps(w: World, docId: int, maskRead: bv32, tagRolls: seq<nat>, priceRoll: nat, name: Name, now: int, roll: nat)
    requires Inv(w) && |tagRolls| == 4
    ensures Inv(Spawn(w, docId, maskRead, tagRolls, priceRoll, name, now, roll))
    ensures SamePeople(w, Spawn(w, docId, maskRead, tagRolls, priceRoll, name, now, roll))
  {
    hide Inv, Priced, M.Consistent, M.AddOffer, PickTags, M.HasRoom, SpawnPrice;
    var tags := PickTags(maskRead, tagRolls);
    if tags != 0 && M.HasRoom(w.board) {
      SpawnedWorth(maskRead, tagRolls, priceRoll);
      InvParts(w);
      AddPriced(w.board, M.Offer(docId, tags, SpawnPrice(tags, priceRoll), name), now, roll);
      PeopleKeep(w, Spawn(w, docId, maskRead, tagRolls, priceRoll, name, now, roll));
    }
  }

  lemma InvParts(w: World)
    requires Inv(w)
    ensures Priced(w.board) && Paying(w.npcs) && M.Consistent(w.board)
  {
  }

  lemma SpawnNpcKeeps(w: World, npcId: int, maskRead: bv32, tagRolls: seq<nat>, bountyRoll: nat, now: int)
    requires Inv(w) && |tagRolls| == 4
    ensures Inv(SpawnNpc(w, npcId, maskRead, tagRolls, bountyRoll, now))
    ensures SamePeople(w, SpawnNpc(w, npcId, maskRead, tagRolls, bountyRoll, now))
  {
    hide Inv, Paying, M.Consistent, N.AddRequest, PickTags, NpcBounty, Priced;
    var tags := PickTags(maskRead, tagRolls);
    if tags != 0 {
      SpawnedWorth(maskRead, tagRolls, bountyRoll);
      InvParts(w);
      AddPaying(w.npcs, N.Request(npcId, tags, NpcBounty(tags, bountyRoll)), now);
      PeopleKeep(w, SpawnNpc(w, npcId, maskRead, tagRolls, bountyRoll, now));
    }
  }

  lemma AgeKeepsInv(w: World, now: int)
    requires Inv(w)
    ensures Inv(AgeBoards(w, now)) && SamePeople(w, AgeBoards(w, now))
  {
    hide Inv, M.Consistent, M.Offers, M.AgeOut, M.AgedIds, N.Requests, N.AgeOut;
    InvParts(w);
    M.AgeKeeps(w.board, now);
    N.AgeKeeps(w.npcs, N.EVT_NPC_MAX_AGE_SEC, N.EVT_NPC_AGE_STEP_SEC, now);
    PeopleKeep(w, AgeBoards(w, now));
  }

  lemma FreezeKeepsInv(w: World, tags: bv32)
    requires Inv(w)
    ensures Inv(w.(board := M.Freeze(w.board, tags))) && Inv(w.(board := M.Unfreeze(w.board, tags)))
  {
    hide Inv, M.Consistent, M.Offers, M.Freeze, M.Unfreeze, Paying;
    InvParts(w);
    M.FreezeKeeps(w.board, tags);
    M.UnfreezeKeeps(w.board, tags);
    PeopleKeep(w, w.(board := M.Freeze(w.board, tags)));
    PeopleKeep(w, w.(board := M.Unfreeze(w.board, tags)));
  }
}
