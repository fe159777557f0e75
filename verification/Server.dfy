// The request handlers of server_main.c, over the boards, the account file and the
// document directories that they change. Each is proved against its transition.
module Server {
  import opened Prelude
  import opened Masks
  import opened UserDb
  import opened Sandbox
  import opened Escape
  import opened Economy
  import M = Market
  import N = NpcBoard

  /** What a sale comes to, by its checks in their order. */
  lemma SellCases(w: World, key: Key, npcId: int, count: int, submitted: seq<int>)
    requires |submitted| == MAX_INVEN_SIZE && Has(w.records, key)
    ensures var out := Sell(w, key, npcId, count, submitted);
      if count <= 0 || count > MAX_INVEN_SIZE then out == (w, Refused(TagMismatch))
      else if N.Find(w.npcs, npcId).None? then out == (w, Refused(NpcNotFound))
      else
        var ids, npc := SortIds(submitted[..count]), N.Find(w.npcs, npcId).value;
        match CheckDocs(w, key, ids, 0)
        case Bad(code) => out == (w, Refused(code))
        case Good(tags) =>
          if !Covers(tags, npc.requiredTags) then out == (w, Refused(TagMismatch))
          else
            var i := IndexOf(w.records, key);
            out == (w.(records := w.records[i := w.records[i].(money := w.records[i].money + npc.bounty)],
                       npcs := N.AfterTake(w.npcs, npcId), files := DropDocs(w.files, key, set id | id in ids)),
                    Sold(npc.bounty, w.records[i].money + npc.bounty))
  {
    hide Covers, N.Find, N.AfterTake, SortIds, CheckDocs, IndexOf, DropDocs;
  }

  class GameServer {
    const market: M.Market
    const npcs: N.NpcTable
    const db: UserFile
    const store: FileStore
    const escapeLog: array<EscapeEntry>
    var goalMoney: int
    var escapedCount: nat
    var capReachedAt: int
    var rumorUntil: int
    var online: set<Key>

    ghost function Repr(): set<object> {
      {this, market, market.slots, npcs, npcs.slots, db, store, escapeLog}
    }

    ghost predicate Valid() {
      && market.Valid() && npcs.Valid() && escapeLog.Length == MAX_SCORE_ESCAPED
      && market.slots as object != npcs.slots && market.slots as object != escapeLog
      && npcs.slots as object != escapeLog
    }

    ghost function State(): World
      reads Repr()
    {
      World(market.State(), npcs.slots[..], db.records, store.State(),
            Ladder(goalMoney, escapedCount, capReachedAt, escapeLog[..]), rumorUntil, online)
    }

    constructor ()
      ensures Valid() && fresh(Repr())
      ensures State() == World(M.EmptyBoard(), N.EmptyNpcs(), [], Files(map[], map[]), NewLadder(), 0, {})
    {
      market := new M.Market();
      npcs := new N.NpcTable();
      db := new UserFile();
      store := new FileStore();
      escapeLog := new EscapeEntry[MAX_SCORE_ESCAPED](_ => NO_ENTRY);
      goalMoney := GOAL_MONEY;
      escapedCount := 0;
      capReachedAt := 0;
      rumorUntil := 0;
      online := {};
    }

    method HandleBuy(key: Key, docId: int, env: BuyEnv) returns (reply: Reply)
      requires Valid()
      modifies Repr()
      ensures State() == Buy(old(State()), key, docId, env).0
      ensures reply == Buy(old(State()), key, docId, env).1
    {
      hide M.Find, M.AfterTake, M.AddOffer, M.HasRoom, Has, IndexOf;
      var found := market.FindOffer(docId);
      if found.None? {
        return Refused(DocNotFound);
      }
      if found.value.frozen {
        return Refused(DocFrozen);
      }
      var count := store.Count(key);
      if count >= MAX_INVEN_SIZE {
        return Refused(InventoryFull);
      }
      var rec, offset := db.Find(key);
      if rec.None? {
        return Refused(InvalidSession);
      }
      if rec.value.money < found.value.offer.price {
        return Refused(NotEnoughMoney);
      }
      var taken := market.TakeOffer(docId);
      if taken.Frozen? {
        return Refused(DocFrozen);
      } else if taken.Missing? {
        return Refused(DocNotFound);
      }
      var offer := taken.slot.offer;
      var moved := store.Buy(key, docId, env.renameOk);
      if !moved {
        var _ := market.Add(offer, env.now, env.roll);
        return Refused(DocNotFound);
      }
      var money := rec.value.money - offer.price;
      db.UpdateAt(offset, rec.value.(money := money));
      return Bought(offer, money);
    }

    /** market_doc_sort_ids: the ids ascending, in place. */
    method SortInPlace(ids: array<int>, count: nat)
      requires count <= ids.Length
      modifies ids
      ensures ids[..count] == SortIds(old(ids[..count]))
      ensures ids[count..] == old(ids[count..])
    {
      if count <= 1 {
        return;
      }
      var sorted := SortIds(ids[..count]);
      for i := 0 to count
        invariant ids[..i] == sorted[..i] && ids[count..] == old(ids[count..])
      {
        ids[i] := sorted[i];
      }
    }

    /** The loop over the submitted documents. */
    method CheckSubmitted(key: Key, docIds: array<int>, count: nat) returns (check: Check)
      requires Valid() && count <= docIds.Length
      ensures check == CheckDocs(State(), key, docIds[..count], 0)
    {
      hide Meets, Join;
      var tagUnion: bv32 := 0;
      ghost var ids := docIds[..count];
      assert ids[0..] == ids;
      for i := 0 to count
        invariant CheckDocs(State(), key, ids, 0) == CheckDocs(State(), key, ids[i..], tagUnion)
      {
        var docId := docIds[i];
        assert ids[i..][0] == docId && ids[i..][1..] == ids[i + 1..];
        var has := store.HasDoc(key, docId);
        if !has {
          return Bad(DocNotFound);
        }
        var doc := store.ReadDoc(key, docId);
        var frozen := market.IsTagFrozen(doc.value.tags);
        if frozen {
          return Bad(DocFrozen);
        }
        tagUnion := Join(tagUnion, doc.value.tags);
      }
      assert ids[count..] == [];
      return Good(tagUnion);
    }

    method HandleSell(key: Key, npcId: int, count: int, submitted: seq<int>) returns (reply: Reply)
      requires Valid() && |submitted| == MAX_INVEN_SIZE && Has(db.records, key)
      modifies Repr()
      ensures State() == Sell(old(State()), key, npcId, count, submitted).0
      ensures reply == Sell(old(State()), key, npcId, count, submitted).1
    {
      hide Sell, Covers, N.Find, N.AfterTake, SortIds, CheckDocs, Has, IndexOf, DropDocs;
      SellCases(State(), key, npcId, count, submitted);
      if count <= 0 || count > MAX_INVEN_SIZE {
        return Refused(TagMismatch);
      }
      var docIds := new int[MAX_INVEN_SIZE](i requires 0 <= i < MAX_INVEN_SIZE => submitted[i]);
      assert docIds[..count] == submitted[..count];
      SortInPlace(docIds, count);

      var npc := npcs.FindRequest(npcId);
      if npc.None? {
        return Refused(NpcNotFound);
      }
      var check := CheckSubmitted(key, docIds, count);
      if check.Bad? {
        return Refused(check.code);
      }
      if !Covers(check.tags, npc.value.requiredTags) {
        return Refused(TagMismatch);
      }
      npc := npcs.TakeRequest(npcId);
      if npc.None? {
        return Refused(NpcAlreadyTaken);
      }
      DisposeAll(key, docIds, count);
      var rec, offset := db.Find(key);
      var money := rec.value.money + npc.value.bounty;
      db.UpdateAt(offset, rec.value.(money := money));
      return Sold(npc.value.bounty, money);
    }

    /** The loop that shreds the sold documents. */
    method DisposeAll(key: Key, docIds: array<int>, count: nat)
      requires Valid() && count <= docIds.Length && docIds !in Repr()
      modifies store
      ensures store.State() == DropDocs(old(store.State()), key, set id | id in docIds[..count])
    {
      DropNone(store.State(), key, docIds[..0]);
      for i := 0 to count
        invariant store.State() == DropDocs(old(store.State()), key, set id | id in docIds[..i])
      {
        var _ := store.Dispose(key, docIds[i]);
        assert docIds[..i + 1] == docIds[..i] + [docIds[i]];
        DropMore(old(store.State()), key, docIds[..i], docIds[i]);
      }
    }

    method HandleDispose(key: Key, docId: int) returns (reply: Reply)
      requires Valid()
      modifies Repr()
      ensures State() == Dispose(old(State()), key, docId).0
      ensures reply == Dispose(old(State()), key, docId).1
    {
      var has := store.HasDoc(key, docId);
      if !has {
        return Refused(DocNotFound);
      }
      var ok := store.Dispose(key, docId);
      if !ok {
        return Refused(DocNotFound);
      }
      return Disposed;
    }

    method HandleRumor(key: Key, now: int) returns (reply: Reply)
      requires Valid()
      modifies Repr()
      ensures State() == Rumor(old(State()), key, now).0
      ensures reply == Rumor(old(State()), key, now).1
    {
      hide Has, IndexOf;
      if now < rumorUntil {
        return Refused(RumorCooldown);
      }
      var rec, offset := db.Find(key);
      if rec.None? {
        return Refused(InvalidSession);
      }
      if rec.value.money < RUMOR_FEE {
        return Refused(NotEnoughMoney);
      }
      var money := rec.value.money - RUMOR_FEE;
      db.UpdateAt(offset, rec.value.(money := money));
      rumorUntil := now + RUMOR_COOLDOWN_SEC;
      return Rumored(money);
    }

    /** The round section of an escape: the goal, the time of the cap and the log. */
    method RaiseGoal(key: Key, now: int) returns (prevGoal: int, nextGoal: int)
      requires Valid()
      modifies this, escapeLog
      ensures State() == old(State()).(ladder := Climb(old(State()).ladder, key, now))
      ensures prevGoal == old(goalMoney) && nextGoal == goalMoney
    {
      prevGoal := goalMoney;
      nextGoal := prevGoal + DEBT_RAISE_STEP;
      if nextGoal > DEBT_CAP {
        nextGoal := DEBT_CAP;
      }
      goalMoney := nextGoal;
      if nextGoal == DEBT_CAP && capReachedAt == 0 {
        capReachedAt := now;
      }
      escapedCount := escapedCount + 1;
      if escapedCount <= MAX_SCORE_ESCAPED {
        escapeLog[escapedCount - 1] := EscapeEntry(key, prevGoal, escapedCount);
      }
    }

    method HandlePayoff(key: Key, now: int) returns (reply: Reply)
      requires Valid()
      modifies Repr()
      ensures State() == Payoff(old(State()), key, now).0
      ensures reply == Payoff(old(State()), key, now).1
    {
      hide Has, IndexOf, Purge, Climb;
      var rec, offset := db.Find(key);
      if rec.None? {
        return Refused(InvalidSession);
      }
      if rec.value.money < goalMoney {
        return Refused(NotEnoughMoney);
      }
      var prevGoal, nextGoal := RaiseGoal(key, now);
      store.PurgeUser(key);
      db.UpdateAt(offset, rec.value.(money := INITIAL_MONEY));
      return Escaped(prevGoal, nextGoal);
    }

    method CheckBankruptcyOf(key: Key) returns (bust: bool)
      requires Valid()
      modifies Repr()
      ensures State() == CheckBankruptcy(old(State()), key)
      ensures bust == Bankrupt(old(State()), key)
    {
      hide Has, IndexOf;
      var rec, offset := db.Find(key);
      if rec.None? || rec.value.money > 0 {
        return false;
      }
      var inv := store.Count(key);
      if inv > 0 || inv < 0 {
        return false;
      }
      db.BurnAt(offset);
      online := online - {key};
      return true;
    }

    method BurnUserByKey(key: Key)
      requires Valid()
      modifies Repr()
      ensures State() == Burn(old(State()), key)
    {
      hide Has, IndexOf;
      var rec, offset := db.Find(key);
      if rec.Some? {
        db.BurnAt(offset);
      }
      store.PurgeUser(key);
    }

    method HandleLogin(key: Key) returns (reply: Reply)
      requires Valid()
      modifies Repr()
      ensures State() == Login(old(State()), key).0
      ensures reply == Login(old(State()), key).1
    {
      hide Has, IndexOf;
      if key in online {
        return Refused(DuplicateLogin);
      }
      var rec, offset := db.Find(key);
      var created := rec.None?;
      if created {
        rec := Some(UserRecord(key, INITIAL_MONEY));
        offset := db.Append(rec.value);
      }
      if rec.value.money == BURNED {
        return Refused(KeyBurned);
      }
      online := online + {key};
      store.UserInit(key);
      return LoggedIn(created, rec.value.money, goalMoney);
    }

    method SeedMarketAndNpc(now: int, rolls: seq<nat>)
      requires Valid() && |rolls| == 4
      modifies Repr()
      ensures State() == Seed(old(State()), now, rolls)
    {
      hide M.AddOffer, N.AddRequest;
      for i := 0 to 4
        invariant SeedDocs(State(), SEED_DOCS[i..], now, rolls[i..]) == SeedDocs(old(State()), SEED_DOCS, now, rolls)
      {
        store.WriteDoc(SEED_DOCS[i]);
        var _ := market.Add(SEED_DOCS[i], now, rolls[i]);
        assert SEED_DOCS[i..][1..] == SEED_DOCS[i + 1..] && rolls[i..][1..] == rolls[i + 1..];
      }
      assert SEED_DOCS[4..] == [];
      var _ := npcs.Add(SEED_NPCS[0], now);
      var _ := npcs.Add(SEED_NPCS[1], now);
    }

    method TriggerRoundReset(now: int, rolls: seq<nat>)
      requires Valid() && |rolls| == 4
      modifies Repr()
      ensures State() == RoundReset(old(State()), now, rolls)
    {
      hide Seed, SeedDocs, M.EmptyBoard, N.EmptyNpcs;
      store.GlobalReset();
      db.ResetRound(INITIAL_MONEY);
      market.Init();
      npcs.Init();
      goalMoney := GOAL_MONEY;
      escapedCount := 0;
      capReachedAt := 0;
      forall i | 0 <= i < escapeLog.Length {
        escapeLog[i] := NO_ENTRY;
      }
      rumorUntil := 0;
      assert escapeLog[..] == NewLadder().log;
      ghost var was := old(State());
      assert State() == was.(files := PurgeAll(was.files), records := Reset(was.records, INITIAL_MONEY),
                             board := M.EmptyBoard(), npcs := N.EmptyNpcs(), ladder := NewLadder(), rumorUntil := 0);
      SeedMarketAndNpc(now, rolls);
    }

    /** Write the file, then list the offer; without a slot the file goes again. */
    method Publish(doc: M.Offer, now: int, roll: nat) returns (ok: bool)
      requires Valid()
      modifies Repr()
      ensures ok == M.HasRoom(old(State()).board)
      ensures ok ==> State() == old(State()).(board := M.AddOffer(old(State()).board, doc, now, roll),
                                              files := Files(old(store.master)[doc.docId := doc], old(store.users)))
      ensures !ok ==> State() == old(State()).(files := Files(old(store.master) - {doc.docId}, old(store.users)))
    {
      hide M.HasRoom;
      store.WriteDoc(doc);
      ok := market.Add(doc, now, roll);
      if !ok {
        store.RemoveDoc(doc.docId);
        assert store.master == old(store.master) - {doc.docId};
      }
    }

    method EventSpawnMarket(docId: int, maskRead: bv32, tagRolls: seq<nat>, priceRoll: nat, name: Name, now: int, roll: nat)
      requires Valid() && |tagRolls| == 4
      modifies Repr()
      ensures State() == Spawn(old(State()), docId, maskRead, tagRolls, priceRoll, name, now, roll)
    {
      hide M.AddOffer, RandomTags.PickTags, RandomTags.SpawnPrice, M.HasRoom;
      var full := market.IsFull();
      if full {
        return;
      }
      var tags := RandomTags.EventRandomTags(maskRead, tagRolls);
      if tags == 0 {
        return;
      }
      var _ := Publish(M.Offer(docId, tags, RandomTags.SpawnPrice(tags, priceRoll), name), now, roll);
    }

    /** Both ageing passes of one tick, each with an array for every slot. */
    method EventAge(now: int)
      requires Valid()
      modifies Repr()
      ensures State() == AgeBoards(old(State()), now)
    {
      hide M.AgeOut, M.AgedIds, N.AgeOut, N.AgedIds;
      var expiredNpcs := new int[MAX_NPC_SLOTS];
      var _ := npcs.DespawnAged(N.EVT_NPC_MAX_AGE_SEC, N.EVT_NPC_AGE_STEP_SEC, now, expiredNpcs, MAX_NPC_SLOTS);
      var expired := new int[MAX_MARKET_SLOTS];
      ghost var aged := M.AgedIds(market.State(), now);
      AgedFit(market.State(), now);
      var n := market.DespawnAged(now, expired, MAX_MARKET_SLOTS);
      assert expired[..n] == aged;
      ghost var master := store.master;
      for i := 0 to n
        invariant State() == AgeBoards(old(State()), now).(files := Files(master - (set id | id in aged[..i]), old(store.users)))
        invariant expired[..n] == aged
      {
        store.RemoveDoc(expired[i]);
        assert aged[..i + 1] == aged[..i] + [expired[i]];
        RemoveMore(master, aged[..i], expired[i]);
      }
      assert aged[..n] == aged;
    }
  }

  lemma AgedFit(b: M.Board, now: int)
    requires |b.slots| == MAX_MARKET_SLOTS
    ensures |M.AgedIds(b, now)| <= MAX_MARKET_SLOTS
  {
  }

  lemma RemoveMore(master: map<int, M.Offer>, ids: seq<int>, id: int)
    ensures master - (set x | x in ids + [id]) == master - (set x | x in ids) - {id}
  {
  }

  lemma DropNone(files: Files, key: Key, ids: seq<int>)
    requires ids == []
    ensures DropDocs(files, key, set x | x in ids) == files
  {
    if key in files.users {
      assert files.users[key] - (set x | x in ids) == files.users[key];
    }
  }

  lemma DropMore(files: Files, key: Key, ids: seq<int>, id: int)
    ensures DropDocs(DropDocs(files, key, set x | x in ids), key, {id})
         == DropDocs(files, key, set x | x in ids + [id])
  {
    if key in files.users {
      var one := files.users[key] - (set x | x in ids) - {id};
      var both := files.users[key] - (set x | x in ids + [id]);
      assert one == both;
    }
  }
}
