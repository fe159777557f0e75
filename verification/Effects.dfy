// What the remaining requests and the reset do to the world, seen from outside: who is
// admitted, what changes, and that nothing else does.
module Effects {
  import opened Prelude
  import opened Masks
  import opened RandomTags
  import opened UserDb
  import opened Sandbox
  import opened Escape
  import opened Economy
  import opened EconomyLaws
  import M = Market
  import N = NpcBoard

  /** Everyone but one key has the same balance and the same documents. */
  ghost predicate OthersKeep(w: World, after: World, key: Key) {
    forall k :: k != key ==> Balance(after, k) == Balance(w, k) && Held(after.files, k) == Held(w.files, k)
  }

  lemma PaidOthers(w: World, key: Key, money: int)
    requires Has(w.records, key)
    ensures OthersKeep(w, WithMoney(w, key, money), key) && Balance(WithMoney(w, key, money), key) == Some(money)
  {
    hide Has, Money, SetBalance, Held;
    forall k ensures Balance(WithMoney(w, key, money), k) == if k == key then Some(money) else Balance(w, k) {
      SetOne(w.records, key, money, k);
    }
  }

  /** Sabotage succeeds iff the cooldown is over and the fee can be paid, and takes the fee. */
  lemma RumorSucceeds(w: World, key: Key, now: int)
    ensures var (after, reply) := Rumor(w, key, now);
      && (reply.Rumored? <==> now >= w.rumorUntil && Has(w.records, key) && Money(w.records, key) >= RUMOR_FEE)
      && (reply.Rumored? ==>
            && Balance(after, key) == Some(Money(w.records, key) - RUMOR_FEE) == Some(reply.money)
            && OthersKeep(w, after, key) && after.files == w.files && after.board == w.board && after.npcs == w.npcs
            && after.ladder == w.ladder)
      && (!reply.Rumored? ==> after == w)
  {
    hide Has, Money, SetBalance, Held;
    if Rumor(w, key, now).1.Rumored? {
      PaidOthers(w, key, Money(w.records, key) - RUMOR_FEE);
    }
  }

  /** The cooldown is shared: after one sabotage nobody's succeeds for half a minute, and it
      costs nothing to try. */
  lemma RumorBlocksAll(w: World, key: Key, now: int, other: Key, later: int)
    requires Rumor(w, key, now).1.Rumored?
    ensures var after := Rumor(w, key, now).0;
      (Rumor(after, other, later) == (after, Refused(RumorCooldown))) <==> later < now + 30
  {
    hide Has, Money, SetBalance;
  }

  /** An escape succeeds iff the goal can be paid; the account starts afresh and empty, and
      the goal of the others rises. */
  lemma PayoffSucceeds(w: World, key: Key, now: int)
    requires |w.ladder.log| == MAX_SCORE_ESCAPED
    ensures var (after, reply) := Payoff(w, key, now);
      && (reply.Escaped? <==> Has(w.records, key) && Money(w.records, key) >= w.ladder.goal)
      && (reply.Escaped? ==>
            && Balance(after, key) == Some(INITIAL_MONEY) && Held(after.files, key) == map[] && OthersKeep(w, after, key)
            && reply.paid == w.ladder.goal && reply.next == after.ladder.goal && after.ladder.escaped == w.ladder.escaped + 1
            && after.files.master == w.files.master && after.board == w.board && after.npcs == w.npcs)
      && (!reply.Escaped? ==> after == w)
  {
    hide Has, Money, SetBalance, Purge;
    if Payoff(w, key, now).1.Escaped? {
      PaidOthers(w, key, INITIAL_MONEY);
      PurgeEffect(w.files, key);
      PurgeMasters(w.files, key);
    }
  }

  lemma PurgeMasters(files: Files, key: Key)
    ensures Purge(files, key).master == files.master
  {
  }

  /** A login succeeds iff the key is not logged in and not burned; it creates a missing
      account with the initial money and touches no existing one. */
  lemma LoginSucceeds(w: World, key: Key)
    ensures var (after, reply) := Login(w, key);
      && (reply.LoggedIn? <==> key !in w.online && !Burned(w, key))
      && (reply.LoggedIn? ==>
            && after.online == w.online + {key} && Balance(after, key) == Some(reply.money) && reply.goal == w.ladder.goal
            && (reply.created <==> Balance(w, key) == None)
            && reply.money == (if reply.created then INITIAL_MONEY else Money(w.records, key))
            && OthersKeep(w, after, key) && Held(after.files, key) == Held(w.files, key) && key in after.files.users)
      && (!reply.LoggedIn? ==> after == w)
      && (reply.LoggedIn? ==> Login(after, key) == (after, Refused(DuplicateLogin)))
  {
    hide Has, Money;
    if Login(w, key).1.LoggedIn? && !Has(w.records, key) {
      forall k ensures var after := w.records + [UserRecord(key, INITIAL_MONEY)];
        && (Has(after, k) <==> Has(w.records, k) || k == key)
        && (Has(w.records, k) ==> Money(after, k) == Money(w.records, k))
        && Has(after, key) && Money(after, key) == INITIAL_MONEY
      {
        NewRecord(w.records, key, k);
      }
    }
  }

  /** Bankruptcy strikes exactly who has no money and an empty directory: burned and out. */
  lemma BankruptcyIff(w: World, key: Key)
    ensures var after := CheckBankruptcy(w, key);
      if Has(w.records, key) && Money(w.records, key) <= 0 && key in w.files.users && Held(w.files, key) == map[]
      then Burned(after, key) && key !in after.online && OthersKeep(w, after, key) && after.files == w.files && after.board == w.board
      else after == w
  {
    hide Has, Money, SetBalance;
    if Bankrupt(w, key) {
      PaidOthers(w, key, BURNED);
    }
    NoDocs(w.files, key);
  }

  lemma NoDocs(files: Files, key: Key)
    ensures CountDocs(files, key) == 0 <==> key in files.users && Held(files, key) == map[]
  {
    if key in files.users && |files.users[key]| == 0 {
      assert files.users[key].Keys == {};
    }
  }

  /** A raid's burn takes one key's account and documents. */
  lemma BurnEffect(w: World, key: Key)
    ensures var after := Burn(w, key);
      && (Has(w.records, key) ==> Burned(after, key)) && (!Has(w.records, key) ==> Balance(after, key) == None)
      && Held(after.files, key) == map[] && OthersKeep(w, after, key)
      && after.files.master == w.files.master && after.board == w.board && after.npcs == w.npcs
  {
    hide Has, Money, SetBalance, Purge;
    PurgeEffect(w.files, key);
    PurgeMasters(w.files, key);
    if Has(w.records, key) {
      PaidOthers(w, key, BURNED);
    }
  }

  /** A disposal removes exactly the one document, if it was held. */
  lemma DisposeEffect(w: World, key: Key, docId: int)
    ensures var (after, reply) := Dispose(w, key, docId);
      && (reply.Disposed? <==> docId in Held(w.files, key))
      && Held(after.files, key) == Held(w.files, key) - {docId}
      && OthersKeep(w, after, key) && after.records == w.records && after.board == w.board
      && after.files.master == w.files.master
  {
    hide Has, Money;
  }

  /** A spawned offer has its file, with the same content, and avoids the mask that was read;
      a full board or an empty draw spawns nothing. */
  lemma SpawnEffect(w: World, docId: int, maskRead: bv32, tagRolls: seq<nat>, priceRoll: nat, name: Name, now: int, roll: nat)
    requires |tagRolls| == 4
    ensures var after := Spawn(w, docId, maskRead, tagRolls, priceRoll, name, now, roll);
      if M.HasRoom(w.board) && !Covers(maskRead, Tags.ALL_TAGS) then
        exists doc: M.Offer ::
          && doc.docId == docId && doc.name == name && !Meets(doc.tags, maskRead) && 400 <= doc.price <= 1500
          && M.Offers(after.board) == M.Offers(w.board) + multiset{doc}
          && after == w.(board := after.board, files := w.files.(master := w.files.master[docId := doc]))
      else after == w
  {
    hide M.Offers, M.AddOffer, M.HasRoom, PickTags, SpawnPrice, Meets, Covers, Drop;
    var tags := PickTags(maskRead, tagRolls);
    PickTagsLawful(maskRead, tagRolls);
    NothingFree(maskRead, Tags.ALL_TAGS);
    if M.HasRoom(w.board) && tags != 0 {
      SpawnedWorth(maskRead, tagRolls, priceRoll);
      var doc := M.Offer(docId, tags, SpawnPrice(tags, priceRoll), name);
      M.AddKeeps(w.board, doc, now, roll);
      assert doc.docId == docId;
    }
  }

  /** The same of a request: it asks for tags that the mask read leaves free. */
  lemma SpawnNpcEffect(w: World, npcId: int, maskRead: bv32, tagRolls: seq<nat>, bountyRoll: nat, now: int)
    requires |tagRolls| == 4
    ensures var after := SpawnNpc(w, npcId, maskRead, tagRolls, bountyRoll, now);
      if N.HasRoom(w.npcs) && !Covers(maskRead, Tags.ALL_TAGS) then
        exists r: N.Request ::
          && r.npcId == npcId && !Meets(r.requiredTags, maskRead) && 500 <= r.bounty <= 5000
          && N.Requests(after.npcs) == N.Requests(w.npcs) + multiset{r} && after == w.(npcs := after.npcs)
      else after == w
  {
    hide N.Requests, N.HasRoom, PickTags, NpcBounty, Meets, Covers, Drop;
    var tags := PickTags(maskRead, tagRolls);
    PickTagsLawful(maskRead, tagRolls);
    NothingFree(maskRead, Tags.ALL_TAGS);
    var r := N.Request(npcId, tags, NpcBounty(tags, bountyRoll));
    if N.HasRoom(w.npcs) && tags != 0 {
      SpawnedWorth(maskRead, tagRolls, bountyRoll);
      N.AddKeeps(w.npcs, r, now);
      assert r.npcId == npcId;
    } else if tags != 0 {
      FullNpcs(w.npcs, r, now);
      assert w.(npcs := w.npcs) == w;
    }
  }

  lemma FullNpcs(slots: seq<N.NpcSlot>, request: N.Request, now: int)
    requires !N.HasRoom(slots)
    ensures N.AddRequest(slots, request, now) == slots
  {
  }

  lemma NothingFree(mask: bv32, tags: bv32)
    ensures Drop(tags, mask) == 0 <==> Covers(mask, tags)
  {
  }

  // The reset.

  function Filed(master: map<int, M.Offer>, docs: seq<M.Offer>): map<int, M.Offer>
    decreases |docs|
  {
    if docs == [] then master else Filed(master[docs[0].docId := docs[0]], docs[1..])
  }

  lemma {:induction false} FiledAre(master: map<int, M.Offer>, docs: seq<M.Offer>)
    requires forall i, j :: 0 <= i < j < |docs| ==> docs[i].docId != docs[j].docId
    ensures var filed := Filed(master, docs);
      && (forall i :: 0 <= i < |docs| ==> docs[i].docId in filed && filed[docs[i].docId] == docs[i])
      && (forall id :: id in filed ==> id in master || exists i :: 0 <= i < |docs| && docs[i].docId == id)
      && (forall id :: id in master && (forall i :: 0 <= i < |docs| ==> docs[i].docId != id) ==> id in filed && filed[id] == master[id])
    decreases |docs|
  {
    if docs != [] {
      var next := master[docs[0].docId := docs[0]];
      FiledAre(next, docs[1..]);
      assert forall i :: 0 <= i < |docs| - 1 ==> docs[1..][i] == docs[i + 1];
    }
  }

  /** Seeding lists every document and writes every file. */
  lemma {:induction false} SeedsAll(w: World, docs: seq<M.Offer>, now: int, rolls: seq<nat>, k: nat)
    requires |rolls| == |docs| && M.FreeFrom(w.board, k) && k + |docs| <= MAX_MARKET_SLOTS
    ensures var after := SeedDocs(w, docs, now, rolls);
      && M.Offers(after.board) == M.Offers(w.board) + multiset(docs) && after.board.mask == w.board.mask
      && after == w.(board := after.board, files := w.files.(master := Filed(w.files.master, docs)))
    decreases |docs|
  {
    hide M.Offers, M.AddOffer, M.HasRoom, M.FreeFrom;
    if docs != [] {
      var next := w.(files := w.files.(master := w.files.master[docs[0].docId := docs[0]]),
                     board := M.AddOffer(w.board, docs[0], now, rolls[0]));
      M.FreeRoom(w.board, k, docs[0], now, rolls[0]);
      M.AddKeeps(w.board, docs[0], now, rolls[0]);
      M.AddKeepsMask(w.board, docs[0], now, rolls[0]);
      SeedsAll(next, docs[1..], now, rolls[1..], k + 1);
      assert docs == [docs[0]] + docs[1..];
    }
  }

  lemma NpcRoom(request: N.Request, now: int)
    ensures N.HasRoom(N.EmptyNpcs()) && N.HasRoom(N.AddRequest(N.EmptyNpcs(), request, now))
  {
    assert !N.EmptyNpcs()[0].active && !N.EmptyNpcs()[1].active;
  }

  function Cleaned(w: World): World {
    w.(files := PurgeAll(w.files), records := Reset(w.records, INITIAL_MONEY), board := M.EmptyBoard(),
       npcs := N.EmptyNpcs(), ladder := NewLadder(), rumorUntil := 0)
  }

  lemma SeedFiles()
    ensures forall id :: id in Filed(map[], SEED_DOCS) <==> exists i :: 0 <= i < 4 && SEED_DOCS[i].docId == id
    ensures forall i :: 0 <= i < 4 ==>
      SEED_DOCS[i].docId in Filed(map[], SEED_DOCS) && Filed(map[], SEED_DOCS)[SEED_DOCS[i].docId] == SEED_DOCS[i]
  {
    hide Filed, Join;
    FiledAre(map[], SEED_DOCS);
  }

  /** After a round reset the board, the requests and the master directory hold exactly the
      seeds, nothing is frozen, and the ladder starts again; who is logged in stays so. */
  lemma ResetBoards(w: World, now: int, rolls: seq<nat>)
    requires |rolls| == 4
    ensures var after := RoundReset(w, now, rolls);
      && M.Offers(after.board) == multiset(SEED_DOCS) && after.board.mask == 0
      && N.Requests(after.npcs) == multiset(SEED_NPCS)
      && (forall id :: id in after.files.master <==> exists i :: 0 <= i < 4 && SEED_DOCS[i].docId == id)
      && (forall i :: 0 <= i < 4 ==>
            SEED_DOCS[i].docId in after.files.master && after.files.master[SEED_DOCS[i].docId] == SEED_DOCS[i])
      && after.ladder == NewLadder() && after.rumorUntil == 0 && after.online == w.online
      && after.records == Reset(w.records, INITIAL_MONEY) && after.files.users == PurgeAll(w.files).users
  {
    hide M.Offers, N.Requests, SeedDocs, N.AddRequest, NewLadder, Reset, M.AddOffer, Join, N.EmptyNpcs, M.EmptyBoard, Filed, N.HasRoom, M.FreeFrom;
    SeedFiles();
    M.EmptyFree();
    M.EmptyIsEmpty();
    N.EmptyIsEmpty();
    SeedsAll(Cleaned(w), SEED_DOCS, now, rolls, 0);
    SeedRequests(SEED_NPCS, now);
  }

  lemma SeedRequests(requests: seq<N.Request>, now: int)
    requires |requests| == 2
    ensures N.Requests(N.AddRequest(N.AddRequest(N.EmptyNpcs(), requests[0], now), requests[1], now)) == multiset(requests)
  {
    hide N.Requests, N.AddRequest, N.EmptyNpcs, N.HasRoom;
    N.EmptyIsEmpty();
    NpcRoom(requests[0], now);
    N.AddKeeps(N.EmptyNpcs(), requests[0], now);
    N.AddKeeps(N.AddRequest(N.EmptyNpcs(), requests[0], now), requests[1], now);
    assert requests == [requests[0]] + [requests[1]];
  }

  /** And every sandbox is empty, and every unburned account has the initial money again. */
  lemma ResetPeople(w: World, now: int, rolls: seq<nat>, k: Key)
    requires |rolls| == 4
    ensures var after := RoundReset(w, now, rolls);
      && Held(after.files, k) == map[]
      && (Balance(w, k) == None ==> Balance(after, k) == None)
      && (Balance(w, k).Some? ==> Balance(after, k) == Some(if Burned(w, k) then BURNED else INITIAL_MONEY))
  {
    hide RoundReset, M.Offers, N.Requests, Filed, Has, Money, Reset;
    ResetBoards(w, now, rolls);
    ResetOne(w.records, INITIAL_MONEY, k);
  }
}
