// What each event does to the world, from the outside: which answer is given, what changes,
// and that nothing else does. The dispatch of requests is part of every statement.
module Dispatch {
  import opened Prelude
  import opened Masks
  import opened Tags
  import opened RandomTags
  import opened UserDb
  import opened Sandbox
  import opened Escape
  import opened Economy
  import opened EconomyLaws
  import opened Effects
  import opened Trades
  import M = Market
  import N = NpcBoard

  /** Only the balance of one key has changed among the accounts, to the one given. */
  ghost predicate Pays(w: World, after: World, key: Key, money: int) {
    forall k :: Balance(after, k) == if k == key then Some(money) else Balance(w, k)
  }

  lemma WritePays(w: World, key: Key, money: int)
    requires Has(w.records, key)
    ensures Pays(w, WithMoney(w, key, money), key, money)
  {
    hide Has, Money, SetBalance;
    forall k ensures Balance(WithMoney(w, key, money), k) == if k == key then Some(money) else Balance(w, k) {
      SetOne(w.records, key, money, k);
    }
  }

  // Who is listened to.

  /** Requests of keys that are not logged in do nothing. */
  lemma OfflineIsIgnored(w: World, e: Event)
    requires WellFormed(e) && |w.ladder.log| == MAX_SCORE_ESCAPED
    requires e.BuyEvent? || e.SellEvent? || e.DisposeEvent? || e.RumorEvent? || e.PayoffEvent?
    requires e.key !in w.online
    ensures Step(w, e) == Outcome(w, Silent, false)
  {
  }

  /** A login is answered by who is logged in and by the account; only a success changes anything:
      the key is logged in, has a directory, and has an account if it had none. */
  lemma LoginEventDoes(w: World, key: Key)
    requires |w.ladder.log| == MAX_SCORE_ESCAPED
    ensures var out := Step(w, LoginEvent(key));
      && !out.bust
      && out.reply == (if key in w.online then Refused(DuplicateLogin)
                       else if Balance(w, key) == Some(-1) then Refused(KeyBurned)
                       else if Balance(w, key) == None then LoggedIn(true, 1000, w.ladder.goal)
                       else LoggedIn(false, Balance(w, key).value, w.ladder.goal))
      && (out.reply.Refused? ==> out.world == w)
      && (out.reply.LoggedIn? ==>
            && out.world == w.(online := w.online + {key}, records := out.world.records, files := out.world.files)
            && Pays(w, out.world, key, out.reply.money)
            && out.world.files.master == w.files.master && out.world.files.users.Keys == w.files.users.Keys + {key}
            && forall k :: Held(out.world.files, k) == Held(w.files, k))
  {
    hide Has, Money;
    LoginSucceeds(w, key);
    if !Has(w.records, key) {
      forall k ensures Balance(Login(w, key).0, k) == if k == key && key !in w.online then Some(1000) else Balance(w, k) {
        NewRecord(w.records, key, k);
        NewRecord(w.records, key, key);
      }
    }
  }

  lemma LeaveEventDoes(w: World, key: Key)
    requires |w.ladder.log| == MAX_SCORE_ESCAPED
    ensures Step(w, LeaveEvent(key)) == Outcome(w.(online := w.online - {key}), Silent, false)
  {
  }

  // Purchases.

  /** Slot i is the first one on sale under the id. */
  predicate SellsFirst(slots: seq<M.MarketSlot>, docId: int, i: nat) {
    && i < |slots| && slots[i].active && slots[i].offer.docId == docId
    && forall j :: 0 <= j < i ==> !(slots[j].active && slots[j].offer.docId == docId)
  }

  lemma SellsFirstIs(slots: seq<M.MarketSlot>, docId: int, i: nat)
    requires SellsFirst(slots, docId, i)
    ensures M.FindFrom(slots, docId, 0) == i
  {
  }

  lemma BuyAnswer(w: World, key: Key, docId: int, env: BuyEnv, i: nat)
    requires SellsFirst(w.board.slots, docId, i)
    ensures var slot := w.board.slots[i];
      Buy(w, key, docId, env).1
      == if slot.frozen then Refused(DocFrozen)
         else if |Held(w.files, key)| >= 7 then Refused(InventoryFull)
         else if Balance(w, key) == None then Refused(InvalidSession)
         else if Balance(w, key).value < slot.offer.price then Refused(NotEnoughMoney)
         else if !env.renameOk || docId !in w.files.master || key !in w.files.users then Refused(DocNotFound)
         else Bought(slot.offer, Balance(w, key).value - slot.offer.price)
  {
    hide Has, Money, SetBalance, M.AddOffer, M.AfterTake, M.FindFrom;
    SellsFirstIs(w.board.slots, docId, i);
  }

  lemma BuyChanges(w: World, key: Key, docId: int, env: BuyEnv, i: nat)
    requires SellsFirst(w.board.slots, docId, i) && Buy(w, key, docId, env).1.Bought?
    ensures var after := Buy(w, key, docId, env).0;
      && docId in w.files.master && key in w.files.users
      && after == w.(board := w.board.(slots := w.board.slots[i := w.board.slots[i].(active := false)]),
                     files := Files(w.files.master - {docId},
                                    w.files.users[key := w.files.users[key][docId := w.files.master[docId]]]),
                     records := after.records)
      && Pays(w, after, key, Buy(w, key, docId, env).1.money)
  {
    hide Has, Money, SetBalance, M.AddOffer, M.FindFrom;
    SellsFirstIs(w.board.slots, docId, i);
    var (after, reply) := Buy(w, key, docId, env);
    WritePays(w, key, reply.money);
    SameAccounts(WithMoney(w, key, reply.money), after, w, key, reply.money);
  }

  /** The same offers are on sale, under the same frozen tags. */
  ghost predicate SameSale(b: M.Board, after: M.Board) {
    M.Offers(after) == M.Offers(b) && after.mask == b.mask && |after.slots| == |b.slots|
    && (M.Consistent(b) ==> M.Consistent(after))
  }

  lemma RefusalSells(w: World, key: Key, docId: int, env: BuyEnv)
    requires Buy(w, key, docId, env).1.Refused?
    ensures var after := Buy(w, key, docId, env).0;
      after == w.(board := after.board) && SameSale(w.board, after.board)
  {
    hide Money, Has, SetBalance, M.Offers, M.Consistent, CountDocs, CanMove, M.HasRoom, M.AddOffer;
    M.TakeKeeps(w.board, docId);
    if BuyRefusal(w, key, docId).None? {
      var offer := M.Take(w.board, docId).slot.offer;
      ReAdd(w.board, docId, env.now, env.roll);
      M.AddKeeps(M.AfterTake(w.board, docId), offer, env.now, env.roll);
      M.AddKeepsMask(M.AfterTake(w.board, docId), offer, env.now, env.roll);
    }
  }

  /** No money, and a directory with nothing in it. */
  ghost predicate Penniless(w: World, key: Key) {
    Balance(w, key).Some? && Balance(w, key).value <= 0 && key in w.files.users && Held(w.files, key) == map[]
  }

  /** A penniless key is burned, told so and out; nothing happens to any other. */
  ghost predicate ThenBusts(left: World, key: Key, out: Outcome) {
    && (out.bust <==> Penniless(left, key))
    && (if out.bust then
          out.world == left.(online := left.online - {key}, records := out.world.records) && Pays(left, out.world, key, -1)
        else out.world == left)
  }

  lemma CheckBusts(left: World, key: Key, reply: Reply)
    ensures ThenBusts(left, key, ThenCheck((left, reply), key))
  {
    hide Has, Money, SetBalance;
    NoDocs(left.files, key);
    if Bankrupt(left, key) {
      WritePays(left, key, BURNED);
    }
  }

  /** A purchase is answered by the first slot under its id: frozen, no room, no account, too
      little money, no file, in this order. Bought, the offer leaves that slot, the file goes to the
      buyer and the price leaves the account; refused, all that may change is the slot of an offer
      put back. A refusal that leaves the buyer penniless burns the account. */
  lemma BuyEventDoes(w: World, key: Key, docId: int, env: BuyEnv, i: nat)
    requires |w.ladder.log| == MAX_SCORE_ESCAPED && key in w.online && SellsFirst(w.board.slots, docId, i)
    ensures var out, slot := Step(w, BuyEvent(key, docId, env)), w.board.slots[i];
      && out.reply == (if slot.frozen then Refused(DocFrozen)
                       else if |Held(w.files, key)| >= 7 then Refused(InventoryFull)
                       else if Balance(w, key) == None then Refused(InvalidSession)
                       else if Balance(w, key).value < slot.offer.price then Refused(NotEnoughMoney)
                       else if !env.renameOk || docId !in w.files.master || key !in w.files.users then Refused(DocNotFound)
                       else Bought(slot.offer, Balance(w, key).value - slot.offer.price))
      && (out.reply.Bought? ==>
            && docId in w.files.master && key in w.files.users && !out.bust
            && out.world == w.(board := w.board.(slots := w.board.slots[i := slot.(active := false)]),
                               files := Files(w.files.master - {docId},
                                              w.files.users[key := w.files.users[key][docId := w.files.master[docId]]]),
                               records := out.world.records)
            && Pays(w, out.world, key, out.reply.money))
      && (out.reply.Refused? ==>
            SameSale(w.board, out.world.board) && ThenBusts(w.(board := out.world.board), key, out)
            && (out.reply != Refused(DocNotFound) ==> out.world.board == w.board))
  {
    hide Buy, Has, Money, SetBalance, M.Offers, M.Consistent, ThenCheck, Pays, SameSale;
    BuyAnswer(w, key, docId, env, i);
    var (left, reply) := Buy(w, key, docId, env);
    CheckBusts(left, key, reply);
    ThenReplies(left, reply, key);
    if reply.Bought? {
      BuyChanges(w, key, docId, env, i);
      assert docId in Held(left.files, key);
    } else {
      RefusalSells(w, key, docId, env);
      if reply != Refused(DocNotFound) {
        EarlyRefusal(w, key, docId, env);
      }
    }
  }

  lemma ThenReplies(left: World, reply: Reply, key: Key)
    ensures ThenCheck((left, reply), key).reply == reply
  {
  }

  lemma EarlyRefusal(w: World, key: Key, docId: int, env: BuyEnv)
    requires Buy(w, key, docId, env).1.Refused? && Buy(w, key, docId, env).1 != Refused(DocNotFound)
    ensures Buy(w, key, docId, env).0 == w
  {
  }

  /** An id that is not on sale is not found. */
  lemma BuyMissing(w: World, key: Key, docId: int, env: BuyEnv)
    requires |w.ladder.log| == MAX_SCORE_ESCAPED && key in w.online
    requires forall j :: 0 <= j < |w.board.slots| ==> !(w.board.slots[j].active && w.board.slots[j].offer.docId == docId)
    ensures var out := Step(w, BuyEvent(key, docId, env)); out.reply == Refused(DocNotFound) && ThenBusts(w, key, out)
  {
    hide Has, Money, SetBalance, ThenCheck;
    CheckBusts(w, key, Refused(DocNotFound));
    ThenReplies(w, Refused(DocNotFound), key);
    assert M.FindFrom(w.board.slots, docId, 0) == |w.board.slots|;
  }

  // Sabotage and escape.

  /** Sabotage: the shared cooldown, the account, the fee of 500, in this order. It takes the fee
      and nothing else, and starts the thirty seconds. Who is penniless then is burned. */
  lemma RumorEventDoes(w: World, key: Key, now: int)
    requires |w.ladder.log| == MAX_SCORE_ESCAPED && key in w.online
    ensures var out := Step(w, RumorEvent(key, now));
      && out.reply == (if now < w.rumorUntil then Refused(RumorCooldown)
                       else if Balance(w, key) == None then Refused(InvalidSession)
                       else if Balance(w, key).value < 500 then Refused(NotEnoughMoney)
                       else Rumored(Balance(w, key).value - 500))
      && exists left: World ::
           && ThenBusts(left, key, out)
           && (out.reply.Refused? ==> left == w)
           && (out.reply.Rumored? ==>
                 left == w.(rumorUntil := now + 30, records := left.records) && Pays(w, left, key, out.reply.money))
  {
    hide Has, Money, SetBalance, ThenCheck, Pays, ThenBusts;
    var (left, reply) := Rumor(w, key, now);
    CheckBusts(left, key, reply);
    ThenReplies(left, reply, key);
    if reply.Rumored? {
      WritePays(w, key, reply.money);
      SameAccounts(WithMoney(w, key, reply.money), left, w, key, reply.money);
    }
  }

  lemma SameAccounts(one: World, two: World, w: World, key: Key, money: int)
    requires one.records == two.records && Pays(w, one, key, money)
    ensures Pays(w, two, key, money)
  {
    hide Has, Money;
    forall k ensures Balance(two, k) == if k == key then Some(money) else Balance(w, k) {
      assert Balance(two, k) == Balance(one, k);
    }
  }

  /** So the last money spent on sabotage, without documents, costs the account. */
  lemma RumorBusts(w: World, key: Key, now: int)
    requires |w.ladder.log| == MAX_SCORE_ESCAPED && key in w.online && now >= w.rumorUntil
    requires Balance(w, key) == Some(500) && key in w.files.users && Held(w.files, key) == map[]
    ensures var out := Step(w, RumorEvent(key, now));
      out.bust && Balance(out.world, key) == Some(-1) && key !in out.world.online && out.reply == Rumored(0)
  {
    hide Has, Money, SetBalance, Step;
    RumorEventDoes(w, key, now);
  }

  /** An escape: the account and the goal decide. The account starts afresh, its documents are
      gone, the goal rises by 2000 up to 14000, and the escape is counted, logged and timed. */
  lemma PayoffEventDoes(w: World, key: Key, now: int)
    requires |w.ladder.log| == MAX_SCORE_ESCAPED && key in w.online && now != 0
    ensures var out := Step(w, PayoffEvent(key, now));
      var goal := if w.ladder.goal + 2000 > 14000 then 14000 else w.ladder.goal + 2000;
      && !out.bust
      && out.reply == (if Balance(w, key) == None then Refused(InvalidSession)
                       else if Balance(w, key).value < w.ladder.goal then Refused(NotEnoughMoney)
                       else Escaped(w.ladder.goal, goal))
      && (out.reply.Refused? ==> out.world == w)
      && (out.reply.Escaped? ==>
            && out.world == w.(records := out.world.records, files := out.world.files, ladder := out.world.ladder)
            && Pays(w, out.world, key, 1000)
            && out.world.files.master == w.files.master && out.world.files.users.Keys == w.files.users.Keys
            && (forall k :: Held(out.world.files, k) == if k == key then map[] else Held(w.files, k))
            && out.world.ladder.goal == goal && out.world.ladder.escaped == w.ladder.escaped + 1
            && out.world.ladder.capAt == (if w.ladder.capAt == 0 && goal == 14000 then now else w.ladder.capAt)
            && out.world.ladder.log == (if w.ladder.escaped < 3
                                        then w.ladder.log[w.ladder.escaped := EscapeEntry(key, w.ladder.goal, w.ladder.escaped + 1)]
                                        else w.ladder.log))
  {
    hide Has, Money, SetBalance, Purge;
    PurgeEffect(w.files, key);
    PurgeMasters(w.files, key);
    if Payoff(w, key, now).1.Escaped? {
      WritePays(w, key, 1000);
    }
  }

  /** A raid's burn: the account is marked and the documents go; who is logged in stays so. */
  lemma BurnEventDoes(w: World, key: Key)
    requires |w.ladder.log| == MAX_SCORE_ESCAPED
    ensures var out := Step(w, BurnEvent(key));
      && out.reply == Silent && !out.bust
      && out.world == w.(records := out.world.records, files := out.world.files)
      && (if Balance(w, key) == None then out.world.records == w.records else Pays(w, out.world, key, -1))
      && out.world.files.master == w.files.master && out.world.files.users.Keys == w.files.users.Keys
      && (forall k :: Held(out.world.files, k) == if k == key then map[] else Held(w.files, k))
  {
    hide Has, Money, SetBalance, Purge;
    PurgeEffect(w.files, key);
    PurgeMasters(w.files, key);
    if Has(w.records, key) {
      WritePays(w, key, -1);
    }
  }

  // Documents: sales and disposals.

  /** The document is not held, or one of its tags is frozen. */
  predicate Rejected(w: World, key: Key, id: int) {
    id !in Held(w.files, key) || Meets(Held(w.files, key)[id].tags, w.board.mask)
  }

  lemma {:induction false} FirstRejected(w: World, key: Key, ids: seq<int>, tags: bv32, m: int)
    requires Ascending(ids) && m in ids && Rejected(w, key, m)
    requires forall id :: id in ids && Rejected(w, key, id) ==> m <= id
    ensures CheckDocs(w, key, ids, tags) == Bad(if m in Held(w.files, key) then DocFrozen else DocNotFound)
    decreases |ids|
  {
    hide Meets, Join, Held;
    if ids[0] != m {
      var j :| 0 <= j < |ids| && ids[j] == m;
      assert ids[0] <= ids[j] && ids[1..][j - 1] == m;
      assert ids[0] in ids && !Rejected(w, key, ids[0]);
      FirstRejected(w, key, ids[1..], Join(tags, Held(w.files, key)[ids[0]].tags), m);
    }
  }

  /** A sale that submits something not held or frozen is answered by the lowest such id. */
  lemma SaleRejected(w: World, key: Key, npcId: int, count: int, ids: seq<int>, m: int)
    requires |ids| == MAX_INVEN_SIZE && 0 < count <= 7 && N.Find(w.npcs, npcId).Some?
    requires m in ids[..count] && Rejected(w, key, m)
    requires forall id :: id in ids[..count] && Rejected(w, key, id) ==> m <= id
    ensures Sell(w, key, npcId, count, ids) == (w, Refused(if m in Held(w.files, key) then DocFrozen else DocNotFound))
  {
    hide SortIds, CheckDocs, Covers, N.Find, Held, Rejected, Has, Money, SetBalance;
    SortSorts(ids[..count]);
    SameMembers(SortIds(ids[..count]), ids[..count]);
    FirstRejected(w, key, SortIds(ids[..count]), 0, m);
  }

  /** What a request takes, which slot is closed and what a sale is answered. */
  predicate AsksFirst(slots: seq<N.NpcSlot>, npcId: int, i: nat) {
    && i < |slots| && slots[i].active && slots[i].request.npcId == npcId
    && forall j :: 0 <= j < i ==> !(slots[j].active && slots[j].request.npcId == npcId)
  }

  lemma AsksFirstIs(slots: seq<N.NpcSlot>, npcId: int, i: nat)
    requires AsksFirst(slots, npcId, i)
    ensures N.Find(slots, npcId) == Some(slots[i].request)
    ensures N.AfterTake(slots, npcId) == slots[i := slots[i].(active := false)]
  {
    assert N.FindFrom(slots, npcId, 0) == i;
  }

  /** The required tags are carried by the submitted documents together. */
  ghost predicate Satisfies(w: World, key: Key, ids: seq<int>, required: bv32) {
    forall t :: Meets(t, required) ==> exists id :: id in ids && Carries(w, key, id, t)
  }

  lemma SaleAnswer(w: World, key: Key, npcId: int, count: int, ids: seq<int>, i: nat)
    requires |ids| == MAX_INVEN_SIZE && 0 < count <= 7 && AsksFirst(w.npcs, npcId, i)
    requires forall id :: id in ids[..count] ==> !Rejected(w, key, id)
    ensures Sell(w, key, npcId, count, ids).1
      == if !Satisfies(w, key, ids[..count], w.npcs[i].request.requiredTags) then Refused(TagMismatch)
         else if Balance(w, key) == None then Refused(InvalidSession)
         else Sold(w.npcs[i].request.bounty, Balance(w, key).value + w.npcs[i].request.bounty)
  {
    hide SortIds, CheckDocs, Covers, N.Find, Meets, Carries, SetBalance, Money, Has, N.AfterTake, DropDocs, Held;
    AsksFirstIs(w.npcs, npcId, i);
    var sorted, part := SortIds(ids[..count]), ids[..count];
    SortSorts(part);
    SameMembers(sorted, part);
    CheckPasses(w, key, sorted, 0);
    NothingMeetsZero();
    assert CheckDocs(w, key, sorted, 0).Good?;
    CoversIff(CheckDocs(w, key, sorted, 0).tags, w.npcs[i].request.requiredTags);
  }

  lemma SellAnswers(w: World, key: Key, npcId: int, count: int, ids: seq<int>, i: nat)
    requires |ids| == MAX_INVEN_SIZE && AsksFirst(w.npcs, npcId, i)
    ensures var reply, request := Sell(w, key, npcId, count, ids).1, w.npcs[i].request;
      && (count <= 0 || count > 7 ==> reply == Refused(TagMismatch))
      && (0 < count <= 7 && (forall id :: id in ids[..count] ==> !Rejected(w, key, id)) ==>
            reply == (if !Satisfies(w, key, ids[..count], request.requiredTags) then Refused(TagMismatch)
                      else if Balance(w, key) == None then Refused(InvalidSession)
                      else Sold(request.bounty, Balance(w, key).value + request.bounty)))
      && (0 < count <= 7 ==>
            forall m :: m in ids[..count] && Rejected(w, key, m) && (forall id :: id in ids[..count] && Rejected(w, key, id) ==> m <= id) ==>
              reply == Refused(if m in Held(w.files, key) then DocFrozen else DocNotFound))
  {
    hide Sell, N.Find, Balance, Held, Satisfies, Rejected, AsksFirst;
    AsksFirstIs(w.npcs, npcId, i);
    InSlots(w.npcs, npcId, i);
    if 0 < count <= 7 {
      if forall id :: id in ids[..count] ==> !Rejected(w, key, id) {
        SaleAnswer(w, key, npcId, count, ids, i);
      }
      forall m | m in ids[..count] && Rejected(w, key, m) && (forall id :: id in ids[..count] && Rejected(w, key, id) ==> m <= id)
        ensures Sell(w, key, npcId, count, ids).1 == Refused(if m in Held(w.files, key) then DocFrozen else DocNotFound)
      {
        SaleRejected(w, key, npcId, count, ids, m);
      }
    } else {
      BadCount(w, key, npcId, count, ids);
    }
  }

  lemma InSlots(slots: seq<N.NpcSlot>, npcId: int, i: nat)
    requires AsksFirst(slots, npcId, i)
    ensures i < |slots|
  {
  }

  /** A sale: the count, the request, then the documents in the order of their ids, the tags and
      the account. Sold, the request closes, exactly the submitted documents go and the bounty is
      paid; refused, nothing changes. */
  lemma SellEventDoes(w: World, key: Key, npcId: int, count: int, ids: seq<int>, i: nat)
    requires |w.ladder.log| == MAX_SCORE_ESCAPED && key in w.online && |ids| == MAX_INVEN_SIZE && AsksFirst(w.npcs, npcId, i)
    ensures var out, request := Step(w, SellEvent(key, npcId, count, ids)), w.npcs[i].request;
      && !out.bust
      && (count <= 0 || count > 7 ==> out.reply == Refused(TagMismatch))
      && (0 < count <= 7 && (forall id :: id in ids[..count] ==> !Rejected(w, key, id)) ==>
            out.reply == (if !Satisfies(w, key, ids[..count], request.requiredTags) then Refused(TagMismatch)
                          else if Balance(w, key) == None then Refused(InvalidSession)
                          else Sold(request.bounty, Balance(w, key).value + request.bounty)))
      && (0 < count <= 7 ==>
            forall m :: m in ids[..count] && Rejected(w, key, m) && (forall id :: id in ids[..count] && Rejected(w, key, id) ==> m <= id) ==>
              out.reply == Refused(if m in Held(w.files, key) then DocFrozen else DocNotFound))
      && (out.reply.Refused? ==> out.world == w)
      && (out.reply.Sold? ==>
            && 0 < count <= 7
            && out.world == w.(npcs := w.npcs[i := w.npcs[i].(active := false)], records := out.world.records, files := out.world.files)
            && Pays(w, out.world, key, out.reply.money)
            && out.world.files.master == w.files.master && out.world.files.users.Keys == w.files.users.Keys
            && (forall k :: k != key ==> Held(out.world.files, k) == Held(w.files, k))
            && (forall id :: id in Held(out.world.files, key) <==> id in Held(w.files, key) && id !in ids[..count])
            && (forall id :: id in Held(out.world.files, key) ==> Held(out.world.files, key)[id] == Held(w.files, key)[id]))
  {
    hide Sell, Balance, Held, Satisfies, Rejected, AsksFirst, Pays;
    InSlots(w.npcs, npcId, i);
    SellReplies(w, key, npcId, count, ids);
    SellAnswers(w, key, npcId, count, ids, i);
    if Sell(w, key, npcId, count, ids).1.Sold? {
      SoldChanges(w, key, npcId, count, ids, i);
    } else {
      SellRefused(w, key, npcId, count, ids);
    }
  }

  lemma SellRefused(w: World, key: Key, npcId: int, count: int, ids: seq<int>)
    requires |ids| == MAX_INVEN_SIZE && Sell(w, key, npcId, count, ids).1.Refused?
    ensures Sell(w, key, npcId, count, ids).0 == w
  {
    hide Sell;
    SellEffect(w, key, npcId, count, ids);
  }

  lemma SoldChanges(w: World, key: Key, npcId: int, count: int, ids: seq<int>, i: nat)
    requires |ids| == MAX_INVEN_SIZE && AsksFirst(w.npcs, npcId, i) && Sell(w, key, npcId, count, ids).1.Sold?
    ensures var (after, reply) := Sell(w, key, npcId, count, ids);
      && 0 < count <= 7
      && after == w.(npcs := w.npcs[i := w.npcs[i].(active := false)], records := after.records, files := after.files)
      && Pays(w, after, key, reply.money)
      && after.files.master == w.files.master && after.files.users.Keys == w.files.users.Keys
      && (forall k :: k != key ==> Held(after.files, k) == Held(w.files, k))
      && (forall id :: id in Held(after.files, key) <==> id in Held(w.files, key) && id !in ids[..count])
      && (forall id :: id in Held(after.files, key) ==> Held(after.files, key)[id] == Held(w.files, key)[id])
  {
    hide Sell, N.Find, SetBalance, Money, Has, Held, Rejected, DropDocs;
    AsksFirstIs(w.npcs, npcId, i);
    SellEffect(w, key, npcId, count, ids);
    SellUnfolds(w, key, npcId, count, ids);
    SaleKeepsUsers(w.files, key, ids, count);
  }

  lemma SellReplies(w: World, key: Key, npcId: int, count: int, ids: seq<int>)
    requires |ids| == MAX_INVEN_SIZE
    ensures Sell(w, key, npcId, count, ids).1.Refused? || Sell(w, key, npcId, count, ids).1.Sold?
  {
  }

  lemma BadCount(w: World, key: Key, npcId: int, count: int, ids: seq<int>)
    requires |ids| == MAX_INVEN_SIZE && (count <= 0 || count > 7)
    ensures Sell(w, key, npcId, count, ids) == (w, Refused(TagMismatch))
  {
  }

  lemma SaleKeepsUsers(files: Files, key: Key, ids: seq<int>, count: int)
    ensures 0 <= count <= |ids| ==> DropDocs(files, key, set id | id in ids[..count]).users.Keys == files.users.Keys
  {
  }

  /** Without an open request of the id, after the count. */
  lemma SellMissing(w: World, key: Key, npcId: int, count: int, ids: seq<int>)
    requires |w.ladder.log| == MAX_SCORE_ESCAPED && key in w.online && |ids| == MAX_INVEN_SIZE
    requires forall j :: 0 <= j < |w.npcs| ==> !(w.npcs[j].active && w.npcs[j].request.npcId == npcId)
    ensures Step(w, SellEvent(key, npcId, count, ids))
      == Outcome(w, Refused(if 0 < count <= 7 then NpcNotFound else TagMismatch), false)
  {
    hide SortIds, CheckDocs, Has;
    assert N.FindFrom(w.npcs, npcId, 0) == |w.npcs|;
  }

  /** A disposal removes the one document, if it is held. */
  lemma DisposeEventDoes(w: World, key: Key, docId: int)
    requires |w.ladder.log| == MAX_SCORE_ESCAPED && key in w.online
    ensures Step(w, DisposeEvent(key, docId))
      == if docId in Held(w.files, key)
         then Outcome(w.(files := Files(w.files.master, w.files.users[key := Held(w.files, key) - {docId}])), Disposed, false)
         else Outcome(w, Refused(DocNotFound), false)
  {
  }
}
