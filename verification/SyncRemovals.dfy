// Removals and the clients' copies: the server removes entries and sends ids, and the client
// removes the first entry it has of each. When both remove the same, whatever ids are reused.
module SyncRemovals {
  import opened Prelude
  import opened Masks
  import opened Client
  import opened Economy
  import opened Sync
  import U = UserDb
  import opened Sandbox
  import opened RandomTags
  import Escape
  import M = Market
  import N = NpcBoard

  // One id twice.

  /** A removal keeps agreement exactly when the entry that the client finds first is the offer
      that the server has taken. */
  lemma RemoveAgreesIff(w: World, c: Copy, docId: int)
    requires Agree(w, c) && M.Take(w.board, docId).Taken?
    ensures var i := FirstShown(c.market, docId, 0);
      Agree(w.(board := M.AfterTake(w.board, docId)), Apply(c, MarketRemove(docId)))
      <==> i < |c.market| && c.market[i].offer == M.Take(w.board, docId).slot.offer
  {
    hide M.Offers, N.Requests, M.AfterTake, M.Take, Flagged, Meets, Join, Drop, Without;
    var o := M.Take(w.board, docId).slot.offer;
    var after := Apply(c, MarketRemove(docId));
    M.TakeKeeps(w.board, docId);
    TakeKeepsMask(w.board, docId);
    ApplyFlags(c, MarketRemove(docId));
    var i := FirstShown(c.market, docId, 0);
    ShownFirst(c.market, o);
    WithoutOne(OffersOf(c.market), i);
    OffersWithout(c.market, i);
    TwoWays(multiset(OffersOf(c.market)), multiset(OffersOf(after.market)), M.Offers(M.AfterTake(w.board, docId)), c.market[i].offer, o);
  }

  lemma ShownFirst(market: seq<Shown>, o: M.Offer)
    requires o in multiset(OffersOf(market))
    ensures FirstShown(market, o.docId, 0) < |market|
  {
    var k :| 0 <= k < |market| && OffersOf(market)[k] == o;
    assert market[k].offer.docId == o.docId;
  }

  lemma TwoWays<T>(all: multiset<T>, one: multiset<T>, other: multiset<T>, x: T, y: T)
    requires all == one + multiset{x} == other + multiset{y}
    ensures one == other <==> x == y
  {
    if x == y {
      assert one == all - multiset{x} && other == all - multiset{y};
    } else {
      assert one[x] == all[x] - 1 && other[x] == all[x];
    }
  }

  /** The same of a request that is met. */
  lemma DespawnAgreesIff(w: World, c: Copy, npcId: int)
    requires Agree(w, c) && N.Find(w.npcs, npcId).Some?
    ensures var i := FirstRequest(c.npcs, npcId, 0);
      Agree(w.(npcs := N.AfterTake(w.npcs, npcId)), Apply(c, NpcDespawn(npcId)))
      <==> i < |c.npcs| && c.npcs[i] == N.Find(w.npcs, npcId).value
  {
    hide M.Offers, N.Requests, N.AfterTake, N.Find, Flagged, Meets, Join, Drop, Without;
    var r := N.Find(w.npcs, npcId).value;
    var after := Apply(c, NpcDespawn(npcId));
    N.TakeKeeps(w.npcs, npcId);
    ApplyFlags(c, NpcDespawn(npcId));
    var i := FirstRequest(c.npcs, npcId, 0);
    assert r in multiset(c.npcs);
    WithoutOne(c.npcs, i);
    TwoWays(multiset(c.npcs), multiset(after.npcs), N.Requests(N.AfterTake(w.npcs, npcId)), c.npcs[i], r);
  }

  // Every removal of a run.

  /** The offers that the copy loses to a list of removals, in order. */
  function Dropped(c: Copy, ids: seq<int>): seq<M.Offer> {
    if ids == [] then []
    else
      var n := |ids| - 1;
      var market := Replay(c, Removes(ids[..n])).market;
      var i := FirstShown(market, ids[n], 0);
      Dropped(c, ids[..n]) + (if i < |market| then [market[i].offer] else [])
  }

  function DroppedRequests(c: Copy, ids: seq<int>): seq<N.Request> {
    if ids == [] then []
    else
      var n := |ids| - 1;
      var npcs := Replay(c, Despawns(ids[..n])).npcs;
      var i := FirstRequest(npcs, ids[n], 0);
      DroppedRequests(c, ids[..n]) + (if i < |npcs| then [npcs[i]] else [])
  }

  lemma DropsOne(c: Copy, docId: int)
    ensures var i, after := FirstShown(c.market, docId, 0), Apply(c, MarketRemove(docId));
      && multiset(OffersOf(after.market)) + (if i < |c.market| then multiset{c.market[i].offer} else multiset{}) == multiset(OffersOf(c.market))
      && after.npcs == c.npcs && after.mask == c.mask && after.goal == c.goal
  {
    hide Without;
    var i := FirstShown(c.market, docId, 0);
    if i < |c.market| {
      WithoutOne(OffersOf(c.market), i);
      OffersWithout(c.market, i);
    }
  }

  lemma DropsOneRequest(c: Copy, npcId: int)
    ensures var i, after := FirstRequest(c.npcs, npcId, 0), Apply(c, NpcDespawn(npcId));
      && multiset(after.npcs) + (if i < |c.npcs| then multiset{c.npcs[i]} else multiset{}) == multiset(c.npcs)
      && after.market == c.market && after.mask == c.mask && after.goal == c.goal
  {
    hide Without;
    var i := FirstRequest(c.npcs, npcId, 0);
    if i < |c.npcs| {
      WithoutOne(c.npcs, i);
    }
  }

  /** The copy loses what it drops and nothing else. */
  lemma {:induction false} RemovesDrop(c: Copy, ids: seq<int>)
    ensures var after := Replay(c, Removes(ids));
      && multiset(OffersOf(after.market)) + multiset(Dropped(c, ids)) == multiset(OffersOf(c.market))
      && after.npcs == c.npcs && after.mask == c.mask && after.goal == c.goal
    decreases |ids|
  {
    hide Apply;
    if ids == [] {
      assert Removes(ids) == [];
    } else {
      var n := |ids| - 1;
      RemovesDrop(c, ids[..n]);
      assert Removes(ids)[..n] == Removes(ids[..n]);
      DropsOne(Replay(c, Removes(ids[..n])), ids[n]);
    }
  }

  lemma {:induction false} DespawnsDrop(c: Copy, ids: seq<int>)
    ensures var after := Replay(c, Despawns(ids));
      && multiset(after.npcs) + multiset(DroppedRequests(c, ids)) == multiset(c.npcs)
      && after.market == c.market && after.mask == c.mask && after.goal == c.goal
    decreases |ids|
  {
    hide Apply;
    if ids == [] {
      assert Despawns(ids) == [];
    } else {
      var n := |ids| - 1;
      DespawnsDrop(c, ids[..n]);
      assert Despawns(ids)[..n] == Despawns(ids[..n]);
      DropsOneRequest(Replay(c, Despawns(ids[..n])), ids[n]);
    }
  }

  /** The offers and the requests that an ageing pass takes off the boards. */
  function AgedOffersOf(b: M.Board, now: int): seq<M.Offer> {
    Live(GoneCells(b.slots, now))
  }

  function AgedRequestsOf(slots: seq<N.NpcSlot>, now: int): seq<N.Request> {
    Live(GoneNpcCells(slots, now))
  }

  function NpcAgedIds(slots: seq<N.NpcSlot>, now: int): seq<int> {
    N.AgedIds(slots, N.EVT_NPC_MAX_AGE_SEC, N.EVT_NPC_AGE_STEP_SEC, now)
  }

  lemma AgedLeave(w: World, now: int)
    ensures M.Offers(w.board) == M.Offers(AgeBoards(w, now).board) + multiset(AgedOffersOf(w.board, now))
    ensures N.Requests(w.npcs) == N.Requests(AgeBoards(w, now).npcs) + multiset(AgedRequestsOf(w.npcs, now))
  {
    hide Bag, Live, N.MaxAge;
    BagDeal(M.Cells(w.board.slots), M.Cells(M.AgeOut(w.board, now).slots), GoneCells(w.board.slots, now));
    BagIsLive(GoneCells(w.board.slots, now));
    BagDeal(N.Cells(w.npcs), N.Cells(AgeBoards(w, now).npcs), GoneNpcCells(w.npcs, now));
    BagIsLive(GoneNpcCells(w.npcs, now));
  }

  lemma SameRest<T(!new)>(all: multiset<T>, rest: multiset<T>, gone: multiset<T>, kept: multiset<T>, dropped: multiset<T>)
    requires all == rest + gone == kept + dropped
    ensures kept == rest <==> dropped == gone
  {
    if kept == rest {
      forall x ensures dropped[x] == gone[x] {
        assert (rest + gone)[x] == (kept + dropped)[x];
      }
    }
    if dropped == gone {
      SumCancels(kept, rest, gone);
    }
  }

  /** With ids on the boards more than once, an ageing pass keeps agreement exactly when the
      client drops the same offers and requests as the server, in whatever order. */
  lemma AgeAgreesIff(w: World, now: int, c: Copy)
    requires Agree(w, c)
    ensures Agree(AgeBoards(w, now), Replay(c, AgeNews(w, now)))
      <==> multiset(Dropped(c, M.AgedIds(w.board, now))) == multiset(AgedOffersOf(w.board, now))
           && multiset(DroppedRequests(c, NpcAgedIds(w.npcs, now))) == multiset(AgedRequestsOf(w.npcs, now))
  {
    hide M.Offers, N.Requests, M.AgedIds, N.AgedIds, Flagged, Apply, Dropped, DroppedRequests, AgedOffersOf, AgedRequestsOf, Replay;
    var docs, npcs := M.AgedIds(w.board, now), NpcAgedIds(w.npcs, now);
    var despawned := Replay(c, Despawns(npcs));
    var after := Replay(despawned, Removes(docs));
    ReplayThen(c, Despawns(npcs), Removes(docs));
    ReplayFlags(c, Despawns(npcs) + Removes(docs));
    AgedLeave(w, now);
    AgeKeepsMask(w.board, now);
    DespawnsDrop(c, npcs);
    RemovesDrop(despawned, docs);
    SameMarketDrops(c, despawned, docs);
    SameRest(M.Offers(w.board), M.Offers(AgeBoards(w, now).board), multiset(AgedOffersOf(w.board, now)),
             multiset(OffersOf(after.market)), multiset(Dropped(c, docs)));
    SameRest(N.Requests(w.npcs), N.Requests(AgeBoards(w, now).npcs), multiset(AgedRequestsOf(w.npcs, now)),
             multiset(despawned.npcs), multiset(DroppedRequests(c, npcs)));
  }

  /** What removals drop depends on the market part of the copy alone. */
  lemma {:induction false} SameMarketDrops(c: Copy, d: Copy, ids: seq<int>)
    requires c.market == d.market
    ensures Dropped(c, ids) == Dropped(d, ids) && Replay(c, Removes(ids)).market == Replay(d, Removes(ids)).market
    decreases |ids|
  {
    hide FirstShown;
    if ids == [] {
      assert Removes(ids) == [];
    } else {
      var n := |ids| - 1;
      SameMarketDrops(c, d, ids[..n]);
      assert Removes(ids)[..n] == Removes(ids[..n]);
    }
  }

  /** The entries that an event removes from the boards are those that its packets remove from
      the copy. */
  ghost predicate RightRemovals(w: World, e: Event, c: Copy)
    requires WellFormed(e) && |w.ladder.log| == MAX_SCORE_ESCAPED
  {
    if FromClient(e) && e.key !in w.online then true
    else
      match e
      case BuyEvent(_, docId, _) =>
        Step(w, e).reply.Bought? && M.Take(w.board, docId).Taken? ==>
          var i := FirstShown(c.market, docId, 0);
          i < |c.market| && c.market[i].offer == M.Take(w.board, docId).slot.offer
      case SellEvent(_, npcId, _, _) =>
        Step(w, e).reply.Sold? && N.Find(w.npcs, npcId).Some? ==>
          var i := FirstRequest(c.npcs, npcId, 0);
          i < |c.npcs| && c.npcs[i] == N.Find(w.npcs, npcId).value
      case AgeEvent(now) =>
        multiset(Dropped(c, M.AgedIds(w.board, now))) == multiset(AgedOffersOf(w.board, now))
        && multiset(DroppedRequests(c, NpcAgedIds(w.npcs, now))) == multiset(AgedRequestsOf(w.npcs, now))
      case _ => true
  }

  lemma SceneIff(w: World, after: World, c: Copy)
    requires SameScene(w, after)
    ensures Agree(w, c) <==> Agree(after, c)
  {
    hide SameMarket, SameNpcs, Flagged;
  }

  lemma BuyAgreesIff(w: World, key: Key, docId: int, env: BuyEnv, c: Copy)
    requires Agree(w, c)
    ensures var (after, reply) := Buy(w, key, docId, env);
      Agree(after, Replay(c, if reply.Bought? then [MarketRemove(docId)] else []))
      <==> (reply.Bought? && M.Take(w.board, docId).Taken? ==>
              var i := FirstShown(c.market, docId, 0);
              i < |c.market| && c.market[i].offer == M.Take(w.board, docId).slot.offer)
  {
    hide Buy, Agree, M.Take, M.AfterTake, Apply, Replay, SameScene;
    if Buy(w, key, docId, env).1.Bought? {
      BoughtScene(w, key, docId, env);
      RemoveAgreesIff(w, c, docId);
      ReplayOne(c, MarketRemove(docId));
      SceneIff(w.(board := M.AfterTake(w.board, docId)), Buy(w, key, docId, env).0, Apply(c, MarketRemove(docId)));
    } else {
      RefusalAgrees(w, key, docId, env, c);
      ReplayNone(c);
    }
  }

  lemma SoldScene(w: World, key: Key, npcId: int, count: int, ids: seq<int>)
    requires |ids| == MAX_INVEN_SIZE
    ensures var (after, reply) := Sell(w, key, npcId, count, ids);
      if reply.Sold? then N.Find(w.npcs, npcId).Some? && SameScene(w.(npcs := N.AfterTake(w.npcs, npcId)), after)
      else SameScene(w, after)
  {
    hide U.Has, U.Money, U.SetBalance, CheckDocs, SortIds, N.Find, N.AfterTake, Masks.Covers, DropDocs;
  }

  lemma SellAgreesIff(w: World, key: Key, npcId: int, count: int, ids: seq<int>, c: Copy)
    requires Agree(w, c) && |ids| == MAX_INVEN_SIZE
    ensures var (after, reply) := Sell(w, key, npcId, count, ids);
      Agree(after, Replay(c, if reply.Sold? then [NpcDespawn(npcId)] else []))
      <==> (reply.Sold? && N.Find(w.npcs, npcId).Some? ==>
              var i := FirstRequest(c.npcs, npcId, 0);
              i < |c.npcs| && c.npcs[i] == N.Find(w.npcs, npcId).value)
  {
    hide Sell, Agree, N.Find, N.AfterTake, Apply, Replay, SameScene;
    var (after, reply) := Sell(w, key, npcId, count, ids);
    SoldScene(w, key, npcId, count, ids);
    if reply.Sold? {
      DespawnAgreesIff(w, c, npcId);
      ReplayOne(c, NpcDespawn(npcId));
      SceneIff(w.(npcs := N.AfterTake(w.npcs, npcId)), after, Apply(c, NpcDespawn(npcId)));
    } else {
      SceneIff(w, after, c);
      ReplayNone(c);
    }
  }

  /** Spawns, leaks, thaws, resets and goals always keep agreement; removals do exactly when
      they remove the same entries on both sides. */
  lemma StepAgreesIff(w: World, e: Event, c: Copy)
    requires Sized(w) && WellFormed(e) && Agree(w, c)
    ensures Agree(Step(w, e).world, Replay(c, Broadcast(w, e))) <==> RightRemovals(w, e, c)
  {
    hide Login, Buy, Sell, Dispose, Rumor, Payoff, CheckBankruptcy, Bankrupt, Burn, RoundReset, Spawn, SpawnNpc, AgeBoards;
    hide Agree, BothBoards, M.Freeze, M.Unfreeze, SpawnNews, SpawnNpcNews, AgeNews, SameScene, M.Take, N.Find;
    hide Dropped, DroppedRequests, AgedOffersOf, AgedRequestsOf, FirstShown, FirstRequest;
    ReplayNone(c);
    if FromClient(e) && e.key !in w.online {
    } else if Quiet(e) {
      QuietSame(w, e);
      SceneAgrees(w, Step(w, e).world, c);
    } else {
      match e
      case BuyEvent(key, docId, env) =>
        BuyAgreesIff(w, key, docId, env, c);
        BankruptcySame(Buy(w, key, docId, env).0, key);
        SceneIff(Buy(w, key, docId, env).0, Step(w, e).world, Replay(c, Broadcast(w, e)));
      case SellEvent(key, npcId, count, ids) => SellAgreesIff(w, key, npcId, count, ids, c);
      case PayoffEvent(key, now) => PayoffAgrees(w, key, now, c);
      case ResetEvent(now, rolls) => ResetAgrees(w, now, rolls, c);
      case SpawnEvent(docId, maskRead, tagRolls, priceRoll, name, now, roll) =>
        SpawnAgrees(w, docId, maskRead, tagRolls, priceRoll, name, now, roll, c);
      case SpawnNpcEvent(npcId, maskRead, tagRolls, bountyRoll, now) =>
        SpawnNpcAgrees(w, npcId, maskRead, tagRolls, bountyRoll, now, c);
      case AgeEvent(now) => AgeAgreesIff(w, now, c);
      case FreezeEvent(tags) => FreezeAgrees(w, tags, c);
      case UnfreezeEvent(tags) => UnfreezeAgrees(w, tags, c);
    }
  }

  lemma BuySized(w: World, key: Key, docId: int, env: BuyEnv)
    requires Sized(w)
    ensures Sized(Buy(w, key, docId, env).0)
  {
    hide M.AfterTake, M.AddOffer, M.Take, U.Has, U.Money, U.SetBalance, CountDocs, CanMove, MoveDoc;
    TakeKeepsMask(w.board, docId);
    if BuyRefusal(w, key, docId) == None {
      FoundIsTaken(w.board, docId);
      M.AddKeepsMask(M.AfterTake(w.board, docId), M.Take(w.board, docId).slot.offer, env.now, env.roll);
    }
  }

  lemma SellSized(w: World, key: Key, npcId: int, count: int, ids: seq<int>)
    requires Sized(w) && |ids| == MAX_INVEN_SIZE
    ensures Sized(Sell(w, key, npcId, count, ids).0)
  {
    hide Sell, N.AfterTake, N.Find;
    SoldScene(w, key, npcId, count, ids);
    NpcTakeKeepsSize(w.npcs, npcId);
  }

  lemma SpawnSized(w: World, docId: int, maskRead: bv32, tagRolls: seq<nat>, priceRoll: nat, name: Name, now: int, roll: nat)
    requires Sized(w) && |tagRolls| == 4
    ensures Sized(Spawn(w, docId, maskRead, tagRolls, priceRoll, name, now, roll))
  {
    hide M.AddOffer, M.HasRoom, PickTags, SpawnPrice;
    var tags := PickTags(maskRead, tagRolls);
    M.AddKeepsMask(w.board, M.Offer(docId, tags, SpawnPrice(tags, priceRoll), name), now, roll);
  }

  lemma SpawnNpcSized(w: World, npcId: int, maskRead: bv32, tagRolls: seq<nat>, bountyRoll: nat, now: int)
    requires Sized(w) && |tagRolls| == 4
    ensures Sized(SpawnNpc(w, npcId, maskRead, tagRolls, bountyRoll, now))
  {
    hide N.AddRequest, N.HasRoom, PickTags, NpcBounty;
    var tags := PickTags(maskRead, tagRolls);
    NpcAddKeepsSize(w.npcs, N.Request(npcId, tags, NpcBounty(tags, bountyRoll)), now);
  }

  lemma PayoffSized(w: World, key: Key, now: int)
    requires Sized(w)
    ensures Sized(Payoff(w, key, now).0)
  {
    hide U.Has, U.Money, Purge, U.SetBalance;
  }

  lemma StepSized(w: World, e: Event)
    requires Sized(w) && WellFormed(e)
    ensures Sized(Step(w, e).world)
  {
    hide Login, Buy, Sell, Dispose, Rumor, Payoff, CheckBankruptcy, Bankrupt, Burn, RoundReset, Spawn, SpawnNpc;
    hide M.Freeze, M.Unfreeze, M.AgeOut, N.AgeOut, SameScene, M.AgedIds;
    if FromClient(e) && e.key !in w.online {
    } else if Quiet(e) {
      QuietSame(w, e);
      SceneSized(w, Step(w, e).world);
    } else {
      match e
      case BuyEvent(key, docId, env) =>
        BuySized(w, key, docId, env);
        BankruptcySame(Buy(w, key, docId, env).0, key);
        SceneSized(Buy(w, key, docId, env).0, Step(w, e).world);
      case SellEvent(key, npcId, count, ids) => SellSized(w, key, npcId, count, ids);
      case PayoffEvent(key, now) => PayoffSized(w, key, now);
      case ResetEvent(now, rolls) => ResetSized(w, now, rolls);
      case SpawnEvent(docId, maskRead, tagRolls, priceRoll, name, now, roll) =>
        SpawnSized(w, docId, maskRead, tagRolls, priceRoll, name, now, roll);
      case SpawnNpcEvent(npcId, maskRead, tagRolls, bountyRoll, now) =>
        SpawnNpcSized(w, npcId, maskRead, tagRolls, bountyRoll, now);
      case AgeEvent(now) =>
        AgeKeepsMask(w.board, now);
        NpcAgeKeepsSize(w.npcs, now);
      case FreezeEvent(tags) => FreezeKeepsSize(w.board, tags);
      case UnfreezeEvent(tags) => FreezeKeepsSize(w.board, tags);
    }
  }

  lemma FreezeKeepsSize(b: M.Board, tags: bv32)
    ensures |M.Freeze(b, tags).slots| == |b.slots| && |M.Unfreeze(b, tags).slots| == |b.slots|
  {
  }

  lemma SceneSized(w: World, after: World)
    requires Sized(w) && SameScene(w, after)
    ensures Sized(after)
  {
  }

  lemma ResetSized(w: World, now: int, rolls: seq<nat>)
    requires |rolls| == 4
    ensures Sized(RoundReset(w, now, rolls))
  {
    hide RoundReset, M.Offers, N.Requests;
    ResetShape(w, now, rolls);
  }

  ghost predicate Playable(events: seq<Event>) {
    forall k :: 0 <= k < |events| ==> WellFormed(events[k])
  }

  /** A client agrees after every event of a run. */
  ghost predicate AgreesThroughout(w: World, events: seq<Event>, c: Copy)
    requires Sized(w) && Playable(events)
    decreases |events|
  {
    && Agree(w, c)
    && (events != [] ==>
          (StepSized(w, events[0]);
           AgreesThroughout(Step(w, events[0]).world, events[1..], Replay(c, Broadcast(w, events[0])))))
  }

  ghost predicate RightRun(w: World, events: seq<Event>, c: Copy)
    requires Sized(w) && Playable(events)
    decreases |events|
  {
    events != [] ==>
      && RightRemovals(w, events[0], c)
      && (StepSized(w, events[0]);
          RightRun(Step(w, events[0]).world, events[1..], Replay(c, Broadcast(w, events[0]))))
  }

  lemma PartedFrom(w: World, events: seq<Event>, c: Copy)
    requires Sized(w) && Playable(events) && !Agree(w, c)
    ensures !AgreesThroughout(w, events, c)
  {
    hide Step, Agree, Broadcast;
  }

  lemma {:induction false} RunAgreesIff(w: World, events: seq<Event>, c: Copy)
    requires Sized(w) && Playable(events) && Agree(w, c)
    ensures AgreesThroughout(w, events, c) <==> RightRun(w, events, c)
    decreases |events|
  {
    hide Step, Agree, Broadcast, RightRemovals;
    if events != [] {
      var next, copy := Step(w, events[0]).world, Replay(c, Broadcast(w, events[0]));
      StepSized(w, events[0]);
      StepAgreesIff(w, events[0], c);
      if Agree(next, copy) {
        RunAgreesIff(next, events[1..], copy);
      } else {
        PartedFrom(next, events[1..], copy);
      }
    }
  }

  lemma {:induction false} AfterSized(w: World, events: seq<Event>)
    requires Sized(w) && Playable(events)
    ensures Sized(After(w, events))
    decreases |events|
  {
    hide Step;
    if events != [] {
      StepSized(w, events[0]);
      AfterSized(Step(w, events[0]).world, events[1..]);
    }
  }

  /** Whatever ids are reused, a client that joins at any moment of any run agrees with the
      server throughout exactly when every purchase, sale and ageing pass removes from the
      copy the entries that it removes from the boards. */
  lemma EveryClientAgreesIff(now: int, rolls: seq<nat>, before: seq<Event>, after: seq<Event>, c: Copy)
    requires |rolls| == 4 && Playable(before) && Playable(after)
    ensures var joined := After(Boot(now, rolls), before);
      && Sized(joined)
      && (AgreesThroughout(joined, after, Replay(c, Welcome(joined))) <==> RightRun(joined, after, Replay(c, Welcome(joined))))
  {
    hide Sized, After, Welcome, Boot, Agree, Playable, AgreesThroughout, RightRun;
    BootReady(now, rolls);
    ReadyLog(Boot(now, rolls));
    AfterSized(Boot(now, rolls), before);
    var joined := After(Boot(now, rolls), before);
    WelcomeAgrees(joined, c);
    RunAgreesIff(joined, after, Replay(c, Welcome(joined)));
  }
}
