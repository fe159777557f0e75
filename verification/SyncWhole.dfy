// Board changes and packets apart against whole events: when no other thread comes between, the
// steps of an event leave on the board and in the copy what the event and its packets leave.
module SyncWhole {
  import opened Prelude
  import opened Client
  import opened Economy
  import opened RandomTags
  import S = Sync
  import R = SyncRaces
  import Masks
  import M = Market
  import N = NpcBoard

  /** The ids that the client shows. */
  function ShownIds(c: Copy): multiset<int> {
    multiset(S.DocIds(S.OffersOf(c.market)))
  }

  /** The same ids on the board and in the copy. */
  ghost predicate Same(s: R.State, w: World, c: Copy) {
    s.board == M.Ids(w.board) && s.copy == ShownIds(c)
  }

  predicate IsIdle(s: R.State, t: nat) {
    t < |s.threads| && s.threads[t].Idle?
  }

  // Single packets and slots.

  lemma ShowsOne(c: Copy, offer: M.Offer)
    ensures ShownIds(Apply(c, MarketSpawn(offer))) == R.Shows(ShownIds(c), offer.docId)
  {
    hide Masks.Meets;
    var ids := S.DocIds(S.OffersOf(c.market));
    assert |multiset(ids)| == |ids| == |c.market|;
    if |c.market| < UI_MAX_MARKET {
      assert S.DocIds(S.OffersOf(Apply(c, MarketSpawn(offer)).market)) == ids + [offer.docId];
    }
  }

  lemma DropsOne(c: Copy, id: int)
    ensures ShownIds(Apply(c, MarketRemove(id))) == ShownIds(c) - multiset{id}
  {
    hide Apply, Without, S.DocIds, S.OffersOf;
    var ids := S.DocIds(S.OffersOf(c.market));
    var i := FirstShown(c.market, id, 0);
    RemoveUnfolds(c, id);
    IdsAre(c.market, id);
    if i < |c.market| {
      S.WithoutOne(ids, i);
      IdsWithout(c.market, i);
      LessOne(multiset(Without(ids, i)), multiset(ids), id);
    }
  }

  lemma RemoveUnfolds(c: Copy, id: int)
    ensures var i := FirstShown(c.market, id, 0);
      Apply(c, MarketRemove(id)).market == if i < |c.market| then Without(c.market, i) else c.market
  {
  }

  lemma IdsAre(market: seq<Shown>, id: int)
    ensures var ids, i := S.DocIds(S.OffersOf(market)), FirstShown(market, id, 0);
      |ids| == |market| && if i < |market| then ids[i] == id else id !in multiset(ids)
  {
    var ids := S.DocIds(S.OffersOf(market));
    if FirstShown(market, id, 0) == |market| {
      assert id !in ids;
    }
  }

  lemma IdsWithout(market: seq<Shown>, i: nat)
    requires i < |market|
    ensures S.DocIds(S.OffersOf(Without(market, i))) == Without(S.DocIds(S.OffersOf(market)), i)
  {
  }

  lemma LessOne(less: multiset<int>, all: multiset<int>, id: int)
    requires less + multiset{id} == all
    ensures less == all - multiset{id}
  {
  }

  lemma FullBag<T>(cells: seq<Option<T>>)
    ensures |Bag(cells)| == Count(cells, (c: Option<T>) => c.Some?)
  {
    BagIsLive(cells);
    LiveCounts(cells);
  }

  lemma {:induction false} CountIsAll<T>(items: seq<T>, p: T -> bool)
    ensures Count(items, p) <= |items|
    ensures (exists i :: 0 <= i < |items| && !p(items[i])) ==> Count(items, p) < |items|
    ensures (forall i :: 0 <= i < |items| ==> p(items[i])) ==> Count(items, p) == |items|
  {
    if items != [] {
      CountIsAll(items[..|items| - 1], p);
      assert forall i :: 0 <= i < |items| - 1 ==> items[..|items| - 1][i] == items[i];
    }
  }

  /** There is a free slot exactly while the board has fewer offers than slots. */
  lemma RoomIff(b: M.Board)
    ensures M.HasRoom(b) <==> |M.Ids(b)| < |b.slots|
  {
    hide Bag, Count;
    var cells := M.IdCells(b.slots);
    FullBag(cells);
    CountIsAll(cells, (c: Option<int>) => c.Some?);
    var i := M.FirstFreeFrom(b.slots, 0);
    if i < |b.slots| {
      assert !cells[i].Some?;
    }
  }

  // Runs of one thread over the packets that it has to send.

  function RetractAll(s: R.State, t: nat, n: nat): R.State
    decreases n
  {
    if n == 0 then s else RetractAll(R.Step(s, R.Retract(t)), t, n - 1)
  }

  lemma {:induction false} RetractsAll(s: R.State, c: Copy, t: nat, ids: seq<int>)
    requires t < |s.threads| && s.threads[t] == R.Removed(ids) && s.copy == ShownIds(c)
    ensures RetractAll(s, t, |ids| + 1)
      == s.(threads := s.threads[t := R.Idle], copy := ShownIds(Replay(c, S.Removes(ids))))
    decreases |ids|
  {
    hide Apply, Replay, ShownIds;
    if ids == [] {
      ReplayOne(c, MarketRemove(0));
      assert S.Removes(ids) == [];
    } else {
      DropsOne(c, ids[0]);
      ReplayThen(c, [MarketRemove(ids[0])], S.Removes(ids[1..]));
      ReplayOne(c, MarketRemove(ids[0]));
      assert S.Removes(ids) == [MarketRemove(ids[0])] + S.Removes(ids[1..]);
      var next := R.Step(s, R.Retract(t));
      assert next == s.(threads := s.threads[t := R.Removed(ids[1..])], copy := s.copy - multiset{ids[0]});
      RetractsAll(next, Apply(c, MarketRemove(ids[0])), t, ids[1..]);
      assert next.threads[t := R.Idle] == s.threads[t := R.Idle];
    }
  }

  function WelcomeAll(s: R.State, t: nat, n: nat): R.State
    decreases n
  {
    if n == 0 then s else WelcomeAll(R.Step(s, R.Welcome(t)), t, n - 1)
  }

  lemma {:induction false} WelcomesAll(s: R.State, c: Copy, t: nat, slots: seq<M.MarketSlot>)
    requires t < |s.threads| && s.threads[t] == R.Welcoming(S.DocIds(S.SlotOffers(slots))) && s.copy == ShownIds(c)
    ensures WelcomeAll(s, t, |slots| + 1)
      == s.(threads := s.threads[t := R.Idle], copy := ShownIds(Replay(c, S.Spawns(slots))))
    decreases |slots|
  {
    hide Apply, Replay, ShownIds, R.Shows;
    var ids := S.DocIds(S.SlotOffers(slots));
    if slots == [] {
      ReplayOne(c, MarketRemove(0));
      assert S.Spawns(slots) == [];
    } else {
      ShowsOne(c, slots[0].offer);
      ReplayThen(c, [MarketSpawn(slots[0].offer)], S.Spawns(slots[1..]));
      ReplayOne(c, MarketSpawn(slots[0].offer));
      assert S.Spawns(slots) == [MarketSpawn(slots[0].offer)] + S.Spawns(slots[1..]);
      assert ids[1..] == S.DocIds(S.SlotOffers(slots[1..])) && ids[0] == slots[0].offer.docId;
      var next := R.Step(s, R.Welcome(t));
      assert next == s.(threads := s.threads[t := R.Welcoming(ids[1..])], copy := R.Shows(s.copy, ids[0]));
      WelcomesAll(next, Apply(c, MarketSpawn(slots[0].offer)), t, slots[1..]);
      assert next.threads[t := R.Idle] == s.threads[t := R.Idle];
    }
  }

  // Whole events.

  /** A spawn: list, announce. */
  lemma SpawnSeen(s: R.State, w: World, c: Copy, t: nat, docId: int, maskRead: bv32, tagRolls: seq<nat>, priceRoll: nat,
                  name: Name, now: int, roll: nat)
    requires S.Sized(w) && Same(s, w, c) && IsIdle(s, t) && |tagRolls| == 4 && PickTags(maskRead, tagRolls) != 0
    ensures var e := SpawnEvent(docId, maskRead, tagRolls, priceRoll, name, now, roll);
      var after := R.Step(R.Step(s, R.List(t, docId)), R.Announce(t));
      Same(after, Step(w, e).world, Replay(c, S.Broadcast(w, e))) && after.threads == s.threads
  {
    hide Bag, Masks.Meets, PickTags, M.HasRoom, Apply, SpawnPrice;
    var offer := M.Offer(docId, PickTags(maskRead, tagRolls), SpawnPrice(PickTags(maskRead, tagRolls), priceRoll), name);
    RoomIff(w.board);
    M.AddKeeps(w.board, offer, now, roll);
    ShowsOne(c, offer);
    ReplayOne(c, MarketSpawn(offer));
    assert s.threads[t := R.Listed(docId)][t := R.Idle] == s.threads;
  }

  /** A purchase: remove, retract. */
  lemma BuySeen(s: R.State, w: World, c: Copy, t: nat, key: Key, docId: int, env: BuyEnv)
    requires S.Sized(w) && Same(s, w, c) && IsIdle(s, t)
    requires key in w.online && Step(w, BuyEvent(key, docId, env)).reply.Bought?
    ensures var e := BuyEvent(key, docId, env);
      var after := RetractAll(R.Step(s, R.Remove(t, [docId])), t, 2);
      Same(after, Step(w, e).world, Replay(c, S.Broadcast(w, e))) && after.threads == s.threads
  {
    hide Bag, Apply, Replay, ShownIds, M.Find, M.Take, M.AfterTake, RetractAll;
    S.FoundIsTaken(w.board, docId);
    M.TakeKeeps(w.board, docId);
    RemovesAll(s, c, t, [docId], M.Ids(M.AfterTake(w.board, docId)));
    assert S.Removes([docId]) == [MarketRemove(docId)];
  }

  lemma RemovesAll(s: R.State, c: Copy, t: nat, ids: seq<int>, left: multiset<int>)
    requires IsIdle(s, t) && s.board == left + multiset(ids) && s.copy == ShownIds(c)
    ensures RetractAll(R.Step(s, R.Remove(t, ids)), t, |ids| + 1)
      == R.State(left, ShownIds(Replay(c, S.Removes(ids))), s.threads)
  {
    hide Replay, ShownIds, RetractAll;
    var removed := R.Step(s, R.Remove(t, ids));
    assert left == s.board - multiset(ids);
    assert removed == R.State(left, s.copy, s.threads[t := R.Removed(ids)]);
    RetractsAll(removed, c, t, ids);
    assert s.threads[t := R.Removed(ids)][t := R.Idle] == s.threads;
  }

  /** An ageing pass: remove, retract one by one. */
  lemma AgeSeen(s: R.State, w: World, c: Copy, t: nat, now: int)
    requires S.Sized(w) && Same(s, w, c) && IsIdle(s, t)
    ensures var e := AgeEvent(now);
      var ids := M.AgedIds(w.board, now);
      var after := RetractAll(R.Step(s, R.Remove(t, ids)), t, |ids| + 1);
      Same(after, Step(w, e).world, Replay(c, S.Broadcast(w, e))) && after.threads == s.threads
  {
    hide Bag, Replay, M.AgedIds, M.AgeOut, N.AgedIds, N.AgeOut, RetractAll, R.Step;
    var ids := M.AgedIds(w.board, now);
    var gone := S.Despawns(N.AgedIds(w.npcs, N.EVT_NPC_MAX_AGE_SEC, N.EVT_NPC_AGE_STEP_SEC, now));
    M.AgeKeeps(w.board, now);
    ReplayThen(c, gone, S.Removes(ids));
    MarketStays(c, gone);
    RemovesAll(s, Replay(c, gone), t, ids, M.Ids(M.AgeOut(w.board, now)));
  }

  /** Packets about requests and the goal do not touch the offers, nor do leaks. */
  lemma {:induction false} MarketStays(c: Copy, packets: seq<Packet>)
    requires forall i :: 0 <= i < |packets| ==> packets[i].NpcSpawn? || packets[i].NpcDespawn? || packets[i].NewsLeak? || packets[i].GoalUpdate?
    ensures S.OffersOf(Replay(c, packets).market) == S.OffersOf(c.market)
    decreases |packets|
  {
    hide Masks.Meets, Masks.Join, Masks.Drop;
    if packets != [] {
      var n := |packets| - 1;
      MarketStays(c, packets[..n]);
      OneStays(Replay(c, packets[..n]), packets[n]);
    }
  }

  lemma OneStays(c: Copy, p: Packet)
    requires p.NpcSpawn? || p.NpcDespawn? || p.NewsLeak? || p.GoalUpdate?
    ensures S.OffersOf(Apply(c, p).market) == S.OffersOf(c.market)
  {
    hide Masks.Meets, Masks.Join, Masks.Drop;
  }

  /** A login: greet, read the board, send its offers. */
  lemma WelcomeSeen(s: R.State, w: World, c: Copy, t: nat)
    requires S.Sized(w) && s.board == M.Ids(w.board) && IsIdle(s, t)
    ensures var slots := M.Snapshot(w.board);
      var read := R.Step(R.Step(s, R.Greet(t)), R.Snapshot(t, S.DocIds(S.SlotOffers(slots))));
      var after := WelcomeAll(read, t, |slots| + 1);
      Same(after, w, Replay(c, S.Welcome(w))) && after.threads == s.threads
  {
    hide Bag, Live, Replay, WelcomeAll, Masks.Meets, Masks.Join, Masks.Drop;
    var slots := M.Snapshot(w.board);
    var ids := S.DocIds(S.SlotOffers(slots));
    SnapshotIds(w.board);
    var blank := Apply(c, LoginOk(w.ladder.goal));
    var rest := S.NpcSpawns(N.Snapshot(w.npcs)) + (if w.board.mask != 0 then [NewsLeak(w.board.mask)] else []);
    assert S.Welcome(w) == [LoginOk(w.ladder.goal)] + (S.Spawns(slots) + rest);
    ReplayThen(c, [LoginOk(w.ladder.goal)], S.Spawns(slots) + rest);
    ReplayOne(c, LoginOk(w.ladder.goal));
    ReplayThen(blank, S.Spawns(slots), rest);
    MarketStays(Replay(blank, S.Spawns(slots)), rest);
    var read := R.Step(R.Step(s, R.Greet(t)), R.Snapshot(t, ids));
    assert S.DocIds(S.OffersOf(blank.market)) == [];
    assert read == R.State(s.board, multiset{}, s.threads[t := R.Greeting][t := R.Welcoming(ids)]);
    WelcomesAll(read, blank, t, slots);
    assert s.threads[t := R.Greeting][t := R.Welcoming(ids)][t := R.Idle] == s.threads;
  }

  lemma SnapshotIds(b: M.Board)
    ensures multiset(S.DocIds(S.SlotOffers(M.Snapshot(b)))) == M.Ids(b)
  {
    hide Bag, Live;
    S.SnapshotOffers(b.slots);
    S.LiveDocIds(M.Cells(b.slots), M.IdCells(b.slots));
    BagIsLive(M.IdCells(b.slots));
  }
}
