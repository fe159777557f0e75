// The packets that the server sends about the boards, the freeze mask and the goal, and
// the agreement of every client's copy with the server after every step.
module Sync {
  import opened Prelude
  import opened Masks
  import opened Client
  import opened Economy
  import opened EconomyLaws
  import opened RandomTags
  import opened Escape
  import opened UserDb
  import opened Sandbox
  import Effects
  import M = Market
  import N = NpcBoard

  // What is sent.

  function Spawns(slots: seq<M.MarketSlot>): (packets: seq<Packet>)
    ensures |packets| == |slots|
  {
    seq(|slots|, i requires 0 <= i < |slots| => MarketSpawn(slots[i].offer))
  }

  function NpcSpawns(requests: seq<N.Request>): (packets: seq<Packet>)
    ensures |packets| == |requests|
  {
    seq(|requests|, i requires 0 <= i < |requests| => NpcSpawn(requests[i]))
  }

  function Removes(ids: seq<int>): (packets: seq<Packet>)
    ensures |packets| == |ids|
  {
    seq(|ids|, i requires 0 <= i < |ids| => MarketRemove(ids[i]))
  }

  function Despawns(ids: seq<int>): (packets: seq<Packet>)
    ensures |packets| == |ids|
  {
    seq(|ids|, i requires 0 <= i < |ids| => NpcDespawn(ids[i]))
  }

  /** Both boards, one packet an entry. */
  function BothBoards(w: World): seq<Packet> {
    Spawns(M.Snapshot(w.board)) + NpcSpawns(N.Snapshot(w.npcs))
  }

  /** What a client is sent on its login alone. */
  function Welcome(w: World): seq<Packet> {
    [LoginOk(w.ladder.goal)] + (BothBoards(w) + (if w.board.mask != 0 then [NewsLeak(w.board.mask)] else []))
  }

  function SpawnNews(w: World, docId: int, maskRead: bv32, tagRolls: seq<nat>, priceRoll: nat, name: Name): seq<Packet>
    requires |tagRolls| == 4
  {
    var tags := PickTags(maskRead, tagRolls);
    if M.HasRoom(w.board) && tags != 0 then [MarketSpawn(M.Offer(docId, tags, SpawnPrice(tags, priceRoll), name))] else []
  }

  function SpawnNpcNews(w: World, npcId: int, maskRead: bv32, tagRolls: seq<nat>, bountyRoll: nat): seq<Packet>
    requires |tagRolls| == 4
  {
    var tags := PickTags(maskRead, tagRolls);
    if N.HasRoom(w.npcs) && tags != 0 then [NpcSpawn(N.Request(npcId, tags, NpcBounty(tags, bountyRoll)))] else []
  }

  function AgeNews(w: World, now: int): seq<Packet> {
    Despawns(N.AgedIds(w.npcs, N.EVT_NPC_MAX_AGE_SEC, N.EVT_NPC_AGE_STEP_SEC, now)) + Removes(M.AgedIds(w.board, now))
  }

  /** What every client is sent when an event has been handled. */
  function Broadcast(w: World, e: Event): seq<Packet>
    requires WellFormed(e) && |w.ladder.log| == MAX_SCORE_ESCAPED
  {
    var after := Step(w, e);
    if FromClient(e) && e.key !in w.online then []
    else
      match e
      case BuyEvent(_, docId, _) => if after.reply.Bought? then [MarketRemove(docId)] else []
      case SellEvent(_, npcId, _, _) => if after.reply.Sold? then [NpcDespawn(npcId)] else []
      case PayoffEvent(_, _) => if after.reply.Escaped? then [GoalUpdate(after.reply.next)] else []
      case ResetEvent(_, _) => [ResetMarker] + BothBoards(after.world)
      case SpawnEvent(docId, maskRead, tagRolls, priceRoll, name, _, _) =>
        SpawnNews(w, docId, maskRead, tagRolls, priceRoll, name)
      case SpawnNpcEvent(npcId, maskRead, tagRolls, bountyRoll, _) => SpawnNpcNews(w, npcId, maskRead, tagRolls, bountyRoll)
      case AgeEvent(now) => AgeNews(w, now)
      case FreezeEvent(tags) => [NewsLeak(tags)]
      case UnfreezeEvent(tags) => [NewsRecover(tags)]
      case _ => []
  }

  // Agreement.

  function OffersOf(market: seq<Shown>): (offers: seq<M.Offer>)
    ensures |offers| == |market|
  {
    seq(|market|, i requires 0 <= i < |market| => market[i].offer)
  }

  ghost predicate Flagged(c: Copy) {
    forall i :: 0 <= i < |c.market| ==> (c.market[i].frozen <==> Meets(c.market[i].offer.tags, c.mask))
  }

  ghost predicate SameMarket(b: M.Board, c: Copy) {
    multiset(OffersOf(c.market)) == M.Offers(b)
  }

  ghost predicate SameNpcs(slots: seq<N.NpcSlot>, c: Copy) {
    multiset(c.npcs) == N.Requests(slots)
  }

  /** The copy holds exactly the server's offers and requests, its mask and its goal, and
      marks exactly the offers whose tags the mask meets. */
  ghost predicate Agree(w: World, c: Copy) {
    SameMarket(w.board, c) && SameNpcs(w.npcs, c) && c.mask == w.board.mask && c.goal == w.ladder.goal && Flagged(c)
  }

  /** No two entries with one id. */
  ghost predicate OneOffer(offers: multiset<M.Offer>) {
    && (forall o :: offers[o] <= 1)
    && (forall o, p :: o in offers && p in offers && o.docId == p.docId ==> o == p)
  }

  ghost predicate OneRequest(requests: multiset<N.Request>) {
    && (forall r :: requests[r] <= 1)
    && (forall r, s :: r in requests && s in requests && r.npcId == s.npcId ==> r == s)
  }

  predicate Sized(w: World) {
    |w.board.slots| == MAX_MARKET_SLOTS && |w.npcs| == MAX_NPC_SLOTS && |w.ladder.log| == MAX_SCORE_ESCAPED
  }

  ghost predicate Ready(w: World) {
    Sized(w) && M.Consistent(w.board) && OneOffer(M.Offers(w.board)) && OneRequest(N.Requests(w.npcs))
  }

  /** A spawned entry has an id that its board does not have. */
  ghost predicate FreshIds(w: World, e: Event) {
    match e
    case SpawnEvent(docId, _, _, _, _, _, _) => forall o :: o in M.Offers(w.board) ==> o.docId != docId
    case SpawnNpcEvent(npcId, _, _, _, _) => forall r :: r in N.Requests(w.npcs) ==> r.npcId != npcId
    case _ => true
  }

  // Marks stay true whatever arrives.

  lemma ApplyFlags(c: Copy, p: Packet)
    requires Flagged(c)
    ensures Flagged(Apply(c, p))
  {
    hide Meets, Join, Drop;
    if p.NewsLeak? {
      forall i | 0 <= i < |c.market| ensures MarkedToo(c.market, Join(c.mask, p.frozenTags))[i].frozen
        <==> Meets(c.market[i].offer.tags, Join(c.mask, p.frozenTags))
      {
        MeetsJoin(c.market[i].offer.tags, c.mask, p.frozenTags);
      }
    }
    forall i ensures !Meets(i, 0) {
      MeetsZero(i);
    }
  }

  lemma {:induction false} ReplayFlags(c: Copy, packets: seq<Packet>)
    requires Flagged(c)
    ensures Flagged(Replay(c, packets))
    decreases |packets|
  {
    hide Apply, Flagged;
    if packets != [] {
      ReplayFlags(c, packets[..|packets| - 1]);
      ApplyFlags(Replay(c, packets[..|packets| - 1]), packets[|packets| - 1]);
    }
  }

  // Removing from the copy.

  lemma WithoutOne<T>(items: seq<T>, i: nat)
    requires i < |items|
    ensures multiset(Without(items, i)) + multiset{items[i]} == multiset(items)
  {
    var n := |items| - 1;
    assert items == items[..n] + [items[n]];
    if i < n {
      assert Without(items, i) == items[..n][i := items[n]];
    } else {
      assert Without(items, i) == items[..n];
    }
  }

  lemma FoundFirst(market: seq<Shown>, o: M.Offer) returns (i: nat)
    requires OneOffer(multiset(OffersOf(market))) && o in multiset(OffersOf(market))
    ensures i == FirstShown(market, o.docId, 0) < |market| && OffersOf(market)[i] == o
  {
    var offers := OffersOf(market);
    var k :| 0 <= k < |offers| && offers[k] == o;
    assert market[k].offer.docId == o.docId;
    i := FirstShown(market, o.docId, 0);
    assert offers[i] in multiset(offers);
  }

  lemma OffersWithout(market: seq<Shown>, i: nat)
    requires i < |market|
    ensures OffersOf(Without(market, i)) == Without(OffersOf(market), i)
  {
  }

  lemma RemoveOffer(c: Copy, o: M.Offer)
    requires OneOffer(multiset(OffersOf(c.market))) && o in multiset(OffersOf(c.market))
    ensures var after := Apply(c, MarketRemove(o.docId));
      && multiset(OffersOf(after.market)) + multiset{o} == multiset(OffersOf(c.market))
      && after.npcs == c.npcs && after.mask == c.mask && after.goal == c.goal
  {
    hide Meets, Join, Drop, Without;
    var offers := OffersOf(c.market);
    var i := FoundFirst(c.market, o);
    WithoutOne(offers, i);
    OffersWithout(c.market, i);
  }

  lemma RemoveRequest(c: Copy, r: N.Request)
    requires OneRequest(multiset(c.npcs)) && r in multiset(c.npcs)
    ensures var after := Apply(c, NpcDespawn(r.npcId));
      && multiset(after.npcs) + multiset{r} == multiset(c.npcs)
      && after.market == c.market && after.mask == c.mask && after.goal == c.goal
  {
    var k :| 0 <= k < |c.npcs| && c.npcs[k] == r;
    var i := FirstRequest(c.npcs, r.npcId, 0);
    assert c.npcs[i] in multiset(c.npcs);
    WithoutOne(c.npcs, i);
  }

  function DocIds(offers: seq<M.Offer>): (ids: seq<int>)
    ensures |ids| == |offers|
  {
    seq(|offers|, i requires 0 <= i < |offers| => offers[i].docId)
  }

  function NpcIds(requests: seq<N.Request>): (ids: seq<int>)
    ensures |ids| == |requests|
  {
    seq(|requests|, i requires 0 <= i < |requests| => requests[i].npcId)
  }

  lemma {:induction false} RemoveOffers(c: Copy, gone: seq<M.Offer>, kept: multiset<M.Offer>)
    requires OneOffer(multiset(OffersOf(c.market))) && multiset(OffersOf(c.market)) == kept + multiset(gone)
    ensures var after := Replay(c, Removes(DocIds(gone)));
      && multiset(OffersOf(after.market)) == kept
      && after.npcs == c.npcs && after.mask == c.mask && after.goal == c.goal
    decreases |gone|
  {
    hide Apply;
    var packets := Removes(DocIds(gone));
    if gone == [] {
      assert packets == [];
    } else {
      var n := |gone| - 1;
      var before := Replay(c, Removes(DocIds(gone[..n])));
      assert gone == gone[..n] + [gone[n]];
      RemoveOffers(c, gone[..n], kept + multiset{gone[n]});
      assert packets[..n] == Removes(DocIds(gone[..n])) && packets[n] == MarketRemove(gone[n].docId);
      OneOfSome(kept + multiset{gone[n]}, multiset(OffersOf(c.market)));
      RemoveOffer(before, gone[n]);
      SumCancels(multiset(OffersOf(Replay(c, packets).market)), kept, multiset{gone[n]});
    }
  }

  lemma {:induction false} RemoveRequests(c: Copy, gone: seq<N.Request>, kept: multiset<N.Request>)
    requires OneRequest(multiset(c.npcs)) && multiset(c.npcs) == kept + multiset(gone)
    ensures var after := Replay(c, Despawns(NpcIds(gone)));
      && multiset(after.npcs) == kept
      && after.market == c.market && after.mask == c.mask && after.goal == c.goal
    decreases |gone|
  {
    hide Apply;
    var packets := Despawns(NpcIds(gone));
    if gone == [] {
      assert packets == [];
    } else {
      var n := |gone| - 1;
      var before := Replay(c, Despawns(NpcIds(gone[..n])));
      assert gone == gone[..n] + [gone[n]];
      RemoveRequests(c, gone[..n], kept + multiset{gone[n]});
      assert packets[..n] == Despawns(NpcIds(gone[..n])) && packets[n] == NpcDespawn(gone[n].npcId);
      OneOfSomeRequests(kept + multiset{gone[n]}, multiset(c.npcs));
      RemoveRequest(before, gone[n]);
      SumCancels(multiset(Replay(c, packets).npcs), kept, multiset{gone[n]});
    }
  }

  lemma OneOfSome(some: multiset<M.Offer>, all: multiset<M.Offer>)
    requires OneOffer(all) && some <= all
    ensures OneOffer(some)
  {
  }

  lemma OneOfSomeRequests(some: multiset<N.Request>, all: multiset<N.Request>)
    requires OneRequest(all) && some <= all
    ensures OneRequest(some)
  {
  }

  // Adding to the copy.

  lemma {:induction false} BagFits<T>(cells: seq<Option<T>>)
    ensures |Bag(cells)| <= |cells|
  {
    BagIsLive(cells);
  }

  /** While the server's board has a slot more to fill, so has the copy. */
  lemma SpawnFits(b: M.Board, after: M.Board, offer: M.Offer, c: Copy)
    requires |after.slots| == MAX_MARKET_SLOTS && SameMarket(b, c) && M.Offers(after) == M.Offers(b) + multiset{offer}
    ensures |c.market| < UI_MAX_MARKET && SameMarket(after, Apply(c, MarketSpawn(offer)))
  {
    hide Bag, Meets;
    BagFits(M.Cells(after.slots));
    assert |multiset(OffersOf(c.market))| == |c.market|;
    assert OffersOf(Apply(c, MarketSpawn(offer)).market) == OffersOf(c.market) + [offer];
  }

  lemma NpcSpawnFits(slots: seq<N.NpcSlot>, after: seq<N.NpcSlot>, request: N.Request, c: Copy)
    requires |after| == MAX_NPC_SLOTS && SameNpcs(slots, c) && N.Requests(after) == N.Requests(slots) + multiset{request}
    ensures |c.npcs| < UI_MAX_NPC && SameNpcs(after, Apply(c, NpcSpawn(request)))
  {
    hide Bag;
    BagFits(N.Cells(after));
    assert |multiset(c.npcs)| == |c.npcs|;
  }

  // A whole board from scratch.

  function ShownAll(slots: seq<M.MarketSlot>, mask: bv32): (market: seq<Shown>)
    ensures |market| == |slots|
  {
    seq(|slots|, i requires 0 <= i < |slots| => Shown(slots[i].offer, Meets(slots[i].offer.tags, mask)))
  }

  lemma {:induction false} ReplaySpawns(c: Copy, slots: seq<M.MarketSlot>)
    requires c.market == [] && |slots| <= UI_MAX_MARKET
    ensures Replay(c, Spawns(slots)) == c.(market := ShownAll(slots, c.mask))
    decreases |slots|
  {
    hide Meets;
    if slots == [] {
      assert Spawns(slots) == [];
    } else {
      var n := |slots| - 1;
      ReplaySpawns(c, slots[..n]);
      assert Spawns(slots)[..n] == Spawns(slots[..n]);
      assert ShownAll(slots, c.mask) == ShownAll(slots[..n], c.mask) + [Shown(slots[n].offer, Meets(slots[n].offer.tags, c.mask))];
    }
  }

  lemma {:induction false} ReplayNpcSpawns(c: Copy, requests: seq<N.Request>)
    requires c.npcs == [] && |requests| <= UI_MAX_NPC
    ensures Replay(c, NpcSpawns(requests)) == c.(npcs := requests)
    decreases |requests|
  {
    if requests == [] {
      assert NpcSpawns(requests) == [];
    } else {
      var n := |requests| - 1;
      ReplayNpcSpawns(c, requests[..n]);
      assert NpcSpawns(requests)[..n] == NpcSpawns(requests[..n]);
      assert requests == requests[..n] + [requests[n]];
    }
  }

  function SlotOffers(slots: seq<M.MarketSlot>): (offers: seq<M.Offer>)
    ensures |offers| == |slots|
  {
    seq(|slots|, i requires 0 <= i < |slots| => slots[i].offer)
  }

  /** A snapshot lists exactly the offers on the board. */
  lemma {:induction false} SnapshotOffers(slots: seq<M.MarketSlot>)
    ensures SlotOffers(Live(M.ActiveCells(slots))) == Live(M.Cells(slots))
  {
    if slots != [] {
      var n := |slots| - 1;
      SnapshotOffers(slots[..n]);
      assert M.ActiveCells(slots)[..n] == M.ActiveCells(slots[..n]);
      assert M.Cells(slots)[..n] == M.Cells(slots[..n]);
    }
  }

  lemma BoardsFromScratch(w: World, c: Copy)
    requires c.market == [] && c.npcs == [] && |w.board.slots| == MAX_MARKET_SLOTS && |w.npcs| == MAX_NPC_SLOTS
    ensures var after := Replay(c, BothBoards(w));
      && SameMarket(w.board, after) && SameNpcs(w.npcs, after) && after.mask == c.mask && after.goal == c.goal && Flagged(after)
  {
    hide Meets, Bag, Live;
    var slots, requests := M.Snapshot(w.board), N.Snapshot(w.npcs);
    ReplayThen(c, Spawns(slots), NpcSpawns(requests));
    ReplaySpawns(c, slots);
    ReplayNpcSpawns(Replay(c, Spawns(slots)), requests);
    SnapshotOffers(w.board.slots);
    BagIsLive(M.Cells(w.board.slots));
    BagIsLive(N.Cells(w.npcs));
    assert OffersOf(ShownAll(slots, c.mask)) == SlotOffers(slots);
  }

  /** A client that logs in at any moment agrees with the server at once. */
  lemma WelcomeAgrees(w: World, c: Copy)
    requires Sized(w)
    ensures Agree(w, Replay(c, Welcome(w)))
  {
    hide Meets, Join, BothBoards, M.Consistent, SameMarket, SameNpcs;
    var blank := Copy([], [], 0, w.ladder.goal);
    ReplayThen(c, [LoginOk(w.ladder.goal)], BothBoards(w) + (if w.board.mask != 0 then [NewsLeak(w.board.mask)] else []));
    ReplayOne(c, LoginOk(w.ladder.goal));
    BoardsFromScratch(w, blank);
    var shown := Replay(blank, BothBoards(w));
    if w.board.mask != 0 {
      ReplayThen(blank, BothBoards(w), [NewsLeak(w.board.mask)]);
      ReplayOne(shown, NewsLeak(w.board.mask));
      LeakOnClear(w, shown);
    } else {
      assert BothBoards(w) + [] == BothBoards(w);
    }
  }

  lemma LeakKeepsOffers(c: Copy, tags: bv32)
    ensures OffersOf(Apply(c, NewsLeak(tags)).market) == OffersOf(c.market)
    ensures OffersOf(Apply(c, NewsRecover(tags)).market) == OffersOf(c.market)
  {
  }

  lemma LeakOnClear(w: World, c: Copy)
    requires SameMarket(w.board, c) && SameNpcs(w.npcs, c) && c.mask == 0 && c.goal == w.ladder.goal && Flagged(c)
    ensures Agree(w, Apply(c, NewsLeak(w.board.mask)))
  {
    hide Meets, M.Offers, N.Requests;
    LeakKeepsOffers(c, w.board.mask);
    ApplyFlags(c, NewsLeak(w.board.mask));
    JoinNone(w.board.mask);
  }

  // Ageing.

  function GoneCells(slots: seq<M.MarketSlot>, now: int): (cells: seq<Option<M.Offer>>)
    ensures |cells| == |slots|
  {
    seq(|slots|, i requires 0 <= i < |slots| => if M.Expired(slots[i], now) then Some(slots[i].offer) else None)
  }

  function GoneNpcCells(slots: seq<N.NpcSlot>, now: int): (cells: seq<Option<N.Request>>)
    ensures |cells| == |slots|
  {
    seq(|slots|, i requires 0 <= i < |slots| =>
      if N.Expired(slots[i], N.EVT_NPC_MAX_AGE_SEC, N.EVT_NPC_AGE_STEP_SEC, now) then Some(slots[i].request) else None)
  }

  lemma {:induction false} LiveDocIds(cells: seq<Option<M.Offer>>, ids: seq<Option<int>>)
    requires |cells| == |ids|
    requires forall i :: 0 <= i < |cells| ==> ids[i] == if cells[i].Some? then Some(cells[i].value.docId) else None
    ensures DocIds(Live(cells)) == Live(ids)
  {
    if cells != [] {
      var n := |cells| - 1;
      LiveDocIds(cells[..n], ids[..n]);
    }
  }

  lemma {:induction false} LiveNpcIds(cells: seq<Option<N.Request>>, ids: seq<Option<int>>)
    requires |cells| == |ids|
    requires forall i :: 0 <= i < |cells| ==> ids[i] == if cells[i].Some? then Some(cells[i].value.npcId) else None
    ensures NpcIds(Live(cells)) == Live(ids)
  {
    if cells != [] {
      var n := |cells| - 1;
      LiveNpcIds(cells[..n], ids[..n]);
    }
  }

  lemma AgedOffers(b: M.Board, now: int) returns (gone: seq<M.Offer>)
    ensures DocIds(gone) == M.AgedIds(b, now) && M.Offers(b) == M.Offers(M.AgeOut(b, now)) + multiset(gone)
  {
    hide Bag, Live;
    var cells := GoneCells(b.slots, now);
    gone := Live(cells);
    LiveDocIds(cells, M.ExpiredCells(b.slots, now));
    BagDeal(M.Cells(b.slots), M.Cells(M.AgeOut(b, now).slots), cells);
    BagIsLive(cells);
  }

  lemma AgedRequests(slots: seq<N.NpcSlot>, now: int) returns (gone: seq<N.Request>)
    ensures NpcIds(gone) == N.AgedIds(slots, N.EVT_NPC_MAX_AGE_SEC, N.EVT_NPC_AGE_STEP_SEC, now)
    ensures N.Requests(slots) == N.Requests(N.AgeOut(slots, N.EVT_NPC_MAX_AGE_SEC, N.EVT_NPC_AGE_STEP_SEC, now)) + multiset(gone)
  {
    hide Bag, Live, N.MaxAge;
    var cells := GoneNpcCells(slots, now);
    gone := Live(cells);
    LiveNpcIds(cells, N.ExpiredCells(slots, N.EVT_NPC_MAX_AGE_SEC, N.EVT_NPC_AGE_STEP_SEC, now));
    BagDeal(N.Cells(slots), N.Cells(N.AgeOut(slots, N.EVT_NPC_MAX_AGE_SEC, N.EVT_NPC_AGE_STEP_SEC, now)), cells);
    BagIsLive(cells);
  }

  lemma AgeAgrees(w: World, now: int, c: Copy)
    requires Ready(w) && Agree(w, c)
    ensures Agree(AgeBoards(w, now), Replay(c, AgeNews(w, now)))
  {
    hide M.Offers, N.Requests, M.AgedIds, N.AgedIds, M.AgeOut, N.AgeOut, Flagged, M.Consistent, OneOffer, OneRequest, Apply;
    var offers := AgedOffers(w.board, now);
    var requests := AgedRequests(w.npcs, now);
    AgeKeepsMask(w.board, now);
    var despawns, removes := Despawns(NpcIds(requests)), Removes(DocIds(offers));
    ReplayThen(c, despawns, removes);
    RemoveRequests(c, requests, N.Requests(AgeBoards(w, now).npcs));
    RemoveOffers(Replay(c, despawns), offers, M.Offers(M.AgeOut(w.board, now)));
    ReplayFlags(c, despawns + removes);
  }

  lemma AgeKeepsMask(b: M.Board, now: int)
    ensures M.AgeOut(b, now).mask == b.mask && |M.AgeOut(b, now).slots| == |b.slots|
  {
  }

  // The other events.

  lemma Unseen(w: World, after: World, c: Copy)
    requires Agree(w, c) && SameMarket(after.board, c) && SameNpcs(after.npcs, c)
    requires after.board.mask == w.board.mask && after.ladder.goal == w.ladder.goal
    ensures Agree(after, Replay(c, []))
  {
    hide SameMarket, SameNpcs, Flagged;
  }

  /** A refused purchase, put-back included, leaves the offers as they were. */
  lemma RefusalAgrees(w: World, key: Key, docId: int, env: BuyEnv, c: Copy)
    requires Agree(w, c) && !Buy(w, key, docId, env).1.Bought?
    ensures Agree(Buy(w, key, docId, env).0, c)
  {
    hide M.Offers, N.Requests, M.AfterTake, M.AddOffer, M.Take, Flagged, M.Consistent, Has, Money, CountDocs, CanMove, MoveDoc;
    if BuyRefusal(w, key, docId) == None {
      FoundIsTaken(w.board, docId);
      TakeKeepsMask(w.board, docId);
      ReAdd(w.board, docId, env.now, env.roll);
      M.AddKeepsMask(M.AfterTake(w.board, docId), M.Take(w.board, docId).slot.offer, env.now, env.roll);
    }
  }

  /** What a purchase does to the boards. */
  lemma BoughtScene(w: World, key: Key, docId: int, env: BuyEnv)
    requires Buy(w, key, docId, env).1.Bought?
    ensures M.Take(w.board, docId).Taken? && SameScene(w.(board := M.AfterTake(w.board, docId)), Buy(w, key, docId, env).0)
  {
    hide M.AfterTake, M.AddOffer, M.Take, Has, Money, SetBalance, CountDocs, CanMove, MoveDoc;
    FoundIsTaken(w.board, docId);
  }

  lemma BuyAgrees(w: World, key: Key, docId: int, env: BuyEnv, c: Copy)
    requires Ready(w) && Agree(w, c)
    ensures var (after, reply) := Buy(w, key, docId, env);
      Agree(after, Replay(c, if reply.Bought? then [MarketRemove(docId)] else []))
  {
    hide M.Offers, N.Requests, M.AfterTake, M.Take, Flagged, M.Consistent, Apply, Buy, OneOffer;
    ReplayNone(c);
    if Buy(w, key, docId, env).1.Bought? {
      BoughtScene(w, key, docId, env);
      TakeKeepsMask(w.board, docId);
      M.TakeKeeps(w.board, docId);
      var offer := M.Take(w.board, docId).slot.offer;
      ReplayOne(c, MarketRemove(docId));
      RemoveOffer(c, offer);
      SumCancels(multiset(OffersOf(Apply(c, MarketRemove(docId)).market)), M.Offers(M.AfterTake(w.board, docId)), multiset{offer});
      ApplyFlags(c, MarketRemove(docId));
    } else {
      RefusalAgrees(w, key, docId, env, c);
    }
  }

  lemma FoundIsTaken(b: M.Board, docId: int)
    requires M.Find(b, docId).Some? && !M.Find(b, docId).value.frozen
    ensures M.Take(b, docId).Taken? && M.Take(b, docId).slot == M.Find(b, docId).value
  {
  }

  lemma TakeKeepsMask(b: M.Board, docId: int)
    ensures M.AfterTake(b, docId).mask == b.mask && |M.AfterTake(b, docId).slots| == |b.slots|
  {
  }

  lemma SellAgrees(w: World, key: Key, npcId: int, count: int, ids: seq<int>, c: Copy)
    requires Ready(w) && Agree(w, c) && |ids| == MAX_INVEN_SIZE
    ensures var (after, reply) := Sell(w, key, npcId, count, ids);
      Agree(after, Replay(c, if reply.Sold? then [NpcDespawn(npcId)] else []))
  {
    hide M.Offers, N.Requests, N.AfterTake, N.Find, Flagged, M.Consistent, Apply, Has, Money, SortIds, CheckDocs, DropDocs, OneOffer, OneRequest;
    if Sell(w, key, npcId, count, ids).1.Sold? {
      N.TakeKeeps(w.npcs, npcId);
      var request := N.Find(w.npcs, npcId).value;
      ReplayOne(c, NpcDespawn(npcId));
      RemoveRequest(c, request);
      SumCancels(multiset(Apply(c, NpcDespawn(npcId)).npcs), N.Requests(N.AfterTake(w.npcs, npcId)), multiset{request});
      ApplyFlags(c, NpcDespawn(npcId));
    } else {
      Unseen(w, Sell(w, key, npcId, count, ids).0, c);
    }
  }

  lemma PayoffAgrees(w: World, key: Key, now: int, c: Copy)
    requires Sized(w) && Agree(w, c)
    ensures var (after, reply) := Payoff(w, key, now);
      Agree(after, Replay(c, if reply.Escaped? then [GoalUpdate(reply.next)] else []))
  {
    hide M.Offers, N.Requests, M.Consistent, Has, Money, Purge, Climb, SameMarket, SameNpcs, OneOffer, OneRequest;
    var (after, reply) := Payoff(w, key, now);
    if reply.Escaped? {
      ReplayOne(c, GoalUpdate(reply.next));
      GoalSeen(after.board, after.npcs, c, reply.next);
    } else {
      Unseen(w, after, c);
    }
  }

  lemma GoalSeen(b: M.Board, slots: seq<N.NpcSlot>, c: Copy, goal: int)
    ensures SameMarket(b, c) <==> SameMarket(b, Apply(c, GoalUpdate(goal)))
    ensures SameNpcs(slots, c) <==> SameNpcs(slots, Apply(c, GoalUpdate(goal)))
    ensures Flagged(c) <==> Flagged(Apply(c, GoalUpdate(goal)))
  {
    hide Meets;
  }

  lemma FreezeAgrees(w: World, tags: bv32, c: Copy)
    requires Agree(w, c)
    ensures Agree(w.(board := M.Freeze(w.board, tags)), Replay(c, [NewsLeak(tags)]))
  {
    hide M.Offers, Meets, M.Consistent, N.Requests, Flagged;
    M.FreezeKeeps(w.board, tags);
    ReplayOne(c, NewsLeak(tags));
    LeakKeepsOffers(c, tags);
    ApplyFlags(c, NewsLeak(tags));
  }

  lemma UnfreezeAgrees(w: World, tags: bv32, c: Copy)
    requires Agree(w, c)
    ensures Agree(w.(board := M.Unfreeze(w.board, tags)), Replay(c, [NewsRecover(tags)]))
  {
    hide M.Offers, Meets, M.Consistent, N.Requests, Flagged;
    M.UnfreezeKeeps(w.board, tags);
    ReplayOne(c, NewsRecover(tags));
    LeakKeepsOffers(c, tags);
    ApplyFlags(c, NewsRecover(tags));
  }

  lemma SpawnAgrees(w: World, docId: int, maskRead: bv32, tagRolls: seq<nat>, priceRoll: nat, name: Name, now: int, roll: nat, c: Copy)
    requires Sized(w) && Agree(w, c) && |tagRolls| == 4
    ensures Agree(Spawn(w, docId, maskRead, tagRolls, priceRoll, name, now, roll),
                  Replay(c, SpawnNews(w, docId, maskRead, tagRolls, priceRoll, name)))
  {
    hide M.Offers, N.Requests, M.AddOffer, M.HasRoom, M.Consistent, Apply, PickTags, OneOffer, OneRequest, SpawnPrice, Agree;
    var tags := PickTags(maskRead, tagRolls);
    if M.HasRoom(w.board) && tags != 0 {
      var doc := M.Offer(docId, tags, SpawnPrice(tags, priceRoll), name);
      M.AddKeeps(w.board, doc, now, roll);
      M.AddKeepsMask(w.board, doc, now, roll);
      SpawnSeen(w, M.AddOffer(w.board, doc, now, roll), doc, c);
      ReplayOne(c, MarketSpawn(doc));
      var listed := w.(board := M.AddOffer(w.board, doc, now, roll));
      SceneAgrees(listed, Spawn(w, docId, maskRead, tagRolls, priceRoll, name, now, roll), Apply(c, MarketSpawn(doc)));
    } else {
      ReplayNone(c);
    }
  }

  lemma SpawnSeen(w: World, board: M.Board, doc: M.Offer, c: Copy)
    requires Agree(w, c) && |board.slots| == MAX_MARKET_SLOTS && board.mask == w.board.mask
    requires M.Offers(board) == M.Offers(w.board) + multiset{doc}
    ensures Agree(w.(board := board), Apply(c, MarketSpawn(doc)))
  {
    hide M.Offers, Apply, Flagged, N.Requests;
    SpawnFits(w.board, board, doc, c);
    SpawnTouches(c, doc);
    ApplyFlags(c, MarketSpawn(doc));
  }

  lemma NpcSpawnSeen(w: World, npcs: seq<N.NpcSlot>, request: N.Request, c: Copy)
    requires Agree(w, c) && |npcs| == MAX_NPC_SLOTS && N.Requests(npcs) == N.Requests(w.npcs) + multiset{request}
    ensures Agree(w.(npcs := npcs), Apply(c, NpcSpawn(request)))
  {
    hide M.Offers, Apply, Flagged, N.Requests;
    NpcSpawnFits(w.npcs, npcs, request, c);
    NpcSpawnTouches(c, request);
    ApplyFlags(c, NpcSpawn(request));
  }

  lemma SpawnTouches(c: Copy, doc: M.Offer)
    ensures var after := Apply(c, MarketSpawn(doc)); after.npcs == c.npcs && after.mask == c.mask && after.goal == c.goal
  {
  }

  lemma SpawnNpcAgrees(w: World, npcId: int, maskRead: bv32, tagRolls: seq<nat>, bountyRoll: nat, now: int, c: Copy)
    requires Sized(w) && Agree(w, c) && |tagRolls| == 4
    ensures Agree(SpawnNpc(w, npcId, maskRead, tagRolls, bountyRoll, now),
                  Replay(c, SpawnNpcNews(w, npcId, maskRead, tagRolls, bountyRoll)))
  {
    hide M.Offers, N.Requests, N.HasRoom, N.AddRequest, M.Consistent, Apply, PickTags, OneOffer, OneRequest, NpcBounty, Agree;
    var tags := PickTags(maskRead, tagRolls);
    var request := N.Request(npcId, tags, NpcBounty(tags, bountyRoll));
    N.AddKeeps(w.npcs, request, now);
    ReplayNone(c);
    if N.HasRoom(w.npcs) && tags != 0 {
      NpcAddKeepsSize(w.npcs, request, now);
      NpcSpawnSeen(w, N.AddRequest(w.npcs, request, now), request, c);
      ReplayOne(c, NpcSpawn(request));
    } else if tags != 0 {
      Effects.FullNpcs(w.npcs, request, now);
      assert w.(npcs := w.npcs) == w;
    }
  }

  lemma NpcAddKeepsSize(slots: seq<N.NpcSlot>, request: N.Request, now: int)
    ensures |N.AddRequest(slots, request, now)| == |slots|
  {
  }

  lemma NpcSpawnTouches(c: Copy, request: N.Request)
    ensures var after := Apply(c, NpcSpawn(request)); after.market == c.market && after.mask == c.mask && after.goal == c.goal
  {
  }

  // The reset.

  lemma {:induction false} SeedDocsShape(w: World, docs: seq<M.Offer>, now: int, rolls: seq<nat>)
    requires |rolls| == |docs|
    ensures var after := SeedDocs(w, docs, now, rolls);
      && |after.board.slots| == |w.board.slots| && after.board.mask == w.board.mask
      && after.npcs == w.npcs && after.ladder == w.ladder
      && M.Offers(after.board) <= M.Offers(w.board) + multiset(docs)
    decreases |docs|
  {
    hide M.Offers, M.AddOffer, M.HasRoom;
    if docs != [] {
      var next := w.(files := w.files.(master := w.files.master[docs[0].docId := docs[0]]),
                     board := M.AddOffer(w.board, docs[0], now, rolls[0]));
      M.AddKeeps(w.board, docs[0], now, rolls[0]);
      M.AddKeepsMask(w.board, docs[0], now, rolls[0]);
      SeedDocsShape(next, docs[1..], now, rolls[1..]);
      assert docs == [docs[0]] + docs[1..];
    }
  }

  lemma ResetShape(w: World, now: int, rolls: seq<nat>)
    requires |rolls| == 4
    ensures var after := RoundReset(w, now, rolls);
      && |after.board.slots| == MAX_MARKET_SLOTS && after.board.mask == 0 && |after.npcs| == MAX_NPC_SLOTS
      && after.ladder == NewLadder()
      && M.Offers(after.board) <= multiset(SEED_DOCS) && N.Requests(after.npcs) <= multiset(SEED_NPCS)
  {
    hide M.Offers, N.Requests, SeedDocs, N.AddRequest, NewLadder, PurgeAll, Reset;
    var clean := w.(files := PurgeAll(w.files), records := Reset(w.records, INITIAL_MONEY), board := M.EmptyBoard(),
                    npcs := N.EmptyNpcs(), ladder := NewLadder(), rumorUntil := 0);
    SeedDocsShape(clean, SEED_DOCS, now, rolls);
    M.EmptyIsEmpty();
    N.EmptyIsEmpty();
    var one := N.AddRequest(N.EmptyNpcs(), SEED_NPCS[0], now);
    N.AddKeeps(N.EmptyNpcs(), SEED_NPCS[0], now);
    N.AddKeeps(one, SEED_NPCS[1], now);
    NpcAddKeepsSize(N.EmptyNpcs(), SEED_NPCS[0], now);
    NpcAddKeepsSize(one, SEED_NPCS[1], now);
    assert SEED_NPCS == [SEED_NPCS[0]] + [SEED_NPCS[1]];
  }

  lemma ResetAgrees(w: World, now: int, rolls: seq<nat>, c: Copy)
    requires |rolls| == 4
    ensures Agree(RoundReset(w, now, rolls), Replay(c, [ResetMarker] + BothBoards(RoundReset(w, now, rolls))))
  {
    hide M.Offers, N.Requests, RoundReset, BothBoards, SameMarket, SameNpcs, Flagged;
    ResetShape(w, now, rolls);
    var after := RoundReset(w, now, rolls);
    ReplayThen(c, [ResetMarker], BothBoards(after));
    ReplayOne(c, ResetMarker);
    BoardsFromScratch(after, Copy([], [], 0, GOAL_MONEY));
  }

  // Every event.

  ghost predicate SameScene(w: World, after: World) {
    after.board == w.board && after.npcs == w.npcs && after.ladder == w.ladder
  }

  predicate Quiet(e: Event) {
    e.LoginEvent? || e.LeaveEvent? || e.DisposeEvent? || e.RumorEvent? || e.BurnEvent?
  }

  lemma BankruptcySame(w: World, key: Key)
    ensures SameScene(w, CheckBankruptcy(w, key))
  {
    hide Has, Money, SetBalance, CountDocs;
  }

  lemma QuietSame(w: World, e: Event)
    requires WellFormed(e) && |w.ladder.log| == MAX_SCORE_ESCAPED && Quiet(e)
    ensures SameScene(w, Step(w, e).world)
  {
    hide Has, Money, SetBalance, CheckBankruptcy, Bankrupt, Purge, DropDocs, Held, AddUser;
    if e.RumorEvent? {
      BankruptcySame(Rumor(w, e.key, e.now).0, e.key);
    }
  }

  lemma SceneAgrees(w: World, after: World, c: Copy)
    requires Agree(w, c) && SameScene(w, after)
    ensures Agree(after, c)
  {
    hide SameMarket, SameNpcs, Flagged;
  }

  lemma ReadyLog(w: World)
    requires Ready(w)
    ensures Sized(w)
  {
  }

  lemma ReplayNone(c: Copy)
    ensures Replay(c, []) == c
  {
  }

  /** Whatever the server does, a client that agreed before and replays the packets sent
      agrees afterwards. */
  lemma StepAgrees(w: World, e: Event, c: Copy)
    requires Ready(w) && WellFormed(e) && Agree(w, c) && |w.ladder.log| == MAX_SCORE_ESCAPED
    ensures Agree(Step(w, e).world, Replay(c, Broadcast(w, e)))
  {
    hide Login, Buy, Sell, Dispose, Rumor, Payoff, CheckBankruptcy, Bankrupt, Burn, RoundReset, Spawn, SpawnNpc, AgeBoards;
    hide Agree, Ready, BothBoards, M.Freeze, M.Unfreeze, SpawnNews, SpawnNpcNews, AgeNews, SameScene;
    ReadyLog(w);
    ReplayNone(c);
    if FromClient(e) && e.key !in w.online {
    } else if Quiet(e) {
      QuietSame(w, e);
      SceneAgrees(w, Step(w, e).world, c);
    } else {
      match e
      case BuyEvent(key, docId, env) =>
        BuyAgrees(w, key, docId, env, c);
        BankruptcySame(Buy(w, key, docId, env).0, key);
        SceneAgrees(Buy(w, key, docId, env).0, Step(w, e).world, Replay(c, Broadcast(w, e)));
      case SellEvent(key, npcId, count, ids) => SellAgrees(w, key, npcId, count, ids, c);
      case PayoffEvent(key, now) => PayoffAgrees(w, key, now, c);
      case ResetEvent(now, rolls) => ResetAgrees(w, now, rolls, c);
      case SpawnEvent(docId, maskRead, tagRolls, priceRoll, name, now, roll) =>
        SpawnAgrees(w, docId, maskRead, tagRolls, priceRoll, name, now, roll, c);
      case SpawnNpcEvent(npcId, maskRead, tagRolls, bountyRoll, now) =>
        SpawnNpcAgrees(w, npcId, maskRead, tagRolls, bountyRoll, now, c);
      case AgeEvent(now) => AgeAgrees(w, now, c);
      case FreezeEvent(tags) => FreezeAgrees(w, tags, c);
      case UnfreezeEvent(tags) => UnfreezeAgrees(w, tags, c);
    }
  }

  // What every step keeps on the server's side.

  lemma OneMore(offers: multiset<M.Offer>, o: M.Offer)
    requires OneOffer(offers) && forall p :: p in offers ==> p.docId != o.docId
    ensures OneOffer(offers + multiset{o})
  {
  }

  lemma OneMoreRequest(requests: multiset<N.Request>, r: N.Request)
    requires OneRequest(requests) && forall s :: s in requests ==> s.npcId != r.npcId
    ensures OneRequest(requests + multiset{r})
  {
  }

  lemma {:induction false} DocsAreOne(docs: seq<M.Offer>)
    requires forall i, j :: 0 <= i < j < |docs| ==> docs[i].docId != docs[j].docId
    ensures OneOffer(multiset(docs))
  {
    if docs != [] {
      var n := |docs| - 1;
      DocsAreOne(docs[..n]);
      assert docs == docs[..n] + [docs[n]];
      OneMore(multiset(docs[..n]), docs[n]);
    }
  }

  lemma SeedsAreOne()
    ensures OneOffer(multiset(SEED_DOCS)) && OneRequest(multiset(SEED_NPCS))
  {
    hide Join, OneOffer, OneRequest;
    DocsAreOne(SEED_DOCS);
    NpcSeedsAreOne(SEED_NPCS);
  }

  lemma NpcSeedsAreOne(npcs: seq<N.Request>)
    requires |npcs| == 2 && npcs[0].npcId != npcs[1].npcId
    ensures OneRequest(multiset(npcs))
  {
    assert npcs == [npcs[0]] + [npcs[1]];
    OneMoreRequest(multiset{}, npcs[0]);
    OneMoreRequest(multiset{npcs[0]}, npcs[1]);
  }

  /** Boards that lost entries, or moved them, are still ready. */
  lemma FewerReady(w: World, after: World)
    requires Ready(w) && |after.board.slots| == |w.board.slots| && |after.npcs| == |w.npcs| && |after.ladder.log| == MAX_SCORE_ESCAPED
    requires M.Consistent(after.board)
    requires M.Offers(after.board) <= M.Offers(w.board) && N.Requests(after.npcs) <= N.Requests(w.npcs)
    ensures Ready(after)
  {
    hide M.Offers, N.Requests, M.Consistent, OneOffer, OneRequest;
    OneOfSome(M.Offers(after.board), M.Offers(w.board));
    OneOfSomeRequests(N.Requests(after.npcs), N.Requests(w.npcs));
  }

  lemma BuyReady(w: World, key: Key, docId: int, env: BuyEnv)
    requires Ready(w)
    ensures Ready(Buy(w, key, docId, env).0)
    ensures M.Offers(Buy(w, key, docId, env).0.board) <= M.Offers(w.board) && Buy(w, key, docId, env).0.npcs == w.npcs
  {
    hide M.Offers, N.Requests, M.AfterTake, M.AddOffer, M.Take, M.Consistent, Has, Money, CountDocs, CanMove, MoveDoc, OneOffer, OneRequest, Ready;
    ReadyParts(w);
    TakeKeepsMask(w.board, docId);
    if BuyRefusal(w, key, docId) == None {
      FoundIsTaken(w.board, docId);
      M.TakeKeeps(w.board, docId);
      ReAdd(w.board, docId, env.now, env.roll);
      var offer := M.Take(w.board, docId).slot.offer;
      M.AddKeeps(M.AfterTake(w.board, docId), offer, env.now, env.roll);
      M.AddKeepsMask(M.AfterTake(w.board, docId), offer, env.now, env.roll);
    }
    FewerReady(w, Buy(w, key, docId, env).0);
  }

  lemma ReadyParts(w: World)
    requires Ready(w)
    ensures M.Consistent(w.board) && |w.ladder.log| == MAX_SCORE_ESCAPED && |w.board.slots| == MAX_MARKET_SLOTS && |w.npcs| == MAX_NPC_SLOTS
  {
  }

  lemma SellReady(w: World, key: Key, npcId: int, count: int, ids: seq<int>)
    requires Ready(w) && |ids| == MAX_INVEN_SIZE
    ensures Ready(Sell(w, key, npcId, count, ids).0)
    ensures N.Requests(Sell(w, key, npcId, count, ids).0.npcs) <= N.Requests(w.npcs)
    ensures Sell(w, key, npcId, count, ids).0.board == w.board
  {
    hide M.Offers, N.Requests, N.AfterTake, N.Find, M.Consistent, Has, Money, SortIds, CheckDocs, DropDocs, OneOffer, OneRequest, Ready;
    ReadyParts(w);
    N.TakeKeeps(w.npcs, npcId);
    NpcTakeKeepsSize(w.npcs, npcId);
    FewerReady(w, Sell(w, key, npcId, count, ids).0);
  }

  lemma NpcTakeKeepsSize(slots: seq<N.NpcSlot>, npcId: int)
    ensures |N.AfterTake(slots, npcId)| == |slots|
  {
  }

  lemma PayoffReady(w: World, key: Key, now: int)
    requires Ready(w)
    ensures Ready(Payoff(w, key, now).0)
    ensures Payoff(w, key, now).0.board == w.board && Payoff(w, key, now).0.npcs == w.npcs
  {
    hide M.Offers, N.Requests, M.Consistent, Has, Money, Purge, OneOffer, OneRequest;
  }

  lemma AgeReady(w: World, now: int)
    requires Ready(w)
    ensures Ready(AgeBoards(w, now))
    ensures M.Offers(AgeBoards(w, now).board) <= M.Offers(w.board) && N.Requests(AgeBoards(w, now).npcs) <= N.Requests(w.npcs)
  {
    hide M.Offers, N.Requests, M.Consistent, OneOffer, OneRequest, M.AgeOut, N.AgeOut, M.AgedIds, Ready;
    ReadyParts(w);
    AgeKeepsMask(w.board, now);
    M.AgeKeeps(w.board, now);
    N.AgeKeeps(w.npcs, N.EVT_NPC_MAX_AGE_SEC, N.EVT_NPC_AGE_STEP_SEC, now);
    NpcAgeKeepsSize(w.npcs, now);
    FewerReady(w, AgeBoards(w, now));
  }

  lemma NpcAgeKeepsSize(slots: seq<N.NpcSlot>, now: int)
    ensures |N.AgeOut(slots, N.EVT_NPC_MAX_AGE_SEC, N.EVT_NPC_AGE_STEP_SEC, now)| == |slots|
  {
  }

  lemma FreezeReady(w: World, tags: bv32)
    requires Ready(w)
    ensures Ready(w.(board := M.Freeze(w.board, tags))) && Ready(w.(board := M.Unfreeze(w.board, tags)))
    ensures M.Offers(M.Freeze(w.board, tags)) == M.Offers(w.board) == M.Offers(M.Unfreeze(w.board, tags))
  {
    hide M.Offers, N.Requests, M.Consistent, OneOffer, OneRequest;
    M.FreezeKeeps(w.board, tags);
    M.UnfreezeKeeps(w.board, tags);
  }

  lemma SpawnReady(w: World, docId: int, maskRead: bv32, tagRolls: seq<nat>, priceRoll: nat, name: Name, now: int, roll: nat)
    requires Ready(w) && |tagRolls| == 4 && forall o :: o in M.Offers(w.board) ==> o.docId != docId
    ensures var after := Spawn(w, docId, maskRead, tagRolls, priceRoll, name, now, roll);
      && Ready(after) && after.npcs == w.npcs
      && forall o :: o in M.Offers(after.board) ==> o in M.Offers(w.board) || o.docId == docId
  {
    hide M.Offers, N.Requests, M.Consistent, OneOffer, OneRequest, M.AddOffer, M.HasRoom, PickTags, SpawnPrice;
    var tags := PickTags(maskRead, tagRolls);
    var doc := M.Offer(docId, tags, SpawnPrice(tags, priceRoll), name);
    M.AddKeeps(w.board, doc, now, roll);
    M.AddKeepsMask(w.board, doc, now, roll);
    OneMore(M.Offers(w.board), doc);
  }

  lemma SpawnNpcReady(w: World, npcId: int, maskRead: bv32, tagRolls: seq<nat>, bountyRoll: nat, now: int)
    requires Ready(w) && |tagRolls| == 4 && forall r :: r in N.Requests(w.npcs) ==> r.npcId != npcId
    ensures var after := SpawnNpc(w, npcId, maskRead, tagRolls, bountyRoll, now);
      && Ready(after) && after.board == w.board
      && forall r :: r in N.Requests(after.npcs) ==> r in N.Requests(w.npcs) || r.npcId == npcId
  {
    hide M.Offers, N.Requests, M.Consistent, OneOffer, OneRequest, N.AddRequest, N.HasRoom, PickTags, NpcBounty;
    var tags := PickTags(maskRead, tagRolls);
    var request := N.Request(npcId, tags, NpcBounty(tags, bountyRoll));
    N.AddKeeps(w.npcs, request, now);
    NpcAddKeepsSize(w.npcs, request, now);
    if tags != 0 && !N.HasRoom(w.npcs) {
      Effects.FullNpcs(w.npcs, request, now);
      assert w.(npcs := w.npcs) == w;
    }
    OneMoreRequest(N.Requests(w.npcs), request);
  }

  lemma {:induction false} SeedDocsConsistent(w: World, docs: seq<M.Offer>, now: int, rolls: seq<nat>)
    requires |rolls| == |docs| && M.Consistent(w.board)
    ensures M.Consistent(SeedDocs(w, docs, now, rolls).board)
    decreases |docs|
  {
    hide M.Offers, M.AddOffer, M.HasRoom, M.Consistent;
    if docs != [] {
      M.AddKeeps(w.board, docs[0], now, rolls[0]);
      SeedDocsConsistent(w.(files := w.files.(master := w.files.master[docs[0].docId := docs[0]]),
                            board := M.AddOffer(w.board, docs[0], now, rolls[0])), docs[1..], now, rolls[1..]);
    }
  }

  lemma ResetReady(w: World, now: int, rolls: seq<nat>)
    requires |rolls| == 4
    ensures Ready(RoundReset(w, now, rolls))
    ensures M.Offers(RoundReset(w, now, rolls).board) <= multiset(SEED_DOCS)
    ensures N.Requests(RoundReset(w, now, rolls).npcs) <= multiset(SEED_NPCS)
  {
    hide M.Offers, N.Requests, M.Consistent, OneOffer, OneRequest, RoundReset;
    ResetShape(w, now, rolls);
    ResetConsistent(w, now, rolls);
    SeedsAreOne();
    var after := RoundReset(w, now, rolls);
    OneOfSome(M.Offers(after.board), multiset(SEED_DOCS));
    OneOfSomeRequests(N.Requests(after.npcs), multiset(SEED_NPCS));
  }

  lemma ResetConsistent(w: World, now: int, rolls: seq<nat>)
    requires |rolls| == 4
    ensures M.Consistent(RoundReset(w, now, rolls).board)
  {
    hide M.Offers, M.Consistent, PurgeAll, Reset, SeedDocs, M.EmptyBoard, N.EmptyNpcs, N.AddRequest, NewLadder;
    M.EmptyIsEmpty();
    SeedDocsConsistent(w.(files := PurgeAll(w.files), records := Reset(w.records, INITIAL_MONEY), board := M.EmptyBoard(),
                          npcs := N.EmptyNpcs(), ladder := NewLadder(), rumorUntil := 0), SEED_DOCS, now, rolls);
  }

  lemma SceneReady(w: World, after: World)
    requires Ready(w) && SameScene(w, after)
    ensures Ready(after)
  {
    hide M.Offers, N.Requests, M.Consistent, OneOffer, OneRequest;
  }

  /** What is on the boards after an event was there before, has the spawned id or is a seed. */
  ghost predicate Gains(w: World, e: Event, after: World) {
    && (forall o :: o in M.Offers(after.board) ==>
          o in M.Offers(w.board) || (e.SpawnEvent? && o.docId == e.docId) || (e.ResetEvent? && o in multiset(SEED_DOCS)))
    && (forall r :: r in N.Requests(after.npcs) ==>
          r in N.Requests(w.npcs) || (e.SpawnNpcEvent? && r.npcId == e.npcId) || (e.ResetEvent? && r in multiset(SEED_NPCS)))
  }

  lemma SceneGains(w: World, e: Event, after: World)
    requires SameScene(w, after)
    ensures Gains(w, e, after)
  {
    hide M.Offers, N.Requests;
  }

  lemma StepReady(w: World, e: Event)
    requires Ready(w) && WellFormed(e) && FreshIds(w, e) && |w.ladder.log| == MAX_SCORE_ESCAPED
    ensures Ready(Step(w, e).world) && Gains(w, e, Step(w, e).world)
  {
    hide Login, Buy, Sell, Dispose, Rumor, Payoff, CheckBankruptcy, Bankrupt, Burn, RoundReset, Spawn, SpawnNpc, AgeBoards;
    hide Ready, M.Freeze, M.Unfreeze, SameScene, M.Offers, N.Requests;
    if FromClient(e) && e.key !in w.online {
    } else if Quiet(e) {
      QuietSame(w, e);
      SceneReady(w, Step(w, e).world);
      SceneGains(w, e, Step(w, e).world);
    } else {
      match e
      case BuyEvent(key, docId, env) =>
        BuyReady(w, key, docId, env);
        BankruptcySame(Buy(w, key, docId, env).0, key);
        SceneReady(Buy(w, key, docId, env).0, Step(w, e).world);
        SceneGains(Buy(w, key, docId, env).0, e, Step(w, e).world);
      case SellEvent(key, npcId, count, ids) => SellReady(w, key, npcId, count, ids);
      case PayoffEvent(key, now) => PayoffReady(w, key, now);
      case ResetEvent(now, rolls) => ResetReady(w, now, rolls);
      case SpawnEvent(docId, maskRead, tagRolls, priceRoll, name, now, roll) =>
        SpawnReady(w, docId, maskRead, tagRolls, priceRoll, name, now, roll);
      case SpawnNpcEvent(npcId, maskRead, tagRolls, bountyRoll, now) =>
        SpawnNpcReady(w, npcId, maskRead, tagRolls, bountyRoll, now);
      case AgeEvent(now) => AgeReady(w, now);
      case FreezeEvent(tags) => FreezeReady(w, tags);
      case UnfreezeEvent(tags) => FreezeReady(w, tags);
    }
  }

  // Runs.

  /** Every event is well formed and spawns only ids that its board does not have. */
  ghost predicate FreshRun(w: World, events: seq<Event>)
    decreases |events|
  {
    events != [] ==>
      WellFormed(events[0]) && |w.ladder.log| == MAX_SCORE_ESCAPED && FreshIds(w, events[0])
      && FreshRun(Step(w, events[0]).world, events[1..])
  }

  function After(w: World, events: seq<Event>): World
    decreases |events|
  {
    if events == [] || !WellFormed(events[0]) || |w.ladder.log| != MAX_SCORE_ESCAPED then w
    else After(Step(w, events[0]).world, events[1..])
  }

  /** Everything broadcast during a run, in order. */
  function Stream(w: World, events: seq<Event>): seq<Packet>
    decreases |events|
  {
    if events == [] || !WellFormed(events[0]) || |w.ladder.log| != MAX_SCORE_ESCAPED then []
    else Broadcast(w, events[0]) + Stream(Step(w, events[0]).world, events[1..])
  }

  lemma {:induction false} StreamAgrees(w: World, events: seq<Event>, c: Copy)
    requires Ready(w) && Agree(w, c) && FreshRun(w, events)
    ensures Ready(After(w, events)) && Agree(After(w, events), Replay(c, Stream(w, events)))
    decreases |events|
  {
    hide Step, Broadcast, Agree, Ready, FreshIds, WellFormed;
    ReplayNone(c);
    ReadyLog(w);
    if events != [] {
      StepReady(w, events[0]);
      StepAgrees(w, events[0], c);
      ReplayThen(c, Broadcast(w, events[0]), Stream(Step(w, events[0]).world, events[1..]));
      StreamAgrees(Step(w, events[0]).world, events[1..], Replay(c, Broadcast(w, events[0])));
    }
  }

  /** Every active slot is shown, if at all, as it is: the same offer and the same flag. */
  ghost predicate ShownAsIs(b: M.Board, c: Copy) {
    forall i, j :: 0 <= i < |b.slots| && b.slots[i].active && 0 <= j < |c.market| ==>
      (c.market[j].offer.docId == b.slots[i].offer.docId ==> c.market[j] == Shown(b.slots[i].offer, b.slots[i].frozen))
  }

  /** From the start of the server on, through any run before and after a client joins, the
      client holds exactly the server's offers and requests, mask and goal, marks exactly
      the offers that the server has frozen, and never runs out of slots. */
  lemma EveryClientAgrees(now: int, rolls: seq<nat>, before: seq<Event>, after: seq<Event>, c: Copy)
    requires |rolls| == 4 && FreshRun(Boot(now, rolls), before) && FreshRun(After(Boot(now, rolls), before), after)
    ensures var joined := After(Boot(now, rolls), before);
      var w := After(joined, after);
      var copy := Replay(c, Welcome(joined) + Stream(joined, after));
      Agree(w, copy) && ShownAsIs(w.board, copy) && |copy.market| <= 32 && |copy.npcs| <= 16
  {
    hide Agree, Ready, FreshRun, After, Stream, Welcome, Boot;
    BootReady(now, rolls);
    var start := Boot(now, rolls);
    var joined := After(start, before);
    ReadyLog(start);
    WelcomeAgrees(start, c);
    StreamAgrees(start, before, Replay(c, Welcome(start)));
    ReadyLog(joined);
    WelcomeAgrees(joined, c);
    StreamAgrees(joined, after, Replay(c, Welcome(joined)));
    ReplayThen(c, Welcome(joined), Stream(joined, after));
    AgreeingFlags(After(joined, after), Replay(c, Welcome(joined) + Stream(joined, after)));
  }

  lemma BootReady(now: int, rolls: seq<nat>)
    requires |rolls| == 4
    ensures Ready(Boot(now, rolls))
  {
    hide Ready, RoundReset;
    ResetReady(World(M.EmptyBoard(), N.EmptyNpcs(), [], Files(map[], map[]), NewLadder(), 0, {}), now, rolls);
  }

  /** Agreement entry by entry, and no overflow. */
  lemma AgreeingFlags(w: World, c: Copy)
    requires Ready(w) && Agree(w, c)
    ensures |c.market| <= UI_MAX_MARKET && |c.npcs| <= UI_MAX_NPC && ShownAsIs(w.board, c)
  {
    hide Meets, Bag;
    BagFits(M.Cells(w.board.slots));
    BagFits(N.Cells(w.npcs));
    assert |multiset(OffersOf(c.market))| == |c.market| && |multiset(c.npcs)| == |c.npcs|;
    forall i, j | 0 <= i < |w.board.slots| && w.board.slots[i].active && 0 <= j < |c.market|
      ensures c.market[j].offer.docId == w.board.slots[i].offer.docId ==>
        c.market[j] == Shown(w.board.slots[i].offer, w.board.slots[i].frozen)
    {
      assert OffersOf(c.market)[j] in multiset(OffersOf(c.market));
      BagMember(M.Cells(w.board.slots), w.board.slots[i].offer);
      assert M.Cells(w.board.slots)[i] == Some(w.board.slots[i].offer);
    }
  }

  /** A leak whose timer cannot be started is thawed without a packet: the clients that were
      told of the leak then agree exactly when it froze no tag at all. */
  lemma FailedLeakIff(w: World, tags: bv32, c: Copy)
    requires Agree(w, c)
    ensures Agree(w.(board := M.Unfreeze(M.Freeze(w.board, tags), tags)), Replay(c, [NewsLeak(tags)])) <==> tags == 0
  {
    hide M.Offers, Meets, M.Consistent, N.Requests, Flagged;
    M.FreezeKeeps(w.board, tags);
    M.UnfreezeKeeps(M.Freeze(w.board, tags), tags);
    ReplayOne(c, NewsLeak(tags));
    LeakKeepsOffers(c, tags);
    ApplyFlags(c, NewsLeak(tags));
    FailedMask(w.board.mask, tags);
  }

  lemma FailedMask(mask: bv32, tags: bv32)
    ensures Drop(Join(mask, tags), tags) == Join(mask, tags) <==> tags == 0
  {
  }
}
