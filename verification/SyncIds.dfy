// Ids and the clients' copies: a reused id that parts a client from the server, and how long
// the counters of the event thread give ids that are new to their boards.
module SyncIds {
  import opened Prelude
  import opened Masks
  import opened Client
  import opened Economy
  import opened Sync
  import Sandbox
  import Escape
  import M = Market
  import N = NpcBoard

  // One id twice.

  /** An id that is reused while on sale can part a client from the server: the new offer gets
      an earlier slot than the old one but a later place in the copy, so the next removal of
      that id takes the new one from the board and the old one from the copy. */
  lemma ReusedIdParts(x: M.Offer, a: M.Offer, b: M.Offer, goal: int)
    requires a.docId == b.docId != x.docId && a != b
    ensures var board := M.AfterTake(M.AddOffer(M.AfterTake(M.AddOffer(M.AddOffer(M.EmptyBoard(), x, 0, 0), a, 0, 0), x.docId), b, 0, 0), a.docId);
      var copy := Replay(Copy([], [], 0, goal), [MarketSpawn(x), MarketSpawn(a), MarketRemove(x.docId), MarketSpawn(b), MarketRemove(a.docId)]);
      M.Offers(board) == multiset{a} && OffersOf(copy.market) == [b]
  {
    PartsBoard(x, a, b);
    PartsCopy(x, a, b, goal);
  }

  lemma PartsBoard(x: M.Offer, a: M.Offer, b: M.Offer)
    requires a.docId == b.docId != x.docId
    ensures var board := M.AfterTake(M.AddOffer(M.AfterTake(M.AddOffer(M.AddOffer(M.EmptyBoard(), x, 0, 0), a, 0, 0), x.docId), b, 0, 0), a.docId);
      M.Offers(board) == multiset{a}
  {
    hide M.Offers, M.Ids, M.Consistent;
    M.EmptyIsEmpty();
    MeetsZero(x.tags);
    MeetsZero(a.tags);
    MeetsZero(b.tags);
    hide Meets;
    var b0 := M.EmptyBoard();
    FirstFree(b0, 0);
    var b1 := M.AddOffer(b0, x, 0, 0);
    FirstFree(b1, 1);
    var b2 := M.AddOffer(b1, a, 0, 0);
    assert M.FindFrom(b2.slots, x.docId, 0) == 0;
    var b3 := M.AfterTake(b2, x.docId);
    FirstFree(b3, 0);
    var b4 := M.AddOffer(b3, b, 0, 0);
    assert M.FindFrom(b4.slots, a.docId, 0) == 0;
    M.AddKeeps(b0, x, 0, 0);
    M.AddKeeps(b1, a, 0, 0);
    M.TakeKeeps(b2, x.docId);
    M.AddKeeps(b3, b, 0, 0);
    M.TakeKeeps(b4, a.docId);
    LeftOne(M.Offers(b2), M.Offers(b3), M.Offers(M.AfterTake(b4, a.docId)), x, a, b);
  }

  lemma LeftOne<T(!new)>(two: multiset<T>, one: multiset<T>, last: multiset<T>, x: T, a: T, b: T)
    requires two == multiset{x} + multiset{a} == one + multiset{x} && one + multiset{b} == last + multiset{b}
    ensures last == multiset{a}
  {
    SumCancels(one, multiset{a}, multiset{x});
    SumCancels(last, one, multiset{b});
  }

  lemma FirstFree(b: M.Board, i: nat)
    requires i < |b.slots| && !b.slots[i].active && forall j :: 0 <= j < i ==> b.slots[j].active
    ensures M.FirstFreeFrom(b.slots, 0) == i
  {
  }

  lemma PartsCopy(x: M.Offer, a: M.Offer, b: M.Offer, goal: int)
    requires a.docId == b.docId != x.docId
    ensures var copy := Replay(Copy([], [], 0, goal), [MarketSpawn(x), MarketSpawn(a), MarketRemove(x.docId), MarketSpawn(b), MarketRemove(a.docId)]);
      OffersOf(copy.market) == [b]
  {
    hide Meets, Replay;
    var p, q, r, s, t := MarketSpawn(x), MarketSpawn(a), MarketRemove(x.docId), MarketSpawn(b), MarketRemove(a.docId);
    var c0 := Copy([], [], 0, goal);
    var c1 := Apply(c0, p);
    var c2 := Apply(c1, q);
    assert c2.market == [Shown(x, Meets(x.tags, 0)), Shown(a, Meets(a.tags, 0))];
    assert FirstShown(c2.market, x.docId, 0) == 0;
    var c3 := Apply(c2, r);
    assert c3.market == [Shown(a, Meets(a.tags, 0))];
    var c4 := Apply(c3, s);
    assert c4.market == [Shown(a, Meets(a.tags, 0)), Shown(b, Meets(b.tags, 0))];
    assert FirstShown(c4.market, a.docId, 0) == 0;
    var c5 := Apply(c4, t);
    assert c5.market == [Shown(b, Meets(b.tags, 0))];
    ReplayFive(c0, p, q, r, s, t);
  }

  lemma ReplayFive(c: Copy, p: Packet, q: Packet, r: Packet, s: Packet, t: Packet)
    ensures Replay(c, [p, q, r, s, t]) == Apply(Apply(Apply(Apply(Apply(c, p), q), r), s), t)
  {
    hide Apply, Replay;
    ReplayNone(c);
    ReplayMore(c, [], p);
    ReplayMore(c, [p], q);
    ReplayMore(c, [p, q], r);
    ReplayMore(c, [p, q, r], s);
    ReplayMore(c, [p, q, r, s], t);
    assert [] + [p] == [p] && [p] + [q] == [p, q] && [p, q] + [r] == [p, q, r];
    assert [p, q, r] + [s] == [p, q, r, s] && [p, q, r, s] + [t] == [p, q, r, s, t];
  }

  lemma ReplayMore(c: Copy, packets: seq<Packet>, p: Packet)
    ensures Replay(c, packets + [p]) == Apply(Replay(c, packets), p)
  {
    hide Apply;
    ReplayThen(c, packets, [p]);
    ReplayOne(Replay(c, packets), p);
  }

  // Counted ids.

  predicate SeedDoc(id: int) {
    exists i :: 0 <= i < |SEED_DOCS| && SEED_DOCS[i].docId == id
  }

  predicate SeedNpc(id: int) {
    exists i :: 0 <= i < |SEED_NPCS| && SEED_NPCS[i].npcId == id
  }

  lemma LowestSeeds(id: int)
    ensures SeedDoc(id) ==> id >= 47
    ensures SeedNpc(id) ==> id >= 102
  {
    hide Join;
  }

  /** Every id on the boards is a seed or was counted. */
  ghost predicate Within(w: World, docs: int, npcs: int) {
    && (forall o :: o in M.Offers(w.board) ==> SeedDoc(o.docId) || o.docId <= docs)
    && (forall r :: r in N.Requests(w.npcs) ==> SeedNpc(r.npcId) || r.npcId <= npcs)
  }

  /** The spawns of a run take ids that count up from the ones given, the documents' below the
      lowest seed 47 and the requests' below the lowest seed 102. Resets do not reset the counters. */
  predicate CountedRun(events: seq<Event>, docs: int, npcs: int)
    decreases |events|
  {
    events == [] ||
    (WellFormed(events[0]) &&
     match events[0]
     case SpawnEvent(docId, _, _, _, _, _, _) => docs < docId < 47 && CountedRun(events[1..], docId, npcs)
     case SpawnNpcEvent(npcId, _, _, _, _) => npcs < npcId < 102 && CountedRun(events[1..], docs, npcId)
     case _ => CountedRun(events[1..], docs, npcs))
  }

  lemma CountedFresh(w: World, e: Event, docs: int, npcs: int)
    requires Within(w, docs, npcs)
    requires e.SpawnEvent? ==> docs < e.docId < 47
    requires e.SpawnNpcEvent? ==> npcs < e.npcId < 102
    ensures FreshIds(w, e)
  {
    hide M.Offers, N.Requests, SeedDoc, SeedNpc;
    if e.SpawnEvent? {
      LowestSeeds(e.docId);
    } else if e.SpawnNpcEvent? {
      LowestSeeds(e.npcId);
    }
  }

  lemma GainsWithin(w: World, e: Event, after: World, docs: int, npcs: int)
    requires Within(w, docs, npcs) && Gains(w, e, after)
    requires e.SpawnEvent? ==> docs < e.docId
    requires e.SpawnNpcEvent? ==> npcs < e.npcId
    ensures Within(after, if e.SpawnEvent? then e.docId else docs, if e.SpawnNpcEvent? then e.npcId else npcs)
  {
    hide M.Offers, N.Requests, SeedDoc, SeedNpc, Join;
    SeedsHaveIds();
  }

  lemma SeedsHaveIds()
    ensures forall o :: o in multiset(SEED_DOCS) ==> SeedDoc(o.docId)
    ensures forall r :: r in multiset(SEED_NPCS) ==> SeedNpc(r.npcId)
  {
    hide Join;
    ListedHaveIds(SEED_DOCS, SEED_NPCS);
  }

  lemma ListedHaveIds(docs: seq<M.Offer>, npcs: seq<N.Request>)
    ensures forall o :: o in multiset(docs) ==> exists i :: 0 <= i < |docs| && docs[i].docId == o.docId
    ensures forall r :: r in multiset(npcs) ==> exists i :: 0 <= i < |npcs| && npcs[i].npcId == r.npcId
  {
  }

  /** Such a run spawns only ids that are new to their boards. */
  lemma {:induction false} CountedIsFresh(w: World, events: seq<Event>, docs: int, npcs: int)
    requires Ready(w) && Within(w, docs, npcs) && CountedRun(events, docs, npcs)
    ensures FreshRun(w, events)
    decreases |events|
  {
    hide Step, Ready, Within, FreshIds, WellFormed, Gains;
    if events != [] {
      var e := events[0];
      ReadyLog(w);
      CountedFresh(w, e, docs, npcs);
      StepReady(w, e);
      GainsWithin(w, e, Step(w, e).world, docs, npcs);
      CountedIsFresh(Step(w, e).world, events[1..],
                     if e.SpawnEvent? then e.docId else docs, if e.SpawnNpcEvent? then e.npcId else npcs);
    }
  }

  lemma {:induction false} FreshSplit(w: World, first: seq<Event>, rest: seq<Event>)
    requires FreshRun(w, first + rest)
    ensures FreshRun(w, first) && FreshRun(After(w, first), rest)
    decreases |first|
  {
    hide Step, FreshIds, WellFormed;
    if first == [] {
      assert first + rest == rest;
    } else {
      assert (first + rest)[1..] == first[1..] + rest;
      FreshSplit(Step(w, first[0]).world, first[1..], rest);
    }
  }

  lemma BootWithin(now: int, rolls: seq<nat>)
    requires |rolls| == 4
    ensures Ready(Boot(now, rolls)) && Within(Boot(now, rolls), 0, 0)
  {
    hide Ready, RoundReset, M.Offers, N.Requests, SeedDoc, SeedNpc;
    var nothing := World(M.EmptyBoard(), N.EmptyNpcs(), [], Sandbox.Files(map[], map[]), Escape.NewLadder(), 0, {});
    ResetReady(nothing, now, rolls);
    SeedsHaveIds();
  }

  /** With counters that start at zero, as the server's do, every client agrees after every run
      that has counted fewer than 47 documents and fewer than 102 requests, resets included. */
  lemma CountedClientAgrees(now: int, rolls: seq<nat>, before: seq<Event>, after: seq<Event>, c: Copy)
    requires |rolls| == 4 && CountedRun(before + after, 0, 0)
    ensures var joined := After(Boot(now, rolls), before);
      var w := After(joined, after);
      var copy := Replay(c, Welcome(joined) + Stream(joined, after));
      Agree(w, copy) && ShownAsIs(w.board, copy) && |copy.market| <= 32 && |copy.npcs| <= 16
  {
    hide Ready, Within, CountedRun, FreshRun, After, Stream, Welcome, Boot, Agree;
    BootWithin(now, rolls);
    CountedIsFresh(Boot(now, rolls), before + after, 0, 0);
    FreshSplit(Boot(now, rolls), before, after);
    EveryClientAgrees(now, rolls, before, after, c);
  }
}
