// Purchases from the seeds on, before any reset: how long counted ids are safe, exactly when
// they are, and what a reused id does.
module PurchaseSeeds {
  import opened Prelude
  import opened Masks
  import opened Purchase
  import M = Market
  import E = Economy

  // The start: seeds on an empty board, before any thread.

  function SeedOne(s: State, doc: M.Offer, now: int, roll: nat): State {
    s.(master := s.master[doc.docId := doc], board := M.AddOffer(s.board, doc, now, roll), used := s.used + {doc.docId})
  }

  function Boot(users: nat, docs: seq<M.Offer>, now: int, rolls: seq<nat>): State
    requires |rolls| == |docs|
  {
    if docs == [] then State(M.EmptyBoard(), map[], seq(users, _ => {}), [], 0, {}, multiset{})
    else
      var n := |docs| - 1;
      SeedOne(Boot(users, docs[..n], now, rolls[..n]), docs[n], now, rolls[n])
  }

  lemma SeedOneKeeps(s: State, doc: M.Offer, now: int, roll: nat)
    requires Inv(s) && s.threads == [] && doc.docId !in s.used && M.HasRoom(s.board)
    ensures Inv(SeedOne(s, doc, now, roll))
  {
    hide M.Ids, M.Offers, M.AddOffer, M.HasRoom, Boxed, OnePlace, Total;
    M.AddKeeps(s.board, doc, now, roll);
    KeysWith(s.master, doc);
    assert Pendings(s.threads) == [];
    NewPlace(s, SeedOne(s, doc, now, roll), doc.docId);
  }

  lemma {:induction false} NoBoxes(boxes: seq<set<int>>)
    requires forall i :: 0 <= i < |boxes| ==> boxes[i] == {}
    ensures Boxed(boxes) == multiset{}
  {
    if boxes != [] {
      NoBoxes(boxes[..|boxes| - 1]);
      assert BoxBags(boxes)[..|boxes| - 1] == BoxBags(boxes[..|boxes| - 1]);
    }
  }

  function DocIds(docs: seq<M.Offer>): set<int> {
    if docs == [] then {} else DocIds(docs[..|docs| - 1]) + {docs[|docs| - 1].docId}
  }

  predicate DistinctDocs(docs: seq<M.Offer>) {
    docs == [] || (DistinctDocs(docs[..|docs| - 1]) && docs[|docs| - 1].docId !in DocIds(docs[..|docs| - 1]))
  }

  /** Seeding distinct ids starts a run in good order. */
  lemma {:induction false} BootHolds(users: nat, docs: seq<M.Offer>, now: int, rolls: seq<nat>)
    requires |rolls| == |docs| <= MAX_MARKET_SLOTS && DistinctDocs(docs)
    ensures var s := Boot(users, docs, now, rolls);
      && Inv(s) && M.FreeFrom(s.board, |docs|) && s.threads == [] && s.counter == 0 && s.delivered == multiset{}
      && s.used == DocIds(docs)
  {
    hide M.AddOffer, M.HasRoom, M.FreeFrom, Inv, M.EmptyBoard;
    if docs == [] {
      BootEmpty(users);
    } else {
      var n := |docs| - 1;
      var s := Boot(users, docs[..n], now, rolls[..n]);
      BootHolds(users, docs[..n], now, rolls[..n]);
      M.FreeRoom(s.board, n, docs[n], now, rolls[n]);
      SeedOneKeeps(s, docs[n], now, rolls[n]);
    }
  }

  lemma BootEmpty(users: nat)
    ensures Inv(Boot(users, [], 0, [])) && M.FreeFrom(M.EmptyBoard(), 0)
  {
    hide M.Ids, M.Offers;
    M.EmptyIsEmpty();
    NoBoxes(seq(users, _ => {}));
  }

  /** The seeds of the server start a run in good order. */
  lemma SeedsStart(users: nat, now: int, rolls: seq<nat>)
    requires |rolls| == 4
    ensures var s := Boot(users, E.SEED_DOCS, now, rolls);
      Inv(s) && Counted(s) && Known(s) && s.threads == [] && s.counter == 0
  {
    hide Inv, Boot, Boxed, Join;
    SeedIds();
    BootHolds(users, E.SEED_DOCS, now, rolls);
    PastKnown(Boot(users, E.SEED_DOCS, now, rolls));
  }

  lemma SeedIds()
    ensures SEED_IDS == {124, 111, 47, 70} && DistinctDocs(E.SEED_DOCS)
  {
    hide Join;
    var docs := E.SEED_DOCS;
    assert docs[..3][..2][..1][..0] == [];
    assert DocIds(docs[..1]) == {124} && DistinctDocs(docs[..1]);
    assert DocIds(docs[..2]) == {124, 111} && DistinctDocs(docs[..2]) by { assert docs[..2][..1] == docs[..1]; }
    assert DocIds(docs[..3]) == {124, 111, 47} && DistinctDocs(docs[..3]) by { assert docs[..3][..2] == docs[..2]; }
  }

  // The counter and the seeds.

  const SEED_IDS: set<int> := DocIds(E.SEED_DOCS)

  /** Every id in use is a seed or was counted. */
  ghost predicate Counted(s: State) {
    && s.counter >= 0
    && forall id :: id in s.used <==> id in SEED_IDS || 1 <= id <= s.counter
  }

  /** Every document that is somewhere has a known id. */
  ghost predicate Known(s: State) {
    s.master.Keys <= s.used && forall id :: id in Boxed(s.boxes) ==> id in s.used
  }

  lemma PastKnown(s: State)
    requires Inv(s)
    ensures Known(s)
  {
    hide Boxed, Core;
  }

  lemma StepCounts(s: State, a: Action)
    requires Counted(s)
    ensures Counted(Step(s, a)) && s.counter <= Step(s, a).counter
    ensures Writes(s, a) ==> Step(s, a).counter == s.counter + 1
    ensures s.counter + 1 !in s.used <==> s.counter + 1 !in SEED_IDS
  {
    hide M.Offers, M.Ids, M.AddOffer, M.HasRoom, M.Take, M.AfterTake, M.AgeOut, M.AgedIds, M.Freeze, M.Unfreeze, DocIds;
  }

  lemma {:induction false} CounterGrows(s: State, actions: seq<Action>)
    requires Counted(s)
    ensures After(s, actions).counter >= s.counter
    decreases |actions|
  {
    hide Step, Counted;
    if actions != [] {
      StepCounts(s, actions[0]);
      CounterGrows(Step(s, actions[0]), actions[1..]);
    }
  }

  /** Counting up from one, the ids stay fresh until the lowest seed: every run from the
      seeds with fewer than 47 spawned documents keeps files and offers together. */
  lemma {:induction false} SafeBeforeLowestSeed(s: State, actions: seq<Action>)
    requires Inv(s) && Counted(s) && After(s, actions).counter < 47
    ensures FreshRun(s, actions) && SafeRun(s, actions) && Inv(After(s, actions))
    decreases |actions|
  {
    hide Step, Core, Past, DocIds, Counted;
    if actions != [] {
      StepCounts(s, actions[0]);
      SeedIds();
      CounterGrows(Step(s, actions[0]), actions[1..]);
      FreshIsSafe(s, actions[0]);
      StepKeeps(s, actions[0]);
      StepPast(s, actions[0]);
      SafeBeforeLowestSeed(Step(s, actions[0]), actions[1..]);
    }
  }

  lemma StepKnown(s: State, a: Action)
    requires Known(s)
    ensures Known(Step(s, a))
  {
    hide M.Offers, M.Ids, M.AddOffer, M.HasRoom, M.Take, M.AfterTake, M.AgeOut, M.AgedIds, M.Freeze, M.Unfreeze, Boxed;
    if a.Move? && a.t < |s.threads| && s.threads[a.t].Holding? && s.threads[a.t].user < |s.boxes| {
      var user, id := s.threads[a.t].user, s.threads[a.t].doc.docId;
      BoxGains(s.boxes, user, id);
    } else if a.Discard? && a.user < |s.boxes| {
      DiscardShrinks(s, a.user, a.docId);
    }
  }

  lemma BoxGains(boxes: seq<set<int>>, user: nat, id: int)
    requires user < |boxes|
    ensures forall x :: x in Boxed(boxes[user := boxes[user] + {id}]) ==> x in Boxed(boxes) || x == id
  {
    hide Boxed;
    BoxedUpdate(boxes, user, boxes[user] + {id});
    forall x | x != id && x in Boxed(boxes[user := boxes[user] + {id}]) ensures x in Boxed(boxes) {
      assert (Boxed(boxes[user := boxes[user] + {id}]) + multiset(boxes[user]))[x] == (Boxed(boxes) + multiset(boxes[user] + {id}))[x];
    }
  }

  /** When the counter comes to a seed's id, that seed is in no place any more. */
  ghost predicate SeedsGone(s: State, actions: seq<Action>)
    decreases |actions|
  {
    actions != [] ==>
      (Writes(s, actions[0]) && s.counter + 1 in SEED_IDS ==> s.counter + 1 !in s.master && s.counter + 1 !in Boxed(s.boxes))
      && SeedsGone(Step(s, actions[0]), actions[1..])
  }

  /** Of every run from the seeds: files and offers stay together and every document in one
      place throughout exactly when each seed is gone before the counter reaches its id. */
  lemma {:induction false} CountedRunIff(s: State, actions: seq<Action>)
    requires Core(s) && Counted(s) && Known(s)
    ensures CoreThroughout(s, actions) <==> SeedsGone(s, actions)
    decreases |actions|
  {
    hide Step, Core, DocIds, Counted, Boxed;
    RunSafeIff(s, actions);
    SafeAsSeeds(s, actions);
  }

  lemma {:induction false} SafeAsSeeds(s: State, actions: seq<Action>)
    requires Counted(s) && Known(s)
    ensures SafeRun(s, actions) <==> SeedsGone(s, actions)
    decreases |actions|
  {
    hide Step, DocIds, Counted, Boxed;
    if actions != [] {
      StepCounts(s, actions[0]);
      StepKnown(s, actions[0]);
      SafeAsSeeds(Step(s, actions[0]), actions[1..]);
    }
  }

  // A run that strands a buyer.

  /** What a reused id leads to: with an offer of that id still on sale and unfrozen, two
      buyers win and the second one finds no file. */
  lemma ReusedIdStrands(s: State, t: nat, tags: bv32, price: int, name: Name, now: int) returns (actions: seq<Action>)
    requires t < |s.threads| && s.threads[t].Idle? && |s.boxes| > 0
    requires M.Consistent(s.board) && s.board.mask == 0 && M.HasRoom(s.board)
    requires s.counter + 1 in M.Ids(s.board)
    ensures var after := After(s, actions);
      |after.threads| == |s.threads| && after.threads[t].Holding? && after.threads[t].doc.docId == s.counter + 1
      && s.counter + 1 !in after.master && Step(after, Move(t)).threads[t].Stranded?
      && forall u :: 0 <= u < |s.threads| && u != t ==> after.threads[u] == s.threads[u]
  {
    hide M.Ids, M.Offers, M.Consistent, M.AddOffer, M.AfterTake, M.Take, M.HasRoom;
    var id := s.counter + 1;
    var doc := M.Offer(id, tags, price, name);
    M.AddKeeps(s.board, doc, now, 0);
    var b2 := M.AddOffer(s.board, doc, now, 0);
    BoardStaysOpen(s.board, doc, now);
    TakeWins(b2, id);
    M.TakeKeeps(b2, id);
    var b3 := M.AfterTake(b2, id);
    TakeWins(b3, id);
    M.TakeKeeps(b3, id);

    var write, list, take, move := Write(t, tags, price, name), List(t, now, 0), Take(t, 0, id), Move(t);
    actions := [write, list, take, move, take];
    var s1 := Step(s, write);
    var s2 := Step(s1, list);
    assert s2.threads[t].Idle? && s2.board == b2;
    var s3 := Step(s2, take);
    assert s3.threads[t].Holding? && s3.threads[t].doc.docId == id && s3.board == b3;
    var s4 := Step(s3, move);
    assert s4.threads[t].Idle? && id !in s4.master;
    var s5 := Step(s4, take);
    Unroll5(s, write, list, take, move, take);
  }

  lemma Unroll5(s: State, a: Action, b: Action, c: Action, d: Action, e: Action)
    ensures After(s, [a, b, c, d, e]) == Step(Step(Step(Step(Step(s, a), b), c), d), e)
  {
    hide Step;
    AfterOne(s, a, [b, c, d, e]);
    AfterOne(Step(s, a), b, [c, d, e]);
    AfterOne(Step(Step(s, a), b), c, [d, e]);
    AfterOne(Step(Step(Step(s, a), b), c), d, [e]);
    AfterOne(Step(Step(Step(Step(s, a), b), c), d), e, []);
    assert [a] + [b, c, d, e] == [a, b, c, d, e] && [b] + [c, d, e] == [b, c, d, e];
    assert [c] + [d, e] == [c, d, e] && [d] + [e] == [d, e] && [e] + [] == [e];
  }

  lemma AfterOne(s: State, a: Action, rest: seq<Action>)
    ensures After(s, [a] + rest) == After(Step(s, a), rest)
  {
    hide Step;
    assert ([a] + rest)[1..] == rest;
  }

  lemma BoardStaysOpen(b: M.Board, doc: M.Offer, now: int)
    ensures M.AddOffer(b, doc, now, 0).mask == b.mask
    ensures M.AfterTake(M.AddOffer(b, doc, now, 0), doc.docId).mask == b.mask
  {
  }

  /** Nothing is frozen, so an id on sale can be taken. */
  lemma TakeWins(b: M.Board, id: int)
    requires M.Consistent(b) && b.mask == 0 && id in M.Ids(b)
    ensures M.Take(b, id).Taken?
  {
    hide M.Consistent, M.Offers, M.Ids;
    M.TakeRefusesFrozen(b, id);
    MeetsZero(M.Find(b, id).value.offer.tags);
  }

  lemma {:induction false} AfterConcat(s: State, first: seq<Action>, rest: seq<Action>)
    ensures After(s, first + rest) == After(After(s, first), rest)
    decreases |first|
  {
    hide Step;
    if first == [] {
      assert first + rest == rest;
    } else {
      AfterConcat(Step(s, first[0]), first[1..], rest);
      assert (first + rest)[1..] == first[1..] + rest;
    }
  }

  lemma {:induction false} BootBoard(users: nat, docs: seq<M.Offer>, now: int, rolls: seq<nat>)
    requires |rolls| == |docs| <= MAX_MARKET_SLOTS
    ensures var s := Boot(users, docs, now, rolls);
      && M.FreeFrom(s.board, |docs|) && M.Consistent(s.board) && s.board.mask == 0 && |s.boxes| == users
      && forall i :: 0 <= i < |docs| ==> docs[i].docId in M.Ids(s.board)
  {
    hide M.AddOffer, M.HasRoom, M.FreeFrom, M.EmptyBoard, M.Ids, M.Offers, M.Consistent;
    if docs == [] {
      M.EmptyIsEmpty();
      M.EmptyFree();
    } else {
      var n := |docs| - 1;
      var b := Boot(users, docs[..n], now, rolls[..n]).board;
      BootBoard(users, docs[..n], now, rolls[..n]);
      M.FreeRoom(b, n, docs[n], now, rolls[n]);
      M.AddKeeps(b, docs[n], now, rolls[n]);
      M.AddKeepsMask(b, docs[n], now, rolls[n]);
      assert forall i :: 0 <= i < n ==> docs[..n][i].docId in M.Ids(b);
    }
  }
}
