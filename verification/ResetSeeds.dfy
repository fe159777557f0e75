// The server's seeds and round resets together: when a run with resets keeps documents in
// order, and two runs from the seeds in which a reset does not.
module ResetSeeds {
  import opened Prelude
  import opened PurchaseSeeds
  import opened PurchaseResets
  import P = Purchase
  import M = Market
  import E = Economy

  // When the server's own ids are in order.

  /** A reset writes seeds. */
  ghost predicate SeedsOnly(actions: seq<Action>) {
    forall k :: 0 <= k < |actions| && actions[k].WriteSeed? ==> actions[k].doc.docId in SEED_IDS
  }

  /** As Orderly, but of the counted ids only those of seeds matter. */
  ghost predicate SeedsOrderly(s: P.State, a: Action) {
    if a.Serve? && !ResetOn(s) && P.Writes(s, a.a) && s.counter + 1 in SEED_IDS then P.SafeId(s, a.a)
    else a.Serve? || Orderly(s, a)
  }

  ghost predicate SeedsOrderlyRun(s: P.State, actions: seq<Action>)
    decreases |actions|
  {
    actions != [] ==> SeedsOrderly(s, actions[0]) && SeedsOrderlyRun(Step(s, actions[0]), actions[1..])
  }

  lemma CountedIsSafe(s: P.State, a: P.Action)
    requires Counted(s) && Known(s) && s.counter + 1 !in SEED_IDS
    ensures P.SafeId(s, a)
  {
    hide DocIds, P.Boxed;
  }

  lemma StepSeeds(s: P.State, a: Action)
    requires Counted(s) && Known(s) && (a.WriteSeed? ==> a.doc.docId in SEED_IDS)
    ensures Counted(Step(s, a)) && Known(Step(s, a))
  {
    hide P.Step, DocIds, P.Boxed, M.AddOffer, M.EmptyBoard;
    match a
    case Serve(b) =>
      StepCounts(s, b);
      StepKnown(s, b);
    case Empty(t, user, id) =>
      StepCounts(s, P.Discard(user, id));
      StepKnown(s, P.Discard(user, id));
    case _ =>
  }

  lemma {:induction false} SeedsAsOrderly(s: P.State, actions: seq<Action>)
    requires Counted(s) && Known(s) && SeedsOnly(actions)
    ensures OrderlyRun(s, actions) <==> SeedsOrderlyRun(s, actions)
    decreases |actions|
  {
    hide Step, DocIds, Counted, Known, P.SafeId, Orderly;
    if actions != [] {
      OrderlyServes(s, actions[0]);
      StepSeeds(s, actions[0]);
      SeedsAsOrderly(Step(s, actions[0]), actions[1..]);
    }
  }

  lemma OrderlyServes(s: P.State, a: Action)
    requires Counted(s) && Known(s)
    ensures Orderly(s, a) <==> SeedsOrderly(s, a)
  {
    hide DocIds, Counted, Known, P.SafeId, Clean, M.HasRoom, P.Boxed;
    if a.Serve? {
      if P.Writes(s, a.a) && s.counter + 1 !in SEED_IDS {
        CountedIsSafe(s, a.a);
      } else if !P.Writes(s, a.a) {
        NoWriteIsSafe(s, a.a);
      }
    }
  }

  lemma NoWriteIsSafe(s: P.State, a: P.Action)
    requires !P.Writes(s, a)
    ensures P.SafeId(s, a)
  {
  }

  /** Through every run of the server from its seeds, resets included, files and offers are
      together outside resets exactly when each reset ends clean, each seed written outside
      market_init finds its id in no place and a slot, and so does each count of a seed's id. */
  lemma ServerRunIff(users: nat, now: int, rolls: seq<nat>, actions: seq<Action>)
    requires |rolls| == 4 && SeedsOnly(actions)
    ensures OutsideThroughout(Boot(users, E.SEED_DOCS, now, rolls), actions)
      <==> SeedsOrderlyRun(Boot(users, E.SEED_DOCS, now, rolls), actions)
  {
    hide Boot, DocIds, Counted, Known, P.Core, P.Past;
    var start := Boot(users, E.SEED_DOCS, now, rolls);
    SeedsStart(users, now, rolls);
    ResetRunIff(start, actions);
    SeedsAsOrderly(start, actions);
  }

  // Joining runs.

  lemma AfterNone(s: P.State)
    ensures After(s, []) == s
  {
  }

  lemma AfterFirst(s: P.State, a: Action, rest: seq<Action>)
    ensures After(s, [a] + rest) == After(Step(s, a), rest)
  {
    hide Step;
    assert ([a] + rest)[1..] == rest;
  }

  lemma {:induction false} AfterJoin(s: P.State, first: seq<Action>, rest: seq<Action>)
    ensures After(s, first + rest) == After(After(s, first), rest)
    decreases |first|
  {
    hide Step;
    if first == [] {
      assert first + rest == rest;
    } else {
      AfterJoin(Step(s, first[0]), first[1..], rest);
      assert (first + rest)[1..] == first[1..] + rest;
    }
  }

  function Served(actions: seq<P.Action>): seq<Action> {
    seq(|actions|, i requires 0 <= i < |actions| => Serve(actions[i]))
  }

  lemma {:induction false} ServedRun(s: P.State, actions: seq<P.Action>)
    ensures After(s, Served(actions)) == P.After(s, actions)
    decreases |actions|
  {
    hide P.Step;
    if actions != [] {
      ServedRun(P.Step(s, actions[0]), actions[1..]);
      assert Served(actions)[1..] == Served(actions[1..]);
    }
  }

  // Ticks: an event thread and a timer thread, and nothing frozen.

  ghost predicate OpenBoard(s: P.State) {
    |s.boxes| > 0 && M.Consistent(s.board) && s.board.mask == 0 && M.HasRoom(s.board)
  }

  ghost predicate Open(s: P.State) {
    s.threads == [P.Idle, P.Idle] && OpenBoard(s)
  }

  lemma AgeKeepsRoom(b: M.Board, now: int)
    requires M.HasRoom(b)
    ensures M.HasRoom(M.AgeOut(b, now))
  {
    var i := M.FirstFreeFrom(b.slots, 0);
    assert !M.AgeOut(b, now).slots[i].active;
  }

  lemma AgeOpen(s: P.State, now: int)
    requires Open(s)
    ensures var after := P.Step(s, P.Age(0, now));
      OpenBoard(after) && after.threads == [P.Clearing(M.AgedIds(s.board, now)), P.Idle] && after.counter == s.counter
  {
    hide M.Consistent, M.HasRoom, M.AgedIds;
    AgeKeepsRoom(s.board, now);
    M.AgeKeeps(s.board, now);
    assert M.AgeOut(s.board, now).mask == s.board.mask;
  }

  /** The files of aged offers are unlinked one by one. */
  lemma {:induction false} ClearAll(s: P.State, ids: seq<int>) returns (actions: seq<P.Action>)
    requires s.threads == [P.Clearing(ids), P.Idle] && OpenBoard(s)
    ensures Open(P.After(s, actions)) && P.After(s, actions).counter == s.counter
    decreases |ids|
  {
    hide OpenBoard, P.After;
    var next := P.Step(s, P.Clear(0));
    SameBoardOpen(s, next);
    if ids == [] {
      actions := [P.Clear(0)] + [];
      PurchaseSeeds.AfterOne(s, P.Clear(0), []);
      NoSteps(next);
      assert next.threads == [P.Idle, P.Idle];
    } else {
      assert next.threads == [P.Clearing(ids[1..]), P.Idle];
      var rest := ClearAll(next, ids[1..]);
      actions := [P.Clear(0)] + rest;
      PurchaseSeeds.AfterOne(s, P.Clear(0), rest);
    }
  }

  lemma NoSteps(s: P.State)
    ensures P.After(s, []) == s
  {
  }

  lemma SameBoardOpen(s: P.State, after: P.State)
    requires OpenBoard(s) && after.board == s.board && |after.boxes| == |s.boxes|
    ensures OpenBoard(after)
  {
  }

  lemma TakeLeavesRoom(b: M.Board, id: int)
    requires M.Take(b, id).Taken?
    ensures M.HasRoom(M.AfterTake(b, id))
  {
    var i := M.FindFrom(b.slots, id, 0);
    assert !M.AfterTake(b, id).slots[i].active;
    assert M.FirstFreeFrom(M.AfterTake(b, id).slots, 0) <= i;
  }

  lemma WriteList(s: P.State, now: int)
    requires s.threads == [P.Idle, P.Idle] && M.HasRoom(s.board)
    ensures var next := s.counter + 1;
      var after := P.Step(P.Step(s, P.Write(0, 1, 400, "")), P.List(0, now, 0));
      && after.board == M.AddOffer(s.board, M.Offer(next, 1, 400, ""), now, 0) && after.threads == [P.Idle, P.Idle]
      && after.master == s.master[next := M.Offer(next, 1, 400, "")] && after.counter == next && after.boxes == s.boxes
  {
    hide M.AddOffer, M.HasRoom;
  }

  lemma TakeMove(s: P.State, id: int)
    requires s.threads == [P.Idle, P.Idle] && M.Take(s.board, id).Taken? && |s.boxes| > 0
    ensures var after := P.Step(P.Step(s, P.Take(0, 0, id)), P.Move(0));
      (id in s.master && M.Take(s.board, id).slot.offer.docId == id ==> after.threads == [P.Idle, P.Idle])
      && after.board == M.AfterTake(s.board, id) && after.counter == s.counter && |after.boxes| == |s.boxes|
  {
    hide M.AfterTake, M.Take;
  }

  /** The next document is written, listed and bought. */
  lemma Sell(s: P.State, now: int) returns (actions: seq<P.Action>)
    requires Open(s)
    ensures Open(P.After(s, actions)) && P.After(s, actions).counter == s.counter + 1
  {
    hide P.After, P.Step, M.Ids, M.Offers, M.Consistent, M.AddOffer, M.AfterTake, M.Take, M.HasRoom;
    var next := s.counter + 1;
    var doc := M.Offer(next, 1, 400, "");
    var listed := M.AddOffer(s.board, doc, now, 0);
    M.AddKeeps(s.board, doc, now, 0);
    BoardStaysOpen(s.board, doc, now);
    TakeWins(listed, next);
    M.TakeKeeps(listed, next);
    TakeLeavesRoom(listed, next);
    actions := [P.Write(0, 1, 400, ""), P.List(0, now, 0), P.Take(0, 0, next), P.Move(0), P.Discard(0, next)];
    Unroll5(s, actions[0], actions[1], actions[2], actions[3], actions[4]);
    WriteList(s, now);
    var sold := P.Step(P.Step(s, actions[0]), actions[1]);
    TakeMove(sold, next);
    var held := P.Step(P.Step(sold, actions[2]), actions[3]);
    Discards(held, next);
  }

  lemma Discards(s: P.State, id: int)
    ensures var after := P.Step(s, P.Discard(0, id));
      after.board == s.board && after.threads == s.threads && after.counter == s.counter && |after.boxes| == |s.boxes|
  {
  }

  /** A tick ages the board, clears the files, and spawns. */
  lemma Tick(s: P.State, now: int) returns (actions: seq<P.Action>)
    requires Open(s)
    ensures Open(P.After(s, actions)) && P.After(s, actions).counter == s.counter + 1
  {
    hide Open, OpenBoard, P.After, P.Step, M.AgedIds;
    AgeOpen(s, now);
    var aged := P.Step(s, P.Age(0, now));
    var clear := ClearAll(aged, M.AgedIds(s.board, now));
    var sell := Sell(P.After(aged, clear), now);
    actions := [P.Age(0, now)] + (clear + sell);
    PurchaseSeeds.AfterOne(s, P.Age(0, now), clear + sell);
    PurchaseSeeds.AfterConcat(aged, clear, sell);
  }

  /** Ticks five seconds apart. */
  lemma {:induction false} Ticks(s: P.State, now: int, top: int) returns (actions: seq<P.Action>)
    requires Open(s) && s.counter <= top
    ensures Open(P.After(s, actions)) && P.After(s, actions).counter == top
    decreases top - s.counter
  {
    hide Open, P.After, P.Step;
    if s.counter == top {
      actions := [];
      NoSteps(s);
    } else {
      var first := Tick(s, now);
      var rest := Ticks(P.After(s, first), now + 5, top);
      PurchaseSeeds.AfterConcat(s, first, rest);
      actions := first + rest;
    }
  }

  // A reset of an open server.

  lemma {:induction false} WipeAll(s: P.State, t: nat) returns (actions: seq<Action>)
    requires InReset(s, t)
    ensures After(s, actions) == s.(master := map[])
    decreases |s.master|
  {
    if s.master == map[] {
      actions := [];
    } else {
      var id := SomeKey(s.master);
      var next := s.(master := s.master - {id});
      assert next.master.Keys == s.master.Keys - {id};
      var rest := WipeAll(next, t);
      AfterFirst(s, Wipe(t, id), rest);
      actions := [Wipe(t, id)] + rest;
    }
  }

  lemma SomeKey<K, V>(files: map<K, V>) returns (key: K)
    requires files != map[]
    ensures key in files
  {
    assert files.Keys != {};
    key :| key in files.Keys;
  }

  /** The slots were filled at the time given, with the least lifespan or more. */
  ghost predicate ListedAt(b: M.Board, now: int) {
    forall i :: 0 <= i < |b.slots| && b.slots[i].active ==>
      b.slots[i].spawnTime == now && b.slots[i].lifespan >= M.MARKET_LIFE_MIN_SEC
  }

  /** In a reset, when the first k seeds have been listed again. */
  ghost predicate Relisted(s: P.State, k: nat, now: int) {
    && s.threads == [P.Idle, P.Idle] && |s.boxes| > 0
    && M.FreeFrom(s.board, k) && M.Consistent(s.board) && s.board.mask == 0 && ListedAt(s.board, now)
    && (forall j :: 0 <= j < k && j < |E.SEED_DOCS| ==> E.SEED_DOCS[j].docId in M.Ids(s.board))
  }

  lemma ListAt(b: M.Board, doc: M.Offer, now: int)
    requires ListedAt(b, now)
    ensures ListedAt(M.AddOffer(b, doc, now, 0), now)
  {
    hide M.FirstFreeFrom;
  }

  lemma OneSeed(s: P.State, k: nat, now: int) returns (actions: seq<Action>)
    requires Relisted(s, k, now) && k < |E.SEED_DOCS|
    ensures Relisted(After(s, actions), k + 1, now) && After(s, actions).counter == s.counter
  {
    hide After, M.Ids, M.Offers, M.Consistent, M.AddOffer, M.HasRoom, M.FreeFrom, ListedAt;
    var doc := E.SEED_DOCS[k];
    var write, list := WriteSeed(1, doc), ListSeed(1, now, 0);
    actions := [write] + ([list] + []);
    AfterFirst(s, write, [list] + []);
    AfterFirst(Step(s, write), list, []);
    AfterNone(Step(Step(s, write), list));
    M.FreeRoom(s.board, k, doc, now, 0);
    M.AddKeeps(s.board, doc, now, 0);
    M.AddKeepsMask(s.board, doc, now, 0);
    ListAt(s.board, doc, now);
  }

  lemma FourSeeds(s: P.State, now: int) returns (actions: seq<Action>)
    requires Relisted(s, 0, now)
    ensures Relisted(After(s, actions), 4, now) && After(s, actions).counter == s.counter
  {
    hide After, Relisted;
    var a := OneSeed(s, 0, now);
    var b := OneSeed(After(s, a), 1, now);
    AfterJoin(s, a, b);
    var c := OneSeed(After(s, a + b), 2, now);
    AfterJoin(s, a + b, c);
    var d := OneSeed(After(s, a + b + c), 3, now);
    AfterJoin(s, a + b + c, d);
    actions := a + b + c + d;
  }

  lemma Wiped(s: P.State) returns (actions: seq<Action>)
    requires s.threads == [P.Idle, P.Idle]
    ensures After(s, actions) == s.(master := map[], board := M.EmptyBoard())
  {
    hide After, M.EmptyBoard;
    var begun := Step(s, Begin(1));
    assert begun == s.(threads := [P.Idle, P.Resetting]);
    var wipes := WipeAll(begun, 1);
    var wiped := begun.(master := map[]);
    AfterFirst(s, Begin(1), wipes);
    AfterJoin(s, [Begin(1)] + wipes, [Init(1)] + []);
    AfterFirst(wiped, Init(1), []);
    AfterNone(Step(wiped, Init(1)));
    actions := [Begin(1)] + wipes + ([Init(1)] + []);
    assert Step(wiped, Init(1)) == s.(master := map[], board := M.EmptyBoard());
  }

  /** A whole reset, with nobody on his way: the seeds are listed again. */
  lemma WholeReset(s: P.State, now: int) returns (actions: seq<Action>)
    requires s.threads == [P.Idle, P.Idle] && |s.boxes| > 0
    ensures Relisted(After(s, actions), 4, now) && After(s, actions).counter == s.counter
  {
    hide After, M.FreeFrom, M.Consistent, M.Ids, M.Offers;
    var wipe := Wiped(s);
    M.EmptyIsEmpty();
    M.EmptyFree();
    var empty := After(s, wipe);
    EmptyListed(now);
    var seeds := FourSeeds(empty, now);
    AfterJoin(s, wipe, seeds);
    actions := wipe + seeds;
  }

  lemma EmptyListed(now: int)
    ensures ListedAt(M.EmptyBoard(), now)
  {
  }

  // The seed that is listed again while its id is still to be counted.

  lemma NothingAges(b: M.Board, now: int)
    requires ListedAt(b, now)
    ensures M.AgeOut(b, now + 5) == b && M.AgedIds(b, now + 5) == []
  {
    assert M.AgeOut(b, now + 5).slots == b.slots;
    BagAllEmpty(M.ExpiredCells(b.slots, now + 5));
  }

  /** The tick after the reset ages nothing, and then its spawn comes to the id 47. */
  lemma NextTick(s: P.State, now: int) returns (actions: seq<P.Action>)
    requires Relisted(s, 4, now)
    ensures P.After(s, actions) == s
  {
    hide P.After, M.Consistent, M.Ids, M.Offers, M.FreeFrom, ListedAt;
    NothingAges(s.board, now);
    var aged := P.Step(s, P.Age(0, now + 5));
    assert aged == s.(threads := [P.Clearing([]), P.Idle]);
    actions := [P.Age(0, now + 5)] + ([P.Clear(0)] + []);
    PurchaseSeeds.AfterOne(s, P.Age(0, now + 5), [P.Clear(0)] + []);
    PurchaseSeeds.AfterOne(aged, P.Clear(0), []);
    assert P.Step(aged, P.Clear(0)) == s;
    NoSteps(s);
  }

  lemma RelistedStrands(s: P.State, now: int) returns (actions: seq<Action>)
    requires Relisted(s, 4, now) && s.counter == 46
    ensures var after := After(s, actions);
      && |after.threads| == 2 && after.threads[0].Holding? && after.threads[0].doc.docId == 47
      && 47 !in after.master && P.Step(after, P.Move(0)).threads[0].Stranded? && !ResetOn(after)
  {
    hide After, P.After, P.Step, M.Consistent, M.Ids, M.Offers, M.FreeFrom, M.HasRoom, M.AddOffer, ListedAt;
    var tick := NextTick(s, now);
    assert E.SEED_DOCS[2].docId == 47;
    M.FreeRoom(s.board, 4, E.SEED_DOCS[0], 0, 0);
    var strand := ReusedIdStrands(s, 0, 1, 400, "", now + 5);
    PurchaseSeeds.AfterConcat(s, tick, strand);
    actions := Served(tick + strand);
    ServedRun(s, tick + strand);
  }

  lemma StartOpen(users: nat, now: int, rolls: seq<nat>)
    requires |rolls| == 4 && users > 0
    ensures var s := P.Step(P.Step(Boot(users, E.SEED_DOCS, now, rolls), P.Fork), P.Fork);
      Open(s) && s.counter == 0 && 47 in M.Ids(s.board)
  {
    hide Boot, P.Core, P.Past, Counted, Known, M.Ids, M.Offers, M.Consistent, M.HasRoom, M.FreeFrom, M.AddOffer;
    var start := Boot(users, E.SEED_DOCS, now, rolls);
    SeedsStart(users, now, rolls);
    BootBoard(users, E.SEED_DOCS, now, rolls);
    M.FreeRoom(start.board, 4, E.SEED_DOCS[0], 0, 0);
    assert E.SEED_DOCS[2].docId == 47;
  }

  lemma TwoForks(users: nat, now: int, rolls: seq<nat>) returns (actions: seq<Action>)
    requires |rolls| == 4 && users > 0
    ensures var s := After(Boot(users, E.SEED_DOCS, now, rolls), actions);
      Open(s) && s.counter == 0 && 47 in M.Ids(s.board)
  {
    hide Boot, After, P.Step, Open, M.Ids;
    var start := Boot(users, E.SEED_DOCS, now, rolls);
    StartOpen(users, now, rolls);
    actions := [Serve(P.Fork)] + ([Serve(P.Fork)] + []);
    AfterFirst(start, Serve(P.Fork), [Serve(P.Fork)] + []);
    AfterFirst(P.Step(start, P.Fork), Serve(P.Fork), []);
    AfterNone(P.Step(P.Step(start, P.Fork), P.Fork));
  }

  /** The server gets there by itself: forty-six ticks each age the board, spawn a document
      and sell it; a round reset lists the seeds again, but the counter goes on; the next tick
      reuses the id 47, two buyers win it, and the second finds no file. */
  lemma SeedsLeadToStranding(users: nat, now: int, rolls: seq<nat>) returns (actions: seq<Action>)
    requires |rolls| == 4 && users > 0
    ensures var after := After(Boot(users, E.SEED_DOCS, now, rolls), actions);
      && |after.threads| == 2 && after.threads[0].Holding? && after.threads[0].doc.docId == 47
      && 47 !in after.master && P.Step(after, P.Move(0)).threads[0].Stranded? && !ResetOn(after)
  {
    hide Boot, OpenBoard, P.Step, Step, After, P.After, Relisted, M.Ids;
    var start := Boot(users, E.SEED_DOCS, now, rolls);
    var forks := TwoForks(users, now, rolls);
    var forked := After(start, forks);
    var ticks := Ticks(forked, now + 5, 46);
    ServedRun(forked, ticks);
    AfterJoin(start, forks, Served(ticks));
    var full := After(start, forks + Served(ticks));
    OpenHasBox(full);
    var reset := WholeReset(full, now + 240);
    AfterJoin(start, forks + Served(ticks), reset);
    var strand := RelistedStrands(After(full, reset), now + 240);
    AfterJoin(start, forks + Served(ticks) + reset, strand);
    actions := forks + Served(ticks) + reset + strand;
  }

  lemma OpenHasBox(s: P.State)
    requires Open(s)
    ensures |s.boxes| > 0
  {
  }

  // The put-back after the board was cleared.

  /** A buyer has taken an offer when a reset begins; after market_init his move fails and the
      put-back lists an offer without its file, which no reset is under way to clear. */
  lemma LatePutBack(users: nat, now: int, rolls: seq<nat>) returns (actions: seq<Action>)
    requires |rolls| == 4 && users > 0
    ensures var after := After(Boot(users, E.SEED_DOCS, now, rolls), actions);
      && after.threads == [P.Idle, P.Idle] && !ResetOn(after)
      && 47 in M.Ids(after.board) && 47 !in after.master
  {
    hide Boot, P.Step, Step, After, M.Ids, OpenBoard;
    var start := Boot(users, E.SEED_DOCS, now, rolls);
    var forks := TwoForks(users, now, rolls);
    var late := PutsBackLate(After(start, forks), now);
    AfterJoin(start, forks, late);
    actions := forks + late;
  }

  lemma PutsBackLate(s: P.State, now: int) returns (actions: seq<Action>)
    requires Open(s) && 47 in M.Ids(s.board)
    ensures var after := After(s, actions);
      && after.threads == [P.Idle, P.Idle]
      && 47 in M.Ids(after.board) && 47 !in after.master
  {
    hide After, M.Ids, M.Offers, M.Consistent, M.HasRoom, M.Take, M.AfterTake, M.EmptyBoard, M.AddOffer;
    TakeWins(s.board, 47);
    M.TakeKeeps(s.board, 47);
    var taken := P.Step(s, P.Take(0, 0, 47));
    var doc := M.Take(s.board, 47).slot.offer;
    assert taken.threads == [P.Holding(0, doc), P.Idle] && doc.docId == 47;
    var wipes := WipeAll(Step(taken, Begin(1)), 1);
    AfterFirst(s, Serve(P.Take(0, 0, 47)), [Begin(1)] + wipes);
    AfterFirst(taken, Begin(1), wipes);
    var first := [Serve(P.Take(0, 0, 47))] + ([Begin(1)] + wipes);
    var wiped := After(s, first);
    assert wiped.threads == [P.Holding(0, doc), P.Resetting] && wiped.master == map[];
    var rest := FailsAndPutsBack(wiped, doc, now);
    AfterJoin(s, first, rest);
    actions := first + rest;
  }

  lemma FailsAndPutsBack(s: P.State, doc: M.Offer, now: int) returns (actions: seq<Action>)
    requires s.threads == [P.Holding(0, doc), P.Resetting] && s.master == map[] && |s.boxes| > 0
    ensures var after := After(s, actions);
      after.threads == [P.Idle, P.Idle] && doc.docId in M.Ids(after.board) && after.master == map[]
  {
    hide After, M.Ids, M.Offers, M.HasRoom, M.EmptyBoard, M.AddOffer, M.FreeFrom;
    var init, move, back := Init(1), Serve(P.Move(0)), Serve(P.PutBack(0, now, 0));
    actions := [init] + ([move] + ([back] + []));
    AfterFirst(s, init, [move] + ([back] + []));
    AfterFirst(Step(s, init), move, [back] + []);
    AfterFirst(Step(Step(s, init), move), back, []);
    AfterNone(Step(Step(Step(s, init), move), back));
    M.EmptyFree();
    M.FreeRoom(M.EmptyBoard(), 0, doc, now, 0);
    M.AddKeeps(M.EmptyBoard(), doc, now, 0);
    assert Step(s, init).threads == [P.Holding(0, doc), P.Idle];
    assert Step(Step(s, init), move).threads == [P.Stranded(doc), P.Idle];
  }
}
