// The small steps against the whole: a purchase, a spawn, an ageing pass, a disposal, a leak and
// a round reset that nobody interrupts do to board and files what the one event does.
module Refinement {
  import opened Prelude
  import opened RandomTags
  import opened Sandbox
  import opened Economy
  import P = Purchase
  import PR = PurchaseResets
  import PS = PurchaseSeeds
  import D = Dispatch
  import V = EventEffects
  import M = Market
  import UserDb
  import Escape
  import Effects
  import NpcBoard
  import Masks
  import Tags

  /** The same board, master directory and sandboxes, those of the keys in their order. */
  ghost predicate Same(s: P.State, w: World, keys: seq<Key>) {
    && s.board == w.board && s.master == w.files.master && |s.boxes| == |keys| && Distinct(keys)
    && forall u :: 0 <= u < |keys| ==> keys[u] in w.files.users && s.boxes[u] == w.files.users[keys[u]].Keys
  }

  predicate IsIdle(s: P.State, t: nat) {
    t < |s.threads| && s.threads[t].Idle?
  }

  // Purchases.

  lemma TakesAt(s: P.State, t: nat, user: nat, docId: int, i: nat)
    requires IsIdle(s, t) && D.SellsFirst(s.board.slots, docId, i) && !s.board.slots[i].frozen
    ensures P.Step(s, P.Take(t, user, docId))
      == s.(board := s.board.(slots := s.board.slots[i := s.board.slots[i].(active := false)]),
            threads := s.threads[t := P.Holding(user, s.board.slots[i].offer)])
  {
    D.SellsFirstIs(s.board.slots, docId, i);
  }

  /** A purchase that succeeds is a take and a move. */
  lemma BuyRefines(s: P.State, w: World, keys: seq<Key>, t: nat, user: nat, docId: int, env: BuyEnv, i: nat)
    requires Same(s, w, keys) && IsIdle(s, t) && user < |keys| && |w.ladder.log| == MAX_SCORE_ESCAPED && keys[user] in w.online
    requires D.SellsFirst(w.board.slots, docId, i) && Step(w, BuyEvent(keys[user], docId, env)).reply.Bought?
    ensures var bought := P.Step(P.Step(s, P.Take(t, user, docId)), P.Move(t));
      Same(bought, Step(w, BuyEvent(keys[user], docId, env)).world, keys) && bought.threads == s.threads
  {
    hide Step;
    D.BuyEventDoes(w, keys[user], docId, env, i);
    TakesAt(s, t, user, docId, i);
    var bought := P.Step(P.Step(s, P.Take(t, user, docId)), P.Move(t));
    assert bought.threads == s.threads[t := P.Holding(user, s.board.slots[i].offer)][t := P.Idle] == s.threads;
  }

  /** One whose file is not there is a take, a failed move and a put-back. */
  lemma PutBackRefines(s: P.State, w: World, keys: seq<Key>, t: nat, user: nat, docId: int, env: BuyEnv, i: nat)
    requires Same(s, w, keys) && IsIdle(s, t) && user < |keys| && |w.ladder.log| == MAX_SCORE_ESCAPED && keys[user] in w.online
    requires D.SellsFirst(w.board.slots, docId, i) && docId !in w.files.master
    requires Step(w, BuyEvent(keys[user], docId, env)).reply == Refused(DocNotFound)
    ensures var back := P.Step(P.Step(P.Step(s, P.Take(t, user, docId)), P.Move(t)), P.PutBack(t, env.now, env.roll));
      Same(back, Step(w, BuyEvent(keys[user], docId, env)).world, keys) && back.threads == s.threads
  {
    hide Step, M.AddOffer;
    D.BuyEventDoes(w, keys[user], docId, env, i);
    TakesAt(s, t, user, docId, i);
    PutsBack(w, keys[user], docId, env, i);
    var offer := s.board.slots[i].offer;
    var failed := P.Step(P.Step(s, P.Take(t, user, docId)), P.Move(t));
    assert failed.threads == s.threads[t := P.Holding(user, offer)][t := P.Stranded(offer)];
    var back := P.Step(failed, P.PutBack(t, env.now, env.roll));
    assert back.threads == s.threads;
  }

  lemma PutsBack(w: World, key: Key, docId: int, env: BuyEnv, i: nat)
    requires |w.ladder.log| == MAX_SCORE_ESCAPED && key in w.online && D.SellsFirst(w.board.slots, docId, i)
    requires docId !in w.files.master && Step(w, BuyEvent(key, docId, env)).reply == Refused(DocNotFound)
    ensures var taken := w.board.(slots := w.board.slots[i := w.board.slots[i].(active := false)]);
      var after := Step(w, BuyEvent(key, docId, env)).world;
      after.board == M.AddOffer(taken, w.board.slots[i].offer, env.now, env.roll) && after.files == w.files
  {
    hide M.AddOffer, UserDb.Has, UserDb.Money, UserDb.SetBalance;
    D.SellsFirstIs(w.board.slots, docId, i);
    D.BuyAnswer(w, key, docId, env, i);
  }

  // Spawning and ageing.

  /** A spawn is a write and a listing. */
  lemma SpawnRefines(s: P.State, w: World, keys: seq<Key>, t: nat, maskRead: bv32, tagRolls: seq<nat>, priceRoll: nat,
                     name: Name, now: int, roll: nat, i: nat)
    requires Same(s, w, keys) && IsIdle(s, t) && |w.ladder.log| == MAX_SCORE_ESCAPED && |tagRolls| == 4
    requires V.FreeFirst(w.board.slots, i) && PickTags(maskRead, tagRolls) != 0
    ensures var tags := PickTags(maskRead, tagRolls);
      var listed := P.Step(P.Step(s, P.Write(t, tags, SpawnPrice(tags, priceRoll), name)), P.List(t, now, roll));
      && Same(listed, Step(w, SpawnEvent(s.counter + 1, maskRead, tagRolls, priceRoll, name, now, roll)).world, keys)
      && listed.threads == s.threads && listed.counter == s.counter + 1
  {
    hide PickTags, SpawnPrice, M.AddOffer, Tags.PopCount;
    var tags := PickTags(maskRead, tagRolls);
    V.SpawnEventDoes(w, s.counter + 1, maskRead, tagRolls, priceRoll, name, now, roll, i);
    V.Drawn(maskRead, tagRolls);
    V.Worth(tags, priceRoll);
    V.AddsAt(s.board, M.Offer(s.counter + 1, tags, SpawnPrice(tags, priceRoll), name), now, roll, i);
  }

  /** A document that finds no slot any more leaves nothing behind. */
  lemma UnlistedGoes(s: P.State, w: World, keys: seq<Key>, t: nat, tags: bv32, price: int, name: Name, now: int, roll: nat)
    requires Same(s, w, keys) && IsIdle(s, t) && s.counter + 1 !in s.master
    requires forall i :: 0 <= i < |s.board.slots| ==> s.board.slots[i].active
    ensures var gone := P.Step(P.Step(P.Step(s, P.Write(t, tags, price, name)), P.List(t, now, roll)), P.Unwrite(t));
      Same(gone, w, keys) && gone.threads == s.threads
  {
    var id := s.counter + 1;
    var doc := M.Offer(id, tags, price, name);
    assert s.master[id := doc] - {id} == s.master;
    assert s.threads[t := P.Wrote(doc)][t := P.Unlisted(doc)][t := P.Idle] == s.threads;
  }

  /** The ager's loop over what it took off the board. */
  function ClearAll(s: P.State, t: nat, n: nat): P.State
    decreases n
  {
    if n == 0 then s else ClearAll(P.Step(s, P.Clear(t)), t, n - 1)
  }

  lemma {:induction false} ClearsAll(s: P.State, t: nat, ids: seq<int>)
    requires t < |s.threads| && s.threads[t] == P.Clearing(ids)
    ensures ClearAll(s, t, |ids| + 1) == s.(threads := s.threads[t := P.Idle], master := s.master - (set id | id in ids))
    decreases |ids|
  {
    hide M.AddOffer, M.Take, M.AfterTake, M.AgeOut, M.AgedIds, M.Freeze, M.Unfreeze, M.HasRoom;
    var next := P.Step(s, P.Clear(t));
    if ids == [] {
      assert ClearAll(next, t, 0) == next;
      assert s.master - (set id | id in ids) == s.master;
    } else {
      ClearsAll(next, t, ids[1..]);
      assert next.threads[t := P.Idle] == s.threads[t := P.Idle];
      Unlinks(s.master, ids);
    }
  }

  lemma Unlinks(master: map<int, M.Offer>, ids: seq<int>)
    requires ids != []
    ensures master - {ids[0]} - (set id | id in ids[1..]) == master - (set id | id in ids)
  {
    assert ids == [ids[0]] + ids[1..];
  }

  /** An ageing pass is one section of the board and an unlink for each offer that went. */
  lemma AgeRefines(s: P.State, w: World, keys: seq<Key>, t: nat, now: int)
    requires Same(s, w, keys) && IsIdle(s, t) && |w.ladder.log| == MAX_SCORE_ESCAPED
    ensures var aged := P.Step(s, P.Age(t, now));
      && aged.threads[t].Clearing?
      && var cleared := ClearAll(aged, t, |aged.threads[t].ids| + 1);
      Same(cleared, Step(w, AgeEvent(now)).world, keys) && cleared.threads == s.threads
  {
    hide M.AgedIds, M.AgeOut, NpcBoard.AgeOut, ClearAll;
    var aged := P.Step(s, P.Age(t, now));
    ClearsAll(aged, t, M.AgedIds(s.board, now));
    assert aged.threads[t := P.Idle] == s.threads;
  }

  // One section each.

  lemma FreezeRefines(s: P.State, w: World, keys: seq<Key>, tags: bv32)
    requires Same(s, w, keys) && |w.ladder.log| == MAX_SCORE_ESCAPED
    ensures var frozen := P.Step(s, P.FreezeTags(tags));
      Same(frozen, Step(w, FreezeEvent(tags)).world, keys) && frozen.threads == s.threads
  {
    hide M.Freeze;
  }

  lemma UnfreezeRefines(s: P.State, w: World, keys: seq<Key>, tags: bv32)
    requires Same(s, w, keys) && |w.ladder.log| == MAX_SCORE_ESCAPED
    ensures var thawed := P.Step(s, P.UnfreezeTags(tags));
      Same(thawed, Step(w, UnfreezeEvent(tags)).world, keys) && thawed.threads == s.threads
  {
    hide M.Unfreeze;
  }

  lemma DisposeRefines(s: P.State, w: World, keys: seq<Key>, user: nat, docId: int)
    requires Same(s, w, keys) && user < |keys| && |w.ladder.log| == MAX_SCORE_ESCAPED && keys[user] in w.online
    ensures var gone := P.Step(s, P.Discard(user, docId));
      Same(gone, Step(w, DisposeEvent(keys[user], docId)).world, keys) && gone.threads == s.threads
  {
    hide Step;
    D.DisposeEventDoes(w, keys[user], docId);
    var held := Held(w.files, keys[user]);
    assert (held - {docId}).Keys == held.Keys - {docId};
    if docId !in held {
      assert s.boxes[user] - {docId} == s.boxes[user];
    }
  }

  // The round reset.

  /** Between begin and market_init: all files of the master directory and of the sandboxes. */
  ghost predicate Swept(s: P.State, begun: P.State) {
    s == begun.(master := map[], boxes := seq(|begun.boxes|, _ => {}))
  }

  function ListAll(s: P.State, t: nat, docs: seq<M.Offer>, now: int, rolls: seq<nat>): P.State
    requires |docs| == |rolls|
    decreases |docs|
  {
    if docs == [] then s
    else
      ListAll(PR.Step(PR.Step(s, PR.WriteSeed(t, docs[0])), PR.ListSeed(t, now, rolls[0])), t, docs[1..], now, rolls[1..])
  }

  lemma {:induction false} ListsAll(s: P.State, t: nat, docs: seq<M.Offer>, now: int, rolls: seq<nat>, w: World)
    requires |docs| == |rolls| && IsIdle(s, t) && s.board == w.board && s.master == w.files.master
    ensures var after, seeded := ListAll(s, t, docs, now, rolls), SeedDocs(w, docs, now, rolls);
      after.board == seeded.board && after.master == seeded.files.master && after.threads == s.threads && after.boxes == s.boxes
    decreases |docs|
  {
    hide M.AddOffer;
    if docs != [] {
      var next := PR.Step(PR.Step(s, PR.WriteSeed(t, docs[0])), PR.ListSeed(t, now, rolls[0]));
      assert next.threads == s.threads[t := P.Wrote(docs[0])][t := P.Idle] == s.threads;
      ListsAll(next, t, docs[1..], now, rolls[1..],
               w.(files := w.files.(master := w.files.master[docs[0].docId := docs[0]]),
                  board := M.AddOffer(w.board, docs[0], now, rolls[0])));
    }
  }

  /** A whole reset leaves board and files as the event does: it begins, sweeps the directories,
      clears the board and lists the seeds. */
  lemma ResetRefines(s: P.State, w: World, keys: seq<Key>, t: nat, now: int, rolls: seq<nat>, swept: P.State)
    requires Same(s, w, keys) && IsIdle(s, t) && |w.ladder.log| == MAX_SCORE_ESCAPED && |rolls| == 4
    requires Swept(swept, PR.Step(s, PR.Begin(t)))
    ensures var cleared := PR.Step(swept, PR.Init(t));
      var after := ListAll(cleared, t, SEED_DOCS, now, rolls);
      Same(after, Step(w, ResetEvent(now, rolls)).world, keys) && after.threads == s.threads
  {
    hide SeedDocs, ListAll, M.EmptyBoard, Escape.NewLadder, UserDb.Reset, NpcBoard.AddRequest, Masks.Join;
    var cleared := PR.Step(swept, PR.Init(t));
    assert cleared.threads == s.threads[t := P.Resetting][t := P.Idle] == s.threads;
    var clean := w.(files := PurgeAll(w.files), records := UserDb.Reset(w.records, INITIAL_MONEY), board := M.EmptyBoard(),
                    npcs := NpcBoard.EmptyNpcs(), ladder := Escape.NewLadder(), rumorUntil := 0);
    ListsAll(cleared, t, SEED_DOCS, now, rolls, clean);
    ResetUsers(w, now, rolls);
    assert Step(w, ResetEvent(now, rolls)).world == Seed(clean, now, rolls);
  }

  lemma ResetUsers(w: World, now: int, rolls: seq<nat>)
    requires |rolls| == 4
    ensures RoundReset(w, now, rolls).files.users == PurgeAll(w.files).users
  {
    hide RoundReset, M.Offers, NpcBoard.Requests, Masks.Join, Effects.Filed, Escape.NewLadder, UserDb.Reset;
    Effects.ResetBoards(w, now, rolls);
  }

  /** The unlinks of a reset, one file each: the master directory empties. */
  lemma {:induction false} WipesMaster(s: P.State, t: nat, ids: seq<int>)
    requires PR.InReset(s, t)
    ensures WipeIds(s, t, ids) == s.(master := s.master - (set id | id in ids))
    decreases |ids|
  {
    if ids == [] {
      assert s.master - (set id | id in ids) == s.master;
    } else {
      WipesMaster(PR.Step(s, PR.Wipe(t, ids[0])), t, ids[1..]);
      Unlinks(s.master, ids);
    }
  }

  function WipeIds(s: P.State, t: nat, ids: seq<int>): P.State
    decreases |ids|
  {
    if ids == [] then s else WipeIds(PR.Step(s, PR.Wipe(t, ids[0])), t, ids[1..])
  }

  /** And so does a sandbox. */
  lemma EmptiesBox(s: P.State, t: nat, user: nat, id: int)
    requires PR.InReset(s, t) && user < |s.boxes|
    ensures PR.Step(s, PR.Empty(t, user, id)) == s.(boxes := s.boxes[user := s.boxes[user] - {id}])
  {
  }

  // The start.

  function OneSeed(w: World, doc: M.Offer, now: int, roll: nat): World {
    w.(files := w.files.(master := w.files.master[doc.docId := doc]), board := M.AddOffer(w.board, doc, now, roll))
  }

  lemma {:induction false} SeedsLast(w: World, docs: seq<M.Offer>, now: int, rolls: seq<nat>)
    requires |docs| == |rolls| > 0
    ensures var n := |docs| - 1;
      SeedDocs(w, docs, now, rolls) == OneSeed(SeedDocs(w, docs[..n], now, rolls[..n]), docs[n], now, rolls[n])
    decreases |docs|
  {
    hide M.AddOffer;
    var n := |docs| - 1;
    if n == 0 {
      assert SeedDocs(OneSeed(w, docs[0], now, rolls[0]), docs[1..], now, rolls[1..]) == OneSeed(w, docs[0], now, rolls[0]);
    } else {
      SeedsLast(OneSeed(w, docs[0], now, rolls[0]), docs[1..], now, rolls[1..]);
      assert docs[1..][..n - 1] == docs[..n][1..] && rolls[1..][..n - 1] == rolls[..n][1..];
    }
  }

  lemma {:induction false} SeedsSame(users: nat, docs: seq<M.Offer>, now: int, rolls: seq<nat>, w: World)
    requires |docs| == |rolls| && w.board == M.EmptyBoard() && w.files.master == map[]
    ensures var s, seeded := PS.Boot(users, docs, now, rolls), SeedDocs(w, docs, now, rolls);
      s.board == seeded.board && s.master == seeded.files.master && s.boxes == seq(users, _ => {})
    decreases |docs|
  {
    hide M.AddOffer, M.EmptyBoard, SeedDocs;
    if docs == [] {
      NoSeeds(w, now);
    } else {
      var n := |docs| - 1;
      SeedsSame(users, docs[..n], now, rolls[..n], w);
      SeedsLast(w, docs, now, rolls);
    }
  }

  lemma NoSeeds(w: World, now: int)
    ensures SeedDocs(w, [], now, []) == w
  {
  }

  /** The small steps start where the server starts, before anyone has a directory. */
  lemma BootSame(now: int, rolls: seq<nat>)
    requires |rolls| == 4
    ensures Same(PS.Boot(0, SEED_DOCS, now, rolls), Boot(now, rolls), [])
  {
    hide SeedDocs, PS.Boot, M.EmptyBoard, Escape.NewLadder, UserDb.Reset, NpcBoard.AddRequest, Masks.Join;
    var nothing := World(M.EmptyBoard(), NpcBoard.EmptyNpcs(), [], Files(map[], map[]), Escape.NewLadder(), 0, {});
    var clean := nothing.(files := PurgeAll(nothing.files), records := UserDb.Reset(nothing.records, INITIAL_MONEY));
    SeedsSame(0, SEED_DOCS, now, rolls, clean);
    assert Boot(now, rolls) == Seed(clean, now, rolls);
  }
}
