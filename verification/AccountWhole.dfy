// The sections of the account file against the whole events: a request that nobody comes between
// writes the balance that the event writes, and leaves as many documents.
module AccountWhole {
  import opened Prelude
  import opened UserDb
  import opened Sandbox
  import A = AccountRaces
  import E = Economy
  import M = Market
  import N = NpcBoard
  import Effects
  import Masks

  /** The same records, and for each key as many documents as its directory holds. */
  ghost predicate Same(s: A.State, w: E.World) {
    s.records == w.records && SameDocs(s.docs, w.files)
  }

  ghost predicate SameDocs(docs: multiset<Key>, files: Files) {
    forall k: Key :: docs[k] == |Held(files, k)|
  }

  predicate Ready(s: A.State, t: nat) {
    t < |s.threads| && s.threads[t].Idle?
  }

  lemma ReadsCopy(s: A.State, t: nat, key: Key)
    requires Ready(s, t) && Has(s.records, key)
    ensures A.Step(s, A.Read(t, key)) == s.(threads := s.threads[t := A.Copied(key, IndexOf(s.records, key), Money(s.records, key))])
  {
    hide IndexOf;
  }

  lemma WritesBack(s: A.State, t: nat, thread: A.Thread, money: int)
    requires t < |s.threads| && A.HasCopy(thread) && thread.index == IndexOf(s.records, thread.key) < |s.records|
    ensures A.Writes(s.(threads := s.threads[t := thread]), t, money)
      == s.(records := SetBalance(s.records, thread.key, money), threads := s.threads[t := A.Idle])
  {
    hide IndexOf;
    assert s.threads[t := thread][t := A.Idle] == s.threads[t := A.Idle];
  }

  /** Sabotage. */
  lemma RumorRefines(s: A.State, w: E.World, t: nat, key: Key, now: int)
    requires Same(s, w) && Ready(s, t) && E.Rumor(w, key, now).1.Rumored?
    ensures var paid := A.Step(A.Step(s, A.Read(t, key)), A.Rumor(t));
      Same(paid, E.Rumor(w, key, now).0) && paid.threads == s.threads
  {
    hide IndexOf, SameDocs;
    ReadsCopy(s, t, key);
    WritesBack(s, t, A.Copied(key, IndexOf(s.records, key), Money(s.records, key)), Money(s.records, key) - 500);
    assert s.threads[t := A.Idle] == s.threads;
  }

  /** A request that fails one of its checks leaves all as it was. */
  lemma RefusalLeaves(s: A.State, t: nat, key: Key, price: int, bounty: int)
    requires Ready(s, t)
    ensures !Has(s.records, key) ==> A.Step(s, A.Read(t, key)) == s
    ensures Has(s.records, key) ==>
      var copied := A.Step(s, A.Read(t, key));
      && A.Step(copied, A.GiveUp(t)) == s
      && (Money(s.records, key) < price ==> A.Step(copied, A.Move(t, price)) == s && A.Step(copied, A.Escape(t, price)) == s)
      && (Money(s.records, key) < 500 ==> A.Step(copied, A.Rumor(t)) == s)
    ensures key in s.docs ==> A.Step(A.Step(s, A.CheckSale(t, key, bounty)), A.GiveUp(t)) == s
    ensures key !in s.docs ==> A.Step(s, A.CheckSale(t, key, bounty)) == s
  {
    hide IndexOf;
    assert s.threads[t := A.Idle] == s.threads;
    if Has(s.records, key) {
      var copy := A.Copied(key, IndexOf(s.records, key), Money(s.records, key));
      assert s.threads[t := copy][t := A.Idle] == s.threads;
    }
    assert s.threads[t := A.Owed(key, bounty)][t := A.Idle] == s.threads;
  }

  /** A purchase: read, move, charge. */
  lemma BuyRefines(s: A.State, w: E.World, t: nat, key: Key, docId: int, env: E.BuyEnv)
    requires Same(s, w) && Ready(s, t) && E.Buy(w, key, docId, env).1.Bought? && docId !in Held(w.files, key)
    ensures var bought := A.Step(A.Step(A.Step(s, A.Read(t, key)), A.Move(t, E.Buy(w, key, docId, env).1.offer.price)), A.Charge(t));
      Same(bought, E.Buy(w, key, docId, env).0) && bought.threads == s.threads
  {
    hide IndexOf, M.Find, M.AfterTake, M.AddOffer, CountDocs, SameDocs;
    var price := E.Buy(w, key, docId, env).1.offer.price;
    var index, money := IndexOf(s.records, key), Money(s.records, key);
    var copied, charged := A.Copied(key, index, money), A.Charged(key, index, money, price);
    ReadsCopy(s, t, key);
    var moved := s.(docs := s.docs + multiset{key});
    assert A.Step(s.(threads := s.threads[t := copied]), A.Move(t, price)) == moved.(threads := s.threads[t := charged]) by {
      assert s.threads[t := copied][t := charged] == s.threads[t := charged];
    }
    WritesBack(moved, t, charged, money - price);
    assert s.threads[t := A.Idle] == s.threads;
    MoreDocs(s.docs, w.files, key, docId);
  }

  lemma MoreDocs(docs: multiset<Key>, files: Files, key: Key, docId: int)
    requires SameDocs(docs, files) && CanMove(files, key, docId) && docId !in Held(files, key)
    ensures SameDocs(docs + multiset{key}, MoveDoc(files, key, docId))
  {
    forall k: Key ensures (docs + multiset{key})[k] == |Held(MoveDoc(files, key, docId), k)| {
      assert docs[k] == |Held(files, k)|;
      if k == key {
        OneMoreKey(files.users[key], docId, files.master[docId]);
      }
    }
  }

  lemma OneMoreKey<K, V>(m: map<K, V>, k: K, v: V)
    requires k !in m
    ensures |m[k := v]| == |m| + 1
  {
    assert m[k := v].Keys == m.Keys + {k};
    assert |m[k := v]| == |m[k := v].Keys| && |m| == |m.Keys|;
  }

  /** An escape: read, purge, write. */
  lemma PayoffRefines(s: A.State, w: E.World, t: nat, key: Key, now: int)
    requires Same(s, w) && Ready(s, t) && |w.ladder.log| == MAX_SCORE_ESCAPED && E.Payoff(w, key, now).1.Escaped?
    ensures var escaped := A.Step(A.Step(A.Step(s, A.Read(t, key)), A.Purge(key)), A.Escape(t, w.ladder.goal));
      Same(escaped, E.Payoff(w, key, now).0) && escaped.threads == s.threads
  {
    hide IndexOf, SameDocs, Purge;
    ReadsCopy(s, t, key);
    var copied := A.Copied(key, IndexOf(s.records, key), Money(s.records, key));
    WritesBack(s.(docs := s.docs[key := 0]), t, copied, INITIAL_MONEY);
    assert s.threads[t := A.Idle] == s.threads;
    NoDocs(s.docs, w.files, key);
  }

  lemma NoDocs(docs: multiset<Key>, files: Files, key: Key)
    requires SameDocs(docs, files)
    ensures SameDocs(docs[key := 0], Purge(files, key))
  {
    forall k: Key ensures docs[key := 0][k] == |Held(Purge(files, key), k)| {
      assert docs[k] == |Held(files, k)|;
    }
  }

  /** A raid's burn: read, mark, purge. */
  lemma BurnRefines(s: A.State, w: E.World, t: nat, key: Key)
    requires Same(s, w) && Ready(s, t) && Has(w.records, key)
    ensures var burned := A.Step(A.Step(A.Step(s, A.Read(t, key)), A.BurnAt(t)), A.Purge(key));
      Same(burned, E.Burn(w, key)) && burned.threads == s.threads
  {
    hide IndexOf, SameDocs, Purge;
    ReadsCopy(s, t, key);
    WritesBack(s, t, A.Copied(key, IndexOf(s.records, key), Money(s.records, key)), BURNED);
    assert s.threads[t := A.Idle] == s.threads;
    NoDocs(s.docs, w.files, key);
  }

  /** The end of a sale: read and pay. */
  lemma PayRefines(s: A.State, t: nat, key: Key, bounty: int)
    requires t < |s.threads| && s.threads[t] == A.Owed(key, bounty) && Has(s.records, key)
    ensures A.Step(A.Step(s, A.ReadForSale(t)), A.Pay(t))
      == s.(records := SetBalance(s.records, key, Money(s.records, key) + bounty), threads := s.threads[t := A.Idle])
  {
    hide IndexOf;
    var paying := A.Paying(key, IndexOf(s.records, key), Money(s.records, key), bounty);
    WritesBack(s, t, paying, Money(s.records, key) + bounty);
  }

  /** A sale: check, unlink what is submitted, read and pay. */
  lemma SellRefines(s: A.State, w: E.World, t: nat, key: Key, npcId: int, count: int, ids: seq<int>, docs: multiset<Key>)
    requires Same(s, w) && Ready(s, t) && |ids| == MAX_INVEN_SIZE && E.Sell(w, key, npcId, count, ids).1.Sold?
    requires SameDocs(docs, E.Sell(w, key, npcId, count, ids).0.files)
    ensures var checked := A.Step(s, A.CheckSale(t, key, E.Sell(w, key, npcId, count, ids).1.bounty));
      var sold := A.Step(A.Step(checked.(docs := docs), A.ReadForSale(t)), A.Pay(t));
      Same(sold, E.Sell(w, key, npcId, count, ids).0) && sold.threads == s.threads
  {
    hide IndexOf, SameDocs, E.SortIds, E.CheckDocs, N.Find, N.AfterTake, DropDocs, Masks.Covers;
    var bounty := E.Sell(w, key, npcId, count, ids).1.bounty;
    SellerHolds(w, key, npcId, count, ids);
    HasDocs(s.docs, w.files, key);
    var checked := A.Step(s, A.CheckSale(t, key, bounty));
    assert checked == s.(threads := s.threads[t := A.Owed(key, bounty)]);
    PayRefines(checked.(docs := docs), t, key, bounty);
    assert s.threads[t := A.Owed(key, bounty)][t := A.Idle] == s.threads;
  }

  lemma SellerHolds(w: E.World, key: Key, npcId: int, count: int, ids: seq<int>)
    requires |ids| == MAX_INVEN_SIZE && E.Sell(w, key, npcId, count, ids).1.Sold?
    ensures Held(w.files, key) != map[]
  {
    hide N.Find, N.AfterTake, DropDocs, Masks.Covers, Has, Money, SetBalance;
    var sorted := E.SortIds(ids[..count]);
    assert sorted[0] in Held(w.files, key);
  }

  lemma HasDocs(docs: multiset<Key>, files: Files, key: Key)
    requires SameDocs(docs, files) && Held(files, key) != map[]
    ensures key in docs
  {
    assert docs[key] == |Held(files, key)|;
  }

  /** A disposal of a document that is held. */
  lemma DisposeRefines(s: A.State, w: E.World, key: Key, docId: int)
    requires Same(s, w) && docId in Held(w.files, key)
    ensures Same(A.Step(s, A.Unlink(key)), E.Dispose(w, key, docId).0)
  {
    hide IndexOf;
    forall k: Key ensures (s.docs - multiset{key})[k] == |Held(E.Dispose(w, key, docId).0.files, k)| {
      assert s.docs[k] == |Held(w.files, k)|;
      if k == key {
        OneLessKey(w.files.users[key], docId);
      }
    }
  }

  lemma OneLessKey<K, V>(m: map<K, V>, k: K)
    requires k in m
    ensures |m - {k}| == |m| - 1
  {
    assert (m - {k}).Keys == m.Keys - {k};
    assert |m - {k}| == |(m - {k}).Keys| && |m| == |m.Keys|;
  }

  /** A reset of the accounts, when all directories are swept. */
  lemma ResetRefines(s: A.State, w: E.World, now: int, rolls: seq<nat>)
    requires s.records == w.records && |rolls| == 4 && s.docs == multiset{}
    ensures Same(A.Step(s, A.Reset), E.RoundReset(w, now, rolls))
  {
    hide E.RoundReset, M.Offers, N.Requests, Effects.Filed, Masks.Join, Reset;
    Effects.ResetBoards(w, now, rolls);
    forall k: Key ensures |Held(E.RoundReset(w, now, rolls).files, k)| == 0 {
      Effects.ResetPeople(w, now, rolls, k);
    }
  }

  /** Before any of that, a purge takes every document of one key. */
  lemma PurgeRemoves(s: A.State, key: Key)
    ensures A.Step(s, A.Purge(key)).records == s.records && A.Step(s, A.Purge(key)).threads == s.threads
    ensures forall k: Key :: A.Step(s, A.Purge(key)).docs[k] == if k == key then 0 else s.docs[k]
  {
  }
}
