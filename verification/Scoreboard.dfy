// The scoreboard of a round end: who is still in the game, ranked by balance, and the
// seven entries that are sent.
module Scoreboard {
  import opened Prelude
  import opened UserDb
  import opened Escape
  import R = Raid

  datatype Entry = Entry(key: Key, money: int)

  const NO_ENTRANT := Entry("", 0)

  predicate Logged(shown: seq<EscapeEntry>, key: Key) {
    exists i :: 0 <= i < |shown| && shown[i].key == key
  }

  /** Not in the copied escape log, with an account that is not burned. */
  predicate Ranks(shown: seq<EscapeEntry>, records: Records, key: Key) {
    !Logged(shown, key) && Has(records, key) && Money(records, key) != BURNED
  }

  function EntryOf(shown: seq<EscapeEntry>, records: Records, key: Key): (entry: Option<Entry>)
    ensures entry.Some? ==> entry.value.key == key
  {
    if Ranks(shown, records, key) then Some(Entry(key, Money(records, key))) else None
  }

  /** The entries of the keys that rank, in the order of the keys. */
  function Standing(keys: seq<Key>, shown: seq<EscapeEntry>, records: Records): (entries: seq<Entry>)
    ensures |entries| <= |keys|
  {
    if keys == [] then []
    else
      var n := |keys| - 1;
      var rest := Standing(keys[..n], shown, records);
      match EntryOf(shown, records, keys[n])
      case None => rest
      case Some(entry) => rest + [entry]
  }

  lemma AddsOne<T>(s: seq<T>, x: T, y: T)
    ensures multiset(s + [x])[y] == multiset(s)[y] + (if x == y then 1 else 0)
  {
  }

  lemma RanksSays(shown: seq<EscapeEntry>, records: Records, e: Entry)
    ensures Ranks(shown, records, e.key) && e.money == Money(records, e.key)
      <==> (forall i :: 0 <= i < |shown| ==> shown[i].key != e.key)
           && e.key in Accounts(records) && Accounts(records)[e.key] == e.money && e.money != -1
  {
    hide Has, Money, Accounts;
    FindRefines(records, e.key);
  }

  lemma {:induction false} StandingCounts(keys: seq<Key>, shown: seq<EscapeEntry>, records: Records, e: Entry)
    ensures multiset(Standing(keys, shown, records))[e]
      == if Ranks(shown, records, e.key) && e.money == Money(records, e.key) then multiset(keys)[e.key] else 0
  {
    hide Logged, Has, Money;
    if keys != [] {
      var n := |keys| - 1;
      var rest := Standing(keys[..n], shown, records);
      StandingCounts(keys[..n], shown, records, e);
      AddsOne(keys[..n], keys[n], e.key);
      assert keys == keys[..n] + [keys[n]];
      var entry := EntryOf(shown, records, keys[n]);
      if entry.Some? {
        AddsOne(rest, entry.value, e);
      }
    }
  }

  /** Each key that has not escaped, as far as the copied log says, and whose account is not
      burned stands there as often as it is connected, with its balance; no other entry does. */
  lemma StandingIs(keys: seq<Key>, shown: seq<EscapeEntry>, records: Records, e: Entry)
    ensures multiset(Standing(keys, shown, records))[e]
      == if (forall i :: 0 <= i < |shown| ==> shown[i].key != e.key)
            && e.key in Accounts(records) && Accounts(records)[e.key] == e.money && e.money != -1
         then multiset(keys)[e.key] else 0
  {
    hide Standing, Ranks, Accounts, Money;
    StandingCounts(keys, shown, records, e);
    RanksSays(shown, records, e);
  }

  ghost predicate Descending(entries: seq<Entry>) {
    forall i, j :: 0 <= i < j < |entries| ==> entries[i].money >= entries[j].money
  }

  /** What goes out for a ranking: as many entries as fit, and none left out beats one sent. */
  ghost predicate SentFrom(sent: seq<Entry>, entries: seq<Entry>) {
    exists ranking :: multiset(ranking) == multiset(entries) && Descending(ranking)
                      && |sent| == (if |ranking| < MAX_SCORE_REMAINING then |ranking| else MAX_SCORE_REMAINING)
                      && sent == ranking[..|sent|]
  }

  /** Sent entries dominate all others, are in order, and nothing is left out needlessly. */
  lemma SentDominates(sent: seq<Entry>, entries: seq<Entry>) returns (omitted: multiset<Entry>)
    requires SentFrom(sent, entries)
    ensures multiset(entries) == multiset(sent) + omitted
    ensures forall i, j :: 0 <= i < j < |sent| ==> sent[i].money >= sent[j].money
    ensures forall e, i :: e in omitted && 0 <= i < |sent| ==> sent[i].money >= e.money
    ensures |sent| < 7 ==> omitted == multiset{}
    ensures |sent| <= 7
  {
    var ranking :| multiset(ranking) == multiset(entries) && Descending(ranking)
                   && |sent| == (if |ranking| < MAX_SCORE_REMAINING then |ranking| else MAX_SCORE_REMAINING)
                   && sent == ranking[..|sent|];
    omitted := multiset(ranking[|sent|..]);
    assert ranking == sent + ranking[|sent|..];
    forall e, i | e in omitted && 0 <= i < |sent| ensures sent[i].money >= e.money {
      var j :| 0 <= j < |ranking| - |sent| && ranking[|sent|..][j] == e;
      assert ranking[|sent| + j] == e && sent[i] == ranking[i];
    }
  }

  /** Nobody is sent who has escaped, is burned, has no account or is not connected, and everyone
      is sent with the balance of the account. */
  lemma SentIsStanding(sent: seq<Entry>, keys: seq<Key>, shown: seq<EscapeEntry>, records: Records, k: nat)
    requires SentFrom(sent, Standing(keys, shown, records)) && k < |sent|
    ensures forall i :: 0 <= i < |shown| ==> shown[i].key != sent[k].key
    ensures sent[k].key in keys && sent[k].key in Accounts(records) && Accounts(records)[sent[k].key] == sent[k].money != -1
  {
    hide Standing, Accounts, SentFrom, Descending;
    var omitted := SentDominates(sent, Standing(keys, shown, records));
    StandingIs(keys, shown, records, sent[k]);
    assert sent[k] in multiset(sent);
    assert sent[k] in multiset(Standing(keys, shown, records));
  }

  // The steps of fire_round_end_countdown.

  method CopyKeys(clients: array<R.Client>, keys: array<Key>) returns (count: nat)
    requires clients.Length == keys.Length == MAX_CLIENTS && keys as object != clients
    modifies keys
    ensures count == |R.ActiveKeys(clients[..])| && keys[..count] == R.ActiveKeys(clients[..])
  {
    hide Live;
    count := 0;
    ghost var cells := R.ClientCells(clients[..]);
    LiveStep(cells, 0);
    for i := 0 to MAX_CLIENTS
      invariant count == |Live(cells[..i])| && count <= i
      invariant clients[..] == old(clients[..])
      invariant forall j :: 0 <= j < count ==> keys[j] == Live(cells[..i])[j]
    {
      LiveStep(cells, i);
      if clients[i].connected && clients[i].key != "" && count < MAX_CLIENTS {
        keys[count] := clients[i].key;
        count := count + 1;
      }
    }
    assert cells[..MAX_CLIENTS] == cells;
  }

  method IsLogged(shown: seq<EscapeEntry>, key: Key) returns (logged: bool)
    ensures logged == Logged(shown, key)
  {
    for j := 0 to |shown|
      invariant forall k :: 0 <= k < j ==> shown[k].key != key
    {
      if shown[j].key == key {
        return true;
      }
    }
    return false;
  }

  method CollectRank(keys: seq<Key>, shown: seq<EscapeEntry>, db: UserFile, rank: array<Entry>) returns (count: nat)
    requires |keys| <= rank.Length && rank as object != db
    modifies rank
    ensures count == |Standing(keys, shown, db.records)| && rank[..count] == Standing(keys, shown, db.records)
  {
    hide Has, Money, Logged;
    count := 0;
    for i := 0 to |keys|
      invariant count == |Standing(keys[..i], shown, db.records)| && count <= i
      invariant db.records == old(db.records)
      invariant rank[..count] == Standing(keys[..i], shown, db.records)
    {
      assert keys[..i + 1][..i] == keys[..i];
      var logged := IsLogged(shown, keys[i]);
      if !logged {
        var found, offset := db.Find(keys[i]);
        FoundMoney(db.records, keys[i]);
        if found.Some? && found.value.money != BURNED {
          rank[count] := Entry(keys[i], found.value.money);
          count := count + 1;
        }
      }
    }
    assert keys[..|keys|] == keys;
  }

  lemma FoundMoney(records: Records, key: Key)
    ensures Has(records, key) ==> IndexOf(records, key) < |records| && records[IndexOf(records, key)].money == Money(records, key)
  {
  }

  lemma SwapKeeps<T>(s: seq<T>, i: nat, j: nat)
    requires i < |s| && j < |s|
    ensures multiset(s[i := s[j]][j := s[i]]) == multiset(s)
  {
  }

  /** The selection sort: the first n entries in descending order of money. */
  method SortRank(rank: array<Entry>, n: nat)
    requires n <= rank.Length
    modifies rank
    ensures multiset(rank[..n]) == multiset(old(rank[..n])) && Descending(rank[..n])
  {
    var i := 0;
    while i + 1 < n
      invariant 0 <= i && (i <= n || n == 0)
      invariant multiset(rank[..n]) == multiset(old(rank[..n]))
      invariant forall p, q :: 0 <= p < i && p < q < n ==> rank[p].money >= rank[q].money
    {
      var best := i;
      for j := i + 1 to n
        invariant i <= best < j
        invariant forall q :: i <= q < j ==> rank[best].money >= rank[q].money
      {
        if rank[j].money > rank[best].money {
          best := j;
        }
      }
      if best != i {
        SwapKeeps(rank[..n], i, best);
        ghost var before := rank[..n];
        rank[i], rank[best] := rank[best], rank[i];
        assert rank[..n] == before[i := before[best]][best := before[i]];
      }
      i := i + 1;
    }
  }

  /** The entries of the packet: how many, and which. */
  method RankRemaining(clients: array<R.Client>, shown: seq<EscapeEntry>, db: UserFile) returns (sent: seq<Entry>)
    requires clients.Length == MAX_CLIENTS
    ensures SentFrom(sent, Standing(R.ActiveKeys(clients[..]), shown, db.records))
  {
    hide R.ActiveKeys, Standing, Descending;
    var keys := new Key[MAX_CLIENTS](_ => "");
    var snapCount := CopyKeys(clients, keys);
    var rank := new Entry[MAX_CLIENTS](_ => NO_ENTRANT);
    var count := CollectRank(keys[..snapCount], shown, db, rank);
    SortRank(rank, count);
    var remaining := if count < MAX_SCORE_REMAINING then count else MAX_SCORE_REMAINING;
    sent := rank[..remaining];
    SentIs(sent, rank[..count], Standing(R.ActiveKeys(clients[..]), shown, db.records));
  }

  lemma SentIs(sent: seq<Entry>, ranking: seq<Entry>, entries: seq<Entry>)
    requires multiset(ranking) == multiset(entries) && Descending(ranking)
    requires |sent| == (if |ranking| < MAX_SCORE_REMAINING then |ranking| else MAX_SCORE_REMAINING)
    requires forall i :: 0 <= i < |sent| ==> sent[i] == ranking[i]
    ensures SentFrom(sent, entries)
  {
    assert sent == ranking[..|sent|];
  }
}
