// Shared vocabulary: options, the limits of protocol.h, and two ways of
// counting what a sequence holds.
module Prelude {

  datatype Option<+T> = None | Some(value: T)

  const MAX_KEY_LEN := 32
  const MAX_TEXT_LEN := 256
  const MAX_NAME_LEN := 64
  const MAX_INVEN_SIZE := 7
  const MAX_SCORE_ESCAPED := 3
  const MAX_SCORE_REMAINING := 7
  const MAX_CLIENTS := 10
  const MAX_MARKET_SLOTS := 32
  const MAX_NPC_SLOTS := 16

  const INITIAL_MONEY := 1000
  const GOAL_MONEY := 10000

  /** The C strings that fit a key or a name buffer with their terminator. */
  type Key = s: string | |s| < MAX_KEY_LEN
  type Name = s: string | |s| < MAX_NAME_LEN

  /** The occupied cells of a table, in slot order. */
  function Live<T>(cells: seq<Option<T>>): (items: seq<T>)
    ensures |items| <= |cells|
  {
    if cells == [] then []
    else
      var rest := Live(cells[..|cells| - 1]);
      match cells[|cells| - 1]
      case None => rest
      case Some(x) => rest + [x]
  }

  lemma LiveStep<T>(cells: seq<Option<T>>, i: nat)
    requires i < |cells|
    ensures Live(cells[..i + 1]) == Live(cells[..i]) + (match cells[i] case None => [] case Some(x) => [x])
    ensures cells[..|cells|] == cells && Live(cells[..0]) == []
  {
    assert cells[..i + 1][..i] == cells[..i];
  }

  function One<T>(cell: Option<T>): multiset<T> {
    match cell
    case None => multiset{}
    case Some(x) => multiset{x}
  }

  /** What a table holds, whichever slots are used. */
  function Bag<T>(cells: seq<Option<T>>): multiset<T> {
    if cells == [] then multiset{} else Bag(cells[..|cells| - 1]) + One(cells[|cells| - 1])
  }

  lemma {:induction false} BagIsLive<T>(cells: seq<Option<T>>)
    ensures Bag(cells) == multiset(Live(cells))
  {
    if cells != [] {
      BagIsLive(cells[..|cells| - 1]);
    }
  }

  lemma ExchangeBeside<T>(a: multiset<T>, b: multiset<T>, beside: multiset<T>, x: multiset<T>, y: multiset<T>)
    requires a + x == b + y
    ensures (a + beside) + x == (b + beside) + y
  {
    calc { (a + beside) + x; (a + x) + beside; (b + y) + beside; (b + beside) + y; }
  }

  /** Overwriting one cell exchanges exactly its old content for the new. */
  lemma {:induction false} BagUpdate<T>(cells: seq<Option<T>>, i: nat, cell: Option<T>)
    requires i < |cells|
    ensures Bag(cells[i := cell]) + One(cells[i]) == Bag(cells) + One(cell)
  {
    hide One;
    var n := |cells| - 1;
    var changed := cells[i := cell];
    BagSplit(cells);
    BagSplit(changed);
    if i == n {
      assert changed[..n] == cells[..n];
      ExchangeBeside(One(cell), One(cells[n]), Bag(cells[..n]), One(cells[n]), One(cell));
    } else {
      BagUpdate(cells[..n], i, cell);
      assert changed[..n] == cells[..n][i := cell];
      ExchangeBeside(Bag(changed[..n]), Bag(cells[..n]), One(cells[n]), One(cells[i]), One(cell));
    }
  }

  lemma BagSplit<T>(cells: seq<Option<T>>)
    requires cells != []
    ensures Bag(cells) == Bag(cells[..|cells| - 1]) + One(cells[|cells| - 1])
  {
  }

  lemma {:induction false} BagMember<T>(cells: seq<Option<T>>, x: T)
    ensures x in Bag(cells) <==> exists i :: 0 <= i < |cells| && cells[i] == Some(x)
  {
    if cells != [] {
      var n := |cells| - 1;
      BagMember(cells[..n], x);
      assert forall i :: 0 <= i < n ==> cells[..n][i] == cells[i];
      assert x in Bag(cells) <==> x in Bag(cells[..n]) || cells[n] == Some(x);
    }
  }

  /** Dealing every cell to one of two tables deals the content. */
  lemma {:induction false} BagDeal<T>(cells: seq<Option<T>>, kept: seq<Option<T>>, gone: seq<Option<T>>)
    requires |kept| == |gone| == |cells|
    requires forall i :: 0 <= i < |cells| ==>
      (kept[i] == cells[i] && gone[i] == None) || (gone[i] == cells[i] && kept[i] == None)
    ensures Bag(cells) == Bag(kept) + Bag(gone)
  {
    if cells != [] {
      var n := |cells| - 1;
      BagDeal(cells[..n], kept[..n], gone[..n]);
    }
  }

  lemma {:induction false} BagAllEmpty<T>(cells: seq<Option<T>>)
    requires forall i :: 0 <= i < |cells| ==> cells[i].None?
    ensures Live(cells) == [] && Bag(cells) == multiset{}
  {
    if cells != [] {
      BagAllEmpty(cells[..|cells| - 1]);
    }
  }

  lemma SumCancels<T(!new)>(a: multiset<T>, b: multiset<T>, c: multiset<T>)
    requires a + c == b + c
    ensures a == b
  {
    forall x ensures a[x] == b[x] {
      assert (a + c)[x] == (b + c)[x];
    }
  }

  /** The sum of what several holders hold. */
  function Total<T>(parts: seq<multiset<T>>): multiset<T> {
    if parts == [] then multiset{} else Total(parts[..|parts| - 1]) + parts[|parts| - 1]
  }

  lemma {:induction false} TotalUpdate<T>(parts: seq<multiset<T>>, i: nat, part: multiset<T>)
    requires i < |parts|
    ensures Total(parts[i := part]) + parts[i] == Total(parts) + part
  {
    var n := |parts| - 1;
    var changed := parts[i := part];
    if i == n {
      assert changed[..n] == parts[..n];
    } else {
      TotalUpdate(parts[..n], i, part);
      assert changed[..n] == parts[..n][i := part];
      ExchangeBeside(Total(changed[..n]), Total(parts[..n]), parts[n], parts[i], part);
    }
  }

  lemma TotalAppend<T>(parts: seq<multiset<T>>, part: multiset<T>)
    ensures Total(parts + [part]) == Total(parts) + part
  {
    assert (parts + [part])[..|parts|] == parts;
  }

  lemma {:induction false} TotalAtLeast<T>(parts: seq<multiset<T>>, i: nat)
    requires i < |parts|
    ensures parts[i] <= Total(parts)
  {
    if i < |parts| - 1 {
      TotalAtLeast(parts[..|parts| - 1], i);
    }
  }

  lemma {:induction false} TotalMember<T(!new)>(parts: seq<multiset<T>>, x: T)
    ensures x in Total(parts) <==> exists i :: 0 <= i < |parts| && x in parts[i]
  {
    if parts != [] {
      var n := |parts| - 1;
      TotalMember(parts[..n], x);
      assert forall i :: 0 <= i < n ==> parts[..n][i] == parts[i];
      assert x in Total(parts) <==> x in Total(parts[..n]) || x in parts[n];
    }
  }

  /** How many items have a property. */
  function Count<T>(items: seq<T>, p: T -> bool): nat {
    if items == [] then 0 else Count(items[..|items| - 1], p) + (if p(items[|items| - 1]) then 1 else 0)
  }

  lemma {:induction false} CountUpdate<T>(items: seq<T>, i: nat, item: T, p: T -> bool)
    requires i < |items|
    ensures Count(items[i := item], p) + (if p(items[i]) then 1 else 0) == Count(items, p) + (if p(item) then 1 else 0)
  {
    var n := |items| - 1;
    if i == n {
      assert items[i := item][..n] == items[..n];
    } else {
      CountUpdate(items[..n], i, item, p);
      assert items[i := item][..n] == items[..n][i := item];
    }
  }

  lemma CountAppend<T>(items: seq<T>, item: T, p: T -> bool)
    ensures Count(items + [item], p) == Count(items, p) + (if p(item) then 1 else 0)
  {
    assert (items + [item])[..|items|] == items;
  }

  lemma {:induction false} CountAtLeast<T>(items: seq<T>, i: nat, p: T -> bool)
    requires i < |items| && p(items[i])
    ensures Count(items, p) >= 1
    ensures forall j :: 0 <= j < |items| && j != i && p(items[j]) ==> Count(items, p) >= 2
  {
    var n := |items| - 1;
    if i == n {
      forall j | 0 <= j < n && p(items[j]) ensures Count(items[..n], p) >= 1 {
        CountAtLeast(items[..n], j, p);
      }
    } else {
      CountAtLeast(items[..n], i, p);
      forall j | 0 <= j < |items| && j != i && p(items[j]) ensures Count(items, p) >= 2 {
        if j < n {
          assert items[..n][j] == items[j];
        }
      }
    }
  }

  lemma {:induction false} CountNone<T>(items: seq<T>, p: T -> bool)
    ensures Count(items, p) == 0 <==> forall i :: 0 <= i < |items| ==> !p(items[i])
  {
    if items != [] {
      CountNone(items[..|items| - 1], p);
      assert forall i :: 0 <= i < |items| - 1 ==> items[..|items| - 1][i] == items[i];
    }
  }

  /** An occupied cell stands in the list behind as many others as come before it in the table. */
  lemma {:induction false} LiveAt<T>(cells: seq<Option<T>>, i: nat)
    requires i < |cells| && cells[i].Some?
    ensures |Live(cells)| == Count(cells, (c: Option<T>) => c.Some?)
    ensures Count(cells[..i], (c: Option<T>) => c.Some?) < |Live(cells)|
    ensures Live(cells)[Count(cells[..i], (c: Option<T>) => c.Some?)] == cells[i].value
  {
    hide Count;
    LiveCounts(cells);
    LiveCounts(cells[..i]);
    LivePrefix(cells, i + 1);
    LiveStep(cells, i);
  }

  lemma {:induction false} LiveCounts<T>(cells: seq<Option<T>>)
    ensures |Live(cells)| == Count(cells, (c: Option<T>) => c.Some?)
  {
    if cells != [] {
      LiveCounts(cells[..|cells| - 1]);
    }
  }

  lemma {:induction false} LivePrefix<T>(cells: seq<Option<T>>, i: nat)
    requires i <= |cells|
    ensures Live(cells[..i]) <= Live(cells)
    decreases |cells| - i
  {
    if i == |cells| {
      assert cells[..i] == cells;
    } else {
      LiveStep(cells, i);
      LivePrefix(cells, i + 1);
    }
  }

  predicate Distinct<T(==)>(s: seq<T>) {
    forall i, j :: 0 <= i < j < |s| ==> s[i] != s[j]
  }

  lemma CountTwice<T>(s: seq<T>, i: nat, j: nat)
    requires i < j < |s| && s[i] == s[j]
    ensures multiset(s)[s[i]] >= 2
  {
    assert s == s[..j] + s[j..];
    assert s[i] == s[..j][i] && s[j] == s[j..][0];
    assert s[i] in multiset(s[..j]) && s[i] in multiset(s[j..]);
  }

  lemma {:induction false} CountOnce<T>(s: seq<T>, t: T)
    requires Distinct(s)
    ensures multiset(s)[t] == if t in s then 1 else 0
  {
    if s != [] {
      CountOnce(s[1..], t);
      assert s == [s[0]] + s[1..];
      assert s[0] !in s[1..];
    }
  }

  lemma DistinctPermutes<T>(whole: seq<T>, shuffled: seq<T>)
    requires Distinct(whole) && multiset(shuffled) == multiset(whole)
    ensures Distinct(shuffled)
  {
    forall i, j | 0 <= i < j < |shuffled| ensures shuffled[i] != shuffled[j] {
      if shuffled[i] == shuffled[j] {
        CountTwice(shuffled, i, j);
        CountOnce(whole, shuffled[i]);
      }
    }
  }

  lemma SmallerBag<T>(a: multiset<T>, b: multiset<T>)
    requires a <= b
    ensures |a| <= |b|
  {
    assert b == a + (b - a);
  }

  /** The ids for which the operations of a run reported a success to their callers. */
  datatype Tally = Tally(added: multiset<int>, taken: multiset<int>, aged: multiset<int>)

  lemma Settle(added: multiset<int>, taken: multiset<int>, aged: multiset<int>, before: multiset<int>,
               r: Tally, after: multiset<int>)
    requires added == taken + aged + before && before + r.added == after + r.taken + r.aged
    ensures added + r.added == (taken + r.taken) + (aged + r.aged) + after
  {
    calc {
      added + r.added;
      taken + aged + (before + r.added);
      taken + aged + (after + r.taken + r.aged);
      (taken + r.taken) + (aged + r.aged) + after;
    }
  }
}
