// The account file of userdb.c: fixed-size records addressed by byte offset. The
// first record with a key is the account of that key.
module UserDb {
  import opened Prelude

  /** key, money, inventory count and the inventory ids, packed without padding. */
  const RECORD_SIZE := MAX_KEY_LEN + 4 + 4 + 4 * MAX_INVEN_SIZE
  const BURNED := -1

  datatype UserRecord = UserRecord(key: Key, money: int)

  type Records = seq<UserRecord>

  predicate IsBurned(rec: UserRecord) {
    rec.money == BURNED
  }

  function IndexFrom(records: Records, key: Key, i: nat): (r: nat)
    requires i <= |records|
    ensures i <= r <= |records|
    ensures forall j :: i <= j < r ==> records[j].key != key
    ensures r < |records| ==> records[r].key == key
    decreases |records| - i
  {
    if i == |records| || records[i].key == key then i else IndexFrom(records, key, i + 1)
  }

  function IndexOf(records: Records, key: Key): (r: nat)
    ensures r <= |records|
    ensures r < |records| ==> records[r].key == key
  {
    IndexFrom(records, key, 0)
  }

  predicate Has(records: Records, key: Key) {
    IndexOf(records, key) < |records|
  }

  function Money(records: Records, key: Key): int
    requires Has(records, key)
  {
    records[IndexOf(records, key)].money
  }

  function SetMoney(records: Records, i: nat, money: int): Records
    requires i < |records|
  {
    records[i := records[i].(money := money)]
  }

  function SetBalance(records: Records, key: Key, money: int): Records
    requires Has(records, key)
  {
    SetMoney(records, IndexOf(records, key), money)
  }

  function Reset(records: Records, initial: int): Records {
    seq(|records|, i requires 0 <= i < |records| =>
      if IsBurned(records[i]) then records[i] else records[i].(money := initial))
  }

  // The file as a map from keys to balances.

  /** A record appended for a key that is already there adds nothing. */
  function Accounts(records: Records): map<Key, int> {
    if records == [] then map[]
    else
      var before := Accounts(records[..|records| - 1]);
      var last := records[|records| - 1];
      if last.key in before then before else before[last.key := last.money]
  }

  /** The scan for the first match is a lookup in the map. */
  lemma {:induction false} FindRefines(records: Records, key: Key)
    ensures Has(records, key) <==> key in Accounts(records)
    ensures Has(records, key) ==> Money(records, key) == Accounts(records)[key]
  {
    var n := |records| - 1;
    if n >= 0 {
      FindRefines(records[..n], key);
      FirstStays(records[..n], records, key);
      if !Has(records[..n], key) && records[n].key == key {
        assert IndexOf(records, key) == n;
      }
    }
  }

  /** A later file: records only added, and every old record still has its key. */
  ghost predicate Extends(records: Records, later: Records) {
    |records| <= |later| && forall i :: 0 <= i < |records| ==> later[i].key == records[i].key
  }

  /** An offset once found for a key stays the one that a new search finds. */
  lemma FirstStays(records: Records, later: Records, key: Key)
    requires Extends(records, later)
    ensures Has(records, key) ==> Has(later, key) && IndexOf(later, key) == IndexOf(records, key)
    ensures !Has(records, key) && Has(later, key) ==> IndexOf(later, key) >= |records|
  {
    var i, j := IndexOf(records, key), IndexOf(later, key);
    if j < |records| {
      assert records[j].key == key;
      assert j == i;
    }
  }

  lemma ExtendsTrans(a: Records, b: Records, c: Records)
    requires Extends(a, b) && Extends(b, c)
    ensures Extends(a, c)
  {
  }

  /** A write through the offset that a search returns changes that account and no other;
      a write through the offset of a later duplicate changes none. */
  lemma UpdateRefines(records: Records, i: nat, money: int)
    requires i < |records|
    ensures Extends(records, SetMoney(records, i, money))
    ensures var key := records[i].key;
      Accounts(SetMoney(records, i, money))
      == if i == IndexOf(records, key) then Accounts(records)[key := money] else Accounts(records)
  {
    hide Accounts, IndexOf;
    var key := records[i].key;
    var later := SetMoney(records, i, money);
    var want := if i == IndexOf(records, key) then Accounts(records)[key := money] else Accounts(records);
    forall k: Key
      ensures k in Accounts(later) <==> k in want
      ensures k in want ==> Accounts(later)[k] == want[k]
    {
      FindRefines(records, k);
      FindRefines(later, k);
      FirstStays(records, later, k);
    }
  }

  lemma AppendRefines(records: Records, rec: UserRecord)
    ensures Extends(records, records + [rec])
    ensures Accounts(records + [rec])
      == if rec.key in Accounts(records) then Accounts(records) else Accounts(records)[rec.key := rec.money]
  {
    assert (records + [rec])[..|records|] == records;
  }

  /** The round reset restores exactly the accounts that are not burned. */
  lemma ResetRefines(records: Records, initial: int)
    ensures Extends(records, Reset(records, initial))
    ensures Accounts(Reset(records, initial))
      == map k | k in Accounts(records) :: if Accounts(records)[k] == BURNED then BURNED else initial
  {
    hide Accounts, IndexOf;
    var later := Reset(records, initial);
    var want := map k | k in Accounts(records) :: if Accounts(records)[k] == BURNED then BURNED else initial;
    forall k: Key
      ensures k in Accounts(later) <==> k in want
      ensures k in want ==> Accounts(later)[k] == want[k]
    {
      FindRefines(records, k);
      FindRefines(later, k);
      FirstStays(records, later, k);
    }
  }

  // Runs: operations by offsets that may have been found long before.

  datatype DbOp = AppendRec(rec: UserRecord) | UpdateRec(i: nat, rec: UserRecord) | BurnRec(i: nat) | ResetAll(initial: int)

  /** The handlers write back the record that they read, with other money. */
  predicate Honest(records: Records, op: DbOp) {
    match op
    case UpdateRec(i, rec) => i < |records| && rec.key == records[i].key
    case BurnRec(i) => i < |records|
    case _ => true
  }

  function Perform(records: Records, op: DbOp): Records
    requires Honest(records, op)
  {
    match op
    case AppendRec(rec) => records + [rec]
    case UpdateRec(i, rec) => records[i := rec]
    case BurnRec(i) => SetMoney(records, i, BURNED)
    case ResetAll(initial) => Reset(records, initial)
  }

  ghost predicate HonestRun(records: Records, ops: seq<DbOp>)
    decreases |ops|
  {
    ops != [] ==> Honest(records, ops[0]) && HonestRun(Perform(records, ops[0]), ops[1..])
  }

  ghost function After(records: Records, ops: seq<DbOp>): Records
    requires HonestRun(records, ops)
    decreases |ops|
  {
    if ops == [] then records else After(Perform(records, ops[0]), ops[1..])
  }

  /** Through every run, an offset found or appended keeps its key, and a search keeps
      returning the offset it once returned. */
  lemma {:induction false} OffsetsStayValid(records: Records, ops: seq<DbOp>, key: Key)
    requires HonestRun(records, ops)
    ensures Extends(records, After(records, ops))
    ensures Has(records, key) ==>
      Has(After(records, ops), key) && IndexOf(After(records, ops), key) == IndexOf(records, key)
    decreases |ops|
  {
    if ops != [] {
      var next := Perform(records, ops[0]);
      assert Extends(records, next);
      OffsetsStayValid(next, ops[1..], key);
      ExtendsTrans(records, next, After(records, ops));
    }
    FirstStays(records, After(records, ops), key);
  }

  // The module's functions, over the file as a sequence of records.

  class UserFile {
    var records: Records

    ghost predicate ValidOffset(offset: nat)
      reads this
    {
      offset % RECORD_SIZE == 0 && offset / RECORD_SIZE < |records|
    }

    constructor ()
      ensures records == []
    {
      records := [];
    }

    /** userdb_find: the record and its byte offset. */
    method Find(key: Key) returns (found: Option<UserRecord>, offset: nat)
      ensures found.Some? <==> Has(records, key)
      ensures found.Some? ==>
        found.value == records[IndexOf(records, key)] && offset == IndexOf(records, key) * RECORD_SIZE && ValidOffset(offset)
    {
      offset := 0;
      var i := 0;
      while i < |records|
        invariant 0 <= i <= |records| && offset == i * RECORD_SIZE
        invariant forall j :: 0 <= j < i ==> records[j].key != key
      {
        if records[i].key == key {
          assert IndexOf(records, key) == i;
          return Some(records[i]), offset;
        }
        offset := offset + RECORD_SIZE;
        i := i + 1;
      }
      return None, offset;
    }

    method Append(rec: UserRecord) returns (offset: nat)
      modifies this
      ensures records == old(records) + [rec]
      ensures offset == |old(records)| * RECORD_SIZE && ValidOffset(offset)
    {
      offset := |records| * RECORD_SIZE;
      records := records + [rec];
    }

    method UpdateAt(offset: nat, rec: UserRecord)
      requires ValidOffset(offset)
      modifies this
      ensures records == old(records)[offset / RECORD_SIZE := rec]
    {
      records := records[offset / RECORD_SIZE := rec];
    }

    method BurnAt(offset: nat)
      requires ValidOffset(offset)
      modifies this
      ensures records == SetMoney(old(records), offset / RECORD_SIZE, BURNED)
    {
      var rec := records[offset / RECORD_SIZE];
      records := records[offset / RECORD_SIZE := rec.(money := BURNED)];
    }

    method ResetRound(initial: int)
      modifies this
      ensures records == Reset(old(records), initial)
    {
      var i := 0;
      while i < |records|
        invariant 0 <= i <= |records| == |old(records)|
        invariant forall j :: 0 <= j < i ==> records[j] == Reset(old(records), initial)[j]
        invariant forall j :: i <= j < |records| ==> records[j] == old(records)[j]
      {
        var rec := records[i];
        if rec.money != BURNED {
          records := records[i := rec.(money := initial)];
        }
        i := i + 1;
      }
    }
  }
}
