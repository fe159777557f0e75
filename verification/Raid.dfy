// The periodic police raid: a deadline, a passcode and the keys that still have to
// answer. First the shared record and its critical sections, then any number of
// firing, timer and answering threads over it.
module Raid {
  import opened Prelude

  const PERIODIC_RAID_TIME_LIMIT_SEC := 15

  /** The state under the raid lock. Deadline zero means no raid; an empty key is a free entry. */
  datatype Desk = Desk(deadline: int, passcode: string, pending: seq<Key>)

  datatype Client = Client(connected: bool, key: Key)

  type Table = t: seq<Client> | |t| == MAX_CLIENTS witness seq(MAX_CLIENTS, _ => Client(false, ""))

  function KeyCells(keys: seq<Key>): (cells: seq<Option<Key>>)
    ensures |cells| == |keys|
  {
    seq(|keys|, i requires 0 <= i < |keys| => if keys[i] != "" then Some(keys[i]) else None)
  }

  function ClientCells(table: seq<Client>): (cells: seq<Option<Key>>)
    ensures |cells| == |table|
  {
    seq(|table|, i requires 0 <= i < |table| => if table[i].connected && table[i].key != "" then Some(table[i].key) else None)
  }

  /** The keys with a client, in slot order. */
  function ActiveKeys(table: seq<Client>): (keys: seq<Key>)
    ensures |keys| <= |table|
  {
    Live(ClientCells(table))
  }

  function Blank(n: nat): (keys: seq<Key>)
    ensures |keys| == n && forall i :: 0 <= i < n ==> keys[i] == ""
  {
    seq(n, _ => "")
  }

  const NOBODY: seq<Key> := Blank(MAX_CLIENTS)

  function Padded(keys: seq<Key>): (pending: seq<Key>)
    requires |keys| <= MAX_CLIENTS
    ensures |pending| == MAX_CLIENTS
  {
    keys + Blank(MAX_CLIENTS - |keys|)
  }

  /** The keys that still have to answer. */
  function Waiting(d: Desk): multiset<Key> {
    Bag(KeyCells(d.pending))
  }

  function Opened(keys: seq<Key>, now: int, code: string): (d: Desk)
    requires |keys| <= MAX_CLIENTS
    ensures |d.pending| == MAX_CLIENTS
  {
    Desk(now + PERIODIC_RAID_TIME_LIMIT_SEC, code, Padded(keys))
  }

  function EntryFrom(pending: seq<Key>, key: Key, i: nat): (r: nat)
    requires i <= |pending|
    ensures i <= r <= |pending|
    ensures forall j :: i <= j < r ==> pending[j] == "" || pending[j] != key
    ensures r < |pending| ==> pending[r] != "" && pending[r] == key
    decreases |pending| - i
  {
    if i == |pending| || (pending[i] != "" && pending[i] == key) then i else EntryFrom(pending, key, i + 1)
  }

  datatype Answer = NoRaid | Answering(index: nat, right: bool)

  /** The first section of a submit: is a raid on, does the key have an entry, is the code right. */
  function LookUp(d: Desk, key: Key, code: string, now: int): Answer {
    var i := EntryFrom(d.pending, key, 0);
    if d.deadline != 0 && now < d.deadline && i < |d.pending| then Answering(i, code == d.passcode) else NoRaid
  }

  function Erase(d: Desk, i: nat): Desk {
    if i < |d.pending| then d.(pending := d.pending[i := ""]) else d
  }

  /** The timer takes everyone who has not answered and ends the raid. */
  function Victims(d: Desk): seq<Key> {
    Live(KeyCells(d.pending))
  }

  function Drained(d: Desk): Desk {
    d.(deadline := 0, pending := Blank(|d.pending|))
  }

  function CalledOff(d: Desk): Desk {
    d.(deadline := 0, pending := NOBODY)
  }

  // The same over the arrays.

  class RaidDesk {
    var deadline: int
    var passcode: string
    const pending: array<Key>

    ghost predicate Valid() {
      pending.Length == MAX_CLIENTS
    }

    ghost function State(): Desk
      reads this, pending
    {
      Desk(deadline, passcode, pending[..])
    }

    constructor ()
      ensures Valid() && fresh(pending) && State() == Desk(0, "", NOBODY)
    {
      deadline, passcode := 0, "";
      pending := new Key[MAX_CLIENTS](_ => "");
    }

    method EraseAll()
      requires Valid()
      modifies pending
      ensures pending[..] == NOBODY
    {
      for i := 0 to MAX_CLIENTS
        invariant forall j :: 0 <= j < i ==> pending[j] == ""
      {
        pending[i] := "";
      }
    }

    /** Opens a raid on everyone with a client unless one is on. */
    method Fire(clients: array<Client>, now: int, code: string) returns (began: bool, count: nat)
      requires Valid() && clients.Length == MAX_CLIENTS && clients as object != pending
      modifies this, pending
      ensures Valid() && began == (old(deadline) == 0)
      ensures began ==> State() == Opened(ActiveKeys(old(clients[..])), now, code) && count == |ActiveKeys(old(clients[..]))|
      ensures !began ==> State() == old(State())
    {
      hide Live;
      if deadline != 0 {
        return false, 0;
      }
      deadline := now + PERIODIC_RAID_TIME_LIMIT_SEC;
      passcode := code;
      EraseAll();
      count := 0;
      ghost var cells := ClientCells(clients[..]);
      LiveStep(cells, 0);
      for i := 0 to MAX_CLIENTS
        invariant count == |Live(cells[..i])| && count <= i
        invariant clients[..] == old(clients[..]) && deadline == now + PERIODIC_RAID_TIME_LIMIT_SEC && passcode == code
        invariant forall j :: 0 <= j < count ==> pending[j] == Live(cells[..i])[j]
        invariant forall j :: count <= j < MAX_CLIENTS ==> pending[j] == ""
      {
        LiveStep(cells, i);
        if clients[i].connected && clients[i].key != "" {
          pending[count] := clients[i].key;
          count := count + 1;
        }
      }
      assert cells[..MAX_CLIENTS] == cells;
      return true, count;
    }

    method FindEntry(key: Key, code: string, now: int) returns (a: Answer)
      requires Valid()
      ensures a == LookUp(State(), key, code, now)
    {
      if deadline == 0 || now >= deadline {
        return NoRaid;
      }
      for i := 0 to MAX_CLIENTS
        invariant forall j :: 0 <= j < i ==> pending[j] == "" || pending[j] != key
      {
        if pending[i] != "" && pending[i] == key {
          assert EntryFrom(pending[..], key, 0) == i;
          return Answering(i, code == passcode);
        }
      }
      return NoRaid;
    }

    /** A submit: an entry that is found goes, whether the code is right or not; the caller
        burns the key of a wrong one. */
    method Submit(key: Key, code: string, now: int) returns (a: Answer)
      requires Valid()
      modifies pending
      ensures a == LookUp(old(State()), key, code, now)
      ensures State() == if a.Answering? then Erase(old(State()), a.index) else old(State())
    {
      a := FindEntry(key, code, now);
      if a.Answering? {
        pending[a.index] := "";
      }
    }

    method TimeOut(victims: array<Key>) returns (count: nat)
      requires Valid() && victims.Length == MAX_CLIENTS && victims != pending
      modifies this, pending, victims
      ensures Valid() && State() == Drained(old(State()))
      ensures count == |Victims(old(State()))| && victims[..count] == Victims(old(State()))
    {
      hide Live;
      count := 0;
      ghost var before := pending[..];
      ghost var cells := KeyCells(before);
      LiveStep(cells, 0);
      for i := 0 to MAX_CLIENTS
        invariant count == |Live(cells[..i])| && count <= i
        invariant forall j :: 0 <= j < count ==> victims[j] == Live(cells[..i])[j]
        invariant forall j :: 0 <= j < i ==> pending[j] == ""
        invariant forall j :: i <= j < MAX_CLIENTS ==> pending[j] == before[j]
        invariant passcode == old(passcode)
      {
        LiveStep(cells, i);
        if pending[i] != "" {
          victims[count] := pending[i];
          count := count + 1;
          pending[i] := "";
        }
      }
      assert cells[..MAX_CLIENTS] == cells;
      deadline := 0;
    }

    method CallOff()
      requires Valid()
      modifies this, pending
      ensures Valid() && State() == CalledOff(old(State()))
    {
      deadline := 0;
      EraseAll();
    }
  }

  // Who waits after each section.

  lemma {:induction false} KeysWait(keys: seq<Key>)
    requires forall i :: 0 <= i < |keys| ==> keys[i] != ""
    ensures Bag(KeyCells(keys)) == multiset(keys)
  {
    if keys != [] {
      var n := |keys| - 1;
      KeysWait(keys[..n]);
      assert KeyCells(keys)[..n] == KeyCells(keys[..n]);
      assert keys == keys[..n] + [keys[n]];
    }
  }

  lemma {:induction false} PaddingWaitsNot(keys: seq<Key>, n: nat)
    ensures Bag(KeyCells(keys + Blank(n))) == Bag(KeyCells(keys))
    decreases n
  {
    hide Bag;
    if n == 0 {
      assert keys + Blank(0) == keys;
    } else {
      PaddingWaitsNot(keys, n - 1);
      assert keys + Blank(n) == (keys + Blank(n - 1)) + [""];
      OneMoreBlank(keys + Blank(n - 1));
    }
  }

  lemma OneMoreBlank(keys: seq<Key>)
    ensures Bag(KeyCells(keys + [""])) == Bag(KeyCells(keys))
  {
    hide Bag;
    assert KeyCells(keys + [""])[..|keys|] == KeyCells(keys);
    BagSplit(KeyCells(keys + [""]));
  }

  lemma {:induction false} LiveKeys(cells: seq<Option<Key>>)
    requires forall i :: 0 <= i < |cells| && cells[i].Some? ==> cells[i].value != ""
    ensures forall i :: 0 <= i < |Live(cells)| ==> Live(cells)[i] != ""
  {
    if cells != [] {
      LiveKeys(cells[..|cells| - 1]);
    }
  }

  lemma OpenedWaits(keys: seq<Key>, now: int, code: string)
    requires |keys| <= MAX_CLIENTS && forall i :: 0 <= i < |keys| ==> keys[i] != ""
    ensures Waiting(Opened(keys, now, code)) == multiset(keys)
  {
    hide Bag, Blank;
    KeysWait(keys);
    PaddingWaitsNot(keys, MAX_CLIENTS - |keys|);
  }

  lemma EraseWaits(d: Desk, i: nat)
    requires i < |d.pending| && d.pending[i] != ""
    ensures Waiting(Erase(d, i)) + multiset{d.pending[i]} == Waiting(d)
  {
    hide Bag;
    BagUpdate(KeyCells(d.pending), i, None);
    assert KeyCells(Erase(d, i).pending) == KeyCells(d.pending)[i := None];
  }

  lemma DrainWaits(d: Desk)
    ensures Waiting(d) == multiset(Victims(d)) && Waiting(Drained(d)) == multiset{} == Waiting(CalledOff(d))
  {
    hide Bag;
    BagIsLive(KeyCells(d.pending));
    BagAllEmpty(KeyCells(Drained(d).pending));
    BagAllEmpty(KeyCells(NOBODY));
  }

  // The threads.

  /** What became of a raid: everyone in the snapshot who answered right, answered wrong and
      was burned, was burned at the timeout, or was let off because the timer failed. */
  datatype Raid = Raid(snapshot: seq<Key>, cleared: multiset<Key>, wrong: multiset<Key>, late: multiset<Key>, letOff: multiset<Key>)

  /** Where a thread stands; the raid it works for is part of it. */
  datatype Thread =
    | Ready
    | Fired(raid: nat, count: nat)            // has opened the raid and not yet started its timer
    | Timing(raid: nat)                       // is the timer
    | Burning(raid: nat, victims: seq<Key>)   // the timer after its critical section
    | Answered(raid: nat, key: Key, index: nat, right: bool)  // between the two sections of a submit

  datatype State = State(desk: Desk, threads: seq<Thread>, raids: seq<Raid>)

  datatype Action =
    | Fork
    | FireAll(t: nat, table: Table, now: int, code: string)
    | FireSelf(t: nat, key: Key, now: int, code: string)
    | Launch(t: nat, created: bool)
    | TimeOut(t: nat)
    | BurnNext(t: nat)
    | Submit(key: Key, code: string, now: int)
    | SubmitLook(t: nat, key: Key, code: string, now: int)
    | SubmitErase(t: nat)

  function Goes(s: State, t: nat, thread: Thread): State
    requires t < |s.threads|
  {
    s.(threads := s.threads[t := thread])
  }

  function SelfKeys(key: Key): seq<Key> {
    if key == "" then [] else [key]
  }

  function NewRaid(keys: seq<Key>): Raid {
    Raid(keys, multiset{}, multiset{}, multiset{}, multiset{})
  }

  function Open(s: State, t: nat, keys: seq<Key>, count: nat, now: int, code: string): State
    requires t < |s.threads| && |keys| <= MAX_CLIENTS
  {
    if s.desk.deadline != 0 then s
    else
      State(Opened(keys, now, code), s.threads[t := Fired(|s.raids|, count)], s.raids + [NewRaid(keys)])
  }

  /** The answer of a key counts for the raid it was looked up in. */
  function Record(raids: seq<Raid>, r: nat, key: Key, right: bool): seq<Raid>
    requires r < |raids|
  {
    raids[r := if right then raids[r].(cleared := raids[r].cleared + multiset{key})
               else raids[r].(wrong := raids[r].wrong + multiset{key})]
  }

  /** A step that its thread is not ready for does nothing. A firing thread that found nobody
      ends its raid again, and so does one whose timer cannot be started. */
  function Step(s: State, a: Action): State {
    match a
    case Fork => s.(threads := s.threads + [Ready])
    case FireAll(t, table, now, code) =>
      if t < |s.threads| && s.threads[t].Ready? then
        Open(s, t, ActiveKeys(table), |ActiveKeys(table)|, now, code)
      else s
    case FireSelf(t, key, now, code) =>
      if t < |s.threads| && s.threads[t].Ready? then Open(s, t, SelfKeys(key), 1, now, code) else s
    case Launch(t, created) =>
      if t < |s.threads| && s.threads[t].Fired? then
        var r := s.threads[t].raid;
        if s.threads[t].count == 0 then Goes(s, t, Ready).(desk := s.desk.(deadline := 0))
        else if created then s.(threads := s.threads[t := Ready] + [Timing(r)])
        else if r < |s.raids| then
          Goes(s, t, Ready).(desk := CalledOff(s.desk), raids := s.raids[r := s.raids[r].(letOff := s.raids[r].letOff + Waiting(s.desk))])
        else s
      else s
    case TimeOut(t) =>
      if t < |s.threads| && s.threads[t].Timing? then
        Goes(s, t, Burning(s.threads[t].raid, Victims(s.desk))).(desk := Drained(s.desk))
      else s
    case BurnNext(t) =>
      if t < |s.threads| && s.threads[t].Burning? && s.threads[t].raid < |s.raids| then
        var r, victims := s.threads[t].raid, s.threads[t].victims;
        if victims == [] then Goes(s, t, Ready)
        else Goes(s, t, Burning(r, victims[1..])).(
               raids := s.raids[r := s.raids[r].(late := s.raids[r].late + multiset{victims[0]})])
      else s
    case Submit(key, code, now) =>
      var answer := LookUp(s.desk, key, code, now);
      if answer.Answering? && s.raids != [] then
        s.(desk := Erase(s.desk, answer.index), raids := Record(s.raids, |s.raids| - 1, key, answer.right))
      else s
    case SubmitLook(t, key, code, now) =>
      var answer := LookUp(s.desk, key, code, now);
      if t < |s.threads| && s.threads[t].Ready? && answer.Answering? && s.raids != [] then
        Goes(s, t, Answered(|s.raids| - 1, key, answer.index, answer.right))
      else s
    case SubmitErase(t) =>
      if t < |s.threads| && s.threads[t].Answered? && s.threads[t].raid < |s.raids| then
        var a := s.threads[t];
        Goes(s, t, Ready).(desk := Erase(s.desk, a.index), raids := Record(s.raids, a.raid, a.key, a.right))
      else s
  }

  /** Time is positive, so a deadline is never zero. */
  predicate Clocked(a: Action) {
    match a
    case FireAll(_, _, now, _) => now > 0
    case FireSelf(_, _, now, _) => now > 0
    case _ => true
  }

  // The invariant.

  predicate Owns(thread: Thread) {
    thread.Fired? || thread.Timing?
  }

  function Load(thread: Thread, r: nat): multiset<Key> {
    if thread.Burning? && thread.raid == r then multiset(thread.victims) else multiset{}
  }

  function Loads(threads: seq<Thread>, r: nat): seq<multiset<Key>> {
    seq(|threads|, t requires 0 <= t < |threads| => Load(threads[t], r))
  }

  /** The keys of a raid whose fate is still open: waiting at the desk, or with the timer. */
  function Unresolved(s: State, r: nat): multiset<Key> {
    (if r + 1 == |s.raids| && s.desk.deadline != 0 then Waiting(s.desk) else multiset{}) + Total(Loads(s.threads, r))
  }

  function Resolved(raid: Raid): multiset<Key> {
    raid.cleared + raid.wrong + raid.late + raid.letOff
  }

  ghost predicate Accounted(s: State, r: nat)
    requires r < |s.raids|
  {
    multiset(s.raids[r].snapshot) == Resolved(s.raids[r]) + Unresolved(s, r)
  }

  ghost predicate AllAccounted(s: State) {
    forall r :: 0 <= r < |s.raids| ==> Accounted(s, r)
  }

  /** A deadline is set exactly while one thread owns the raid, which is the newest one. */
  ghost predicate Owned(s: State) {
    && Count(s.threads, Owns) == (if s.desk.deadline != 0 then 1 else 0)
    && (s.desk.deadline != 0 ==> s.raids != [])
    && (forall t :: 0 <= t < |s.threads| && Owns(s.threads[t]) ==> s.threads[t].raid + 1 == |s.raids|)
    && (forall t :: 0 <= t < |s.threads| && (s.threads[t].Burning? || s.threads[t].Answered?) ==> s.threads[t].raid < |s.raids|)
    && (forall t :: 0 <= t < |s.threads| && s.threads[t].Fired? && s.threads[t].count == 0 ==> Waiting(s.desk) == multiset{})
    && (s.desk.deadline == 0 ==> Waiting(s.desk) == multiset{})
    && |s.desk.pending| == MAX_CLIENTS
  }

  ghost predicate Inv(s: State) {
    Owned(s) && AllAccounted(s)
  }

  // Ownership is kept by every step.

  lemma TheOwner(s: State, t: nat)
    requires Owned(s) && t < |s.threads| && Owns(s.threads[t])
    ensures s.desk.deadline != 0 && s.threads[t].raid + 1 == |s.raids|
    ensures forall u :: 0 <= u < |s.threads| && u != t ==> !Owns(s.threads[u])
  {
    hide Waiting;
    CountAtLeast(s.threads, t, Owns);
  }

  lemma NoOwner(s: State)
    requires Owned(s) && s.desk.deadline == 0
    ensures forall u :: 0 <= u < |s.threads| ==> !Owns(s.threads[u])
  {
    hide Waiting;
    CountNone(s.threads, Owns);
  }

  lemma PlainOwned(s: State, t: nat, thread: Thread)
    requires Owned(s) && t < |s.threads| && !Owns(s.threads[t]) && !Owns(thread)
    requires thread.Burning? || thread.Answered? ==> thread.raid < |s.raids|
    ensures Owned(Goes(s, t, thread))
  {
    hide Waiting;
    CountUpdate(s.threads, t, thread, Owns);
  }

  lemma ActiveKeysAreKeys(table: seq<Client>)
    ensures forall i :: 0 <= i < |ActiveKeys(table)| ==> ActiveKeys(table)[i] != ""
  {
    hide Live;
    LiveKeys(ClientCells(table));
  }

  lemma OpenOwned(s: State, t: nat, keys: seq<Key>, count: nat, now: int, code: string)
    requires Owned(s) && t < |s.threads| && s.threads[t].Ready? && now > 0
    requires |keys| <= MAX_CLIENTS && (forall i :: 0 <= i < |keys| ==> keys[i] != "") && (count == 0 ==> keys == [])
    ensures Owned(Open(s, t, keys, count, now, code))
  {
    hide Waiting, Padded, Count;
    if s.desk.deadline == 0 {
      NoOwner(s);
      CountUpdate(s.threads, t, Fired(|s.raids|, count), Owns);
      OpenedWaits(keys, now, code);
    }
  }

  lemma LaunchOwned(s: State, t: nat, created: bool)
    requires Owned(s) && t < |s.threads| && s.threads[t].Fired?
    ensures Owned(Step(s, Launch(t, created)))
  {
    hide Waiting, CalledOff, Count;
    TheOwner(s, t);
    CountUpdate(s.threads, t, Ready, Owns);
    if s.threads[t].count == 0 {
      WaitsUntimed(s.desk);
    } else if created {
      CountAppend(s.threads[t := Ready], Timing(s.threads[t].raid), Owns);
    } else {
      DrainWaits(s.desk);
      CalledOffDesk(s.desk);
    }
  }

  lemma CalledOffDesk(d: Desk)
    ensures CalledOff(d).deadline == 0 && |CalledOff(d).pending| == MAX_CLIENTS
  {
  }

  lemma WaitsUntimed(d: Desk)
    ensures Waiting(d.(deadline := 0)) == Waiting(d)
  {
  }

  lemma TimeOutOwned(s: State, t: nat)
    requires Owned(s) && t < |s.threads| && s.threads[t].Timing?
    ensures Owned(Step(s, TimeOut(t)))
  {
    hide Waiting, Victims;
    TheOwner(s, t);
    CountUpdate(s.threads, t, Burning(s.threads[t].raid, Victims(s.desk)), Owns);
    DrainWaits(s.desk);
  }

  /** Erasing an entry, whosever it is by now. */
  lemma EraseOwned(s: State, i: nat, raids: seq<Raid>)
    requires Owned(s) && |raids| == |s.raids|
    ensures Owned(s.(desk := Erase(s.desk, i), raids := raids))
  {
    hide Waiting;
    if i < |s.desk.pending| {
      if s.desk.pending[i] != "" {
        EraseWaits(s.desk, i);
      } else {
        assert s.desk.pending[i := ""] == s.desk.pending;
      }
    }
  }

  lemma StepOwned(s: State, a: Action)
    requires Owned(s) && Clocked(a)
    ensures Owned(Step(s, a))
  {
    hide Waiting, Erase, LookUp, Victims, Drained, CalledOff, Opened, ActiveKeys;
    match a
    case Fork => CountAppend(s.threads, Ready, Owns);
    case FireAll(t, table, now, code) =>
      if t < |s.threads| && s.threads[t].Ready? {
        ActiveKeysAreKeys(table);
        OpenOwned(s, t, ActiveKeys(table), |ActiveKeys(table)|, now, code);
      }
    case FireSelf(t, key, now, code) =>
      if t < |s.threads| && s.threads[t].Ready? {
        OpenOwned(s, t, SelfKeys(key), 1, now, code);
      }
    case Launch(t, created) => if t < |s.threads| && s.threads[t].Fired? { LaunchOwned(s, t, created); }
    case TimeOut(t) => if t < |s.threads| && s.threads[t].Timing? { TimeOutOwned(s, t); }
    case BurnNext(t) =>
      if t < |s.threads| && s.threads[t].Burning? {
        PlainOwned(s, t, Ready);
        PlainOwned(s, t, Burning(s.threads[t].raid, if s.threads[t].victims == [] then [] else s.threads[t].victims[1..]));
      }
    case Submit(key, code, now) =>
      var answer := LookUp(s.desk, key, code, now);
      if answer.Answering? && s.raids != [] {
        EraseOwned(s, answer.index, Record(s.raids, |s.raids| - 1, key, answer.right));
      }
    case SubmitLook(t, key, code, now) =>
      var answer := LookUp(s.desk, key, code, now);
      if t < |s.threads| && s.threads[t].Ready? && answer.Answering? && s.raids != [] {
        PlainOwned(s, t, Answered(|s.raids| - 1, key, answer.index, answer.right));
      }
    case SubmitErase(t) =>
      if t < |s.threads| && s.threads[t].Answered? && s.threads[t].raid < |s.raids| {
        var a := s.threads[t];
        PlainOwned(s, t, Ready);
        EraseOwned(Goes(s, t, Ready), a.index, Record(s.raids, a.raid, a.key, a.right));
      }
  }

  // The accounts are kept by every timely step.

  lemma LoadsUpdate(threads: seq<Thread>, t: nat, thread: Thread, r: nat)
    requires t < |threads|
    ensures Total(Loads(threads[t := thread], r)) + Load(threads[t], r) == Total(Loads(threads, r)) + Load(thread, r)
  {
    hide Load;
    TotalUpdate(Loads(threads, r), t, Load(thread, r));
    assert Loads(threads[t := thread], r) == Loads(threads, r)[t := Load(thread, r)];
  }

  lemma LightMove(threads: seq<Thread>, t: nat, thread: Thread, r: nat)
    requires t < |threads| && Load(thread, r) == Load(threads[t], r)
    ensures Total(Loads(threads[t := thread], r)) == Total(Loads(threads, r))
  {
    hide Load, Loads, Total;
    LoadsUpdate(threads, t, thread, r);
    SumCancels(Total(Loads(threads[t := thread], r)), Total(Loads(threads, r)), Load(thread, r));
  }

  lemma LightAppend(threads: seq<Thread>, thread: Thread, r: nat)
    requires Load(thread, r) == multiset{}
    ensures Total(Loads(threads + [thread], r)) == Total(Loads(threads, r))
  {
    hide Load;
    TotalAppend(Loads(threads, r), multiset{});
    assert Loads(threads + [thread], r) == Loads(threads, r) + [multiset{}];
  }

  lemma {:induction false} NoLoads(threads: seq<Thread>, r: nat)
    requires forall t :: 0 <= t < |threads| ==> Load(threads[t], r) == multiset{}
    ensures Total(Loads(threads, r)) == multiset{}
  {
    if threads != [] {
      NoLoads(threads[..|threads| - 1], r);
      assert Loads(threads, r)[..|threads| - 1] == Loads(threads[..|threads| - 1], r);
    }
  }

  /** A thread moves on without taking or giving up a load. */
  lemma LightAccounted(s: State, t: nat, thread: Thread)
    requires AllAccounted(s) && t < |s.threads| && !thread.Burning? && !s.threads[t].Burning?
    ensures AllAccounted(Goes(s, t, thread))
  {
    hide Waiting, Total, Loads;
    forall r | 0 <= r < |s.raids| ensures Accounted(Goes(s, t, thread), r) {
      assert Accounted(s, r);
      LightMove(s.threads, t, thread, r);
    }
  }

  lemma OpenAccounted(s: State, t: nat, keys: seq<Key>, count: nat, now: int, code: string)
    requires Inv(s) && t < |s.threads| && s.threads[t].Ready? && now > 0
    requires |keys| <= MAX_CLIENTS && (forall i :: 0 <= i < |keys| ==> keys[i] != "")
    ensures AllAccounted(Open(s, t, keys, count, now, code))
  {
    hide Waiting, Total, Loads, Padded;
    if s.desk.deadline == 0 {
      var after := Open(s, t, keys, count, now, code);
      forall r | 0 <= r < |s.raids| ensures Accounted(after, r) {
        assert Accounted(s, r);
        LightMove(s.threads, t, Fired(|s.raids|, count), r);
      }
      OpenedWaits(keys, now, code);
      NewRaidAccounted(s, after, |s.raids|);
    }
  }

  lemma NewRaidAccounted(s: State, after: State, r: nat)
    requires Owned(s) && r == |s.raids| && |after.threads| == |s.threads| && |after.raids| == r + 1
    requires forall t :: 0 <= t < |s.threads| ==> after.threads[t] == s.threads[t] || !after.threads[t].Burning?
    requires after.raids[r] == NewRaid(after.raids[r].snapshot)
    requires Waiting(after.desk) == multiset(after.raids[r].snapshot)
    requires after.desk.deadline == 0 ==> after.raids[r].snapshot == []
    ensures Accounted(after, r)
  {
    hide Waiting, Total, Loads, Count;
    forall t | 0 <= t < |after.threads| ensures Load(after.threads[t], r) == multiset{} {
    }
    NoLoads(after.threads, r);
  }

  lemma EndAccounted(s: State, t: nat)
    requires Inv(s) && t < |s.threads| && s.threads[t].Fired? && s.threads[t].count == 0
    ensures AllAccounted(Step(s, Launch(t, true))) && AllAccounted(Step(s, Launch(t, false)))
  {
    hide Waiting, Total, Loads, Count;
    var after := Goes(s, t, Ready).(desk := s.desk.(deadline := 0));
    forall r | 0 <= r < |s.raids| ensures Accounted(after, r) {
      assert Accounted(s, r);
      LightMove(s.threads, t, Ready, r);
    }
  }

  lemma StartAccounted(s: State, t: nat)
    requires Inv(s) && t < |s.threads| && s.threads[t].Fired? && s.threads[t].count != 0
    ensures AllAccounted(Step(s, Launch(t, true)))
  {
    hide Waiting, Total, Loads, Count;
    var after := s.(threads := s.threads[t := Ready] + [Timing(s.threads[t].raid)]);
    forall r | 0 <= r < |s.raids| ensures Accounted(after, r) {
      assert Accounted(s, r);
      LightMove(s.threads, t, Ready, r);
      LightAppend(s.threads[t := Ready], Timing(s.threads[t].raid), r);
    }
  }

  lemma LetOffAccounted(s: State, t: nat)
    requires Inv(s) && t < |s.threads| && s.threads[t].Fired? && s.threads[t].count != 0
    ensures AllAccounted(Step(s, Launch(t, false)))
  {
    hide Waiting, Total, Loads, Count, CalledOff;
    TheOwner(s, t);
    CalledOffDesk(s.desk);
    var after := Step(s, Launch(t, false));
    forall r | 0 <= r < |s.raids| ensures Accounted(after, r) {
      assert Accounted(s, r);
      LightMove(s.threads, t, Ready, r);
    }
  }

  lemma TimeOutAccounted(s: State, t: nat)
    requires Inv(s) && t < |s.threads| && s.threads[t].Timing?
    ensures AllAccounted(Step(s, TimeOut(t)))
  {
    hide Waiting, Total, Loads, Count, Victims;
    TheOwner(s, t);
    DrainWaits(s.desk);
    var burning := Burning(s.threads[t].raid, Victims(s.desk));
    var after := Step(s, TimeOut(t));
    forall r | 0 <= r < |s.raids| ensures Accounted(after, r) {
      assert Accounted(s, r);
      if r + 1 == |s.raids| {
        LoadsUpdate(s.threads, t, burning, r);
        assert Load(burning, r) == Waiting(s.desk) && Load(s.threads[t], r) == multiset{};
        assert Unresolved(after, r) == Total(Loads(s.threads, r)) + Waiting(s.desk);
      } else {
        LightMove(s.threads, t, burning, r);
      }
    }
  }

  lemma BurnAccounted(s: State, t: nat)
    requires Inv(s) && t < |s.threads| && s.threads[t].Burning? && s.threads[t].raid < |s.raids|
    ensures AllAccounted(Step(s, BurnNext(t)))
  {
    hide Waiting, Total, Loads, Count;
    var r, victims := s.threads[t].raid, s.threads[t].victims;
    var after := Step(s, BurnNext(t));
    forall q | 0 <= q < |s.raids| ensures Accounted(after, q) {
      assert Accounted(s, q);
      if q == r && victims != [] {
        LoadShrinks(s.threads, t, r, victims);
        LoadGivesOne(s, after, q, victims[0]);
      } else {
        LightMove(s.threads, t, after.threads[t], q);
      }
    }
  }

  lemma LoadShrinks(threads: seq<Thread>, t: nat, r: nat, victims: seq<Key>)
    requires t < |threads| && threads[t] == Burning(r, victims) && victims != []
    ensures Total(Loads(threads[t := Burning(r, victims[1..])], r)) + multiset{victims[0]} == Total(Loads(threads, r))
  {
    hide Total, Loads;
    var lighter := Burning(r, victims[1..]);
    LoadsUpdate(threads, t, lighter, r);
    assert victims == [victims[0]] + victims[1..];
    assert Load(threads[t], r) == multiset{victims[0]} + Load(lighter, r);
    SumCancels(Total(Loads(threads[t := lighter], r)) + multiset{victims[0]}, Total(Loads(threads, r)), Load(lighter, r));
  }

  lemma LoadGivesOne(s: State, after: State, r: nat, key: Key)
    requires r < |s.raids| == |after.raids| && Accounted(s, r) && after.desk == s.desk
    requires after.raids[r] == s.raids[r].(late := s.raids[r].late + multiset{key})
    requires Total(Loads(after.threads, r)) + multiset{key} == Total(Loads(s.threads, r))
    ensures Accounted(after, r)
  {
    hide Waiting, Total, Loads;
  }

  /** The entry of a key goes and its answer is recorded with the newest raid. */
  lemma AnswerAccounted(s: State, i: nat, key: Key, right: bool)
    requires AllAccounted(s) && s.raids != [] && s.desk.deadline != 0
    requires i < |s.desk.pending| && s.desk.pending[i] == key != ""
    ensures AllAccounted(s.(desk := Erase(s.desk, i), raids := Record(s.raids, |s.raids| - 1, key, right)))
  {
    hide Waiting, Total, Loads;
    EraseWaits(s.desk, i);
    var after := s.(desk := Erase(s.desk, i), raids := Record(s.raids, |s.raids| - 1, key, right));
    forall r | 0 <= r < |s.raids| ensures Accounted(after, r) {
      assert Accounted(s, r);
    }
  }

  // A submit whose two sections are separated.

  /** Nothing happened to the entry since it was looked up. */
  predicate StillWaits(s: State, a: Thread)
    requires a.Answered?
  {
    a.raid + 1 == |s.raids| && s.desk.deadline != 0 && a.index < |s.desk.pending|
    && a.key != "" && s.desk.pending[a.index] == a.key
  }

  /** A submit that comes to erase finds the entry as it looked it up. */
  predicate Timely(s: State, a: Action) {
    a.SubmitErase? && a.t < |s.threads| && s.threads[a.t].Answered? ==> StillWaits(s, s.threads[a.t])
  }

  /** Erasing an entry of someone else leaves the key itself waiting as before. */
  lemma EraseSpares(d: Desk, i: nat, key: Key)
    requires !(i < |d.pending| && key != "" && d.pending[i] == key)
    ensures Waiting(Erase(d, i))[key] == Waiting(d)[key]
  {
    hide Waiting;
    if i < |d.pending| && d.pending[i] != "" {
      EraseWaits(d, i);
      assert (Waiting(Erase(d, i)) + multiset{d.pending[i]})[key] == Waiting(d)[key];
    } else {
      assert i < |d.pending| ==> d.pending[i := ""] == d.pending;
    }
  }

  lemma ErasedElse(s: State, t: nat)
    requires AllAccounted(s) && t < |s.threads| && s.threads[t].Answered? && s.threads[t].raid < |s.raids|
    requires !StillWaits(s, s.threads[t])
    ensures !Accounted(Step(s, SubmitErase(t)), s.threads[t].raid)
  {
    hide Waiting, Total, Loads, Erase, Resolved, Accounted;
    var a := s.threads[t];
    var after := Step(s, SubmitErase(t));
    LightMove(s.threads, t, Ready, a.raid);
    if a.raid + 1 == |s.raids| && s.desk.deadline != 0 {
      EraseSpares(s.desk, a.index, a.key);
    }
    EraseUntimed(s.desk, a.index);
    OneTooMany(s, after, a.raid, a.key);
  }

  lemma EraseUntimed(d: Desk, i: nat)
    ensures Erase(d, i).deadline == d.deadline
  {
  }

  lemma OneTooMany(s: State, after: State, r: nat, key: Key)
    requires AllAccounted(s) && r < |s.raids| == |after.raids|
    requires Unresolved(after, r)[key] == Unresolved(s, r)[key]
    requires after.raids[r] == s.raids[r].(cleared := s.raids[r].cleared + multiset{key})
      || after.raids[r] == s.raids[r].(wrong := s.raids[r].wrong + multiset{key})
    ensures !Accounted(after, r)
  {
    hide Unresolved;
    assert Accounted(s, r);
    var raid := after.raids[r];
    assert Resolved(raid)[key] == Resolved(s.raids[r])[key] + 1;
    assert multiset(raid.snapshot)[key] == Resolved(s.raids[r])[key] + Unresolved(s, r)[key];
    assert (Resolved(raid) + Unresolved(after, r))[key] == multiset(raid.snapshot)[key] + 1;
  }

  /** The second section keeps the accounts exactly when the entry is still the one that the
      first section found. */
  lemma SplitSubmitIff(s: State, t: nat)
    requires Inv(s) && t < |s.threads| && s.threads[t].Answered?
    ensures AllAccounted(Step(s, SubmitErase(t))) <==> StillWaits(s, s.threads[t])
  {
    hide Waiting, Total, Loads, Accounted;
    var a := s.threads[t];
    if StillWaits(s, a) {
      LightAccounted(s, t, Ready);
      AnswerAccounted(Goes(s, t, Ready), a.index, a.key, a.right);
    } else {
      ErasedElse(s, t);
      assert !Accounted(Step(s, SubmitErase(t)), a.raid);
    }
  }

  /** Every step but a late erasure keeps the accounts. */
  lemma StepAccounted(s: State, a: Action)
    requires Inv(s) && Clocked(a) && Timely(s, a)
    ensures AllAccounted(Step(s, a))
  {
    hide Waiting, Total, Loads, Count, Erase, Owned, Victims, Drained, CalledOff, Opened, ActiveKeys, AllAccounted, StillWaits;
    match a
    case Fork => ForkAccounted(s);
    case FireAll(t, table, now, code) =>
      if t < |s.threads| && s.threads[t].Ready? {
        ActiveKeysAreKeys(table);
        OpenAccounted(s, t, ActiveKeys(table), |ActiveKeys(table)|, now, code);
      }
    case FireSelf(t, key, now, code) =>
      if t < |s.threads| && s.threads[t].Ready? {
        OpenAccounted(s, t, SelfKeys(key), 1, now, code);
      }
    case Launch(t, created) =>
      if t < |s.threads| && s.threads[t].Fired? {
        if s.threads[t].count == 0 {
          EndAccounted(s, t);
        } else if created {
          StartAccounted(s, t);
        } else {
          LetOffAccounted(s, t);
        }
      }
    case TimeOut(t) => if t < |s.threads| && s.threads[t].Timing? { TimeOutAccounted(s, t); }
    case BurnNext(t) => if t < |s.threads| && s.threads[t].Burning? && s.threads[t].raid < |s.raids| { BurnAccounted(s, t); }
    case Submit(key, code, now) =>
      var answer := LookUp(s.desk, key, code, now);
      if answer.Answering? && s.raids != [] {
        AnswerAccounted(s, answer.index, key, answer.right);
      }
    case SubmitLook(t, key, code, now) =>
      var answer := LookUp(s.desk, key, code, now);
      if t < |s.threads| && s.threads[t].Ready? && answer.Answering? && s.raids != [] {
        LightAccounted(s, t, Answered(|s.raids| - 1, key, answer.index, answer.right));
      }
    case SubmitErase(t) =>
      if t < |s.threads| && s.threads[t].Answered? {
        SplitSubmitIff(s, t);
      }
  }

  lemma StepAccountedIff(s: State, a: Action)
    requires Inv(s) && Clocked(a)
    ensures AllAccounted(Step(s, a)) <==> Timely(s, a)
  {
    hide Step, AllAccounted, Owned, StillWaits;
    if Timely(s, a) {
      StepAccounted(s, a);
    } else {
      SplitSubmitIff(s, a.t);
    }
  }

  lemma ForkAccounted(s: State)
    requires AllAccounted(s)
    ensures AllAccounted(Step(s, Fork))
  {
    hide Waiting, Total, Loads;
    forall r | 0 <= r < |s.raids| ensures Accounted(Step(s, Fork), r) {
      assert Accounted(s, r);
      LightAppend(s.threads, Ready, r);
    }
  }

  // Runs.

  const START := State(Desk(0, "", NOBODY), [], [])

  function After(s: State, actions: seq<Action>): State
    decreases |actions|
  {
    if actions == [] then s else After(Step(s, actions[0]), actions[1..])
  }

  ghost predicate ClockedRun(actions: seq<Action>) {
    forall i :: 0 <= i < |actions| ==> Clocked(actions[i])
  }

  ghost predicate TimelyRun(s: State, actions: seq<Action>)
    decreases |actions|
  {
    actions != [] ==> Timely(s, actions[0]) && TimelyRun(Step(s, actions[0]), actions[1..])
  }

  ghost predicate AccountedThroughout(s: State, actions: seq<Action>)
    decreases |actions|
  {
    AllAccounted(s) && (actions != [] ==> AccountedThroughout(Step(s, actions[0]), actions[1..]))
  }

  lemma StartHolds()
    ensures Inv(START)
  {
    BagAllEmpty(KeyCells(NOBODY));
  }

  lemma {:induction false} RunKeeps(s: State, actions: seq<Action>)
    requires Inv(s) && ClockedRun(actions) && TimelyRun(s, actions)
    ensures Inv(After(s, actions))
    decreases |actions|
  {
    hide Step, Owned, AllAccounted, Clocked, Timely;
    if actions != [] {
      StepOwned(s, actions[0]);
      StepAccounted(s, actions[0]);
      RunKeeps(Step(s, actions[0]), actions[1..]);
    }
  }

  lemma LostFrom(s: State, actions: seq<Action>)
    requires !AllAccounted(s)
    ensures !AccountedThroughout(s, actions)
  {
    hide AllAccounted, Step;
  }

  lemma {:induction false} AccountedIff(s: State, actions: seq<Action>)
    requires Inv(s) && ClockedRun(actions)
    ensures AccountedThroughout(s, actions) <==> TimelyRun(s, actions)
    decreases |actions|
  {
    hide Step, Owned, AllAccounted, Clocked, Timely;
    if actions != [] {
      StepOwned(s, actions[0]);
      StepAccountedIff(s, actions[0]);
      if Timely(s, actions[0]) {
        AccountedIff(Step(s, actions[0]), actions[1..]);
      } else {
        LostFrom(Step(s, actions[0]), actions[1..]);
      }
    }
  }

  /** Over every interleaving from the start, each raid's snapshot equals its resolved and open
      keys at every moment exactly when every erasure finds its entry as it was looked up, still
      of the same raid. */
  lemma EveryRunAccountedIff(actions: seq<Action>)
    requires ClockedRun(actions)
    ensures AccountedThroughout(START, actions) <==> TimelyRun(START, actions)
  {
    hide AccountedThroughout, TimelyRun, Inv;
    StartHolds();
    AccountedIff(START, actions);
  }

  /** Runs whose submits are not separated are timely. */
  lemma {:induction false} WholeIsTimely(s: State, actions: seq<Action>)
    requires forall i :: 0 <= i < |actions| ==> !actions[i].SubmitErase?
    ensures TimelyRun(s, actions)
    decreases |actions|
  {
    hide Step;
    if actions != [] {
      WholeIsTimely(Step(s, actions[0]), actions[1..]);
    }
  }

  /** In every run whose erasures find their entries, a deadline is set exactly while one thread
      owns the newest raid, and every key of a raid with distinct keys has exactly one of five fates:
      cleared, burned for a wrong answer, burned at the timeout, let off, or still open.
      Nobody else is burned by the raid. */
  lemma EveryRun(actions: seq<Action>, r: nat, key: Key)
    requires ClockedRun(actions) && TimelyRun(START, actions)
    ensures var s := After(START, actions);
      && (s.desk.deadline != 0 <==> exists t :: 0 <= t < |s.threads| && Owns(s.threads[t]))
      && (forall t, u :: 0 <= t < |s.threads| && 0 <= u < |s.threads| && Owns(s.threads[t]) && Owns(s.threads[u]) ==> t == u)
      && (r < |s.raids| && Distinct(s.raids[r].snapshot) ==>
            var raid := s.raids[r];
            raid.cleared[key] + raid.wrong[key] + raid.late[key] + raid.letOff[key] + Unresolved(s, r)[key]
            == if key in raid.snapshot then 1 else 0)
  {
    hide Step, After, Waiting, Unresolved;
    StartHolds();
    RunKeeps(START, actions);
    var s := After(START, actions);
    CountNone(s.threads, Owns);
    forall t | 0 <= t < |s.threads| && Owns(s.threads[t])
      ensures s.desk.deadline != 0 && forall u :: 0 <= u < |s.threads| && Owns(s.threads[u]) ==> t == u
    {
      TheOwner(s, t);
    }
    if r < |s.raids| && Distinct(s.raids[r].snapshot) {
      assert Accounted(s, r);
      CountOnce(s.raids[r].snapshot, key);
    }
  }

  /** Once a raid has ended and its timer has burned whom it took, nothing is open. */
  lemma EndedIsResolved(s: State, r: nat)
    requires Inv(s) && r < |s.raids| && (r + 1 < |s.raids| || s.desk.deadline == 0)
    requires forall t :: 0 <= t < |s.threads| ==> !(s.threads[t].Burning? && s.threads[t].raid == r)
    ensures multiset(s.raids[r].snapshot) == Resolved(s.raids[r])
  {
    hide Waiting, Total, Loads;
    assert Accounted(s, r);
    NoLoads(s.threads, r);
  }

  lemma StepGrows(s: State, a: Action, r: nat)
    requires r < |s.raids|
    ensures r < |Step(s, a).raids| && Step(s, a).raids[r].snapshot == s.raids[r].snapshot
    ensures s.raids[r].cleared <= Step(s, a).raids[r].cleared
  {
    hide Waiting, Erase, LookUp, Victims, Drained, CalledOff, Opened, ActiveKeys;
  }

  lemma {:induction false} RunGrows(s: State, actions: seq<Action>, r: nat)
    requires r < |s.raids|
    ensures r < |After(s, actions).raids| && After(s, actions).raids[r].snapshot == s.raids[r].snapshot
    ensures s.raids[r].cleared <= After(s, actions).raids[r].cleared
    decreases |actions|
  {
    hide Step;
    if actions != [] {
      StepGrows(s, actions[0], r);
      RunGrows(Step(s, actions[0]), actions[1..], r);
    }
  }

  /** A key that a raid has cleared is never burned by it, whatever follows. */
  lemma ClearedStays(s: State, r: nat, key: Key, actions: seq<Action>)
    requires Inv(s) && ClockedRun(actions) && TimelyRun(s, actions)
    requires r < |s.raids| && Distinct(s.raids[r].snapshot) && key in s.raids[r].cleared
    ensures var after := After(s, actions);
      r < |after.raids| && key in after.raids[r].cleared && key !in after.raids[r].wrong && key !in after.raids[r].late
  {
    hide After, Owned;
    RunGrows(s, actions, r);
    RunKeeps(s, actions);
    ClearedOnly(After(s, actions), r, key);
  }

  /** So who answers right in time, in one step, is never burned by that raid. */
  lemma RightAnswerSpares(s: State, key: Key, now: int, actions: seq<Action>)
    requires Inv(s) && s.raids != [] && Distinct(s.raids[|s.raids| - 1].snapshot)
    requires s.desk.deadline != 0 && now < s.desk.deadline && key in Waiting(s.desk)
    requires ClockedRun(actions) && TimelyRun(Step(s, Submit(key, s.desk.passcode, now)), actions)
    ensures var r := |s.raids| - 1;
      var after := After(Step(s, Submit(key, s.desk.passcode, now)), actions);
      r < |after.raids| && key in after.raids[r].cleared && key !in after.raids[r].wrong && key !in after.raids[r].late
  {
    hide After, Owned, Waiting;
    var r := |s.raids| - 1;
    var submit := Submit(key, s.desk.passcode, now);
    WaitingHasEntry(s.desk, key);
    assert key in Step(s, submit).raids[r].cleared;
    StepGrows(s, submit, r);
    StepOwned(s, submit);
    StepAccounted(s, submit);
    ClearedStays(Step(s, submit), r, key, actions);
  }

  /** And so does who answers right in two steps, if the erasure finds the entry. */
  lemma TimelyAnswerSpares(s: State, t: nat, actions: seq<Action>)
    requires Inv(s) && t < |s.threads| && s.threads[t].Answered? && s.threads[t].right && StillWaits(s, s.threads[t])
    requires Distinct(s.raids[|s.raids| - 1].snapshot)
    requires ClockedRun(actions) && TimelyRun(Step(s, SubmitErase(t)), actions)
    ensures var r, key := |s.raids| - 1, s.threads[t].key;
      var after := After(Step(s, SubmitErase(t)), actions);
      r < |after.raids| && key in after.raids[r].cleared && key !in after.raids[r].wrong && key !in after.raids[r].late
  {
    hide After, Owned, Waiting;
    var r := |s.raids| - 1;
    assert s.threads[t].key in Step(s, SubmitErase(t)).raids[r].cleared;
    StepGrows(s, SubmitErase(t), r);
    StepOwned(s, SubmitErase(t));
    StepAccounted(s, SubmitErase(t));
    ClearedStays(Step(s, SubmitErase(t)), r, s.threads[t].key, actions);
  }

  lemma WaitingHasEntry(d: Desk, key: Key)
    requires key in Waiting(d)
    ensures key != "" && EntryFrom(d.pending, key, 0) < |d.pending|
  {
    hide Bag;
    BagMember(KeyCells(d.pending), key);
    var i :| 0 <= i < |d.pending| && KeyCells(d.pending)[i] == Some(key);
    assert d.pending[i] == key;
  }

  lemma ClearedOnly(s: State, r: nat, key: Key)
    requires AllAccounted(s) && r < |s.raids| && Distinct(s.raids[r].snapshot) && key in s.raids[r].cleared
    ensures key !in s.raids[r].wrong && key !in s.raids[r].late
  {
    hide Unresolved;
    assert Accounted(s, r);
    CountOnce(s.raids[r].snapshot, key);
    var raid := s.raids[r];
    assert multiset(raid.snapshot)[key] == raid.cleared[key] + raid.wrong[key] + raid.late[key] + raid.letOff[key] + Unresolved(s, r)[key];
  }

  /** Distinct active keys give a raid with distinct keys. */
  lemma {:induction false} ActiveDistinct(table: seq<Client>)
    requires forall i, j :: 0 <= i < j < |table| && table[i].connected && table[j].connected && table[i].key != "" ==> table[i].key != table[j].key
    ensures Distinct(ActiveKeys(table))
  {
    if table != [] {
      var n := |table| - 1;
      ActiveDistinct(table[..n]);
      assert ClientCells(table)[..n] == ClientCells(table[..n]);
      LiveFrom(ClientCells(table[..n]));
      assert ActiveKeys(table) == ActiveKeys(table[..n]) + (if table[n].connected && table[n].key != "" then [table[n].key] else []);
    }
  }

  lemma LiveFrom<T>(cells: seq<Option<T>>)
    ensures forall k :: 0 <= k < |Live(cells)| ==> exists i :: 0 <= i < |cells| && cells[i] == Some(Live(cells)[k])
  {
    hide Live, Bag;
    BagIsLive(cells);
    forall k | 0 <= k < |Live(cells)| ensures exists i :: 0 <= i < |cells| && cells[i] == Some(Live(cells)[k]) {
      assert Live(cells)[k] in multiset(Live(cells));
      BagMember(cells, Live(cells)[k]);
    }
  }

  // A run in which a separated submit goes wrong.

  lemma {:induction false} AfterOneMore(s: State, actions: seq<Action>, a: Action)
    ensures After(s, actions + [a]) == Step(After(s, actions), a)
    decreases |actions|
  {
    hide Step;
    if actions == [] {
      assert After(s, [a]) == After(Step(s, a), []);
    } else {
      AfterOneMore(Step(s, actions[0]), actions[1..], a);
      assert (actions + [a])[1..] == actions[1..] + [a];
    }
  }

  lemma AfterThreeMore(s: State, actions: seq<Action>, a: Action, b: Action, c: Action)
    ensures After(s, actions + [a] + [b] + [c]) == Step(Step(Step(After(s, actions), a), b), c)
  {
    hide Step, After;
    AfterOneMore(s, actions, a);
    AfterOneMore(s, actions + [a], b);
    AfterOneMore(s, actions + [a] + [b], c);
  }

  lemma OneVictim(key: Key, now: int, code: string)
    requires key != ""
    ensures Victims(Opened([key], now, code)) == [key]
  {
    hide Waiting, Opened, Victims;
    OpenedWaits([key], now, code);
    DrainWaits(Opened([key], now, code));
    var victims := Victims(Opened([key], now, code));
    assert |multiset(victims)| == |multiset([key])|;
    assert victims[0] in multiset([key]);
  }

  lemma OpenedEntry(key: Key, now: int, code: string)
    requires key != ""
    ensures var d := Opened([key], now, code);
      EntryFrom(d.pending, key, 0) == 0 && d.pending[0] == key && Waiting(Erase(d, 0)) == multiset{}
  {
    hide Waiting;
    var d := Opened([key], now, code);
    OpenedWaits([key], now, code);
    EraseWaits(d, 0);
  }

  lemma SelfRaidStarts(first: Key, code: string) returns (actions: seq<Action>)
    requires first != ""
    ensures After(START, actions) == State(Opened([first], 1, code), [Fired(0, 1), Ready], [NewRaid([first])])
  {
    hide After, Waiting, Opened;
    var fire := FireSelf(0, first, 1, code);
    actions := [] + [Fork] + [Fork] + [fire];
    AfterThreeMore(START, [], Fork, Fork, fire);
    AfterNone(START);
    assert Step(Step(START, Fork), Fork) == State(START.desk, [Ready, Ready], []);
  }

  lemma LooksThenTimesOut(first: Key, code: string) returns (actions: seq<Action>)
    requires first != ""
    ensures After(START, actions)
      == State(Drained(Opened([first], 1, code)), [Ready, Answered(0, first, 0, true), Burning(0, [first])], [NewRaid([first])])
  {
    hide After, Waiting, Opened, Victims, Drained, LookUp;
    actions := SelfRaidStarts(first, code);
    var look := SubmitLook(1, first, code, 2);
    AfterThreeMore(START, actions, Launch(0, true), look, TimeOut(2));
    actions := actions + [Launch(0, true)] + [look] + [TimeOut(2)];
    var d, raids := Opened([first], 1, code), [NewRaid([first])];
    var s4 := State(d, [Ready, Ready, Timing(0)], raids);
    assert s4 == Step(State(d, [Fired(0, 1), Ready], raids), Launch(0, true));
    RightLookUp(first, 1, code, 2);
    var s5 := State(d, [Ready, Answered(0, first, 0, true), Timing(0)], raids);
    assert s5 == Step(s4, look);
    OneVictim(first, 1, code);
  }

  /** What a separated submit leads to: a key that answered right in time is burned at the
      timeout all the same, and its late erasure strikes another key from the next raid. */
  lemma SplitSubmitStrands(first: Key, second: Key, code: string) returns (actions: seq<Action>)
    requires first != "" && second != ""
    ensures var s := After(START, actions);
      |s.raids| == 2 && s.raids[0].cleared == s.raids[0].late == multiset{first}
      && s.raids[1] == NewRaid([second]) && s.desk.deadline != 0 && Unresolved(s, 1) == multiset{}
  {
    hide After, Waiting, Opened, Drained, Erase;
    actions := LooksThenTimesOut(first, code);
    var again := FireSelf(0, second, 30, code);
    AfterThreeMore(START, actions, BurnNext(2), again, SubmitErase(1));
    var drained, answered := Drained(Opened([first], 1, code)), Answered(0, first, 0, true);
    var s6 := State(drained, [Ready, answered, Burning(0, [first])], [NewRaid([first])]);
    assert After(START, actions) == s6;
    actions := actions + [BurnNext(2)] + [again] + [SubmitErase(1)];
    var burned := NewRaid([first]).(late := multiset{first});
    BurnsTheOne(s6, first);
    var s7 := State(drained, [Ready, answered, Burning(0, [])], [burned]);
    assert s7 == Step(s6, BurnNext(2));
    DrainedDeadline(Opened([first], 1, code));
    var d := Opened([second], 30, code);
    var s8 := State(d, [Fired(1, 1), answered, Burning(0, [])], [burned, NewRaid([second])]);
    assert s8 == Step(s7, again);
    LateErasure(s8, second, code);
  }

  lemma BurnsTheOne(s: State, key: Key)
    requires |s.threads| == 3 && s.threads[2] == Burning(0, [key]) && s.raids == [NewRaid([key])]
    ensures Step(s, BurnNext(2)) == State(s.desk, s.threads[2 := Burning(0, [])], [NewRaid([key]).(late := multiset{key})])
  {
    assert [key][1..] == [];
    assert multiset{} + multiset{key} == multiset{key};
  }

  lemma LateErasure(s: State, second: Key, code: string)
    requires second != "" && s.desk == Opened([second], 30, code) && |s.threads| == 3 && |s.raids| == 2
    requires s.threads[0].Fired? && s.threads[1].Answered? && s.threads[1].raid == 0 && s.threads[1].index == 0 && s.threads[1].right
    requires s.threads[2] == Burning(0, []) && s.raids[0].cleared == multiset{} && s.raids[1] == NewRaid([second])
    ensures var after := Step(s, SubmitErase(1));
      |after.raids| == 2 && after.raids[0] == s.raids[0].(cleared := multiset{s.threads[1].key})
      && after.raids[1] == s.raids[1] && after.desk.deadline != 0 && Unresolved(after, 1) == multiset{}
  {
    hide Waiting, Opened, Erase, Loads, Total;
    var after := Step(s, SubmitErase(1));
    OpenedEntry(second, 30, code);
    EraseUntimed(s.desk, 0);
    DeadlineSet(second, code);
    NoLoads(after.threads, 1);
    assert multiset{} + multiset{s.threads[1].key} == multiset{s.threads[1].key};
  }

  lemma DeadlineSet(key: Key, code: string)
    ensures Opened([key], 30, code).deadline != 0
  {
  }

  lemma DrainedDeadline(d: Desk)
    ensures Drained(d).deadline == 0
  {
  }

  lemma AfterNone(s: State)
    ensures After(s, []) == s
  {
  }

  lemma RightLookUp(key: Key, opening: int, code: string, now: int)
    requires key != "" && now < opening + PERIODIC_RAID_TIME_LIMIT_SEC && opening > 0
    ensures LookUp(Opened([key], opening, code), key, code, now) == Answering(0, true)
  {
    hide Waiting;
    OpenedEntry(key, opening, code);
  }
}
