// What an answer to a raid comes to, and what becomes of who gives none: the right code clears
// the key, a wrong one burns it, and nothing else counts.
module RaidAnswers {
  import opened Prelude
  import opened Raid

  /** The raid has gained the key among those who answered as said, and lost nothing. */
  ghost predicate Gained(before: Raid, after: Raid, key: Key, right: bool) {
    && after.snapshot == before.snapshot && after.late == before.late && after.letOff == before.letOff
    && after.cleared == (if right then before.cleared + multiset{key} else before.cleared)
    && after.wrong == (if right then before.wrong else before.wrong + multiset{key})
  }

  /** The newest raid has gained the key, and the key waits no longer. */
  ghost predicate AnswerCounts(s: State, after: State, key: Key, right: bool) {
    && s.raids != [] && |after.raids| == |s.raids|
    && Gained(s.raids[|s.raids| - 1], after.raids[|s.raids| - 1], key, right)
    && (forall r :: 0 <= r < |s.raids| - 1 ==> after.raids[r] == s.raids[r])
    && Waiting(s.desk) == Waiting(after.desk) + multiset{key}
    && after.desk.deadline == s.desk.deadline && after.desk.passcode == s.desk.passcode
  }

  lemma EntryIff(d: Desk, key: Key)
    ensures EntryFrom(d.pending, key, 0) < |d.pending| <==> key in Waiting(d)
    ensures key in Waiting(d) ==> key != ""
  {
    hide Bag;
    BagMember(KeyCells(d.pending), key);
    var i := EntryFrom(d.pending, key, 0);
    if i < |d.pending| {
      assert KeyCells(d.pending)[i] == Some(key);
    }
    if key in Waiting(d) {
      WaitingHasEntry(d, key);
    }
  }

  /** A submit counts exactly in time and by a key that waits: as right exactly with the
      passcode of the raid, and as wrong with any other code. */
  lemma SubmitDecides(s: State, key: Key, code: string, now: int)
    requires Owned(s)
    ensures var after := Step(s, Submit(key, code, now));
      if s.desk.deadline != 0 && now < s.desk.deadline && key in Waiting(s.desk)
      then AnswerCounts(s, after, key, code == s.desk.passcode) && after.threads == s.threads
      else after == s
  {
    hide Waiting, Count;
    EntryIff(s.desk, key);
    var i := EntryFrom(s.desk.pending, key, 0);
    if i < |s.desk.pending| {
      EraseWaits(s.desk, i);
    }
  }

  /** The first section finds the same, and keeps it for the second. */
  lemma LookDecides(s: State, t: nat, key: Key, code: string, now: int)
    requires Owned(s) && t < |s.threads| && s.threads[t].Ready?
    ensures var after := Step(s, SubmitLook(t, key, code, now));
      if s.desk.deadline != 0 && now < s.desk.deadline && key in Waiting(s.desk) then
        && after == s.(threads := s.threads[t := after.threads[t]])
        && after.threads[t].Answered? && after.threads[t].key == key && after.threads[t].raid == |s.raids| - 1
        && (after.threads[t].right <==> code == s.desk.passcode)
        && StillWaits(after, after.threads[t])
      else after == s
  {
    hide Waiting, Count;
    EntryIff(s.desk, key);
  }

  /** The second section counts as the first one found, if the entry is still there. */
  lemma EraseDecides(s: State, t: nat)
    requires Owned(s) && t < |s.threads| && s.threads[t].Answered? && StillWaits(s, s.threads[t])
    ensures AnswerCounts(s, Step(s, SubmitErase(t)), s.threads[t].key, s.threads[t].right)
    ensures Step(s, SubmitErase(t)).threads == s.threads[t := Ready]
  {
    hide Waiting, Count;
    EraseWaits(s.desk, s.threads[t].index);
  }

  lemma ThreadStays(s: State, a: Action, t: nat)
    requires t < |s.threads| && s.threads[t].Answered? && a != SubmitErase(t)
    ensures t < |Step(s, a).threads| && Step(s, a).threads[t] == s.threads[t]
  {
    hide Waiting, Erase, LookUp, Victims, Drained, CalledOff, Opened, ActiveKeys;
  }

  lemma {:induction false} AnswerStays(s: State, actions: seq<Action>, t: nat)
    requires Owned(s) && ClockedRun(actions) && t < |s.threads| && s.threads[t].Answered?
    requires forall i :: 0 <= i < |actions| ==> actions[i] != SubmitErase(t)
    ensures Owned(After(s, actions))
    ensures t < |After(s, actions).threads| && After(s, actions).threads[t] == s.threads[t]
    decreases |actions|
  {
    hide Step, Owned, Clocked;
    if actions != [] {
      StepOwned(s, actions[0]);
      ThreadStays(s, actions[0], t);
      AnswerStays(Step(s, actions[0]), actions[1..], t);
    }
  }

  /** Over any steps of other threads between the two sections: an answer looked up in time is
      recorded as right exactly with the passcode of its raid, if it still finds its entry. */
  lemma SplitSubmitDecides(s: State, t: nat, key: Key, code: string, now: int, between: seq<Action>)
    requires Owned(s) && t < |s.threads| && s.threads[t].Ready? && ClockedRun(between)
    requires s.desk.deadline != 0 && now < s.desk.deadline && key in Waiting(s.desk)
    requires forall i :: 0 <= i < |between| ==> between[i] != SubmitErase(t)
    ensures var later := After(Step(s, SubmitLook(t, key, code, now)), between);
      && t < |later.threads| && later.threads[t].Answered?
      && (StillWaits(later, later.threads[t]) ==>
            AnswerCounts(later, Step(later, SubmitErase(t)), key, code == s.desk.passcode)
            && |later.raids| == |s.raids|)
  {
    hide After, Waiting, Owned, StillWaits, AnswerCounts, Step;
    LookDecides(s, t, key, code, now);
    var looked := Step(s, SubmitLook(t, key, code, now));
    StepOwned(s, SubmitLook(t, key, code, now));
    AnswerStays(looked, between, t);
    var later := After(looked, between);
    if StillWaits(later, later.threads[t]) {
      EraseDecides(later, t);
      StillNewest(later, later.threads[t]);
    }
  }

  lemma StillNewest(s: State, a: Thread)
    requires a.Answered? && StillWaits(s, a)
    ensures a.raid + 1 == |s.raids|
  {
  }

  // Who is asked, and who is burned for saying nothing.

  function WithKey(key: Key): Client -> bool {
    (c: Client) => c.connected && c.key == key
  }

  /** A key is asked once for every client that is connected with it. */
  lemma {:induction false} ActiveKeysAre(table: seq<Client>, key: Key)
    ensures multiset(ActiveKeys(table))[key] == if key == "" then 0 else Count(table, WithKey(key))
  {
    if table != [] {
      var n := |table| - 1;
      ActiveKeysAre(table[..n], key);
      assert ClientCells(table)[..n] == ClientCells(table[..n]);
      var before, last := ActiveKeys(table[..n]), table[n];
      assert ActiveKeys(table) == before + (if last.connected && last.key != "" then [last.key] else []);
      OneMoreKey(before, last.key, key);
    }
  }

  lemma OneMoreKey(keys: seq<Key>, last: Key, key: Key)
    ensures multiset(keys + [last])[key] == multiset(keys)[key] + (if last == key then 1 else 0)
  {
  }

  lemma StartsAs(s: State, t: nat, keys: seq<Key>, count: nat, now: int, code: string)
    requires Owned(s) && t < |s.threads| && s.threads[t].Ready? && |keys| <= MAX_CLIENTS
    requires forall i :: 0 <= i < |keys| ==> keys[i] != ""
    ensures var after := Open(s, t, keys, count, now, code);
      if s.desk.deadline != 0 then after == s
      else
        && after.threads == s.threads[t := Fired(|s.raids|, count)]
        && after.raids == s.raids + [Raid(keys, multiset{}, multiset{}, multiset{}, multiset{})]
        && after.desk.deadline == now + 15 && after.desk.passcode == code && Waiting(after.desk) == multiset(keys)
  {
    hide Waiting, Count, Padded;
    OpenedWaits(keys, now, code);
  }

  /** A periodic raid begins exactly when none is on: for fifteen seconds, with its passcode, and
      for every client that is connected with a key. */
  lemma RaidBegins(s: State, t: nat, table: Table, now: int, code: string)
    requires Owned(s) && t < |s.threads| && s.threads[t].Ready?
    ensures var after := Step(s, FireAll(t, table, now, code));
      if s.desk.deadline != 0 then after == s
      else
        && |after.raids| == |s.raids| + 1 && after.raids[..|s.raids|] == s.raids
        && var raid := after.raids[|s.raids|];
        && (forall key :: multiset(raid.snapshot)[key] == if key == "" then 0 else Count(table, WithKey(key)))
        && Waiting(after.desk) == multiset(raid.snapshot)
        && raid == Raid(raid.snapshot, multiset{}, multiset{}, multiset{}, multiset{})
        && after.desk.deadline == now + 15 && after.desk.passcode == code
        && after.threads == s.threads[t := Fired(|s.raids|, |raid.snapshot|)]
  {
    hide Waiting, Count, ActiveKeys, Owned, Opened;
    ActiveKeysAreKeys(table);
    StartsAs(s, t, ActiveKeys(table), |ActiveKeys(table)|, now, code);
    forall key ensures multiset(ActiveKeys(table))[key] == if key == "" then 0 else Count(table, WithKey(key)) {
      ActiveKeysAre(table, key);
    }
  }

  /** The raid on the requester alone, for a demonstration. */
  lemma SelfRaidBegins(s: State, t: nat, key: Key, now: int, code: string)
    requires Owned(s) && t < |s.threads| && s.threads[t].Ready? && key != ""
    ensures var after := Step(s, FireSelf(t, key, now, code));
      if s.desk.deadline != 0 then after == s
      else
        && after.threads == s.threads[t := Fired(|s.raids|, 1)]
        && after.raids == s.raids + [Raid([key], multiset{}, multiset{}, multiset{}, multiset{})]
        && after.desk.deadline == now + 15 && after.desk.passcode == code && Waiting(after.desk) == multiset{key}
  {
    hide Waiting, Count, Owned, Opened;
    StartsAs(s, t, [key], 1, now, code);
  }

  /** A raid that found nobody ends at once, a timer that cannot be started lets everyone off, and
      otherwise the timer starts; at its timeout everyone who still waits is to be burned. */
  lemma RaidGoesOn(s: State, t: nat, created: bool)
    requires Owned(s) && t < |s.threads| && s.threads[t].Fired?
    ensures var r := s.threads[t].raid;
      var after := Step(s, Launch(t, created));
      && r + 1 == |s.raids| && s.desk.deadline != 0
      && if s.threads[t].count == 0 then
           after.desk.deadline == 0 && after.threads == s.threads[t := Ready] && after.raids == s.raids
         else if created then
           after == s.(threads := s.threads[t := Ready] + [Timing(r)])
         else
           && after.desk.deadline == 0 && Waiting(after.desk) == multiset{} && after.threads == s.threads[t := Ready]
           && after.raids == s.raids[r := s.raids[r].(letOff := s.raids[r].letOff + Waiting(s.desk))]
  {
    hide Waiting, Count;
    TheOwner(s, t);
    DrainWaits(s.desk);
  }

  lemma TimeOutTakes(s: State, t: nat)
    requires t < |s.threads| && s.threads[t].Timing?
    ensures var after := Step(s, TimeOut(t));
      && after.raids == s.raids && after.desk.deadline == 0 && Waiting(after.desk) == multiset{}
      && after.threads == s.threads[t := after.threads[t]] && after.threads[t].Burning?
      && after.threads[t].raid == s.threads[t].raid && multiset(after.threads[t].victims) == Waiting(s.desk)
  {
    hide Waiting, Victims;
    DrainWaits(s.desk);
  }

  /** The timer's loop over its victims. */
  function BurnAll(s: State, t: nat, n: nat): State
    decreases n
  {
    if n == 0 then s else BurnAll(Step(s, BurnNext(t)), t, n - 1)
  }

  lemma {:induction false} BurnsEveryone(s: State, t: nat, victims: seq<Key>)
    requires t < |s.threads| && s.threads[t].Burning? && s.threads[t].raid < |s.raids| && s.threads[t].victims == victims
    ensures var r := s.threads[t].raid;
      BurnAll(s, t, |victims| + 1)
      == s.(threads := s.threads[t := Ready], raids := s.raids[r := s.raids[r].(late := s.raids[r].late + multiset(victims))])
    decreases |victims|
  {
    hide Waiting, LookUp, Erase, Opened, Drained, CalledOff, Victims, ActiveKeys;
    var next := Step(s, BurnNext(t));
    if victims == [] {
      assert next == s.(threads := s.threads[t := Ready]);
      assert BurnAll(s, t, 1) == BurnAll(next, t, 0);
      assert s.raids[s.threads[t].raid].late + multiset(victims) == s.raids[s.threads[t].raid].late;
      assert s.raids[s.threads[t].raid := s.raids[s.threads[t].raid].(late := s.raids[s.threads[t].raid].late + multiset(victims))] == s.raids;
    } else {
      BurnsEveryone(next, t, victims[1..]);
      assert victims == [victims[0]] + victims[1..];
      LateSum(s.raids[s.threads[t].raid].late, victims);
    }
  }

  lemma LateSum(late: multiset<Key>, victims: seq<Key>)
    requires victims != []
    ensures late + multiset{victims[0]} + multiset(victims[1..]) == late + multiset(victims)
  {
    assert victims == [victims[0]] + victims[1..];
  }

  /** Who has not answered when the timer wakes is burned late by it, and nobody else is. */
  lemma SilentAreBurned(s: State, t: nat)
    requires Owned(s) && t < |s.threads| && s.threads[t].Timing?
    ensures var r := s.threads[t].raid;
      var taken := Step(s, TimeOut(t));
      && r < |s.raids| && taken.threads[t].Burning?
      && var after := BurnAll(taken, t, |taken.threads[t].victims| + 1);
      && after.raids == s.raids[r := s.raids[r].(late := s.raids[r].late + Waiting(s.desk))]
      && after.threads == s.threads[t := Ready] && after.desk.deadline == 0 && Waiting(after.desk) == multiset{}
  {
    hide Waiting, Count, Step, BurnAll;
    TheOwner(s, t);
    TimeOutTakes(s, t);
    var taken := Step(s, TimeOut(t));
    BurnsEveryone(taken, t, taken.threads[t].victims);
  }
}
