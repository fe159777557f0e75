// Public leaks of events.c: a leak freezes one tag and owes its recovery to a timer
// thread. Any number of leaks, round resets and board operations interleave; one
// step is one critical section of the market.
module Leak {
  import opened Prelude
  import opened Masks
  import opened Tags
  import M = Market

  /** Where a thread stands in fire_public_leak or in its recovery timer. */
  datatype Thread =
    | Ready
    | ReadFrozen(frozen: bv32)
    | ReadPresent(frozen: bv32, present: bv32)
    | Owing(tag: bv32)       // has frozen the tag and not yet started the timer
    | Recovering(tag: bv32)  // is the timer

  datatype State = State(board: M.Board, threads: seq<Thread>)

  datatype Action =
    | Fork
    | ReadMask(t: nat)
    | ReadTags(t: nat)
    | FreezeOne(t: nat, roll: nat)
    | Launch(t: nat, started: bool)
    | Recover(t: nat)
    | Reset
    | Trade(op: M.BoardOp)

  // The choice of the tag.

  /** The tags of a list that are on sale and not frozen, as far as the two masks read know. */
  function Candidates(list: seq<bv32>, frozen: bv32, present: bv32): (c: seq<bv32>)
    ensures |c| <= |list|
  {
    if list == [] then []
    else
      var n := |list| - 1;
      Candidates(list[..n], frozen, present)
      + (if Meets(list[n], present) && !Meets(list[n], frozen) then [list[n]] else [])
  }

  /** The tag a leak freezes: zero when there is none to freeze. */
  function ChoiceFrom(list: seq<bv32>, frozen: bv32, present: bv32, roll: nat): bv32 {
    var c := Candidates(list, frozen, present);
    if c == [] then 0 else c[roll % |c|]
  }

  function Choice(frozen: bv32, present: bv32, roll: nat): bv32 {
    ChoiceFrom(TAG_LIST, frozen, present, roll)
  }

  lemma {:induction false} CandidatesAre(list: seq<bv32>, frozen: bv32, present: bv32, tag: bv32)
    ensures tag in Candidates(list, frozen, present) <==> tag in list && Meets(tag, present) && !Meets(tag, frozen)
  {
    hide Meets;
    if list != [] {
      var n := |list| - 1;
      CandidatesAre(list[..n], frozen, present, tag);
      assert list == list[..n] + [list[n]];
    }
  }

  lemma PickedFrom<T>(c: seq<T>, roll: nat)
    requires c != []
    ensures c[roll % |c|] in c
    ensures forall x :: x in c ==> exists r: nat :: c[r % |c|] == x
  {
    forall x | x in c ensures exists r: nat :: c[r % |c|] == x {
      var r: nat :| r < |c| && c[r] == x;
      assert r % |c| == r;
    }
  }

  lemma ChoiceFromLawful(list: seq<bv32>, frozen: bv32, present: bv32, roll: nat)
    requires forall tag :: tag in list ==> tag != 0
    ensures var tag := ChoiceFrom(list, frozen, present, roll);
      tag != 0 ==> tag in list && Meets(tag, present) && !Meets(tag, frozen)
    ensures ChoiceFrom(list, frozen, present, roll) == 0
      <==> (forall tag :: tag in list && Meets(tag, present) ==> Meets(tag, frozen))
  {
    hide Meets, Candidates;
    var c := Candidates(list, frozen, present);
    if c == [] {
      forall tag | tag in list && Meets(tag, present) ensures Meets(tag, frozen) {
        CandidatesAre(list, frozen, present, tag);
      }
    } else {
      PickedFrom(c, roll);
      CandidatesAre(list, frozen, present, c[roll % |c|]);
    }
  }

  lemma ChoiceFromReaches(list: seq<bv32>, frozen: bv32, present: bv32, tag: bv32)
    requires tag in list && Meets(tag, present) && !Meets(tag, frozen)
    ensures exists r: nat :: ChoiceFrom(list, frozen, present, r) == tag
  {
    hide Meets, Candidates;
    var c := Candidates(list, frozen, present);
    CandidatesAre(list, frozen, present, tag);
    PickedFrom(c, 0);
    var r: nat :| c[r % |c|] == tag;
    assert ChoiceFrom(list, frozen, present, r) == tag;
  }

  /** A leak picks one of the twelve tags, on sale and not frozen when it looked; it gives
      up exactly when there is none; and every such tag is some roll's choice. */
  lemma ChoiceLawful(frozen: bv32, present: bv32, roll: nat)
    ensures var tag := Choice(frozen, present, roll);
      tag != 0 ==> tag in TAG_LIST && Meets(tag, present) && !Meets(tag, frozen)
    ensures Choice(frozen, present, roll) == 0
      <==> (forall tag :: tag in TAG_LIST && Meets(tag, present) ==> Meets(tag, frozen))
    ensures forall tag :: tag in TAG_LIST && Meets(tag, present) && !Meets(tag, frozen) ==>
              exists r: nat :: Choice(frozen, present, r) == tag
  {
    hide Meets, ChoiceFrom;
    ChoiceFromLawful(TAG_LIST, frozen, present, roll);
    forall tag | tag in TAG_LIST && Meets(tag, present) && !Meets(tag, frozen)
      ensures exists r: nat :: Choice(frozen, present, r) == tag
    {
      ChoiceFromReaches(TAG_LIST, frozen, present, tag);
      var r: nat :| ChoiceFrom(TAG_LIST, frozen, present, r) == tag;
      assert Choice(frozen, present, r) == tag;
    }
  }

  lemma ListedIsTag(tag: bv32)
    requires tag in TAG_LIST
    ensures SingleBit(tag)
  {
  }

  lemma CandidatesStep(list: seq<bv32>, i: nat, frozen: bv32, present: bv32)
    requires i < |list|
    ensures Candidates(list[..i + 1], frozen, present)
      == Candidates(list[..i], frozen, present) + (if Meets(list[i], present) && !Meets(list[i], frozen) then [list[i]] else [])
    ensures list[..|list|] == list && Candidates(list[..0], frozen, present) == []
  {
    assert list[..i + 1][..i] == list[..i];
  }

  method ChooseTag(list: seq<bv32>, frozen: bv32, present: bv32, roll: nat) returns (tag: bv32)
    requires |list| == TAG_COUNT
    ensures tag == ChoiceFrom(list, frozen, present, roll)
  {
    hide Meets, Candidates;
    var avail := new nat[TAG_COUNT];
    var count := 0;
    CandidatesStep(list, 0, frozen, present);
    for i := 0 to TAG_COUNT
      invariant count == |Candidates(list[..i], frozen, present)| <= i
      invariant forall k :: 0 <= k < count ==> avail[k] < TAG_COUNT && list[avail[k]] == Candidates(list[..i], frozen, present)[k]
    {
      CandidatesStep(list, i, frozen, present);
      if Meets(list[i], present) && !Meets(list[i], frozen) {
        avail[count] := i;
        count := count + 1;
      }
    }
    if count == 0 {
      return 0;
    }
    return list[avail[roll % count]];
  }

  // The steps.

  function Goes(s: State, t: nat, thread: Thread): State
    requires t < |s.threads|
  {
    s.(threads := s.threads[t := thread])
  }

  /** A step that its thread is not ready for does nothing. A leak whose timer cannot be
      started thaws its tag itself. */
  function Step(s: State, a: Action): State {
    match a
    case Fork => s.(threads := s.threads + [Ready])
    case ReadMask(t) =>
      if t < |s.threads| && s.threads[t].Ready? then Goes(s, t, ReadFrozen(s.board.mask)) else s
    case ReadTags(t) =>
      if t < |s.threads| && s.threads[t].ReadFrozen? then
        Goes(s, t, ReadPresent(s.threads[t].frozen, M.TagsOnSale(s.board.slots)))
      else s
    case FreezeOne(t, roll) =>
      if t < |s.threads| && s.threads[t].ReadPresent? then
        var tag := Choice(s.threads[t].frozen, s.threads[t].present, roll);
        if tag == 0 then Goes(s, t, Ready)
        else Goes(s, t, Owing(tag)).(board := M.Freeze(s.board, tag))
      else s
    case Launch(t, started) =>
      if t < |s.threads| && s.threads[t].Owing? then
        if started then State(s.board, s.threads[t := Ready] + [Recovering(s.threads[t].tag)])
        else Goes(s, t, Ready).(board := M.Unfreeze(s.board, s.threads[t].tag))
      else s
    case Recover(t) =>
      if t < |s.threads| && s.threads[t].Recovering? then
        Goes(s, t, Ready).(board := M.Unfreeze(s.board, s.threads[t].tag))
      else s
    case Reset => s.(board := M.EmptyBoard())
    case Trade(op) =>
      if op.FreezeOp? || op.UnfreezeOp? then s else s.(board := M.Apply(s.board, op))
  }

  // What is owed.

  function Owed(thread: Thread): bv32 {
    if thread.Owing? || thread.Recovering? then thread.tag else 0
  }

  /** Some thread still has to recover a tag of v. */
  ghost predicate Due(threads: seq<Thread>, v: bv32) {
    exists t :: 0 <= t < |threads| && Meets(v, Owed(threads[t]))
  }

  ghost predicate OwesTags(threads: seq<Thread>) {
    forall t :: 0 <= t < |threads| && (threads[t].Owing? || threads[t].Recovering?) ==> SingleBit(threads[t].tag)
  }

  /** Everything frozen is due for recovery. */
  ghost predicate Backed(s: State) {
    forall v :: Meets(v, s.board.mask) ==> Due(s.threads, v)
  }

  ghost predicate Inv(s: State) {
    M.Consistent(s.board) && OwesTags(s.threads) && Backed(s)
  }

  /** The union of what all threads owe. */
  function AllOwed(threads: seq<Thread>): bv32 {
    if threads == [] then 0 else Join(AllOwed(threads[..|threads| - 1]), Owed(threads[|threads| - 1]))
  }

  lemma {:induction false} AllOwedDue(threads: seq<Thread>, v: bv32)
    ensures Meets(v, AllOwed(threads)) <==> Due(threads, v)
  {
    hide Meets, Join, Owed;
    if threads == [] {
      MeetsZero(v);
    } else {
      var n := |threads| - 1;
      AllOwedDue(threads[..n], v);
      MeetsJoin(v, AllOwed(threads[..n]), Owed(threads[n]));
      assert forall t :: 0 <= t < n ==> threads[..n][t] == threads[t];
    }
  }

  /** Being backed is being covered by the union of the outstanding recoveries. */
  lemma BackedIsCovered(s: State)
    ensures Backed(s) <==> Covers(AllOwed(s.threads), s.board.mask)
  {
    hide Meets, AllOwed, Due, Covers, Drop;
    var all, mask := AllOwed(s.threads), s.board.mask;
    forall v ensures Due(s.threads, v) <==> Meets(v, all) {
      AllOwedDue(s.threads, v);
    }
    if Covers(all, mask) {
      forall v | Meets(v, mask) ensures Meets(v, all) {
        CoversMeets(all, mask, v);
      }
    } else {
      MissingTags(all, mask);
      assert Meets(Drop(mask, all), mask);
    }
  }

  // Every step keeps it.

  lemma DueElsewhere(threads: seq<Thread>, t: nat, v: bv32)
    requires t < |threads| && Due(threads, Drop(v, Owed(threads[t])))
    ensures Due(threads[t := Ready], v)
  {
    hide Meets, Drop, Owed;
    var tag := Owed(threads[t]);
    var u :| 0 <= u < |threads| && Meets(Drop(v, tag), Owed(threads[u]));
    DropSwap(v, v, tag);
    DropPart(v, tag, Owed(threads[u]));
    assert threads[t := Ready][u] == threads[u];
  }

  /** A thread that thaws its tag leaves only tags that others have to recover. */
  lemma ThawKeeps(s: State, t: nat)
    requires Inv(s) && t < |s.threads| && (s.threads[t].Owing? || s.threads[t].Recovering?)
    ensures Inv(Goes(s, t, Ready).(board := M.Unfreeze(s.board, s.threads[t].tag)))
  {
    hide M.Consistent, Meets, Drop, Due, SingleBit, M.Ids, M.Offers;
    var tag := s.threads[t].tag;
    M.UnfreezeKeeps(s.board, tag);
    forall v | Meets(v, Drop(s.board.mask, tag)) ensures Due(s.threads[t := Ready], v) {
      DropSwap(v, s.board.mask, tag);
      DueElsewhere(s.threads, t, v);
    }
  }

  lemma DueAfter(before: seq<Thread>, after: seq<Thread>, t: nat, v: bv32)
    requires t < |before| <= |after| && Owed(before[t]) == 0 && Due(before, v)
    requires forall u :: 0 <= u < |before| && u != t ==> after[u] == before[u]
    ensures Due(after, v)
  {
    hide Meets, Owed;
    var u :| 0 <= u < |before| && Meets(v, Owed(before[u]));
    MeetsZero(v);
    assert after[u] == before[u];
  }

  lemma FreezeKeeps(s: State, t: nat, tag: bv32)
    requires Inv(s) && t < |s.threads| && Owed(s.threads[t]) == 0 && SingleBit(tag)
    ensures Inv(Goes(s, t, Owing(tag)).(board := M.Freeze(s.board, tag)))
  {
    hide M.Consistent, Meets, Join, Due, SingleBit, M.Ids, M.Offers;
    M.FreezeKeeps(s.board, tag);
    var after := s.threads[t := Owing(tag)];
    forall v | Meets(v, Join(s.board.mask, tag)) ensures Due(after, v) {
      MeetsJoin(v, s.board.mask, tag);
      if Meets(v, tag) {
        DueAt(after, t, v);
      } else {
        DueAfter(s.threads, after, t, v);
      }
    }
  }

  lemma DueAt(threads: seq<Thread>, t: nat, v: bv32)
    requires t < |threads| && Meets(v, Owed(threads[t]))
    ensures Due(threads, v)
  {
  }

  /** Handing the debt to the timer changes nothing that is due. */
  lemma HandOver(threads: seq<Thread>, t: nat, v: bv32)
    requires t < |threads| && threads[t].Owing?
    ensures Due(threads, v) <==> Due(threads[t := Ready] + [Recovering(threads[t].tag)], v)
  {
    hide Meets;
    var after := threads[t := Ready] + [Recovering(threads[t].tag)];
    MeetsZero(v);
    if Due(threads, v) {
      var u :| 0 <= u < |threads| && Meets(v, Owed(threads[u]));
      assert Meets(v, Owed(after[if u == t then |threads| else u]));
    }
    if Due(after, v) {
      var u :| 0 <= u < |after| && Meets(v, Owed(after[u]));
      assert Meets(v, Owed(threads[if u == |threads| then t else u]));
    }
  }

  lemma LaunchKeeps(s: State, t: nat)
    requires Inv(s) && t < |s.threads| && s.threads[t].Owing?
    ensures Inv(State(s.board, s.threads[t := Ready] + [Recovering(s.threads[t].tag)]))
  {
    hide M.Consistent, Meets, Due, SingleBit;
    forall v ensures Due(s.threads, v) <==> Due(s.threads[t := Ready] + [Recovering(s.threads[t].tag)], v) {
      HandOver(s.threads, t, v);
    }
  }

  lemma IdleKeeps(s: State, t: nat, thread: Thread)
    requires Inv(s) && t < |s.threads| && Owed(s.threads[t]) == 0 && !thread.Owing? && !thread.Recovering?
    ensures Inv(Goes(s, t, thread))
  {
    hide M.Consistent, Meets, Due, SingleBit;
    forall v | Due(s.threads, v) ensures Due(s.threads[t := thread], v) {
      DueAfter(s.threads, s.threads[t := thread], t, v);
    }
  }

  lemma ForkKeeps(s: State)
    requires Inv(s)
    ensures Inv(s.(threads := s.threads + [Ready]))
  {
    hide M.Consistent, Meets, SingleBit;
    forall v | Due(s.threads, v) ensures Due(s.threads + [Ready], v) {
      var u :| 0 <= u < |s.threads| && Meets(v, Owed(s.threads[u]));
      assert (s.threads + [Ready])[u] == s.threads[u];
    }
  }

  lemma ResetKeeps(s: State)
    requires Inv(s)
    ensures Inv(s.(board := M.EmptyBoard()))
  {
    hide M.Consistent, Meets, Due, M.Ids, M.Offers, SingleBit;
    M.EmptyIsEmpty();
    forall v ensures !Meets(v, 0) {
      MeetsZero(v);
    }
  }

  lemma TradeKeeps(s: State, op: M.BoardOp)
    requires Inv(s) && !op.FreezeOp? && !op.UnfreezeOp?
    ensures Inv(s.(board := M.Apply(s.board, op)))
  {
    hide M.Consistent, Meets, Due, M.Ids, M.Offers, SingleBit, M.Reported;
    M.ApplyConserves(s.board, op);
    assert M.Apply(s.board, op).mask == s.board.mask;
  }

  lemma StepKeeps(s: State, a: Action)
    requires Inv(s)
    ensures Inv(Step(s, a))
  {
    hide Inv, M.Freeze, M.Unfreeze, M.Apply, M.EmptyBoard, M.TagsOnSale, Choice, SingleBit;
    match a
    case Fork => ForkKeeps(s);
    case ReadMask(t) =>
      if t < |s.threads| && s.threads[t].Ready? {
        IdleKeeps(s, t, ReadFrozen(s.board.mask));
      }
    case ReadTags(t) =>
      if t < |s.threads| && s.threads[t].ReadFrozen? {
        IdleKeeps(s, t, ReadPresent(s.threads[t].frozen, M.TagsOnSale(s.board.slots)));
      }
    case FreezeOne(t, roll) =>
      if t < |s.threads| && s.threads[t].ReadPresent? {
        var tag := Choice(s.threads[t].frozen, s.threads[t].present, roll);
        if tag == 0 {
          IdleKeeps(s, t, Ready);
        } else {
          ChosenIsTag(s.threads[t].frozen, s.threads[t].present, roll);
          FreezeKeeps(s, t, tag);
        }
      }
    case Launch(t, started) =>
      if t < |s.threads| && s.threads[t].Owing? {
        if started {
          LaunchKeeps(s, t);
        } else {
          ThawKeeps(s, t);
        }
      }
    case Recover(t) =>
      if t < |s.threads| && s.threads[t].Recovering? {
        ThawKeeps(s, t);
      }
    case Reset => ResetKeeps(s);
    case Trade(op) =>
      if !op.FreezeOp? && !op.UnfreezeOp? {
        TradeKeeps(s, op);
      }
  }

  lemma ChosenIsTag(frozen: bv32, present: bv32, roll: nat)
    requires Choice(frozen, present, roll) != 0
    ensures SingleBit(Choice(frozen, present, roll))
  {
    hide Choice, Meets, SingleBit;
    ChoiceLawful(frozen, present, roll);
    ListedIsTag(Choice(frozen, present, roll));
  }

  // Runs.

  const START := State(M.EmptyBoard(), [])

  function After(s: State, actions: seq<Action>): State
    decreases |actions|
  {
    if actions == [] then s else After(Step(s, actions[0]), actions[1..])
  }

  lemma StartHolds()
    ensures Inv(START)
  {
    hide M.Consistent, Meets, Due, M.Ids, M.Offers;
    M.EmptyIsEmpty();
    forall v ensures !Meets(v, 0) {
      MeetsZero(v);
    }
  }

  lemma {:induction false} RunKeeps(s: State, actions: seq<Action>)
    requires Inv(s)
    ensures Inv(After(s, actions))
    decreases |actions|
  {
    hide Step, Inv;
    if actions != [] {
      StepKeeps(s, actions[0]);
      RunKeeps(Step(s, actions[0]), actions[1..]);
    }
  }

  /** What every run from an empty market gives: an offer is flagged exactly when its tags
      meet the mask, a take refuses an offer on sale exactly then, the mask is covered by
      the outstanding recoveries, and with none outstanding nothing is frozen. */
  lemma EveryRun(actions: seq<Action>, docId: int)
    ensures var s := After(START, actions);
      && M.Consistent(s.board)
      && Covers(AllOwed(s.threads), s.board.mask)
      && (docId in M.Ids(s.board) ==>
            M.Find(s.board, docId).Some?
            && (M.Take(s.board, docId).Frozen? <==> Meets(M.Find(s.board, docId).value.offer.tags, s.board.mask)))
      && ((forall t :: 0 <= t < |s.threads| ==> Owed(s.threads[t]) == 0) ==>
            s.board.mask == 0 && forall i :: 0 <= i < |s.board.slots| && s.board.slots[i].active ==> !s.board.slots[i].frozen)
  {
    hide Step, After, M.Take, M.Find, M.Ids, M.Offers, Covers, Meets, Owed, Due;
    StartHolds();
    RunKeeps(START, actions);
    var s := After(START, actions);
    BackedIsCovered(s);
    M.TakeRefusesFrozen(s.board, docId);
    if forall t :: 0 <= t < |s.threads| ==> Owed(s.threads[t]) == 0 {
      NothingDue(s);
    }
  }

  lemma NothingDue(s: State)
    requires Inv(s) && forall t :: 0 <= t < |s.threads| ==> Owed(s.threads[t]) == 0
    ensures s.board.mask == 0
    ensures forall i :: 0 <= i < |s.board.slots| && s.board.slots[i].active ==> !s.board.slots[i].frozen
  {
    hide Meets, Owed;
    var mask := s.board.mask;
    MeetsZero(mask);
    assert !Due(s.threads, mask);
    forall i | 0 <= i < |s.board.slots| && s.board.slots[i].active ensures !s.board.slots[i].frozen {
      MeetsZero(s.board.slots[i].offer.tags);
    }
  }

  // When the mask is exactly what is owed.

  /** The mask is the union of the outstanding recoveries. */
  ghost predicate Exact(s: State) {
    forall v :: Meets(v, s.board.mask) <==> Due(s.threads, v)
  }

  ghost predicate OthersOwe(s: State, t: nat, tag: bv32) {
    exists u :: 0 <= u < |s.threads| && u != t && Owed(s.threads[u]) == tag
  }

  /** A thaw while another thread owes the same tag comes too early, and so does a reset
      while anything is frozen: some recovery is then outstanding for nothing. */
  ghost predicate Timely(s: State, a: Action) {
    match a
    case Recover(t) =>
      t < |s.threads| && s.threads[t].Recovering? ==> !OthersOwe(s, t, s.threads[t].tag)
    case Launch(t, started) =>
      t < |s.threads| && s.threads[t].Owing? && !started ==> !OthersOwe(s, t, s.threads[t].tag)
    case Reset => s.board.mask == 0
    case _ => true
  }

  lemma ThawExact(s: State, t: nat)
    requires OwesTags(s.threads) && Exact(s) && t < |s.threads| && (s.threads[t].Owing? || s.threads[t].Recovering?)
    ensures Exact(Goes(s, t, Ready).(board := M.Unfreeze(s.board, s.threads[t].tag))) <==> !OthersOwe(s, t, s.threads[t].tag)
  {
    hide Meets, Drop, Due, SingleBit;
    var tag, after := s.threads[t].tag, s.threads[t := Ready];
    if OthersOwe(s, t, tag) {
      var u :| 0 <= u < |s.threads| && u != t && Owed(s.threads[u]) == tag;
      TagMeetsItself(tag);
      DueAt(after, u, tag);
      DropSwap(tag, s.board.mask, tag);
    } else {
      forall v ensures Meets(v, Drop(s.board.mask, tag)) <==> Due(after, v) {
        DropSwap(v, s.board.mask, tag);
        if Meets(v, Drop(s.board.mask, tag)) {
          DueElsewhere(s.threads, t, v);
        }
        if Due(after, v) {
          StillFrozen(s, t, v);
        }
      }
    }
  }

  lemma TagMeetsItself(tag: bv32)
    requires SingleBit(tag)
    ensures Meets(tag, tag)
  {
  }

  /** What others have to recover survives a thaw of a different tag. */
  lemma StillFrozen(s: State, t: nat, v: bv32)
    requires OwesTags(s.threads) && Exact(s) && t < |s.threads| && (s.threads[t].Owing? || s.threads[t].Recovering?)
    requires !OthersOwe(s, t, s.threads[t].tag) && Due(s.threads[t := Ready], v)
    ensures Meets(v, Drop(s.board.mask, s.threads[t].tag))
  {
    hide Meets, Drop, SingleBit, Covers;
    var tag := s.threads[t].tag;
    var u :| 0 <= u < |s.threads| && Meets(v, Owed(s.threads[t := Ready][u]));
    var other := Owed(s.threads[t := Ready][u]);
    MeetsZero(v);
    assert u != t && other == s.threads[u].tag;
    TagMeetsItself(other);
    DueAt(s.threads, u, other);
    TagsApart(other, tag);
    MeetsDrop(other, s.board.mask, tag);
    TagCovered(other, v);
    CoversMeetsToo(v, other, Drop(s.board.mask, tag));
  }

  lemma FreezeExact(s: State, t: nat, tag: bv32)
    requires Exact(s) && t < |s.threads| && Owed(s.threads[t]) == 0
    ensures Exact(Goes(s, t, Owing(tag)).(board := M.Freeze(s.board, tag)))
  {
    hide Meets, Join, Due;
    var after := s.threads[t := Owing(tag)];
    forall v ensures Meets(v, Join(s.board.mask, tag)) <==> Due(after, v) {
      MeetsJoin(v, s.board.mask, tag);
      if Meets(v, tag) {
        DueAt(after, t, v);
      } else {
        if Due(s.threads, v) {
          DueAfter(s.threads, after, t, v);
        }
        if Due(after, v) {
          DueBefore(s.threads, t, Owing(tag), v);
        }
      }
    }
  }

  lemma DueBefore(threads: seq<Thread>, t: nat, thread: Thread, v: bv32)
    requires t < |threads| && Due(threads[t := thread], v) && !Meets(v, Owed(thread))
    ensures Due(threads, v)
  {
    hide Meets, Owed;
    var u :| 0 <= u < |threads| && Meets(v, Owed(threads[t := thread][u]));
    assert threads[t := thread][u] == threads[u];
  }

  lemma IdleExact(s: State, t: nat, thread: Thread)
    requires Exact(s) && t < |s.threads| && Owed(s.threads[t]) == 0 && Owed(thread) == 0
    ensures Exact(Goes(s, t, thread))
  {
    hide Meets, Due, Owed;
    forall v ensures Due(s.threads, v) <==> Due(s.threads[t := thread], v) {
      MeetsZero(v);
      if Due(s.threads, v) {
        DueAfter(s.threads, s.threads[t := thread], t, v);
      }
      if Due(s.threads[t := thread], v) {
        DueBefore(s.threads, t, thread, v);
      }
    }
  }

  lemma ForkDue(threads: seq<Thread>, v: bv32)
    ensures Due(threads + [Ready], v) <==> Due(threads, v)
  {
    hide Meets;
    MeetsZero(v);
    if Due(threads, v) {
      var u :| 0 <= u < |threads| && Meets(v, Owed(threads[u]));
      DueAt(threads + [Ready], u, v);
    }
  }

  lemma ResetExact(s: State)
    requires Exact(s)
    ensures Exact(s.(board := M.EmptyBoard())) <==> s.board.mask == 0
  {
    hide Meets, Due;
    MeetsZero(s.board.mask);
    forall v ensures !Meets(v, 0) {
      MeetsZero(v);
    }
  }

  /** From a mask that is exactly what is owed, a step keeps it so exactly when it is timely. */
  lemma ExactIffTimely(s: State, a: Action)
    requires OwesTags(s.threads) && Exact(s)
    ensures Exact(Step(s, a)) <==> Timely(s, a)
  {
    hide Exact, OwesTags, OthersOwe, M.Freeze, M.Unfreeze, M.EmptyBoard, M.TagsOnSale, Choice;
    match a
    case Fork =>
      forall v ensures Due(s.threads + [Ready], v) <==> Due(s.threads, v) {
        ForkDue(s.threads, v);
      }
      SameDue(s, s.(threads := s.threads + [Ready]));
    case ReadMask(t) =>
      if t < |s.threads| && s.threads[t].Ready? {
        IdleExact(s, t, ReadFrozen(s.board.mask));
      }
    case ReadTags(t) =>
      if t < |s.threads| && s.threads[t].ReadFrozen? {
        IdleExact(s, t, ReadPresent(s.threads[t].frozen, M.TagsOnSale(s.board.slots)));
      }
    case FreezeOne(t, roll) =>
      if t < |s.threads| && s.threads[t].ReadPresent? {
        var tag := Choice(s.threads[t].frozen, s.threads[t].present, roll);
        if tag == 0 {
          IdleExact(s, t, Ready);
        } else {
          FreezeExact(s, t, tag);
        }
      }
    case Launch(t, started) =>
      if t < |s.threads| && s.threads[t].Owing? {
        if started {
          var after := s.threads[t := Ready] + [Recovering(s.threads[t].tag)];
          forall v ensures Due(s.threads, v) <==> Due(after, v) {
            HandOver(s.threads, t, v);
          }
          SameDue(s, State(s.board, after));
        } else {
          ThawExact(s, t);
        }
      }
    case Recover(t) =>
      if t < |s.threads| && s.threads[t].Recovering? {
        ThawExact(s, t);
      }
    case Reset => ResetExact(s);
    case Trade(op) =>
      if !op.FreezeOp? && !op.UnfreezeOp? {
        TradeMask(s.board, op);
        SameDue(s, s.(board := M.Apply(s.board, op)));
      }
  }

  ghost predicate ExactThroughout(s: State, actions: seq<Action>)
    decreases |actions|
  {
    Exact(s) && (actions != [] ==> ExactThroughout(Step(s, actions[0]), actions[1..]))
  }

  ghost predicate TimelyRun(s: State, actions: seq<Action>)
    decreases |actions|
  {
    actions != [] ==> Timely(s, actions[0]) && TimelyRun(Step(s, actions[0]), actions[1..])
  }

  lemma {:induction false} RunExact(s: State, actions: seq<Action>)
    requires Inv(s) && Exact(s)
    ensures ExactThroughout(s, actions) <==> TimelyRun(s, actions)
    decreases |actions|
  {
    hide Step, Exact, Timely, M.Consistent, OwesTags, Backed;
    if actions != [] {
      StepKeeps(s, actions[0]);
      ExactIffTimely(s, actions[0]);
      if Exact(Step(s, actions[0])) {
        RunExact(Step(s, actions[0]), actions[1..]);
      } else {
        InexactFrom(Step(s, actions[0]), actions[1..]);
      }
    }
  }

  lemma InexactFrom(s: State, actions: seq<Action>)
    requires !Exact(s)
    ensures !ExactThroughout(s, actions)
  {
    hide Exact, Step;
  }

  /** From an empty market on, the mask is at every moment exactly what is owed, if and only if
      every step of the run is timely. */
  lemma EveryRunExactIff(actions: seq<Action>)
    ensures ExactThroughout(START, actions) <==> TimelyRun(START, actions)
  {
    hide ExactThroughout, TimelyRun, Inv, Exact;
    StartHolds();
    StartExact();
    RunExact(START, actions);
  }

  lemma StartExact()
    ensures Exact(START)
  {
    hide Meets, M.Ids, M.Offers;
    forall v ensures !Meets(v, 0) {
      MeetsZero(v);
    }
  }

  lemma SameDue(s: State, after: State)
    requires Exact(s) && after.board.mask == s.board.mask
    requires forall v :: Due(s.threads, v) <==> Due(after.threads, v)
    ensures Exact(after)
  {
    hide Meets, Due;
  }

  lemma TradeMask(b: M.Board, op: M.BoardOp)
    requires !op.FreezeOp? && !op.UnfreezeOp?
    ensures M.Apply(b, op).mask == b.mask
  {
  }

  lemma {:induction false} AfterOneMore(s: State, actions: seq<Action>, a: Action)
    ensures After(s, actions + [a]) == Step(After(s, actions), a)
    decreases |actions|
  {
    hide Step;
    if actions == [] {
      assert After(s, [a]) == After(Step(s, a), []);
    } else {
      AfterOneMore(Step(s, actions[0]), actions[1..], a);
      assert (actions + [a])[1..] == actions[1..] + [a];
    }
  }

  /** Two leaks that look before either freezes choose the same tag, and the first recovery
      thaws it while the second is still outstanding. */
  lemma TwinLeaks(s: State, t: nat, u: nat) returns (actions: seq<Action>)
    requires t < |s.threads| && u < |s.threads| && t != u && s.threads[t].Ready? && s.threads[u].Ready?
    requires Choice(s.board.mask, M.TagsOnSale(s.board.slots), 0) != 0
    ensures var after := After(s, actions);
      var tag := Choice(s.board.mask, M.TagsOnSale(s.board.slots), 0);
      |after.threads| > 0 && after.threads[|after.threads| - 1] == Recovering(tag) && !Meets(tag, after.board.mask)
  {
    hide Meets, Drop, After, Choice, M.TagsOnSale;
    var tag := Choice(s.board.mask, M.TagsOnSale(s.board.slots), 0);
    var looks := [ReadMask(t), ReadTags(t), ReadMask(u), ReadTags(u)];
    var s4 := BothLook(s, t, u);
    AfterOneMore(s, looks, FreezeOne(t, 0));
    var s5 := Step(s4, FreezeOne(t, 0));
    AfterOneMore(s, looks + [FreezeOne(t, 0)], FreezeOne(u, 0));
    var s6 := Step(s5, FreezeOne(u, 0));
    assert s6.threads[t] == s6.threads[u] == Owing(tag);
    var six := looks + [FreezeOne(t, 0)] + [FreezeOne(u, 0)];
    AfterOneMore(s, six, Launch(t, true));
    var s7 := Step(s6, Launch(t, true));
    var n := |s6.threads|;
    assert s7.threads[n] == Recovering(tag) && s7.threads[u] == Owing(tag);
    AfterOneMore(s, six + [Launch(t, true)], Launch(u, true));
    var s8 := Step(s7, Launch(u, true));
    assert s8.threads[n] == s8.threads[n + 1] == Recovering(tag);
    actions := six + [Launch(t, true)] + [Launch(u, true)] + [Recover(n)];
    AfterOneMore(s, six + [Launch(t, true)] + [Launch(u, true)], Recover(n));
    DropSwap(tag, s8.board.mask, tag);
  }

  lemma BothLook(s: State, t: nat, u: nat) returns (after: State)
    requires t < |s.threads| && u < |s.threads| && t != u && s.threads[t].Ready? && s.threads[u].Ready?
    ensures after == After(s, [ReadMask(t), ReadTags(t), ReadMask(u), ReadTags(u)])
    ensures after.board == s.board && |after.threads| == |s.threads|
    ensures after.threads[t] == after.threads[u] == ReadPresent(s.board.mask, M.TagsOnSale(s.board.slots))
  {
    hide After, M.TagsOnSale;
    var a, b, c, d := ReadMask(t), ReadTags(t), ReadMask(u), ReadTags(u);
    AfterOneMore(s, [], a);
    AfterOneMore(s, [a], b);
    AfterOneMore(s, [a, b], c);
    AfterOneMore(s, [a, b, c], d);
    assert [] + [a] == [a] && [a] + [b] == [a, b] && [a, b] + [c] == [a, b, c] && [a, b, c] + [d] == [a, b, c, d];
    AfterNone(s);
    after := Step(Step(Step(Step(s, a), b), c), d);
  }

  lemma AfterNone(s: State)
    ensures After(s, []) == s
  {
  }

  lemma {:induction false} AfterJoin(s: State, first: seq<Action>, rest: seq<Action>)
    ensures After(s, first + rest) == After(After(s, first), rest)
    decreases |first|
  {
    hide Step;
    if first == [] {
      assert first + rest == rest;
    } else {
      AfterJoin(Step(s, first[0]), first[1..], rest);
      assert (first + rest)[1..] == first[1..] + rest;
    }
  }

  /** From the start of the server, with a single document on sale. */
  lemma TwinLeaksThawEarly() returns (actions: seq<Action>)
    ensures var after := After(START, actions);
      |after.threads| > 0 && after.threads[|after.threads| - 1] == Recovering(TAG_CORP_A) && !Meets(TAG_CORP_A, after.board.mask)
  {
    hide Meets, After, Step, Choice, M.TagsOnSale;
    var ready := OneOnSale();
    var twins := TwinLeaks(After(START, ready), 0, 1);
    AfterJoin(START, ready, twins);
    actions := ready + twins;
  }

  lemma OneOnSale() returns (actions: seq<Action>)
    ensures var s := After(START, actions);
      && |s.threads| == 2 && s.threads[0].Ready? && s.threads[1].Ready?
      && Choice(s.board.mask, M.TagsOnSale(s.board.slots), 0) == TAG_CORP_A
  {
    hide Meets, After, Choice, M.TagsOnSale, M.EmptyBoard;
    var list := Trade(M.AddOp(M.Offer(1, TAG_CORP_A, 400, ""), 0, 0));
    actions := [] + [Fork] + [Fork] + [list];
    AfterNone(START);
    AfterOneMore(START, [], Fork);
    AfterOneMore(START, [] + [Fork], Fork);
    AfterOneMore(START, [] + [Fork] + [Fork], list);
    OnlyTagOnSale();
  }

  lemma OnlyTagOnSale()
    ensures var b := M.AddOffer(M.EmptyBoard(), M.Offer(1, TAG_CORP_A, 400, ""), 0, 0);
      b.mask == 0 && Choice(b.mask, M.TagsOnSale(b.slots), 0) == TAG_CORP_A
  {
    hide Choice, M.TagsOnSale, Meets;
    var b := M.AddOffer(M.EmptyBoard(), M.Offer(1, TAG_CORP_A, 400, ""), 0, 0);
    assert M.FirstFreeFrom(M.EmptyBoard().slots, 0) == 0;
    assert b.slots[0].active && b.slots[0].offer.tags == TAG_CORP_A;
    assert forall i :: 0 < i < |b.slots| ==> !b.slots[i].active;
    ChoiceLawful(0, M.TagsOnSale(b.slots), 0);
    M.OnSaleMeets(b.slots, TAG_CORP_A);
    MeetsZero(TAG_CORP_A);
    var tag := Choice(0, M.TagsOnSale(b.slots), 0);
    if tag != 0 {
      M.OnSaleMeets(b.slots, tag);
      OtherTagsMiss(tag);
    }
  }

  lemma OtherTagsMiss(tag: bv32)
    requires tag in TAG_LIST && Meets(tag, TAG_CORP_A)
    ensures tag == TAG_CORP_A
  {
  }

  // A leak that nobody comes between.

  /** Some offer on sale carries the tag. */
  predicate OnSale(b: M.Board, tag: bv32) {
    exists i :: 0 <= i < |b.slots| && b.slots[i].active && Meets(tag, b.slots[i].offer.tags)
  }

  function Leaks(s: State, t: nat, roll: nat): State {
    Step(Step(Step(s, ReadMask(t)), ReadTags(t)), FreezeOne(t, roll))
  }

  /** It freezes one of the twelve tags that is on sale and was not frozen, with every offer that
      carries it, and nothing else; without such a tag it does nothing. */
  lemma LeakFreezes(s: State, t: nat, roll: nat)
    requires t < |s.threads| && s.threads[t].Ready?
    ensures var after := Leaks(s, t, roll);
      if forall tag :: tag in TAG_LIST && OnSale(s.board, tag) ==> Meets(tag, s.board.mask) then after == s
      else
        && after.threads == s.threads[t := after.threads[t]] && after.threads[t].Owing?
        && var tag := after.threads[t].tag;
        && tag in TAG_LIST && OnSale(s.board, tag) && !Meets(tag, s.board.mask)
        && (forall v :: Meets(v, after.board.mask) <==> Meets(v, s.board.mask) || Meets(v, tag))
        && |after.board.slots| == |s.board.slots|
        && forall i :: 0 <= i < |s.board.slots| ==>
             after.board.slots[i] == s.board.slots[i].(frozen := s.board.slots[i].frozen
                                                         || (s.board.slots[i].active && Meets(s.board.slots[i].offer.tags, tag)))
  {
    hide Meets, Join, Choice, M.TagsOnSale;
    var mask, present := s.board.mask, M.TagsOnSale(s.board.slots);
    ChoiceLawful(mask, present, roll);
    forall tag ensures Meets(tag, present) <==> OnSale(s.board, tag) {
      M.OnSaleMeets(s.board.slots, tag);
    }
    var tag := Choice(mask, present, roll);
    LeakUnfolds(s, t, roll);
    if tag == 0 {
      assert s.threads[t := Ready] == s.threads;
    } else {
      forall v ensures Meets(v, Join(mask, tag)) <==> Meets(v, mask) || Meets(v, tag) {
        MeetsJoin(v, mask, tag);
      }
    }
  }

  lemma LeakUnfolds(s: State, t: nat, roll: nat)
    requires t < |s.threads| && s.threads[t].Ready?
    ensures var tag := Choice(s.board.mask, M.TagsOnSale(s.board.slots), roll);
      Leaks(s, t, roll)
      == if tag == 0 then s.(threads := s.threads[t := Ready])
         else State(M.Freeze(s.board, tag), s.threads[t := Owing(tag)])
  {
    hide Meets, Join, Choice, M.TagsOnSale, M.Freeze;
    var frozen, present := s.board.mask, M.TagsOnSale(s.board.slots);
    var one := Step(s, ReadMask(t));
    assert one == s.(threads := s.threads[t := ReadFrozen(frozen)]);
    var two := Step(one, ReadTags(t));
    assert two.threads == s.threads[t := ReadFrozen(frozen)][t := ReadPresent(frozen, present)] == s.threads[t := ReadPresent(frozen, present)];
    var tag := Choice(frozen, present, roll);
    assert s.threads[t := ReadPresent(frozen, present)][t := Ready] == s.threads[t := Ready];
    assert s.threads[t := ReadPresent(frozen, present)][t := Owing(tag)] == s.threads[t := Owing(tag)];
  }

  /** Its timer thaws what it froze, and a timer that cannot be started leaves nothing frozen: both
      times the mask is as before, and the marks are true. */
  lemma LeakThaws(s: State, t: nat, roll: nat)
    requires t < |s.threads| && s.threads[t].Ready? && M.Consistent(s.board) && Leaks(s, t, roll).threads[t].Owing?
    ensures var leaked := Leaks(s, t, roll);
      var timed := Step(leaked, Launch(t, true));
      var thawed := Step(timed, Recover(|s.threads|));
      var failed := Step(leaked, Launch(t, false));
      && timed.board == leaked.board && timed.threads == s.threads[t := Ready] + [Recovering(leaked.threads[t].tag)]
      && thawed.threads == s.threads[t := Ready] + [Ready] && thawed.board.mask == s.board.mask && M.Consistent(thawed.board)
      && failed.threads == s.threads[t := Ready] && failed.board == thawed.board
  {
    hide Meets, Join, Drop, Choice, M.TagsOnSale, M.Consistent;
    LeakUnfolds(s, t, roll);
    var tag := Choice(s.board.mask, M.TagsOnSale(s.board.slots), roll);
    ChoiceLawful(s.board.mask, M.TagsOnSale(s.board.slots), roll);
    M.FreezeKeeps(s.board, tag);
    M.UnfreezeKeeps(M.Freeze(s.board, tag), tag);
    DropBack(s.board.mask, tag);
    assert s.threads[t := Owing(tag)][t := Ready] == s.threads[t := Ready];
  }
}
