// Accounts when handlers are not atomic: each reads a record in one section of the account
// file and writes it back in another, while burns, purges and resets come in between.
module AccountRaces {
  import opened Prelude
  import opened UserDb
  import opened RandomTags
  import opened Economy

  /** Where a thread stands between two sections. */
  datatype Thread =
    | Idle
    | Copied(key: Key, index: nat, money: int)                   // has read the record it is going to write
    | Charged(key: Key, index: nat, money: int, price: int)      // a purchase that has moved its file
    | Owed(key: Key, bounty: int)                                // a sale past its document checks
    | Paying(key: Key, index: nat, money: int, bounty: int)      // that has read the account, whatever it says

  /** The records, whose directory each document is in, and the threads. */
  datatype State = State(records: Records, docs: multiset<Key>, threads: seq<Thread>)

  datatype Action =
    | Fork
    | Append(key: Key)
    | Read(t: nat, key: Key)
    | GiveUp(t: nat)
    | Move(t: nat, price: int)
    | Charge(t: nat)
    | Rumor(t: nat)
    | Escape(t: nat, goal: int)
    | BurnAt(t: nat)
    | CheckSale(t: nat, key: Key, bounty: int)
    | ReadForSale(t: nat)
    | Pay(t: nat)
    | Unlink(key: Key)
    | Purge(key: Key)
    | Reset

  predicate HasCopy(thread: Thread) {
    thread.Copied? || thread.Charged? || thread.Paying?
  }

  /** The copy is of record i. */
  predicate Holds(thread: Thread, i: nat) {
    HasCopy(thread) && thread.index == i
  }

  function Goes(s: State, t: nat, thread: Thread): State
    requires t < |s.threads|
  {
    s.(threads := s.threads[t := thread])
  }

  /** A write at the offset that was read: the whole record, whatever it has become. */
  function Writes(s: State, t: nat, money: int): State
    requires t < |s.threads| && HasCopy(s.threads[t])
  {
    var i := s.threads[t].index;
    Goes(s, t, Idle).(records := if i < |s.records| then SetMoney(s.records, i, money) else s.records)
  }

  predicate Ready(s: State, t: nat) {
    t < |s.threads| && s.threads[t].Copied?
  }

  /** One section of one thread. A step that its thread is not ready for does nothing; a copy
      that does not suffice is refused; an unlink is a disposal or a document given in a sale.
      A login appends a record when its search found none, and another may have by then. */
  function Step(s: State, a: Action): State {
    match a
    case Fork => s.(threads := s.threads + [Idle])
    case Append(key) => s.(records := s.records + [UserRecord(key, INITIAL_MONEY)])
    case Read(t, key) =>
      if t < |s.threads| && s.threads[t].Idle? && Has(s.records, key) then
        Goes(s, t, Copied(key, IndexOf(s.records, key), Money(s.records, key)))
      else s
    case GiveUp(t) =>
      if t < |s.threads| && (s.threads[t].Copied? || s.threads[t].Owed?) then Goes(s, t, Idle) else s
    case Move(t, price) =>
      if Ready(s, t) then
        var thread := s.threads[t];
        if thread.money < price then Goes(s, t, Idle)
        else
          Goes(s, t, Charged(thread.key, thread.index, thread.money, price)).(docs := s.docs + multiset{thread.key})
      else s
    case Charge(t) =>
      if t < |s.threads| && s.threads[t].Charged? then Writes(s, t, s.threads[t].money - s.threads[t].price) else s
    case Rumor(t) =>
      if Ready(s, t) then
        if s.threads[t].money < RUMOR_FEE then Goes(s, t, Idle) else Writes(s, t, s.threads[t].money - RUMOR_FEE)
      else s
    case Escape(t, goal) =>
      if Ready(s, t) then
        if s.threads[t].money < goal then Goes(s, t, Idle) else Writes(s, t, INITIAL_MONEY)
      else s
    case BurnAt(t) => if Ready(s, t) then Writes(s, t, BURNED) else s
    case CheckSale(t, key, bounty) =>
      if t < |s.threads| && s.threads[t].Idle? && key in s.docs then Goes(s, t, Owed(key, bounty)) else s
    case ReadForSale(t) =>
      if t < |s.threads| && s.threads[t].Owed? && Has(s.records, s.threads[t].key) then
        var key := s.threads[t].key;
        Goes(s, t, Paying(key, IndexOf(s.records, key), Money(s.records, key), s.threads[t].bounty))
      else s
    case Pay(t) =>
      if t < |s.threads| && s.threads[t].Paying? then Writes(s, t, s.threads[t].money + s.threads[t].bounty) else s
    case Unlink(key) => s.(docs := s.docs - multiset{key})
    case Purge(key) => s.(docs := s.docs[key := 0])
    case Reset => s.(records := UserDb.Reset(s.records, INITIAL_MONEY))
  }

  /** Prices, goals and bounties as the server sets them. */
  predicate Lawful(a: Action) {
    match a
    case Move(_, price) => price >= MARKET_PRICE_PER_TAG
    case Escape(_, goal) => goal >= GOAL_MONEY
    case CheckSale(_, _, bounty) => bounty > 0
    case _ => true
  }

  predicate Sound(records: Records, thread: Thread) {
    && (HasCopy(thread) ==>
          && thread.index == IndexOf(records, thread.key) < |records|
          && thread.money >= BURNED)
    && (thread.Charged? ==> 0 < thread.price <= thread.money)
    && (thread.Owed? || thread.Paying? ==> thread.bounty > 0)
  }

  /** Every copy is of the account of its key, and no balance is below the burn mark. */
  ghost predicate Inv(s: State) {
    && (forall i :: 0 <= i < |s.records| ==> s.records[i].money >= BURNED)
    && (forall t :: 0 <= t < |s.threads| ==> Sound(s.records, s.threads[t]))
  }

  lemma RecordsKept(s: State, a: Action)
    requires Inv(s) && Lawful(a)
    ensures Extends(s.records, Step(s, a).records)
    ensures forall i :: 0 <= i < |Step(s, a).records| ==> Step(s, a).records[i].money >= BURNED
  {
    hide Has, IndexOf;
  }

  lemma StillSound(records: Records, later: Records, thread: Thread)
    requires Extends(records, later) && Sound(records, thread)
    ensures Sound(later, thread)
  {
    hide IndexOf;
    if HasCopy(thread) {
      FirstStays(records, later, thread.key);
    }
  }

  lemma NewThreadSound(s: State, a: Action, t: nat)
    requires Inv(s) && Lawful(a) && t < |Step(s, a).threads|
    requires t < |s.threads| ==> Step(s, a).threads[t] != s.threads[t]
    ensures Sound(Step(s, a).records, Step(s, a).threads[t])
  {
    hide IndexOf;
  }

  lemma StepKeeps(s: State, a: Action)
    requires Inv(s) && Lawful(a)
    ensures Inv(Step(s, a)) && Extends(s.records, Step(s, a).records)
  {
    hide Sound, Step;
    RecordsKept(s, a);
    var after := Step(s, a);
    forall t | 0 <= t < |after.threads| ensures Sound(after.records, after.threads[t]) {
      if t < |s.threads| && after.threads[t] == s.threads[t] {
        StillSound(s.records, after.records, s.threads[t]);
      } else {
        NewThreadSound(s, a, t);
      }
    }
  }

  // Runs.

  ghost predicate LawfulRun(actions: seq<Action>) {
    forall k :: 0 <= k < |actions| ==> Lawful(actions[k])
  }

  function After(s: State, actions: seq<Action>): State
    decreases |actions|
  {
    if actions == [] then s else After(Step(s, actions[0]), actions[1..])
  }

  lemma AfterOne(s: State, a: Action)
    ensures After(s, [a]) == Step(s, a)
  {
    hide Step;
    assert After(Step(s, a), []) == Step(s, a);
  }

  lemma AfterTwo(s: State, a: Action, b: Action)
    ensures After(s, [a, b]) == Step(Step(s, a), b)
  {
    hide Step;
    assert [a, b][1..] == [b];
    AfterOne(Step(s, a), b);
  }

  lemma AfterThree(s: State, a: Action, b: Action, c: Action)
    ensures After(s, [a, b, c]) == Step(Step(Step(s, a), b), c)
  {
    hide Step;
    assert [a, b, c][1..] == [b, c];
    AfterTwo(Step(s, a), b, c);
  }

  lemma {:induction false} AfterConcat(s: State, first: seq<Action>, rest: seq<Action>)
    ensures After(s, first + rest) == After(After(s, first), rest)
    decreases |first|
  {
    hide Step;
    if first == [] {
      assert first + rest == rest;
    } else {
      AfterConcat(Step(s, first[0]), first[1..], rest);
      assert (first + rest)[1..] == first[1..] + rest;
    }
  }

  // When a burn is undone.

  predicate BurnedAt(s: State, i: nat) {
    i < |s.records| && s.records[i].money == BURNED
  }

  /** The step writes a copy of record i that is worth something, or pays a bounty into it. */
  predicate Revives(s: State, a: Action, i: nat) {
    match a
    case Charge(t) => t < |s.threads| && s.threads[t].Charged? && s.threads[t].index == i
    case Rumor(t) => Ready(s, t) && s.threads[t].index == i && s.threads[t].money >= RUMOR_FEE
    case Escape(t, goal) => Ready(s, t) && s.threads[t].index == i && s.threads[t].money >= goal
    case Pay(t) => t < |s.threads| && s.threads[t].Paying? && s.threads[t].index == i
    case _ => false
  }

  lemma BurnStepIff(s: State, a: Action, i: nat)
    requires Inv(s) && Lawful(a) && BurnedAt(s, i)
    ensures BurnedAt(Step(s, a), i) <==> !Revives(s, a, i)
  {
    hide Has, IndexOf;
  }

  ghost predicate BurnedThroughout(s: State, actions: seq<Action>, i: nat)
    decreases |actions|
  {
    BurnedAt(s, i) && (actions != [] ==> BurnedThroughout(Step(s, actions[0]), actions[1..], i))
  }

  ghost predicate NeverRevived(s: State, actions: seq<Action>, i: nat)
    decreases |actions|
  {
    actions != [] ==> !Revives(s, actions[0], i) && NeverRevived(Step(s, actions[0]), actions[1..], i)
  }

  /** A burn lasts through a run exactly when no purchase, sabotage, escape or sale writes that
      record back in it. */
  lemma {:induction false} BurnLastsIff(s: State, actions: seq<Action>, i: nat)
    requires Inv(s) && LawfulRun(actions) && BurnedAt(s, i)
    ensures BurnedThroughout(s, actions, i) <==> NeverRevived(s, actions, i)
    decreases |actions|
  {
    hide Step, Inv, Revives, BurnedAt, Lawful;
    if actions != [] {
      StepKeeps(s, actions[0]);
      BurnStepIff(s, actions[0], i);
      if BurnedAt(Step(s, actions[0]), i) {
        BurnLastsIff(Step(s, actions[0]), actions[1..], i);
      } else {
        assert !BurnedThroughout(Step(s, actions[0]), actions[1..], i);
      }
    }
  }

  // When a burn is final.

  ghost predicate Burned(s: State, key: Key) {
    Has(s.records, key) && BurnedAt(s, IndexOf(s.records, key))
  }

  /** A thread that can undo the burn: it has an older copy that can pay for something or has
      already, or a sale of the account is under way. */
  predicate Threatens(thread: Thread, key: Key) {
    match thread
    case Idle => false
    case Copied(k, _, money) => k == key && money >= MARKET_PRICE_PER_TAG
    case Charged(k, _, _, _) => k == key
    case Owed(k, _) => k == key
    case Paying(k, _, _, _) => k == key
  }

  /** And a document not yet purged, with which a sale can still begin. */
  predicate Threat(s: State, key: Key) {
    key in s.docs || exists t :: 0 <= t < |s.threads| && Threatens(s.threads[t], key)
  }

  /** Only a threatening thread writes the account to life. */
  lemma RevivesThreatens(s: State, a: Action, key: Key)
    requires Inv(s) && Lawful(a) && Has(s.records, key) && Revives(s, a, IndexOf(s.records, key))
    ensures Threat(s, key)
  {
    hide IndexOf;
    var thread := s.threads[a.t];
    assert Sound(s.records, thread);
    assert s.records[IndexOf(s.records, key)].key == key;
    assert Threatens(thread, key);
  }

  /** A burned account that nothing threatens gets no new threat: what is read of it cannot
      pay, and without documents no sale begins. */
  lemma NoNewThreat(s: State, a: Action, key: Key)
    requires Lawful(a) && Burned(s, key) && !Threat(s, key)
    ensures !Threat(Step(s, a), key)
  {
    hide IndexOf;
    var after := Step(s, a);
    forall t | 0 <= t < |after.threads| ensures !Threatens(after.threads[t], key) {
      if t < |s.threads| {
        assert !Threatens(s.threads[t], key);
      }
    }
  }

  lemma NoThreatKept(s: State, a: Action, key: Key)
    requires Inv(s) && Lawful(a) && Burned(s, key) && !Threat(s, key)
    ensures Burned(Step(s, a), key) && !Threat(Step(s, a), key)
  {
    hide IndexOf, Step, Inv, Threat, Revives;
    StepKeeps(s, a);
    if Revives(s, a, IndexOf(s.records, key)) {
      RevivesThreatens(s, a, key);
    }
    BurnStepIff(s, a, IndexOf(s.records, key));
    FirstStays(s.records, Step(s, a).records, key);
    NoNewThreat(s, a, key);
  }

  lemma {:induction false} NoThreatLasts(s: State, actions: seq<Action>, key: Key)
    requires Inv(s) && Burned(s, key) && !Threat(s, key) && LawfulRun(actions)
    ensures Burned(After(s, actions), key)
    decreases |actions|
  {
    hide Step, Inv, Burned, Threat, Lawful;
    if actions != [] {
      NoThreatKept(s, actions[0], key);
      StepKeeps(s, actions[0]);
      NoThreatLasts(Step(s, actions[0]), actions[1..], key);
    }
  }

  /** Any one threatening thread is enough to bring the account back. */
  lemma ThreadRevives(s: State, t: nat, key: Key) returns (actions: seq<Action>)
    requires Inv(s) && Burned(s, key) && t < |s.threads| && Threatens(s.threads[t], key)
    ensures LawfulRun(actions) && !Burned(After(s, actions), key)
  {
    hide IndexOf, After;
    assert Sound(s.records, s.threads[t]);
    match s.threads[t]
    case Copied(_, _, _) =>
      actions := [Move(t, MARKET_PRICE_PER_TAG), Charge(t)];
      AfterTwo(s, actions[0], actions[1]);
      BalanceSet(s, After(s, actions), key);
    case Charged(_, _, _, _) =>
      actions := [Charge(t)];
      AfterOne(s, actions[0]);
      BalanceSet(s, After(s, actions), key);
    case Owed(_, _) =>
      actions := [ReadForSale(t), Pay(t)];
      AfterTwo(s, actions[0], actions[1]);
      BalanceSet(s, After(s, actions), key);
    case Paying(_, _, _, _) =>
      actions := [Pay(t)];
      AfterOne(s, actions[0]);
      BalanceSet(s, After(s, actions), key);
  }

  lemma BalanceSet(s: State, after: State, key: Key)
    requires Has(s.records, key) && Extends(s.records, after.records)
    requires after.records[IndexOf(s.records, key)].money != BURNED
    ensures !Burned(after, key)
  {
    hide IndexOf;
    FirstStays(s.records, after.records, key);
  }

  /** So is a document: a new thread sells it before the purge. */
  lemma DocumentRevives(s: State, key: Key) returns (actions: seq<Action>)
    requires Inv(s) && Burned(s, key) && key in s.docs
    ensures LawfulRun(actions) && !Burned(After(s, actions), key)
  {
    hide IndexOf, After, Inv;
    var t := |s.threads|;
    var begin := [Fork, CheckSale(t, key, 500)];
    AfterTwo(s, begin[0], begin[1]);
    var sold := After(s, begin);
    assert sold.threads[t] == Owed(key, 500) && sold.records == s.records;
    StepKeeps(s, begin[0]);
    StepKeeps(Step(s, begin[0]), begin[1]);
    var rest := ThreadRevives(sold, t, key);
    AfterConcat(s, begin, rest);
    actions := begin + rest;
  }

  /** A burn is final, whatever runs follow, exactly when the account has no document left, no
      thread has an older copy of it that can pay, and no purchase or sale of it is under way. */
  lemma BurnFinalIff(s: State, key: Key)
    requires Inv(s) && Burned(s, key)
    ensures (forall actions :: LawfulRun(actions) ==> Burned(After(s, actions), key)) <==> !Threat(s, key)
  {
    hide After, Inv, Burned, LawfulRun, Threatens, IndexOf;
    if key in s.docs {
      var actions := DocumentRevives(s, key);
    } else if Threat(s, key) {
      var t :| 0 <= t < |s.threads| && Threatens(s.threads[t], key);
      var actions := ThreadRevives(s, t, key);
    } else {
      forall actions | LawfulRun(actions) ensures Burned(After(s, actions), key) {
        NoThreatLasts(s, actions, key);
      }
    }
  }

  // Lost burns from the start of the server.

  const START := State([], multiset{}, [])

  lemma StartHolds()
    ensures Inv(START)
  {
  }

  lemma OneAccount(records: Records, key: Key)
    requires |records| == 1 && records[0].key == key
    ensures Has(records, key) && IndexOf(records, key) == 0
  {
  }

  /** The account of the key and two threads. */
  lemma TwoThreads(key: Key) returns (actions: seq<Action>)
    ensures LawfulRun(actions)
    ensures After(START, actions) == State([UserRecord(key, INITIAL_MONEY)], multiset{}, [Idle, Idle])
  {
    hide After;
    actions := [Append(key), Fork, Fork];
    AfterThree(START, actions[0], actions[1], actions[2]);
  }

  /** A purchase has read the account, the raid burns it, and the purchase writes its copy
      back: the account lives again. */
  lemma BurnIsLost(key: Key) returns (before: seq<Action>, rest: seq<Action>)
    ensures LawfulRun(before + rest)
    ensures Burned(After(START, before), key)
    ensures After(START, before + rest).records == [UserRecord(key, 600)]
  {
    hide After;
    var setup := TwoThreads(key);
    var copy := Copied(key, 0, INITIAL_MONEY);
    var s0 := State([UserRecord(key, INITIAL_MONEY)], multiset{}, [Idle, Idle]);
    var s1 := State(s0.records, multiset{}, [copy, Idle]);
    var s2 := State(s0.records, multiset{}, [copy, copy]);
    var s3 := State([UserRecord(key, BURNED)], multiset{}, [copy, Idle]);
    OneAccount(s0.records, key);
    OneAccount(s3.records, key);
    assert Step(s0, Read(0, key)) == s1 && Step(s1, Read(1, key)) == s2 && Step(s2, BurnAt(1)) == s3;
    AfterThree(s0, Read(0, key), Read(1, key), BurnAt(1));
    before := setup + [Read(0, key), Read(1, key), BurnAt(1)];
    AfterConcat(START, setup, [Read(0, key), Read(1, key), BurnAt(1)]);
    rest := [Move(0, 400), Charge(0)];
    AfterTwo(s3, rest[0], rest[1]);
    AfterConcat(START, before, rest);
  }

  /** One purchase at the lowest price. */
  lemma OneBought(key: Key) returns (actions: seq<Action>)
    ensures LawfulRun(actions)
    ensures After(START, actions) == State([UserRecord(key, 600)], multiset{key}, [Idle, Idle])
  {
    hide After;
    var setup := TwoThreads(key);
    var s0 := State([UserRecord(key, INITIAL_MONEY)], multiset{}, [Idle, Idle]);
    var s1 := s0.(threads := [Copied(key, 0, INITIAL_MONEY), Idle]);
    var s2 := s0.(docs := multiset{key}, threads := [Charged(key, 0, INITIAL_MONEY, 400), Idle]);
    var buy := [Read(0, key), Move(0, 400), Charge(0)];
    OneAccount(s0.records, key);
    assert Step(s0, buy[0]) == s1 && Step(s1, buy[1]) == s2;
    AfterThree(s0, buy[0], buy[1], buy[2]);
    AfterConcat(START, setup, buy);
    actions := setup + buy;
  }

  lemma BurnsOwner(key: Key) returns (actions: seq<Action>)
    ensures LawfulRun(actions)
    ensures After(State([UserRecord(key, 600)], multiset{key}, [Idle, Idle]), actions)
      == State([UserRecord(key, BURNED)], multiset{key}, [Idle, Idle])
  {
    hide After;
    var s := State([UserRecord(key, 600)], multiset{key}, [Idle, Idle]);
    actions := [Read(1, key), BurnAt(1)];
    OneAccount(s.records, key);
    assert Step(s, actions[0]) == s.(threads := [Idle, Copied(key, 0, 600)]);
    AfterTwo(s, actions[0], actions[1]);
  }

  lemma ShredsOne(key: Key, bounty: nat) returns (actions: seq<Action>)
    requires bounty > 0
    ensures LawfulRun(actions)
    ensures After(State([UserRecord(key, BURNED)], multiset{key}, [Idle, Idle]), actions)
      == State([UserRecord(key, BURNED)], multiset{}, [Owed(key, bounty), Idle])
  {
    hide After;
    var s := State([UserRecord(key, BURNED)], multiset{key}, [Idle, Idle]);
    var owed := s.(threads := [Owed(key, bounty), Idle]);
    actions := [CheckSale(0, key, bounty), Unlink(key), Purge(key)];
    assert Step(s, actions[0]) == owed;
    assert Step(owed, actions[1]) == owed.(docs := multiset{});
    AfterThree(s, actions[0], actions[1], actions[2]);
  }

  lemma PaysBurned(key: Key, bounty: nat) returns (actions: seq<Action>)
    requires bounty > 0
    ensures LawfulRun(actions)
    ensures After(State([UserRecord(key, BURNED)], multiset{}, [Owed(key, bounty), Idle]), actions)
      == State([UserRecord(key, bounty - 1)], multiset{}, [Idle, Idle])
  {
    hide After;
    var s := State([UserRecord(key, BURNED)], multiset{}, [Owed(key, bounty), Idle]);
    actions := [ReadForSale(0), Pay(0)];
    OneAccount(s.records, key);
    assert Step(s, actions[0]) == s.(threads := [Paying(key, 0, BURNED, bounty), Idle]);
    AfterTwo(s, actions[0], actions[1]);
  }

  /** No thread has a copy at the burn, but a sale begins before the purge: it reads the burn
      mark as a balance and pays onto it, and the account lives with one less than the bounty. */
  lemma BurnIsSoldAway(key: Key, bounty: nat) returns (before: seq<Action>, rest: seq<Action>)
    requires bounty > 0
    ensures LawfulRun(before + rest)
    ensures After(START, before) == State([UserRecord(key, BURNED)], multiset{key}, [Idle, Idle])
    ensures After(START, before + rest) == State([UserRecord(key, bounty - 1)], multiset{}, [Idle, Idle])
  {
    hide After, Lawful;
    var buy := OneBought(key);
    var burn := BurnsOwner(key);
    AfterConcat(START, buy, burn);
    before := buy + burn;
    var shred := ShredsOne(key, bounty);
    var pay := PaysBurned(key, bounty);
    rest := shred + pay;
    AfterConcat(After(START, before), shred, pay);
    AfterConcat(START, before, rest);
  }
}
