// When handlers with separate sections are as good as atomic: exact conditions for current
// copies and for balances that are what their receipts add up to.
module AccountLedger {
  import opened Prelude
  import U = UserDb
  import E = Economy
  import opened AccountRaces

  // Copies that stay current.

  ghost predicate CopyCurrent(s: State, thread: Thread) {
    HasCopy(thread) ==> thread.index < |s.records| && s.records[thread.index].money == thread.money
  }

  /** Every copy still says what its record says. */
  ghost predicate Current(s: State) {
    forall t :: 0 <= t < |s.threads| ==> CopyCurrent(s, s.threads[t])
  }

  /** What the action would write at the offset its thread read. */
  function Written(s: State, a: Action): Option<int> {
    match a
    case Charge(t) => if t < |s.threads| && s.threads[t].Charged? then Some(s.threads[t].money - s.threads[t].price) else None
    case Rumor(t) => if Ready(s, t) && s.threads[t].money >= E.RUMOR_FEE then Some(s.threads[t].money - E.RUMOR_FEE) else None
    case Escape(t, goal) => if Ready(s, t) && s.threads[t].money >= goal then Some(INITIAL_MONEY) else None
    case BurnAt(t) => if Ready(s, t) then Some(U.BURNED) else None
    case Pay(t) => if t < |s.threads| && s.threads[t].Paying? then Some(s.threads[t].money + s.threads[t].bounty) else None
    case _ => None
  }

  /** The write changes no record that another thread has copied, and a round reset finds every
      copied record burned or as it will leave it. */
  ghost predicate Undisturbed(s: State, a: Action) {
    && (Written(s, a).Some? ==>
          forall u :: 0 <= u < |s.threads| && u != a.t && HasCopy(s.threads[u]) ==>
            s.threads[u].index == s.threads[a.t].index ==> s.threads[u].money == Written(s, a).value)
    && (a.Reset? ==>
          forall u :: 0 <= u < |s.threads| && HasCopy(s.threads[u]) ==>
            s.threads[u].money == U.BURNED || s.threads[u].money == INITIAL_MONEY)
  }

  lemma OldCopyCurrent(s: State, a: Action, u: nat)
    requires Inv(s) && Current(s) && Undisturbed(s, a)
    requires u < |s.threads| <= |Step(s, a).threads| && Step(s, a).threads[u] == s.threads[u]
    ensures CopyCurrent(Step(s, a), s.threads[u])
  {
    hide U.IndexOf;
    assert CopyCurrent(s, s.threads[u]);
  }

  lemma NewCopyCurrent(s: State, a: Action, u: nat)
    requires Current(s) && u < |Step(s, a).threads| && |s.threads| <= |Step(s, a).threads|
    requires u < |s.threads| ==> Step(s, a).threads[u] != s.threads[u]
    ensures CopyCurrent(Step(s, a), Step(s, a).threads[u])
  {
    hide U.IndexOf;
    if u < |s.threads| {
      assert CopyCurrent(s, s.threads[u]);
    }
  }

  lemma UndisturbedKeeps(s: State, a: Action)
    requires Inv(s) && Current(s) && Undisturbed(s, a)
    ensures Current(Step(s, a))
  {
    hide Step, Undisturbed, Inv;
    var after := Step(s, a);
    StepThreads(s, a);
    forall u | 0 <= u < |after.threads| ensures CopyCurrent(after, after.threads[u]) {
      if u < |s.threads| && after.threads[u] == s.threads[u] {
        OldCopyCurrent(s, a, u);
      } else {
        NewCopyCurrent(s, a, u);
      }
    }
  }

  lemma StepThreads(s: State, a: Action)
    ensures |Step(s, a).threads| >= |s.threads|
  {
    hide U.IndexOf;
  }

  lemma DisturbedBreaks(s: State, a: Action)
    requires Inv(s) && Current(s) && !Undisturbed(s, a)
    ensures !Current(Step(s, a))
  {
    hide U.IndexOf, U.IndexFrom;
    var after := Step(s, a);
    if a.Reset? {
      var u :| 0 <= u < |s.threads| && HasCopy(s.threads[u])
               && s.threads[u].money != U.BURNED && s.threads[u].money != INITIAL_MONEY;
      assert after.threads[u] == s.threads[u];
      assert CopyCurrent(s, s.threads[u]);
    } else {
      var u :| 0 <= u < |s.threads| && u != a.t && HasCopy(s.threads[u])
               && s.threads[u].index == s.threads[a.t].index && s.threads[u].money != Written(s, a).value;
      assert CopyCurrent(s, s.threads[u]);
      assert after.threads[u] == s.threads[u];
      assert after.records[s.threads[u].index].money == Written(s, a).value;
    }
  }

  lemma CurrentStepIff(s: State, a: Action)
    requires Inv(s) && Current(s)
    ensures Current(Step(s, a)) <==> Undisturbed(s, a)
  {
    hide Step, Current, Undisturbed;
    if Undisturbed(s, a) {
      UndisturbedKeeps(s, a);
    } else {
      DisturbedBreaks(s, a);
    }
  }

  ghost predicate CurrentThroughout(s: State, actions: seq<Action>)
    decreases |actions|
  {
    Current(s) && (actions != [] ==> CurrentThroughout(Step(s, actions[0]), actions[1..]))
  }

  ghost predicate UndisturbedRun(s: State, actions: seq<Action>)
    decreases |actions|
  {
    actions != [] ==> Undisturbed(s, actions[0]) && UndisturbedRun(Step(s, actions[0]), actions[1..])
  }

  lemma {:induction false} CurrentRunIff(s: State, actions: seq<Action>)
    requires Inv(s) && Current(s) && LawfulRun(actions)
    ensures CurrentThroughout(s, actions) <==> UndisturbedRun(s, actions)
    decreases |actions|
  {
    hide Step, Inv, Current, Undisturbed, Lawful;
    if actions != [] {
      StepKeeps(s, actions[0]);
      CurrentStepIff(s, actions[0]);
      if Current(Step(s, actions[0])) {
        CurrentRunIff(Step(s, actions[0]), actions[1..]);
      } else {
        assert !CurrentThroughout(Step(s, actions[0]), actions[1..]);
      }
    }
  }

  /** From the start of the server, every copy is current at every moment exactly when no write
      and no reset changes a record that another thread has copied. */
  lemma EveryCopyCurrentIff(actions: seq<Action>)
    requires LawfulRun(actions)
    ensures CurrentThroughout(START, actions) <==> UndisturbedRun(START, actions)
  {
    CurrentRunIff(START, actions);
  }

  // The ledger.

  /** What a step and its answer mean for one account: an amount taken or given, or a new balance. */
  datatype Receipt = Nothing | Taken(amount: int) | Given(amount: int) | Became(balance: int)

  function ReceiptOf(s: State, a: Action, i: nat): Receipt
    requires i < |s.records|
  {
    if a.Reset? then if s.records[i].money == U.BURNED then Nothing else Became(INITIAL_MONEY)
    else if Written(s, a).None? || s.threads[a.t].index != i then Nothing
    else
      match a
      case Charge(t) => Taken(s.threads[t].price)
      case Rumor(_) => Taken(E.RUMOR_FEE)
      case Pay(t) => Given(s.threads[t].bounty)
      case Escape(_, _) => Became(INITIAL_MONEY)
      case BurnAt(_) => Became(U.BURNED)
      case _ => Nothing
  }

  function Posted(balance: int, receipt: Receipt): int {
    match receipt
    case Nothing => balance
    case Taken(amount) => balance - amount
    case Given(amount) => balance + amount
    case Became(money) => money
  }

  function Balances(s: State): (r: seq<int>)
    ensures |r| == |s.records|
  {
    seq(|s.records|, i requires 0 <= i < |s.records| => s.records[i].money)
  }

  /** The books after a step: each line with its receipt, and a new line for a new record. */
  function Booked(s: State, a: Action, books: seq<int>): seq<int>
    requires |books| == |s.records|
  {
    seq(|books|, i requires 0 <= i < |books| => Posted(books[i], ReceiptOf(s, a, i)))
    + if a.Append? then [INITIAL_MONEY] else []
  }

  /** A price, fee or bounty is written from a copy that is current. Escapes and burns write
      what they write, whatever their copy. */
  ghost predicate Fresh(s: State, a: Action) {
    Written(s, a).Some? && !a.Escape? && !a.BurnAt? ==>
      var i := s.threads[a.t].index;
      i < |s.records| ==> s.records[i].money == s.threads[a.t].money
  }

  lemma FreshBooks(s: State, a: Action)
    requires Inv(s) && Fresh(s, a)
    ensures Balances(Step(s, a)) == Booked(s, a, Balances(s))
  {
    hide U.IndexOf;
    var after, books := Balances(Step(s, a)), Booked(s, a, Balances(s));
    assert |after| == |books|;
    assert forall i :: 0 <= i < |after| ==> after[i] == books[i];
  }

  lemma StaleParts(s: State, a: Action)
    requires Inv(s) && !Fresh(s, a)
    ensures Balances(Step(s, a)) != Booked(s, a, Balances(s))
  {
    hide U.IndexOf;
    var i := s.threads[a.t].index;
    assert Sound(s.records, s.threads[a.t]);
    assert Balances(Step(s, a))[i] != Booked(s, a, Balances(s))[i];
  }

  lemma BooksStepIff(s: State, a: Action)
    requires Inv(s)
    ensures Balances(Step(s, a)) == Booked(s, a, Balances(s)) <==> Fresh(s, a)
  {
    hide Step, Balances, Booked, Fresh, Inv;
    if Fresh(s, a) {
      FreshBooks(s, a);
    } else {
      StaleParts(s, a);
    }
  }

  ghost predicate BalancedThroughout(s: State, actions: seq<Action>, books: seq<int>)
    decreases |actions|
  {
    && Balances(s) == books
    && (actions != [] ==> BalancedThroughout(Step(s, actions[0]), actions[1..], Booked(s, actions[0], books)))
  }

  ghost predicate FreshRun(s: State, actions: seq<Action>)
    decreases |actions|
  {
    actions != [] ==> Fresh(s, actions[0]) && FreshRun(Step(s, actions[0]), actions[1..])
  }

  lemma {:induction false} BooksRunIff(s: State, actions: seq<Action>)
    requires Inv(s) && LawfulRun(actions)
    ensures BalancedThroughout(s, actions, Balances(s)) <==> FreshRun(s, actions)
    decreases |actions|
  {
    hide Step, Inv, Fresh, Lawful, Balances, Booked;
    if actions != [] {
      var next := Step(s, actions[0]);
      StepKeeps(s, actions[0]);
      BooksStepIff(s, actions[0]);
      if Fresh(s, actions[0]) {
        BooksRunIff(next, actions[1..]);
      } else {
        assert !BalancedThroughout(next, actions[1..], Booked(s, actions[0], Balances(s)));
      }
    }
  }

  /** From the start of the server, every balance is at every moment what its receipts add up
      to, exactly when each price, fee and bounty is written from a current copy. */
  lemma LedgerIff(actions: seq<Action>)
    requires LawfulRun(actions)
    ensures BalancedThroughout(START, actions, []) <==> FreshRun(START, actions)
  {
    assert Balances(START) == [];
    BooksRunIff(START, actions);
  }

  lemma CurrentIsFresh(s: State, a: Action)
    requires Current(s)
    ensures Fresh(s, a)
  {
  }

  lemma {:induction false} UndisturbedIsFresh(s: State, actions: seq<Action>)
    requires Inv(s) && Current(s) && LawfulRun(actions) && UndisturbedRun(s, actions)
    ensures FreshRun(s, actions)
    decreases |actions|
  {
    hide Step, Inv, Current, Undisturbed, Fresh, Lawful;
    if actions != [] {
      StepKeeps(s, actions[0]);
      CurrentStepIff(s, actions[0]);
      CurrentIsFresh(s, actions[0]);
      UndisturbedIsFresh(Step(s, actions[0]), actions[1..]);
    }
  }

  /** So the ledger holds in every run in which no copied record is changed by another thread. */
  lemma UndisturbedLedger(actions: seq<Action>)
    requires LawfulRun(actions) && UndisturbedRun(START, actions)
    ensures BalancedThroughout(START, actions, [])
  {
    UndisturbedIsFresh(START, actions);
    LedgerIff(actions);
  }

  lemma {:induction false} CurrentRun(s: State, actions: seq<Action>)
    requires Inv(s) && Current(s) && LawfulRun(actions) && UndisturbedRun(s, actions)
    ensures Current(After(s, actions))
    decreases |actions|
  {
    hide Step, Inv, Current, Undisturbed, Lawful;
    if actions != [] {
      StepKeeps(s, actions[0]);
      CurrentStepIff(s, actions[0]);
      CurrentRun(Step(s, actions[0]), actions[1..]);
    }
  }

  /** Through every such run each handler also decides as one atomic step on the current
      balance would, and writes what that step would write. */
  lemma AtomicWhenUndisturbed(actions: seq<Action>, t: nat, price: int, goal: int)
    requires LawfulRun(actions) && UndisturbedRun(START, actions)
    ensures var s := After(START, actions);
      t < |s.threads| && HasCopy(s.threads[t]) ==>
        var i := s.threads[t].index;
        i < |s.records|
        && (s.threads[t].Copied? ==>
              && (Step(s, Move(t, price)).threads[t].Charged? <==> s.records[i].money >= price)
              && Step(s, Rumor(t)).records
                 == (if s.records[i].money >= E.RUMOR_FEE then U.SetMoney(s.records, i, s.records[i].money - E.RUMOR_FEE) else s.records)
              && Step(s, Escape(t, goal)).records
                 == (if s.records[i].money >= goal then U.SetMoney(s.records, i, INITIAL_MONEY) else s.records))
        && (s.threads[t].Charged? ==>
              Step(s, Charge(t)).records == U.SetMoney(s.records, i, s.records[i].money - s.threads[t].price))
        && (s.threads[t].Paying? ==>
              Step(s, Pay(t)).records == U.SetMoney(s.records, i, s.records[i].money + s.threads[t].bounty))
  {
    hide After, U.IndexOf;
    CurrentRun(START, actions);
    var s := After(START, actions);
    if t < |s.threads| {
      assert CopyCurrent(s, s.threads[t]);
    }
  }
}
