// Board and packets apart: the board changes in one section of the market, and the packet that
// says so is broadcast later, so packets of different threads overtake each other. One client's
// copy against the board, by the ids that they list.
module SyncRaces {
  import opened Prelude
  import opened Client

  /** What a thread has still to send. */
  datatype Thread =
    | Idle
    | Listed(id: int)              // an offer is on the board and not yet announced
    | Removed(ids: seq<int>)       // offers are off the board and not yet retracted
    | Greeting                     // the client has its LOGIN_OK and the board is not yet read
    | Welcoming(ids: seq<int>)     // the snapshot, to be sent entry by entry

  datatype State = State(board: multiset<int>, copy: multiset<int>, threads: seq<Thread>)

  datatype Action =
    | Fork
    | List(t: nat, id: int)
    | Remove(t: nat, ids: seq<int>)
    | Announce(t: nat)
    | Retract(t: nat)
    | Greet(t: nat)
    | Snapshot(t: nat, ids: seq<int>)
    | Welcome(t: nat)

  function Goes(s: State, t: nat, thread: Thread): State
    requires t < |s.threads|
  {
    s.(threads := s.threads[t := thread])
  }

  /** The copy has as many places as the board. */
  function Shows(copy: multiset<int>, id: int): multiset<int> {
    if |copy| < UI_MAX_MARKET then copy + multiset{id} else copy
  }

  /** A step that its thread is not ready for does nothing. Purchases remove one offer, ageing
      passes several; a snapshot lists the board in some order. */
  function Step(s: State, a: Action): State {
    match a
    case Fork => s.(threads := s.threads + [Idle])
    case List(t, id) =>
      if t < |s.threads| && s.threads[t].Idle? && |s.board| < MAX_MARKET_SLOTS then
        Goes(s, t, Listed(id)).(board := s.board + multiset{id})
      else s
    case Remove(t, ids) =>
      if t < |s.threads| && s.threads[t].Idle? && multiset(ids) <= s.board then
        Goes(s, t, Removed(ids)).(board := s.board - multiset(ids))
      else s
    case Announce(t) =>
      if t < |s.threads| && s.threads[t].Listed? then Goes(s, t, Idle).(copy := Shows(s.copy, s.threads[t].id)) else s
    case Retract(t) =>
      if t < |s.threads| && s.threads[t].Removed? then
        var ids := s.threads[t].ids;
        if ids == [] then Goes(s, t, Idle)
        else Goes(s, t, Removed(ids[1..])).(copy := s.copy - multiset{ids[0]})
      else s
    case Greet(t) =>
      if t < |s.threads| && s.threads[t].Idle? then Goes(s, t, Greeting).(copy := multiset{}) else s
    case Snapshot(t, ids) =>
      if t < |s.threads| && s.threads[t].Greeting? && multiset(ids) == s.board then Goes(s, t, Welcoming(ids)) else s
    case Welcome(t) =>
      if t < |s.threads| && s.threads[t].Welcoming? then
        var ids := s.threads[t].ids;
        if ids == [] then Goes(s, t, Idle)
        else Goes(s, t, Welcoming(ids[1..])).(copy := Shows(s.copy, ids[0]))
      else s
  }

  // What the copy will hold too many or too few of.

  /** The ids a thread has still to add to the copy, and to take from it. */
  function Coming(thread: Thread): multiset<int> {
    match thread
    case Listed(id) => multiset{id}
    case Welcoming(ids) => multiset(ids)
    case _ => multiset{}
  }

  function Going(thread: Thread): multiset<int> {
    if thread.Removed? then multiset(thread.ids) else multiset{}
  }

  function Comings(threads: seq<Thread>): seq<multiset<int>> {
    seq(|threads|, i requires 0 <= i < |threads| => Coming(threads[i]))
  }

  function Goings(threads: seq<Thread>): seq<multiset<int>> {
    seq(|threads|, i requires 0 <= i < |threads| => Going(threads[i]))
  }

  function Surplus(s: State, id: int): int {
    Excess(s.copy[id], Total(Comings(s.threads))[id], s.board[id], Total(Goings(s.threads))[id])
  }

  function Excess(shown: int, coming: int, listed: int, going: int): int {
    shown + coming - listed - going
  }

  /** A packet is lost: an entry that finds the copy full, or a removal that overtook its entry. */
  predicate LosesEntry(s: State, a: Action, id: int) {
    && |s.copy| >= UI_MAX_MARKET
    && ((a.Announce? && a.t < |s.threads| && s.threads[a.t] == Listed(id))
        || (a.Welcome? && a.t < |s.threads| && s.threads[a.t].Welcoming? && s.threads[a.t].ids != []
            && s.threads[a.t].ids[0] == id))
  }

  predicate LosesRemoval(s: State, a: Action, id: int) {
    a.Retract? && a.t < |s.threads| && s.threads[a.t].Removed? && s.threads[a.t].ids != []
    && s.threads[a.t].ids[0] == id && id !in s.copy
  }

  /** What one step changes of the surplus: packets lost, and a client that joins. */
  function Gain(s: State, a: Action, id: int): int {
    if LosesEntry(s, a, id) then -1
    else if LosesRemoval(s, a, id) then 1
    else if a.Greet? && a.t < |s.threads| && s.threads[a.t].Idle? then 0 - (s.copy[id] as int)
    else if a.Snapshot? && a.t < |s.threads| && s.threads[a.t].Greeting? && multiset(a.ids) == s.board then s.board[id]
    else 0
  }

  lemma FlowsUpdate(threads: seq<Thread>, t: nat, thread: Thread, id: int)
    requires t < |threads|
    ensures Total(Comings(threads[t := thread]))[id] + Coming(threads[t])[id] == Total(Comings(threads))[id] + Coming(thread)[id]
    ensures Total(Goings(threads[t := thread]))[id] + Going(threads[t])[id] == Total(Goings(threads))[id] + Going(thread)[id]
  {
    hide Coming, Going;
    TotalUpdate(Comings(threads), t, Coming(thread));
    assert Comings(threads[t := thread]) == Comings(threads)[t := Coming(thread)];
    TotalUpdate(Goings(threads), t, Going(thread));
    assert Goings(threads[t := thread]) == Goings(threads)[t := Going(thread)];
    Pointwise(Total(Comings(threads[t := thread])), Coming(threads[t]), Total(Comings(threads)), Coming(thread), id);
    Pointwise(Total(Goings(threads[t := thread])), Going(threads[t]), Total(Goings(threads)), Going(thread), id);
  }

  lemma Pointwise<T>(a: multiset<T>, b: multiset<T>, c: multiset<T>, d: multiset<T>, x: T)
    requires a + b == c + d
    ensures a[x] + b[x] == c[x] + d[x]
  {
    assert (a + b)[x] == (c + d)[x];
  }

  lemma ComingsFork(threads: seq<Thread>)
    ensures Total(Comings(threads + [Idle])) == Total(Comings(threads))
  {
    hide Total;
    TotalAppend(Comings(threads), multiset{});
    assert Comings(threads + [Idle]) == Comings(threads) + [multiset{}];
  }

  lemma GoingsFork(threads: seq<Thread>)
    ensures Total(Goings(threads + [Idle])) == Total(Goings(threads))
  {
    hide Total;
    TotalAppend(Goings(threads), multiset{});
    assert Goings(threads + [Idle]) == Goings(threads) + [multiset{}];
  }

  lemma FirstOf(ids: seq<int>, id: int)
    requires ids != []
    ensures multiset(ids)[id] == multiset(ids[1..])[id] + (if ids[0] == id then 1 else 0)
  {
    assert ids == [ids[0]] + ids[1..];
  }

  /** One thread moves on, and the excess changes by the gain of its step. */
  ghost predicate Shifts(s: State, a: Action, id: int)
    requires !a.Fork? && a.t < |s.threads|
  {
    var after := Step(s, a);
    && a.t < |after.threads| && after.threads == s.threads[a.t := after.threads[a.t]]
    && Excess(after.copy[id], Coming(after.threads[a.t])[id], after.board[id], Going(after.threads[a.t])[id])
       == Excess(s.copy[id], Coming(s.threads[a.t])[id], s.board[id], Going(s.threads[a.t])[id]) + Gain(s, a, id)
  }

  lemma ListShifts(s: State, t: nat, x: int, id: int)
    requires t < |s.threads|
    ensures Shifts(s, List(t, x), id)
  {
  }

  lemma MinusAt<T>(whole: multiset<T>, part: multiset<T>, x: T)
    requires part <= whole
    ensures whole[x] == (whole - part)[x] + part[x]
  {
  }

  lemma RemoveShifts(s: State, t: nat, ids: seq<int>, id: int)
    requires t < |s.threads|
    ensures Shifts(s, Remove(t, ids), id)
  {
    if s.threads[t].Idle? && multiset(ids) <= s.board {
      MinusAt(s.board, multiset(ids), id);
    }
  }

  lemma AnnounceShifts(s: State, t: nat, id: int)
    requires t < |s.threads|
    ensures Shifts(s, Announce(t), id)
  {
    if s.threads[t].Listed? {
      AnnounceStep(s, t);
      ShowsOne(s.copy, s.threads[t].id, id);
      assert Gain(s, Announce(t), id) == if s.threads[t].id == id && |s.copy| >= UI_MAX_MARKET then -1 else 0;
      hide Step, Gain, Shows;
    }
  }

  lemma AnnounceStep(s: State, t: nat)
    requires t < |s.threads| && s.threads[t].Listed?
    ensures Step(s, Announce(t)) == s.(threads := s.threads[t := Idle], copy := Shows(s.copy, s.threads[t].id))
  {
  }

  lemma ShowsOne(copy: multiset<int>, y: int, id: int)
    ensures Shows(copy, y)[id] == copy[id] + (if |copy| < UI_MAX_MARKET && y == id then 1 else 0)
  {
  }

  lemma MinusOne<T>(copy: multiset<T>, y: T, x: T)
    ensures (copy - multiset{y})[x] == if x == y && copy[x] > 0 then copy[x] - 1 else copy[x]
  {
  }

  lemma RetractShifts(s: State, t: nat, id: int)
    requires t < |s.threads|
    ensures Shifts(s, Retract(t), id)
  {
    if s.threads[t].Removed? && s.threads[t].ids != [] {
      RetractOneShifts(s, t, id);
    }
  }

  lemma RetractOneShifts(s: State, t: nat, id: int)
    requires t < |s.threads| && s.threads[t].Removed? && s.threads[t].ids != []
    ensures Shifts(s, Retract(t), id)
  {
    var ids := s.threads[t].ids;
    FirstOf(ids, id);
    MinusOne(s.copy, ids[0], id);
    RetractStep(s, t);
    assert Gain(s, Retract(t), id) == if ids[0] == id && id !in s.copy then 1 else 0;
    hide Gain, Step;
  }

  lemma RetractStep(s: State, t: nat)
    requires t < |s.threads| && s.threads[t].Removed? && s.threads[t].ids != []
    ensures var ids := s.threads[t].ids;
      Step(s, Retract(t)) == s.(threads := s.threads[t := Removed(ids[1..])], copy := s.copy - multiset{ids[0]})
  {
  }

  lemma JoinShifts(s: State, t: nat, ids: seq<int>, id: int)
    requires t < |s.threads|
    ensures Shifts(s, Greet(t), id)
    ensures Shifts(s, Snapshot(t, ids), id)
  {
  }

  lemma WelcomeShifts(s: State, t: nat, id: int)
    requires t < |s.threads|
    ensures Shifts(s, Welcome(t), id)
  {
    if s.threads[t].Welcoming? && s.threads[t].ids != [] {
      FirstOf(s.threads[t].ids, id);
    }
  }

  lemma ThreadSurplus(s: State, a: Action, id: int)
    requires !a.Fork? && a.t < |s.threads|
    ensures Shifts(s, a, id)
  {
    hide Shifts;
    match a
    case List(t, x) => ListShifts(s, t, x, id);
    case Remove(t, ids) => RemoveShifts(s, t, ids, id);
    case Announce(t) => AnnounceShifts(s, t, id);
    case Retract(t) => RetractShifts(s, t, id);
    case Greet(t) => JoinShifts(s, t, [], id);
    case Snapshot(t, ids) => JoinShifts(s, t, ids, id);
    case Welcome(t) => WelcomeShifts(s, t, id);
  }

  lemma ForkSurplus(s: State, id: int)
    ensures Surplus(Step(s, Fork), id) == Surplus(s, id) && Gain(s, Fork, id) == 0
  {
    hide Total, Comings, Goings;
    ComingsFork(s.threads);
    GoingsFork(s.threads);
  }

  /** Conservation of one step. */
  lemma StepSurplus(s: State, a: Action, id: int)
    ensures Surplus(Step(s, a), id) == Surplus(s, id) + Gain(s, a, id)
  {
    if a.Fork? {
      ForkSurplus(s, id);
    } else if a.t < |s.threads| {
      hide Total, Comings, Goings, Step, Coming, Going, Gain;
      ThreadSurplus(s, a, id);
      FlowsUpdate(s.threads, a.t, Step(s, a).threads[a.t], id);
    }
  }

  function After(s: State, actions: seq<Action>): State
    decreases |actions|
  {
    if actions == [] then s else After(Step(s, actions[0]), actions[1..])
  }

  function Gained(s: State, actions: seq<Action>, id: int): int
    decreases |actions|
  {
    if actions == [] then 0 else Gain(s, actions[0], id) + Gained(Step(s, actions[0]), actions[1..], id)
  }

  /** Over every run, the surplus of an id changes by its lost removals less its lost entries,
      and by what a join clears and lists. */
  lemma {:induction false} SurplusBalances(s: State, actions: seq<Action>, id: int)
    ensures Surplus(After(s, actions), id) == Surplus(s, id) + Gained(s, actions, id)
    decreases |actions|
  {
    hide Step, Surplus, Gain;
    if actions != [] {
      StepSurplus(s, actions[0], id);
      SurplusBalances(Step(s, actions[0]), actions[1..], id);
    }
  }

  // When copy and board agree.

  /** Once all packets under way have arrived, the copy will be the board. */
  ghost predicate Even(s: State) {
    forall id :: Surplus(s, id) == 0
  }

  predicate Quiet(s: State) {
    forall t :: 0 <= t < |s.threads| ==> s.threads[t].Idle?
  }

  lemma {:induction false} NothingOwed(threads: seq<Thread>)
    requires forall t :: 0 <= t < |threads| ==> threads[t].Idle?
    ensures Total(Comings(threads)) == multiset{} == Total(Goings(threads))
  {
    if threads != [] {
      var n := |threads| - 1;
      NothingOwed(threads[..n]);
      assert Comings(threads)[..n] == Comings(threads[..n]);
      assert Goings(threads)[..n] == Goings(threads[..n]);
      assert Comings(threads)[n] == multiset{} == Goings(threads)[n];
    }
  }

  /** When no packet is under way, that is to agree. */
  lemma QuietIff(s: State)
    requires Quiet(s)
    ensures Even(s) <==> s.copy == s.board
  {
    hide Total, Comings, Goings;
    NothingOwed(s.threads);
    if Even(s) {
      forall id ensures s.copy[id] == s.board[id] {
        assert Surplus(s, id) == 0;
      }
    }
  }

  ghost predicate LossesCancel(s: State, actions: seq<Action>) {
    forall id :: Gained(s, actions, id) == 0
  }

  lemma CancelsIff(s: State, actions: seq<Action>)
    requires Even(s)
    ensures Even(After(s, actions)) <==> LossesCancel(s, actions)
  {
    hide After, Surplus, Gained;
    forall id ensures Surplus(After(s, actions), id) == 0 <==> Gained(s, actions, id) == 0 {
      SurplusBalances(s, actions, id);
      assert Surplus(s, id) == 0;
    }
    if LossesCancel(s, actions) {
      forall id ensures Surplus(After(s, actions), id) == 0 {
        assert Gained(s, actions, id) == 0;
      }
    } else {
      var id :| Gained(s, actions, id) != 0;
      assert Surplus(After(s, actions), id) != 0;
    }
  }

  /** After any run, with no packet under way, copy and board agree exactly when the losses of
      every id cancel. */
  lemma QuietAgreesIff(s: State, actions: seq<Action>)
    requires Even(s) && Quiet(After(s, actions))
    ensures After(s, actions).copy == After(s, actions).board <==> LossesCancel(s, actions)
  {
    hide After, Even, Quiet, LossesCancel;
    QuietIff(After(s, actions));
    CancelsIff(s, actions);
  }

  /** The client has joined, and nobody else's login concerns it. */
  ghost predicate Joined(actions: seq<Action>) {
    forall k :: 0 <= k < |actions| ==> !actions[k].Greet? && !actions[k].Snapshot?
  }

  ghost predicate NothingLost(s: State, a: Action) {
    forall id :: !LosesEntry(s, a, id) && !LosesRemoval(s, a, id)
  }

  ghost predicate EvenThroughout(s: State, actions: seq<Action>)
    decreases |actions|
  {
    Even(s) && (actions != [] ==> EvenThroughout(Step(s, actions[0]), actions[1..]))
  }

  ghost predicate NothingLostRun(s: State, actions: seq<Action>)
    decreases |actions|
  {
    actions != [] ==> NothingLost(s, actions[0]) && NothingLostRun(Step(s, actions[0]), actions[1..])
  }

  lemma StepEvenIff(s: State, a: Action)
    requires Even(s) && !a.Greet? && !a.Snapshot?
    ensures Even(Step(s, a)) <==> NothingLost(s, a)
  {
    hide Surplus, Step, LosesEntry, LosesRemoval;
    forall id ensures Surplus(Step(s, a), id) == 0 <==> !LosesEntry(s, a, id) && !LosesRemoval(s, a, id) {
      StepSurplus(s, a, id);
      assert Surplus(s, id) == 0;
    }
    if NothingLost(s, a) {
      forall id ensures Surplus(Step(s, a), id) == 0 {
        assert !LosesEntry(s, a, id) && !LosesRemoval(s, a, id);
      }
    }
    if Even(Step(s, a)) {
      forall id ensures !LosesEntry(s, a, id) && !LosesRemoval(s, a, id) {
        assert Surplus(Step(s, a), id) == 0;
      }
    }
  }

  lemma UnevenFrom(s: State, actions: seq<Action>)
    requires !Even(s)
    ensures !EvenThroughout(s, actions)
  {
    hide Even, Step;
  }

  /** In every interleaving, a client that has joined stays even at every moment exactly when no
      removal overtakes its entry and no entry finds the copy full. */
  lemma {:induction false} JoinedRunIff(s: State, actions: seq<Action>)
    requires Even(s) && Joined(actions)
    ensures EvenThroughout(s, actions) <==> NothingLostRun(s, actions)
    decreases |actions|
  {
    hide Step, Even, NothingLost;
    if actions != [] {
      StepEvenIff(s, actions[0]);
      if NothingLost(s, actions[0]) {
        JoinedRunIff(Step(s, actions[0]), actions[1..]);
      } else {
        UnevenFrom(Step(s, actions[0]), actions[1..]);
      }
    }
  }

  /** A client that joins is even from its snapshot on exactly when, of every id, the entries it
      was sent since its greeting or has still to be sent are as many as the removals. */
  lemma SnapshotIff(s: State, t: nat, ids: seq<int>)
    requires t < |s.threads| && s.threads[t].Greeting? && multiset(ids) == s.board
    ensures Even(Step(s, Snapshot(t, ids)))
      <==> forall id :: s.copy[id] + Total(Comings(s.threads))[id] == Total(Goings(s.threads))[id]
  {
    hide Total, Comings, Goings, Step;
    var after := Step(s, Snapshot(t, ids));
    forall id
      ensures Surplus(after, id) == 0 <==> s.copy[id] + Total(Comings(s.threads))[id] == Total(Goings(s.threads))[id]
    {
      StepSurplus(s, Snapshot(t, ids), id);
    }
    if Even(after) {
      forall id ensures s.copy[id] + Total(Comings(s.threads))[id] == Total(Goings(s.threads))[id] {
        assert Surplus(after, id) == 0;
      }
    }
  }

  // Two runs from the start in which they do not.

  const START := State(multiset{}, multiset{}, [Idle, Idle])

  lemma StartEven()
    ensures Even(START) && Quiet(START)
  {
    QuietIff(START);
  }

  lemma AfterOne(s: State, a: Action, rest: seq<Action>)
    ensures After(s, [a] + rest) == After(Step(s, a), rest)
  {
    hide Step;
    assert ([a] + rest)[1..] == rest;
  }

  lemma AfterNone(s: State)
    ensures After(s, []) == s
  {
  }

  lemma AfterFour(s: State, a: Action, b: Action, c: Action, d: Action)
    ensures After(s, [a, b, c, d]) == Step(Step(Step(Step(s, a), b), c), d)
  {
    hide Step, After;
    AfterOne(s, a, [b, c, d]);
    AfterOne(Step(s, a), b, [c, d]);
    AfterOne(Step(Step(s, a), b), c, [d]);
    AfterOne(Step(Step(Step(s, a), b), c), d, []);
    AfterNone(Step(Step(Step(Step(s, a), b), c), d));
    assert [a] + [b, c, d] == [a, b, c, d] && [b] + [c, d] == [b, c, d] && [c] + [d] == [c, d] && [d] + [] == [d];
  }

  lemma Lists(id: int)
    ensures Step(START, List(0, id)) == State(multiset{id}, multiset{}, [Listed(id), Idle])
  {
  }

  lemma TakesOff(id: int)
    ensures Step(State(multiset{id}, multiset{}, [Listed(id), Idle]), Remove(1, [id]))
      == State(multiset{}, multiset{}, [Listed(id), Removed([id])])
  {
    assert multiset([id]) == multiset{id};
  }

  lemma RetractsNothing(id: int)
    ensures Step(State(multiset{}, multiset{}, [Listed(id), Removed([id])]), Retract(1))
      == State(multiset{}, multiset{}, [Listed(id), Removed([])])
  {
    assert [id][1..] == [];
  }

  /** An offer is bought before it is announced, and the buyer's packet comes first: when no
      packet is under way any more, the client shows an offer that is gone. */
  lemma RemovalOvertakes(id: int) returns (actions: seq<Action>)
    ensures Joined(actions)
    ensures After(START, actions) == State(multiset{}, multiset{id}, [Idle, Idle])
  {
    hide After, Step;
    actions := [List(0, id), Remove(1, [id]), Retract(1), Announce(0)] + ([Retract(1)] + []);
    AfterJoin(START, [List(0, id), Remove(1, [id]), Retract(1), Announce(0)], [Retract(1)] + []);
    AfterFour(START, List(0, id), Remove(1, [id]), Retract(1), Announce(0));
    Lists(id);
    TakesOff(id);
    RetractsNothing(id);
    LateAnnounce(id);
    AfterOne(State(multiset{}, multiset{id}, [Idle, Removed([])]), Retract(1), []);
    AfterNone(State(multiset{}, multiset{id}, [Idle, Idle]));
  }

  lemma LateAnnounce(id: int)
    ensures Step(State(multiset{}, multiset{}, [Listed(id), Removed([])]), Announce(0))
      == State(multiset{}, multiset{id}, [Idle, Removed([])])
    ensures Step(State(multiset{}, multiset{id}, [Idle, Removed([])]), Retract(1)) == State(multiset{}, multiset{id}, [Idle, Idle])
  {
  }

  lemma {:induction false} AfterJoin(s: State, first: seq<Action>, rest: seq<Action>)
    ensures After(s, first + rest) == After(After(s, first), rest)
    decreases |first|
  {
    hide Step;
    if first == [] {
      assert first + rest == rest;
    } else {
      AfterJoin(Step(s, first[0]), first[1..], rest);
      assert (first + rest)[1..] == first[1..] + rest;
    }
  }

  /** A spawn between the greeting and the snapshot of a client that joins: it shows the offer twice. */
  lemma JoinSeesTwice(id: int) returns (actions: seq<Action>)
    ensures After(START, actions) == State(multiset{id}, multiset{id, id}, [Idle, Idle])
  {
    hide After, Step;
    var four := [List(0, id), Announce(0), Snapshot(1, [id]), Welcome(1)];
    actions := [Greet(1)] + (four + ([Welcome(1)] + []));
    var greeted := State(multiset{}, multiset{}, [Idle, Greeting]);
    Greets();
    AfterOne(START, Greet(1), four + ([Welcome(1)] + []));
    AfterJoin(greeted, four, [Welcome(1)] + []);
    AfterFour(greeted, four[0], four[1], four[2], four[3]);
    ListsInBetween(id);
    SnapshotToo(id);
    AfterOne(State(multiset{id}, multiset{id, id}, [Idle, Welcoming([])]), Welcome(1), []);
    AfterNone(State(multiset{id}, multiset{id, id}, [Idle, Idle]));
  }

  lemma Greets()
    ensures Step(START, Greet(1)) == State(multiset{}, multiset{}, [Idle, Greeting])
  {
  }

  lemma ListsInBetween(id: int)
    ensures Step(State(multiset{}, multiset{}, [Idle, Greeting]), List(0, id)) == State(multiset{id}, multiset{}, [Listed(id), Greeting])
    ensures Step(State(multiset{id}, multiset{}, [Listed(id), Greeting]), Announce(0)) == State(multiset{id}, multiset{id}, [Idle, Greeting])
  {
  }

  lemma SnapshotToo(id: int)
    ensures Step(State(multiset{id}, multiset{id}, [Idle, Greeting]), Snapshot(1, [id]))
      == State(multiset{id}, multiset{id}, [Idle, Welcoming([id])])
    ensures Step(State(multiset{id}, multiset{id}, [Idle, Welcoming([id])]), Welcome(1))
      == State(multiset{id}, multiset{id, id}, [Idle, Welcoming([])])
    ensures Step(State(multiset{id}, multiset{id, id}, [Idle, Welcoming([])]), Welcome(1)) == State(multiset{id}, multiset{id, id}, [Idle, Idle])
  {
    assert [id][1..] == [];
    assert multiset([id]) == multiset{id};
  }
}
