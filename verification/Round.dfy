// The end of a round: payoffs raise the debt ladder, and the third escape, the expired
// cap or a debug request start one countdown. Any number of threads; one step is one
// critical section of the round lock.
module Round {
  import opened Prelude
  import opened Escape

  const CAP_GRACE_SEC := 300

  /** Where a thread stands in a trigger, in fire_round_end_countdown or in its timer. */
  datatype Thread =
    | Ready
    | Triggered                          // is about to try to claim the countdown
    | Claimed                            // has set the flag
    | Showing(shown: seq<EscapeEntry>)   // has copied the escape log for the scoreboard
    | Sleeping                           // is the timer
    | Resetting                          // the timer has found the flag set

  /** The round state, its threads, and what happened: the escapes of this round, the
      countdowns claimed, the timers started or failed, and the resets. */
  datatype State = State(
    ladder: Ladder,
    active: bool,
    threads: seq<Thread>,
    escapes: seq<Made>,
    claims: nat,
    started: nat,
    failed: nat,
    resets: nat)

  datatype Action =
    | Fork
    | Payoff(t: nat, key: Key, money: int, now: int)
    | CapCheck(t: nat, now: int)
    | Debug(t: nat)
    | Claim(t: nat)
    | CopyLog(t: nat)
    | Launch(t: nat, created: bool)
    | Wake(t: nat)
    | Restore(t: nat)

  function Goes(s: State, t: nat, thread: Thread): State
    requires t < |s.threads|
  {
    s.(threads := s.threads[t := thread])
  }

  function Copied(l: Ladder): nat {
    if l.escaped < MAX_SCORE_ESCAPED then l.escaped else MAX_SCORE_ESCAPED
  }

  /** A step that its thread is not ready for does nothing. */
  function Step(s: State, a: Action): (after: State)
    requires |s.ladder.log| == MAX_SCORE_ESCAPED
    ensures |after.ladder.log| == MAX_SCORE_ESCAPED
  {
    match a
    case Fork => s.(threads := s.threads + [Ready])
    case Payoff(t, key, money, now) =>
      if t < |s.threads| && s.threads[t].Ready? && money >= s.ladder.goal then
        var ladder := Climb(s.ladder, key, now);
        Goes(s, t, if ladder.escaped >= 3 then Triggered else Ready).(ladder := ladder, escapes := s.escapes + [Made(key, now)])
      else s
    case CapCheck(t, now) =>
      if t < |s.threads| && s.threads[t].Ready? && s.ladder.capAt != 0 && now - s.ladder.capAt >= CAP_GRACE_SEC
      then Goes(s, t, Triggered) else s
    case Debug(t) =>
      if t < |s.threads| && s.threads[t].Ready? then Goes(s, t, Triggered) else s
    case Claim(t) =>
      if t < |s.threads| && s.threads[t].Triggered? then
        if s.active then Goes(s, t, Ready)
        else Goes(s, t, Claimed).(active := true, claims := s.claims + 1)
      else s
    case CopyLog(t) =>
      if t < |s.threads| && s.threads[t].Claimed? then Goes(s, t, Showing(s.ladder.log[..Copied(s.ladder)])) else s
    case Launch(t, created) =>
      if t < |s.threads| && s.threads[t].Showing? then
        if created then Goes(s, t, Ready).(threads := s.threads[t := Ready] + [Sleeping], started := s.started + 1)
        else Goes(s, t, Ready).(active := false, failed := s.failed + 1)
      else s
    case Wake(t) =>
      if t < |s.threads| && s.threads[t].Sleeping? then Goes(s, t, if s.active then Resetting else Ready) else s
    case Restore(t) =>
      if t < |s.threads| && s.threads[t].Resetting? then
        Goes(s, t, Ready).(ladder := NewLadder(), active := false, escapes := [], resets := s.resets + 1)
      else s
  }

  /** The clock that payoffs read is never zero. */
  predicate Clocked(a: Action) {
    a.Payoff? ==> a.now != 0
  }

  // Ownership.

  predicate Fires(thread: Thread) {
    thread.Claimed? || thread.Showing?
  }

  predicate Times(thread: Thread) {
    thread.Sleeping? || thread.Resetting?
  }

  predicate Owns(thread: Thread) {
    Fires(thread) || Times(thread)
  }

  /** One owner while the flag is set and none otherwise; every claim has become a timer, has
      failed or is still firing; every timer has reset the round or is still to do so. */
  ghost predicate Balanced(s: State) {
    && Count(s.threads, Owns) == (if s.active then 1 else 0)
    && s.claims == s.started + s.failed + Count(s.threads, Fires)
    && s.started == s.resets + Count(s.threads, Times)
  }

  /** What a firing thread shows is the start of the log of this round. */
  ghost predicate ShowsEscapes(s: State) {
    |s.ladder.log| == MAX_SCORE_ESCAPED
    && forall t :: 0 <= t < |s.threads| && s.threads[t].Showing? ==>
      |s.threads[t].shown| <= Copied(s.ladder) && s.threads[t].shown == s.ladder.log[..|s.threads[t].shown|]
  }

  ghost predicate Inv(s: State) {
    Tells(s.ladder, s.escapes) && Balanced(s) && ShowsEscapes(s)
  }

  // Every step keeps it.

  lemma Moves(s: State, t: nat, thread: Thread)
    requires t < |s.threads|
    ensures Count(s.threads[t := thread], Owns) + (if Owns(s.threads[t]) then 1 else 0)
      == Count(s.threads, Owns) + (if Owns(thread) then 1 else 0)
    ensures Count(s.threads[t := thread], Fires) + (if Fires(s.threads[t]) then 1 else 0)
      == Count(s.threads, Fires) + (if Fires(thread) then 1 else 0)
    ensures Count(s.threads[t := thread], Times) + (if Times(s.threads[t]) then 1 else 0)
      == Count(s.threads, Times) + (if Times(thread) then 1 else 0)
  {
    hide Owns, Fires, Times;
    CountUpdate(s.threads, t, thread, Owns);
    CountUpdate(s.threads, t, thread, Fires);
    CountUpdate(s.threads, t, thread, Times);
  }

  lemma PlainMove(s: State, t: nat, thread: Thread)
    requires t < |s.threads| && Balanced(s) && !Owns(s.threads[t]) && !Owns(thread)
    ensures Balanced(Goes(s, t, thread))
  {
    hide Count;
    Moves(s, t, thread);
  }

  lemma LaunchBalances(s: State, t: nat, created: bool)
    requires |s.ladder.log| == MAX_SCORE_ESCAPED && Balanced(s) && t < |s.threads| && s.threads[t].Showing?
    ensures Balanced(Step(s, Launch(t, created)))
  {
    hide Climb, NewLadder, Count;
    OwnerMeansActive(s, t);
    Moves(s, t, Ready);
    CountAppend(s.threads[t := Ready], Sleeping, Owns);
    CountAppend(s.threads[t := Ready], Sleeping, Fires);
    CountAppend(s.threads[t := Ready], Sleeping, Times);
  }

  lemma TimerBalances(s: State, t: nat)
    requires |s.ladder.log| == MAX_SCORE_ESCAPED && Balanced(s) && t < |s.threads| && Times(s.threads[t])
    ensures Balanced(Step(s, Wake(t))) && Balanced(Step(s, Restore(t)))
  {
    hide Climb, NewLadder, Count;
    OwnerMeansActive(s, t);
    Moves(s, t, Resetting);
    Moves(s, t, Ready);
  }

  lemma StepBalances(s: State, a: Action)
    requires |s.ladder.log| == MAX_SCORE_ESCAPED && Balanced(s)
    ensures Balanced(Step(s, a))
  {
    hide Climb, NewLadder, Count;
    match a
    case Fork =>
      CountAppend(s.threads, Ready, Owns);
      CountAppend(s.threads, Ready, Fires);
      CountAppend(s.threads, Ready, Times);
    case Payoff(t, key, money, now) =>
      if t < |s.threads| && s.threads[t].Ready? {
        PlainMove(s, t, Ready);
        PlainMove(s, t, Triggered);
      }
    case CapCheck(t, now) => if t < |s.threads| && s.threads[t].Ready? { PlainMove(s, t, Triggered); }
    case Debug(t) => if t < |s.threads| && s.threads[t].Ready? { PlainMove(s, t, Triggered); }
    case Claim(t) =>
      if t < |s.threads| && s.threads[t].Triggered? {
        PlainMove(s, t, Ready);
        Moves(s, t, Claimed);
      }
    case CopyLog(t) =>
      if t < |s.threads| && s.threads[t].Claimed? { Moves(s, t, Showing(s.ladder.log[..Copied(s.ladder)])); }
    case Launch(t, created) => if t < |s.threads| && s.threads[t].Showing? { LaunchBalances(s, t, created); }
    case Wake(t) => if t < |s.threads| && Times(s.threads[t]) { TimerBalances(s, t); }
    case Restore(t) => if t < |s.threads| && Times(s.threads[t]) { TimerBalances(s, t); }
  }

  lemma OwnerMeansActive(s: State, t: nat)
    requires Balanced(s) && t < |s.threads| && Owns(s.threads[t])
    ensures s.active
    ensures forall u :: 0 <= u < |s.threads| && u != t ==> !Owns(s.threads[u])
  {
    CountAtLeast(s.threads, t, Owns);
  }

  lemma ClimbAppends(l: Ladder, made: seq<Made>, key: Key, now: int)
    requires Tells(l, made)
    ensures var after := Climb(l, key, now);
      |after.log| == |l.log| == MAX_SCORE_ESCAPED && Copied(l) <= Copied(after) && after.log[..Copied(l)] == l.log[..Copied(l)]
  {
  }

  lemma StepShows(s: State, a: Action)
    requires Inv(s)
    ensures ShowsEscapes(Step(s, a))
  {
    hide Count, Climb, NewLadder, Tells;
    match a
    case Payoff(t, key, money, now) =>
      LogSize(s.ladder, s.escapes);
      var after := Climb(s.ladder, key, now);
      ClimbAppends(s.ladder, s.escapes, key, now);
      PrefixStays(s.ladder.log, after.log, Copied(s.ladder));
    case Restore(t) =>
      if t < |s.threads| && s.threads[t].Resetting? {
        OwnerMeansActive(s, t);
      }
    case _ =>
  }

  lemma PrefixStays<T>(log: seq<T>, after: seq<T>, n: nat)
    requires n <= |log| <= |after| && after[..n] == log[..n]
    ensures forall k :: 0 <= k <= n ==> after[..k] == log[..k]
  {
    forall k | 0 <= k <= n ensures after[..k] == log[..k] {
      assert after[..k] == after[..n][..k];
      assert log[..k] == log[..n][..k];
    }
  }

  lemma StepKeeps(s: State, a: Action)
    requires Inv(s) && Clocked(a)
    ensures Inv(Step(s, a))
  {
    hide Climb, Count, ShowsEscapes, Tells, NewLadder;
    LogSize(s.ladder, s.escapes);
    StepBalances(s, a);
    StepShows(s, a);
    if a.Payoff? {
      ClimbTells(s.ladder, s.escapes, a.key, a.now);
    }
    NewLadderTells();
  }

  lemma LogSize(l: Ladder, made: seq<Made>)
    requires Tells(l, made)
    ensures |l.log| == MAX_SCORE_ESCAPED
  {
  }

  // Runs.

  const START := State(NewLadder(), false, [], [], 0, 0, 0, 0)

  function After(s: State, actions: seq<Action>): (after: State)
    requires |s.ladder.log| == MAX_SCORE_ESCAPED
    decreases |actions|
  {
    if actions == [] then s else After(Step(s, actions[0]), actions[1..])
  }

  ghost predicate ClockedRun(actions: seq<Action>) {
    forall i :: 0 <= i < |actions| ==> Clocked(actions[i])
  }

  lemma {:induction false} RunKeeps(s: State, actions: seq<Action>)
    requires Inv(s) && |s.ladder.log| == MAX_SCORE_ESCAPED && ClockedRun(actions)
    ensures Inv(After(s, actions))
    decreases |actions|
  {
    hide Step, Clocked, Inv;
    if actions != [] {
      StepKeeps(s, actions[0]);
      RunKeeps(Step(s, actions[0]), actions[1..]);
    }
  }

  lemma StartHolds()
    ensures Inv(START) && |START.ladder.log| == MAX_SCORE_ESCAPED
  {
  }

  /** In every interleaving the flag is set exactly while one thread owns the countdown, and
      then it is the only one; a timer finds the flag set; and once no thread owns it, the
      resets are exactly the timers started. */
  lemma OneCountdown(actions: seq<Action>)
    requires ClockedRun(actions)
    ensures var s := After(START, actions);
      && (s.active <==> exists t :: 0 <= t < |s.threads| && Owns(s.threads[t]))
      && (forall t, u :: 0 <= t < |s.threads| && 0 <= u < |s.threads| && Owns(s.threads[t]) && Owns(s.threads[u]) ==> t == u)
      && (forall t :: 0 <= t < |s.threads| && s.threads[t].Sleeping? ==> s.active)
      && (!s.active ==> s.started == s.resets && s.claims == s.started + s.failed)
      && s.resets <= s.started <= s.resets + 1
  {
    hide Tells, ShowsEscapes, After, Count;
    StartHolds();
    RunKeeps(START, actions);
    OwnersOfBalanced(After(START, actions));
  }

  lemma OwnersOfBalanced(s: State)
    requires Balanced(s)
    ensures s.active <==> exists t :: 0 <= t < |s.threads| && Owns(s.threads[t])
    ensures forall t, u :: 0 <= t < |s.threads| && 0 <= u < |s.threads| && Owns(s.threads[t]) && Owns(s.threads[u]) ==> t == u
    ensures !s.active ==> s.started == s.resets && s.claims == s.started + s.failed
    ensures s.resets <= s.started <= s.resets + 1
  {
    hide Count;
    CountNone(s.threads, Owns);
    forall t | 0 <= t < |s.threads| && Owns(s.threads[t])
      ensures s.active && forall u :: 0 <= u < |s.threads| && Owns(s.threads[u]) ==> t == u
    {
      OwnerMeansActive(s, t);
    }
    TimersAmongOwners(s.threads);
  }

  lemma {:induction false} TimersAmongOwners(threads: seq<Thread>)
    ensures Count(threads, Fires) + Count(threads, Times) == Count(threads, Owns)
  {
    if threads != [] {
      TimersAmongOwners(threads[..|threads| - 1]);
    }
  }

  /** A timer that wakes resets the round, whatever happened while it slept. */
  lemma TimerResets(actions: seq<Action>, t: nat)
    requires ClockedRun(actions) && t < |After(START, actions).threads| && After(START, actions).threads[t].Sleeping?
    ensures |After(START, actions).ladder.log| == MAX_SCORE_ESCAPED
    ensures var s := After(START, actions);
      var after := Step(Step(s, Wake(t)), Restore(t));
      after.resets == s.resets + 1 && !after.active && after.ladder == NewLadder() && after.escapes == []
  {
    hide Tells, ShowsEscapes, After, Count, NewLadder, Climb;
    StartHolds();
    RunKeeps(START, actions);
    var s := After(START, actions);
    LogSize(s.ladder, s.escapes);
    OwnerMeansActive(s, t);
  }

  /** In every interleaving the goal, the cap time and the log tell the escapes of the round,
      and a scoreboard shows the first of them, at most three, in order. */
  lemma LadderTells(actions: seq<Action>)
    requires ClockedRun(actions)
    ensures var s := After(START, actions);
      && s.ladder.escaped == |s.escapes|
      && s.ladder.goal == (if |s.escapes| == 0 then 10000 else if |s.escapes| == 1 then 12000 else 14000)
      && s.ladder.capAt == (if |s.escapes| >= 2 then s.escapes[1].at else 0)
      && |s.ladder.log| == 3
      && (forall i :: 0 <= i < 3 && i < |s.escapes| ==>
            s.ladder.log[i] == EscapeEntry(s.escapes[i].key, GoalAfter(i), i + 1))
      && (forall t :: 0 <= t < |s.threads| && s.threads[t].Showing? ==>
            |s.threads[t].shown| <= |s.escapes|
            && forall i :: 0 <= i < |s.threads[t].shown| ==>
                 s.threads[t].shown[i] == EscapeEntry(s.escapes[i].key, GoalAfter(i), i + 1))
  {
    hide After, Count;
    StartHolds();
    RunKeeps(START, actions);
  }

  // What ends a round.

  /** A payoff counts exactly when it covers the goal, which the escapes so far determine; it is
      then the last of the escapes, and starts a countdown exactly when it is at least the third. */
  lemma PayoffIff(actions: seq<Action>, t: nat, key: Key, money: int, now: int)
    requires ClockedRun(actions) && now != 0
    requires t < |After(START, actions).threads| && After(START, actions).threads[t].Ready?
    ensures |After(START, actions).ladder.log| == MAX_SCORE_ESCAPED
    ensures var s := After(START, actions);
      var after := Step(s, Payoff(t, key, money, now));
      if money >= (if |s.escapes| == 0 then 10000 else if |s.escapes| == 1 then 12000 else 14000) then
        && after.escapes == s.escapes + [Made(key, now)]
        && after.threads == s.threads[t := if |after.escapes| >= 3 then Triggered else Ready]
        && Tells(after.ladder, after.escapes)
        && after == s.(ladder := after.ladder, escapes := after.escapes, threads := after.threads)
      else after == s
  {
    hide After, Count, Climb, ShowsEscapes, Balanced;
    StartHolds();
    RunKeeps(START, actions);
    var s := After(START, actions);
    ClimbTells(s.ladder, s.escapes, key, now);
    assert s.threads[t := Ready] == s.threads;
  }

  /** The cap check starts a countdown exactly when at least two have escaped and five minutes
      have passed since the second did. */
  lemma CapCheckIff(actions: seq<Action>, t: nat, now: int)
    requires ClockedRun(actions)
    requires t < |After(START, actions).threads| && After(START, actions).threads[t].Ready?
    ensures |After(START, actions).ladder.log| == MAX_SCORE_ESCAPED
    ensures var s := After(START, actions);
      Step(s, CapCheck(t, now))
      == if |s.escapes| >= 2 && now - s.escapes[1].at >= 300 then s.(threads := s.threads[t := Triggered]) else s
  {
    hide After, Count, ShowsEscapes, Balanced;
    StartHolds();
    RunKeeps(START, actions);
  }

  /** Nothing but a payoff, the cap check and the debug request triggers a countdown. */
  lemma OnlyTriggers(s: State, a: Action, t: nat)
    requires |s.ladder.log| == MAX_SCORE_ESCAPED
    requires t < |Step(s, a).threads| && Step(s, a).threads[t].Triggered?
    requires t < |s.threads| ==> !s.threads[t].Triggered?
    ensures t < |s.threads| && s.threads[t].Ready? && (a == Debug(t) || (a.CapCheck? && a.t == t) || (a.Payoff? && a.t == t))
  {
    hide Climb, NewLadder;
  }

  /** A trigger goes through: unless a countdown is on, its thread claims it, shows the first
      three escapes or as many as there are, and starts the timer; and that resets the round. */
  lemma TriggerResets(actions: seq<Action>, t: nat)
    requires ClockedRun(actions)
    requires t < |After(START, actions).threads| && After(START, actions).threads[t].Triggered?
    ensures |After(START, actions).ladder.log| == MAX_SCORE_ESCAPED
    ensures var s := After(START, actions);
      if s.active then Step(s, Claim(t)) == s.(threads := s.threads[t := Ready])
      else
        var claimed := Step(s, Claim(t));
        var showing := Step(claimed, CopyLog(t));
        var timed := Step(showing, Launch(t, true));
        var n := |s.threads|;
        var reset := Step(Step(timed, Wake(n)), Restore(n));
        && claimed == s.(active := true, claims := s.claims + 1, threads := s.threads[t := Claimed])
        && showing.threads[t].Showing? && |showing.threads[t].shown| == (if |s.escapes| < 3 then |s.escapes| else 3)
        && (forall i :: 0 <= i < |showing.threads[t].shown| ==>
              showing.threads[t].shown[i] == EscapeEntry(s.escapes[i].key, GoalAfter(i), i + 1))
        && timed.active && timed.threads == s.threads[t := Ready] + [Sleeping]
        && Step(showing, Launch(t, false)) == s.(claims := s.claims + 1, failed := s.failed + 1, threads := s.threads[t := Ready])
        && reset.threads == s.threads[t := Ready] + [Ready] && !reset.active && Tells(reset.ladder, []) && reset.escapes == []
        && reset.resets == s.resets + 1
  {
    hide After, Count, Climb, NewLadder, ShowsEscapes, Balanced;
    StartHolds();
    RunKeeps(START, actions);
    NewLadderTells();
    var s := After(START, actions);
    if !s.active {
      Unfolds(s, t);
    }
  }

  lemma Unfolds(s: State, t: nat)
    requires |s.ladder.log| == MAX_SCORE_ESCAPED && t < |s.threads| && s.threads[t].Triggered? && !s.active
    ensures var claimed := s.(active := true, claims := s.claims + 1, threads := s.threads[t := Claimed]);
      var shown := s.ladder.log[..Copied(s.ladder)];
      var showing := claimed.(threads := s.threads[t := Showing(shown)]);
      var timed := showing.(threads := s.threads[t := Ready] + [Sleeping], started := s.started + 1);
      var woken := timed.(threads := s.threads[t := Ready] + [Resetting]);
      && Step(s, Claim(t)) == claimed && Step(claimed, CopyLog(t)) == showing && Step(showing, Launch(t, true)) == timed
      && Step(showing, Launch(t, false)) == s.(claims := s.claims + 1, failed := s.failed + 1, threads := s.threads[t := Ready])
      && Step(timed, Wake(|s.threads|)) == woken
      && Step(woken, Restore(|s.threads|))
         == woken.(threads := s.threads[t := Ready] + [Ready], ladder := NewLadder(), active := false, escapes := [], resets := s.resets + 1)
  {
    hide NewLadder, Climb;
    assert s.threads[t := Claimed][t := Showing(s.ladder.log[..Copied(s.ladder)])][t := Ready] == s.threads[t := Ready];
  }

  /** The debug request starts one at any time. */
  lemma DebugTriggers(s: State, t: nat)
    requires |s.ladder.log| == MAX_SCORE_ESCAPED && t < |s.threads| && s.threads[t].Ready?
    ensures Step(s, Debug(t)) == s.(threads := s.threads[t := Triggered])
  {
  }

  lemma AfterOne(s: State, a: Action, rest: seq<Action>)
    requires |s.ladder.log| == MAX_SCORE_ESCAPED
    ensures After(s, [a] + rest) == After(Step(s, a), rest)
  {
    hide Step;
    assert ([a] + rest)[1..] == rest;
  }

  /** A round from the start: three escapes at the goals 10000, 12000 and 14000, and the third
      leaves its thread about to end the round. */
  lemma ThreeEscape(a: Key, b: Key, c: Key) returns (actions: seq<Action>)
    ensures ClockedRun(actions)
    ensures var s := After(START, actions);
      s.threads == [Triggered] && s.escapes == [Made(a, 1), Made(b, 2), Made(c, 3)] && !s.active
      && s.ladder.goal == 14000 && s.ladder.capAt == 2
  {
    hide After, NewLadder;
    var none := START.(threads := [Ready]);
    var first, second, third := Payoff(0, a, 10000, 1), Payoff(0, b, 12000, 2), Payoff(0, c, 14000, 3);
    actions := [Fork] + ([first] + ([second] + ([third] + [])));
    NewLadderTells();
    LogSize(START.ladder, []);
    AfterOne(START, Fork, [first] + ([second] + ([third] + [])));
    assert Step(START, Fork) == none;
    Escapes(none, [], a, 10000, 1);
    var one := Step(none, first);
    AfterOne(none, first, [second] + ([third] + []));
    Escapes(one, [Made(a, 1)], b, 12000, 2);
    var two := Step(one, second);
    AfterOne(one, second, [third] + []);
    Escapes(two, [Made(a, 1), Made(b, 2)], c, 14000, 3);
    AfterOne(two, third, []);
    AfterNone(Step(two, third));
  }

  lemma Escapes(s: State, made: seq<Made>, key: Key, money: int, now: int)
    requires s.threads == [Ready] && s.escapes == made && Tells(s.ladder, made) && money >= GoalAfter(|made|) && now != 0
    requires |s.ladder.log| == MAX_SCORE_ESCAPED
    ensures var after := Step(s, Payoff(0, key, money, now));
      && after.threads == (if |made| >= 2 then [Triggered] else [Ready]) && after.escapes == made + [Made(key, now)]
      && Tells(after.ladder, made + [Made(key, now)]) && after.active == s.active
  {
    hide Climb;
    ClimbTells(s.ladder, made, key, now);
  }

  lemma AfterNone(s: State)
    requires |s.ladder.log| == MAX_SCORE_ESCAPED
    ensures After(s, []) == s
  {
  }
}
