// Logins when the duplicate test and the entry into the client table are two sections: what
// keeps the active keys distinct, and the race that does not.
module Logins {
  import opened Prelude
  import R = Raid

  /** Where a client's thread stands. */
  datatype Session = Waiting | Passed(key: Key) | In(key: Key) | Gone

  datatype Action =
    | Connect
    | Check(t: nat, key: Key)
    | Enter(t: nat, burned: bool)
    | Leave(t: nat)

  /** What the client table holds for a session: a client that has not entered has the empty key. */
  function Slot(session: Session): R.Client {
    match session
    case Waiting => R.Client(true, "")
    case Passed(_) => R.Client(true, "")
    case In(key) => R.Client(true, key)
    case Gone => R.Client(false, "")
  }

  predicate Taken(sessions: seq<Session>, t: nat, key: Key) {
    exists u :: 0 <= u < |sessions| && u != t && Slot(sessions[u]) == R.Client(true, key)
  }

  /** A step that its session is not ready for does nothing. */
  function Step(sessions: seq<Session>, a: Action): seq<Session> {
    match a
    case Connect => sessions + [Waiting]
    case Check(t, key) =>
      if t < |sessions| && sessions[t].Waiting? then
        sessions[t := if Taken(sessions, t, key) then Gone else Passed(key)]
      else sessions
    case Enter(t, burned) =>
      if t < |sessions| && sessions[t].Passed? then sessions[t := if burned then Gone else In(sessions[t].key)] else sessions
    case Leave(t) => if t < |sessions| then sessions[t := Gone] else sessions
  }

  /** A session that names a key goes on exactly when no other one is in with it (the empty key is
      that of every session that has not entered), and is turned away otherwise. */
  lemma CheckDecides(sessions: seq<Session>, t: nat, key: Key)
    requires t < |sessions| && sessions[t].Waiting?
    ensures var after := Step(sessions, Check(t, key));
      && |after| == |sessions| && (forall u :: 0 <= u < |sessions| && u != t ==> after[u] == sessions[u])
      && after[t] == if exists u :: 0 <= u < |sessions| && u != t
                                    && (sessions[u] == In(key) || (key == "" && (sessions[u].Waiting? || sessions[u].Passed?)))
                     then Gone else Passed(key)
  {
    if u :| 0 <= u < |sessions| && u != t && (sessions[u] == In(key) || (key == "" && (sessions[u].Waiting? || sessions[u].Passed?))) {
      assert Slot(sessions[u]) == R.Client(true, key);
    }
  }

  /** It enters with that key unless its account is burned; and whoever leaves is out. */
  lemma EnterDecides(sessions: seq<Session>, t: nat, burned: bool)
    requires t < |sessions|
    ensures sessions[t].Passed? ==>
      Step(sessions, Enter(t, burned)) == sessions[t := if burned then Gone else In(sessions[t].key)]
    ensures !sessions[t].Passed? ==> Step(sessions, Enter(t, burned)) == sessions
    ensures Step(sessions, Leave(t)) == sessions[t := Gone]
  {
  }

  /** No key has entered twice. */
  ghost predicate OneEach(sessions: seq<Session>) {
    forall t, u :: 0 <= t < |sessions| && 0 <= u < |sessions| && t != u && sessions[t].In? && sessions[u].In? ==>
      sessions[t].key != sessions[u].key
  }

  /** The session enters although another one with its key has entered since it was tested. */
  ghost predicate Doubles(sessions: seq<Session>, a: Action) {
    a.Enter? && !a.burned && a.t < |sessions| && sessions[a.t].Passed?
    && exists u :: 0 <= u < |sessions| && sessions[u] == In(sessions[a.t].key)
  }

  lemma StepIff(sessions: seq<Session>, a: Action)
    requires OneEach(sessions)
    ensures OneEach(Step(sessions, a)) <==> !Doubles(sessions, a)
  {
    hide Taken;
    if Doubles(sessions, a) {
      var u :| 0 <= u < |sessions| && sessions[u] == In(sessions[a.t].key);
      var after := Step(sessions, a);
      assert after[u].In? && after[a.t].In? && after[u].key == after[a.t].key;
    }
  }

  ghost predicate OneEachThroughout(sessions: seq<Session>, actions: seq<Action>)
    decreases |actions|
  {
    OneEach(sessions) && (actions != [] ==> OneEachThroughout(Step(sessions, actions[0]), actions[1..]))
  }

  ghost predicate NeverDoubles(sessions: seq<Session>, actions: seq<Action>)
    decreases |actions|
  {
    actions != [] ==> !Doubles(sessions, actions[0]) && NeverDoubles(Step(sessions, actions[0]), actions[1..])
  }

  /** The active keys stay distinct through a run exactly when no session enters behind another
      one with its key. */
  lemma {:induction false} DistinctIff(sessions: seq<Session>, actions: seq<Action>)
    requires OneEach(sessions)
    ensures OneEachThroughout(sessions, actions) <==> NeverDoubles(sessions, actions)
    decreases |actions|
  {
    hide Step, OneEach, Doubles;
    if actions != [] {
      StepIff(sessions, actions[0]);
      if OneEach(Step(sessions, actions[0])) {
        DistinctIff(Step(sessions, actions[0]), actions[1..]);
      } else {
        assert !OneEachThroughout(Step(sessions, actions[0]), actions[1..]);
      }
    }
  }

  /** No test of a key falls between another session's test of it and its entry. */
  ghost predicate Serial(sessions: seq<Session>, a: Action) {
    a.Check? ==> forall u :: 0 <= u < |sessions| && u != a.t ==> sessions[u] != Passed(a.key)
  }

  predicate HasKey(session: Session) {
    session.In? || session.Passed?
  }

  ghost predicate OneOnTheWay(sessions: seq<Session>) {
    forall t, u :: 0 <= t < |sessions| && 0 <= u < |sessions| && t != u && HasKey(sessions[t]) && HasKey(sessions[u]) ==>
      sessions[t].key != sessions[u].key
  }

  lemma SerialKeeps(sessions: seq<Session>, a: Action)
    requires OneOnTheWay(sessions) && Serial(sessions, a)
    ensures OneOnTheWay(Step(sessions, a)) && !Doubles(sessions, a)
  {
    if a.Check? && a.t < |sessions| && sessions[a.t].Waiting? && !Taken(sessions, a.t, a.key) {
      forall u | 0 <= u < |sessions| && u != a.t && sessions[u].In? ensures sessions[u].key != a.key {
        assert Slot(sessions[u]) == R.Client(true, sessions[u].key);
      }
    }
  }

  ghost predicate SerialRun(sessions: seq<Session>, actions: seq<Action>)
    decreases |actions|
  {
    actions != [] ==> Serial(sessions, actions[0]) && SerialRun(Step(sessions, actions[0]), actions[1..])
  }

  function After(sessions: seq<Session>, actions: seq<Action>): seq<Session>
    decreases |actions|
  {
    if actions == [] then sessions else After(Step(sessions, actions[0]), actions[1..])
  }

  function Table(sessions: seq<Session>): (table: seq<R.Client>)
    ensures |table| == |sessions|
  {
    seq(|sessions|, t requires 0 <= t < |sessions| => Slot(sessions[t]))
  }

  /** Logins one at a time keep the keys distinct in every run, so that a raid started at any
      moment takes a snapshot of distinct keys. */
  lemma {:induction false} SerialLogins(sessions: seq<Session>, actions: seq<Action>)
    requires OneOnTheWay(sessions) && SerialRun(sessions, actions)
    ensures OneEach(After(sessions, actions)) && Distinct(R.ActiveKeys(Table(After(sessions, actions))))
    decreases |actions|
  {
    hide Step, Serial, R.ActiveKeys, Slot;
    if actions == [] {
      TableDistinct(sessions);
    } else {
      SerialKeeps(sessions, actions[0]);
      SerialLogins(Step(sessions, actions[0]), actions[1..]);
    }
  }

  lemma TableDistinct(sessions: seq<Session>)
    requires OneEach(sessions)
    ensures Distinct(R.ActiveKeys(Table(sessions)))
  {
    hide R.ActiveKeys;
    R.ActiveDistinct(Table(sessions));
  }

  /** Two clients that are both tested before either enters have the same key active twice. */
  lemma LoginRace(key: Key) returns (actions: seq<Action>)
    requires key != ""
    ensures After([], actions) == [In(key), In(key)]
  {
    hide After;
    var tests, entries := [Connect, Connect, Check(0, key)], [Check(1, key), Enter(0, false), Enter(1, false)];
    AfterThree([], Connect, Connect, Check(0, key), entries);
    assert Step(Step(Step([], Connect), Connect), Check(0, key)) == [Passed(key), Waiting];
    assert Step([Passed(key), Waiting], Check(1, key)) == [Passed(key), Passed(key)];
    assert Step([Passed(key), Passed(key)], Enter(0, false)) == [In(key), Passed(key)];
    assert Step([In(key), Passed(key)], Enter(1, false)) == [In(key), In(key)];
    AfterThree([Passed(key), Waiting], Check(1, key), Enter(0, false), Enter(1, false), []);
    assert entries + [] == entries;
    AfterNone([In(key), In(key)]);
    actions := tests + entries;
  }

  lemma AfterThree(s: seq<Session>, a: Action, b: Action, c: Action, rest: seq<Action>)
    ensures After(s, [a, b, c] + rest) == After(Step(Step(Step(s, a), b), c), rest)
  {
    hide Step, After;
    AfterOne(s, a, [b] + ([c] + rest));
    AfterOne(Step(s, a), b, [c] + rest);
    AfterOne(Step(Step(s, a), b), c, rest);
    assert [a, b, c] + rest == [a] + ([b] + ([c] + rest));
  }

  lemma AfterOne(s: seq<Session>, a: Action, rest: seq<Action>)
    ensures After(s, [a] + rest) == After(Step(s, a), rest)
  {
    hide Step;
    assert ([a] + rest)[1..] == rest;
  }

  lemma AfterNone(s: seq<Session>)
    ensures After(s, []) == s
  {
  }
}
