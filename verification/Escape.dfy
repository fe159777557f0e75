// The debt ladder of server_main.c: each escape raises the goal of the others up to
// a cap, notes when the cap was reached and logs the first three escapes.
module Escape {
  import opened Prelude

  const DEBT_RAISE_STEP := 2000
  const DEBT_CAP := 14000

  datatype EscapeEntry = EscapeEntry(key: Key, moneyAtEscape: int, order: int)

  const NO_ENTRY := EscapeEntry("", 0, 0)

  /** g_goal_money, g_escaped_count, g_cap_reached_at (0 is "not reached") and the log. */
  datatype Ladder = Ladder(goal: int, escaped: nat, capAt: int, log: seq<EscapeEntry>)

  function NewLadder(): Ladder {
    Ladder(GOAL_MONEY, 0, 0, seq(MAX_SCORE_ESCAPED, _ => NO_ENTRY))
  }

  /** What handle_payoff does under the round lock once the balance suffices. */
  function Climb(l: Ladder, key: Key, now: int): Ladder
    requires |l.log| == MAX_SCORE_ESCAPED
  {
    var raised := l.goal + DEBT_RAISE_STEP;
    var next := if raised > DEBT_CAP then DEBT_CAP else raised;
    var order := l.escaped + 1;
    Ladder(next, order,
           if next == DEBT_CAP && l.capAt == 0 then now else l.capAt,
           if order <= MAX_SCORE_ESCAPED then l.log[order - 1 := EscapeEntry(key, l.goal, order)] else l.log)
  }

  /** An escape as it was made: by whom, and when. */
  datatype Made = Made(key: Key, at: int)

  /** The goal after n escapes. */
  function GoalAfter(n: nat): int {
    if n == 0 then 10000 else if n == 1 then 12000 else 14000
  }

  /** What the ladder of a round says about the escapes made in it, in order: how many, the goal,
      the time of the second one, with which the cap was reached, and the first three of them,
      each with the goal that it paid. */
  ghost predicate Tells(l: Ladder, made: seq<Made>) {
    && l.escaped == |made|
    && l.goal == GoalAfter(|made|)
    && (forall i :: 0 <= i < |made| ==> made[i].at != 0)
    && l.capAt == (if |made| >= 2 then made[1].at else 0)
    && |l.log| == 3
    && forall i :: 0 <= i < 3 ==>
      l.log[i] == if i < |made| then EscapeEntry(made[i].key, GoalAfter(i), i + 1) else EscapeEntry("", 0, 0)
  }

  lemma ClimbTells(l: Ladder, made: seq<Made>, key: Key, now: int)
    requires Tells(l, made) && now != 0
    ensures Tells(Climb(l, key, now), made + [Made(key, now)])
  {
  }

  lemma NewLadderTells()
    ensures Tells(NewLadder(), [])
  {
  }
}
