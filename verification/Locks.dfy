// Deadlock freedom. Threads run programs made of locking, unlocking, choice, loops and
// thread creation; a check of the programs by one strict lock order is shown sound for
// any number of threads, and the server's programs pass it.
module Locks {

  /** The seven mutexes of the server, in the order in which they may be nested. */
  datatype Mutex = RaidMutex | RumorMutex | RoundMutex | MarketMutex | NpcMutex | ClientsMutex | UserDbMutex

  function Rank(m: Mutex): (rank: nat)
    ensures rank < 7
  {
    match m
    case RaidMutex => 0
    case RumorMutex => 1
    case RoundMutex => 2
    case MarketMutex => 3
    case NpcMutex => 4
    case ClientsMutex => 5
    case UserDbMutex => 6
  }

  /** What a program does with locks; everything else it does is Skip. The outcome of
      conditions is open: a choice may go either way, a loop may run any number of times. */
  datatype Code =
    | Skip
    | Lock(m: Mutex)
    | Unlock(m: Mutex)
    | Both(first: Code, second: Code)
    | Either(left: Code, right: Code)
    | Loop(body: Code)
    | Spawn(child: Code)

  datatype Work = Done | Then(code: Code, rest: Work)

  /** The mutexes a thread holds, the last one taken on top. */
  datatype Held = Nothing | Over(m: Mutex, below: Held)

  predicate In(m: Mutex, held: Held) {
    held.Over? && (held.m == m || In(m, held.below))
  }

  function Without(held: Held, m: Mutex): (rest: Held)
    ensures forall h :: In(h, rest) ==> In(h, held)
  {
    if held == Nothing then Nothing
    else if held.m == m then held.below
    else Over(held.m, Without(held.below, m))
  }

  datatype Thread = Thread(work: Work, held: Held)

  // Running.

  predicate Taken(threads: seq<Thread>, m: Mutex) {
    exists t :: 0 <= t < |threads| && In(m, threads[t].held)
  }

  /** The thread waits for a mutex that some thread holds, itself included. */
  predicate Blocked(threads: seq<Thread>, t: nat)
    requires t < |threads|
  {
    threads[t].work.Then? && threads[t].work.code.Lock? && Taken(threads, threads[t].work.code.m)
  }

  predicate CanStep(threads: seq<Thread>, t: nat)
    requires t < |threads|
  {
    threads[t].work.Then? && !Blocked(threads, t)
  }

  /** One step of thread t; the choice decides branches, loop exits and whether a thread
      can be created. A thread that cannot step stays where it is. */
  function Step(threads: seq<Thread>, t: nat, choice: bool): (after: seq<Thread>)
    requires t < |threads|
  {
    if !CanStep(threads, t) then threads
    else
      var Thread(work, held) := threads[t];
      var rest := work.rest;
      match work.code
      case Skip => threads[t := Thread(rest, held)]
      case Lock(m) => threads[t := Thread(rest, Over(m, held))]
      case Unlock(m) => threads[t := Thread(rest, Without(held, m))]
      case Both(a, b) => threads[t := Thread(Then(a, Then(b, rest)), held)]
      case Either(a, b) => threads[t := Thread(Then(if choice then a else b, rest), held)]
      case Loop(body) => threads[t := Thread(if choice then Then(body, work) else rest, held)]
      case Spawn(child) =>
        if choice then threads[t := Thread(rest, held)] + [Thread(Then(child, Done), Nothing)]
        else threads[t := Thread(rest, held)]
  }

  // The check.

  datatype Verdict = Rejected | Holding(held: Held)

  predicate Above(m: Mutex, held: Held) {
    held == Nothing || (Rank(held.m) < Rank(m) && Above(m, held.below))
  }

  /** What a program holds at its end when it starts with some mutexes held. It is rejected
      if it locks out of order, unlocks what it does not hold, or if its paths disagree. */
  function Check(code: Code, held: Held): Verdict
    decreases code
  {
    match code
    case Skip => Holding(held)
    case Lock(m) => if Above(m, held) then Holding(Over(m, held)) else Rejected
    case Unlock(m) => if held.Over? && held.m == m then Holding(held.below) else Rejected
    case Both(a, b) =>
      (match Check(a, held)
       case Rejected => Rejected
       case Holding(mid) => Check(b, mid))
    case Either(a, b) => if Check(a, held) == Check(b, held) then Check(a, held) else Rejected
    case Loop(body) => if Check(body, held) == Holding(held) then Holding(held) else Rejected
    case Spawn(child) => if Check(child, Nothing) == Holding(Nothing) then Holding(held) else Rejected
  }

  function CheckWork(work: Work, held: Held): Verdict {
    match work
    case Done => Holding(held)
    case Then(code, rest) =>
      match Check(code, held)
      case Rejected => Rejected
      case Holding(mid) => CheckWork(rest, mid)
  }

  /** The mutexes held when one more is locked. */
  function Pairs(held: Held, m: Mutex): set<(Mutex, Mutex)> {
    if held.Over? then {(held.m, m)} + Pairs(held.below, m) else {}
  }

  /** Every pair of mutexes of which the program locks the second while it holds the first. */
  function Nests(code: Code, held: Held): set<(Mutex, Mutex)>
    decreases code
  {
    match code
    case Lock(m) => Pairs(held, m)
    case Both(a, b) => Nests(a, held) + (if Check(a, held).Holding? then Nests(b, Check(a, held).held) else {})
    case Either(a, b) => Nests(a, held) + Nests(b, held)
    case Loop(body) => Nests(body, held)
    case Spawn(child) => Nests(child, Nothing)
    case _ => {}
  }

  function NestsWork(work: Work, held: Held): set<(Mutex, Mutex)> {
    match work
    case Done => {}
    case Then(code, rest) =>
      Nests(code, held) + (if Check(code, held).Holding? then NestsWork(rest, Check(code, held).held) else {})
  }

  /** The thread will run in order and release everything. */
  predicate Disciplined(thread: Thread) {
    CheckWork(thread.work, thread.held) == Holding(Nothing)
  }

  ghost predicate Inv(threads: seq<Thread>) {
    && (forall t :: 0 <= t < |threads| ==> Disciplined(threads[t]))
    && (forall t, u :: 0 <= t < |threads| && 0 <= u < |threads| && t != u ==> forall m :: !(In(m, threads[t].held) && In(m, threads[u].held)))
  }

  // Soundness.

  lemma DisciplineKept(threads: seq<Thread>, t: nat, choice: bool)
    requires t < |threads| && Disciplined(threads[t])
    ensures Disciplined(Step(threads, t, choice)[t])
    ensures |Step(threads, t, choice)| > |threads| ==> Disciplined(Step(threads, t, choice)[|threads|])
  {
  }

  lemma HeldAfter(threads: seq<Thread>, t: nat, choice: bool)
    requires t < |threads|
    ensures var after := Step(threads, t, choice);
      && |threads| <= |after| <= |threads| + 1
      && (forall u :: 0 <= u < |threads| && u != t ==> after[u] == threads[u])
      && (|after| > |threads| ==> after[|threads|].held == Nothing)
      && (forall m :: In(m, after[t].held) ==> In(m, threads[t].held) || !Taken(threads, m))
  {
  }

  lemma StepKeeps(threads: seq<Thread>, t: nat, choice: bool)
    requires Inv(threads) && t < |threads|
    ensures Inv(Step(threads, t, choice))
  {
    hide Step, Disciplined;
    DisciplineKept(threads, t, choice);
    HeldAfter(threads, t, choice);
    var after := Step(threads, t, choice);
    forall u, v, m | 0 <= u < |after| && 0 <= v < |after| && u != v && In(m, after[u].held) ensures !In(m, after[v].held) {
      if u == t && v < |threads| {
        assert !In(m, threads[v].held);
      } else if v == t && u < |threads| {
        assert Taken(threads, m) && !In(m, threads[t].held);
      }
    }
  }

  /** What a disciplined thread holds and wants is in order. */
  lemma WantsAbove(thread: Thread)
    requires Disciplined(thread) && thread.work.Then? && thread.work.code.Lock?
    ensures Above(thread.work.code.m, thread.held)
  {
  }

  lemma {:induction false} AboveAll(m: Mutex, held: Held, h: Mutex)
    requires Above(m, held) && In(h, held)
    ensures Rank(h) < Rank(m)
  {
    if held.m != h {
      AboveAll(m, held.below, h);
    }
  }

  /** Behind every blocked thread stands a lock holder that can move: waiting chains climb
      the lock order, so they end. */
  lemma {:induction false} SomeHolderMoves(threads: seq<Thread>, t: nat) returns (u: nat)
    requires Inv(threads) && t < |threads| && Blocked(threads, t)
    ensures u < |threads| && u != t && threads[u].held != Nothing && CanStep(threads, u)
    decreases 7 - Rank(threads[t].work.code.m)
  {
    var m := threads[t].work.code.m;
    WantsAbove(threads[t]);
    u :| 0 <= u < |threads| && In(m, threads[u].held);
    assert threads[u].work.Then?;
    if Blocked(threads, u) {
      WantsAbove(threads[u]);
      AboveAll(threads[u].work.code.m, threads[u].held, m);
      var v := SomeHolderMoves(threads, u);
      HolderIsNot(threads, t, v);
      u := v;
    }
  }

  lemma HolderIsNot(threads: seq<Thread>, t: nat, v: nat)
    requires t < |threads| && v < |threads| && Blocked(threads, t) && CanStep(threads, v)
    ensures v != t
  {
  }

  /** A run: which thread steps next, and how its choice falls. */
  function After(threads: seq<Thread>, schedule: seq<(nat, bool)>): seq<Thread>
    decreases |schedule|
  {
    if schedule == [] then threads
    else
      var (t, choice) := schedule[0];
      After(if t < |threads| then Step(threads, t, choice) else threads, schedule[1..])
  }

  lemma {:induction false} RunKeeps(threads: seq<Thread>, schedule: seq<(nat, bool)>)
    requires Inv(threads)
    ensures Inv(After(threads, schedule))
    decreases |schedule|
  {
    hide Step, Inv;
    if schedule != [] {
      var (t, choice) := schedule[0];
      if t < |threads| {
        StepKeeps(threads, t, choice);
      }
      RunKeeps(if t < |threads| then Step(threads, t, choice) else threads, schedule[1..]);
    }
  }

  ghost predicate NestsWithin(threads: seq<Thread>, pairs: set<(Mutex, Mutex)>) {
    forall t :: 0 <= t < |threads| ==> NestsWork(threads[t].work, threads[t].held) <= pairs
  }

  lemma NestsKept(threads: seq<Thread>, t: nat, choice: bool)
    requires t < |threads| && Disciplined(threads[t])
    ensures NestsWork(Step(threads, t, choice)[t].work, Step(threads, t, choice)[t].held) <= NestsWork(threads[t].work, threads[t].held)
    ensures |Step(threads, t, choice)| > |threads| ==>
      NestsWork(Step(threads, t, choice)[|threads|].work, Step(threads, t, choice)[|threads|].held)
      <= NestsWork(threads[t].work, threads[t].held)
  {
  }

  lemma {:induction false} RunNests(threads: seq<Thread>, schedule: seq<(nat, bool)>, pairs: set<(Mutex, Mutex)>)
    requires Inv(threads) && NestsWithin(threads, pairs)
    ensures NestsWithin(After(threads, schedule), pairs)
    decreases |schedule|
  {
    hide Step, NestsWork, Disciplined;
    if schedule != [] {
      var (t, choice) := schedule[0];
      if t < |threads| {
        StepKeeps(threads, t, choice);
        NestsKept(threads, t, choice);
        HeldAfter(threads, t, choice);
      }
      RunNests(if t < |threads| then Step(threads, t, choice) else threads, schedule[1..], pairs);
    }
  }

  lemma {:induction false} PairsHave(held: Held, h: Mutex, m: Mutex)
    ensures (h, m) in Pairs(held, m) <==> In(h, held)
  {
    if held.Over? {
      PairsHave(held.below, h, m);
    }
  }

  // The programs of the server.

  /** Up to ten programs in turn. */
  function Do(a: Code, b: Code, c: Code := Skip, d: Code := Skip, e: Code := Skip, f: Code := Skip, g: Code := Skip,
              h: Code := Skip, i: Code := Skip, j: Code := Skip): Code
  {
    Both(a, Both(b, Both(c, Both(d, Both(e, Both(f, Both(g, Both(h, Both(i, j)))))))))
  }

  /** The ends of a function that unlocks before each of its n returns. */
  function Exits(m: Mutex, n: nat): Code {
    if n <= 1 then Unlock(m) else Either(Unlock(m), Exits(m, n - 1))
  }

  function Section(m: Mutex, exits: nat := 1): Code {
    Both(Lock(m), Exits(m, exits))
  }

  const READ_MASK := Section(MarketMutex)
  const MARKET_ADD := Section(MarketMutex, 2)
  const MARKET_FIND := Section(MarketMutex, 2)
  const MARKET_TAKE := Section(MarketMutex, 3)
  const NPC_ADD := Section(NpcMutex, 2)
  const NPC_FIND := Section(NpcMutex, 2)
  const NPC_TAKE := Section(NpcMutex, 2)
  const MARKET_INIT := Both(Section(MarketMutex), Section(NpcMutex))

  const USER_FIND := Section(UserDbMutex, 2)
  const USER_APPEND := Section(UserDbMutex, 4)
  const USER_UPDATE := Section(UserDbMutex, 4)
  const USER_BURN := Section(UserDbMutex, 6)
  const USER_RESET := Section(UserDbMutex, 3)

  const BROADCAST := Section(ClientsMutex)
  const UNICAST := Section(ClientsMutex)

  const SEED := Do(Loop(MARKET_ADD), NPC_ADD, NPC_ADD)

  const ROUND_RESET := Do(
    USER_RESET, MARKET_INIT, Section(RoundMutex), Section(RumorMutex), SEED, BROADCAST,
    Section(MarketMutex), Loop(BROADCAST), Section(NpcMutex), Loop(BROADCAST))

  const ROUND_TIMER := Both(Section(RoundMutex), Either(ROUND_RESET, Skip))

  const ROUND_END := Both(Lock(RoundMutex), Either(
    Unlock(RoundMutex),
    Do(Unlock(RoundMutex), Section(RoundMutex), Section(ClientsMutex), Loop(Either(USER_FIND, Skip)),
       BROADCAST, BROADCAST, Either(Spawn(ROUND_TIMER), Section(RoundMutex)))))

  const BURN := Do(USER_FIND, Either(USER_BURN, Skip), UNICAST)

  const RAID_TIMER := Both(Section(RaidMutex), Loop(BURN))

  /** The one place where the clients are locked while the raid is. */
  const FIRE_RAID := Both(Lock(RaidMutex), Either(
    Unlock(RaidMutex),
    Do(Section(ClientsMutex), Unlock(RaidMutex),
       Either(Section(RaidMutex),
              Do(BROADCAST, BROADCAST, Either(Spawn(RAID_TIMER), Section(RaidMutex)))))))

  const SELF_RAID := Both(Lock(RaidMutex), Either(
    Unlock(RaidMutex),
    Both(Unlock(RaidMutex), Either(Spawn(RAID_TIMER), Section(RaidMutex)))))

  const LEAK_TIMER := Both(Section(MarketMutex), BROADCAST)

  const LEAK := Do(READ_MASK, Section(MarketMutex), Either(
    Skip,
    Do(Section(MarketMutex), BROADCAST, Either(Section(MarketMutex), Either(Spawn(LEAK_TIMER), Section(MarketMutex))))))

  const BUY := Both(MARKET_FIND, Either(
    Skip,
    Both(USER_FIND, Either(
      Skip,
      Both(MARKET_TAKE, Either(Skip, Either(MARKET_ADD, Both(USER_UPDATE, BROADCAST))))))))

  const SELL := Either(
    Skip,
    Do(NPC_FIND, Loop(Either(READ_MASK, Skip)), Either(
      Skip,
      Both(NPC_TAKE, Either(Skip, Do(USER_FIND, USER_UPDATE, BROADCAST))))))

  const PAYOFF := Both(USER_FIND, Either(
    Skip,
    Both(Lock(RoundMutex), Either(
      Unlock(RoundMutex),
      Do(Unlock(RoundMutex), USER_UPDATE, BROADCAST, BROADCAST, Either(ROUND_END, Skip))))))

  const RICH := Both(USER_FIND, Either(Skip, Do(Section(RoundMutex), USER_UPDATE, Loop(READ_MASK))))

  const SUBMIT := Both(Section(RaidMutex), Either(Both(Section(RaidMutex), Either(BURN, Skip)), Skip))

  const INVENTORY := Both(Loop(READ_MASK), USER_FIND)

  /** The account is looked up and charged while the rumor lock is held. */
  const RUMOR := Both(Lock(RumorMutex), Either(
    Unlock(RumorMutex),
    Both(USER_FIND, Either(
      Unlock(RumorMutex),
      Either(Unlock(RumorMutex), Do(USER_UPDATE, Unlock(RumorMutex), UNICAST, INVENTORY))))))

  const BANKRUPTCY := Both(USER_FIND, Either(USER_BURN, Skip))

  const LOGIN := Both(Section(ClientsMutex), Either(
    Skip,
    Do(USER_FIND, Either(USER_APPEND, Skip), Either(
      Skip,
      Do(Section(ClientsMutex), Section(RoundMutex), Section(MarketMutex), Section(NpcMutex), READ_MASK)))))

  const REQUEST := Either(Either(PAYOFF, BROADCAST), Either(SUBMIT, Either(SELF_RAID, Either(LEAK, Either(RICH,
    Either(ROUND_END, Either(Both(BUY, BANKRUPTCY), Either(SELL, Either(INVENTORY, Either(Both(RUMOR, BANKRUPTCY), Skip))))))))))

  const CLIENT := Do(Loop(Either(LOGIN, Skip)), Loop(REQUEST), Section(ClientsMutex))

  const SPAWN_MARKET := Both(Section(MarketMutex, 2), Either(
    Skip,
    Both(READ_MASK, Either(Skip, Both(MARKET_ADD, Either(Skip, BROADCAST))))))

  const SPAWN_NPC := Both(Section(NpcMutex, 2), Either(
    Skip,
    Both(READ_MASK, Either(Skip, Do(BROADCAST, NPC_ADD, Either(Skip, BROADCAST))))))

  const AGE_BOARDS := Do(Section(NpcMutex), Loop(BROADCAST), Section(MarketMutex), Loop(BROADCAST))

  const TICK := Do(
    Section(RoundMutex), Either(ROUND_END, Skip), AGE_BOARDS,
    Either(FIRE_RAID, Skip), Either(LEAK, Skip), Either(SPAWN_MARKET, Skip),
    Either(Spawn(SPAWN_NPC), Skip), Either(BROADCAST, Skip))

  /** The server: seeds, the event thread, and a client thread for every accepted socket,
      created while the client table is locked. */
  const SERVER := Do(
    MARKET_INIT, SEED, Spawn(Loop(TICK)),
    Loop(Do(Lock(ClientsMutex), Either(Spawn(CLIENT), Skip), Unlock(ClientsMutex))))

  // They pass the check.

  /** The only two mutexes that are locked while another one is held. */
  const NESTINGS: set<(Mutex, Mutex)> := {(RaidMutex, ClientsMutex), (RumorMutex, UserDbMutex)}

  predicate MayLock(m: Mutex, held: Held) {
    Above(m, held) && Pairs(held, m) <= NESTINGS
  }

  /** Run with these mutexes held, the program ends with the same ones held, and nests no others. */
  predicate Neutral(code: Code, held: Held) {
    Check(code, held) == Holding(held) && Nests(code, held) <= NESTINGS
  }

  /** Run with one more mutex held, the program ends without it, and nests no others. */
  predicate Releases(code: Code, m: Mutex, held: Held) {
    Check(code, Over(m, held)) == Holding(held) && Nests(code, Over(m, held)) <= NESTINGS
  }

  lemma LockRule(m: Mutex, body: Code, held: Held)
    requires MayLock(m, held) && Releases(body, m, held)
    ensures Neutral(Both(Lock(m), body), held)
  {
    assert Check(Lock(m), held) == Holding(Over(m, held));
    assert Nests(Lock(m), held) == Pairs(held, m);
  }

  lemma {:induction false} ExitsRelease(m: Mutex, n: nat, held: Held)
    ensures Releases(Exits(m, n), m, held)
  {
    if n > 1 {
      ExitsRelease(m, n - 1, held);
    }
  }

  lemma NeutralRules(held: Held)
    ensures Neutral(Skip, held)
    ensures forall a, b :: Neutral(a, held) && Neutral(b, held) ==> Neutral(Both(a, b), held)
    ensures forall a, b :: Neutral(a, held) && Neutral(b, held) ==> Neutral(Either(a, b), held)
    ensures forall a :: Neutral(a, held) ==> Neutral(Loop(a), held)
    ensures forall a :: Neutral(a, Nothing) ==> Neutral(Spawn(a), held)
  {
  }

  lemma ReleaseRules(held: Held)
    ensures forall m :: Releases(Unlock(m), m, held)
    ensures forall m, a, b :: Releases(a, m, held) && Releases(b, m, held) ==> Releases(Either(a, b), m, held)
    ensures forall m, a, b :: Neutral(a, Over(m, held)) && Releases(b, m, held) ==> Releases(Both(a, b), m, held)
    ensures forall m, a, b :: Releases(a, m, held) && Neutral(b, held) ==> Releases(Both(a, b), m, held)
  {
  }

  lemma SectionRules(held: Held)
    ensures forall m, body :: MayLock(m, held) && Releases(body, m, held) ==> Neutral(Both(Lock(m), body), held)
    ensures forall m, n :: MayLock(m, held) ==> Neutral(Section(m, n), held)
  {
    hide Neutral, Releases;
    forall m, body | MayLock(m, held) && Releases(body, m, held) ensures Neutral(Both(Lock(m), body), held) {
      LockRule(m, body, held);
    }
    forall m, n | MayLock(m, held) ensures Neutral(Section(m, n), held) {
      ExitsRelease(m, n, held);
      LockRule(m, Exits(m, n), held);
    }
  }

  lemma Rules(held: Held)
    ensures Neutral(Skip, held)
    ensures forall a, b :: Neutral(a, held) && Neutral(b, held) ==> Neutral(Both(a, b), held)
    ensures forall a, b :: Neutral(a, held) && Neutral(b, held) ==> Neutral(Either(a, b), held)
    ensures forall a :: Neutral(a, held) ==> Neutral(Loop(a), held)
    ensures forall a :: Neutral(a, Nothing) ==> Neutral(Spawn(a), held)
    ensures forall m, body :: MayLock(m, held) && Releases(body, m, held) ==> Neutral(Both(Lock(m), body), held)
    ensures forall m, n :: MayLock(m, held) ==> Neutral(Section(m, n), held)
    ensures forall m :: Releases(Unlock(m), m, held)
    ensures forall m, a, b :: Releases(a, m, held) && Releases(b, m, held) ==> Releases(Either(a, b), m, held)
    ensures forall m, a, b :: Neutral(a, Over(m, held)) && Releases(b, m, held) ==> Releases(Both(a, b), m, held)
    ensures forall m, a, b :: Releases(a, m, held) && Neutral(b, held) ==> Releases(Both(a, b), m, held)
  {
    hide Neutral, Releases, Section;
    NeutralRules(held);
    ReleaseRules(held);
    SectionRules(held);
  }

  lemma MayLocks()
    ensures forall m :: MayLock(m, Nothing)
    ensures MayLock(ClientsMutex, Over(RaidMutex, Nothing)) && MayLock(UserDbMutex, Over(RumorMutex, Nothing))
  {
  }

  lemma UserDbNeutral(held: Held)
    requires MayLock(UserDbMutex, held)
    ensures Neutral(USER_FIND, held) && Neutral(USER_UPDATE, held) && Neutral(USER_APPEND, held)
    ensures Neutral(USER_BURN, held) && Neutral(USER_RESET, held)
  {
    hide Neutral, Releases, Section, MayLock;
    MayLocks();
    Rules(held);
  }

  lemma BoardsNeutral()
    ensures Neutral(READ_MASK, Nothing) && Neutral(MARKET_ADD, Nothing) && Neutral(MARKET_FIND, Nothing) && Neutral(MARKET_TAKE, Nothing)
    ensures Neutral(NPC_ADD, Nothing) && Neutral(NPC_FIND, Nothing) && Neutral(NPC_TAKE, Nothing) && Neutral(MARKET_INIT, Nothing)
    ensures Neutral(BROADCAST, Nothing) && Neutral(UNICAST, Nothing) && Neutral(SEED, Nothing)
  {
    hide Neutral, Releases, Section, MayLock;
    MayLocks();
    Rules(Nothing);
  }

  lemma RoundNeutral()
    ensures Neutral(ROUND_RESET, Nothing) && Neutral(ROUND_TIMER, Nothing) && Neutral(ROUND_END, Nothing)
  {
    hide Neutral, Releases, Section, MayLock;
    MayLocks();
    Rules(Nothing);
    UserDbNeutral(Nothing);
    BoardsNeutral();
  }

  lemma RaidNeutral()
    ensures Neutral(BURN, Nothing) && Neutral(RAID_TIMER, Nothing) && Neutral(FIRE_RAID, Nothing) && Neutral(SELF_RAID, Nothing)
  {
    hide Neutral, Releases, Section, MayLock;
    MayLocks();
    Rules(Nothing);
    Rules(Over(RaidMutex, Nothing));
    UserDbNeutral(Nothing);
    BoardsNeutral();
  }

  lemma LeakNeutral()
    ensures Neutral(LEAK_TIMER, Nothing) && Neutral(LEAK, Nothing)
  {
    hide Neutral, Releases, Section, MayLock;
    MayLocks();
    Rules(Nothing);
    BoardsNeutral();
  }

  lemma RumorNeutral()
    ensures Neutral(INVENTORY, Nothing) && Neutral(RUMOR, Nothing)
  {
    hide Neutral, Releases, Section, MayLock;
    MayLocks();
    Rules(Nothing);
    UserDbNeutral(Nothing);
    UserDbNeutral(Over(RumorMutex, Nothing));
    BoardsNeutral();
  }

  lemma HandlersNeutral()
    ensures Neutral(BUY, Nothing) && Neutral(SELL, Nothing) && Neutral(PAYOFF, Nothing) && Neutral(RICH, Nothing)
    ensures Neutral(SUBMIT, Nothing) && Neutral(BANKRUPTCY, Nothing) && Neutral(LOGIN, Nothing)
  {
    hide Neutral, Releases, Section, MayLock;
    MayLocks();
    Rules(Nothing);
    UserDbNeutral(Nothing);
    BoardsNeutral();
    RoundNeutral();
    RaidNeutral();
  }

  lemma ClientNeutral()
    ensures Neutral(REQUEST, Nothing) && Neutral(CLIENT, Nothing)
  {
    hide Neutral, Releases, Section, MayLock;
    MayLocks();
    Rules(Nothing);
    BoardsNeutral();
    HandlersNeutral();
    RoundNeutral();
    RaidNeutral();
    LeakNeutral();
    RumorNeutral();
  }

  lemma TickNeutral()
    ensures Neutral(SPAWN_MARKET, Nothing) && Neutral(SPAWN_NPC, Nothing) && Neutral(TICK, Nothing)
  {
    hide Neutral, Releases, Section, MayLock;
    MayLocks();
    Rules(Nothing);
    BoardsNeutral();
    RoundNeutral();
    RaidNeutral();
    LeakNeutral();
  }

  lemma ServerNeutral()
    ensures Neutral(SERVER, Nothing)
  {
    hide Neutral, Releases, Section, MayLock;
    MayLocks();
    Rules(Nothing);
    Rules(Over(ClientsMutex, Nothing));
    BoardsNeutral();
    ClientNeutral();
    TickNeutral();
  }

  /** In every reachable state of the server, with whatever threads it has started by then:
      no mutex is held twice, a thread that is done holds nothing, and a blocked thread
      means that some other thread holds a mutex and can move. */
  lemma ServerNeverDeadlocks(schedule: seq<(nat, bool)>)
    ensures var threads := After([Thread(Then(SERVER, Done), Nothing)], schedule);
      && (forall t, u, m :: 0 <= t < |threads| && 0 <= u < |threads| && t != u && In(m, threads[t].held) ==> !In(m, threads[u].held))
      && (forall t :: 0 <= t < |threads| && threads[t].work == Done ==> threads[t].held == Nothing)
      && (forall t :: 0 <= t < |threads| && Blocked(threads, t) ==>
            exists u :: 0 <= u < |threads| && u != t && threads[u].held != Nothing && CanStep(threads, u))
  {
    hide Step, After, Blocked, CanStep, Check, Neutral;
    var start := [Thread(Then(SERVER, Done), Nothing)];
    ServerNeutral();
    NeutralStarts(SERVER);
    RunKeeps(start, schedule);
    var threads := After(start, schedule);
    forall t | 0 <= t < |threads| && Blocked(threads, t)
      ensures exists u :: 0 <= u < |threads| && u != t && threads[u].held != Nothing && CanStep(threads, u)
    {
      var u := SomeHolderMoves(threads, t);
    }
  }

  /** In every reachable state, a thread that is about to lock a mutex holds no other one, but for the
      clients under the raid and the accounts under the rumor. */
  lemma OnlyTwoNestings(schedule: seq<(nat, bool)>, t: nat, h: Mutex)
    ensures var threads := After([Thread(Then(SERVER, Done), Nothing)], schedule);
      t < |threads| && threads[t].work.Then? && threads[t].work.code.Lock? && In(h, threads[t].held) ==>
        (h, threads[t].work.code.m) in {(RaidMutex, ClientsMutex), (RumorMutex, UserDbMutex)}
  {
    hide Step, After, Check, Nests;
    var start := [Thread(Then(SERVER, Done), Nothing)];
    ServerNeutral();
    NeutralStarts(SERVER);
    NeutralNests(SERVER);
    RunNests(start, schedule, NESTINGS);
    var threads := After(start, schedule);
    if t < |threads| && threads[t].work.Then? && threads[t].work.code.Lock? && In(h, threads[t].held) {
      WantsNest(threads[t], h);
      assert NestsWork(threads[t].work, threads[t].held) <= NESTINGS;
    }
  }

  lemma WantsNest(thread: Thread, h: Mutex)
    requires thread.work.Then? && thread.work.code.Lock? && In(h, thread.held)
    ensures (h, thread.work.code.m) in NestsWork(thread.work, thread.held)
  {
    PairsHave(thread.held, h, thread.work.code.m);
  }

  lemma NeutralNests(code: Code)
    requires Neutral(code, Nothing)
    ensures NestsWithin([Thread(Then(code, Done), Nothing)], NESTINGS)
  {
    assert NestsWork(Done, Nothing) == {};
    assert NestsWork(Then(code, Done), Nothing) == Nests(code, Nothing) + {};
  }

  lemma NeutralStarts(code: Code)
    requires Neutral(code, Nothing)
    ensures Inv([Thread(Then(code, Done), Nothing)])
  {
    assert CheckWork(Done, Nothing) == Holding(Nothing);
    assert CheckWork(Then(code, Done), Nothing) == Holding(Nothing);
  }

  /** The order matters: two programs that nest a pair of mutexes both ways are rejected, and
      rightly, because they can block each other for ever. */
  lemma CrossedNestingDeadlocks(a: Mutex, b: Mutex)
    requires a != b
    ensures var crossed := After([Thread(Then(Both(Lock(a), Lock(b)), Done), Nothing), Thread(Then(Both(Lock(b), Lock(a)), Done), Nothing)],
                                 [(0, true), (0, true), (1, true), (1, true)]);
      |crossed| == 2 && Blocked(crossed, 0) && Blocked(crossed, 1)
  {
  }
}
