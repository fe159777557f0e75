// How many critical sections on which mutex the program of each thread has, and which of them
// lie under another.
module LockUses {
  import opened Locks

  /** The critical sections on the mutex, those of threads that it starts included. */
  function Sites(code: Code, m: Mutex): nat {
    match code
    case Lock(n) => if n == m then 1 else 0
    case Both(a, b) => Sites(a, m) + Sites(b, m)
    case Either(a, b) => Sites(a, m) + Sites(b, m)
    case Loop(body) => Sites(body, m)
    case Spawn(child) => Sites(child, m)
    case _ => 0
  }

  /** On some path the program unlocks the mutex. */
  predicate Frees(code: Code, h: Mutex) {
    match code
    case Unlock(n) => n == h
    case Both(a, b) => Frees(a, h) || Frees(b, h)
    case Either(a, b) => Frees(a, h) || Frees(b, h)
    case Loop(body) => Frees(body, h)
    case _ => false
  }

  /** The critical sections on the mutex that lie before the other one is unlocked. */
  function SitesBefore(code: Code, m: Mutex, h: Mutex): nat {
    match code
    case Lock(n) => if n == m then 1 else 0
    case Both(a, b) => SitesBefore(a, m, h) + (if Frees(a, h) then 0 else SitesBefore(b, m, h))
    case Either(a, b) => SitesBefore(a, m, h) + SitesBefore(b, m, h)
    case Loop(body) => SitesBefore(body, m, h)
    case _ => 0
  }

  lemma {:induction false} ExitsSites(k: Mutex, n: nat, m: Mutex)
    ensures Sites(Exits(k, n), m) == 0
  {
    if n > 1 {
      ExitsSites(k, n - 1, m);
    }
  }

  lemma BothSites(a: Code, b: Code, m: Mutex)
    ensures Sites(Both(a, b), m) == Sites(a, m) + Sites(b, m)
  {
  }

  lemma DoSites(a: Code, b: Code, c: Code, d: Code, e: Code, f: Code, g: Code, h: Code, i: Code, j: Code, m: Mutex)
    ensures Sites(Do(a, b, c, d, e, f, g, h, i, j), m)
      == Sites(a, m) + Sites(b, m) + Sites(c, m) + Sites(d, m) + Sites(e, m) + Sites(f, m) + Sites(g, m) + Sites(h, m)
         + Sites(i, m) + Sites(j, m)
  {
    hide Sites;
    BothSites(i, j, m);
    BothSites(h, Both(i, j), m);
    BothSites(g, Both(h, Both(i, j)), m);
    BothSites(f, Both(g, Both(h, Both(i, j))), m);
    var last := Both(f, Both(g, Both(h, Both(i, j))));
    BothSites(e, last, m);
    BothSites(d, Both(e, last), m);
    BothSites(c, Both(d, Both(e, last)), m);
    BothSites(b, Both(c, Both(d, Both(e, last))), m);
    BothSites(a, Both(b, Both(c, Both(d, Both(e, last)))), m);
  }

  lemma SitesRules(m: Mutex)
    ensures Sites(Skip, m) == 0
    ensures forall k :: Sites(Lock(k), m) == (if k == m then 1 else 0) && Sites(Unlock(k), m) == 0
    ensures forall a, b :: Sites(Both(a, b), m) == Sites(a, m) + Sites(b, m)
    ensures forall a, b :: Sites(Either(a, b), m) == Sites(a, m) + Sites(b, m)
    ensures forall a :: Sites(Loop(a), m) == Sites(a, m)
    ensures forall a :: Sites(Spawn(a), m) == Sites(a, m)
    ensures forall k, n :: Sites(Section(k, n), m) == if k == m then 1 else 0
    ensures forall a, b, c, d, e, f, g, h, i, j ::
      Sites(Do(a, b, c, d, e, f, g, h, i, j), m)
      == Sites(a, m) + Sites(b, m) + Sites(c, m) + Sites(d, m) + Sites(e, m) + Sites(f, m) + Sites(g, m) + Sites(h, m)
         + Sites(i, m) + Sites(j, m)
  {
    forall a, b, c, d, e, f, g, h, i, j
      ensures Sites(Do(a, b, c, d, e, f, g, h, i, j), m)
              == Sites(a, m) + Sites(b, m) + Sites(c, m) + Sites(d, m) + Sites(e, m) + Sites(f, m) + Sites(g, m) + Sites(h, m)
                 + Sites(i, m) + Sites(j, m)
    {
      DoSites(a, b, c, d, e, f, g, h, i, j, m);
    }
    forall k, n ensures Sites(Section(k, n), m) == if k == m then 1 else 0 {
      ExitsSites(k, n, m);
    }
  }

  lemma BoardSites(m: Mutex)
    ensures Sites(READ_MASK, m) == if m == MarketMutex then 1 else 0
    ensures Sites(MARKET_ADD, m) == if m == MarketMutex then 1 else 0
    ensures Sites(MARKET_FIND, m) == if m == MarketMutex then 1 else 0
    ensures Sites(MARKET_TAKE, m) == if m == MarketMutex then 1 else 0
    ensures Sites(NPC_ADD, m) == if m == NpcMutex then 1 else 0
    ensures Sites(NPC_FIND, m) == if m == NpcMutex then 1 else 0
    ensures Sites(NPC_TAKE, m) == if m == NpcMutex then 1 else 0
    ensures Sites(BROADCAST, m) == if m == ClientsMutex then 1 else 0
    ensures Sites(UNICAST, m) == if m == ClientsMutex then 1 else 0
    ensures Sites(MARKET_INIT, m) == if m == MarketMutex || m == NpcMutex then 1 else 0
    ensures Sites(SEED, m) == match m case MarketMutex => 1 case NpcMutex => 2 case _ => 0
  {
    hide Sites, Section, Do;
    SitesRules(m);
  }

  lemma AccountSites(m: Mutex)
    ensures Sites(USER_FIND, m) == if m == UserDbMutex then 1 else 0
    ensures Sites(USER_UPDATE, m) == if m == UserDbMutex then 1 else 0
    ensures Sites(USER_APPEND, m) == if m == UserDbMutex then 1 else 0
    ensures Sites(USER_BURN, m) == if m == UserDbMutex then 1 else 0
    ensures Sites(USER_RESET, m) == if m == UserDbMutex then 1 else 0
  {
    hide Sites, Section, Do;
    SitesRules(m);
  }

  /** The sections of each handler. */
  lemma HandlerSites(m: Mutex)
    ensures Sites(BUY, m) == match m case MarketMutex => 3 case UserDbMutex => 2 case ClientsMutex => 1 case _ => 0
    ensures Sites(SELL, m)
      == match m case NpcMutex => 2 case MarketMutex => 1 case UserDbMutex => 2 case ClientsMutex => 1 case _ => 0
    ensures Sites(BANKRUPTCY, m) == match m case UserDbMutex => 2 case _ => 0
    ensures Sites(INVENTORY, m) == match m case MarketMutex => 1 case UserDbMutex => 1 case _ => 0
  {
    hide Sites, Section, Do;
    SitesRules(m);
    BoardSites(m);
    AccountSites(m);
  }

  lemma MoreHandlerSites(m: Mutex)
    ensures Sites(RUMOR, m)
      == match m case RumorMutex => 1 case UserDbMutex => 3 case ClientsMutex => 1 case MarketMutex => 1 case _ => 0
    ensures Sites(LOGIN, m)
      == match m case ClientsMutex => 2 case UserDbMutex => 2 case RoundMutex => 1 case MarketMutex => 2 case NpcMutex => 1 case _ => 0
    ensures Sites(RICH, m) == match m case UserDbMutex => 2 case RoundMutex => 1 case MarketMutex => 1 case _ => 0
  {
    hide Sites, Section, Do;
    SitesRules(m);
    BoardSites(m);
    AccountSites(m);
  }

  lemma ResetSites(m: Mutex)
    ensures Sites(ROUND_RESET, m)
      == match m case UserDbMutex => 1 case MarketMutex => 3 case NpcMutex => 4 case RoundMutex => 1 case RumorMutex => 1
                 case ClientsMutex => 3 case RaidMutex => 0
  {
    hide Sites, Section, Do;
    SitesRules(m);
    BoardSites(m);
    AccountSites(m);
  }

  lemma RoundSites(m: Mutex)
    ensures Sites(ROUND_TIMER, m) == Sites(ROUND_RESET, m) + (if m == RoundMutex then 1 else 0)
    ensures Sites(ROUND_END, m)
      == Sites(ROUND_TIMER, m) + match m case RoundMutex => 3 case ClientsMutex => 3 case UserDbMutex => 1 case _ => 0
    ensures Sites(PAYOFF, m)
      == Sites(ROUND_END, m) + match m case UserDbMutex => 2 case RoundMutex => 1 case ClientsMutex => 2 case _ => 0
  {
    hide Sites, Section, Do;
    SitesRules(m);
    BoardSites(m);
    AccountSites(m);
  }

  lemma RaidSites(m: Mutex)
    ensures Sites(BURN, m) == match m case UserDbMutex => 2 case ClientsMutex => 1 case _ => 0
    ensures Sites(RAID_TIMER, m) == match m case RaidMutex => 1 case UserDbMutex => 2 case ClientsMutex => 1 case _ => 0
    ensures Sites(FIRE_RAID, m) == match m case RaidMutex => 4 case UserDbMutex => 2 case ClientsMutex => 4 case _ => 0
    ensures Sites(SELF_RAID, m) == match m case RaidMutex => 3 case UserDbMutex => 2 case ClientsMutex => 1 case _ => 0
    ensures Sites(SUBMIT, m) == match m case RaidMutex => 2 case UserDbMutex => 2 case ClientsMutex => 1 case _ => 0
  {
    hide Sites, Section, Do;
    SitesRules(m);
    BoardSites(m);
    AccountSites(m);
  }

  lemma EventSites(m: Mutex)
    ensures Sites(LEAK_TIMER, m) == match m case MarketMutex => 1 case ClientsMutex => 1 case _ => 0
    ensures Sites(LEAK, m) == match m case MarketMutex => 6 case ClientsMutex => 2 case _ => 0
    ensures Sites(SPAWN_MARKET, m) == match m case MarketMutex => 3 case ClientsMutex => 1 case _ => 0
    ensures Sites(SPAWN_NPC, m) == match m case NpcMutex => 2 case MarketMutex => 1 case ClientsMutex => 2 case _ => 0
    ensures Sites(AGE_BOARDS, m) == match m case NpcMutex => 1 case MarketMutex => 1 case ClientsMutex => 2 case _ => 0
  {
    hide Sites, Section, Do;
    SitesRules(m);
    BoardSites(m);
  }

  /** The threads that never end lock all that they call. */
  lemma TickSites(m: Mutex)
    ensures Sites(TICK, m)
      == Sites(ROUND_END, m) + Sites(AGE_BOARDS, m) + Sites(FIRE_RAID, m) + Sites(LEAK, m) + Sites(SPAWN_MARKET, m)
         + Sites(SPAWN_NPC, m) + (if m == RoundMutex || m == ClientsMutex then 1 else 0)
  {
    hide Sites, Section, Do;
    SitesRules(m);
    BoardSites(m);
  }

  lemma RequestSites(m: Mutex)
    ensures Sites(REQUEST, m)
      == Sites(PAYOFF, m) + Sites(SUBMIT, m) + Sites(SELF_RAID, m) + Sites(LEAK, m) + Sites(RICH, m) + Sites(ROUND_END, m)
         + Sites(BUY, m) + Sites(SELL, m) + Sites(INVENTORY, m) + Sites(RUMOR, m) + 2 * Sites(BANKRUPTCY, m)
         + (if m == ClientsMutex then 1 else 0)
  {
    hide Sites, Section, Do;
    SitesRules(m);
    BoardSites(m);
  }

  lemma ClientSites(m: Mutex)
    ensures Sites(CLIENT, m) == Sites(LOGIN, m) + Sites(REQUEST, m) + (if m == ClientsMutex then 1 else 0)
  {
    hide Sites, Section, Do;
    SitesRules(m);
    assert Sites(Loop(Either(LOGIN, Skip)), m) == Sites(LOGIN, m);
  }

  lemma ServerSites(m: Mutex)
    ensures Sites(SERVER, m)
      == Sites(MARKET_INIT, m) + Sites(SEED, m) + Sites(TICK, m) + Sites(CLIENT, m) + (if m == ClientsMutex then 1 else 0)
  {
    hide Sites, Section;
    var accept := Do(Lock(ClientsMutex), Either(Spawn(CLIENT), Skip), Unlock(ClientsMutex));
    AcceptSites(m);
    DoSites(MARKET_INIT, SEED, Spawn(Loop(TICK)), Loop(accept), Skip, Skip, Skip, Skip, Skip, Skip, m);
    LoopSites(m);
  }

  lemma AcceptSites(m: Mutex)
    ensures Sites(Do(Lock(ClientsMutex), Either(Spawn(CLIENT), Skip), Unlock(ClientsMutex)), m)
      == Sites(CLIENT, m) + (if m == ClientsMutex then 1 else 0)
  {
    hide Sites, Section, Do;
    SitesRules(m);
  }

  lemma LoopSites(m: Mutex)
    ensures Sites(Skip, m) == 0
    ensures forall a :: Sites(Loop(a), m) == Sites(a, m)
    ensures forall a :: Sites(Spawn(a), m) == Sites(a, m)
  {
  }

  // What is nested.

  lemma {:induction false} ExitsBefore(k: Mutex, n: nat, m: Mutex, h: Mutex)
    ensures SitesBefore(Exits(k, n), m, h) == 0 && (Frees(Exits(k, n), h) <==> k == h)
  {
    if n > 1 {
      ExitsBefore(k, n - 1, m, h);
    }
  }

  lemma SectionBefore(m: Mutex, h: Mutex)
    ensures forall k, n :: SitesBefore(Section(k, n), m, h) == if k == m then 1 else 0
    ensures forall k, n :: Frees(Section(k, n), h) <==> k == h
  {
    forall k, n
      ensures SitesBefore(Section(k, n), m, h) == (if k == m then 1 else 0) && (Frees(Section(k, n), h) <==> k == h)
    {
      ExitsBefore(k, n, m, h);
    }
  }

  lemma BeforeRules(m: Mutex, h: Mutex)
    ensures forall k :: SitesBefore(Unlock(k), m, h) == 0 && (Frees(Unlock(k), h) <==> k == h)
    ensures forall a, b :: SitesBefore(Either(a, b), m, h) == SitesBefore(a, m, h) + SitesBefore(b, m, h)
    ensures forall a, b ::
      SitesBefore(Both(a, b), m, h) == SitesBefore(a, m, h) + (if Frees(a, h) then 0 else SitesBefore(b, m, h))
    ensures forall k, n :: SitesBefore(Section(k, n), m, h) == if k == m then 1 else 0
    ensures forall k, n :: Frees(Section(k, n), h) <==> k == h
  {
    SectionBefore(m, h);
  }

  /** A sabotage uses the account twice before it lets go of the rumor, and nothing else; a raid
      reads the clients once before it lets go of the raid. */
  lemma Nesting(m: Mutex)
    ensures RUMOR.Both? && RUMOR.first == Lock(RumorMutex)
    ensures SitesBefore(RUMOR.second, m, RumorMutex) == if m == UserDbMutex then 2 else 0
    ensures FIRE_RAID.Both? && FIRE_RAID.first == Lock(RaidMutex)
    ensures SitesBefore(FIRE_RAID.second, m, RaidMutex) == if m == ClientsMutex then 1 else 0
  {
    hide SitesBefore, Frees, Section;
    BeforeRules(m, RumorMutex);
    BeforeRules(m, RaidMutex);
  }
}
