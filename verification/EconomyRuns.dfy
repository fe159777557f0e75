// Whole runs of the economy: the invariant, burned accounts for ever, and the
// ledger that recomputes every balance from the receipts alone.
module EconomyRuns {
  import opened Prelude
  import opened UserDb
  import opened Sandbox
  import opened Escape
  import opened Economy
  import opened EconomyLaws
  import M = Market
  import N = NpcBoard

  lemma StepKeeps(w: World, e: Event)
    requires Inv(w) && WellFormed(e)
    ensures Inv(Step(w, e).world)
  {
    hide Login, Buy, Sell, Dispose, Rumor, Payoff, CheckBankruptcy, Bankrupt, Burn, RoundReset, Spawn, SpawnNpc, AgeBoards;
    hide Solvent, BurnedAreEmpty, SmallSandboxes, Registered, M.Consistent, Priced, Paying, M.Freeze, M.Unfreeze;
    if FromClient(e) && e.key !in w.online {
    } else {
      match e
      case LoginEvent(key) => LoginKeeps(w, key);
      case LeaveEvent(key) => FewerOnline(w.online, w.online - {key}, w.records, w.files);
      case BuyEvent(key, docId, env) =>
        BuyKeeps(w, key, docId, env);
        BankruptcyKeeps(Buy(w, key, docId, env).0, key);
      case SellEvent(key, npcId, count, ids) => SellKeeps(w, key, npcId, count, ids);
      case DisposeEvent(key, docId) => DisposeKeeps(w, key, docId);
      case RumorEvent(key, now) =>
        RumorKeeps(w, key, now);
        BankruptcyKeeps(Rumor(w, key, now).0, key);
      case PayoffEvent(key, now) => PayoffKeeps(w, key, now);
      case BurnEvent(key) => BurnKeeps(w, key);
      case ResetEvent(now, rolls) => ResetKeeps(w, now, rolls);
      case SpawnEvent(docId, maskRead, tagRolls, priceRoll, name, now, roll) =>
        SpawnKeeps(w, docId, maskRead, tagRolls, priceRoll, name, now, roll);
      case SpawnNpcEvent(npcId, maskRead, tagRolls, bountyRoll, now) =>
        SpawnNpcKeeps(w, npcId, maskRead, tagRolls, bountyRoll, now);
      case AgeEvent(now) => AgeKeepsInv(w, now);
      case FreezeEvent(tags) => FreezeKeepsInv(w, tags);
      case UnfreezeEvent(tags) => FreezeKeepsInv(w, tags);
    }
  }

  lemma BootHolds(now: int, rolls: seq<nat>)
    requires |rolls| == 4
    ensures Inv(Boot(now, rolls)) && Boot(now, rolls).records == []
  {
    hide RoundReset, M.Consistent, Priced, Paying;
    EmptyBoardsKeep();
    ResetKeeps(World(M.EmptyBoard(), N.EmptyNpcs(), [], Files(map[], map[]), NewLadder(), 0, {}), now, rolls);
  }

  // The ledger.

  /** What one event and its answer mean for one account. The world is not consulted. */
  function Posted(balance: Option<int>, e: Event, reply: Reply, bust: bool, key: Key): Option<int> {
    match e
    case LoginEvent(k) =>
      if k == key && reply.LoggedIn? && reply.created then Some(INITIAL_MONEY) else balance
    case BuyEvent(k, _, _) =>
      if k != key then balance
      else if bust then Some(BURNED)
      else if reply.Bought? && balance.Some? then Some(balance.value - reply.offer.price)
      else balance
    case RumorEvent(k, _) =>
      if k != key then balance
      else if bust then Some(BURNED)
      else if reply.Rumored? && balance.Some? then Some(balance.value - RUMOR_FEE)
      else balance
    case SellEvent(k, _, _, _) =>
      if k == key && reply.Sold? && balance.Some? then Some(balance.value + reply.bounty) else balance
    case PayoffEvent(k, _) => if k == key && reply.Escaped? then Some(INITIAL_MONEY) else balance
    case BurnEvent(k) => if k == key && balance.Some? then Some(BURNED) else balance
    case ResetEvent(_, _) => if balance.Some? && balance != Some(BURNED) then Some(INITIAL_MONEY) else balance
    case _ => balance
  }

  lemma PaidBalance(w: World, key: Key, money: int, k: Key)
    requires Has(w.records, key)
    ensures Balance(WithMoney(w, key, money), k) == if k == key then Some(money) else Balance(w, k)
  {
    SetOne(w.records, key, money, k);
  }

  lemma BuyPosts(w: World, key: Key, docId: int, env: BuyEnv, k: Key)
    ensures var after := ThenCheck(Buy(w, key, docId, env), key);
      Balance(after.world, k) == Posted(Balance(w, k), BuyEvent(key, docId, env), after.reply, after.bust, k)
  {
    hide Has, Money, SetBalance, M.Find, M.AfterTake, M.AddOffer, CanMove, MoveDoc, CountDocs, Bankrupt, BuyRefusal;
    var (bought, reply) := Buy(w, key, docId, env);
    BuyPays(w, key, docId, env, k);
    if Bankrupt(bought, key) {
      BankruptHas(bought, key);
      PaidBalance(bought, key, BURNED, k);
    }
  }

  lemma BuyPays(w: World, key: Key, docId: int, env: BuyEnv, k: Key)
    ensures var (bought, reply) := Buy(w, key, docId, env);
      Balance(bought, k) == Posted(Balance(w, k), BuyEvent(key, docId, env), reply, false, k)
  {
    hide Has, Money, SetBalance, M.Find, M.AfterTake, M.AddOffer, CanMove, MoveDoc, CountDocs;
    var (bought, reply) := Buy(w, key, docId, env);
    if reply.Bought? {
      PaidBalance(w, key, reply.money, k);
    }
  }

  lemma BankruptHas(w: World, key: Key)
    requires Bankrupt(w, key)
    ensures Has(w.records, key)
  {
  }

  lemma RumorPosts(w: World, key: Key, now: int, k: Key)
    ensures var after := ThenCheck(Rumor(w, key, now), key);
      Balance(after.world, k) == Posted(Balance(w, k), RumorEvent(key, now), after.reply, after.bust, k)
  {
    hide Has, Money, SetBalance, Bankrupt;
    var (paid, reply) := Rumor(w, key, now);
    if reply.Rumored? {
      PaidBalance(w, key, reply.money, k);
    }
    if Bankrupt(paid, key) {
      BankruptHas(paid, key);
      PaidBalance(paid, key, BURNED, k);
    }
  }

  lemma SellPosts(w: World, key: Key, npcId: int, count: int, ids: seq<int>, k: Key)
    requires |ids| == MAX_INVEN_SIZE
    ensures var (after, reply) := Sell(w, key, npcId, count, ids);
      Balance(after, k) == Posted(Balance(w, k), SellEvent(key, npcId, count, ids), reply, false, k)
  {
    hide Has, Money, SetBalance, CheckDocs, SortIds, N.Find, N.AfterTake, Masks.Covers, DropDocs;
    var (after, reply) := Sell(w, key, npcId, count, ids);
    if reply.Sold? {
      PaidBalance(w, key, reply.money, k);
    }
  }

  lemma LoginPosts(w: World, key: Key, k: Key)
    ensures var (after, reply) := Login(w, key);
      Balance(after, k) == Posted(Balance(w, k), LoginEvent(key), reply, false, k)
  {
    hide Has, Money;
    if !Has(w.records, key) {
      NewRecord(w.records, key, k);
    }
  }

  /** The receipt of every event accounts for every balance. */
  lemma StepPosts(w: World, e: Event, k: Key)
    requires Inv(w) && WellFormed(e)
    ensures var after := Step(w, e);
      Balance(after.world, k) == Posted(Balance(w, k), e, after.reply, after.bust, k)
  {
    hide Login, Buy, Sell, Rumor, Spawn, SpawnNpc, AgeBoards, RoundReset, CheckBankruptcy, Bankrupt, Has, Money, SetBalance;
    hide Solvent, BurnedAreEmpty, SmallSandboxes, Registered, M.Consistent, Priced, Paying, M.Freeze, M.Unfreeze, Purge;
    if FromClient(e) && e.key !in w.online {
    } else {
      match e
      case LoginEvent(key) => LoginPosts(w, key, k);
      case BuyEvent(key, docId, env) => BuyPosts(w, key, docId, env, k);
      case SellEvent(key, npcId, count, ids) => SellPosts(w, key, npcId, count, ids, k);
      case RumorEvent(key, now) => RumorPosts(w, key, now, k);
      case PayoffEvent(key, now) =>
        if Payoff(w, key, now).1.Escaped? {
          PaidBalance(w, key, INITIAL_MONEY, k);
        }
      case BurnEvent(key) =>
        if Has(w.records, key) {
          PaidBalance(w, key, BURNED, k);
        }
      case ResetEvent(now, rolls) =>
        ResetKeeps(w, now, rolls);
        ResetOne(w.records, INITIAL_MONEY, k);
      case SpawnEvent(docId, maskRead, tagRolls, priceRoll, name, now, roll) =>
        SpawnKeeps(w, docId, maskRead, tagRolls, priceRoll, name, now, roll);
      case SpawnNpcEvent(npcId, maskRead, tagRolls, bountyRoll, now) =>
        SpawnNpcKeeps(w, npcId, maskRead, tagRolls, bountyRoll, now);
      case AgeEvent(now) => AgeKeepsInv(w, now);
      case _ =>
    }
  }

  /** No answer to a burned account's request pays it anything. */
  lemma BurnedGetsNothing(w: World, e: Event, k: Key)
    requires Inv(w) && WellFormed(e) && Burned(w, k)
    ensures Posted(Some(BURNED), e, Step(w, e).reply, Step(w, e).bust, k) == Some(BURNED)
  {
    hide Login, Buy, Sell, Rumor, Payoff, CheckBankruptcy, Bankrupt, Has, Money, Dispose;
    hide Burn, Spawn, SpawnNpc, AgeBoards, RoundReset, M.Freeze, M.Unfreeze;
    hide Solvent, BurnedAreEmpty, SmallSandboxes, Registered, M.Consistent, Priced, Paying;
    if FromClient(e) && e.key in w.online && e.key == k {
      match e
      case BuyEvent(key, docId, env) => BuyKeeps(w, key, docId, env); BurnedBuysNothing(w, key, docId, env);
      case SellEvent(key, npcId, count, ids) => SellKeeps(w, key, npcId, count, ids);
      case RumorEvent(key, now) => RumorKeeps(w, key, now);
      case PayoffEvent(key, now) => PayoffKeeps(w, key, now);
      case _ =>
    } else if e == LoginEvent(k) {
      BurnedLogsInNot(w, k);
    }
  }

  lemma BurnedBuysNothing(w: World, key: Key, docId: int, env: BuyEnv)
    requires Inv(w) && Burned(w, key)
    ensures Buy(w, key, docId, env).1.Refused?
  {
    hide Has, Money, M.Find, M.Offers, M.AfterTake, M.AddOffer, CanMove, MoveDoc, CountDocs, M.Consistent;
    if M.Find(w.board, docId).Some? {
      FoundIsOffered(w.board, docId);
    }
  }

  lemma BurnedLogsInNot(w: World, key: Key)
    requires Burned(w, key)
    ensures Login(w, key).1.Refused?
  {
    hide Has, Money;
  }

  // Runs.

  ghost predicate Playable(events: seq<Event>) {
    forall i :: 0 <= i < |events| ==> WellFormed(events[i])
  }

  /** The world after a run, and the receipts given on the way. */
  ghost function Play(w: World, events: seq<Event>): (r: (World, seq<Outcome>))
    requires Inv(w) && Playable(events)
    ensures Inv(r.0) && |r.1| == |events|
  {
    if events == [] then (w, [])
    else
      var (before, receipts) := Play(w, events[..|events| - 1]);
      var e := events[|events| - 1];
      StepKeeps(before, e);
      (Step(before, e).world, receipts + [Step(before, e)])
  }

  /** The balance of an account, recomputed from the start balance and the receipts. */
  ghost function Ledger(start: Option<int>, events: seq<Event>, receipts: seq<Outcome>, key: Key): Option<int>
    requires |events| == |receipts|
  {
    if events == [] then start
    else
      var n := |events| - 1;
      Posted(Ledger(start, events[..n], receipts[..n], key), events[n], receipts[n].reply, receipts[n].bust, key)
  }

  /** Every run keeps accounts burned or solvent and sandboxes within their seven slots, and
      every balance is what its receipts add up to. */
  lemma {:induction false} LedgerBalances(w: World, events: seq<Event>, key: Key)
    requires Inv(w) && Playable(events)
    ensures var (after, receipts) := Play(w, events);
      && Balance(after, key) == Ledger(Balance(w, key), events, receipts, key)
      && (Balance(after, key).Some? ==> Balance(after, key).value == BURNED || Balance(after, key).value >= 0)
      && |Held(after.files, key)| <= MAX_INVEN_SIZE
  {
    hide Step, Posted, Has, Money, Solvent, SmallSandboxes, BurnedAreEmpty, Registered, M.Consistent, Priced, Paying;
    if events != [] {
      var n := |events| - 1;
      LedgerBalances(w, events[..n], key);
      var (before, receipts) := Play(w, events[..n]);
      StepPosts(before, events[n], key);
      assert Play(w, events).1[..n] == receipts;
    }
    InvSays(Play(w, events).0, key);
  }

  lemma InvSays(w: World, key: Key)
    requires Inv(w)
    ensures Balance(w, key).Some? ==> Balance(w, key).value == BURNED || Balance(w, key).value >= 0
    ensures |Held(w.files, key)| <= MAX_INVEN_SIZE
    ensures Burned(w, key) ==> Held(w.files, key) == map[]
  {
    hide Has, Money, M.Consistent, Priced, Paying;
  }

  /** Once burned, burned and empty-handed through every later event, reset included. */
  lemma {:induction false} BurnedForEver(w: World, events: seq<Event>, key: Key)
    requires Inv(w) && Playable(events) && Burned(w, key)
    ensures Burned(Play(w, events).0, key) && Held(Play(w, events).0.files, key) == map[]
  {
    hide Step, Posted, Has, Money, Solvent, SmallSandboxes, BurnedAreEmpty, Registered, M.Consistent, Priced, Paying;
    if events != [] {
      var n := |events| - 1;
      BurnedForEver(w, events[..n], key);
      var before := Play(w, events[..n]).0;
      StepPosts(before, events[n], key);
      BurnedGetsNothing(before, events[n], key);
    }
    InvSays(Play(w, events).0, key);
  }

  // How far balances can grow.

  lemma SoldBounty(w: World, key: Key, npcId: int, count: int, ids: seq<int>)
    requires Inv(w) && |ids| == MAX_INVEN_SIZE && Sell(w, key, npcId, count, ids).1.Sold?
    ensures Sell(w, key, npcId, count, ids).1.bounty <= 5000
  {
    hide Has, Money, SetBalance, CheckDocs, SortIds, N.Find, N.AfterTake, Masks.Covers, DropDocs, N.Requests, M.Consistent, Priced;
    N.TakeKeeps(w.npcs, npcId);
    assert N.Find(w.npcs, npcId).value in N.Requests(w.npcs);
  }

  lemma StepGain(w: World, e: Event, k: Key, top: int)
    requires Inv(w) && WellFormed(e) && top >= INITIAL_MONEY
    requires Balance(w, k).Some? ==> Balance(w, k).value <= top
    ensures var after := Balance(Step(w, e).world, k); after.Some? ==> after.value <= top + 5000
  {
    hide Has, Money, Inv, Buy, Sell, Rumor, Payoff, Login, Dispose;
    hide Burn, RoundReset, Spawn, SpawnNpc, AgeBoards, M.Freeze, M.Unfreeze, CheckBankruptcy, Bankrupt;
    StepPosts(w, e, k);
    if e.SellEvent? && e.key in w.online && Sell(w, e.key, e.npcId, e.count, e.ids).1.Sold? {
      SoldBounty(w, e.key, e.npcId, e.count, e.ids);
    }
    if e.BuyEvent? && e.key in w.online && Buy(w, e.key, e.docId, e.env).1.Bought? {
      BoughtPrice(w, e.key, e.docId, e.env);
    }
  }

  lemma BoughtPrice(w: World, key: Key, docId: int, env: BuyEnv)
    requires Inv(w) && Buy(w, key, docId, env).1.Bought?
    ensures Buy(w, key, docId, env).1.offer.price >= 400
  {
    hide Has, Money, M.Find, M.Offers, M.AfterTake, M.AddOffer, CanMove, MoveDoc, CountDocs, M.Consistent;
    if M.Find(w.board, docId).Some? {
      FoundIsOffered(w.board, docId);
    }
  }

  /** Balances outgrow an int32 only after some 400000 events: unbounded integers lose
      nothing before. */
  lemma {:induction false} BalanceBound(now: int, rolls: seq<nat>, events: seq<Event>, key: Key)
    requires |rolls| == 4 && Playable(events)
    ensures Inv(Boot(now, rolls))
    ensures var after := Balance(Play(Boot(now, rolls), events).0, key);
      && (after.Some? ==> after.value <= INITIAL_MONEY + 5000 * |events|)
      && (after.Some? && |events| <= 429_000 ==> after.value <= 0x7FFF_FFFF)
  {
    hide Step, Has, Money, Inv, Boot;
    BootHolds(now, rolls);
    if events == [] {
      NoAccounts(Boot(now, rolls), key);
    } else {
      var n := |events| - 1;
      BalanceBound(now, rolls, events[..n], key);
      StepGain(Play(Boot(now, rolls), events[..n]).0, events[n], key, INITIAL_MONEY + 5000 * n);
    }
  }

  lemma NoAccounts(w: World, key: Key)
    requires w.records == []
    ensures Balance(w, key) == None
  {
  }

  // The debt ladder over runs.

  /** The escapes of the round after one more event, as far as its receipt tells. */
  function Escaping(made: seq<Made>, e: Event, reply: Reply): seq<Made> {
    match e
    case PayoffEvent(key, now) => if reply.Escaped? then made + [Made(key, now)] else made
    case ResetEvent(_, _) => []
    case _ => made
  }

  function EscapesOf(events: seq<Event>, receipts: seq<Outcome>): seq<Made>
    requires |events| == |receipts|
  {
    if events == [] then []
    else
      var n := |events| - 1;
      Escaping(EscapesOf(events[..n], receipts[..n]), events[n], receipts[n].reply)
  }

  lemma LadderStays(w: World, e: Event)
    requires Inv(w) && WellFormed(e) && !e.PayoffEvent? && !e.ResetEvent?
    ensures Step(w, e).world.ladder == w.ladder
  {
    hide Has, Money, SetBalance, M.Consistent, Solvent, BurnedAreEmpty, SmallSandboxes, Registered, Priced, Paying;
    hide M.AddOffer, M.AfterTake, M.Find, N.Find, N.AfterTake, CheckDocs, SortIds, Masks.Covers, DropDocs, Purge, Bankrupt;
    hide CanMove, MoveDoc, CountDocs, M.HasRoom, M.AgeOut, N.AgeOut, M.AgedIds, M.Freeze, M.Unfreeze, N.AddRequest;
  }

  lemma StepTells(w: World, e: Event, made: seq<Made>)
    requires Inv(w) && WellFormed(e) && Tells(w.ladder, made)
    ensures Tells(Step(w, e).world.ladder, Escaping(made, e, Step(w, e).reply))
  {
    hide Inv, Tells, Climb, Has, Money, SetBalance, RoundReset;
    if e.PayoffEvent? {
      ClimbTells(w.ladder, made, e.key, e.now);
    } else if e.ResetEvent? {
      InvLog(w);
      ResetKeeps(w, e.now, e.rolls);
      NewLadderTells();
    } else {
      InvLog(w);
      LadderStays(w, e);
    }
  }

  lemma InvLog(w: World)
    requires Inv(w)
    ensures |w.ladder.log| == MAX_SCORE_ESCAPED
  {
  }

  /** Over every run from the start, goal, count, cap time and log are those of the escapes that
      the receipts tell since the last reset. */
  lemma {:induction false} LadderTellsEscapes(now: int, rolls: seq<nat>, events: seq<Event>)
    requires |rolls| == 4 && Playable(events)
    ensures Inv(Boot(now, rolls))
    ensures var (after, receipts) := Play(Boot(now, rolls), events); Tells(after.ladder, EscapesOf(events, receipts))
  {
    hide Step, Inv, Boot, Tells, Escaping, WellFormed;
    BootHolds(now, rolls);
    if events == [] {
      BootTells(now, rolls);
    } else {
      var n := |events| - 1;
      LadderTellsEscapes(now, rolls, events[..n]);
      var (before, receipts) := Play(Boot(now, rolls), events[..n]);
      InvLog(before);
      StepTells(before, events[n], EscapesOf(events[..n], receipts));
      assert Play(Boot(now, rolls), events).1[..n] == receipts;
    }
  }

  lemma BootTells(now: int, rolls: seq<nat>)
    requires |rolls| == 4
    ensures Tells(Boot(now, rolls).ladder, [])
  {
    hide RoundReset, M.Consistent, Priced, Paying, Tells;
    EmptyBoardsKeep();
    NewLadderTells();
    ResetKeeps(World(M.EmptyBoard(), N.EmptyNpcs(), [], Files(map[], map[]), NewLadder(), 0, {}), now, rolls);
  }
}
