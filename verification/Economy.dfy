// The requests of server_main.c as transitions of one world, each handler atomic:
// accounts, documents, both boards and the debt ladder.
module Economy {
  import opened Prelude
  import opened Masks
  import opened Tags
  import opened RandomTags
  import opened UserDb
  import opened Sandbox
  import opened Escape
  import M = Market
  import N = NpcBoard

  const RUMOR_FEE := 500
  const RUMOR_COOLDOWN_SEC := 30

  datatype ErrorCode =
    | NotEnoughMoney | InventoryFull | DocNotFound | TagMismatch | NpcNotFound | NpcAlreadyTaken
    | DocFrozen | RumorCooldown | InvalidSession | DuplicateLogin | KeyBurned

  datatype World = World(
    board: M.Board,
    npcs: seq<N.NpcSlot>,
    records: Records,
    files: Files,
    ladder: Ladder,
    rumorUntil: int,
    online: set<Key>)

  datatype Reply =
    | Refused(code: ErrorCode)
    | LoggedIn(created: bool, money: int, goal: int)
    | Bought(offer: M.Offer, money: int)
    | Sold(bounty: int, money: int)
    | Disposed
    | Rumored(money: int)
    | Escaped(paid: int, next: int)
    | Silent

  /** What the environment decides during a purchase. */
  datatype BuyEnv = BuyEnv(renameOk: bool, now: int, roll: nat)

  function Balance(w: World, key: Key): Option<int> {
    if Has(w.records, key) then Some(Money(w.records, key)) else None
  }

  predicate Burned(w: World, key: Key) {
    Balance(w, key) == Some(BURNED)
  }

  function WithMoney(w: World, key: Key, money: int): World
    requires Has(w.records, key)
  {
    w.(records := SetBalance(w.records, key, money))
  }

  // Login and logout.

  function Login(w: World, key: Key): (World, Reply) {
    if key in w.online then (w, Refused(DuplicateLogin))
    else
      var created := !Has(w.records, key);
      var records := if created then w.records + [UserRecord(key, INITIAL_MONEY)] else w.records;
      var money := if created then INITIAL_MONEY else Money(w.records, key);
      if money == BURNED then (w, Refused(KeyBurned))
      else
        (w.(records := records, online := w.online + {key}, files := AddUser(w.files, key)),
         LoggedIn(created, money, w.ladder.goal))
  }

  // Buying.

  /** The checks of handle_buy before anything is touched, in their order. */
  function BuyRefusal(w: World, key: Key, docId: int): Option<ErrorCode> {
    match M.Find(w.board, docId)
    case None => Some(DocNotFound)
    case Some(slot) =>
      if slot.frozen then Some(DocFrozen)
      else if CountDocs(w.files, key) >= MAX_INVEN_SIZE then Some(InventoryFull)
      else if !Has(w.records, key) then Some(InvalidSession)
      else if Money(w.records, key) < slot.offer.price then Some(NotEnoughMoney)
      else None
  }

  function Buy(w: World, key: Key, docId: int, env: BuyEnv): (World, Reply) {
    match BuyRefusal(w, key, docId)
    case Some(code) => (w, Refused(code))
    case None =>
      var offer := M.Find(w.board, docId).value.offer;
      var taken := M.AfterTake(w.board, docId);
      if !env.renameOk || !CanMove(w.files, key, docId) then
        (w.(board := M.AddOffer(taken, offer, env.now, env.roll)), Refused(DocNotFound))
      else
        var money := Money(w.records, key) - offer.price;
        (WithMoney(w, key, money).(board := taken, files := MoveDoc(w.files, key, docId)), Bought(offer, money))
  }

  // Selling.

  function Insert(x: int, sorted: seq<int>): (r: seq<int>)
    ensures |r| == |sorted| + 1
  {
    if sorted == [] || x <= sorted[0] then [x] + sorted else [sorted[0]] + Insert(x, sorted[1..])
  }

  /** The ascending order that market_doc_sort_ids puts the ids in. */
  function SortIds(ids: seq<int>): (r: seq<int>)
    ensures |r| == |ids|
  {
    if ids == [] then [] else Insert(ids[0], SortIds(ids[1..]))
  }

  datatype Check = Bad(code: ErrorCode) | Good(tags: bv32)

  /** The scan over the submitted documents: the first one that is not held or is frozen
      decides the answer, otherwise their tags are joined onto those so far. */
  function CheckDocs(w: World, key: Key, ids: seq<int>, tags: bv32): Check
    decreases |ids|
  {
    if ids == [] then Good(tags)
    else if ids[0] !in Held(w.files, key) then Bad(DocNotFound)
    else
      var docTags := Held(w.files, key)[ids[0]].tags;
      if Meets(docTags, w.board.mask) then Bad(DocFrozen)
      else CheckDocs(w, key, ids[1..], Join(tags, docTags))
  }

  /** handle_sell. Its last lookup of the account is not checked; a logged-in key has one. */
  function Sell(w: World, key: Key, npcId: int, count: int, submitted: seq<int>): (World, Reply)
    requires |submitted| == MAX_INVEN_SIZE
  {
    if count <= 0 || count > MAX_INVEN_SIZE then (w, Refused(TagMismatch))
    else
      var ids := SortIds(submitted[..count]);
      match N.Find(w.npcs, npcId)
      case None => (w, Refused(NpcNotFound))
      case Some(npc) =>
        match CheckDocs(w, key, ids, 0)
        case Bad(code) => (w, Refused(code))
        case Good(tags) =>
          if !Covers(tags, npc.requiredTags) then (w, Refused(TagMismatch))
          else if !Has(w.records, key) then (w, Refused(InvalidSession))
          else
            var money := Money(w.records, key) + npc.bounty;
            (WithMoney(w, key, money).(
               npcs := N.AfterTake(w.npcs, npcId),
               files := DropDocs(w.files, key, set id | id in ids)),
             Sold(npc.bounty, money))
  }

  function Dispose(w: World, key: Key, docId: int): (World, Reply) {
    if docId in Held(w.files, key) then (w.(files := DropDocs(w.files, key, {docId})), Disposed)
    else (w, Refused(DocNotFound))
  }

  // Sabotage, escape, bankruptcy, burning, reset.

  function Rumor(w: World, key: Key, now: int): (World, Reply) {
    if now < w.rumorUntil then (w, Refused(RumorCooldown))
    else if !Has(w.records, key) then (w, Refused(InvalidSession))
    else if Money(w.records, key) < RUMOR_FEE then (w, Refused(NotEnoughMoney))
    else
      var money := Money(w.records, key) - RUMOR_FEE;
      (WithMoney(w, key, money).(rumorUntil := now + RUMOR_COOLDOWN_SEC), Rumored(money))
  }

  function Payoff(w: World, key: Key, now: int): (World, Reply)
    requires |w.ladder.log| == MAX_SCORE_ESCAPED
  {
    if !Has(w.records, key) then (w, Refused(InvalidSession))
    else if Money(w.records, key) < w.ladder.goal then (w, Refused(NotEnoughMoney))
    else
      var ladder := Climb(w.ladder, key, now);
      (WithMoney(w, key, INITIAL_MONEY).(ladder := ladder, files := Purge(w.files, key)),
       Escaped(w.ladder.goal, ladder.goal))
  }

  /** check_bankruptcy: no money and an empty directory. Without a directory it waits. */
  predicate Bankrupt(w: World, key: Key) {
    Has(w.records, key) && Money(w.records, key) <= 0 && CountDocs(w.files, key) == 0
  }

  function CheckBankruptcy(w: World, key: Key): World {
    if Bankrupt(w, key) then WithMoney(w, key, BURNED).(online := w.online - {key}) else w
  }

  /** burn_user_by_key, for a wrong answer to a raid or none. */
  function Burn(w: World, key: Key): World {
    var marked := if Has(w.records, key) then WithMoney(w, key, BURNED) else w;
    marked.(files := Purge(w.files, key))
  }

  /** The seeds of a fresh round: id, tags and name of four documents, and two requests. */
  const SEED_DOCS: seq<M.Offer> := [
    M.Offer(124, Join(TAG_CORP_B, TAG_FINANCE), 800, "seed-124"),
    M.Offer(111, Join(TAG_GOVERNMENT, TAG_MILITARY), 800, "seed-111"),
    M.Offer(47, Join(TAG_PERSONAL, TAG_CUSTOMER), 800, "seed-47"),
    M.Offer(70, Join(TAG_CORP_A, TAG_PERSONAL), 800, "seed-70")]

  const SEED_NPCS: seq<N.Request> := [
    N.Request(102, Join(TAG_CORP_B, TAG_FINANCE), 1200),
    N.Request(356, Join(TAG_GOVERNMENT, TAG_MILITARY), 2500)]

  function SeedDocs(w: World, docs: seq<M.Offer>, now: int, rolls: seq<nat>): World
    requires |rolls| == |docs|
    decreases |docs|
  {
    if docs == [] then w
    else
      var next := w.(files := w.files.(master := w.files.master[docs[0].docId := docs[0]]),
                     board := M.AddOffer(w.board, docs[0], now, rolls[0]));
      SeedDocs(next, docs[1..], now, rolls[1..])
  }

  function Seed(w: World, now: int, rolls: seq<nat>): World
    requires |rolls| == 4
  {
    var docs := SeedDocs(w, SEED_DOCS, now, rolls);
    docs.(npcs := N.AddRequest(N.AddRequest(docs.npcs, SEED_NPCS[0], now), SEED_NPCS[1], now))
  }

  function RoundReset(w: World, now: int, rolls: seq<nat>): World
    requires |rolls| == 4
  {
    Seed(w.(files := PurgeAll(w.files),
            records := Reset(w.records, INITIAL_MONEY),
            board := M.EmptyBoard(),
            npcs := N.EmptyNpcs(),
            ladder := NewLadder(),
            rumorUntil := 0),
         now, rolls)
  }

  // The event thread.

  /** A spawned document, drawn against a mask read some time before. */
  function Spawn(w: World, docId: int, maskRead: bv32, tagRolls: seq<nat>, priceRoll: nat, name: Name,
                 now: int, roll: nat): World
    requires |tagRolls| == 4
  {
    var tags := PickTags(maskRead, tagRolls);
    if !M.HasRoom(w.board) || tags == 0 then w
    else
      var doc := M.Offer(docId, tags, SpawnPrice(tags, priceRoll), name);
      w.(files := w.files.(master := w.files.master[docId := doc]),
         board := M.AddOffer(w.board, doc, now, roll))
  }

  function SpawnNpc(w: World, npcId: int, maskRead: bv32, tagRolls: seq<nat>, bountyRoll: nat, now: int): World
    requires |tagRolls| == 4
  {
    var tags := PickTags(maskRead, tagRolls);
    if tags == 0 then w
    else w.(npcs := N.AddRequest(w.npcs, N.Request(npcId, tags, NpcBounty(tags, bountyRoll)), now))
  }

  function AgeBoards(w: World, now: int): World {
    w.(board := M.AgeOut(w.board, now),
       files := w.files.(master := w.files.master - (set id | id in M.AgedIds(w.board, now))),
       npcs := N.AgeOut(w.npcs, N.EVT_NPC_MAX_AGE_SEC, N.EVT_NPC_AGE_STEP_SEC, now))
  }

  // All events.

  datatype Event =
    | LoginEvent(key: Key)
    | LeaveEvent(key: Key)
    | BuyEvent(key: Key, docId: int, env: BuyEnv)
    | SellEvent(key: Key, npcId: int, count: int, ids: seq<int>)
    | DisposeEvent(key: Key, docId: int)
    | RumorEvent(key: Key, now: int)
    | PayoffEvent(key: Key, now: int)
    | BurnEvent(key: Key)
    | ResetEvent(now: int, rolls: seq<nat>)
    | SpawnEvent(docId: int, maskRead: bv32, tagRolls: seq<nat>, priceRoll: nat, name: Name, now: int, roll: nat)
    | SpawnNpcEvent(npcId: int, maskRead: bv32, tagRolls: seq<nat>, bountyRoll: nat, now: int)
    | AgeEvent(now: int)
    | FreezeEvent(tags: bv32)
    | UnfreezeEvent(tags: bv32)

  /** Shapes the C types guarantee, and a clock that is never zero. */
  predicate WellFormed(e: Event) {
    match e
    case SellEvent(_, _, _, ids) => |ids| == MAX_INVEN_SIZE
    case PayoffEvent(_, now) => now != 0
    case ResetEvent(_, rolls) => |rolls| == 4
    case SpawnEvent(_, _, tagRolls, _, _, _, _) => |tagRolls| == 4
    case SpawnNpcEvent(_, _, tagRolls, _, _) => |tagRolls| == 4
    case _ => true
  }

  /** The world after an event, the answer, and whether the sender was told of bankruptcy. */
  datatype Outcome = Outcome(world: World, reply: Reply, bust: bool)

  function Told(after: (World, Reply)): Outcome {
    Outcome(after.0, after.1, false)
  }

  /** The dispatch after buy and rumor checks for bankruptcy, whatever the answer was. */
  function ThenCheck(after: (World, Reply), key: Key): Outcome {
    Outcome(CheckBankruptcy(after.0, key), after.1, Bankrupt(after.0, key))
  }

  predicate FromClient(e: Event) {
    e.BuyEvent? || e.SellEvent? || e.DisposeEvent? || e.RumorEvent? || e.PayoffEvent?
  }

  /** Requests only come from logged-in clients, one at a time. */
  function Step(w: World, e: Event): Outcome
    requires WellFormed(e) && |w.ladder.log| == MAX_SCORE_ESCAPED
  {
    if FromClient(e) && e.key !in w.online then Outcome(w, Silent, false)
    else
      match e
      case LoginEvent(key) => Told(Login(w, key))
      case LeaveEvent(key) => Outcome(w.(online := w.online - {key}), Silent, false)
      case BuyEvent(key, docId, env) => ThenCheck(Buy(w, key, docId, env), key)
      case SellEvent(key, npcId, count, ids) => Told(Sell(w, key, npcId, count, ids))
      case DisposeEvent(key, docId) => Told(Dispose(w, key, docId))
      case RumorEvent(key, now) => ThenCheck(Rumor(w, key, now), key)
      case PayoffEvent(key, now) => Told(Payoff(w, key, now))
      case BurnEvent(key) => Outcome(Burn(w, key), Silent, false)
      case ResetEvent(now, rolls) => Outcome(RoundReset(w, now, rolls), Silent, false)
      case SpawnEvent(docId, maskRead, tagRolls, priceRoll, name, now, roll) =>
        Outcome(Spawn(w, docId, maskRead, tagRolls, priceRoll, name, now, roll), Silent, false)
      case SpawnNpcEvent(npcId, maskRead, tagRolls, bountyRoll, now) =>
        Outcome(SpawnNpc(w, npcId, maskRead, tagRolls, bountyRoll, now), Silent, false)
      case AgeEvent(now) => Outcome(AgeBoards(w, now), Silent, false)
      case FreezeEvent(tags) => Outcome(w.(board := M.Freeze(w.board, tags)), Silent, false)
      case UnfreezeEvent(tags) => Outcome(w.(board := M.Unfreeze(w.board, tags)), Silent, false)
  }

  /** The world when the server starts: no accounts, no documents but the seeds. */
  function Boot(now: int, rolls: seq<nat>): World
    requires |rolls| == 4
  {
    RoundReset(World(M.EmptyBoard(), N.EmptyNpcs(), [], Files(map[], map[]), NewLadder(), 0, {}), now, rolls)
  }
}
