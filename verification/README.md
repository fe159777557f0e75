# A verified model of the darkweb trading game

The repository is a multiplayer trading game: a C server with shared boards under
mutexes, accounts in a record file, documents as files that change hands, and timer
threads that burn accounts or reset the round; and a terminal client that keeps a copy of
the boards by replaying packets. This project models that server and client in Dafny and
proves what they keep.

How the files build on each other:

- `Prelude.dfy` (options, limits, counting what slot tables hold), `Masks.dfy` and
  `Tags.dfy` (32-bit tag masks, the twelve tags, the bit counter).
- `RandomTags.dfy`: the random draw of tags, prices and bounties.
- `Market.dfy`, `NpcBoard.dfy`: the two boards of `market.c`, as functions on slot
  sequences and as classes over arrays proved against them; conservation over all runs.
- `UserDb.dfy`, `Sandbox.dfy`: the account file, refined to a map by first match, and the
  document directories.
- `Escape.dfy`, `Economy.dfy`: the debt ladder, and every request, reset and event of the
  server as one transition of a world, each handler atomic. `EconomyLaws.dfy`,
  `EconomyRuns.dfy`, `Trades.dfy` and `Effects.dfy` prove what single requests do and what
  whole runs keep; `Dispatch.dfy` and `EventEffects.dfy` state from the outside, for each
  event, which answer it gives, all that it changes and that it changes nothing else.
- `Server.dfy`: the handlers as methods over the mutable boards, file and directories,
  each proved to perform its transition.
- Small-step protocols with any number of threads, one step per critical section or file
  operation: `Purchase.dfy` and `PurchaseSeeds.dfy` (take, then move the file; counted ids),
  `PurchaseResets.dfy` and `ResetSeeds.dfy` (the same across round resets),
  `AccountRaces.dfy` and `AccountLedger.dfy` (read an account, then write it back),
  `Logins.dfy` (test for a duplicate, then enter), `Leak.dfy` (freeze, then recover),
  `Round.dfy` (round end and debt ladder), `Raid.dfy` and `RaidAnswers.dfy` (police raid and
  what its answers decide), `Locks.dfy` (deadlock freedom, by a lock-order check of the
  programs of all threads that is proved sound) and `LockUses.dfy` (how often they lock which).
- `Refinement.dfy`, `AccountWhole.dfy`, `SyncWhole.dfy`: the small steps of an event, when no
  other thread comes between, are the one transition of `Economy.dfy` and its packets.
- `Scoreboard.dfy`: who is ranked at a round end, the selection sort, the seven entries.
- `Client.dfy`, `Sync.dfy`: the client's copy and its agreement with the server.
  `SyncIds.dfy`, `SyncRemovals.dfy`: what reused ids do to it. `SyncRaces.dfy`: what packets do
  that overtake each other.
- `Codec.dfy`, `CodecBuffers.dfy`, `CodecWire.dfy`: the packet codec on bytes, against the
  struct layouts, and what it puts on the wire.

Time and random rolls are arbitrary inputs; where the source relies on the clock not being
zero, that is a condition on the input. A tag mask is a `bv32`; ids, times and money are
unbounded integers, and `EconomyRuns.BalanceBound` shows how many events it takes to leave
the 32-bit range. Names and keys are strings that fit their C buffers.

Where the code and its comments differ the model follows the code: a user record is 68
bytes, not the size that the comment in `userdb/userdb.h` gives; the lock orders
round-before-clients and market-before-npc are documented but those locks are never nested.

## Model

| member | source | states |
|---|---|---|
| Tags.CountBits | src/server/market.c:176-180 | the shift loop counts exactly the set bits |
| RandomTags.CollectFree | src/server/events.c:388-393 | fills the array with the tags that the mask leaves free, in list order |
| RandomTags.ShuffleInPlace | src/server/events.c:399-404 | performs the partial shuffle of the pool in place |
| RandomTags.EventRandomTags | src/server/events.c:385-409 | the picker with its arrays computes the specified draw for every mask and all rolls |
| RandomTags.ShuffleKeeps | src/server/events.c:401-404 | the partial shuffle keeps the pool a permutation and the slots already drawn |
| RandomTags.ShuffleReaches | src/server/events.c:401-404 | every arrangement of part of the pool is the outcome of some rolls |
| RandomTags.PickTagsLawful | src/server/events.c:385-409 | the draw avoids the mask read, stays in the twelve tags, is 0 iff all are frozen, and has min(pick, free) bits |
| RandomTags.PickTagsComplete | src/server/events.c:396-408 | every set of one to three unfrozen tags can be drawn |
| RandomTags.SpawnedWorth | src/server/events.c:420-422 | drawn tags number one to three, prices lie in 400 to 1500, bounties in 500 to 5000, the premium is for three tags |
| EventEffects.Worth | src/server/events.c:448-478 | a document costs 400 a tag and up to 300 more in steps of 100, a bounty is 500 for each tag and each step of the roll, which one tag caps at 2, and 1500 more from three tags on |
| EventEffects.Drawn | src/server/events.c:385-409 | the drawn tags: none iff all twelve are frozen in the mask read, else one to three, and as many as the first roll asks for or are free |
| Market.Market.Init | src/server/market.c:15-24 | after init all slots are free and nothing is frozen |
| Market.Market.Add | src/server/market.c:26-46 | the first free slot is filled, frozen as the mask says; fails exactly when there is none |
| Market.Market.FindOffer | src/server/market.c:48-59 | finds the first active slot with the id |
| Market.Market.TakeOffer | src/server/market.c:61-77 | takes the first active match unless it is frozen, and touches no other slot |
| Market.Market.FreezeTags | src/server/market.c:123-132 | adds the tags to the mask and marks the matching offers |
| Market.Market.UnfreezeTags | src/server/market.c:134-143 | removes the tags and unmarks offers that no remaining frozen tag meets |
| Market.Market.IsFull | src/server/market.c:152-162 | true exactly when an add would fail |
| Market.Market.DespawnAged | src/server/market.c:214-230 | removes all expired unfrozen offers and reports the first max_out of them in slot order |
| Market.Market.ActiveTags | src/server/market.c:232-240 | returns the union of the tags on sale |
| Market.OnSaleMeets | src/server/market.c:232-240 | a tag meets that union iff some active offer carries it |
| Market.Market.TakeSnapshot | src/server/market.c:242-253 | copies the active slots in slot order, as many as fit |
| Market.AddKeeps | src/server/market.c:26-46 | an add adds exactly its offer, or nothing when full, and keeps the frozen flags true |
| Market.TakeKeeps | src/server/market.c:61-77 | a take removes exactly the one offer it returns, and a refused take changes nothing |
| Market.FreezeKeeps | src/server/market.c:123-132 | freezing changes no offer and keeps every flag equal to "tags meet the mask" |
| Market.UnfreezeKeeps | src/server/market.c:134-143 | so does thawing, also with overlapping masks |
| Market.AgeKeeps | src/server/market.c:214-230 | the ids before are the ids after plus those reported, and no offer changes |
| Market.TakeRefusesFrozen | src/server/market.c:61-77 | on a consistent board a take misses iff the id is not on sale, and refuses iff the offer's tags meet the mask |
| Prelude.LiveAt | src/server/market.c:242-253 | in a snapshot each live cell stands at the place that its live predecessors leave it |
| Market.RunConserves | src/server/market.c:26-77 | for every id and every run since init: adds = takes + aged removals + active slots, and the flags are true |
| NpcBoard.AgeLimit | src/server/market.c:190-192 | the age limit of a request, with its floor of a minute |
| NpcBoard.NpcTable.Init | src/server/market.c:21-23 | after init no request is open |
| NpcBoard.NpcTable.Add | src/server/market.c:79-94 | fills the first free slot, or fails when there is none |
| NpcBoard.NpcTable.FindRequest | src/server/market.c:96-107 | finds the first open request with the id |
| NpcBoard.NpcTable.TakeRequest | src/server/market.c:109-121 | closes the first match and no other |
| NpcBoard.NpcTable.DespawnAged | src/server/market.c:184-203 | removes all requests older than their limit and reports the first max_out |
| NpcBoard.TakeKeeps | src/server/market.c:109-121 | a take removes exactly the request it returns |
| NpcBoard.AgesByDifficulty | src/server/events.c:493-496 | with the constants of events.h the limits are 140, 110 and 80 seconds for one to three tags |
| EventEffects.OfferLives | src/server/market.c:26-46 | a listed offer has a lifespan of 40 to 90 seconds: it outlives it strictly, and a frozen one is never aged |
| NpcBoard.RunConserves | src/server/market.c:79-121 | adds = takes + aged removals + open requests, for every id and run |
| UserDb.UserFile.Find | userdb/userdb.c:38-66 | returns the first record with the key and its offset, or nothing iff there is none |
| UserDb.UserFile.ResetRound | userdb/userdb.c:172-201 | restores the money of every record that is not burned |
| UserDb.FindRefines | userdb/userdb.c:38-66 | a search agrees with the map of accounts, both ways |
| UserDb.UpdateRefines | userdb/userdb.c:98-166 | an update or burn at the offset of a search changes that key alone; elsewhere it changes no account |
| UserDb.AppendRefines | userdb/userdb.c:68-96 | appending an existing key leaves the map alone, a new key adds one account |
| UserDb.ResetRefines | userdb/userdb.c:172-201 | a round reset restores exactly the accounts that are not burned |
| UserDb.OffsetsStayValid | userdb/userdb.c:38-201 | through every run an offset keeps its key and a search keeps returning it |
| Sandbox.FileStore.Count | src/server/sandbox.c:43-58 | counts the documents, or reports that there is no directory |
| Sandbox.FileStore.Buy | src/server/sandbox.c:67-82 | moves the file from master to the user, or changes nothing |
| Sandbox.FileStore.Dispose | src/server/sandbox.c:84-88 | removes one document of one user, and succeeds iff it was there |
| Sandbox.FileStore.List | src/server/sandbox.c:100-125 | lists distinct held documents, all of them when they fit |
| Sandbox.FileStore.PurgeUser | src/server/sandbox.c:157-162 | empties one user's directory and keeps it |
| Sandbox.FileStore.GlobalReset | src/server/sandbox.c:164-183 | empties the master directory and every user's |
| Server.GameServer.HandleBuy | src/server/server_main.c:510-582 | the handler over boards, file and directories performs the purchase transition, put-back included |
| Server.GameServer.CheckSubmitted | src/server/server_main.c:608-625 | the loop over submitted documents gives the first failure or the union of their tags |
| Server.GameServer.HandleSell | src/server/server_main.c:587-668 | the handler performs the sale transition |
| Server.GameServer.HandleDispose | src/server/server_main.c:885-902 | the handler performs the disposal |
| Server.GameServer.HandleRumor | src/server/server_main.c:933-981 | the handler performs the sabotage: cooldown, account, fee |
| Server.GameServer.RaiseGoal | src/server/server_main.c:700-720 | the round section of an escape performs one climb of the ladder |
| Server.GameServer.HandlePayoff | src/server/server_main.c:676-774 | the handler performs the escape: ladder, purge, fresh balance |
| Server.GameServer.CheckBankruptcyOf | src/server/server_main.c:987-1009 | burns exactly the penniless account with an empty directory |
| Server.GameServer.BurnUserByKey | src/server/server_main.c:190-206 | burns the account and purges the directory |
| Server.GameServer.HandleLogin | src/server/server_main.c:1026-1095 | refuses duplicates and burned keys, creates missing accounts |
| Server.GameServer.SeedMarketAndNpc | src/server/server_main.c:1230-1261 | writes and lists the four seeds and the two requests |
| Server.GameServer.TriggerRoundReset | src/server/server_main.c:95-120 | the reset sequence performs the round reset |
| Server.GameServer.Publish | src/server/events.c:425-432 | a file is written and listed, or unlinked again when the board is full |
| Server.GameServer.EventSpawnMarket | src/server/events.c:412-445 | the spawn routine performs the spawn transition |
| Server.GameServer.EventAge | src/server/events.c:493-524 | the ageing passes remove offers, their files and requests |
| EconomyLaws.ReAdd | src/server/server_main.c:554-560 | the put-back after a failed move always finds a slot and restores the offers |
| EconomyLaws.BuyerNeverBust | src/server/server_main.c:987-1000 | a successful purchase is never followed by bankruptcy |
| EconomyLaws.BuyKeeps | src/server/server_main.c:510-582 | a purchase keeps all invariants: solvent or burned, burned means empty, at most seven documents, priced boards, true flags |
| EconomyLaws.SellKeeps | src/server/server_main.c:587-668 | a sale keeps them, and a burned account sells nothing |
| EconomyLaws.PayoffKeeps | src/server/server_main.c:676-732 | an escape keeps them, and a burned account never escapes |
| EconomyLaws.ResetKeeps | src/server/server_main.c:95-120 | a round reset keeps them and restores exactly the unburned accounts |
| EconomyRuns.StepKeeps | src/server/server_main.c:1152-1207 | every event keeps the invariants, so every reachable world has them |
| EconomyRuns.LedgerBalances | src/server/server_main.c:526-564 | over every run each balance is what its receipts add up to: start, bounties, prices, fees, escapes, resets, burns; never negative unless burned; at most seven documents |
| EconomyRuns.LadderTellsEscapes | src/server/server_main.c:700-720 | over every run the ladder tells the escapes made since the last reset: how many, who at which goal, and when the cap was reached |
| EconomyRuns.BurnedForEver | src/server/server_main.c:190-206 | once burned, an account is burned with an empty sandbox after every later run |
| EconomyRuns.BalanceBound | src/server/server_main.c:645-652 | a balance gains at most 5000 an event, so it fits 32 bits for 429000 events |
| Trades.BuySucceeds | src/server/server_main.c:510-582 | a purchase succeeds iff the offer can be taken, there is room, money and the file moves; then exactly price, offer and document change hands |
| Trades.BuyRefusedKeeps | src/server/server_main.c:513-560 | a refused purchase leaves balances, files and the multiset of offers as they were, and true flags |
| Trades.SortSorts | src/server/market.c:274-277 | the order the ids are put in is ascending and a permutation |
| Trades.SortCanonical | src/server/market.c:274-277 | equal multisets are sorted to the same sequence |
| Trades.SaleDependsOnBag | src/server/server_main.c:596-625 | the answer and the world after a sale depend only on the multiset of the ids submitted |
| Trades.SellSucceeds | src/server/server_main.c:591-638 | a sale succeeds iff count and request are valid, all documents are held and unfrozen, and every required tag is carried by one of them |
| Trades.SellEffect | src/server/server_main.c:640-652 | success removes exactly the submitted documents and one request and pays its bounty; any failure changes nothing |
| Dispatch.OfflineIsIgnored | src/server/server_main.c:1152-1207 | a request of a key that is not logged in does nothing |
| Dispatch.LoginEventDoes | src/server/server_main.c:1026-1095 | the answer to a login and all that it changes: online, a missing account at 1000, a missing directory |
| Dispatch.BuyEventDoes | src/server/server_main.c:510-582 | the answer to a purchase, by the first check that fails, and all that it changes; a refused buyer with no money and an empty directory is burned and out |
| Dispatch.BuyMissing | src/server/server_main.c:513-516 | an id that is not on sale is answered as not found |
| Dispatch.RumorEventDoes | src/server/server_main.c:933-981 | the answer to a sabotage, the fee of 500 and the thirty seconds; exactly who is penniless then is burned and out |
| Dispatch.RumorBusts | src/server/server_main.c:1199-1201 | the last 500 spent without documents burn the account |
| Dispatch.PayoffEventDoes | src/server/server_main.c:676-732 | the answer to an escape and all that it changes: balance 1000, documents gone, goal, count, cap time and log entry |
| Dispatch.BurnEventDoes | src/server/server_main.c:190-206 | a raid burns one account and its documents, and logs nobody out |
| Dispatch.SellEventDoes | src/server/server_main.c:587-668 | the answer to a sale, by count, then the lowest id that is not held or frozen, then tags, then account; and all that it changes |
| Dispatch.SaleRejected | src/server/server_main.c:608-625 | of several bad documents the lowest id decides the answer, in whatever order they are submitted |
| Dispatch.SellMissing | src/server/server_main.c:591-606 | the answer when no such request is open |
| Dispatch.DisposeEventDoes | src/server/server_main.c:885-902 | the answer to a disposal, and that it removes one document and nothing else |
| AccountRaces.BurnLastsIff | src/server/server_main.c:533-564 | with account reads and writes apart, a burn lasts through a run iff no purchase, sabotage, escape or sale writes that record back |
| AccountRaces.BurnFinalIff | src/server/server_main.c:190-206 | a burn is final, whatever runs follow, iff the account has no document left, no thread has an older copy of it that can pay, and no purchase or sale of it is under way |
| AccountRaces.BurnIsLost | src/server/server_main.c:533-564 | a run from the start in which a purchase writes its copy back over a raid's burn |
| AccountRaces.BurnIsSoldAway | src/server/server_main.c:190-196 | a run from the start in which a sale begins between burn and purge and pays its bounty onto the burn mark |
| AccountWhole.BuyRefines | src/server/server_main.c:533-564 | read, move and charge with no other thread between are the purchase event |
| AccountWhole.RumorRefines | src/server/server_main.c:944-966 | read and charge are the sabotage event |
| AccountWhole.PayoffRefines | src/server/server_main.c:682-732 | read, escape and purge are the escape event |
| AccountWhole.BurnRefines | src/server/server_main.c:190-206 | read, burn and purge are the burn event |
| AccountWhole.SellRefines | src/server/server_main.c:596-652 | check, unlink, read and pay are the sale event |
| AccountWhole.ResetRefines | src/server/server_main.c:95-100 | the reset of the records is that of the reset event |
| AccountWhole.RefusalLeaves | src/server/server_main.c:533-543 | a request that fails one of its checks leaves records, documents and thread as they were |
| AccountLedger.EveryCopyCurrentIff | src/server/server_main.c:533-564 | over every run from the start, every copy of a record is current throughout iff no write and no reset changes a record that another thread has copied |
| AccountLedger.LedgerIff | src/server/server_main.c:640-652 | over every run from the start, every balance is throughout what its receipts add up to iff each price, fee and bounty is written from a current copy |
| AccountLedger.AtomicWhenUndisturbed | src/server/server_main.c:533-564 | while no copied record is changed by another thread, every handler decides and writes as one atomic step would |
| Effects.RumorSucceeds | src/server/server_main.c:940-966 | sabotage succeeds iff the cooldown is over and the fee can be paid; it takes the fee and nothing else |
| Effects.RumorBlocksAll | src/server/server_main.c:940-966 | after one sabotage every key is refused, without cost, exactly until the thirty seconds are over |
| Effects.PayoffSucceeds | src/server/server_main.c:676-732 | an escape succeeds iff the goal can be paid; that account starts afresh and empty, the others keep theirs |
| Effects.LoginSucceeds | src/server/server_main.c:1026-1095 | a login succeeds iff the key is neither logged in nor burned, creates only a missing account, and cannot be repeated |
| Effects.BankruptcyIff | src/server/server_main.c:987-1009 | bankruptcy strikes iff there is no money and an existing, empty directory |
| Effects.BurnEffect | src/server/server_main.c:190-206 | a burn takes one key's account and documents and nobody else's |
| Effects.DisposeEffect | src/server/server_main.c:885-902 | a disposal succeeds iff the document is held and removes it alone |
| Effects.SpawnEffect | src/server/events.c:412-432 | a spawn lists one new offer with its file, off the mask read and within the price range, iff there is room and a free tag |
| Effects.SpawnNpcEffect | src/server/events.c:448-478 | the same for a request and its bounty |
| Effects.ResetBoards | src/server/server_main.c:95-120 | after a round reset boards and master directory hold exactly the seeds, nothing is frozen, the ladder is new |
| Effects.ResetPeople | src/server/server_main.c:95-120 | and every sandbox is empty, every unburned balance initial, every burned account burned |
| EventEffects.SpawnEventDoes | src/server/events.c:412-445 | a spawn puts its file in the master directory and fills the first free slot, flagged by the current mask, and changes nothing else; without a drawn tag it does nothing |
| EventEffects.SpawnOnFull | src/server/events.c:412-418 | on a full board a spawn does nothing |
| EventEffects.SpawnNpcEventDoes | src/server/events.c:448-478 | the same for a request |
| EventEffects.AgeEventDoes | src/server/events.c:493-524 | an ageing event closes exactly the unfrozen offers past their lifespan and the requests past 140, 110 or 80 seconds, unlinks exactly the files of those offers, and changes nothing else |
| EventEffects.AgedIdsAre | src/server/market.c:214-230 | an id is reported by the ageing pass iff an active, unfrozen, outlived offer has it |
| EventEffects.FreezeEventDoes | src/server/market.c:123-132 | freezing flags exactly the offers that carry a tag, joins the mask and changes nothing else |
| EventEffects.UnfreezeEventDoes | src/server/market.c:134-143 | thawing drops the tags from the mask and leaves flagged exactly what other frozen tags meet |
| EventEffects.ResetEventDoes | src/server/server_main.c:95-120 | after a round reset: the four seeds in the first four slots and alone in the master directory, the two requests, balances of 1000 for all that are not burned, empty directories, goal 10000, no cooldown, and the same keys logged in |
| EventEffects.BootDoes | src/server/server_main.c:1269-1300 | the server starts with that, without accounts |
| EventEffects.SeedsAre | src/server/server_main.c:1230-1261 | the seeds: ids, tags, prices and bounties |
| Purchase.StepKeeps | src/server/server_main.c:510-582 | no step of any thread parts files from offers and holders or puts a document in two places, if a spawned id is in no place at the time |
| Purchase.WriteSafeIff | src/server/events.c:420-427 | a spawn keeps all that iff its id is neither in the master directory nor in a sandbox |
| Purchase.RunSafeIff | src/server/events.c:412-445 | over every interleaving: kept at every moment iff each spawned id is in no place at its time |
| Purchase.RunKeeps | src/server/server_main.c:545-560 | in all those interleavings of buyers, spawner, ager and freezer the move of every winner succeeds with the document it saw, put-backs never happen, and each file on its way has one owner |
| Purchase.FreshRunKeeps | src/server/server_main.c:554-560 | with ids never used before each document also reaches at most one sandbox, once |
| Refinement.BuyRefines | src/server/server_main.c:545-564 | the steps of an undisturbed purchase, take and move, have the effect of the purchase event |
| Refinement.PutBackRefines | src/server/server_main.c:554-560 | the steps of one whose file is missing, put-back included, have the effect of the refused event |
| Refinement.SpawnRefines | src/server/events.c:420-432 | write and list are the spawn event |
| Refinement.UnlistedGoes | src/server/events.c:427-432 | a file that finds no slot is unlinked again, and nothing has changed |
| Refinement.AgeRefines | src/server/events.c:508-524 | ageing and unlinking file by file are the ageing event |
| Refinement.ResetRefines | src/server/server_main.c:95-120 | unlinking, emptying, market_init and listing the seeds are the round reset event |
| PurchaseSeeds.SeedsStart | src/server/server_main.c:1236-1253 | the server's seeds start such a run |
| PurchaseSeeds.SafeBeforeLowestSeed | src/server/events.c:420-425 | counting ids up from one, every run is fresh while the counter is under 47, the lowest seed |
| PurchaseSeeds.CountedRunIff | src/server/events.c:420-425 | beyond that, files and offers stay together throughout iff each seed is gone when the counter reaches its id |
| PurchaseSeeds.ReusedIdStrands | src/server/events.c:25 | an id reused while on sale lets a second buyer win a take and find no file |
| PurchaseResets.StepLoose | src/server/server_main.c:95-105 | inside round resets too, every step keeps each id once on sale or on its way, each file true and each document in one place, if written ids are new |
| PurchaseResets.ResetRunIff | src/server/server_main.c:95-120 | over every run with resets in their separate steps: files and offers are together outside resets throughout iff each reset ends clean, each seed finds a slot and each id written outside a reset is in no place |
| PurchaseResets.CleanIff | src/server/market.c:15-24 | with new ids, a reset ends clean iff the files left are exactly those that threads are on their way with and nobody has an offer to put back |
| PurchaseResets.NewRunIff | src/server/server_main.c:95-120 | so over every run with new ids that is the exact condition |
| ResetSeeds.ServerRunIff | src/server/server_main.c:1230-1261 | of the server's own runs, resets included: of the counted ids only those of the seeds matter |
| ResetSeeds.SeedsLeadToStranding | src/server/events.c:25 | a run of the server: forty-six ticks of ageing and spawning, a reset that lists the seeds again, and the next tick reuses the id 47, so that a second buyer finds no file |
| ResetSeeds.LatePutBack | src/server/server_main.c:554-560 | a run from the seeds in which a purchase is put back after market_init and leaves an offer without its file |
| Leak.ChooseTag | src/server/events.c:552-562 | the loop and the roll choose the specified tag |
| Leak.ChoiceLawful | src/server/events.c:549-562 | a leak picks one of the tags on sale and not frozen, any of them for some roll, and gives up iff there is none |
| Leak.StepKeeps | src/server/events.c:532-594 | every step keeps the flags true and every frozen tag due for recovery |
| Leak.BackedIsCovered | src/server/events.c:532-594 | being due is the same as the mask being covered by the union of outstanding recoveries |
| Leak.EveryRun | src/server/events.c:532-594 | in every run of leaks, resets and trades: flags true, a take refused iff tags meet the mask, the mask covered by what is owed, and nothing frozen when nothing is owed |
| Leak.ExactIffTimely | src/server/events.c:532-594 | the mask stays exactly what is owed iff a thaw has no other thread owing its tag and a reset finds nothing frozen |
| Leak.EveryRunExactIff | src/server/events.c:532-594 | over every run from an empty market the mask is exactly what is owed throughout iff every step is timely |
| Leak.LeakFreezes | src/server/events.c:532-594 | an undisturbed leak freezes one tag that is on sale and not frozen and starts its recovery, or does nothing when there is none |
| Leak.LeakThaws | src/server/events.c:532-545 | its recovery takes exactly that tag off the mask |
| Leak.TwinLeaksThawEarly | src/server/events.c:549-565 | a run from the start: two leaks look before either freezes, and the first recovery thaws the tag of the second |
| Round.StepBalances | src/server/server_main.c:355-364 | claims, timers, failures and resets balance after every step |
| Round.OneCountdown | src/server/server_main.c:355-364 | in every interleaving the flag is set iff exactly one thread owns the countdown; idle means resets = timers started |
| Round.TimerResets | src/server/server_main.c:165-182 | a timer that wakes finds the flag set and gives exactly one reset |
| Round.LadderTells | src/server/server_main.c:688-726 | in every interleaving the goal (10000, 12000, then 14000), the cap time (that of the second escape) and the log are those of the escapes of the round, and a scoreboard shows the first three |
| Round.PayoffIff | src/server/server_main.c:688-726 | in every run a payoff counts iff it covers the goal of the escapes so far; it is logged, and triggers the countdown iff it is at least the third |
| Round.CapCheckIff | src/server/events.c:603-615 | in every run the cap check triggers iff two have escaped and 300 seconds have passed since the second did |
| Round.OnlyTriggers | src/server/server_main.c:768-773 | nothing else but the debug request triggers a countdown |
| Round.TriggerResets | src/server/server_main.c:355-443 | in every run a trigger is dropped iff a countdown is on, and else claims it, shows the first escapes, starts the timer, and that resets the round; if the timer cannot start, the flag is released |
| Round.ThreeEscape | src/server/server_main.c:688-726 | a run from the start in which the third escape is about to end the round |
| Escape.ClimbTells | src/server/server_main.c:700-720 | one more escape turns the ladder that tells n escapes (goals 10000, 12000, then 14000; who and when) into that of n + 1 |
| Raid.RaidDesk.Fire | src/server/server_main.c:237-263 | opens a raid on exactly the active keys iff none is on |
| Raid.RaidDesk.FindEntry | src/server/server_main.c:831-850 | finds the key's entry while the raid is on and in time |
| Raid.RaidDesk.Submit | src/server/server_main.c:831-880 | a submit in time erases the entry found, for a right and for a wrong code, and otherwise changes nothing |
| Raid.RaidDesk.TimeOut | src/server/server_main.c:210-228 | collects everyone still waiting, empties the list and ends the raid |
| Raid.RaidDesk.CallOff | src/server/server_main.c:293-299 | empties the list and ends the raid |
| Raid.StepOwned | src/server/server_main.c:237-303 | after every step a nonzero deadline means exactly one firing or timer thread |
| Raid.StepAccounted | src/server/server_main.c:210-349 | every step but a late erasure keeps each raid's snapshot equal to its resolved and open keys |
| Raid.EveryRunAccountedIff | src/server/server_main.c:835-869 | over every interleaving, submits in their two sections, the accounts hold throughout iff every erasure finds its entry as it was looked up, still of the same raid |
| Raid.EveryRun | src/server/server_main.c:210-349 | in every such run each key of a raid has exactly one fate: cleared, burned wrong, burned late, let off or still open; nobody else is burned |
| Raid.EndedIsResolved | src/server/server_main.c:218-232 | a raid that ended has resolved its whole snapshot |
| Raid.RightAnswerSpares | src/server/server_main.c:852-863 | a right answer in time is never followed by a burn of that key by that raid |
| Raid.TimelyAnswerSpares | src/server/server_main.c:852-863 | the same of an answer in two sections whose erasure finds the entry |
| Raid.ActiveDistinct | src/server/server_main.c:251-261 | distinct active keys give a snapshot of distinct keys |
| Raid.SplitSubmitIff | src/server/server_main.c:835-869 | with its two sections separated a submit keeps the account iff the entry is still the one found, of the same raid |
| Raid.SplitSubmitStrands | src/server/server_main.c:835-869 | otherwise a right answer is burned all the same and another key's entry is lost |
| RaidAnswers.SubmitDecides | src/server/server_main.c:831-880 | in every state of the invariant a submit of a waiting key in time takes it off the list and clears it for the right code and burns it for any other; otherwise nothing changes |
| RaidAnswers.SplitSubmitDecides | src/server/server_main.c:831-880 | the same of a submit in two sections with any steps between: the code at the look decides, if the entry is still there |
| RaidAnswers.ActiveKeysAre | src/server/server_main.c:251-261 | the snapshot holds a key as often as connected clients are logged in with it |
| RaidAnswers.RaidBegins | src/server/server_main.c:237-263 | a raid begins iff none is on: fifteen seconds, the code, and one entry for each active client |
| RaidAnswers.SelfRaidBegins | src/server/server_main.c:312-349 | a raid on oneself begins iff none is on, with that one key |
| RaidAnswers.RaidGoesOn | src/server/server_main.c:265-303 | what follows a begun raid: over at once without entries, a timer, or all let off when the timer cannot start |
| RaidAnswers.SilentAreBurned | src/server/server_main.c:210-232 | the timer ends the raid and burns exactly those still waiting, all of them |
| Logins.DistinctIff | src/server/server_main.c:1026-1077 | with the duplicate test and the entry apart, the active keys stay distinct throughout a run iff no session enters behind another with its key |
| Logins.CheckDecides | src/server/server_main.c:1026-1050 | the test turns a key away iff some other session is in with it |
| Logins.EnterDecides | src/server/server_main.c:1051-1077 | who has passed is in under its key, unless the account is burned |
| Logins.SerialLogins | src/server/server_main.c:1026-1077 | logins one at a time keep them distinct in every run, so raids snapshot distinct keys |
| Logins.LoginRace | src/server/server_main.c:1026-1077 | two clients tested before either enters have one key active twice |
| Locks.StepKeeps | src/server/server_main.c:39-65 | mutual exclusion and the lock discipline of every thread are kept by every step |
| Locks.SomeHolderMoves | src/server/server_main.c:39-65 | behind every blocked thread a lock holder can move |
| Locks.ServerNeutral | src/server/server_main.c:1269-1376 | the programs of all threads lock in order and release on every path |
| Locks.RumorNeutral | src/server/server_main.c:933-981 | every path of the sabotage handler releases both locks it takes |
| Locks.RaidNeutral | src/server/server_main.c:237-349 | every path of the raid functions releases, clients nested in raid |
| Locks.ServerNeverDeadlocks | src/server/server_main.c:1269-1376 | in every reachable state of the server with all its threads no mutex has two holders, finished threads hold none, and some holder can move when any thread is blocked |
| Locks.OnlyTwoNestings | src/server/server_main.c:39-65 | in every reachable state a thread that is about to lock holds no other mutex, but for clients under raid and accounts under rumor |
| LockUses.HandlerSites | src/server/server_main.c:510-668 | how many critical sections on each mutex the programs of purchase, sale, login and the smaller handlers have |
| LockUses.RoundSites | src/server/server_main.c:95-182 | the same of the round end and its timer |
| LockUses.RaidSites | src/server/server_main.c:190-349 | the same of the raid functions |
| LockUses.EventSites | src/server/events.c:412-594 | the same of spawning, ageing and leaks |
| LockUses.Nesting | src/server/server_main.c:933-966 | a sabotage uses the account twice before it lets go of the rumor and locks nothing else there; a raid reads the clients once before it lets go of the raid |
| Locks.CrossedNestingDeadlocks | src/server/server_main.c:39-65 | without one order two threads can block each other |
| Scoreboard.CopyKeys | src/server/server_main.c:381-391 | copies exactly the active keys |
| Scoreboard.CollectRank | src/server/server_main.c:395-415 | collects the entries of the keys that rank |
| Scoreboard.StandingIs | src/server/server_main.c:393-415 | a connected key is left out iff it is in the log shown, has no account or is burned, and otherwise stands there once per connection with its balance; nothing else stands there |
| Scoreboard.SortRank | src/server/server_main.c:417-426 | the selection sort gives a descending permutation |
| Scoreboard.RankRemaining | src/server/server_main.c:380-443 | what is sent is the start of a descending permutation of the standing, at most seven |
| Scoreboard.SentDominates | src/server/server_main.c:439-443 | every entry sent is at least every entry left out, and none is left out while fewer than seven are sent |
| Scoreboard.SentIsStanding | src/server/server_main.c:393-443 | no entry sent is that of a logged, burned or missing account, and each has the balance of its account |
| Client.ClientState.OnMarketSpawn | src/client/ui_client.c:810-819 | appends the offer, marked by the mask, while there is room |
| Client.ClientState.OnMarketRemove | src/client/ui_client.c:830-836 | removes the first match by moving the last entry into its place |
| Client.ClientState.OnNpcSpawn | src/client/ui_client.c:845-851 | appends the request while there is room |
| Client.ClientState.OnNpcDespawn | src/client/ui_client.c:860-866 | removes the first match |
| Client.ClientState.OnNewsLeak | src/client/ui_client.c:875-880 | joins the mask and marks what it meets |
| Client.ClientState.OnNewsRecover | src/client/ui_client.c:906-911 | drops the tags and recomputes every mark |
| Client.ClientState.OnPacket | src/client/ui_client.c:764-982 | the packet loop performs the specified update for every packet |
| Client.SpawnsFit | src/client/ui_client.c:810-819 | offers fit while fewer than 32 are shown, requests while fewer than 16 |
| Client.RemovalMovesLast | src/client/ui_client.c:830-836 | a removal closes the first entry of its id with the last entry and touches no other |
| Client.DespawnMovesLast | src/client/ui_client.c:860-866 | the same of requests |
| Sync.WelcomeAgrees | src/server/server_main.c:1085-1140 | a client that logs in at any moment agrees with the server after its welcome packets |
| Sync.StepAgrees | src/server/server_main.c:95-158 | after every event and its broadcasts a client that agreed before still agrees |
| Sync.StepReady | src/server/events.c:412-524 | with fresh ids every event keeps one entry per id on both boards |
| Sync.EveryClientAgrees | src/client/ui_client.c:764-982 | over every run before and after a join the client holds exactly the server's offers, requests, mask, marks and goal, and never overflows |
| SyncIds.CountedClientAgrees | src/server/events.c:25-26 | with the server's counters the ids are new and every client agrees, resets included, while fewer than 47 documents and 102 requests have been counted |
| SyncRemovals.RemoveAgreesIff | src/client/ui_client.c:830-836 | with an id twice on sale, a removal keeps agreement iff the client's first entry is the offer taken |
| SyncRemovals.DespawnAgreesIff | src/client/ui_client.c:860-866 | the same of requests |
| SyncRemovals.AgeAgreesIff | src/server/events.c:493-524 | an ageing pass keeps agreement iff the client drops the same offers and requests, in whatever order |
| SyncRemovals.StepAgreesIff | src/client/ui_client.c:764-982 | spawns, leaks, recoveries, goals and resets always keep agreement; removals do iff both sides remove the same entries |
| SyncRemovals.EveryClientAgreesIff | src/client/ui_client.c:764-982 | whatever ids are reused, a client that joins any run agrees throughout iff every removal removes the same entries on both sides |
| SyncRaces.SurplusBalances | src/server/server_main.c:562-581 | with boards and broadcasts apart, what the copy lists too much of an id is its lost removals less its lost entries |
| SyncRaces.QuietAgreesIff | src/server/server_main.c:562-581 | when no packet is under way, copy and board list the same ids iff the losses cancel |
| SyncRaces.JoinedRunIff | src/server/events.c:425-441 | in every interleaving a joined client stays even throughout iff no removal overtakes its entry and no entry finds the copy full |
| SyncRaces.SnapshotIff | src/server/server_main.c:1085-1110 | a client is even from its snapshot on iff entries and removals since its greeting are as many |
| SyncRaces.RemovalOvertakes | src/server/events.c:430-441 | a run from the start after which the client shows an offer that is gone |
| SyncRaces.JoinSeesTwice | src/server/server_main.c:1085-1110 | a run from the start after which a client that joined shows an offer twice |
| SyncWhole.SpawnSeen | src/server/events.c:425-441 | list and announce with no other thread between leave on board and copy the ids that the spawn event and its packet leave; on a full board nothing |
| SyncWhole.BuySeen | src/server/server_main.c:562-581 | remove and retract are the purchase and its packet |
| SyncWhole.AgeSeen | src/server/events.c:508-524 | remove and retract one by one are the ageing event and its packets |
| SyncWhole.WelcomeSeen | src/server/server_main.c:1085-1140 | greet, read the board and send it entry by entry are the welcome packets |
| SyncIds.ReusedIdParts | src/client/ui_client.c:830-836 | a reused id after which board and copy hold different offers |
| Sync.FailedLeakIff | src/server/events.c:565-590 | a leak whose timer fails to start leaves the clients in agreement iff it froze nothing |
| Codec.SwitchesCover | src/common/protocol.c:27-173 | for every type but a login failure the two switches touch exactly the integers and string ends of the packed struct, each once |
| Codec.LayoutIsTidy | src/common/protocol.h:102-231 | in any packed struct integers do not overlap each other or a terminator |
| Codec.FlipAllTwice | src/common/protocol.c:27-117 | swapping is its own inverse |
| Codec.ClearFlipCommute | src/common/protocol.c:27-173 | swapping and terminating commute |
| Codec.RoundTrip | src/common/protocol.c:176-214 | receiving what was sent gives the original with its strings terminated, for every packet of every type |
| Codec.FieldsArrive | src/common/protocol.c:176-214 | between hosts of any byte order type, session and every integer arrive, for every type but a login failure |
| Codec.TextArrives | src/common/protocol.c:120-173 | every other byte arrives as in the terminated original |
| Codec.LoginFailCode | src/common/protocol.c:66-68 | the code of a login failure arrives iff the hosts agree or its bytes are a palindrome; the two codes the server sends do not |
| CodecWire.BodyLengths | src/common/protocol.h:102-231 | the bodies, by type number, are as long as their packed structs, and the longest fills the packet |
| CodecWire.WireIsNetworkOrder | src/common/protocol.c:198-214 | on the wire type, session and every integer have their most significant byte first, whoever sends |
| CodecWire.StringsArrive | src/common/protocol.c:120-195 | by the layout: the last byte of each string arrives as zero, every other byte as it was |
| CodecBuffers.SwapPacketEndian | src/common/protocol.c:27-117 | the switch swaps in place exactly its table's integers |
| CodecBuffers.EnforceNullTermination | src/common/protocol.c:120-173 | the switch clears in place exactly its table's bytes |
| CodecBuffers.PacketSend | src/common/protocol.c:198-214 | the bytes for the wire, with the packet itself unchanged |
| CodecBuffers.PacketRecv | src/common/protocol.c:176-195 | the buffer after decoding a whole packet |

## Left out

- The socket layer, the accept loop's refusals, partial sends and receives, and errors of the file system other than a failing rename.
- EconomyRuns.StepKeeps: takes each handler as one step, although the source reads and writes the account in separate sections; AccountLedger.AtomicWhenUndisturbed says when that is the same.
- EconomyRuns.LedgerBalances: the same; AccountLedger.LedgerIff gives the exact condition when the sections are apart.
- EconomyRuns.BurnedForEver: the same; AccountRaces.BurnFinalIff gives the exact condition when the sections are apart.
- Raid.EveryRun: holds of runs in which every erasure finds its entry; Raid.SplitSubmitStrands shows that it is false otherwise.
- Purchase.StepKeeps: has no round reset among its steps, which unlinks files under buyers on their way; PurchaseResets.ResetRunIff adds it and gives the exact condition.
- Purchase.RunSafeIff: the same.
- Purchase.RunKeeps: the same.
- Purchase.FreshRunKeeps: the same.
- PurchaseSeeds.SafeBeforeLowestSeed: runs up to the first reset; ResetSeeds.ServerRunIff has the resets.
- PurchaseSeeds.CountedRunIff: the same.
- Sync.EveryClientAgrees: takes a step of the server and its broadcasts as one, and spawned ids that their board does not have; SyncRemovals.EveryClientAgreesIff drops the second condition, SyncRaces.JoinedRunIff the first.
- SyncIds.CountedClientAgrees: takes a step and its broadcasts as one.
- SyncRaces.JoinedRunIff: follows the ids of the market in one client's copy; requests, marks and the packets of a round reset are not taken apart from their steps.
- Server.GameServer.HandleLogin: tests and enters in one step; Logins.DistinctIff says when that matters.
- Server.GameServer.SortInPlace: states the result of the library's qsort and does not model its algorithm.
- Server.GameServer.HandleSell: requires the account to exist, since the source does not check its last lookup.
- Client table slots and sockets: in `Economy.dfy` and `Server.dfy` the logged-in keys are a set; `Raid.dfy` and `Scoreboard.dfy` read the table slot by slot.
- The debug request that fills any account to the goal, a burned one too, is in `Locks.dfy` only, not in the money laws.
- The names of the seed documents and of spawned documents are opaque values; headlines, chat and news pools are data only.
- The inventory fields of a user record, path building and directory order: a directory is a map from ids to documents.
- Sleep lengths and the length of the countdown: steps may come in any order and at any time.
- The client's inventory list, balance, scoreboard, chat and screens; audio and the watchdog.
