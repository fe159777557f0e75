// The market board of market.c: thirty-two slots, the mask of frozen tags and
// the frozen flag each slot caches.
module Market {
  import opened Prelude
  import opened Masks

  const MARKET_LIFE_MIN_SEC := 40
  const MARKET_LIFE_MAX_SEC := 90

  /** What a market slot sells. A document file holds the same four fields. */
  datatype Offer = Offer(docId: int, tags: bv32, price: int, name: Name)

  datatype MarketSlot = MarketSlot(offer: Offer, active: bool, frozen: bool, spawnTime: int, lifespan: int)

  const EMPTY_SLOT := MarketSlot(Offer(0, 0, 0, ""), false, false, 0, 0)

  datatype Board = Board(slots: seq<MarketSlot>, mask: bv32)

  datatype TakeResult = Taken(slot: MarketSlot) | Frozen | Missing

  function EmptyBoard(): Board {
    Board(seq(MAX_MARKET_SLOTS, _ => EMPTY_SLOT), 0)
  }

  // What a board holds.

  function Cells(slots: seq<MarketSlot>): (cells: seq<Option<Offer>>)
    ensures |cells| == |slots|
  {
    seq(|slots|, i requires 0 <= i < |slots| => if slots[i].active then Some(slots[i].offer) else None)
  }

  function IdCells(slots: seq<MarketSlot>): (cells: seq<Option<int>>)
    ensures |cells| == |slots|
  {
    seq(|slots|, i requires 0 <= i < |slots| => if slots[i].active then Some(slots[i].offer.docId) else None)
  }

  /** The offers on the board, whichever slots they are in. */
  function Offers(b: Board): multiset<Offer> {
    Bag(Cells(b.slots))
  }

  function Ids(b: Board): multiset<int> {
    Bag(IdCells(b.slots))
  }

  /** The cached flags tell the truth: an offer is flagged exactly when its tags meet the mask. */
  ghost predicate Consistent(b: Board) {
    forall i :: 0 <= i < |b.slots| && b.slots[i].active ==> (b.slots[i].frozen <==> Meets(b.slots[i].offer.tags, b.mask))
  }

  // The operations.

  function FirstFreeFrom(slots: seq<MarketSlot>, i: nat): (r: nat)
    requires i <= |slots|
    ensures i <= r <= |slots|
    ensures forall j :: i <= j < r ==> slots[j].active
    ensures r < |slots| ==> !slots[r].active
    decreases |slots| - i
  {
    if i == |slots| || !slots[i].active then i else FirstFreeFrom(slots, i + 1)
  }

  predicate Sells(slot: MarketSlot, docId: int) {
    slot.active && slot.offer.docId == docId
  }

  function FindFrom(slots: seq<MarketSlot>, docId: int, i: nat): (r: nat)
    requires i <= |slots|
    ensures i <= r <= |slots|
    ensures forall j :: i <= j < r ==> !Sells(slots[j], docId)
    ensures r < |slots| ==> Sells(slots[r], docId)
    decreases |slots| - i
  {
    if i == |slots| || Sells(slots[i], docId) then i else FindFrom(slots, docId, i + 1)
  }

  predicate HasRoom(b: Board) {
    FirstFreeFrom(b.slots, 0) < |b.slots|
  }

  function NewSlot(offer: Offer, mask: bv32, now: int, roll: nat): MarketSlot {
    MarketSlot(offer, true, Meets(offer.tags, mask), now,
               MARKET_LIFE_MIN_SEC + roll % (MARKET_LIFE_MAX_SEC - MARKET_LIFE_MIN_SEC + 1))
  }

  function AddOffer(b: Board, offer: Offer, now: int, roll: nat): Board {
    if HasRoom(b)
    then b.(slots := b.slots[FirstFreeFrom(b.slots, 0) := NewSlot(offer, b.mask, now, roll)])
    else b
  }

  function Find(b: Board, docId: int): Option<MarketSlot> {
    var i := FindFrom(b.slots, docId, 0);
    if i < |b.slots| then Some(b.slots[i]) else None
  }

  function Take(b: Board, docId: int): TakeResult {
    match Find(b, docId)
    case None => Missing
    case Some(slot) => if slot.frozen then Frozen else Taken(slot)
  }

  function AfterTake(b: Board, docId: int): Board {
    if Take(b, docId).Taken? then
      var i := FindFrom(b.slots, docId, 0);
      b.(slots := b.slots[i := b.slots[i].(active := false)])
    else b
  }

  function Freeze(b: Board, tags: bv32): Board {
    Board(seq(|b.slots|, i requires 0 <= i < |b.slots| =>
            if b.slots[i].active && Meets(b.slots[i].offer.tags, tags) then b.slots[i].(frozen := true) else b.slots[i]),
          Join(b.mask, tags))
  }

  function Unfreeze(b: Board, tags: bv32): Board {
    var mask := Drop(b.mask, tags);
    Board(seq(|b.slots|, i requires 0 <= i < |b.slots| =>
            if b.slots[i].active && Meets(b.slots[i].offer.tags, tags) && !Meets(b.slots[i].offer.tags, mask)
            then b.slots[i].(frozen := false) else b.slots[i]),
          mask)
  }

  predicate Expired(slot: MarketSlot, now: int) {
    slot.active && !slot.frozen && now - slot.spawnTime > slot.lifespan
  }

  function Aged(slot: MarketSlot, now: int): MarketSlot {
    if Expired(slot, now) then slot.(active := false) else slot
  }

  function AgeOut(b: Board, now: int): Board {
    b.(slots := seq(|b.slots|, i requires 0 <= i < |b.slots| => Aged(b.slots[i], now)))
  }

  function ExpiredCells(slots: seq<MarketSlot>, now: int): (cells: seq<Option<int>>)
    ensures |cells| == |slots|
  {
    seq(|slots|, i requires 0 <= i < |slots| => if Expired(slots[i], now) then Some(slots[i].offer.docId) else None)
  }

  /** The ids that an ageing pass removes, in slot order. */
  function AgedIds(b: Board, now: int): seq<int> {
    Live(ExpiredCells(b.slots, now))
  }

  /** A snapshot: the active slots in slot order. */
  function ActiveCells(slots: seq<MarketSlot>): (cells: seq<Option<MarketSlot>>)
    ensures |cells| == |slots|
  {
    seq(|slots|, i requires 0 <= i < |slots| => if slots[i].active then Some(slots[i]) else None)
  }

  function Snapshot(b: Board): seq<MarketSlot> {
    Live(ActiveCells(b.slots))
  }

  /** The union of the tags on sale. */
  function TagsOnSale(slots: seq<MarketSlot>): bv32 {
    if slots == [] then 0
    else
      var n := |slots| - 1;
      if slots[n].active then Join(TagsOnSale(slots[..n]), slots[n].offer.tags) else TagsOnSale(slots[..n])
  }

  /** A tag meets that union exactly when some offer carries it. */
  lemma {:induction false} OnSaleMeets(slots: seq<MarketSlot>, t: bv32)
    ensures Meets(t, TagsOnSale(slots)) <==> exists i :: 0 <= i < |slots| && slots[i].active && Meets(t, slots[i].offer.tags)
  {
    hide Meets, Join;
    if slots == [] {
      MeetsZero(t);
    } else {
      var n := |slots| - 1;
      OnSaleMeets(slots[..n], t);
      MeetsJoin(t, TagsOnSale(slots[..n]), slots[n].offer.tags);
      assert forall i :: 0 <= i < n ==> slots[..n][i] == slots[i];
    }
  }

  // What each operation does to the offers.

  lemma SlotUpdate(slots: seq<MarketSlot>, i: nat, slot: MarketSlot)
    requires i < |slots|
    ensures Bag(Cells(slots[i := slot])) + One(Cells(slots)[i]) == Bag(Cells(slots)) + One(Cells([slot])[0])
    ensures Bag(IdCells(slots[i := slot])) + One(IdCells(slots)[i]) == Bag(IdCells(slots)) + One(IdCells([slot])[0])
  {
    hide Bag;
    BagUpdate(Cells(slots), i, Cells([slot])[0]);
    assert Cells(slots[i := slot]) == Cells(slots)[i := Cells([slot])[0]];
    BagUpdate(IdCells(slots), i, IdCells([slot])[0]);
    assert IdCells(slots[i := slot]) == IdCells(slots)[i := IdCells([slot])[0]];
  }

  lemma AddKeeps(b: Board, offer: Offer, now: int, roll: nat)
    ensures Offers(AddOffer(b, offer, now, roll)) == Offers(b) + (if HasRoom(b) then multiset{offer} else multiset{})
    ensures Ids(AddOffer(b, offer, now, roll)) == Ids(b) + (if HasRoom(b) then multiset{offer.docId} else multiset{})
    ensures Consistent(b) ==> Consistent(AddOffer(b, offer, now, roll))
  {
    hide Meets, Bag;
    if HasRoom(b) {
      SlotUpdate(b.slots, FirstFreeFrom(b.slots, 0), NewSlot(offer, b.mask, now, roll));
    }
  }

  lemma AddKeepsMask(b: Board, offer: Offer, now: int, roll: nat)
    ensures AddOffer(b, offer, now, roll).mask == b.mask && |AddOffer(b, offer, now, roll).slots| == |b.slots|
  {
  }

  lemma TakeKeeps(b: Board, docId: int)
    ensures Take(b, docId).Taken? ==>
      Offers(b) == Offers(AfterTake(b, docId)) + multiset{Take(b, docId).slot.offer} && Take(b, docId).slot.offer.docId == docId
    ensures Take(b, docId).Taken? ==> Ids(b) == Ids(AfterTake(b, docId)) + multiset{docId}
    ensures !Take(b, docId).Taken? ==> AfterTake(b, docId) == b
    ensures Consistent(b) ==> Consistent(AfterTake(b, docId))
  {
    hide Meets, Bag;
    if Take(b, docId).Taken? {
      var i := FindFrom(b.slots, docId, 0);
      SlotUpdate(b.slots, i, b.slots[i].(active := false));
    }
  }

  lemma FreezeKeeps(b: Board, tags: bv32)
    ensures Offers(Freeze(b, tags)) == Offers(b) && Ids(Freeze(b, tags)) == Ids(b)
    ensures Consistent(b) ==> Consistent(Freeze(b, tags))
  {
    hide Meets, Join;
    var after := Freeze(b, tags);
    assert Cells(after.slots) == Cells(b.slots);
    assert IdCells(after.slots) == IdCells(b.slots);
    forall i | 0 <= i < |b.slots| && b.slots[i].active && Consistent(b)
      ensures after.slots[i].frozen <==> Meets(b.slots[i].offer.tags, after.mask)
    {
      MeetsJoin(b.slots[i].offer.tags, b.mask, tags);
    }
  }

  lemma UnfreezeKeeps(b: Board, tags: bv32)
    ensures Offers(Unfreeze(b, tags)) == Offers(b) && Ids(Unfreeze(b, tags)) == Ids(b)
    ensures Consistent(b) ==> Consistent(Unfreeze(b, tags))
  {
    hide Meets, Drop;
    var after := Unfreeze(b, tags);
    assert Cells(after.slots) == Cells(b.slots);
    assert IdCells(after.slots) == IdCells(b.slots);
    forall i | 0 <= i < |b.slots| && b.slots[i].active && Consistent(b)
      ensures after.slots[i].frozen <==> Meets(b.slots[i].offer.tags, after.mask)
    {
      MeetsDrop(b.slots[i].offer.tags, b.mask, tags);
    }
  }

  lemma AgeKeeps(b: Board, now: int)
    ensures Ids(b) == Ids(AgeOut(b, now)) + multiset(AgedIds(b, now))
    ensures Offers(AgeOut(b, now)) <= Offers(b)
    ensures Consistent(b) ==> Consistent(AgeOut(b, now))
  {
    hide Meets, Bag, Live;
    AgeDeals(b, now);
    BagIsLive(ExpiredCells(b.slots, now));
  }

  lemma AgeDeals(b: Board, now: int)
    ensures Ids(b) == Ids(AgeOut(b, now)) + Bag(ExpiredCells(b.slots, now))
    ensures Offers(AgeOut(b, now)) <= Offers(b)
  {
    hide Meets, Bag, Live;
    var after := AgeOut(b, now);
    BagDeal(IdCells(b.slots), IdCells(after.slots), ExpiredCells(b.slots, now));
    var gone := seq(|b.slots|, i requires 0 <= i < |b.slots| =>
      if Expired(b.slots[i], now) then Some(b.slots[i].offer) else None);
    BagDeal(Cells(b.slots), Cells(after.slots), gone);
  }

  lemma OfferHasId(b: Board, o: Offer)
    requires o in Offers(b)
    ensures o.docId in Ids(b)
  {
    BagMember(Cells(b.slots), o);
    var i :| 0 <= i < |b.slots| && Cells(b.slots)[i] == Some(o);
    assert IdCells(b.slots)[i] == Some(o.docId);
    BagMember(IdCells(b.slots), o.docId);
  }

  lemma EmptyIsEmpty()
    ensures Offers(EmptyBoard()) == multiset{} && Ids(EmptyBoard()) == multiset{} && Consistent(EmptyBoard())
  {
    BagAllEmpty(Cells(EmptyBoard().slots));
    BagAllEmpty(IdCells(EmptyBoard().slots));
  }

  /** The slots from k on are free. */
  ghost predicate FreeFrom(b: Board, k: nat) {
    |b.slots| == MAX_MARKET_SLOTS && forall j :: k <= j < |b.slots| ==> !b.slots[j].active
  }

  lemma FreeRoom(b: Board, k: nat, doc: Offer, now: int, roll: nat)
    requires FreeFrom(b, k) && k < MAX_MARKET_SLOTS
    ensures HasRoom(b) && FreeFrom(AddOffer(b, doc, now, roll), k + 1)
  {
    hide Meets;
    assert !b.slots[k].active;
    assert FirstFreeFrom(b.slots, 0) <= k;
  }

  lemma EmptyFree()
    ensures FreeFrom(EmptyBoard(), 0) && EmptyBoard().mask == 0
  {
  }

  /** On a consistent board, an offer on sale is refused exactly when its tags meet the mask. */
  lemma TakeRefusesFrozen(b: Board, docId: int)
    requires Consistent(b)
    ensures Take(b, docId).Missing? <==> docId !in Ids(b)
    ensures docId in Ids(b) ==>
      Find(b, docId).Some?
      && var slot := Find(b, docId).value;
      slot.offer.docId == docId && slot.offer in Offers(b)
      && (Take(b, docId).Frozen? <==> Meets(slot.offer.tags, b.mask))
  {
    hide Meets;
    BagMember(IdCells(b.slots), docId);
    var i := FindFrom(b.slots, docId, 0);
    if i < |b.slots| {
      assert IdCells(b.slots)[i] == Some(docId);
      BagMember(Cells(b.slots), b.slots[i].offer);
      assert Cells(b.slots)[i] == Some(b.slots[i].offer);
    } else {
      forall j | 0 <= j < |b.slots| ensures IdCells(b.slots)[j] != Some(docId) {
        assert !Sells(b.slots[j], docId);
      }
    }
  }

  // Conservation over runs.

  datatype BoardOp =
    | AddOp(offer: Offer, now: int, roll: nat)
    | TakeOp(docId: int)
    | AgeOp(now: int)
    | FreezeOp(tags: bv32)
    | UnfreezeOp(tags: bv32)

  function Apply(b: Board, op: BoardOp): Board {
    match op
    case AddOp(offer, now, roll) => AddOffer(b, offer, now, roll)
    case TakeOp(docId) => AfterTake(b, docId)
    case AgeOp(now) => AgeOut(b, now)
    case FreezeOp(tags) => Freeze(b, tags)
    case UnfreezeOp(tags) => Unfreeze(b, tags)
  }

  function Reported(b: Board, op: BoardOp): Tally {
    match op
    case AddOp(offer, _, _) => Tally(if HasRoom(b) then multiset{offer.docId} else multiset{}, multiset{}, multiset{})
    case TakeOp(docId) => Tally(multiset{}, if Take(b, docId).Taken? then multiset{docId} else multiset{}, multiset{})
    case AgeOp(now) => Tally(multiset{}, multiset{}, multiset(AgedIds(b, now)))
    case _ => Tally(multiset{}, multiset{}, multiset{})
  }

  /** The board after a run since market_init, with everything reported on the way. */
  function Run(ops: seq<BoardOp>): (Board, Tally) {
    if ops == [] then (EmptyBoard(), Tally(multiset{}, multiset{}, multiset{}))
    else
      var (b, t) := Run(ops[..|ops| - 1]);
      var op := ops[|ops| - 1];
      var r := Reported(b, op);
      (Apply(b, op), Tally(t.added + r.added, t.taken + r.taken, t.aged + r.aged))
  }

  lemma ApplyConserves(b: Board, op: BoardOp)
    ensures var r := Reported(b, op); Ids(b) + r.added == Ids(Apply(b, op)) + r.taken + r.aged
    ensures Consistent(b) ==> Consistent(Apply(b, op))
  {
    hide Ids, Consistent, AddOffer, AfterTake, AgeOut, Freeze, Unfreeze, AgedIds, Take, HasRoom;
    match op
    case AddOp(offer, now, roll) => AddKeeps(b, offer, now, roll);
    case TakeOp(docId) => TakeKeeps(b, docId);
    case AgeOp(now) => AgeKeeps(b, now);
    case FreezeOp(tags) => FreezeKeeps(b, tags);
    case UnfreezeOp(tags) => UnfreezeKeeps(b, tags);
  }

  /** Every id, in every run: successful adds are the takes, the aged removals and the
      active slots together; and the cached flags stay true. */
  lemma {:induction false} RunConserves(ops: seq<BoardOp>)
    ensures var (b, t) := Run(ops); t.added == t.taken + t.aged + Ids(b) && Consistent(b)
  {
    hide Ids, Consistent, Apply, Reported, EmptyBoard;
    if ops == [] {
      EmptyIsEmpty();
    } else {
      var (b, t) := Run(ops[..|ops| - 1]);
      var op := ops[|ops| - 1];
      RunConserves(ops[..|ops| - 1]);
      ApplyConserves(b, op);
      Settle(t.added, t.taken, t.aged, Ids(b), Reported(b, op), Ids(Apply(b, op)));
    }
  }

  // The module's functions, over the array that they scan.

  class Market {
    const slots: array<MarketSlot>
    var frozenTags: bv32

    ghost predicate Valid() {
      slots.Length == MAX_MARKET_SLOTS
    }

    ghost function State(): Board
      reads this, slots
    {
      Board(slots[..], frozenTags)
    }

    constructor ()
      ensures Valid() && fresh(slots) && State() == EmptyBoard()
    {
      slots := new MarketSlot[MAX_MARKET_SLOTS](_ => EMPTY_SLOT);
      frozenTags := 0;
    }

    method Init()
      requires Valid()
      modifies this, slots
      ensures State() == EmptyBoard()
    {
      forall i | 0 <= i < slots.Length {
        slots[i] := EMPTY_SLOT;
      }
      frozenTags := 0;
    }

    method Add(offer: Offer, now: int, roll: nat) returns (ok: bool)
      requires Valid()
      modifies slots
      ensures State() == AddOffer(old(State()), offer, now, roll)
      ensures ok == HasRoom(old(State()))
    {
      hide Meets, Bag;
      for i := 0 to slots.Length
        invariant slots[..] == old(slots[..])
        invariant forall j :: 0 <= j < i ==> slots[j].active
      {
        if !slots[i].active {
          slots[i] := MarketSlot(offer, true, Meets(offer.tags, frozenTags), now,
                                 MARKET_LIFE_MIN_SEC + roll % (MARKET_LIFE_MAX_SEC - MARKET_LIFE_MIN_SEC + 1));
          assert FirstFreeFrom(old(slots[..]), 0) == i;
          return true;
        }
      }
      return false;
    }

    method FindOffer(docId: int) returns (found: Option<MarketSlot>)
      requires Valid()
      ensures found == Find(State(), docId)
    {
      for i := 0 to slots.Length
        invariant forall j :: 0 <= j < i ==> !Sells(slots[j], docId)
      {
        if slots[i].active && slots[i].offer.docId == docId {
          assert FindFrom(slots[..], docId, 0) == i;
          return Some(slots[i]);
        }
      }
      return None;
    }

    method TakeOffer(docId: int) returns (r: TakeResult)
      requires Valid()
      modifies slots
      ensures r == Take(old(State()), docId)
      ensures State() == AfterTake(old(State()), docId)
    {
      for i := 0 to slots.Length
        invariant slots[..] == old(slots[..])
        invariant forall j :: 0 <= j < i ==> !Sells(slots[j], docId)
      {
        if slots[i].active && slots[i].offer.docId == docId {
          assert FindFrom(old(slots[..]), docId, 0) == i;
          if slots[i].frozen {
            return Frozen;
          }
          r := Taken(slots[i]);
          slots[i] := slots[i].(active := false);
          return;
        }
      }
      return Missing;
    }

    method FreezeTags(tags: bv32)
      requires Valid()
      modifies this, slots
      ensures State() == Freeze(old(State()), tags)
    {
      hide Meets, Join;
      frozenTags := Join(frozenTags, tags);
      ghost var target := Freeze(old(State()), tags).slots;
      for i := 0 to slots.Length
        invariant frozenTags == Join(old(frozenTags), tags)
        invariant slots[..i] == target[..i] && slots[i..] == old(slots[..])[i..]
      {
        assert slots[i] == old(slots[..])[i];
        if slots[i].active && Meets(slots[i].offer.tags, tags) {
          slots[i] := slots[i].(frozen := true);
        }
      }
    }

    method UnfreezeTags(tags: bv32)
      requires Valid()
      modifies this, slots
      ensures State() == Unfreeze(old(State()), tags)
    {
      hide Meets, Drop;
      frozenTags := Drop(frozenTags, tags);
      ghost var target := Unfreeze(old(State()), tags).slots;
      for i := 0 to slots.Length
        invariant frozenTags == Drop(old(frozenTags), tags)
        invariant slots[..i] == target[..i] && slots[i..] == old(slots[..])[i..]
      {
        assert slots[i] == old(slots[..])[i];
        if slots[i].active && Meets(slots[i].offer.tags, tags) && !Meets(slots[i].offer.tags, frozenTags) {
          slots[i] := slots[i].(frozen := false);
        }
      }
    }

    method IsFull() returns (full: bool)
      requires Valid()
      ensures full == !HasRoom(State())
    {
      for i := 0 to slots.Length
        invariant forall j :: 0 <= j < i ==> slots[j].active
      {
        if !slots[i].active {
          return false;
        }
      }
      return true;
    }

    method IsTagFrozen(tags: bv32) returns (frozen: bool)
      ensures frozen == Meets(tags, State().mask)
    {
      return Meets(tags, frozenTags);
    }

    /** All expired unfrozen offers go; the out array names the first of them, as many as fit. */
    method DespawnAged(now: int, outIds: array<int>, maxOut: nat) returns (count: nat)
      requires Valid() && maxOut <= outIds.Length && outIds as object != slots
      modifies slots, outIds
      ensures State() == AgeOut(old(State()), now)
      ensures count == (if |AgedIds(old(State()), now)| < maxOut then |AgedIds(old(State()), now)| else maxOut)
      ensures outIds[..count] == AgedIds(old(State()), now)[..count]
    {
      hide Bag, Live;
      count := 0;
      ghost var before := slots[..];
      ghost var cells := ExpiredCells(before, now);
      LiveStep(cells, 0);
      for i := 0 to slots.Length
        invariant forall j :: 0 <= j < i ==> slots[j] == Aged(before[j], now)
        invariant forall j :: i <= j < slots.Length ==> slots[j] == before[j]
        invariant count == (if |Live(cells[..i])| < maxOut then |Live(cells[..i])| else maxOut)
        invariant outIds[..count] == Live(cells[..i])[..count]
      {
        LiveStep(cells, i);
        if slots[i].active && !slots[i].frozen && now - slots[i].spawnTime > slots[i].lifespan {
          if count < maxOut {
            outIds[count] := slots[i].offer.docId;
            count := count + 1;
          }
          slots[i] := slots[i].(active := false);
        }
      }
      assert cells[..slots.Length] == cells;
    }

    method ActiveTags() returns (mask: bv32)
      requires Valid()
      ensures mask == TagsOnSale(State().slots)
    {
      hide Join;
      mask := 0;
      for k := 0 to slots.Length
        invariant mask == TagsOnSale(slots[..k])
      {
        assert slots[..k + 1][..k] == slots[..k];
        if slots[k].active {
          mask := Join(mask, slots[k].offer.tags);
        }
      }
      assert slots[..slots.Length] == slots[..];
    }

    method TakeSnapshot(out: array<MarketSlot>, maxOut: nat) returns (count: nat)
      requires Valid() && maxOut <= out.Length && out != slots
      modifies out
      ensures count == (if |Snapshot(State())| < maxOut then |Snapshot(State())| else maxOut)
      ensures out[..count] == Snapshot(State())[..count]
    {
      hide Bag, Live;
      count := 0;
      ghost var cells := ActiveCells(slots[..]);
      LiveStep(cells, 0);
      for i := 0 to slots.Length
        invariant count == (if |Live(cells[..i])| < maxOut then |Live(cells[..i])| else maxOut)
        invariant out[..count] == Live(cells[..i])[..count]
        invariant slots[..] == old(slots[..])
      {
        LiveStep(cells, i);
        if slots[i].active && count < maxOut {
          out[count] := slots[i];
          count := count + 1;
        }
      }
      assert cells[..slots.Length] == cells;
    }
  }
}
