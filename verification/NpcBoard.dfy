// The request board of market.c: sixteen NPC slots, taken by the first seller and
// aged out the sooner the more tags they ask for.
module NpcBoard {
  import opened Prelude
  import opened Tags

  const EVT_NPC_MAX_AGE_SEC := 140
  const EVT_NPC_AGE_STEP_SEC := 30
  const NPC_MIN_AGE_SEC := 60

  datatype Request = Request(npcId: int, requiredTags: bv32, bounty: int)

  datatype NpcSlot = NpcSlot(request: Request, active: bool, spawnTime: int)

  const EMPTY_NPC := NpcSlot(Request(0, 0, 0), false, 0)

  function EmptyNpcs(): seq<NpcSlot> {
    seq(MAX_NPC_SLOTS, _ => EMPTY_NPC)
  }

  function Cells(slots: seq<NpcSlot>): (cells: seq<Option<Request>>)
    ensures |cells| == |slots|
  {
    seq(|slots|, i requires 0 <= i < |slots| => if slots[i].active then Some(slots[i].request) else None)
  }

  function IdCells(slots: seq<NpcSlot>): (cells: seq<Option<int>>)
    ensures |cells| == |slots|
  {
    seq(|slots|, i requires 0 <= i < |slots| => if slots[i].active then Some(slots[i].request.npcId) else None)
  }

  /** The open requests, whichever slots they are in. */
  function Requests(slots: seq<NpcSlot>): multiset<Request> {
    Bag(Cells(slots))
  }

  function Ids(slots: seq<NpcSlot>): multiset<int> {
    Bag(IdCells(slots))
  }

  function FirstFreeFrom(slots: seq<NpcSlot>, i: nat): (r: nat)
    requires i <= |slots|
    ensures i <= r <= |slots|
    ensures forall j :: i <= j < r ==> slots[j].active
    ensures r < |slots| ==> !slots[r].active
    decreases |slots| - i
  {
    if i == |slots| || !slots[i].active then i else FirstFreeFrom(slots, i + 1)
  }

  predicate Asks(slot: NpcSlot, npcId: int) {
    slot.active && slot.request.npcId == npcId
  }

  function FindFrom(slots: seq<NpcSlot>, npcId: int, i: nat): (r: nat)
    requires i <= |slots|
    ensures i <= r <= |slots|
    ensures forall j :: i <= j < r ==> !Asks(slots[j], npcId)
    ensures r < |slots| ==> Asks(slots[r], npcId)
    decreases |slots| - i
  {
    if i == |slots| || Asks(slots[i], npcId) then i else FindFrom(slots, npcId, i + 1)
  }

  predicate HasRoom(slots: seq<NpcSlot>) {
    FirstFreeFrom(slots, 0) < |slots|
  }

  function AddRequest(slots: seq<NpcSlot>, request: Request, now: int): seq<NpcSlot> {
    if HasRoom(slots) then slots[FirstFreeFrom(slots, 0) := NpcSlot(request, true, now)] else slots
  }

  function Find(slots: seq<NpcSlot>, npcId: int): Option<Request> {
    var i := FindFrom(slots, npcId, 0);
    if i < |slots| then Some(slots[i].request) else None
  }

  function AfterTake(slots: seq<NpcSlot>, npcId: int): seq<NpcSlot> {
    var i := FindFrom(slots, npcId, 0);
    if i < |slots| then slots[i := slots[i].(active := false)] else slots
  }

  /** The harder a request, the shorter it stays, but never under a minute. */
  function MaxAge(tags: bv32, base: int, step: int): int {
    var age := base - (PopCount(tags) - 1) * step;
    if age < NPC_MIN_AGE_SEC then NPC_MIN_AGE_SEC else age
  }

  predicate Expired(slot: NpcSlot, base: int, step: int, now: int) {
    slot.active && now - slot.spawnTime > MaxAge(slot.request.requiredTags, base, step)
  }

  function Aged(slot: NpcSlot, base: int, step: int, now: int): NpcSlot {
    if Expired(slot, base, step, now) then slot.(active := false) else slot
  }

  function AgeOut(slots: seq<NpcSlot>, base: int, step: int, now: int): seq<NpcSlot> {
    seq(|slots|, i requires 0 <= i < |slots| => Aged(slots[i], base, step, now))
  }

  function ExpiredCells(slots: seq<NpcSlot>, base: int, step: int, now: int): (cells: seq<Option<int>>)
    ensures |cells| == |slots|
  {
    seq(|slots|, i requires 0 <= i < |slots| =>
      if Expired(slots[i], base, step, now) then Some(slots[i].request.npcId) else None)
  }

  function AgedIds(slots: seq<NpcSlot>, base: int, step: int, now: int): seq<int> {
    Live(ExpiredCells(slots, base, step, now))
  }

  function Snapshot(slots: seq<NpcSlot>): seq<Request> {
    Live(Cells(slots))
  }

  lemma SlotUpdate(slots: seq<NpcSlot>, i: nat, slot: NpcSlot)
    requires i < |slots|
    ensures Bag(Cells(slots[i := slot])) + One(Cells(slots)[i]) == Bag(Cells(slots)) + One(Cells([slot])[0])
    ensures Bag(IdCells(slots[i := slot])) + One(IdCells(slots)[i]) == Bag(IdCells(slots)) + One(IdCells([slot])[0])
  {
    hide Bag;
    BagUpdate(Cells(slots), i, Cells([slot])[0]);
    assert Cells(slots[i := slot]) == Cells(slots)[i := Cells([slot])[0]];
    BagUpdate(IdCells(slots), i, IdCells([slot])[0]);
    assert IdCells(slots[i := slot]) == IdCells(slots)[i := IdCells([slot])[0]];
  }

  lemma AddKeeps(slots: seq<NpcSlot>, request: Request, now: int)
    ensures Requests(AddRequest(slots, request, now))
         == Requests(slots) + (if HasRoom(slots) then multiset{request} else multiset{})
    ensures Ids(AddRequest(slots, request, now))
         == Ids(slots) + (if HasRoom(slots) then multiset{request.npcId} else multiset{})
  {
    hide Bag;
    if HasRoom(slots) {
      SlotUpdate(slots, FirstFreeFrom(slots, 0), NpcSlot(request, true, now));
    }
  }

  lemma TakeKeeps(slots: seq<NpcSlot>, npcId: int)
    ensures match Find(slots, npcId)
      case None => AfterTake(slots, npcId) == slots
      case Some(request) =>
        && request.npcId == npcId
        && Requests(slots) == Requests(AfterTake(slots, npcId)) + multiset{request}
        && Ids(slots) == Ids(AfterTake(slots, npcId)) + multiset{npcId}
  {
    hide Bag;
    var i := FindFrom(slots, npcId, 0);
    if i < |slots| {
      SlotUpdate(slots, i, slots[i].(active := false));
    }
  }

  lemma AgeKeeps(slots: seq<NpcSlot>, base: int, step: int, now: int)
    ensures Ids(slots) == Ids(AgeOut(slots, base, step, now)) + multiset(AgedIds(slots, base, step, now))
    ensures Requests(AgeOut(slots, base, step, now)) <= Requests(slots)
  {
    hide Bag, Live, MaxAge;
    var after := AgeOut(slots, base, step, now);
    BagDeal(IdCells(slots), IdCells(after), ExpiredCells(slots, base, step, now));
    BagIsLive(ExpiredCells(slots, base, step, now));
    AgeDealsRequests(slots, base, step, now);
  }

  lemma AgeDealsRequests(slots: seq<NpcSlot>, base: int, step: int, now: int)
    ensures Requests(AgeOut(slots, base, step, now)) <= Requests(slots)
  {
    hide Bag, Live, MaxAge;
    var gone := seq(|slots|, i requires 0 <= i < |slots| =>
      if Expired(slots[i], base, step, now) then Some(slots[i].request) else None);
    BagDeal(Cells(slots), Cells(AgeOut(slots, base, step, now)), gone);
  }

  lemma EmptyIsEmpty()
    ensures Requests(EmptyNpcs()) == multiset{} && Ids(EmptyNpcs()) == multiset{}
  {
    BagAllEmpty(Cells(EmptyNpcs()));
    BagAllEmpty(IdCells(EmptyNpcs()));
  }

  // Conservation over runs.

  datatype NpcOp = AddOp(request: Request, now: int) | TakeOp(npcId: int) | AgeOp(base: int, step: int, now: int)

  function Apply(slots: seq<NpcSlot>, op: NpcOp): seq<NpcSlot> {
    match op
    case AddOp(request, now) => AddRequest(slots, request, now)
    case TakeOp(npcId) => AfterTake(slots, npcId)
    case AgeOp(base, step, now) => AgeOut(slots, base, step, now)
  }

  function Reported(slots: seq<NpcSlot>, op: NpcOp): Tally {
    match op
    case AddOp(request, _) =>
      Tally(if HasRoom(slots) then multiset{request.npcId} else multiset{}, multiset{}, multiset{})
    case TakeOp(npcId) => Tally(multiset{}, if Find(slots, npcId).Some? then multiset{npcId} else multiset{}, multiset{})
    case AgeOp(base, step, now) => Tally(multiset{}, multiset{}, multiset(AgedIds(slots, base, step, now)))
  }

  function Run(ops: seq<NpcOp>): (seq<NpcSlot>, Tally) {
    if ops == [] then (EmptyNpcs(), Tally(multiset{}, multiset{}, multiset{}))
    else
      var (slots, t) := Run(ops[..|ops| - 1]);
      var op := ops[|ops| - 1];
      var r := Reported(slots, op);
      (Apply(slots, op), Tally(t.added + r.added, t.taken + r.taken, t.aged + r.aged))
  }

  lemma ApplyConserves(slots: seq<NpcSlot>, op: NpcOp)
    ensures var r := Reported(slots, op); Ids(slots) + r.added == Ids(Apply(slots, op)) + r.taken + r.aged
  {
    hide Ids, Requests, AddRequest, AfterTake, AgeOut, AgedIds, Find, HasRoom;
    match op
    case AddOp(request, now) => AddKeeps(slots, request, now);
    case TakeOp(npcId) => TakeKeeps(slots, npcId);
    case AgeOp(base, step, now) => AgeKeeps(slots, base, step, now);
  }

  /** Every id, in every run: successful adds are the takes, the aged removals and the
      open requests together. */
  lemma {:induction false} RunConserves(ops: seq<NpcOp>)
    ensures var (slots, t) := Run(ops); t.added == t.taken + t.aged + Ids(slots)
  {
    hide Ids, Apply, Reported, EmptyNpcs;
    if ops == [] {
      EmptyIsEmpty();
    } else {
      var (slots, t) := Run(ops[..|ops| - 1]);
      var op := ops[|ops| - 1];
      RunConserves(ops[..|ops| - 1]);
      ApplyConserves(slots, op);
      Settle(t.added, t.taken, t.aged, Ids(slots), Reported(slots, op), Ids(Apply(slots, op)));
    }
  }

  /** Which requests an ageing pass with the constants of events.h takes away. */
  lemma AgesByDifficulty(slot: NpcSlot, now: int)
    requires slot.active && 1 <= PopCount(slot.request.requiredTags) <= 3
    ensures Expired(slot, EVT_NPC_MAX_AGE_SEC, EVT_NPC_AGE_STEP_SEC, now)
      <==> now - slot.spawnTime > [140, 110, 80][PopCount(slot.request.requiredTags) - 1]
  {
    hide PopCount;
  }

  // The module's functions, over the array that they scan.

  method AgeLimit(tags: bv32, base: int, step: int) returns (maxAge: int)
    ensures maxAge == MaxAge(tags, base, step)
  {
    var tagn := CountBits(tags);
    maxAge := base - (tagn - 1) * step;
    if maxAge < 60 {
      maxAge := 60;
    }
  }

  class NpcTable {
    const slots: array<NpcSlot>

    ghost predicate Valid() {
      slots.Length == MAX_NPC_SLOTS
    }

    constructor ()
      ensures Valid() && fresh(slots) && slots[..] == EmptyNpcs()
    {
      slots := new NpcSlot[MAX_NPC_SLOTS](_ => EMPTY_NPC);
    }

    method Init()
      requires Valid()
      modifies slots
      ensures slots[..] == EmptyNpcs()
    {
      forall i | 0 <= i < slots.Length {
        slots[i] := EMPTY_NPC;
      }
    }

    method Add(request: Request, now: int) returns (ok: bool)
      requires Valid()
      modifies slots
      ensures slots[..] == AddRequest(old(slots[..]), request, now)
      ensures ok == HasRoom(old(slots[..]))
    {
      for i := 0 to slots.Length
        invariant slots[..] == old(slots[..])
        invariant forall j :: 0 <= j < i ==> slots[j].active
      {
        if !slots[i].active {
          slots[i] := NpcSlot(request, true, now);
          assert FirstFreeFrom(old(slots[..]), 0) == i;
          return true;
        }
      }
      return false;
    }

    method FindRequest(npcId: int) returns (found: Option<Request>)
      requires Valid()
      ensures found == Find(slots[..], npcId)
    {
      for i := 0 to slots.Length
        invariant forall j :: 0 <= j < i ==> !Asks(slots[j], npcId)
      {
        if slots[i].active && slots[i].request.npcId == npcId {
          assert FindFrom(slots[..], npcId, 0) == i;
          return Some(slots[i].request);
        }
      }
      return None;
    }

    method TakeRequest(npcId: int) returns (found: Option<Request>)
      requires Valid()
      modifies slots
      ensures found == Find(old(slots[..]), npcId)
      ensures slots[..] == AfterTake(old(slots[..]), npcId)
    {
      for i := 0 to slots.Length
        invariant slots[..] == old(slots[..])
        invariant forall j :: 0 <= j < i ==> !Asks(slots[j], npcId)
      {
        if slots[i].active && slots[i].request.npcId == npcId {
          assert FindFrom(old(slots[..]), npcId, 0) == i;
          found := Some(slots[i].request);
          slots[i] := slots[i].(active := false);
          return;
        }
      }
      return None;
    }

    /** All expired requests go; the out array names the first of them, as many as fit. */
    method DespawnAged(base: int, step: int, now: int, outIds: array<int>, maxOut: nat) returns (count: nat)
      requires Valid() && maxOut <= outIds.Length && outIds as object != slots
      modifies slots, outIds
      ensures slots[..] == AgeOut(old(slots[..]), base, step, now)
      ensures var aged := AgedIds(old(slots[..]), base, step, now);
        count == (if |aged| < maxOut then |aged| else maxOut) && outIds[..count] == aged[..count]
    {
      hide Bag, MaxAge, Live;
      count := 0;
      ghost var before := slots[..];
      ghost var cells := ExpiredCells(before, base, step, now);
      LiveStep(cells, 0);
      for i := 0 to slots.Length
        invariant forall j :: 0 <= j < i ==> slots[j] == Aged(before[j], base, step, now)
        invariant forall j :: i <= j < slots.Length ==> slots[j] == before[j]
        invariant count == (if |Live(cells[..i])| < maxOut then |Live(cells[..i])| else maxOut)
        invariant outIds[..count] == Live(cells[..i])[..count]
      {
        LiveStep(cells, i);
        if slots[i].active {
          var maxAge := AgeLimit(slots[i].request.requiredTags, base, step);
          if now - slots[i].spawnTime > maxAge {
            if count < maxOut {
              outIds[count] := slots[i].request.npcId;
              count := count + 1;
            }
            slots[i] := slots[i].(active := false);
          }
        }
      }
      assert cells[..slots.Length] == cells;
    }
  }
}
