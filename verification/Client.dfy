// The client's copy of the boards in ui_client.c: two filled-from-the-front arrays with
// counts, the frozen mask and the goal, changed by every packet that arrives.
module Client {
  import opened Prelude
  import opened Masks
  import M = Market
  import N = NpcBoard

  const UI_MAX_MARKET := 32
  const UI_MAX_NPC := 16

  datatype Shown = Shown(offer: M.Offer, frozen: bool)

  const NOTHING_SHOWN := Shown(M.Offer(0, 0, 0, ""), false)
  const NO_REQUEST := N.Request(0, 0, 0)

  /** The packets that change the copy. */
  datatype Packet =
    | LoginOk(goal: int)
    | MarketSpawn(offer: M.Offer)
    | MarketRemove(docId: int)
    | NpcSpawn(request: N.Request)
    | NpcDespawn(npcId: int)
    | NewsLeak(frozenTags: bv32)
    | NewsRecover(recoveredTags: bv32)
    | ResetMarker
    | GoalUpdate(goal: int)

  datatype Copy = Copy(market: seq<Shown>, npcs: seq<N.Request>, mask: bv32, goal: int)

  // What a packet does.

  function FirstShown(market: seq<Shown>, docId: int, i: nat): (r: nat)
    requires i <= |market|
    ensures i <= r <= |market|
    ensures forall j :: i <= j < r ==> market[j].offer.docId != docId
    ensures r < |market| ==> market[r].offer.docId == docId
    decreases |market| - i
  {
    if i == |market| || market[i].offer.docId == docId then i else FirstShown(market, docId, i + 1)
  }

  function FirstRequest(npcs: seq<N.Request>, npcId: int, i: nat): (r: nat)
    requires i <= |npcs|
    ensures i <= r <= |npcs|
    ensures forall j :: i <= j < r ==> npcs[j].npcId != npcId
    ensures r < |npcs| ==> npcs[r].npcId == npcId
    decreases |npcs| - i
  {
    if i == |npcs| || npcs[i].npcId == npcId then i else FirstRequest(npcs, npcId, i + 1)
  }

  /** The last entry moves into the place of the removed one. */
  function Without<T>(items: seq<T>, i: nat): (r: seq<T>)
    requires i < |items|
    ensures |r| == |items| - 1
  {
    items[i := items[|items| - 1]][..|items| - 1]
  }

  function Marked(market: seq<Shown>, mask: bv32): (r: seq<Shown>)
    ensures |r| == |market|
  {
    seq(|market|, i requires 0 <= i < |market| => Shown(market[i].offer, Meets(market[i].offer.tags, mask)))
  }

  /** A leak only adds marks. */
  function MarkedToo(market: seq<Shown>, mask: bv32): (r: seq<Shown>)
    ensures |r| == |market|
  {
    seq(|market|, i requires 0 <= i < |market| => Shown(market[i].offer, market[i].frozen || Meets(market[i].offer.tags, mask)))
  }

  function Apply(c: Copy, p: Packet): Copy {
    match p
    case LoginOk(goal) => Copy([], [], 0, goal)
    case MarketSpawn(offer) =>
      if |c.market| < UI_MAX_MARKET then c.(market := c.market + [Shown(offer, Meets(offer.tags, c.mask))]) else c
    case MarketRemove(docId) =>
      var i := FirstShown(c.market, docId, 0);
      if i < |c.market| then c.(market := Without(c.market, i)) else c
    case NpcSpawn(request) =>
      if |c.npcs| < UI_MAX_NPC then c.(npcs := c.npcs + [request]) else c
    case NpcDespawn(npcId) =>
      var i := FirstRequest(c.npcs, npcId, 0);
      if i < |c.npcs| then c.(npcs := Without(c.npcs, i)) else c
    case NewsLeak(tags) =>
      var mask := Join(c.mask, tags);
      Copy(MarkedToo(c.market, mask), c.npcs, mask, c.goal)
    case NewsRecover(tags) =>
      var mask := Drop(c.mask, tags);
      Copy(Marked(c.market, mask), c.npcs, mask, c.goal)
    case ResetMarker => Copy([], [], 0, GOAL_MONEY)
    case GoalUpdate(goal) => c.(goal := goal)
  }

  /** The copy has room for 32 offers and 16 requests; what comes on top is dropped. */
  lemma SpawnsFit(c: Copy, offer: M.Offer, request: N.Request)
    ensures Apply(c, MarketSpawn(offer)).market
      == if |c.market| < 32 then c.market + [Shown(offer, Meets(offer.tags, c.mask))] else c.market
    ensures Apply(c, NpcSpawn(request)).npcs == if |c.npcs| < 16 then c.npcs + [request] else c.npcs
  {
  }

  /** A removal closes the first entry of its id by moving the last entry into its place. */
  lemma RemovalMovesLast(c: Copy, docId: int, i: nat)
    requires i < |c.market| && c.market[i].offer.docId == docId
    requires forall j :: 0 <= j < i ==> c.market[j].offer.docId != docId
    ensures var after := Apply(c, MarketRemove(docId));
      && after == c.(market := after.market) && |after.market| == |c.market| - 1
      && forall j :: 0 <= j < |after.market| ==> after.market[j] == c.market[if j == i then |c.market| - 1 else j]
  {
    assert FirstShown(c.market, docId, 0) == i;
  }

  lemma DespawnMovesLast(c: Copy, npcId: int, i: nat)
    requires i < |c.npcs| && c.npcs[i].npcId == npcId
    requires forall j :: 0 <= j < i ==> c.npcs[j].npcId != npcId
    ensures var after := Apply(c, NpcDespawn(npcId));
      && after == c.(npcs := after.npcs) && |after.npcs| == |c.npcs| - 1
      && forall j :: 0 <= j < |after.npcs| ==> after.npcs[j] == c.npcs[if j == i then |c.npcs| - 1 else j]
  {
    assert FirstRequest(c.npcs, npcId, 0) == i;
  }

  function Replay(c: Copy, packets: seq<Packet>): Copy {
    if packets == [] then c else Apply(Replay(c, packets[..|packets| - 1]), packets[|packets| - 1])
  }

  lemma {:induction false} ReplayThen(c: Copy, first: seq<Packet>, rest: seq<Packet>)
    ensures Replay(c, first + rest) == Replay(Replay(c, first), rest)
    decreases |rest|
  {
    hide Apply;
    if rest == [] {
      assert first + rest == first;
    } else {
      var n := |rest| - 1;
      ReplayThen(c, first, rest[..n]);
      assert (first + rest)[..|first + rest| - 1] == first + rest[..n];
    }
  }

  lemma ReplayOne(c: Copy, p: Packet)
    ensures Replay(c, [p]) == Apply(c, p) && Replay(c, []) == c
  {
    hide Apply;
    assert [p][..0] == [];
  }

  // The same over the arrays of ClientState.

  class ClientState {
    const mkt: array<Shown>
    var mktCount: nat
    const npc: array<N.Request>
    var npcCount: nat
    var frozenMask: bv32
    var myGoal: int

    ghost predicate Valid()
      reads this
    {
      mkt.Length == UI_MAX_MARKET && npc.Length == UI_MAX_NPC && mktCount <= mkt.Length && npcCount <= npc.Length
    }

    ghost function State(): Copy
      requires Valid()
      reads this, mkt, npc
    {
      Copy(mkt[..mktCount], npc[..npcCount], frozenMask, myGoal)
    }

    /** The state set up once the login has been answered. */
    constructor (goal: int)
      ensures Valid() && fresh(mkt) && fresh(npc) && State() == Copy([], [], 0, goal)
    {
      mkt := new Shown[UI_MAX_MARKET](_ => NOTHING_SHOWN);
      npc := new N.Request[UI_MAX_NPC](_ => NO_REQUEST);
      mktCount, npcCount, frozenMask, myGoal := 0, 0, 0, goal;
    }

    method OnMarketSpawn(offer: M.Offer)
      requires Valid()
      modifies this, mkt
      ensures Valid() && State() == Apply(old(State()), MarketSpawn(offer))
    {
      hide Meets;
      if mktCount < UI_MAX_MARKET {
        mkt[mktCount] := Shown(offer, Meets(offer.tags, frozenMask));
        mktCount := mktCount + 1;
        assert mkt[..mktCount] == old(mkt[..mktCount]) + [Shown(offer, Meets(offer.tags, frozenMask))];
      }
    }

    method OnMarketRemove(docId: int)
      requires Valid()
      modifies this, mkt
      ensures Valid() && State() == Apply(old(State()), MarketRemove(docId))
    {
      for i := 0 to mktCount
        invariant Valid() && State() == old(State()) && mktCount == old(mktCount)
        invariant forall j :: 0 <= j < i ==> mkt[j].offer.docId != docId
      {
        if mkt[i].offer.docId == docId {
          assert FirstShown(old(mkt[..mktCount]), docId, 0) == i;
          mktCount := mktCount - 1;
          mkt[i] := mkt[mktCount];
          assert mkt[..mktCount] == Without(old(mkt[..mktCount]), i);
          return;
        }
      }
    }

    method OnNpcSpawn(request: N.Request)
      requires Valid()
      modifies this, npc
      ensures Valid() && State() == Apply(old(State()), NpcSpawn(request))
    {
      if npcCount < UI_MAX_NPC {
        npc[npcCount] := request;
        npcCount := npcCount + 1;
        assert npc[..npcCount] == old(npc[..npcCount]) + [request];
      }
    }

    method OnNpcDespawn(npcId: int)
      requires Valid()
      modifies this, npc
      ensures Valid() && State() == Apply(old(State()), NpcDespawn(npcId))
    {
      for i := 0 to npcCount
        invariant Valid() && State() == old(State()) && npcCount == old(npcCount)
        invariant forall j :: 0 <= j < i ==> npc[j].npcId != npcId
      {
        if npc[i].npcId == npcId {
          assert FirstRequest(old(npc[..npcCount]), npcId, 0) == i;
          npcCount := npcCount - 1;
          npc[i] := npc[npcCount];
          assert npc[..npcCount] == Without(old(npc[..npcCount]), i);
          return;
        }
      }
    }

    method OnNewsLeak(tags: bv32)
      requires Valid()
      modifies this, mkt
      ensures Valid() && State() == Apply(old(State()), NewsLeak(tags))
    {
      hide Meets, Join;
      frozenMask := Join(frozenMask, tags);
      ghost var target := MarkedToo(old(mkt[..mktCount]), frozenMask);
      for i := 0 to mktCount
        invariant Valid() && mktCount == old(mktCount) && frozenMask == Join(old(frozenMask), tags)
        invariant npcCount == old(npcCount) && myGoal == old(myGoal)
        invariant forall j :: 0 <= j < i ==> mkt[j] == target[j]
        invariant forall j :: i <= j < mktCount ==> mkt[j] == old(mkt[j])
      {
        if Meets(mkt[i].offer.tags, frozenMask) {
          mkt[i] := mkt[i].(frozen := true);
        }
      }
      assert mkt[..mktCount] == target;
    }

    method OnNewsRecover(tags: bv32)
      requires Valid()
      modifies this, mkt
      ensures Valid() && State() == Apply(old(State()), NewsRecover(tags))
    {
      hide Meets, Drop;
      frozenMask := Drop(frozenMask, tags);
      ghost var target := Marked(old(mkt[..mktCount]), frozenMask);
      for i := 0 to mktCount
        invariant Valid() && mktCount == old(mktCount) && frozenMask == Drop(old(frozenMask), tags)
        invariant npcCount == old(npcCount) && myGoal == old(myGoal)
        invariant forall j :: 0 <= j < i ==> mkt[j] == target[j]
        invariant forall j :: i <= j < mktCount ==> mkt[j] == old(mkt[j])
      {
        mkt[i] := mkt[i].(frozen := Meets(mkt[i].offer.tags, frozenMask));
      }
      assert mkt[..mktCount] == target;
    }

    /** The branches of the packet loop. */
    method OnPacket(p: Packet)
      requires Valid()
      modifies this, mkt, npc
      ensures Valid() && State() == Apply(old(State()), p)
    {
      hide Meets, Join, Drop;
      match p {
        case LoginOk(goal) => mktCount, npcCount, frozenMask, myGoal := 0, 0, 0, goal;
        case MarketSpawn(offer) => OnMarketSpawn(offer);
        case MarketRemove(docId) => OnMarketRemove(docId);
        case NpcSpawn(request) => OnNpcSpawn(request);
        case NpcDespawn(npcId) => OnNpcDespawn(npcId);
        case NewsLeak(tags) => OnNewsLeak(tags);
        case NewsRecover(tags) => OnNewsRecover(tags);
        case ResetMarker => mktCount, npcCount, frozenMask, myGoal := 0, 0, 0, GOAL_MONEY;
        case GoalUpdate(goal) => myGoal := goal;
      }
    }
  }
}
