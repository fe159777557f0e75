// The packet codec of protocol.c on the bytes of a packet: an eight-byte header and a
// union of packed structs. Strings are terminated and integers put in network byte
// order (big-endian, Appendix B of RFC 791) on the way out, and the reverse on the way in.
module Codec {
  import opened Prelude

  type byte = b: int | 0 <= b < 256

  const HEADER_SIZE := 8
  const PACKET_SIZE := 548

  /** The byte order of a machine. */
  datatype Host = Little | Big

  // The types of packets that have a body; the others are headers.

  const PKT_REQ_LOGIN := 100
  const PKT_REQ_CHAT := 101
  const PKT_REQ_BUY := 102
  const PKT_REQ_SELL := 103
  const PKT_REQ_DISPOSE := 104
  const PKT_REQ_RUMOR := 106
  const PKT_REQ_MINIGAME_SUBMIT := 107
  const PKT_RES_LOGIN_OK := 200
  const PKT_RES_LOGIN_FAIL := 201
  const PKT_RES_INVEN_INFO := 202
  const PKT_RES_BUY_OK := 203
  const PKT_RES_SELL_OK := 204
  const PKT_RES_ERROR := 206
  const PKT_EVT_CHAT := 300
  const PKT_EVT_MARKET_SPAWN := 301
  const PKT_EVT_MARKET_REMOVE := 302
  const PKT_EVT_NPC_SPAWN := 303
  const PKT_EVT_NPC_DESPAWN := 304
  const PKT_EVT_NEWS_LEAK := 305
  const PKT_EVT_NEWS_RECOVER := 306
  const PKT_EVT_POLICE_RAID := 308
  const PKT_EVT_GAME_OVER := 309
  const PKT_EVT_VICTORY := 310
  const PKT_EVT_SCOREBOARD := 311
  const PKT_EVT_GOAL_UPDATE := 312

  // The layout that the struct declarations give, with packing: each member starts where
  // the one before ends.

  datatype Member = Int32 | Chars(len: nat)

  function SizeOf(m: Member): nat {
    if m.Int32? then 4 else m.len
  }

  function Size(ms: seq<Member>): nat {
    if ms == [] then 0 else Size(ms[..|ms| - 1]) + SizeOf(ms[|ms| - 1])
  }

  /** Where the integers of a struct start. */
  function Ints(ms: seq<Member>, base: nat): seq<nat> {
    if ms == [] then []
    else
      var before := ms[..|ms| - 1];
      Ints(before, base) + (if ms[|ms| - 1].Int32? then [base + Size(before)] else [])
  }

  /** The last byte of each of its strings. */
  function Ends(ms: seq<Member>, base: nat): seq<nat> {
    if ms == [] then []
    else
      var before, last := ms[..|ms| - 1], ms[|ms| - 1];
      Ends(before, base) + (if last.Chars? && last.len > 0 then [base + Size(before) + last.len - 1] else [])
  }

  function Repeat(ms: seq<Member>, n: nat): seq<Member> {
    if n == 0 then [] else Repeat(ms, n - 1) + ms
  }

  const KEY := Chars(MAX_KEY_LEN)
  const TEXT := Chars(MAX_TEXT_LEN)
  const NAME := Chars(MAX_NAME_LEN)
  const INVEN_ITEM := [Int32, Int32, NAME, Int32]
  const SCORE_ESCAPED := [KEY, Int32, Int32]
  const SCORE_REMAINING := [KEY, Int32]
  const ERROR_BODY := [Int32, TEXT]

  /** The body that a packet of each type uses. */
  function Body(t: int): seq<Member> {
    if t == PKT_REQ_LOGIN then [KEY]
    else if t == PKT_REQ_CHAT then [TEXT]
    else if t == PKT_REQ_BUY then [Int32]
    else if t == PKT_REQ_SELL then [Int32, Int32] + Repeat([Int32], MAX_INVEN_SIZE)
    else if t == PKT_REQ_DISPOSE then [Int32]
    else if t == PKT_REQ_RUMOR then [KEY]
    else if t == PKT_REQ_MINIGAME_SUBMIT then [TEXT]
    else if t == PKT_RES_LOGIN_OK then [Int32, Int32, Int32]
    else if t == PKT_RES_LOGIN_FAIL then ERROR_BODY
    else if t == PKT_RES_INVEN_INFO then [Int32] + Repeat(INVEN_ITEM, MAX_INVEN_SIZE) + [Int32]
    else if t == PKT_RES_BUY_OK then [Int32, Int32, Int32, NAME]
    else if t == PKT_RES_SELL_OK then [Int32, Int32]
    else if t == PKT_RES_ERROR then ERROR_BODY
    else if t == PKT_EVT_CHAT then [KEY, TEXT]
    else if t == PKT_EVT_MARKET_SPAWN then [Int32, Int32, Int32, NAME]
    else if t == PKT_EVT_MARKET_REMOVE then [Int32]
    else if t == PKT_EVT_NPC_SPAWN then [Int32, Int32, Int32]
    else if t == PKT_EVT_NPC_DESPAWN then [Int32]
    else if t == PKT_EVT_NEWS_LEAK then [Int32, Int32, TEXT]
    else if t == PKT_EVT_NEWS_RECOVER then [Int32]
    else if t == PKT_EVT_POLICE_RAID then [TEXT, Int32]
    else if t == PKT_EVT_GAME_OVER then [TEXT]
    else if t == PKT_EVT_VICTORY then [TEXT]
    else if t == PKT_EVT_SCOREBOARD then
      [Int32, Int32] + Repeat(SCORE_ESCAPED, MAX_SCORE_ESCAPED) + [Int32] + Repeat(SCORE_REMAINING, MAX_SCORE_REMAINING)
    else if t == PKT_EVT_GOAL_UPDATE then [Int32]
    else []
  }

  // What the two switches touch, in their order.

  function SellInts(n: nat): seq<nat> {
    if n == 0 then [] else SellInts(n - 1) + [16 + 4 * (n - 1)]
  }

  function ItemInts(n: nat): seq<nat> {
    if n == 0 then [] else ItemInts(n - 1) + [12 + 76 * (n - 1), 16 + 76 * (n - 1), 84 + 76 * (n - 1)]
  }

  function EscapedInts(n: nat): seq<nat> {
    if n == 0 then [] else EscapedInts(n - 1) + [48 + 40 * (n - 1), 52 + 40 * (n - 1)]
  }

  function RemainingInts(n: nat): seq<nat> {
    if n == 0 then [] else RemainingInts(n - 1) + [172 + 36 * (n - 1)]
  }

  function ItemEnds(n: nat): seq<nat> {
    if n == 0 then [] else ItemEnds(n - 1) + [83 + 76 * (n - 1)]
  }

  function EscapedEnds(n: nat): seq<nat> {
    if n == 0 then [] else EscapedEnds(n - 1) + [47 + 40 * (n - 1)]
  }

  function RemainingEnds(n: nat): seq<nat> {
    if n == 0 then [] else RemainingEnds(n - 1) + [171 + 36 * (n - 1)]
  }

  /** The integers that swap_packet_endian converts. */
  function SwappedInts(t: int): seq<nat> {
    if t == PKT_REQ_BUY then [8]
    else if t == PKT_REQ_SELL then [8, 12] + SellInts(MAX_INVEN_SIZE)
    else if t == PKT_REQ_DISPOSE then [8]
    else if t == PKT_RES_LOGIN_OK then [8, 12, 16]
    else if t == PKT_RES_INVEN_INFO then [8, 544] + ItemInts(MAX_INVEN_SIZE)
    else if t == PKT_RES_BUY_OK then [8, 12, 16]
    else if t == PKT_RES_SELL_OK then [8, 12]
    else if t == PKT_RES_ERROR then [8]
    else if t == PKT_EVT_MARKET_SPAWN then [8, 12, 16]
    else if t == PKT_EVT_MARKET_REMOVE then [8]
    else if t == PKT_EVT_NPC_SPAWN then [8, 12, 16]
    else if t == PKT_EVT_NPC_DESPAWN then [8]
    else if t == PKT_EVT_NEWS_LEAK then [8, 12]
    else if t == PKT_EVT_NEWS_RECOVER then [8]
    else if t == PKT_EVT_POLICE_RAID then [264]
    else if t == PKT_EVT_SCOREBOARD then [8, 12, 136] + EscapedInts(MAX_SCORE_ESCAPED) + RemainingInts(MAX_SCORE_REMAINING)
    else if t == PKT_EVT_GOAL_UPDATE then [8]
    else []
  }

  /** The bytes that enforce_null_termination clears. */
  function ClearedEnds(t: int): seq<nat> {
    if t == PKT_REQ_LOGIN then [39]
    else if t == PKT_REQ_CHAT then [263]
    else if t == PKT_REQ_MINIGAME_SUBMIT then [263]
    else if t == PKT_REQ_RUMOR then [39]
    else if t == PKT_RES_BUY_OK then [83]
    else if t == PKT_RES_ERROR then [267]
    else if t == PKT_EVT_CHAT then [39, 295]
    else if t == PKT_EVT_MARKET_SPAWN then [83]
    else if t == PKT_EVT_NEWS_LEAK then [271]
    else if t == PKT_EVT_POLICE_RAID then [263]
    else if t == PKT_EVT_GAME_OVER then [263]
    else if t == PKT_EVT_VICTORY then [263]
    else if t == PKT_RES_INVEN_INFO then ItemEnds(MAX_INVEN_SIZE)
    else if t == PKT_EVT_SCOREBOARD then EscapedEnds(MAX_SCORE_ESCAPED) + RemainingEnds(MAX_SCORE_REMAINING)
    else []
  }

  // Byte operations.

  /** ntohl and htonl on the four bytes at o. */
  function Flip(b: seq<byte>, o: nat, host: Host): (r: seq<byte>)
    ensures |r| == |b|
  {
    if host.Little? && o + 4 <= |b| then b[o := b[o + 3]][o + 1 := b[o + 2]][o + 2 := b[o + 1]][o + 3 := b[o]] else b
  }

  function FlipAll(b: seq<byte>, ints: seq<nat>, host: Host): (r: seq<byte>)
    ensures |r| == |b|
    decreases |ints|
  {
    if ints == [] then b else Flip(FlipAll(b, ints[..|ints| - 1], host), ints[|ints| - 1], host)
  }

  function Clear(b: seq<byte>, e: nat): (r: seq<byte>)
    ensures |r| == |b|
  {
    if e < |b| then b[e := 0] else b
  }

  function ClearAll(b: seq<byte>, ends: seq<nat>): (r: seq<byte>)
    ensures |r| == |b|
    decreases |ends|
  {
    if ends == [] then b else Clear(ClearAll(b, ends[..|ends| - 1]), ends[|ends| - 1])
  }

  /** Four bytes as one unsigned number, least significant first. */
  function Number(b0: int, b1: int, b2: int, b3: int): int {
    b0 + 256 * b1 + 0x1_0000 * b2 + 0x100_0000 * b3
  }

  /** The integer that a machine reads at o. */
  function IntAt(b: seq<byte>, o: nat, host: Host): int
    requires o + 4 <= |b|
  {
    if host.Little? then Number(b[o], b[o + 1], b[o + 2], b[o + 3]) else Number(b[o + 3], b[o + 2], b[o + 1], b[o])
  }

  function TypeOf(b: seq<byte>, host: Host): int
    requires |b| == PACKET_SIZE
  {
    IntAt(b, 0, host)
  }

  /** The packet with its strings terminated, as the sender's copy has it before swapping. */
  function Terminated(b: seq<byte>, host: Host): (r: seq<byte>)
    requires |b| == PACKET_SIZE
    ensures |r| == PACKET_SIZE
  {
    ClearAll(b, ClearedEnds(TypeOf(b, host)))
  }

  /** packet_send up to the bytes on the wire. */
  function Encode(b: seq<byte>, host: Host): (wire: seq<byte>)
    requires |b| == PACKET_SIZE
    ensures |wire| == PACKET_SIZE
  {
    var t := TypeOf(b, host);
    Flip(Flip(FlipAll(ClearAll(b, ClearedEnds(t)), SwappedInts(t), host), 0, host), 4, host)
  }

  /** packet_recv from a whole packet off the wire. */
  function Decode(wire: seq<byte>, host: Host): (b: seq<byte>)
    requires |wire| == PACKET_SIZE
    ensures |b| == PACKET_SIZE
  {
    var header := Flip(Flip(wire, 0, host), 4, host);
    var t := TypeOf(header, host);
    ClearAll(FlipAll(header, SwappedInts(t), host), ClearedEnds(t))
  }

  // Layouts: whatever the members are, integers do not overlap each other or a terminator.

  predicate Inside(offs: seq<nat>, width: nat, base: nat, end: nat) {
    forall i :: 0 <= i < |offs| ==> base <= offs[i] && offs[i] + width <= end
  }

  predicate Disjoint(o: nat, p: nat) {
    o + 4 <= p || p + 4 <= o
  }

  predicate Spaced(ints: seq<nat>) {
    forall i, j :: 0 <= i < j < |ints| ==> Disjoint(ints[i], ints[j])
  }

  predicate Outside(e: nat, o: nat) {
    e < o || o + 4 <= e
  }

  predicate Apart(ints: seq<nat>, ends: seq<nat>) {
    forall i, j :: 0 <= i < |ints| && 0 <= j < |ends| ==> Outside(ends[j], ints[i])
  }

  lemma {:induction false} LayoutIsTidy(ms: seq<Member>, base: nat)
    ensures Inside(Ints(ms, base), 4, base, base + Size(ms)) && Inside(Ends(ms, base), 1, base, base + Size(ms))
    ensures Spaced(Ints(ms, base)) && Apart(Ints(ms, base), Ends(ms, base))
  {
    if ms != [] {
      LayoutIsTidy(ms[..|ms| - 1], base);
    }
  }

  lemma LayoutAnd(ms: seq<Member>, m: Member, base: nat)
    ensures Size(ms + [m]) == Size(ms) + SizeOf(m)
    ensures Ints(ms + [m], base) == Ints(ms, base) + (if m.Int32? then [base + Size(ms)] else [])
    ensures Ends(ms + [m], base) == Ends(ms, base) + (if m.Chars? && m.len > 0 then [base + Size(ms) + m.len - 1] else [])
  {
    assert (ms + [m])[..|ms|] == ms;
  }

  lemma LayoutNone(base: nat)
    ensures Size([]) == 0 && Ints([], base) == [] && Ends([], base) == []
  {
  }

  lemma {:induction false} LayoutAppend(a: seq<Member>, b: seq<Member>, base: nat)
    ensures Size(a + b) == Size(a) + Size(b)
    ensures Ints(a + b, base) == Ints(a, base) + Ints(b, base + Size(a))
    ensures Ends(a + b, base) == Ends(a, base) + Ends(b, base + Size(a))
  {
    hide Size, Ints, Ends;
    if b == [] {
      assert a + b == a;
      LayoutNone(base + Size(a));
    } else {
      var n := |b| - 1;
      LayoutAppend(a, b[..n], base);
      LayoutAnd(a + b[..n], b[n], base);
      LayoutAnd(b[..n], b[n], base + Size(a));
      assert a + b == a + b[..n] + [b[n]] && b == b[..n] + [b[n]];
    }
  }

  // The switches against the layouts.

  lemma OneLayout(m: Member, base: nat)
    ensures Size([m]) == SizeOf(m)
    ensures Ints([m], base) == (if m.Int32? then [base] else [])
    ensures Ends([m], base) == (if m.Chars? && m.len > 0 then [base + m.len - 1] else [])
  {
    LayoutNone(base);
    LayoutAnd([], m, base);
    assert [] + [m] == [m];
  }

  lemma TwoLayout(m: Member, n: Member, base: nat)
    ensures Size([m, n]) == SizeOf(m) + SizeOf(n)
    ensures Ints([m, n], base) == (if m.Int32? then [base] else []) + (if n.Int32? then [base + SizeOf(m)] else [])
    ensures Ends([m, n], base)
      == (if m.Chars? && m.len > 0 then [base + m.len - 1] else [])
         + (if n.Chars? && n.len > 0 then [base + SizeOf(m) + n.len - 1] else [])
  {
    hide Size, Ints, Ends;
    OneLayout(m, base);
    LayoutAnd([m], n, base);
    assert [m] + [n] == [m, n];
  }

  lemma ItemAt(base: nat)
    ensures Size(INVEN_ITEM) == 76 && Ints(INVEN_ITEM, base) == [base, base + 4, base + 72] && Ends(INVEN_ITEM, base) == [base + 71]
  {
    hide Size, Ints, Ends;
    TwoLayout(Int32, Int32, base);
    LayoutAnd([Int32, Int32], NAME, base);
    LayoutAnd([Int32, Int32] + [NAME], Int32, base);
    assert [Int32, Int32] + [NAME] + [Int32] == INVEN_ITEM;
  }

  lemma EscapedAt(base: nat)
    ensures Size(SCORE_ESCAPED) == 40 && Ints(SCORE_ESCAPED, base) == [base + 32, base + 36] && Ends(SCORE_ESCAPED, base) == [base + 31]
  {
    hide Size, Ints, Ends;
    TwoLayout(KEY, Int32, base);
    LayoutAnd([KEY, Int32], Int32, base);
    assert [KEY, Int32] + [Int32] == SCORE_ESCAPED;
  }

  lemma {:induction false} SellLayout(n: nat)
    ensures Size(Repeat([Int32], n)) == 4 * n && Ints(Repeat([Int32], n), 16) == SellInts(n) && Ends(Repeat([Int32], n), 16) == []
  {
    hide Size, Ints, Ends;
    LayoutNone(16);
    if n > 0 {
      SellLayout(n - 1);
      LayoutAppend(Repeat([Int32], n - 1), [Int32], 16);
      OneLayout(Int32, 16 + 4 * (n - 1));
    }
  }

  lemma {:induction false} ItemLayout(n: nat)
    ensures Size(Repeat(INVEN_ITEM, n)) == 76 * n
    ensures Ints(Repeat(INVEN_ITEM, n), 12) == ItemInts(n) && Ends(Repeat(INVEN_ITEM, n), 12) == ItemEnds(n)
  {
    hide Size, Ints, Ends;
    LayoutNone(12);
    if n > 0 {
      ItemLayout(n - 1);
      LayoutAppend(Repeat(INVEN_ITEM, n - 1), INVEN_ITEM, 12);
      ItemAt(12 + 76 * (n - 1));
    }
  }

  lemma {:induction false} EscapedLayout(n: nat)
    ensures Size(Repeat(SCORE_ESCAPED, n)) == 40 * n
    ensures Ints(Repeat(SCORE_ESCAPED, n), 16) == EscapedInts(n) && Ends(Repeat(SCORE_ESCAPED, n), 16) == EscapedEnds(n)
  {
    hide Size, Ints, Ends;
    LayoutNone(16);
    if n > 0 {
      EscapedLayout(n - 1);
      LayoutAppend(Repeat(SCORE_ESCAPED, n - 1), SCORE_ESCAPED, 16);
      EscapedAt(16 + 40 * (n - 1));
    }
  }

  lemma {:induction false} RemainingLayout(n: nat)
    ensures Size(Repeat(SCORE_REMAINING, n)) == 36 * n
    ensures Ints(Repeat(SCORE_REMAINING, n), 140) == RemainingInts(n) && Ends(Repeat(SCORE_REMAINING, n), 140) == RemainingEnds(n)
  {
    hide Size, Ints, Ends;
    LayoutNone(140);
    if n > 0 {
      RemainingLayout(n - 1);
      LayoutAppend(Repeat(SCORE_REMAINING, n - 1), SCORE_REMAINING, 140);
      TwoLayout(KEY, Int32, 140 + 36 * (n - 1));
    }
  }

  lemma SellBody()
    ensures var ms := [Int32, Int32] + Repeat([Int32], 7);
      Size(ms) == 36 && Ints(ms, 8) == [8, 12] + SellInts(7) && Ends(ms, 8) == []
  {
    hide Size, Ints, Ends, Repeat, SellInts;
    TwoLayout(Int32, Int32, 8);
    SellLayout(7);
    LayoutAppend([Int32, Int32], Repeat([Int32], 7), 8);
  }

  lemma InvenBody()
    ensures var ms := [Int32] + Repeat(INVEN_ITEM, 7) + [Int32];
      Size(ms) == 540 && Ints(ms, 8) == [8] + ItemInts(7) + [544] && Ends(ms, 8) == ItemEnds(7)
  {
    hide Size, Ints, Ends, Repeat, ItemInts, ItemEnds;
    OneLayout(Int32, 8);
    ItemLayout(7);
    LayoutAppend([Int32], Repeat(INVEN_ITEM, 7), 8);
    LayoutAnd([Int32] + Repeat(INVEN_ITEM, 7), Int32, 8);
  }

  lemma ScoreBody()
    ensures var ms := [Int32, Int32] + Repeat(SCORE_ESCAPED, 3) + [Int32] + Repeat(SCORE_REMAINING, 7);
      && Size(ms) == 384 && Ints(ms, 8) == [8, 12] + EscapedInts(3) + [136] + RemainingInts(7)
      && Ends(ms, 8) == EscapedEnds(3) + RemainingEnds(7)
  {
    hide Size, Ints, Ends, Repeat, EscapedInts, EscapedEnds, RemainingInts, RemainingEnds;
    TwoLayout(Int32, Int32, 8);
    EscapedLayout(3);
    var first := [Int32, Int32] + Repeat(SCORE_ESCAPED, 3);
    LayoutAppend([Int32, Int32], Repeat(SCORE_ESCAPED, 3), 8);
    LayoutAnd(first, Int32, 8);
    RemainingLayout(7);
    LayoutAppend(first + [Int32], Repeat(SCORE_REMAINING, 7), 8);
  }

  lemma ThreeAndMore(base: nat)
    ensures Size([Int32, Int32, Int32]) == 12 && Ints([Int32, Int32, Int32], base) == [base, base + 4, base + 8]
    ensures Ends([Int32, Int32, Int32], base) == []
    ensures Ints([Int32, Int32, Int32, NAME], base) == [base, base + 4, base + 8]
    ensures Ends([Int32, Int32, Int32, NAME], base) == [base + 75]
    ensures Size([Int32, Int32, Int32, NAME]) == 76
    ensures Ints([Int32, Int32, TEXT], base) == [base, base + 4] && Ends([Int32, Int32, TEXT], base) == [base + 263]
    ensures Size([Int32, Int32, TEXT]) == 264
  {
    hide Size, Ints, Ends;
    TwoLayout(Int32, Int32, base);
    LayoutAnd([Int32, Int32], Int32, base);
    assert [Int32, Int32] + [Int32] == [Int32, Int32, Int32];
    LayoutAnd([Int32, Int32, Int32], NAME, base);
    assert [Int32, Int32, Int32] + [NAME] == [Int32, Int32, Int32, NAME];
    LayoutAnd([Int32, Int32], TEXT, base);
    assert [Int32, Int32] + [TEXT] == [Int32, Int32, TEXT];
  }

  lemma Reordered<T>(x: seq<T>, a: seq<T>, b: seq<T>, c: seq<T>)
    ensures multiset(x + a + b + c) == multiset(x + b + a + c)
  {
  }

  lemma LastFirst(first: nat, last: nat, middle: seq<nat>)
    ensures multiset([first, last] + middle) == multiset([first] + middle + [last])
  {
    assert [first, last] == [first] + [last];
  }

  /** The switches touch exactly what the layout has, each once. */
  ghost predicate Covered(t: int) {
    multiset(SwappedInts(t)) == multiset(Ints(Body(t), HEADER_SIZE)) && ClearedEnds(t) == Ends(Body(t), HEADER_SIZE)
  }

  lemma LongShapes()
    ensures Body(PKT_REQ_SELL) == [Int32, Int32] + Repeat([Int32], 7)
    ensures SwappedInts(PKT_REQ_SELL) == [8, 12] + SellInts(7) && ClearedEnds(PKT_REQ_SELL) == []
    ensures Body(PKT_RES_INVEN_INFO) == [Int32] + Repeat(INVEN_ITEM, 7) + [Int32]
    ensures SwappedInts(PKT_RES_INVEN_INFO) == [8, 544] + ItemInts(7) && ClearedEnds(PKT_RES_INVEN_INFO) == ItemEnds(7)
    ensures Body(PKT_EVT_SCOREBOARD) == [Int32, Int32] + Repeat(SCORE_ESCAPED, 3) + [Int32] + Repeat(SCORE_REMAINING, 7)
    ensures SwappedInts(PKT_EVT_SCOREBOARD) == [8, 12, 136] + EscapedInts(3) + RemainingInts(7)
    ensures ClearedEnds(PKT_EVT_SCOREBOARD) == EscapedEnds(3) + RemainingEnds(7)
  {
    hide Repeat, EscapedInts, EscapedEnds, RemainingInts, RemainingEnds, ItemInts, ItemEnds, SellInts;
  }

  lemma SellCovered()
    ensures Covered(PKT_REQ_SELL) && HEADER_SIZE + Size(Body(PKT_REQ_SELL)) <= PACKET_SIZE
  {
    hide Body, SwappedInts, ClearedEnds, Size, Ints, Ends, Repeat, SellInts;
    LongShapes();
    SellBody();
  }

  lemma InvenCovered()
    ensures Covered(PKT_RES_INVEN_INFO) && HEADER_SIZE + Size(Body(PKT_RES_INVEN_INFO)) <= PACKET_SIZE
  {
    hide Body, SwappedInts, ClearedEnds, Size, Ints, Ends, Repeat, ItemInts, ItemEnds;
    LongShapes();
    InvenBody();
    LastFirst(8, 544, ItemInts(7));
  }

  lemma ScoreCovered()
    ensures Covered(PKT_EVT_SCOREBOARD) && HEADER_SIZE + Size(Body(PKT_EVT_SCOREBOARD)) <= PACKET_SIZE
  {
    hide Body, SwappedInts, ClearedEnds, Size, Ints, Ends, Repeat, EscapedInts, EscapedEnds, RemainingInts, RemainingEnds;
    LongShapes();
    ScoreBody();
    Reordered([8, 12], [136], EscapedInts(3), RemainingInts(7));
    assert [8, 12] + [136] == [8, 12, 136];
  }

  predicate Shaped(t: int, body: seq<Member>, ints: seq<nat>, ends: seq<nat>) {
    Body(t) == body && SwappedInts(t) == ints && ClearedEnds(t) == ends
  }

  lemma TextShapes(t: int)
    ensures t in {PKT_REQ_LOGIN, PKT_REQ_RUMOR} ==> Shaped(t, [KEY], [], [39])
    ensures t in {PKT_REQ_CHAT, PKT_REQ_MINIGAME_SUBMIT, PKT_EVT_GAME_OVER, PKT_EVT_VICTORY} ==> Shaped(t, [TEXT], [], [263])
    ensures t == PKT_EVT_CHAT ==> Shaped(t, [KEY, TEXT], [], [39, 295])
    ensures t == PKT_EVT_POLICE_RAID ==> Shaped(t, [TEXT, Int32], [264], [263])
    ensures t == PKT_RES_ERROR ==> Shaped(t, [Int32, TEXT], [8], [267])
  {
    hide Repeat, EscapedInts, EscapedEnds, RemainingInts, RemainingEnds, ItemInts, ItemEnds, SellInts;
  }

  lemma NumberShapes(t: int)
    ensures t in {PKT_REQ_BUY, PKT_REQ_DISPOSE, PKT_EVT_MARKET_REMOVE, PKT_EVT_NPC_DESPAWN, PKT_EVT_NEWS_RECOVER, PKT_EVT_GOAL_UPDATE} ==>
      Shaped(t, [Int32], [8], [])
    ensures t == PKT_RES_SELL_OK ==> Shaped(t, [Int32, Int32], [8, 12], [])
    ensures t in {PKT_RES_LOGIN_OK, PKT_EVT_NPC_SPAWN} ==> Shaped(t, [Int32, Int32, Int32], [8, 12, 16], [])
    ensures t in {PKT_RES_BUY_OK, PKT_EVT_MARKET_SPAWN} ==> Shaped(t, [Int32, Int32, Int32, NAME], [8, 12, 16], [83])
    ensures t == PKT_EVT_NEWS_LEAK ==> Shaped(t, [Int32, Int32, TEXT], [8, 12], [271])
  {
    hide Repeat, EscapedInts, EscapedEnds, RemainingInts, RemainingEnds, ItemInts, ItemEnds, SellInts;
  }

  lemma ShapeCovered(t: int, body: seq<Member>, ints: seq<nat>, ends: seq<nat>)
    requires Shaped(t, body, ints, ends) && Ints(body, HEADER_SIZE) == ints && Ends(body, HEADER_SIZE) == ends
    requires HEADER_SIZE + Size(body) <= PACKET_SIZE
    ensures Covered(t) && HEADER_SIZE + Size(Body(t)) <= PACKET_SIZE
  {
    hide Body, SwappedInts, ClearedEnds, Size, Ints, Ends;
  }

  lemma TextCovered(t: int)
    requires t in {PKT_REQ_LOGIN, PKT_REQ_CHAT, PKT_REQ_RUMOR, PKT_REQ_MINIGAME_SUBMIT, PKT_EVT_GAME_OVER, PKT_EVT_VICTORY,
                   PKT_EVT_CHAT, PKT_EVT_POLICE_RAID, PKT_RES_ERROR}
    ensures Covered(t) && HEADER_SIZE + Size(Body(t)) <= PACKET_SIZE
  {
    hide Shaped, Covered, Body, Size, Ints, Ends;
    TextShapes(t);
    if t in {PKT_REQ_LOGIN, PKT_REQ_RUMOR} {
      OneLayout(KEY, 8);
      ShapeCovered(t, [KEY], [], [39]);
    } else if t == PKT_EVT_CHAT {
      TwoLayout(KEY, TEXT, 8);
      ShapeCovered(t, [KEY, TEXT], [], [39, 295]);
    } else if t == PKT_EVT_POLICE_RAID {
      TwoLayout(TEXT, Int32, 8);
      ShapeCovered(t, [TEXT, Int32], [264], [263]);
    } else if t == PKT_RES_ERROR {
      TwoLayout(Int32, TEXT, 8);
      ShapeCovered(t, [Int32, TEXT], [8], [267]);
    } else {
      OneLayout(TEXT, 8);
      ShapeCovered(t, [TEXT], [], [263]);
    }
  }

  lemma NumberCovered(t: int)
    requires t in {PKT_REQ_BUY, PKT_REQ_DISPOSE, PKT_RES_LOGIN_OK, PKT_RES_BUY_OK, PKT_RES_SELL_OK, PKT_EVT_MARKET_SPAWN,
                   PKT_EVT_MARKET_REMOVE, PKT_EVT_NPC_SPAWN, PKT_EVT_NPC_DESPAWN, PKT_EVT_NEWS_LEAK, PKT_EVT_NEWS_RECOVER,
                   PKT_EVT_GOAL_UPDATE}
    ensures Covered(t) && HEADER_SIZE + Size(Body(t)) <= PACKET_SIZE
  {
    hide Shaped, Covered, Body, Size, Ints, Ends;
    NumberShapes(t);
    ThreeAndMore(8);
    if t == PKT_RES_SELL_OK {
      TwoLayout(Int32, Int32, 8);
      ShapeCovered(t, [Int32, Int32], [8, 12], []);
    } else if t in {PKT_RES_LOGIN_OK, PKT_EVT_NPC_SPAWN} {
      ShapeCovered(t, [Int32, Int32, Int32], [8, 12, 16], []);
    } else if t in {PKT_RES_BUY_OK, PKT_EVT_MARKET_SPAWN} {
      ShapeCovered(t, [Int32, Int32, Int32, NAME], [8, 12, 16], [83]);
    } else if t == PKT_EVT_NEWS_LEAK {
      ShapeCovered(t, [Int32, Int32, TEXT], [8, 12], [271]);
    } else {
      OneLayout(Int32, 8);
      ShapeCovered(t, [Int32], [8], []);
    }
  }

  predicate HasBody(t: int) {
    t == PKT_RES_LOGIN_FAIL
    || t in {PKT_REQ_SELL, PKT_RES_INVEN_INFO, PKT_EVT_SCOREBOARD}
    || t in {PKT_REQ_LOGIN, PKT_REQ_CHAT, PKT_REQ_RUMOR, PKT_REQ_MINIGAME_SUBMIT, PKT_EVT_GAME_OVER, PKT_EVT_VICTORY,
             PKT_EVT_CHAT, PKT_EVT_POLICE_RAID, PKT_RES_ERROR}
    || t in {PKT_REQ_BUY, PKT_REQ_DISPOSE, PKT_RES_LOGIN_OK, PKT_RES_BUY_OK, PKT_RES_SELL_OK, PKT_EVT_MARKET_SPAWN,
             PKT_EVT_MARKET_REMOVE, PKT_EVT_NPC_SPAWN, PKT_EVT_NPC_DESPAWN, PKT_EVT_NEWS_LEAK, PKT_EVT_NEWS_RECOVER,
             PKT_EVT_GOAL_UPDATE}
  }

  lemma EmptyCovered(t: int)
    requires !HasBody(t)
    ensures Covered(t) && HEADER_SIZE + Size(Body(t)) <= PACKET_SIZE && SwappedInts(t) == [] == ClearedEnds(t)
  {
    hide Size, Ints, Ends, Repeat, EscapedInts, EscapedEnds, RemainingInts, RemainingEnds, ItemInts, ItemEnds, SellInts;
    LayoutNone(8);
    assert Body(t) == [];
  }

  lemma LoginFailUncovered()
    ensures var t := PKT_RES_LOGIN_FAIL;
      && SwappedInts(t) == [] == ClearedEnds(t) && Ints(Body(t), HEADER_SIZE) == [8] && Ends(Body(t), HEADER_SIZE) == [267]
      && HEADER_SIZE + Size(Body(t)) <= PACKET_SIZE && !Covered(t)
  {
    hide Size, Ints, Ends;
    TwoLayout(Int32, TEXT, 8);
  }

  /** The switches touch exactly the integers and strings that the layout has, each once,
      for every type but one: a login failure, whose code and reason they both leave out. */
  lemma SwitchesCover(t: int)
    ensures Covered(t) <==> t != PKT_RES_LOGIN_FAIL
    ensures HEADER_SIZE + Size(Body(t)) <= PACKET_SIZE
  {
    hide Covered, Size, Body;
    LoginFailUncovered();
    if t == PKT_RES_LOGIN_FAIL {
    } else if t == PKT_REQ_SELL {
      SellCovered();
    } else if t == PKT_RES_INVEN_INFO {
      InvenCovered();
    } else if t == PKT_EVT_SCOREBOARD {
      ScoreCovered();
    } else if t in {PKT_REQ_LOGIN, PKT_REQ_CHAT, PKT_REQ_RUMOR, PKT_REQ_MINIGAME_SUBMIT, PKT_EVT_GAME_OVER, PKT_EVT_VICTORY,
                    PKT_EVT_CHAT, PKT_EVT_POLICE_RAID, PKT_RES_ERROR} {
      TextCovered(t);
    } else if HasBody(t) {
      NumberCovered(t);
    } else {
      EmptyCovered(t);
    }
  }

  // What is swapped does not overlap, so swaps and terminators commute.

  lemma SpacedPermutes(a: seq<nat>, b: seq<nat>)
    requires Spaced(a) && multiset(a) == multiset(b)
    ensures Spaced(b)
  {
    DistinctPermutes(a, b);
    forall i, j | 0 <= i < j < |b| ensures Disjoint(b[i], b[j]) {
      assert b[i] in multiset(a) && b[j] in multiset(a);
    }
  }

  lemma SwitchesTidy(t: int)
    ensures Spaced(SwappedInts(t)) && Apart(SwappedInts(t), ClearedEnds(t))
    ensures Inside(SwappedInts(t), 4, HEADER_SIZE, PACKET_SIZE) && Inside(ClearedEnds(t), 1, HEADER_SIZE, PACKET_SIZE)
  {
    hide Body, SwappedInts, ClearedEnds, Ints, Ends, Size;
    SwitchesCover(t);
    if t == PKT_RES_LOGIN_FAIL {
      LoginFailUncovered();
    } else {
      LayoutIsTidy(Body(t), HEADER_SIZE);
      var layout := Ints(Body(t), HEADER_SIZE);
      SpacedPermutes(layout, SwappedInts(t));
      forall i | 0 <= i < |SwappedInts(t)| ensures SwappedInts(t)[i] in layout {
        assert SwappedInts(t)[i] in multiset(layout);
      }
    }
  }

  lemma FlipTwice(b: seq<byte>, o: nat, host: Host)
    ensures Flip(Flip(b, o, host), o, host) == b
  {
  }

  lemma FlipAt(b: seq<byte>, o: nat, k: nat)
    requires k < |b|
    ensures Flip(b, o, Little)[k] == if o <= k < o + 4 <= |b| then b[2 * o + 3 - k] else b[k]
  {
  }

  lemma FlipsCommute(b: seq<byte>, o: nat, p: nat, host: Host)
    requires Disjoint(o, p)
    ensures Flip(Flip(b, o, host), p, host) == Flip(Flip(b, p, host), o, host)
  {
    hide Flip;
    if host.Little? {
      forall k | 0 <= k < |b| ensures Flip(Flip(b, o, host), p, host)[k] == Flip(Flip(b, p, host), o, host)[k] {
        FlipAt(b, o, k);
        FlipAt(b, p, k);
        FlipAt(Flip(b, o, host), p, k);
        FlipAt(Flip(b, p, host), o, k);
        if o <= k < o + 4 <= |b| {
          FlipAt(b, p, 2 * o + 3 - k);
        }
        if p <= k < p + 4 <= |b| {
          FlipAt(b, o, 2 * p + 3 - k);
        }
      }
    } else {
      FlipBig(b, o);
      FlipBig(b, p);
    }
  }

  lemma FlipBig(b: seq<byte>, o: nat)
    ensures Flip(b, o, Big) == b
  {
  }

  lemma {:induction false} FlipAllBig(b: seq<byte>, ints: seq<nat>)
    ensures FlipAll(b, ints, Big) == b
    decreases |ints|
  {
    if ints != [] {
      FlipAllBig(b, ints[..|ints| - 1]);
    }
  }

  lemma {:induction false} FlipPast(b: seq<byte>, o: nat, ints: seq<nat>, host: Host)
    requires forall i :: 0 <= i < |ints| ==> Disjoint(o, ints[i])
    ensures FlipAll(Flip(b, o, host), ints, host) == Flip(FlipAll(b, ints, host), o, host)
    decreases |ints|
  {
    hide Flip, Disjoint;
    if ints != [] {
      var n := |ints| - 1;
      FlipPast(b, o, ints[..n], host);
      assert Disjoint(o, ints[n]);
      FlipsCommute(FlipAll(b, ints[..n], host), o, ints[n], host);
    }
  }

  /** Swapping is its own inverse. */
  lemma {:induction false} FlipAllTwice(b: seq<byte>, ints: seq<nat>, host: Host)
    requires Spaced(ints)
    ensures FlipAll(FlipAll(b, ints, host), ints, host) == b
    decreases |ints|
  {
    hide Flip, Disjoint;
    if ints != [] {
      var n := |ints| - 1;
      var o, rest := ints[n], ints[..n];
      assert forall i :: 0 <= i < n ==> Disjoint(rest[i], o);
      FlipAllTwice(b, rest, host);
      forall i | 0 <= i < n ensures Disjoint(o, rest[i]) {
        DisjointTurns(rest[i], o);
      }
      FlipPast(FlipAll(b, rest, host), o, rest, host);
      FlipTwice(b, o, host);
    }
  }

  lemma DisjointTurns(o: nat, p: nat)
    requires Disjoint(o, p)
    ensures Disjoint(p, o)
  {
  }

  lemma ClearPast(b: seq<byte>, e: nat, o: nat, host: Host)
    requires Outside(e, o)
    ensures Clear(Flip(b, o, host), e) == Flip(Clear(b, e), o, host)
  {
  }

  lemma {:induction false} ClearAllPast(b: seq<byte>, ends: seq<nat>, o: nat, host: Host)
    requires forall j :: 0 <= j < |ends| ==> Outside(ends[j], o)
    ensures ClearAll(Flip(b, o, host), ends) == Flip(ClearAll(b, ends), o, host)
    decreases |ends|
  {
    hide Flip, Clear, Outside;
    if ends != [] {
      var n := |ends| - 1;
      ClearAllPast(b, ends[..n], o, host);
      assert Outside(ends[n], o);
      ClearPast(ClearAll(b, ends[..n]), ends[n], o, host);
    }
  }

  /** Swapping and terminating commute. */
  lemma {:induction false} ClearFlipCommute(b: seq<byte>, ints: seq<nat>, ends: seq<nat>, host: Host)
    requires Apart(ints, ends)
    ensures ClearAll(FlipAll(b, ints, host), ends) == FlipAll(ClearAll(b, ends), ints, host)
    decreases |ints|
  {
    hide Flip, Clear, Outside;
    if ints != [] {
      var n := |ints| - 1;
      ClearFlipCommute(b, ints[..n], ends, host);
      assert forall j :: 0 <= j < |ends| ==> Outside(ends[j], ints[n]);
      ClearAllPast(FlipAll(b, ints[..n], host), ends, ints[n], host);
    }
  }

  lemma {:induction false} ClearedAt(b: seq<byte>, ends: seq<nat>, k: nat)
    requires k < |b|
    ensures ClearAll(b, ends)[k] == if k in ends then 0 else b[k]
    decreases |ends|
  {
    if ends != [] {
      var n := |ends| - 1;
      ClearedAt(b, ends[..n], k);
      assert ends == ends[..n] + [ends[n]];
    }
  }

  lemma ClearAllTwice(b: seq<byte>, ends: seq<nat>)
    ensures ClearAll(ClearAll(b, ends), ends) == ClearAll(b, ends)
  {
    hide ClearAll;
    forall k | 0 <= k < |b| ensures ClearAll(ClearAll(b, ends), ends)[k] == ClearAll(b, ends)[k] {
      ClearedAt(b, ends, k);
      ClearedAt(ClearAll(b, ends), ends, k);
    }
  }

  /** Bytes outside the integers stay where they are. */
  lemma {:induction false} FlipAllElse(b: seq<byte>, ints: seq<nat>, host: Host, k: nat)
    requires k < |b| && forall i :: 0 <= i < |ints| ==> Outside(k, ints[i])
    ensures FlipAll(b, ints, host)[k] == b[k]
    decreases |ints|
  {
    if ints != [] {
      FlipAllElse(b, ints[..|ints| - 1], host, k);
    }
  }

  /** The other machine reads a swapped integer as this one read it before. */
  lemma {:induction false} FlipAllRead(b: seq<byte>, ints: seq<nat>, i: nat)
    requires Spaced(ints) && i < |ints| && ints[i] + 4 <= |b|
    ensures IntAt(FlipAll(b, ints, Little), ints[i], Big) == IntAt(b, ints[i], Little)
    ensures IntAt(FlipAll(b, ints, Little), ints[i], Little) == IntAt(b, ints[i], Big)
    decreases |ints|
  {
    hide Number;
    var n := |ints| - 1;
    var o := ints[i];
    if i == n {
      assert forall j :: 0 <= j < n ==> Disjoint(ints[..n][j], o);
      FlipAllElse(b, ints[..n], Little, o);
      FlipAllElse(b, ints[..n], Little, o + 1);
      FlipAllElse(b, ints[..n], Little, o + 2);
      FlipAllElse(b, ints[..n], Little, o + 3);
    } else {
      FlipAllRead(b, ints[..n], i);
      assert Disjoint(o, ints[n]);
    }
  }

  // The header.

  lemma HeaderStays(b: seq<byte>, t: int, host: Host, reader: Host)
    requires |b| == PACKET_SIZE
    ensures IntAt(FlipAll(ClearAll(b, ClearedEnds(t)), SwappedInts(t), host), 0, reader) == IntAt(b, 0, reader)
    ensures IntAt(FlipAll(ClearAll(b, ClearedEnds(t)), SwappedInts(t), host), 4, reader) == IntAt(b, 4, reader)
    ensures TypeOf(ClearAll(b, ClearedEnds(t)), reader) == TypeOf(b, reader)
  {
    hide SwappedInts, ClearedEnds, FlipAll, ClearAll, Number;
    SwitchesTidy(t);
    forall k | 0 <= k < 8
      ensures FlipAll(ClearAll(b, ClearedEnds(t)), SwappedInts(t), host)[k] == b[k] && ClearAll(b, ClearedEnds(t))[k] == b[k]
    {
      ClearedAt(b, ClearedEnds(t), k);
      FlipAllElse(ClearAll(b, ClearedEnds(t)), SwappedInts(t), host, k);
    }
  }

  lemma HeaderTwice(b: seq<byte>, host: Host)
    ensures Flip(Flip(Flip(Flip(b, 0, host), 4, host), 0, host), 4, host) == b
  {
    hide Flip;
    FlipsCommute(b, 0, 4, host);
    FlipTwice(Flip(b, 4, host), 0, host);
    FlipTwice(b, 4, host);
  }

  // Round trips.

  /** What one machine sends it would itself receive as the original with its strings
      terminated, for every packet of every type. */
  lemma RoundTrip(b: seq<byte>, host: Host)
    requires |b| == PACKET_SIZE
    ensures Decode(Encode(b, host), host) == Terminated(b, host)
  {
    hide SwappedInts, ClearedEnds, FlipAll, ClearAll, Flip, IntAt;
    var t := TypeOf(b, host);
    var ints, ends := SwappedInts(t), ClearedEnds(t);
    var clear := ClearAll(b, ends);
    SwitchesTidy(t);
    HeaderTwice(FlipAll(clear, ints, host), host);
    HeaderStays(b, t, host, host);
    FlipAllTwice(clear, ints, host);
    ClearAllTwice(b, ends);
  }

  /** A packet as the other kind of machine holds it. */
  function Mirrored(b: seq<byte>, t: int): (r: seq<byte>)
    ensures |r| == |b|
  {
    Flip(Flip(FlipAll(b, SwappedInts(t), Little), 0, Little), 4, Little)
  }

  lemma HeaderPast(b: seq<byte>, t: int)
    ensures FlipAll(Flip(Flip(b, 0, Little), 4, Little), SwappedInts(t), Little) == Mirrored(b, t)
    ensures ClearAll(Mirrored(b, t), ClearedEnds(t)) == Mirrored(ClearAll(b, ClearedEnds(t)), t)
  {
    hide SwappedInts, ClearedEnds, FlipAll, ClearAll, Flip;
    var ints, ends := SwappedInts(t), ClearedEnds(t);
    SwitchesTidy(t);
    FlipPast(b, 0, ints, Little);
    FlipPast(Flip(b, 0, Little), 4, ints, Little);
    ClearFlipCommute(b, ints, ends, Little);
    ClearAllPast(FlipAll(b, ints, Little), ends, 0, Little);
    ClearAllPast(Flip(FlipAll(b, ints, Little), 0, Little), ends, 4, Little);
  }

  lemma MirroredHeader(b: seq<byte>, t: int)
    requires |b| == PACKET_SIZE
    ensures IntAt(Mirrored(b, t), 0, Big) == IntAt(b, 0, Little) && IntAt(Mirrored(b, t), 0, Little) == IntAt(b, 0, Big)
    ensures IntAt(Mirrored(b, t), 4, Big) == IntAt(b, 4, Little) && IntAt(Mirrored(b, t), 4, Little) == IntAt(b, 4, Big)
  {
    hide SwappedInts, FlipAll;
    SwitchesTidy(t);
    forall k | 0 <= k < 8 ensures FlipAll(b, SwappedInts(t), Little)[k] == b[k] {
      FlipAllElse(b, SwappedInts(t), Little, k);
    }
  }

  /** Between machines of different byte order the packet arrives mirrored. */
  lemma AcrossHosts(b: seq<byte>, from: Host, to: Host)
    requires |b| == PACKET_SIZE && from != to
    ensures Decode(Encode(b, from), to) == Mirrored(Terminated(b, from), TypeOf(b, from))
  {
    hide SwappedInts, ClearedEnds, FlipAll, ClearAll, Flip, IntAt, Mirrored;
    var t := TypeOf(b, from);
    var ints, ends := SwappedInts(t), ClearedEnds(t);
    var clear := ClearAll(b, ends);
    ClearAllTwice(b, ends);
    HeaderPast(clear, t);
    HeaderStays(b, t, from, from);
    MirroredHeader(clear, t);
    if from.Little? {
      SentMirrored(b);
      FlipBig(Encode(b, from), 0);
      FlipBig(Encode(b, from), 4);
      FlipAllBig(Encode(b, from), ints);
    } else {
      FlipAllBig(clear, ints);
      FlipBig(clear, 0);
      FlipBig(clear, 4);
      MirroredHeaderFirst(clear);
    }
  }

  lemma SentMirrored(b: seq<byte>)
    requires |b| == PACKET_SIZE
    ensures Encode(b, Little) == Mirrored(Terminated(b, Little), TypeOf(b, Little))
  {
    hide SwappedInts, ClearedEnds, FlipAll, ClearAll, Flip, IntAt;
  }

  lemma MirroredHeaderFirst(b: seq<byte>)
    requires |b| == PACKET_SIZE
    ensures TypeOf(Flip(Flip(b, 0, Little), 4, Little), Little) == TypeOf(b, Big)
  {
  }

  lemma MirroredField(b: seq<byte>, t: int, i: nat)
    requires |b| == PACKET_SIZE && i < |SwappedInts(t)|
    ensures SwappedInts(t)[i] + 4 <= PACKET_SIZE
    ensures IntAt(Mirrored(b, t), SwappedInts(t)[i], Big) == IntAt(b, SwappedInts(t)[i], Little)
    ensures IntAt(Mirrored(b, t), SwappedInts(t)[i], Little) == IntAt(b, SwappedInts(t)[i], Big)
  {
    hide SwappedInts, FlipAll;
    SwitchesTidy(t);
    FlipAllRead(b, SwappedInts(t), i);
  }

  lemma TerminatedField(b: seq<byte>, t: int, i: nat, host: Host)
    requires |b| == PACKET_SIZE && i < |SwappedInts(t)|
    ensures SwappedInts(t)[i] + 4 <= PACKET_SIZE
    ensures IntAt(ClearAll(b, ClearedEnds(t)), SwappedInts(t)[i], host) == IntAt(b, SwappedInts(t)[i], host)
  {
    hide SwappedInts, ClearedEnds, ClearAll, Number;
    SwitchesTidy(t);
    var o := SwappedInts(t)[i];
    forall k | o <= k < o + 4 ensures ClearAll(b, ClearedEnds(t))[k] == b[k] {
      ClearedAt(b, ClearedEnds(t), k);
    }
  }

  /** Whatever the two byte orders, the receiver reads the type, the session and every integer
      of the body as the sender wrote them, for every type but a login failure. */
  lemma FieldsArrive(b: seq<byte>, from: Host, to: Host, o: nat)
    requires |b| == PACKET_SIZE
    ensures var d := Decode(Encode(b, from), to);
      && TypeOf(d, to) == TypeOf(b, from) && IntAt(d, 4, to) == IntAt(b, 4, from)
      && (TypeOf(b, from) != PKT_RES_LOGIN_FAIL && o in Ints(Body(TypeOf(b, from)), HEADER_SIZE) ==>
            o + 4 <= PACKET_SIZE && IntAt(d, o, to) == IntAt(b, o, from))
  {
    hide SwappedInts, ClearedEnds, FlipAll, ClearAll, Flip, Ints, Body, Mirrored, Decode, Encode, Number;
    var t := TypeOf(b, from);
    HeaderStays(b, t, Big, from);
    FlipAllBig(ClearAll(b, ClearedEnds(t)), SwappedInts(t));
    if from == to {
      RoundTrip(b, from);
    } else {
      AcrossHosts(b, from, to);
      MirroredHeader(Terminated(b, from), t);
    }
    if t != PKT_RES_LOGIN_FAIL && o in Ints(Body(t), HEADER_SIZE) {
      SwitchesCover(t);
      assert o in multiset(SwappedInts(t));
      var i :| 0 <= i < |SwappedInts(t)| && SwappedInts(t)[i] == o;
      TerminatedField(b, t, i, from);
      if from != to {
        MirroredField(Terminated(b, from), t, i);
      }
    }
  }

  /** Every byte that is not part of a swapped integer arrives as the sender's terminated copy
      has it; in particular every string does, and ends within its buffer. */
  lemma TextArrives(b: seq<byte>, from: Host, to: Host, k: nat)
    requires |b| == PACKET_SIZE && HEADER_SIZE <= k < PACKET_SIZE
    requires forall i :: 0 <= i < |SwappedInts(TypeOf(b, from))| ==> Outside(k, SwappedInts(TypeOf(b, from))[i])
    ensures Decode(Encode(b, from), to)[k] == if k in ClearedEnds(TypeOf(b, from)) then 0 else b[k]
  {
    hide SwappedInts, ClearedEnds, FlipAll, ClearAll, Decode, Encode, IntAt;
    var t := TypeOf(b, from);
    ClearedAt(b, ClearedEnds(t), k);
    if from == to {
      RoundTrip(b, from);
    } else {
      AcrossHosts(b, from, to);
      FlipAllElse(Terminated(b, from), SwappedInts(t), Little, k);
    }
  }

  /** The code of a login failure arrives exactly when the machines agree or its bytes read
      the same both ways: the two codes that the server sends, ten and eleven, do not. */
  lemma LoginFailCode(b: seq<byte>, from: Host, to: Host)
    requires |b| == PACKET_SIZE && TypeOf(b, from) == PKT_RES_LOGIN_FAIL
    ensures IntAt(Decode(Encode(b, from), to), HEADER_SIZE, to) == IntAt(b, HEADER_SIZE, from)
      <==> from == to || (b[8] == b[11] && b[9] == b[10])
    ensures from != to && IntAt(b, HEADER_SIZE, from) in {10, 11} ==>
      IntAt(Decode(Encode(b, from), to), HEADER_SIZE, to) != IntAt(b, HEADER_SIZE, from)
  {
    hide Decode, Encode, Number, SwappedInts, ClearedEnds;
    LoginFailUncovered();
    var d := Decode(Encode(b, from), to);
    TextArrives(b, from, to, 8);
    TextArrives(b, from, to, 9);
    TextArrives(b, from, to, 10);
    TextArrives(b, from, to, 11);
    NumberTurned(b[8], b[9], b[10], b[11]);
    NumberTurned(b[11], b[10], b[9], b[8]);
  }

  lemma NumberTurned(b0: byte, b1: byte, b2: byte, b3: byte)
    ensures Number(b0, b1, b2, b3) == Number(b3, b2, b1, b0) <==> b0 == b3 && b1 == b2
    ensures Number(b0, b1, b2, b3) in {10, 11} ==> Number(b0, b1, b2, b3) != Number(b3, b2, b1, b0)
  {
  }
}
