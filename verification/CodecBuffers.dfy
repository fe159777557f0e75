// The codec in place, on a packet buffer, as protocol.c runs it.
module CodecBuffers {
  import opened Prelude
  import opened Codec

  lemma FlipAllAnd(b: seq<byte>, ints: seq<nat>, o: nat, host: Host)
    ensures FlipAll(b, ints + [o], host) == Flip(FlipAll(b, ints, host), o, host)
    ensures FlipAll(b, [], host) == b
  {
    assert (ints + [o])[..|ints|] == ints;
  }

  lemma ClearAllAnd(b: seq<byte>, ends: seq<nat>, e: nat)
    ensures ClearAll(b, ends + [e]) == Clear(ClearAll(b, ends), e)
    ensures ClearAll(b, []) == b
  {
    assert (ends + [e])[..|ends|] == ends;
  }

  lemma FlipAllThen(b: seq<byte>, first: seq<nat>, rest: seq<nat>, host: Host)
    ensures FlipAll(b, first + rest, host) == FlipAll(FlipAll(b, first, host), rest, host)
    decreases |rest|
  {
    hide Flip;
    if rest == [] {
      assert first + rest == first;
    } else {
      var n := |rest| - 1;
      FlipAllThen(b, first, rest[..n], host);
      assert first + rest == (first + rest[..n]) + [rest[n]];
      FlipAllAnd(b, first + rest[..n], rest[n], host);
    }
  }

  // ntohl on the integer at o.
  method Ntohl(pkt: array<byte>, o: nat, host: Host)
    requires o + 4 <= pkt.Length
    modifies pkt
    ensures pkt[..] == Flip(old(pkt[..]), o, host)
  {
    if host.Little? {
      pkt[o], pkt[o + 1], pkt[o + 2], pkt[o + 3] := pkt[o + 3], pkt[o + 2], pkt[o + 1], pkt[o];
    }
  }

  method SwapOne(pkt: array<byte>, o: nat, host: Host)
    requires o + 4 <= pkt.Length
    modifies pkt
    ensures pkt[..] == FlipAll(old(pkt[..]), [o], host)
  {
    hide Flip;
    Ntohl(pkt, o, host);
    FlipAllAnd(old(pkt[..]), [], o, host);
    assert [] + [o] == [o];
  }

  method SwapTwo(pkt: array<byte>, o: nat, p: nat, host: Host)
    requires o + 4 <= pkt.Length && p + 4 <= pkt.Length
    modifies pkt
    ensures pkt[..] == FlipAll(old(pkt[..]), [o, p], host)
  {
    hide Flip, FlipAll;
    SwapOne(pkt, o, host);
    Ntohl(pkt, p, host);
    FlipAllAnd(old(pkt[..]), [o], p, host);
    assert [o] + [p] == [o, p];
  }

  method SwapThree(pkt: array<byte>, o: nat, p: nat, q: nat, host: Host)
    requires o + 4 <= pkt.Length && p + 4 <= pkt.Length && q + 4 <= pkt.Length
    modifies pkt
    ensures pkt[..] == FlipAll(old(pkt[..]), [o, p, q], host)
  {
    hide Flip, FlipAll;
    SwapTwo(pkt, o, p, host);
    Ntohl(pkt, q, host);
    FlipAllAnd(old(pkt[..]), [o, p], q, host);
    assert [o, p] + [q] == [o, p, q];
  }

  method SwapSell(pkt: array<byte>, host: Host)
    requires pkt.Length == PACKET_SIZE
    modifies pkt
    ensures pkt[..] == FlipAll(old(pkt[..]), [8, 12] + SellInts(MAX_INVEN_SIZE), host)
  {
    hide Flip, FlipAll;
    SwapTwo(pkt, 8, 12, host);
    assert [8, 12] + SellInts(0) == [8, 12];
    for i := 0 to MAX_INVEN_SIZE
      invariant pkt[..] == FlipAll(old(pkt[..]), [8, 12] + SellInts(i), host)
    {
      Ntohl(pkt, 16 + 4 * i, host);
      FlipAllAnd(old(pkt[..]), [8, 12] + SellInts(i), 16 + 4 * i, host);
      assert [8, 12] + SellInts(i + 1) == [8, 12] + SellInts(i) + [16 + 4 * i];
    }
  }

  method SwapInven(pkt: array<byte>, host: Host)
    requires pkt.Length == PACKET_SIZE
    modifies pkt
    ensures pkt[..] == FlipAll(old(pkt[..]), [8, 544] + ItemInts(MAX_INVEN_SIZE), host)
  {
    hide Flip, FlipAll;
    SwapTwo(pkt, 8, 544, host);
    assert [8, 544] + ItemInts(0) == [8, 544];
    for i := 0 to MAX_INVEN_SIZE
      invariant pkt[..] == FlipAll(old(pkt[..]), [8, 544] + ItemInts(i), host)
    {
      var o := 12 + 76 * i;
      SwapThree(pkt, o, o + 4, o + 72, host);
      FlipAllThen(old(pkt[..]), [8, 544] + ItemInts(i), [o, o + 4, o + 72], host);
      assert [8, 544] + ItemInts(i + 1) == [8, 544] + ItemInts(i) + [o, o + 4, o + 72];
    }
  }

  method SwapScoreboard(pkt: array<byte>, host: Host)
    requires pkt.Length == PACKET_SIZE
    modifies pkt
    ensures pkt[..] == FlipAll(old(pkt[..]), [8, 12, 136] + EscapedInts(MAX_SCORE_ESCAPED) + RemainingInts(MAX_SCORE_REMAINING), host)
  {
    hide Flip, FlipAll;
    SwapThree(pkt, 8, 12, 136, host);
    assert [8, 12, 136] + EscapedInts(0) == [8, 12, 136];
    for i := 0 to MAX_SCORE_ESCAPED
      invariant pkt[..] == FlipAll(old(pkt[..]), [8, 12, 136] + EscapedInts(i), host)
    {
      var o := 48 + 40 * i;
      SwapTwo(pkt, o, o + 4, host);
      FlipAllThen(old(pkt[..]), [8, 12, 136] + EscapedInts(i), [o, o + 4], host);
      assert [8, 12, 136] + EscapedInts(i + 1) == [8, 12, 136] + EscapedInts(i) + [o, o + 4];
    }
    ghost var first := [8, 12, 136] + EscapedInts(MAX_SCORE_ESCAPED);
    assert first + RemainingInts(0) == first;
    for i := 0 to MAX_SCORE_REMAINING
      invariant pkt[..] == FlipAll(old(pkt[..]), first + RemainingInts(i), host)
    {
      Ntohl(pkt, 172 + 36 * i, host);
      FlipAllAnd(old(pkt[..]), first + RemainingInts(i), 172 + 36 * i, host);
      assert first + RemainingInts(i + 1) == first + RemainingInts(i) + [172 + 36 * i];
    }
  }

  /** swap_packet_endian: the type is read in the order of the machine. */
  method SwapPacketEndian(pkt: array<byte>, host: Host)
    requires pkt.Length == PACKET_SIZE
    modifies pkt
    ensures pkt[..] == FlipAll(old(pkt[..]), SwappedInts(TypeOf(old(pkt[..]), host)), host)
  {
    hide FlipAll, IntAt, SellInts, ItemInts, EscapedInts, RemainingInts;
    var t := TypeOf(pkt[..], host);
    NothingSwapped(pkt[..], host);
    if t in {PKT_REQ_BUY, PKT_REQ_DISPOSE, PKT_RES_ERROR, PKT_EVT_MARKET_REMOVE, PKT_EVT_NPC_DESPAWN, PKT_EVT_NEWS_RECOVER, PKT_EVT_GOAL_UPDATE} {
      SwapOne(pkt, 8, host);
    } else if t == PKT_REQ_SELL {
      SwapSell(pkt, host);
    } else if t in {PKT_RES_LOGIN_OK, PKT_RES_BUY_OK, PKT_EVT_MARKET_SPAWN, PKT_EVT_NPC_SPAWN} {
      SwapThree(pkt, 8, 12, 16, host);
    } else if t == PKT_RES_INVEN_INFO {
      SwapInven(pkt, host);
    } else if t in {PKT_RES_SELL_OK, PKT_EVT_NEWS_LEAK} {
      SwapTwo(pkt, 8, 12, host);
    } else if t == PKT_EVT_POLICE_RAID {
      SwapOne(pkt, 264, host);
    } else if t == PKT_EVT_SCOREBOARD {
      SwapScoreboard(pkt, host);
    }
  }

  lemma NothingSwapped(b: seq<byte>, host: Host)
    ensures FlipAll(b, [], host) == b && ClearAll(b, []) == b
  {
  }

  method ClearByte(pkt: array<byte>, e: nat)
    requires e < pkt.Length
    modifies pkt
    ensures pkt[..] == ClearAll(old(pkt[..]), [e])
  {
    pkt[e] := 0;
    ClearAllAnd(old(pkt[..]), [], e);
    assert [] + [e] == [e];
  }

  method ClearItems(pkt: array<byte>)
    requires pkt.Length == PACKET_SIZE
    modifies pkt
    ensures pkt[..] == ClearAll(old(pkt[..]), ItemEnds(MAX_INVEN_SIZE))
  {
    hide ClearAll;
    ClearAllAnd(pkt[..], [], 0);
    for i := 0 to MAX_INVEN_SIZE
      invariant pkt[..] == ClearAll(old(pkt[..]), ItemEnds(i))
    {
      pkt[83 + 76 * i] := 0;
      ClearAllAnd(old(pkt[..]), ItemEnds(i), 83 + 76 * i);
    }
  }

  method ClearScores(pkt: array<byte>)
    requires pkt.Length == PACKET_SIZE
    modifies pkt
    ensures pkt[..] == ClearAll(old(pkt[..]), EscapedEnds(MAX_SCORE_ESCAPED) + RemainingEnds(MAX_SCORE_REMAINING))
  {
    hide ClearAll;
    ClearAllAnd(pkt[..], [], 0);
    for i := 0 to MAX_SCORE_ESCAPED
      invariant pkt[..] == ClearAll(old(pkt[..]), EscapedEnds(i))
    {
      pkt[47 + 40 * i] := 0;
      ClearAllAnd(old(pkt[..]), EscapedEnds(i), 47 + 40 * i);
    }
    ghost var first := EscapedEnds(MAX_SCORE_ESCAPED);
    assert first + RemainingEnds(0) == first;
    for i := 0 to MAX_SCORE_REMAINING
      invariant pkt[..] == ClearAll(old(pkt[..]), first + RemainingEnds(i))
    {
      pkt[171 + 36 * i] := 0;
      ClearAllAnd(old(pkt[..]), first + RemainingEnds(i), 171 + 36 * i);
      assert first + RemainingEnds(i + 1) == first + RemainingEnds(i) + [171 + 36 * i];
    }
  }

  method EnforceNullTermination(pkt: array<byte>, host: Host)
    requires pkt.Length == PACKET_SIZE
    modifies pkt
    ensures pkt[..] == Terminated(old(pkt[..]), host)
  {
    hide ClearAll, IntAt, ItemEnds, EscapedEnds, RemainingEnds;
    var t := TypeOf(pkt[..], host);
    NothingSwapped(pkt[..], host);
    if t in {PKT_REQ_LOGIN, PKT_REQ_RUMOR} {
      ClearByte(pkt, 39);
    } else if t in {PKT_REQ_CHAT, PKT_REQ_MINIGAME_SUBMIT, PKT_EVT_POLICE_RAID, PKT_EVT_GAME_OVER, PKT_EVT_VICTORY} {
      ClearByte(pkt, 263);
    } else if t in {PKT_RES_BUY_OK, PKT_EVT_MARKET_SPAWN} {
      ClearByte(pkt, 83);
    } else if t == PKT_RES_ERROR {
      ClearByte(pkt, 267);
    } else if t == PKT_EVT_CHAT {
      ClearByte(pkt, 39);
      ClearByte(pkt, 295);
      TwoCleared(old(pkt[..]), 39, 295);
    } else if t == PKT_EVT_NEWS_LEAK {
      ClearByte(pkt, 271);
    } else if t == PKT_RES_INVEN_INFO {
      ClearItems(pkt);
    } else if t == PKT_EVT_SCOREBOARD {
      ClearScores(pkt);
    }
  }

  lemma TwoCleared(b: seq<byte>, e: nat, f: nat)
    ensures ClearAll(ClearAll(b, [e]), [f]) == ClearAll(b, [e, f])
  {
    ClearAllAnd(b, [e], f);
    ClearAllAnd(ClearAll(b, [e]), [], f);
    assert [e] + [f] == [e, f] && [] + [f] == [f];
  }

  /** packet_send up to the send call: the packet itself is not touched. */
  method PacketSend(pkt: array<byte>, host: Host) returns (wire: array<byte>)
    requires pkt.Length == PACKET_SIZE
    ensures fresh(wire) && wire[..] == Encode(pkt[..], host)
  {
    hide FlipAll, ClearAll, Flip, IntAt, SwappedInts, ClearedEnds;
    wire := new byte[PACKET_SIZE](i requires 0 <= i < PACKET_SIZE reads pkt => pkt[i]);
    assert wire[..] == pkt[..];
    EnforceNullTermination(wire, host);
    TypeStays(pkt[..], host);
    SwapPacketEndian(wire, host);
    Ntohl(wire, 0, host);
    Ntohl(wire, 4, host);
  }

  lemma TypeStays(b: seq<byte>, host: Host)
    requires |b| == PACKET_SIZE
    ensures TypeOf(Terminated(b, host), host) == TypeOf(b, host)
  {
    hide IntAt, FlipAll, ClearAll;
    HeaderStays(b, TypeOf(b, host), host, host);
  }

  /** packet_recv once a whole packet is there. */
  method PacketRecv(wire: seq<byte>, pkt: array<byte>, host: Host)
    requires |wire| == pkt.Length == PACKET_SIZE
    modifies pkt
    ensures pkt[..] == Decode(wire, host)
  {
    hide FlipAll, ClearAll, Flip, IntAt, SwappedInts, ClearedEnds;
    forall i | 0 <= i < PACKET_SIZE {
      pkt[i] := wire[i];
    }
    assert pkt[..] == wire;
    Ntohl(pkt, 0, host);
    Ntohl(pkt, 4, host);
    ghost var header := pkt[..];
    SwapPacketEndian(pkt, host);
    BodyKeepsType(header, host);
    EnforceNullTermination(pkt, host);
  }

  lemma BodyKeepsType(b: seq<byte>, host: Host)
    requires |b| == PACKET_SIZE
    ensures TypeOf(FlipAll(b, SwappedInts(TypeOf(b, host)), host), host) == TypeOf(b, host)
  {
    hide SwappedInts, FlipAll, Number;
    var t := TypeOf(b, host);
    SwitchesTidy(t);
    forall k | 0 <= k < 4 ensures FlipAll(b, SwappedInts(t), host)[k] == b[k] {
      FlipAllElse(b, SwappedInts(t), host, k);
    }
  }
}
