// The packets on the wire: how long the bodies are, in which order integers travel, and that
// every string ends within its buffer.
module CodecWire {
  import opened Prelude
  import opened Codec

  /** The length of the body by the number of the type. */
  function BodyLength(t: int): nat {
    match t
    case 100 => 32 case 101 => 256 case 102 => 4 case 103 => 36 case 104 => 4 case 106 => 32 case 107 => 256
    case 200 => 12 case 201 => 260 case 202 => 540 case 203 => 76 case 204 => 8 case 206 => 260
    case 300 => 288 case 301 => 76 case 302 => 4 case 303 => 12 case 304 => 4 case 305 => 264 case 306 => 4
    case 308 => 260 case 309 => 256 case 310 => 256 case 311 => 384 case 312 => 4
    case _ => 0
  }

  lemma OneMember(a: Member)
    ensures Size([a]) == SizeOf(a)
  {
    assert [a][..0] == [];
  }

  lemma TwoMembers(a: Member, b: Member)
    ensures Size([a, b]) == SizeOf(a) + SizeOf(b)
  {
    assert [a, b][..1] == [a];
    OneMember(a);
  }

  lemma ThreeMembers(a: Member, b: Member, c: Member)
    ensures Size([a, b, c]) == SizeOf(a) + SizeOf(b) + SizeOf(c)
  {
    assert [a, b, c][..2] == [a, b];
    TwoMembers(a, b);
  }

  lemma FourMembers(a: Member, b: Member, c: Member, d: Member)
    ensures Size([a, b, c, d]) == SizeOf(a) + SizeOf(b) + SizeOf(c) + SizeOf(d)
  {
    assert [a, b, c, d][..3] == [a, b, c];
    ThreeMembers(a, b, c);
  }

  lemma LongLengths()
    ensures Size(Body(103)) == 36 && Size(Body(202)) == 540 && Size(Body(311)) == 384
  {
    hide Size, Repeat, Body, SellInts, SwappedInts, ClearedEnds, Ints, Ends;
    LongShapes();
    SellBody();
    InvenBody();
    ScoreBody();
  }

  lemma RequestLengths(t: int)
    requires t < 200 && t != 103
    ensures Size(Body(t)) == BodyLength(t)
  {
    hide Size, Repeat;
    OneMember(Int32);
    OneMember(KEY);
    OneMember(TEXT);
    NoMember();
  }

  lemma AnswerLengths(t: int)
    requires 200 <= t < 300 && t != 202
    ensures Size(Body(t)) == BodyLength(t)
  {
    hide Size, Repeat;
    TwoMembers(Int32, Int32);
    TwoMembers(Int32, TEXT);
    ThreeMembers(Int32, Int32, Int32);
    FourMembers(Int32, Int32, Int32, NAME);
    NoMember();
  }

  lemma EventLengths(t: int)
    requires 300 <= t && t != 311
    ensures Size(Body(t)) == BodyLength(t)
  {
    hide Size, Repeat;
    OneMember(Int32);
    OneMember(TEXT);
    TwoMembers(KEY, TEXT);
    TwoMembers(TEXT, Int32);
    ThreeMembers(Int32, Int32, Int32);
    ThreeMembers(Int32, Int32, TEXT);
    FourMembers(Int32, Int32, Int32, NAME);
    NoMember();
  }

  /** The bodies are as long as their packed structs, and the longest fills the packet. */
  lemma BodyLengths(t: int)
    ensures Size(Body(t)) == BodyLength(t)
    ensures 8 + Size(Body(t)) <= 548 && 8 + Size(Body(202)) == 548
  {
    hide Size, Body;
    LongLengths();
    if t != 103 && t != 202 && t != 311 {
      if t < 200 {
        RequestLengths(t);
      } else if t < 300 {
        AnswerLengths(t);
      } else {
        EventLengths(t);
      }
    }
  }

  lemma NoMember()
    ensures Size([]) == 0
  {
  }

  /** Integers travel in network byte order: whoever sends, the wire has the most significant byte of
      the type, of the session and of every integer of the body first. */
  lemma WireIsNetworkOrder(b: seq<byte>, from: Host, o: nat)
    requires |b| == PACKET_SIZE
    ensures var wire := Encode(b, from);
      && Number(wire[3], wire[2], wire[1], wire[0]) == IntAt(b, 0, from)
      && Number(wire[7], wire[6], wire[5], wire[4]) == IntAt(b, 4, from)
      && (TypeOf(b, from) != PKT_RES_LOGIN_FAIL && o in Ints(Body(TypeOf(b, from)), HEADER_SIZE) ==>
            o + 4 <= PACKET_SIZE && Number(wire[o + 3], wire[o + 2], wire[o + 1], wire[o]) == IntAt(b, o, from))
  {
    hide SwappedInts, ClearedEnds, FlipAll, ClearAll, Flip, Ints, Body, Mirrored, Encode, Number;
    var t := TypeOf(b, from);
    HeaderStays(b, t, from, from);
    SentIs(b, from);
    if from.Little? {
      MirroredHeader(Terminated(b, from), t);
    }
    if t != PKT_RES_LOGIN_FAIL && o in Ints(Body(t), HEADER_SIZE) {
      SwitchesCover(t);
      assert o in multiset(SwappedInts(t));
      var i :| 0 <= i < |SwappedInts(t)| && SwappedInts(t)[i] == o;
      TerminatedField(b, t, i, from);
      if from.Little? {
        MirroredField(Terminated(b, from), t, i);
      }
    }
  }

  lemma SentIs(b: seq<byte>, from: Host)
    requires |b| == PACKET_SIZE
    ensures Encode(b, from) == if from.Little? then Mirrored(Terminated(b, from), TypeOf(b, from)) else Terminated(b, from)
    ensures IntAt(Terminated(b, from), 0, from) == IntAt(b, 0, from) && IntAt(Terminated(b, from), 4, from) == IntAt(b, 4, from)
  {
    hide SwappedInts, ClearedEnds, FlipAll, ClearAll, Flip, Mirrored, Number;
    var t := TypeOf(b, from);
    SwitchesTidy(t);
    forall k | 0 <= k < 8 ensures Terminated(b, from)[k] == b[k] {
      ClearedAt(b, ClearedEnds(t), k);
    }
    if from.Little? {
      SentMirrored(b);
    } else {
      FlipAllBig(Terminated(b, from), SwappedInts(t));
      FlipBig(Terminated(b, from), 0);
      FlipBig(Terminated(b, from), 4);
    }
  }

  /** By the layout: the last byte of every string arrives as zero, every other byte that belongs to no
      integer arrives as it was, for every type but a login failure. */
  lemma StringsArrive(b: seq<byte>, from: Host, to: Host, k: nat)
    requires |b| == PACKET_SIZE && HEADER_SIZE <= k < PACKET_SIZE && TypeOf(b, from) != PKT_RES_LOGIN_FAIL
    requires forall o :: o in Ints(Body(TypeOf(b, from)), HEADER_SIZE) ==> k < o || o + 4 <= k
    ensures Decode(Encode(b, from), to)[k] == if k in Ends(Body(TypeOf(b, from)), HEADER_SIZE) then 0 else b[k]
  {
    hide SwappedInts, ClearedEnds, Ints, Ends, Body, Decode, Encode, IntAt;
    var t := TypeOf(b, from);
    SwitchesCover(t);
    forall i | 0 <= i < |SwappedInts(t)| ensures Outside(k, SwappedInts(t)[i]) {
      assert SwappedInts(t)[i] in multiset(SwappedInts(t));
      assert SwappedInts(t)[i] in Ints(Body(t), HEADER_SIZE);
    }
    SameEnds(t, k);
    TextArrives(b, from, to, k);
  }

  lemma SameEnds(t: int, k: nat)
    requires Covered(t)
    ensures k in ClearedEnds(t) <==> k in Ends(Body(t), HEADER_SIZE)
  {
    hide ClearedEnds, Ends, Body, Ints, SwappedInts;
    assert k in ClearedEnds(t) <==> k in multiset(ClearedEnds(t));
    assert k in Ends(Body(t), HEADER_SIZE) <==> k in multiset(Ends(Body(t), HEADER_SIZE));
  }
}
