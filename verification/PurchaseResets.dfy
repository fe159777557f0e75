// Purchases across round resets: a reset unlinks files, clears the board and lists the seeds
// in separate steps, while buyers, the spawner and the ager are on their way.
module PurchaseResets {
  import opened Prelude
  import opened P = Purchase
  import M = Market

  datatype Action =
    | Serve(a: P.Action)
    | Begin(t: nat)
    | Wipe(t: nat, id: int)
    | Empty(t: nat, user: nat, id: int)
    | Init(t: nat)
    | WriteSeed(t: nat, doc: M.Offer)
    | ListSeed(t: nat, now: int, roll: nat)

  predicate InReset(s: State, t: nat) {
    t < |s.threads| && s.threads[t].Resetting?
  }

  predicate IsIdle(s: State, t: nat) {
    t < |s.threads| && s.threads[t].Idle?
  }

  predicate HasWritten(s: State, t: nat) {
    t < |s.threads| && s.threads[t].Wrote?
  }

  /** Between its start and market_init a reset unlinks files of the master directory and of
      the sandboxes one by one. A seed that finds no slot keeps its file. */
  function Step(s: State, a: Action): State {
    match a
    case Serve(b) => P.Step(s, b)
    case Begin(t) => if IsIdle(s, t) then Goes(s, t, Resetting) else s
    case Wipe(t, id) => if InReset(s, t) then s.(master := s.master - {id}) else s
    case Empty(t, user, id) => if InReset(s, t) then P.Step(s, Discard(user, id)) else s
    case Init(t) => if InReset(s, t) then Goes(s, t, Idle).(board := M.EmptyBoard()) else s
    case WriteSeed(t, doc) => if IsIdle(s, t) then WriteDoc(s, t, doc) else s
    case ListSeed(t, now, roll) =>
      if HasWritten(s, t) then Goes(s, t, Idle).(board := M.AddOffer(s.board, s.threads[t].doc, now, roll)) else s
  }

  /** A reset is under way. */
  ghost predicate ResetOn(s: State) {
    exists t :: 0 <= t < |s.threads| && s.threads[t].Resetting?
  }

  /** Outside resets, files and offers are together and every document is in one place. */
  ghost predicate Outside(s: State) {
    !ResetOn(s) ==> Core(s)
  }

  // When a reset leaves files and offers together.

  ghost predicate LastReset(s: State, t: nat) {
    InReset(s, t) && forall u :: 0 <= u < |s.threads| && u != t ==> !s.threads[u].Resetting?
  }

  /** The master directory holds the files that threads are on their way with and no others:
      nothing that the board lists has a file, and nobody has an offer to put back. */
  ghost predicate Clean(s: State) {
    && multiset(s.master.Keys) == Total(Pendings(s.threads))
    && (forall t :: 0 <= t < |s.threads| ==> FindsFile(s, s.threads[t]))
    && NoneStranded(s)
    && OnePlace(s)
  }

  predicate FindsFile(s: State, thread: Thread) {
    thread.Wrote? || thread.Holding? ==> thread.doc.docId in s.master && s.master[thread.doc.docId] == thread.doc
  }

  lemma InitFiles(s: State, t: nat)
    requires InReset(s, t)
    ensures FilesMatch(Step(s, Init(t))) <==> multiset(s.master.Keys) == Total(Pendings(s.threads))
  {
    hide Total, M.Ids, M.Offers, M.EmptyBoard;
    M.EmptyIsEmpty();
    assert Pendings(Goes(s, t, Idle).threads) == Pendings(s.threads);
    assert M.Ids(M.EmptyBoard()) + Total(Pendings(s.threads)) == Total(Pendings(s.threads));
  }

  lemma InitFaithful(s: State, t: nat)
    requires InReset(s, t)
    ensures Faithful(Step(s, Init(t))) <==> forall u :: 0 <= u < |s.threads| ==> FindsFile(s, s.threads[u])
  {
    hide M.Offers, M.EmptyBoard;
    M.EmptyIsEmpty();
    var after := Step(s, Init(t));
    assert M.Offers(after.board) == multiset{};
    if Faithful(after) {
      forall u | 0 <= u < |s.threads| ensures FindsFile(s, s.threads[u]) {
        assert u != t ==> after.threads[u] == s.threads[u];
      }
    }
    if forall u :: 0 <= u < |s.threads| ==> FindsFile(s, s.threads[u]) {
      assert forall u :: 0 <= u < |after.threads| ==> FindsFile(after, after.threads[u]);
    }
  }

  lemma InitIff(s: State, t: nat)
    requires InReset(s, t)
    ensures Core(Step(s, Init(t))) <==> Clean(s)
  {
    hide Total, Boxed, M.Ids, M.Offers, Faithful, FindsFile, M.EmptyBoard, FilesMatch;
    InitFiles(s, t);
    InitFaithful(s, t);
    var after := Step(s, Init(t));
    assert Places(after) == Places(s);
    assert forall u :: 0 <= u < |s.threads| ==> (after.threads[u].Stranded? <==> s.threads[u].Stranded?);
  }

  /** Nothing for the caller to respect inside a reset, except that it ends clean. Outside,
      a written id has to be in no place, and a seed has to find a slot. */
  ghost predicate Orderly(s: State, a: Action) {
    match a
    case Serve(b) => ResetOn(s) || SafeId(s, b)
    case Init(t) => LastReset(s, t) ==> Clean(s)
    case WriteSeed(t, doc) =>
      ResetOn(s) || !IsIdle(s, t) || (doc.docId !in s.master && doc.docId !in Boxed(s.boxes))
    case ListSeed(t, _, _) => ResetOn(s) || !HasWritten(s, t) || M.HasRoom(s.board)
    case _ => true
  }

  lemma ServeKeepsResets(s: State, b: P.Action)
    ensures ResetOn(P.Step(s, b)) <==> ResetOn(s)
  {
    hide M.AddOffer, M.HasRoom, M.Take, M.AfterTake, M.AgeOut, M.AgedIds, M.Freeze, M.Unfreeze, M.EmptyBoard;
    var after := P.Step(s, b);
    assert |after.threads| >= |s.threads|;
    assert forall t :: 0 <= t < |s.threads| ==> (after.threads[t].Resetting? <==> s.threads[t].Resetting?);
    assert forall t :: |s.threads| <= t < |after.threads| ==> !after.threads[t].Resetting?;
  }

  /** Only market_init by the last thread in a reset ends it. */
  lemma ResetGoesOn(s: State, a: Action)
    requires ResetOn(s)
    ensures ResetOn(Step(s, a)) <==> !(a.Init? && LastReset(s, a.t))
  {
    hide M.AddOffer, M.HasRoom, M.EmptyBoard;
    var u :| 0 <= u < |s.threads| && s.threads[u].Resetting?;
    var after := Step(s, a);
    match a
    case Serve(b) =>
      hide P.Step;
      ServeKeepsResets(s, b);
    case Init(t) =>
      if InReset(s, t) && !LastReset(s, t) {
        var v :| 0 <= v < |s.threads| && v != t && s.threads[v].Resetting?;
        assert after.threads[v].Resetting?;
      } else if !InReset(s, t) {
        assert after == s;
      }
    case _ =>
      assert after.threads[u].Resetting?;
  }

  lemma InsideIff(s: State, a: Action)
    requires ResetOn(s)
    ensures Outside(Step(s, a)) <==> Orderly(s, a)
  {
    hide Core, Clean, Step;
    ResetGoesOn(s, a);
    if a.Init? && LastReset(s, a.t) {
      InitIff(s, a.t);
    }
  }

  lemma NoRoomBreaks(s: State, t: nat, now: int, roll: nat)
    requires Core(s) && HasWritten(s, t) && !M.HasRoom(s.board)
    ensures !Core(Step(s, ListSeed(t, now, roll)))
  {
    hide M.Ids, M.Offers, Faithful, Total, Pendings, Boxed, OnePlace, M.HasRoom;
    var after := Step(s, ListSeed(t, now, roll));
    PendingsUpdate(s.threads, t, Idle);
    var id := s.threads[t].doc.docId;
    assert (Total(Pendings(after.threads)) + multiset{id})[id] == Total(Pendings(s.threads))[id];
    assert multiset(s.master.Keys)[id] == (M.Ids(s.board) + Total(Pendings(s.threads)))[id];
    assert after.board == s.board && after.master == s.master;
    assert multiset(after.master.Keys)[id] != (M.Ids(after.board) + Total(Pendings(after.threads)))[id];
  }

  lemma ListSeedIff(s: State, t: nat, now: int, roll: nat)
    requires Core(s) && HasWritten(s, t)
    ensures Core(Step(s, ListSeed(t, now, roll))) <==> M.HasRoom(s.board)
  {
    hide Core, M.HasRoom, M.AddOffer;
    if M.HasRoom(s.board) {
      assert Step(s, ListSeed(t, now, roll)) == P.Step(s, List(t, now, roll));
      P.StepKeeps(s, List(t, now, roll));
    } else {
      NoRoomBreaks(s, t, now, roll);
    }
  }

  lemma ServeIff(s: State, b: P.Action)
    requires Core(s)
    ensures Core(P.Step(s, b)) <==> SafeId(s, b)
  {
    hide Core, P.Step;
    if SafeId(s, b) {
      P.StepKeeps(s, b);
    } else {
      UnsafeBreaks(s, b);
    }
  }

  lemma NoNewReset(s: State, a: Action)
    requires !ResetOn(s)
    ensures ResetOn(Step(s, a)) <==> a.Begin? && IsIdle(s, a.t)
  {
    hide M.AddOffer, M.HasRoom, M.EmptyBoard;
    if a.Serve? {
      hide P.Step;
      ServeKeepsResets(s, a.a);
    } else if a.Begin? && IsIdle(s, a.t) {
      assert Step(s, a).threads[a.t].Resetting?;
    }
  }

  lemma OutsideIff(s: State, a: Action)
    requires !ResetOn(s) && Core(s)
    ensures Outside(Step(s, a)) <==> Orderly(s, a)
  {
    hide Core, P.Step, WriteDoc, M.HasRoom, M.AddOffer, SafeId, M.EmptyBoard;
    NoNewReset(s, a);
    match a
    case Serve(b) => ServeIff(s, b);
    case WriteSeed(t, doc) =>
      if IsIdle(s, t) {
        if doc.docId !in s.master && doc.docId !in Boxed(s.boxes) {
          WriteDocKeeps(s, t, doc);
        } else {
          WriteDocBreaks(s, t, doc);
        }
      }
    case ListSeed(t, now, roll) =>
      if HasWritten(s, t) {
        ListSeedIff(s, t, now, roll);
      }
    case _ =>
  }

  function After(s: State, actions: seq<Action>): State
    decreases |actions|
  {
    if actions == [] then s else After(Step(s, actions[0]), actions[1..])
  }

  ghost predicate OutsideThroughout(s: State, actions: seq<Action>)
    decreases |actions|
  {
    Outside(s) && (actions != [] ==> OutsideThroughout(Step(s, actions[0]), actions[1..]))
  }

  ghost predicate OrderlyRun(s: State, actions: seq<Action>)
    decreases |actions|
  {
    actions != [] ==> Orderly(s, actions[0]) && OrderlyRun(Step(s, actions[0]), actions[1..])
  }

  lemma PartedFrom(s: State, actions: seq<Action>)
    requires !Outside(s)
    ensures !OutsideThroughout(s, actions)
  {
    hide Step, Outside;
  }

  lemma StepIff(s: State, a: Action)
    requires Outside(s)
    ensures Outside(Step(s, a)) <==> Orderly(s, a)
  {
    hide Step, Orderly, Core;
    if ResetOn(s) {
      InsideIff(s, a);
    } else {
      OutsideIff(s, a);
    }
  }

  /** Through every run with any number of resets, files and offers are together and every
      document is in one place at every moment outside a reset, exactly when each reset ends
      clean, each seed finds a slot, and each id written outside a reset is in no place. */
  lemma {:induction false} ResetRunIff(s: State, actions: seq<Action>)
    requires Outside(s)
    ensures OutsideThroughout(s, actions) <==> OrderlyRun(s, actions)
    decreases |actions|
  {
    hide Step, Outside, Orderly;
    if actions != [] {
      StepIff(s, actions[0]);
      if Outside(Step(s, actions[0])) {
        ResetRunIff(Step(s, actions[0]), actions[1..]);
      } else {
        PartedFrom(Step(s, actions[0]), actions[1..]);
      }
    }
  }

  // What new ids give: a reset ends clean when nobody is missing a file and no file its owner.

  /** The ids that a thread answers for or has to put back. */
  function Carried(thread: Thread): multiset<int> {
    if thread.Stranded? then multiset{thread.doc.docId} else Pending(thread)
  }

  function Loads(threads: seq<Thread>): seq<multiset<int>> {
    seq(|threads|, i requires 0 <= i < |threads| => Carried(threads[i]))
  }

  /** The ids on sale or on their way, with a file or without. */
  function Bound(s: State): multiset<int> {
    M.Ids(s.board) + Total(Loads(s.threads))
  }

  predicate CarriesDoc(thread: Thread) {
    thread.Wrote? || thread.Holding? || thread.Stranded?
  }

  predicate Agrees(master: map<int, M.Offer>, doc: M.Offer) {
    doc.docId in master ==> master[doc.docId] == doc
  }

  /** Where a document has a file, the file is that document. */
  ghost predicate TrueFiles(s: State) {
    && (forall o :: o in M.Offers(s.board) ==> Agrees(s.master, o))
    && (forall t :: 0 <= t < |s.threads| && CarriesDoc(s.threads[t]) ==> Agrees(s.master, s.threads[t].doc))
  }

  ghost predicate BoundOnce(s: State) {
    forall id :: Bound(s)[id] <= 1
  }

  /** What holds inside resets too. */
  ghost predicate Loose(s: State) {
    BoundOnce(s) && TrueFiles(s) && OnePlace(s)
  }

  ghost predicate NewTo(s: State, id: int) {
    id !in s.master && id !in Boxed(s.boxes) && id !in Bound(s)
  }

  /** A written id is in no place, not on sale and not on its way. */
  ghost predicate WritesNew(s: State, a: Action) {
    && (a.Serve? && Writes(s, a.a) ==> NewTo(s, s.counter + 1))
    && (a.WriteSeed? && IsIdle(s, a.t) ==> NewTo(s, a.doc.docId))
  }

  lemma LoadsUpdate(threads: seq<Thread>, t: nat, thread: Thread)
    requires t < |threads|
    ensures Total(Loads(threads[t := thread])) + Carried(threads[t]) == Total(Loads(threads)) + Carried(thread)
  {
    hide Carried;
    TotalUpdate(Loads(threads), t, Carried(thread));
    assert Loads(threads[t := thread]) == Loads(threads)[t := Carried(thread)];
  }

  lemma LessBound(s: State, after: State, t: nat, thread: Thread)
    requires BoundOnce(s) && t < |s.threads| && after.threads == s.threads[t := thread]
    requires M.Ids(after.board) + Carried(thread) <= M.Ids(s.board) + Carried(s.threads[t])
    ensures BoundOnce(after)
  {
    hide M.Ids, Carried, Total, Loads;
    LoadsUpdate(s.threads, t, thread);
    forall id ensures Bound(after)[id] <= 1 {
      assert (M.Ids(after.board) + Carried(thread))[id] <= (M.Ids(s.board) + Carried(s.threads[t]))[id];
      assert (Total(Loads(after.threads)) + Carried(s.threads[t]))[id] == (Total(Loads(s.threads)) + Carried(thread))[id];
      assert Bound(s)[id] <= 1;
    }
  }

  ghost predicate KnownDoc(s: State, o: M.Offer) {
    o in M.Offers(s.board) || exists t :: 0 <= t < |s.threads| && CarriesDoc(s.threads[t]) && s.threads[t].doc == o
  }

  ghost predicate FewerFiles(master: map<int, M.Offer>, more: map<int, M.Offer>) {
    forall id :: id in master ==> id in more && master[id] == more[id]
  }

  lemma FewerKeys(master: map<int, M.Offer>, more: map<int, M.Offer>)
    requires FewerFiles(master, more)
    ensures master.Keys <= more.Keys
  {
    forall id | id in master.Keys ensures id in more.Keys {
      assert id in master;
    }
  }

  lemma StillTrue(s: State, after: State, t: nat, thread: Thread)
    requires TrueFiles(s) && t < |s.threads| && after.threads == s.threads[t := thread]
    requires CarriesDoc(thread) ==> KnownDoc(s, thread.doc)
    requires forall o :: o in M.Offers(after.board) ==> KnownDoc(s, o)
    requires FewerFiles(after.master, s.master)
    ensures TrueFiles(after)
  {
    hide M.Offers;
    forall o | KnownDoc(s, o) ensures Agrees(after.master, o) {
      assert Agrees(s.master, o);
    }
  }

  /** One thread goes on, with no more ids than it and the board had before. */
  lemma LooseGoes(s: State, after: State, t: nat, thread: Thread)
    requires Loose(s) && t < |s.threads| && after.threads == s.threads[t := thread]
    requires M.Ids(after.board) + Carried(thread) <= M.Ids(s.board) + Carried(s.threads[t])
    requires CarriesDoc(thread) ==> KnownDoc(s, thread.doc)
    requires forall o :: o in M.Offers(after.board) ==> KnownDoc(s, o)
    requires FewerFiles(after.master, s.master) && after.boxes == s.boxes
    ensures Loose(after)
  {
    hide M.Ids, M.Offers, Carried, KnownDoc, BoundOnce, TrueFiles, Boxed, CarriesDoc;
    LessBound(s, after, t, thread);
    StillTrue(s, after, t, thread);
    FewerKeys(after.master, s.master);
    FewerPlaces(s, after);
  }

  /** The threads stay, and so do the offers. */
  lemma LooseStays(s: State, after: State)
    requires Loose(s) && after.threads == s.threads
    requires M.Ids(after.board) == M.Ids(s.board) && M.Offers(after.board) == M.Offers(s.board)
    requires FewerFiles(after.master, s.master) && Boxed(after.boxes) <= Boxed(s.boxes)
    ensures Loose(after)
  {
    hide M.Ids, M.Offers, Boxed, CarriesDoc, Total, Loads, OnePlace;
    assert Bound(after) == Bound(s);
    FewerKeys(after.master, s.master);
    FewerPlaces(s, after);
  }

  lemma LooseForks(s: State)
    requires Loose(s)
    ensures Loose(P.Step(s, Fork))
  {
    hide M.Ids, M.Offers, Boxed, Total;
    var after := P.Step(s, Fork);
    TotalAppend(Loads(s.threads), multiset{});
    assert Loads(after.threads) == Loads(s.threads) + [multiset{}];
    assert Bound(after) == Bound(s);
    FewerPlaces(s, after);
  }

  lemma LooseWrites(s: State, t: nat, doc: M.Offer)
    requires Loose(s) && IsIdle(s, t) && NewTo(s, doc.docId)
    ensures Loose(WriteDoc(s, t, doc))
  {
    hide M.Ids, M.Offers, Boxed, Total, TrueFiles;
    var after := WriteDoc(s, t, doc);
    LoadsUpdate(s.threads, t, Wrote(doc));
    forall id ensures Bound(after)[id] <= 1 {
      assert (Total(Loads(after.threads)) + multiset{})[id] == (Total(Loads(s.threads)) + multiset{doc.docId})[id];
      assert Bound(s)[id] <= 1;
    }
    WritesTrue(s, t, doc);
    NewPlace(s, after, doc.docId);
  }

  lemma WritesTrue(s: State, t: nat, doc: M.Offer)
    requires TrueFiles(s) && IsIdle(s, t) && NewTo(s, doc.docId)
    ensures TrueFiles(WriteDoc(s, t, doc))
  {
    hide M.Ids, M.Offers, Boxed, Total;
    var after := WriteDoc(s, t, doc);
    forall o | o in M.Offers(s.board) ensures Agrees(after.master, o) {
      M.OfferHasId(s.board, o);
      assert o.docId in Bound(s);
    }
    forall u | 0 <= u < |s.threads| && u != t && CarriesDoc(s.threads[u]) ensures Agrees(after.master, s.threads[u].doc) {
      CarriedIsBound(s, u, s.threads[u].doc.docId);
    }
  }

  lemma CarriedIsBound(s: State, t: nat, id: int)
    requires t < |s.threads| && id in Carried(s.threads[t])
    ensures id in Bound(s)
  {
    hide M.Ids, Carried;
    TotalAtLeast(Loads(s.threads), t);
    assert Loads(s.threads)[t] == Carried(s.threads[t]);
    assert Loads(s.threads)[t][id] <= Total(Loads(s.threads))[id];
  }

  lemma KnownBySelf(s: State, t: nat)
    requires t < |s.threads| && CarriesDoc(s.threads[t])
    ensures KnownDoc(s, s.threads[t].doc)
  {
  }

  /** An offer carried by a thread goes on the board, or is dropped for want of room. */
  lemma LooseAdds(s: State, t: nat, now: int, roll: nat)
    requires Loose(s) && t < |s.threads| && CarriesDoc(s.threads[t])
    ensures Loose(Goes(s, t, Idle).(board := M.AddOffer(s.board, s.threads[t].doc, now, roll)))
  {
    hide M.Ids, M.Offers, M.AddOffer, M.HasRoom, BoundOnce, TrueFiles, OnePlace, KnownDoc, Loose;
    M.AddKeeps(s.board, s.threads[t].doc, now, roll);
    KnownBySelf(s, t);
    OffersKnown(s);
    LooseGoes(s, Goes(s, t, Idle).(board := M.AddOffer(s.board, s.threads[t].doc, now, roll)), t, Idle);
  }

  lemma OffersKnown(s: State)
    ensures forall o :: o in M.Offers(s.board) ==> KnownDoc(s, o)
  {
    hide M.Offers;
  }

  lemma LooseLists(s: State, t: nat)
    requires Loose(s) && HasWritten(s, t)
    ensures Loose(Goes(s, t, Unlisted(s.threads[t].doc)))
  {
    hide M.Ids, M.Offers, BoundOnce, TrueFiles, OnePlace, KnownDoc, Loose;
    OffersKnown(s);
    LooseGoes(s, Goes(s, t, Unlisted(s.threads[t].doc)), t, Unlisted(s.threads[t].doc));
  }

  lemma LooseTakes(s: State, t: nat, user: nat, docId: int)
    requires Loose(s) && IsIdle(s, t) && M.Take(s.board, docId).Taken?
    ensures Loose(P.Step(s, Take(t, user, docId)))
  {
    hide M.Ids, M.Offers, M.AfterTake, M.Take, BoundOnce, TrueFiles, OnePlace, KnownDoc, Loose;
    M.TakeKeeps(s.board, docId);
    OffersKnown(s);
    var offer := M.Take(s.board, docId).slot.offer;
    assert offer in M.Offers(s.board);
    LooseGoes(s, P.Step(s, Take(t, user, docId)), t, Holding(user, offer));
  }

  lemma LooseMoves(s: State, t: nat)
    requires Loose(s) && t < |s.threads| && s.threads[t].Holding? && s.threads[t].user < |s.boxes|
    ensures Loose(P.Step(s, Move(t)))
  {
    hide M.Ids, M.Offers, BoundOnce, TrueFiles, OnePlace, KnownDoc, Places, Boxed;
    var doc, after := s.threads[t].doc, P.Step(s, Move(t));
    OffersKnown(s);
    KnownBySelf(s, t);
    if doc.docId in s.master {
      LessBound(s, after, t, Idle);
      StillTrue(s, after, t, Idle);
      MovePlaces(s, t);
      SamePlaces(s, after);
    } else {
      LooseGoes(s, after, t, Stranded(doc));
    }
  }

  lemma LooseAges(s: State, t: nat, now: int)
    requires Loose(s) && IsIdle(s, t)
    ensures Loose(P.Step(s, Age(t, now)))
  {
    hide M.Ids, M.Offers, M.AgeOut, M.AgedIds, BoundOnce, TrueFiles, OnePlace, KnownDoc, Loose;
    M.AgeKeeps(s.board, now);
    OffersKnown(s);
    assert forall o :: o in M.Offers(M.AgeOut(s.board, now)) ==> o in M.Offers(s.board);
    LooseGoes(s, P.Step(s, Age(t, now)), t, Clearing(M.AgedIds(s.board, now)));
  }

  /** A thread lets one id or more go, with or without unlinking a file. */
  lemma LooseDrops(s: State, t: nat, thread: Thread, gone: set<int>)
    requires Loose(s) && t < |s.threads| && Carried(thread) <= Carried(s.threads[t]) && !CarriesDoc(thread)
    ensures Loose(Goes(s, t, thread).(master := s.master - gone))
  {
    hide M.Ids, M.Offers, Carried, BoundOnce, TrueFiles, OnePlace, KnownDoc, Loose;
    OffersKnown(s);
    LooseGoes(s, Goes(s, t, thread).(master := s.master - gone), t, thread);
  }

  lemma LooseCleared(s: State, t: nat)
    requires Loose(s) && t < |s.threads| && s.threads[t] == Clearing([])
    ensures Loose(Goes(s, t, Idle))
  {
    hide Loose;
    LooseDrops(s, t, Idle, {});
    assert s.master - {} == s.master;
  }

  lemma LooseClears(s: State, t: nat, ids: seq<int>)
    requires Loose(s) && t < |s.threads| && s.threads[t] == Clearing(ids) && ids != []
    ensures Loose(Goes(s, t, Clearing(ids[1..])).(master := s.master - {ids[0]}))
  {
    hide Loose, Pending;
    ClearingFirst(ids);
    LooseDrops(s, t, Clearing(ids[1..]), {ids[0]});
  }

  lemma LooseFreezes(s: State, tags: bv32)
    requires Loose(s)
    ensures Loose(P.Step(s, FreezeTags(tags))) && Loose(P.Step(s, UnfreezeTags(tags)))
  {
    hide M.Ids, M.Offers, M.Freeze, M.Unfreeze, Boxed, Loose;
    M.FreezeKeeps(s.board, tags);
    M.UnfreezeKeeps(s.board, tags);
    LooseStays(s, P.Step(s, FreezeTags(tags)));
    LooseStays(s, P.Step(s, UnfreezeTags(tags)));
  }

  lemma LooseDiscards(s: State, user: nat, docId: int)
    requires Loose(s) && user < |s.boxes|
    ensures Loose(P.Step(s, Discard(user, docId)))
  {
    hide M.Ids, M.Offers, Boxed, Loose;
    DiscardShrinks(s, user, docId);
    LooseStays(s, P.Step(s, Discard(user, docId)));
  }

  lemma SameLoose(s: State, after: State)
    requires Loose(s)
    requires after.board == s.board && after.master == s.master && after.boxes == s.boxes && after.threads == s.threads
    ensures Loose(after)
  {
    hide M.Ids, M.Offers, Boxed, Loose;
    LooseStays(s, after);
  }

  lemma ServeLoose(s: State, b: P.Action)
    requires Loose(s) && WritesNew(s, Serve(b))
    ensures Loose(P.Step(s, b))
  {
    hide Loose, NewTo, M.AddOffer, M.HasRoom, M.Take, M.AfterTake, M.AgeOut, M.AgedIds, M.Freeze, M.Unfreeze;
    match b
    case Fork => LooseForks(s);
    case Write(t, tags, price, name) =>
      if IsIdle(s, t) {
        var doc := M.Offer(s.counter + 1, tags, price, name);
        LooseWrites(s, t, doc);
        SameLoose(WriteDoc(s, t, doc), P.Step(s, b));
      }
    case List(t, now, roll) =>
      if HasWritten(s, t) {
        LooseAdds(s, t, now, roll);
        LooseLists(s, t);
      }
    case Unwrite(t) =>
      if t < |s.threads| && s.threads[t].Unlisted? {
        LooseDrops(s, t, Idle, {s.threads[t].doc.docId});
      }
    case Take(t, user, docId) =>
      if IsIdle(s, t) && M.Take(s.board, docId).Taken? {
        LooseTakes(s, t, user, docId);
      }
    case Move(t) =>
      if t < |s.threads| && s.threads[t].Holding? && s.threads[t].user < |s.boxes| {
        LooseMoves(s, t);
      }
    case PutBack(t, now, roll) =>
      if t < |s.threads| && s.threads[t].Stranded? {
        LooseAdds(s, t, now, roll);
      }
    case Age(t, now) =>
      if IsIdle(s, t) {
        LooseAges(s, t, now);
      }
    case Clear(t) =>
      if t < |s.threads| && s.threads[t].Clearing? {
        var ids := s.threads[t].ids;
        if ids == [] {
          LooseCleared(s, t);
        } else {
          LooseClears(s, t, ids);
        }
      }
    case FreezeTags(tags) => LooseFreezes(s, tags);
    case UnfreezeTags(tags) => LooseFreezes(s, tags);
    case Discard(user, docId) =>
      if user < |s.boxes| {
        LooseDiscards(s, user, docId);
      }
  }

  lemma InitLoose(s: State, t: nat)
    requires Loose(s) && InReset(s, t)
    ensures Loose(Step(s, Init(t)))
  {
    hide M.Ids, M.Offers, M.EmptyBoard, KnownDoc, Loose;
    M.EmptyIsEmpty();
    LooseGoes(s, Step(s, Init(t)), t, Idle);
  }

  lemma WipeLoose(s: State, t: nat, id: int)
    requires Loose(s)
    ensures Loose(Step(s, Wipe(t, id)))
  {
    hide M.Ids, M.Offers, Boxed, Loose;
    LooseStays(s, Step(s, Wipe(t, id)));
  }

  lemma BeginLoose(s: State, t: nat)
    requires Loose(s) && IsIdle(s, t)
    ensures Loose(Goes(s, t, Resetting))
  {
    hide Loose;
    LooseDrops(s, t, Resetting, {});
    assert s.master - {} == s.master;
  }

  /** Every step keeps ids bound once, files true and documents in one place, inside resets
      and outside, if the ids it writes are new. */
  lemma StepLoose(s: State, a: Action)
    requires Loose(s) && WritesNew(s, a)
    ensures Loose(Step(s, a))
  {
    hide Loose, NewTo, P.Step, WriteDoc, M.EmptyBoard;
    match a
    case Serve(b) => ServeLoose(s, b);
    case Begin(t) =>
      if IsIdle(s, t) {
        BeginLoose(s, t);
      }
    case Wipe(t, id) => WipeLoose(s, t, id);
    case Empty(t, user, id) => ServeLoose(s, Discard(user, id));
    case Init(t) =>
      if InReset(s, t) {
        InitLoose(s, t);
      }
    case WriteSeed(t, doc) =>
      if IsIdle(s, t) {
        LooseWrites(s, t, doc);
      }
    case ListSeed(t, now, roll) =>
      if HasWritten(s, t) {
        LooseAdds(s, t, now, roll);
      }
  }

  /** A thread is on its way with the file of the id. */
  ghost predicate OnItsWay(s: State, id: int) {
    exists t :: 0 <= t < |s.threads| && id in Pending(s.threads[t])
  }

  /** At market_init: every file of the master directory is on its way with some thread, so
      that the board lists nothing that has one; every thread on its way has its files; and
      nobody has an offer to put back. */
  ghost predicate Settled(s: State) {
    && (forall id :: id in s.master <==> OnItsWay(s, id))
    && NoneStranded(s)
  }

  lemma PendingsSay(s: State, id: int)
    ensures id in Total(Pendings(s.threads)) <==> OnItsWay(s, id)
  {
    hide Pending;
    TotalMember(Pendings(s.threads), id);
    assert forall t :: 0 <= t < |s.threads| ==> Pendings(s.threads)[t] == Pending(s.threads[t]);
  }

  lemma SettledFiles(s: State)
    requires BoundOnce(s) && Settled(s)
    ensures multiset(s.master.Keys) == Total(Pendings(s.threads))
  {
    hide Pending, OnItsWay, Total, M.Ids;
    assert Loads(s.threads) == Pendings(s.threads);
    forall id ensures multiset(s.master.Keys)[id] == Total(Pendings(s.threads))[id] {
      PendingsSay(s, id);
      assert Bound(s)[id] <= 1;
    }
  }

  lemma SettledFinds(s: State)
    requires TrueFiles(s) && Settled(s)
    ensures forall t :: 0 <= t < |s.threads| ==> FindsFile(s, s.threads[t])
  {
    hide M.Offers;
    forall t | 0 <= t < |s.threads| ensures FindsFile(s, s.threads[t]) {
      if s.threads[t].Wrote? || s.threads[t].Holding? {
        assert s.threads[t].doc.docId in Pending(s.threads[t]);
        assert OnItsWay(s, s.threads[t].doc.docId);
      }
    }
  }

  /** With new ids, that is all that a clean end takes. */
  lemma CleanIff(s: State)
    requires Loose(s)
    ensures Clean(s) <==> Settled(s)
  {
    hide BoundOnce, TrueFiles, OnePlace, OnItsWay, FindsFile, Total, Pendings, Pending;
    if Settled(s) {
      SettledFiles(s);
      SettledFinds(s);
    } else if Clean(s) {
      forall id ensures id in s.master <==> OnItsWay(s, id) {
        PendingsSay(s, id);
        assert id in s.master <==> multiset(s.master.Keys)[id] == 1;
      }
    }
  }

  ghost predicate NewRun(s: State, actions: seq<Action>)
    decreases |actions|
  {
    actions != [] ==> WritesNew(s, actions[0]) && NewRun(Step(s, actions[0]), actions[1..])
  }

  /** Every reset ends settled, and a seed listed outside a reset finds a slot. */
  ghost predicate SettledRun(s: State, actions: seq<Action>)
    decreases |actions|
  {
    actions != [] ==>
      && (actions[0].Init? && LastReset(s, actions[0].t) ==> Settled(s))
      && (actions[0].ListSeed? && !ResetOn(s) && HasWritten(s, actions[0].t) ==> M.HasRoom(s.board))
      && SettledRun(Step(s, actions[0]), actions[1..])
  }

  lemma SettledIsOrderly(s: State, a: Action)
    requires Loose(s) && WritesNew(s, a)
    ensures Orderly(s, a) <==>
      && (a.Init? && LastReset(s, a.t) ==> Settled(s))
      && (a.ListSeed? && !ResetOn(s) && HasWritten(s, a.t) ==> M.HasRoom(s.board))
  {
    hide Loose, Clean, Settled, Boxed, Bound, LastReset, ResetOn, M.HasRoom;
    CleanIff(s);
  }

  lemma {:induction false} SettledAsOrderly(s: State, actions: seq<Action>)
    requires Loose(s) && NewRun(s, actions)
    ensures OrderlyRun(s, actions) <==> SettledRun(s, actions)
    decreases |actions|
  {
    hide Step, Loose, Settled, Orderly, WritesNew, LastReset, ResetOn, M.HasRoom;
    if actions != [] {
      SettledIsOrderly(s, actions[0]);
      StepLoose(s, actions[0]);
      SettledAsOrderly(Step(s, actions[0]), actions[1..]);
    }
  }

  /** So with new ids, files and offers are together outside resets throughout exactly when
      each reset ends with nobody short of a file and no file without its thread. */
  lemma NewRunIff(s: State, actions: seq<Action>)
    requires Loose(s) && Outside(s) && NewRun(s, actions)
    ensures OutsideThroughout(s, actions) <==> SettledRun(s, actions)
  {
    hide Loose, Outside;
    ResetRunIff(s, actions);
    SettledAsOrderly(s, actions);
  }

  lemma CoreIsLoose(s: State)
    requires Core(s)
    ensures Loose(s)
  {
    hide M.Ids, M.Offers, Boxed, Total;
    assert Loads(s.threads) == Pendings(s.threads);
    forall id ensures Bound(s)[id] <= 1 {
      assert Bound(s)[id] == multiset(s.master.Keys)[id];
    }
  }
}
