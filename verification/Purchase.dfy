// Purchases interleaved with spawning, ageing and freezing, for any number of
// threads. One step is one critical section of the board or one file operation.
module Purchase {
  import opened Prelude
  import opened Masks
  import M = Market

  /** Where a thread stands between its critical sections. */
  datatype Thread =
    | Idle
    | Wrote(doc: M.Offer)            // the spawner has written the file and not yet listed the offer
    | Unlisted(doc: M.Offer)         // there was no slot: the file has to go again
    | Holding(user: nat, doc: M.Offer)  // a buyer has taken the offer and not yet moved the file
    | Stranded(doc: M.Offer)         // the file was not there: the offer has to be put back
    | Clearing(ids: seq<int>)        // the ager has taken offers off the board and unlinks their files
    | Resetting                      // a round reset between its start and market_init: PurchaseResets

  /** The directories hold documents by id; used and delivered record the past. */
  datatype State = State(
    board: M.Board,
    master: map<int, M.Offer>,
    boxes: seq<set<int>>,
    threads: seq<Thread>,
    counter: int,
    used: set<int>,
    delivered: multiset<int>)

  datatype Action =
    | Fork
    | Write(t: nat, tags: bv32, price: int, name: Name)
    | List(t: nat, now: int, roll: nat)
    | Unwrite(t: nat)
    | Take(t: nat, user: nat, docId: int)
    | Move(t: nat)
    | PutBack(t: nat, now: int, roll: nat)
    | Age(t: nat, now: int)
    | Clear(t: nat)
    | FreezeTags(tags: bv32)
    | UnfreezeTags(tags: bv32)
    | Discard(user: nat, docId: int)

  function Goes(s: State, t: nat, thread: Thread): State
    requires t < |s.threads|
  {
    s.(threads := s.threads[t := thread])
  }

  /** A step that its thread is not ready for does nothing. */
  function Step(s: State, a: Action): State {
    match a
    case Fork => s.(threads := s.threads + [Idle])
    case Write(t, tags, price, name) =>
      if t < |s.threads| && s.threads[t].Idle? then
        var doc := M.Offer(s.counter + 1, tags, price, name);
        Goes(s, t, Wrote(doc)).(counter := s.counter + 1, master := s.master[doc.docId := doc], used := s.used + {doc.docId})
      else s
    case List(t, now, roll) =>
      if t < |s.threads| && s.threads[t].Wrote? then
        var doc := s.threads[t].doc;
        if M.HasRoom(s.board) then Goes(s, t, Idle).(board := M.AddOffer(s.board, doc, now, roll))
        else Goes(s, t, Unlisted(doc))
      else s
    case Unwrite(t) =>
      if t < |s.threads| && s.threads[t].Unlisted? then
        Goes(s, t, Idle).(master := s.master - {s.threads[t].doc.docId})
      else s
    case Take(t, user, docId) =>
      if t < |s.threads| && s.threads[t].Idle? && M.Take(s.board, docId).Taken? then
        Goes(s, t, Holding(user, M.Take(s.board, docId).slot.offer)).(board := M.AfterTake(s.board, docId))
      else s
    case Move(t) =>
      if t < |s.threads| && s.threads[t].Holding? && s.threads[t].user < |s.boxes| then
        var user, doc := s.threads[t].user, s.threads[t].doc;
        if doc.docId in s.master then
          Goes(s, t, Idle).(master := s.master - {doc.docId},
                            boxes := s.boxes[user := s.boxes[user] + {doc.docId}],
                            delivered := s.delivered + multiset{doc.docId})
        else Goes(s, t, Stranded(doc))
      else s
    case PutBack(t, now, roll) =>
      if t < |s.threads| && s.threads[t].Stranded? then
        Goes(s, t, Idle).(board := M.AddOffer(s.board, s.threads[t].doc, now, roll))
      else s
    case Age(t, now) =>
      if t < |s.threads| && s.threads[t].Idle? then
        Goes(s, t, Clearing(M.AgedIds(s.board, now))).(board := M.AgeOut(s.board, now))
      else s
    case Clear(t) =>
      if t < |s.threads| && s.threads[t].Clearing? then
        var ids := s.threads[t].ids;
        if ids == [] then Goes(s, t, Idle)
        else Goes(s, t, Clearing(ids[1..])).(master := s.master - {ids[0]})
      else s
    case FreezeTags(tags) => s.(board := M.Freeze(s.board, tags))
    case UnfreezeTags(tags) => s.(board := M.Unfreeze(s.board, tags))
    case Discard(user, docId) =>
      if user < |s.boxes| then s.(boxes := s.boxes[user := s.boxes[user] - {docId}]) else s
  }

  // Where the documents are.

  /** The ids whose files a thread still answers for. */
  function Pending(thread: Thread): multiset<int> {
    match thread
    case Wrote(doc) => multiset{doc.docId}
    case Unlisted(doc) => multiset{doc.docId}
    case Holding(_, doc) => multiset{doc.docId}
    case Clearing(ids) => multiset(ids)
    case _ => multiset{}
  }

  function Pendings(threads: seq<Thread>): seq<multiset<int>> {
    seq(|threads|, i requires 0 <= i < |threads| => Pending(threads[i]))
  }

  function BoxBags(boxes: seq<set<int>>): seq<multiset<int>> {
    seq(|boxes|, i requires 0 <= i < |boxes| => multiset(boxes[i]))
  }

  function Boxed(boxes: seq<set<int>>): multiset<int> {
    Total(BoxBags(boxes))
  }

  /** Every master file belongs to one offer on sale or to one thread on its way, and the
      other way round. */
  ghost predicate FilesMatch(s: State) {
    multiset(s.master.Keys) == M.Ids(s.board) + Total(Pendings(s.threads))
  }

  function Places(s: State): multiset<int> {
    multiset(s.master.Keys) + Boxed(s.boxes)
  }

  /** No document is in two places. */
  ghost predicate OnePlace(s: State) {
    forall id :: Places(s)[id] <= 1
  }

  /** What a document file says is what its offer says. */
  ghost predicate Faithful(s: State) {
    && (forall o :: o in M.Offers(s.board) ==> o.docId in s.master && s.master[o.docId] == o)
    && (forall t :: 0 <= t < |s.threads| && (s.threads[t].Wrote? || s.threads[t].Holding?) ==>
          s.threads[t].doc.docId in s.master && s.master[s.threads[t].doc.docId] == s.threads[t].doc)
  }

  ghost predicate NoneStranded(s: State) {
    forall t :: 0 <= t < |s.threads| ==> !s.threads[t].Stranded?
  }

  ghost predicate Past(s: State) {
    && Boxed(s.boxes) <= s.delivered
    && (forall id :: s.delivered[id] <= 1)
    && (forall id :: id in s.delivered ==> id !in s.master && id in s.used)
    && s.master.Keys <= s.used
  }

  ghost predicate Sound(s: State) {
    FilesMatch(s) && Faithful(s) && NoneStranded(s)
  }

  /** What holds at every moment, whatever happened before. */
  ghost predicate Core(s: State) {
    Sound(s) && OnePlace(s)
  }

  ghost predicate Inv(s: State) {
    Core(s) && Past(s)
  }

  predicate Writes(s: State, a: Action) {
    a.Write? && a.t < |s.threads| && s.threads[a.t].Idle?
  }

  /** A spawn takes an id that is neither in the master directory nor in a sandbox. */
  predicate SafeId(s: State, a: Action) {
    Writes(s, a) ==> s.counter + 1 !in s.master && s.counter + 1 !in Boxed(s.boxes)
  }

  /** A spawn takes an id that no document ever had. */
  predicate Fresh(s: State, a: Action) {
    Writes(s, a) ==> s.counter + 1 !in s.used
  }

  // What the invariant gives.

  lemma ThreadFiles(s: State, t: nat, id: int)
    requires FilesMatch(s) && t < |s.threads| && id in Pending(s.threads[t])
    ensures id in s.master
    ensures id !in M.Ids(s.board)
    ensures forall u :: 0 <= u < |s.threads| && u != t ==> id !in Pending(s.threads[u])
  {
    hide M.Ids, Pending;
    TotalAtLeast(Pendings(s.threads), t);
    assert Pendings(s.threads)[t] == Pending(s.threads[t]);
    assert multiset(s.master.Keys)[id] <= 1;
    forall u | 0 <= u < |s.threads| && u != t ensures id !in Pending(s.threads[u]) {
      TwoParts(Pendings(s.threads), t, u, id);
    }
  }

  lemma {:induction false} TwoParts<T>(parts: seq<multiset<T>>, i: nat, j: nat, x: T)
    requires i < |parts| && j < |parts| && i != j
    ensures Total(parts)[x] >= parts[i][x] + parts[j][x]
  {
    var n := |parts| - 1;
    if i == n {
      TotalAtLeast(parts[..n], j);
    } else if j == n {
      TotalAtLeast(parts[..n], i);
    } else {
      TwoParts(parts[..n], i, j, x);
    }
  }

  lemma OfferFiles(s: State, id: int)
    requires FilesMatch(s) && id in M.Ids(s.board)
    ensures id in s.master && M.Ids(s.board)[id] == 1
    ensures forall u :: 0 <= u < |s.threads| ==> id !in Pending(s.threads[u])
  {
    hide M.Ids, Pending;
    assert multiset(s.master.Keys)[id] <= 1;
    forall u | 0 <= u < |s.threads| ensures id !in Pending(s.threads[u]) {
      TotalAtLeast(Pendings(s.threads), u);
      assert Pendings(s.threads)[u] == Pending(s.threads[u]);
    }
  }

  lemma FreshIsSafe(s: State, a: Action)
    requires Past(s) && Fresh(s, a)
    ensures SafeId(s, a)
  {
    hide Boxed;
  }

  /** The move of a thread that won a take succeeds: the file is there, it is the document
      that the buyer saw, and it goes to the buyer. */
  ghost predicate Delivers(s: State, t: nat)
    requires t < |s.threads| && s.threads[t].Holding? && s.threads[t].user < |s.boxes|
  {
    var doc, after := s.threads[t].doc, Step(s, Move(t));
    && doc.docId in s.master && s.master[doc.docId] == doc
    && after.threads[t].Idle? && after.master == s.master - {doc.docId}
    && after.boxes == s.boxes[s.threads[t].user := s.boxes[s.threads[t].user] + {doc.docId}]
    && doc.docId !in s.boxes[s.threads[t].user]
  }

  lemma WinnerDelivers(s: State, t: nat)
    requires Core(s) && t < |s.threads| && s.threads[t].Holding? && s.threads[t].user < |s.boxes|
    ensures Delivers(s, t)
  {
    hide M.Ids, M.Offers, Boxed;
    var id := s.threads[t].doc.docId;
    assert Places(s)[id] <= 1 && multiset(s.master.Keys)[id] == 1;
    NotYetBoxed(s.boxes, s.threads[t].user, id);
  }

  /** A file that a thread is on its way with is there, off the board, and no other thread's. */
  ghost predicate OwnsFiles(s: State, t: nat)
    requires t < |s.threads|
  {
    forall id :: id in Pending(s.threads[t]) ==>
      id in s.master && id !in M.Ids(s.board) && forall u :: 0 <= u < |s.threads| && u != t ==> id !in Pending(s.threads[u])
  }

  // Every step keeps it.

  lemma PendingsUpdate(threads: seq<Thread>, t: nat, thread: Thread)
    requires t < |threads|
    ensures Total(Pendings(threads[t := thread])) + Pending(threads[t]) == Total(Pendings(threads)) + Pending(thread)
  {
    hide Pending;
    TotalUpdate(Pendings(threads), t, Pending(thread));
    assert Pendings(threads[t := thread]) == Pendings(threads)[t := Pending(thread)];
  }

  lemma BoxedUpdate(boxes: seq<set<int>>, user: nat, box: set<int>)
    requires user < |boxes|
    ensures Boxed(boxes[user := box]) + multiset(boxes[user]) == Boxed(boxes) + multiset(box)
  {
    TotalUpdate(BoxBags(boxes), user, multiset(box));
    assert BoxBags(boxes[user := box]) == BoxBags(boxes)[user := multiset(box)];
  }

  lemma KeysWithout(m: map<int, M.Offer>, id: int)
    requires id in m
    ensures multiset((m - {id}).Keys) + multiset{id} == multiset(m.Keys)
  {
    forall x ensures multiset((m - {id}).Keys)[x] + multiset{id}[x] == multiset(m.Keys)[x] {
      assert x in (m - {id}).Keys <==> x in m.Keys && x != id;
    }
  }

  lemma KeysWith(m: map<int, M.Offer>, doc: M.Offer)
    requires doc.docId !in m
    ensures multiset(m[doc.docId := doc].Keys) == multiset(m.Keys) + multiset{doc.docId}
  {
    var more := m[doc.docId := doc];
    forall x ensures multiset(more.Keys)[x] == multiset(m.Keys)[x] + multiset{doc.docId}[x] {
      assert x in more.Keys <==> x in m.Keys || x == doc.docId;
    }
  }

  /** Board and threads exchange ids, the files stay. */
  lemma ExchangeKeeps(s: State, t: nat, thread: Thread, board: M.Board)
    requires FilesMatch(s) && t < |s.threads|
    requires M.Ids(board) + Pending(thread) == M.Ids(s.board) + Pending(s.threads[t])
    ensures FilesMatch(Goes(s, t, thread).(board := board))
  {
    hide M.Ids, Pending, Pendings, Total;
    PendingsUpdate(s.threads, t, thread);
    Balance(M.Ids(board), M.Ids(s.board), Pending(thread), Pending(s.threads[t]),
            Total(Pendings(s.threads[t := thread])), Total(Pendings(s.threads)));
  }

  lemma Balance(i1: multiset<int>, i0: multiset<int>, p1: multiset<int>, p0: multiset<int>, t1: multiset<int>, t0: multiset<int>)
    requires i1 + p1 == i0 + p0 && t1 + p0 == t0 + p1
    ensures i1 + t1 == i0 + t0
  {
    forall x ensures (i1 + t1)[x] == (i0 + t0)[x] {
      assert (i1 + p1)[x] == (i0 + p0)[x] && (t1 + p0)[x] == (t0 + p1)[x];
    }
  }

  /** A thread unlinks one file that it answers for. */
  lemma UnlinkMatches(s: State, t: nat, id: int, thread: Thread)
    requires FilesMatch(s) && t < |s.threads| && Pending(s.threads[t]) == Pending(thread) + multiset{id}
    ensures FilesMatch(Goes(s, t, thread).(master := s.master - {id}))
  {
    hide M.Ids, Pending, Pendings, Total;
    assert id in Pending(s.threads[t]);
    ThreadFiles(s, t, id);
    PendingsUpdate(s.threads, t, thread);
    KeysWithout(s.master, id);
    Unlinked(multiset((s.master - {id}).Keys), multiset(s.master.Keys), M.Ids(s.board), id,
             Pending(thread), Pending(s.threads[t]), Total(Pendings(s.threads[t := thread])), Total(Pendings(s.threads)));
  }

  lemma Unlinked(k1: multiset<int>, k0: multiset<int>, ids: multiset<int>, id: int, p1: multiset<int>, p0: multiset<int>,
                 t1: multiset<int>, t0: multiset<int>)
    requires k1 + multiset{id} == k0 == ids + t0 && p0 == p1 + multiset{id} && t1 + p0 == t0 + p1
    ensures k1 == ids + t1
  {
    forall x ensures k1[x] == (ids + t1)[x] {
      assert (k1 + multiset{id})[x] == (ids + t0)[x] && (t1 + p0)[x] == (t0 + p1)[x];
    }
  }

  lemma UnlinkFaithful(s: State, t: nat, id: int, thread: Thread)
    requires FilesMatch(s) && Faithful(s) && t < |s.threads| && id in Pending(s.threads[t])
    requires thread.Idle? || thread.Clearing?
    ensures Faithful(Goes(s, t, thread).(master := s.master - {id}))
  {
    hide M.Ids, M.Offers, Pending, FilesMatch;
    ThreadFiles(s, t, id);
    forall o | o in M.Offers(s.board) ensures o.docId != id {
      M.OfferHasId(s.board, o);
    }
    forall u | 0 <= u < |s.threads| && u != t && (s.threads[u].Wrote? || s.threads[u].Holding?)
      ensures s.threads[u].doc.docId != id
    {
      PendingDoc(s.threads[u]);
    }
  }

  lemma PendingDoc(thread: Thread)
    requires thread.Wrote? || thread.Holding?
    ensures thread.doc.docId in Pending(thread)
  {
  }

  /** A new file of a thread that had none. */
  lemma WriteMatches(s: State, t: nat, doc: M.Offer)
    requires FilesMatch(s) && t < |s.threads| && s.threads[t].Idle? && doc.docId !in s.master
    ensures FilesMatch(Goes(s, t, Wrote(doc)).(master := s.master[doc.docId := doc]))
  {
    hide M.Ids, Pendings, Total;
    PendingsUpdate(s.threads, t, Wrote(doc));
    KeysWith(s.master, doc);
    assert Total(Pendings(s.threads[t := Wrote(doc)])) == Total(Pendings(s.threads)) + multiset{doc.docId};
  }

  lemma WriteFaithful(s: State, t: nat, doc: M.Offer)
    requires Faithful(s) && t < |s.threads| && s.threads[t].Idle? && doc.docId !in s.master
    ensures Faithful(Goes(s, t, Wrote(doc)).(master := s.master[doc.docId := doc]))
  {
    hide M.Offers;
  }

  lemma ListMatches(s: State, t: nat, now: int, roll: nat)
    requires FilesMatch(s) && t < |s.threads| && s.threads[t].Wrote?
    ensures FilesMatch(Step(s, List(t, now, roll)))
  {
    hide M.Ids, M.Offers, M.AddOffer, M.HasRoom, FilesMatch;
    var doc := s.threads[t].doc;
    M.AddKeeps(s.board, doc, now, roll);
    if M.HasRoom(s.board) {
      ExchangeKeeps(s, t, Idle, M.AddOffer(s.board, doc, now, roll));
    } else {
      ExchangeKeeps(s, t, Unlisted(doc), s.board);
    }
  }

  lemma ListFaithful(s: State, t: nat, now: int, roll: nat)
    requires Faithful(s) && t < |s.threads| && s.threads[t].Wrote?
    ensures Faithful(Step(s, List(t, now, roll)))
  {
    hide M.Ids, M.Offers, M.AddOffer, M.HasRoom;
    M.AddKeeps(s.board, s.threads[t].doc, now, roll);
  }

  lemma TakeMatches(s: State, t: nat, user: nat, docId: int)
    requires FilesMatch(s) && t < |s.threads| && s.threads[t].Idle? && M.Take(s.board, docId).Taken?
    ensures FilesMatch(Step(s, Take(t, user, docId)))
  {
    hide M.Ids, M.Offers, M.AfterTake, M.Take, FilesMatch;
    M.TakeKeeps(s.board, docId);
    ExchangeKeeps(s, t, Holding(user, M.Take(s.board, docId).slot.offer), M.AfterTake(s.board, docId));
  }

  lemma TakeFaithful(s: State, t: nat, user: nat, docId: int)
    requires Faithful(s) && t < |s.threads| && s.threads[t].Idle? && M.Take(s.board, docId).Taken?
    ensures Faithful(Step(s, Take(t, user, docId)))
  {
    hide M.Ids, M.Offers, M.AfterTake, M.Take;
    M.TakeKeeps(s.board, docId);
    assert M.Take(s.board, docId).slot.offer in M.Offers(s.board);
  }

  lemma AgeMatches(s: State, t: nat, now: int)
    requires FilesMatch(s) && t < |s.threads| && s.threads[t].Idle?
    ensures FilesMatch(Step(s, Age(t, now)))
  {
    hide M.Ids, M.Offers, M.AgeOut, M.AgedIds, FilesMatch;
    M.AgeKeeps(s.board, now);
    ExchangeKeeps(s, t, Clearing(M.AgedIds(s.board, now)), M.AgeOut(s.board, now));
  }

  lemma AgeFaithful(s: State, t: nat, now: int)
    requires Faithful(s) && t < |s.threads| && s.threads[t].Idle?
    ensures Faithful(Step(s, Age(t, now)))
  {
    hide M.Ids, M.Offers, M.AgeOut, M.AgedIds;
    M.AgeKeeps(s.board, now);
  }

  /** The move is the one step that delivers. */
  lemma MovePast(s: State, t: nat)
    requires Past(s) && t < |s.threads| && s.threads[t].Holding? && s.threads[t].user < |s.boxes|
    requires s.threads[t].doc.docId in s.master
    ensures Past(Step(s, Move(t)))
  {
    hide Boxed;
    var user, id := s.threads[t].user, s.threads[t].doc.docId;
    var after := Step(s, Move(t));
    assert Boxed(s.boxes)[id] <= s.delivered[id] == 0;
    NotYetBoxed(s.boxes, user, id);
    BoxedUpdate(s.boxes, user, s.boxes[user] + {id});
    assert multiset(s.boxes[user] + {id}) == multiset(s.boxes[user]) + multiset{id};
    SumCancels(Boxed(after.boxes), Boxed(s.boxes) + multiset{id}, multiset(s.boxes[user]));
  }

  lemma MoveSound(s: State, t: nat)
    requires Sound(s) && t < |s.threads| && s.threads[t].Holding? && s.threads[t].user < |s.boxes|
    ensures Sound(Step(s, Move(t)))
  {
    hide M.Ids, M.Offers, Pendings, Total;
    UnlinkMatches(s, t, s.threads[t].doc.docId, Idle);
    UnlinkFaithful(s, t, s.threads[t].doc.docId, Idle);
  }

  lemma MovePlaces(s: State, t: nat)
    requires OnePlace(s) && t < |s.threads| && s.threads[t].Holding? && s.threads[t].user < |s.boxes|
    requires s.threads[t].doc.docId in s.master
    ensures Places(Step(s, Move(t))) == Places(s)
  {
    hide Boxed;
    var user, id := s.threads[t].user, s.threads[t].doc.docId;
    var after := Step(s, Move(t));
    assert Places(s)[id] <= 1 && multiset(s.master.Keys)[id] == 1;
    NotYetBoxed(s.boxes, user, id);
    BoxedUpdate(s.boxes, user, s.boxes[user] + {id});
    assert multiset(s.boxes[user] + {id}) == multiset(s.boxes[user]) + multiset{id};
    SumCancels(Boxed(after.boxes), Boxed(s.boxes) + multiset{id}, multiset(s.boxes[user]));
    KeysWithout(s.master, id);
  }

  lemma NotYetBoxed(boxes: seq<set<int>>, user: nat, id: int)
    requires user < |boxes| && Boxed(boxes)[id] == 0
    ensures id !in boxes[user]
  {
    TotalAtLeast(BoxBags(boxes), user);
    assert BoxBags(boxes)[user][id] <= Boxed(boxes)[id];
  }

  lemma DiscardShrinks(s: State, user: nat, docId: int)
    requires user < |s.boxes|
    ensures Boxed(Step(s, Discard(user, docId)).boxes) <= Boxed(s.boxes)
  {
    BoxedUpdate(s.boxes, user, s.boxes[user] - {docId});
    Shrinks(Boxed(Step(s, Discard(user, docId)).boxes), Boxed(s.boxes), multiset(s.boxes[user]), multiset(s.boxes[user] - {docId}));
  }

  lemma Shrinks<T(!new)>(after: multiset<T>, before: multiset<T>, whole: multiset<T>, part: multiset<T>)
    requires after + whole == before + part && part <= whole
    ensures after <= before
  {
    forall x ensures after[x] <= before[x] {
      assert (after + whole)[x] == (before + part)[x];
    }
  }

  lemma DiscardIgnores(s: State, user: nat, docId: int)
    requires FilesMatch(s) && Faithful(s) && user < |s.boxes|
    ensures FilesMatch(Step(s, Discard(user, docId))) && Faithful(Step(s, Discard(user, docId)))
  {
    hide M.Ids, M.Offers;
  }

  lemma ForkKeeps(s: State)
    requires FilesMatch(s)
    ensures FilesMatch(Step(s, Fork))
  {
    hide M.Ids;
    TotalAppend(Pendings(s.threads), multiset{});
    assert Pendings(s.threads + [Idle]) == Pendings(s.threads) + [multiset{}];
  }

  lemma ForkFaithful(s: State)
    requires Faithful(s)
    ensures Faithful(Step(s, Fork))
  {
    hide M.Offers;
  }

  lemma FreezeKeepsFiles(s: State, tags: bv32)
    requires FilesMatch(s) && Faithful(s)
    ensures var after := s.(board := M.Freeze(s.board, tags)); FilesMatch(after) && Faithful(after)
    ensures var after := s.(board := M.Unfreeze(s.board, tags)); FilesMatch(after) && Faithful(after)
  {
    hide M.Ids, M.Offers, M.Freeze, M.Unfreeze;
    M.FreezeKeeps(s.board, tags);
    M.UnfreezeKeeps(s.board, tags);
  }

  lemma UnwriteSound(s: State, t: nat)
    requires Sound(s) && t < |s.threads| && s.threads[t].Unlisted?
    ensures Sound(Step(s, Unwrite(t)))
  {
    hide FilesMatch, Faithful, Boxed;
    UnlinkMatches(s, t, s.threads[t].doc.docId, Idle);
    UnlinkFaithful(s, t, s.threads[t].doc.docId, Idle);
  }

  lemma ClearDone(s: State, t: nat)
    requires Sound(s) && t < |s.threads| && s.threads[t].Clearing? && s.threads[t].ids == []
    ensures Sound(Step(s, Clear(t)))
  {
    hide FilesMatch, Boxed, M.Offers, M.Ids, Total, Pendings;
    ExchangeKeeps(s, t, Idle, s.board);
  }

  lemma ClearingFirst(ids: seq<int>)
    requires ids != []
    ensures Pending(Clearing(ids)) == Pending(Clearing(ids[1..])) + multiset{ids[0]}
  {
    assert ids == [ids[0]] + ids[1..];
  }

  lemma ClearOne(s: State, t: nat)
    requires Sound(s) && t < |s.threads| && s.threads[t].Clearing? && s.threads[t].ids != []
    ensures Sound(Step(s, Clear(t)))
  {
    hide FilesMatch, Faithful, Pending;
    var ids := s.threads[t].ids;
    ClearingFirst(ids);
    UnlinkMatches(s, t, ids[0], Clearing(ids[1..]));
    UnlinkFaithful(s, t, ids[0], Clearing(ids[1..]));
  }

  /** No step of any thread parts files from offers, if a spawned id is not in the master
      directory. */
  lemma StepSound(s: State, a: Action)
    requires Sound(s) && (Writes(s, a) ==> s.counter + 1 !in s.master)
    ensures Sound(Step(s, a))
  {
    hide M.Ids, M.Offers, M.AddOffer, M.HasRoom, M.Take, M.AfterTake, M.AgeOut, M.AgedIds, M.Freeze, M.Unfreeze, FilesMatch, Faithful;
    match a
    case Fork =>
      ForkKeeps(s);
      ForkFaithful(s);
    case Write(t, tags, price, name) =>
      if t < |s.threads| && s.threads[t].Idle? {
        WriteMatches(s, t, M.Offer(s.counter + 1, tags, price, name));
        WriteFaithful(s, t, M.Offer(s.counter + 1, tags, price, name));
        OnlyFiles(Goes(s, t, Wrote(M.Offer(s.counter + 1, tags, price, name))).(
                    master := s.master[s.counter + 1 := M.Offer(s.counter + 1, tags, price, name)]), Step(s, a));
      }
    case List(t, now, roll) =>
      if t < |s.threads| && s.threads[t].Wrote? {
        ListMatches(s, t, now, roll);
        ListFaithful(s, t, now, roll);
      }
    case Unwrite(t) =>
      if t < |s.threads| && s.threads[t].Unlisted? {
        UnwriteSound(s, t);
      }
    case Take(t, user, docId) =>
      if t < |s.threads| && s.threads[t].Idle? && M.Take(s.board, docId).Taken? {
        TakeMatches(s, t, user, docId);
        TakeFaithful(s, t, user, docId);
      }
    case Move(t) =>
      if t < |s.threads| && s.threads[t].Holding? && s.threads[t].user < |s.boxes| {
        MoveSound(s, t);
      }
    case PutBack(t, now, roll) =>
    case Age(t, now) =>
      if t < |s.threads| && s.threads[t].Idle? {
        AgeMatches(s, t, now);
        AgeFaithful(s, t, now);
      }
    case Clear(t) =>
      if t < |s.threads| && s.threads[t].Clearing? {
        if s.threads[t].ids == [] {
          ClearDone(s, t);
        } else {
          ClearOne(s, t);
        }
      }
    case FreezeTags(tags) => FreezeKeepsFiles(s, tags);
    case UnfreezeTags(tags) => FreezeKeepsFiles(s, tags);
    case Discard(user, docId) =>
      if user < |s.boxes| {
        DiscardIgnores(s, user, docId);
      }
  }

  /** Board, files and threads are all that soundness looks at. */
  lemma OnlyFiles(s: State, after: State)
    requires FilesMatch(s) && Faithful(s)
    requires after.board == s.board && after.master == s.master && after.threads == s.threads
    ensures FilesMatch(after) && Faithful(after)
  {
    hide M.Ids, M.Offers;
  }

  lemma FewerPlaces(s: State, after: State)
    requires OnePlace(s) && after.master.Keys <= s.master.Keys && Boxed(after.boxes) <= Boxed(s.boxes)
    ensures OnePlace(after)
  {
    hide Boxed;
    forall id ensures Places(after)[id] <= 1 {
      assert Places(after)[id] <= Places(s)[id];
    }
  }

  lemma NewPlace(s: State, after: State, id: int)
    requires OnePlace(s) && id !in s.master && id !in Boxed(s.boxes)
    requires after.master.Keys == s.master.Keys + {id} && after.boxes == s.boxes
    ensures OnePlace(after)
  {
    hide Boxed;
    forall x ensures Places(after)[x] <= 1 {
      if x != id {
        assert Places(after)[x] == Places(s)[x];
      }
    }
  }

  /** Nor does a step put a document in two places. */
  lemma StepPlaces(s: State, a: Action)
    requires Core(s) && SafeId(s, a)
    ensures OnePlace(Step(s, a))
  {
    hide M.Ids, M.Offers, M.AddOffer, M.HasRoom, M.Take, M.AfterTake, M.AgeOut, M.AgedIds, M.Freeze, M.Unfreeze, FilesMatch, OnePlace, Boxed;
    if Writes(s, a) {
      NewPlace(s, Step(s, a), s.counter + 1);
    } else if a.Move? && a.t < |s.threads| && s.threads[a.t].Holding? && s.threads[a.t].user < |s.boxes| {
      MovePlaces(s, a.t);
      SamePlaces(s, Step(s, a));
    } else {
      if a.Discard? && a.user < |s.boxes| {
        DiscardShrinks(s, a.user, a.docId);
      }
      FewerPlaces(s, Step(s, a));
    }
  }

  lemma SamePlaces(s: State, after: State)
    requires OnePlace(s) && Places(after) == Places(s)
    ensures OnePlace(after)
  {
    hide Places;
  }

  lemma StepKeeps(s: State, a: Action)
    requires Core(s) && SafeId(s, a)
    ensures Core(Step(s, a))
  {
    hide Step, Sound, OnePlace;
    StepSound(s, a);
    StepPlaces(s, a);
  }

  /** With ids that were never used, no document is delivered twice. */
  lemma StepPast(s: State, a: Action)
    requires Inv(s) && Fresh(s, a)
    ensures Past(Step(s, a))
  {
    hide M.Ids, M.Offers, M.AddOffer, M.HasRoom, M.Take, M.AfterTake, M.AgeOut, M.AgedIds, M.Freeze, M.Unfreeze, FilesMatch, OnePlace, Boxed;
    if a.Move? && a.t < |s.threads| && s.threads[a.t].Holding? && s.threads[a.t].user < |s.boxes| {
      MovePast(s, a.t);
    } else if a.Discard? && a.user < |s.boxes| {
      DiscardShrinks(s, a.user, a.docId);
    }
  }

  /** A thread writes the file of a document that it is going to list. */
  function WriteDoc(s: State, t: nat, doc: M.Offer): State
    requires t < |s.threads|
  {
    Goes(s, t, Wrote(doc)).(master := s.master[doc.docId := doc], used := s.used + {doc.docId})
  }

  lemma WriteDocKeeps(s: State, t: nat, doc: M.Offer)
    requires Core(s) && t < |s.threads| && s.threads[t].Idle?
    requires doc.docId !in s.master && doc.docId !in Boxed(s.boxes)
    ensures Core(WriteDoc(s, t, doc))
  {
    hide M.Ids, M.Offers, Boxed, FilesMatch, Faithful, OnePlace;
    WriteMatches(s, t, doc);
    WriteFaithful(s, t, doc);
    OnlyFiles(Goes(s, t, Wrote(doc)).(master := s.master[doc.docId := doc]), WriteDoc(s, t, doc));
    NewPlace(s, WriteDoc(s, t, doc), doc.docId);
  }

  lemma WriteDocBreaks(s: State, t: nat, doc: M.Offer)
    requires Core(s) && t < |s.threads| && s.threads[t].Idle?
    requires doc.docId in s.master || doc.docId in Boxed(s.boxes)
    ensures !Core(WriteDoc(s, t, doc))
  {
    hide M.Ids, M.Offers, Boxed, Faithful, NoneStranded, Total, Pendings;
    var id, after := doc.docId, WriteDoc(s, t, doc);
    if id in s.master {
      PendingsUpdate(s.threads, t, Wrote(doc));
      assert Total(Pendings(after.threads)) == Total(Pendings(s.threads)) + multiset{id};
      assert after.master.Keys == s.master.Keys && after.board == s.board;
      assert multiset(s.master.Keys)[id] == (M.Ids(s.board) + Total(Pendings(s.threads)))[id];
      assert multiset(after.master.Keys)[id] != (M.Ids(after.board) + Total(Pendings(after.threads)))[id];
    } else {
      assert Places(after)[id] >= 2;
    }
  }

  lemma SameCore(s: State, after: State)
    requires Core(s)
    requires after.board == s.board && after.master == s.master && after.boxes == s.boxes && after.threads == s.threads
    ensures Core(after)
  {
    hide FilesMatch, Faithful, Boxed;
    OnlyFiles(s, after);
    FewerPlaces(s, after);
  }

  /** A spawn keeps files and offers together and every document in one place exactly when
      its id is neither in the master directory nor in any sandbox. */
  lemma WriteSafeIff(s: State, a: Action)
    requires Core(s) && Writes(s, a)
    ensures Core(Step(s, a)) <==> s.counter + 1 !in s.master && s.counter + 1 !in Boxed(s.boxes)
  {
    hide M.Ids, M.Offers, Boxed, Core;
    var doc := M.Offer(s.counter + 1, a.tags, a.price, a.name);
    var written := WriteDoc(s, a.t, doc);
    assert Step(s, a) == written.(counter := s.counter + 1);
    if SafeId(s, a) {
      WriteDocKeeps(s, a.t, doc);
      SameCore(written, Step(s, a));
    } else {
      WriteDocBreaks(s, a.t, doc);
      if Core(Step(s, a)) {
        SameCore(Step(s, a), written);
      }
    }
  }

  // Runs.

  function After(s: State, actions: seq<Action>): State
    decreases |actions|
  {
    if actions == [] then s else After(Step(s, actions[0]), actions[1..])
  }

  ghost predicate SafeRun(s: State, actions: seq<Action>)
    decreases |actions|
  {
    actions != [] ==> SafeId(s, actions[0]) && SafeRun(Step(s, actions[0]), actions[1..])
  }

  ghost predicate FreshRun(s: State, actions: seq<Action>)
    decreases |actions|
  {
    actions != [] ==> Fresh(s, actions[0]) && FreshRun(Step(s, actions[0]), actions[1..])
  }

  ghost predicate CoreThroughout(s: State, actions: seq<Action>)
    decreases |actions|
  {
    Core(s) && (actions != [] ==> CoreThroughout(Step(s, actions[0]), actions[1..]))
  }

  /** Files and offers stay together and every document in one place at every moment of a run
      exactly when each spawned id is in no place at its time. */
  lemma {:induction false} RunSafeIff(s: State, actions: seq<Action>)
    requires Core(s)
    ensures CoreThroughout(s, actions) <==> SafeRun(s, actions)
    decreases |actions|
  {
    hide Step, Core, SafeId, Writes;
    if actions != [] {
      if SafeId(s, actions[0]) {
        StepKeeps(s, actions[0]);
        RunSafeIff(Step(s, actions[0]), actions[1..]);
      } else {
        UnsafeBreaks(s, actions[0]);
        BrokenFrom(Step(s, actions[0]), actions[1..]);
      }
    }
  }

  lemma UnsafeBreaks(s: State, a: Action)
    requires Core(s) && !SafeId(s, a)
    ensures !Core(Step(s, a))
  {
    hide Core, Step;
    WriteSafeIff(s, a);
  }

  lemma BrokenFrom(s: State, actions: seq<Action>)
    requires !Core(s)
    ensures !CoreThroughout(s, actions)
  {
    hide Core, Step;
  }

  lemma {:induction false} CoreRun(s: State, actions: seq<Action>)
    requires Core(s) && SafeRun(s, actions)
    ensures Core(After(s, actions))
    decreases |actions|
  {
    hide Step, Core;
    if actions != [] {
      StepKeeps(s, actions[0]);
      CoreRun(Step(s, actions[0]), actions[1..]);
    }
  }

  /** In every interleaving whose spawned ids are in no place at their time: files and offers
      match, the move of every winner of a take succeeds with the file that it saw, no offer
      has to be put back, and every file on its way has one owner. */
  lemma RunKeeps(s: State, actions: seq<Action>)
    requires Core(s) && SafeRun(s, actions)
    ensures var after := After(s, actions);
      && Core(after)
      && (forall t :: 0 <= t < |after.threads| ==> OwnsFiles(after, t))
      && (forall t :: 0 <= t < |after.threads| && after.threads[t].Holding? && after.threads[t].user < |after.boxes| ==>
            Delivers(after, t))
      && (forall t, now, roll :: 0 <= t < |after.threads| ==> Step(after, PutBack(t, now, roll)) == after)
  {
    hide Step, After, Core, OwnsFiles, Delivers, Pending;
    CoreRun(s, actions);
    var after := After(s, actions);
    forall t | 0 <= t < |after.threads| ensures OwnsFiles(after, t) {
      CoreOwns(after, t);
    }
    forall t | 0 <= t < |after.threads| && after.threads[t].Holding? && after.threads[t].user < |after.boxes|
      ensures Delivers(after, t)
    {
      WinnerDelivers(after, t);
    }
    forall t, now, roll | 0 <= t < |after.threads| ensures Step(after, PutBack(t, now, roll)) == after {
      NobodyPutsBack(after, t, now, roll);
    }
  }

  lemma CoreOwns(s: State, t: nat)
    requires Core(s) && t < |s.threads|
    ensures OwnsFiles(s, t)
  {
    hide M.Ids, Pending, FilesMatch, OnePlace, Faithful;
    forall id | id in Pending(s.threads[t])
      ensures id in s.master && id !in M.Ids(s.board) && forall u :: 0 <= u < |s.threads| && u != t ==> id !in Pending(s.threads[u])
    {
      ThreadFiles(s, t, id);
    }
  }

  lemma NobodyPutsBack(s: State, t: nat, now: int, roll: nat)
    requires Core(s) && t < |s.threads|
    ensures Step(s, PutBack(t, now, roll)) == s
  {
    hide FilesMatch, OnePlace, Faithful;
  }

  /** With ids that were never used, moreover, each document reaches at most one sandbox, once. */
  lemma {:induction false} FreshRunKeeps(s: State, actions: seq<Action>)
    requires Inv(s) && FreshRun(s, actions)
    ensures SafeRun(s, actions) && Inv(After(s, actions)) && forall id :: After(s, actions).delivered[id] <= 1
    decreases |actions|
  {
    hide Step, Core, Fresh, SafeId;
    if actions != [] {
      FreshIsSafe(s, actions[0]);
      StepKeeps(s, actions[0]);
      StepPast(s, actions[0]);
      FreshRunKeeps(Step(s, actions[0]), actions[1..]);
    }
  }
}
