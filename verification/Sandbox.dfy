// The document files of sandbox.c: one master directory and one directory per
// user, each holding documents under their ids. Directory order is left open.
module Sandbox {
  import opened Prelude
  import opened Market

  datatype Files = Files(master: map<int, Offer>, users: map<Key, map<int, Offer>>)

  // The operations on the file map.

  /** The files a user holds; a user without a directory holds none. */
  function Held(f: Files, key: Key): map<int, Offer> {
    if key in f.users then f.users[key] else map[]
  }

  /** sandbox_count: -1 when there is no directory. */
  function CountDocs(f: Files, key: Key): int {
    if key in f.users then |f.users[key]| else -1
  }

  predicate CanMove(f: Files, key: Key, docId: int) {
    docId in f.master && key in f.users
  }

  function MoveDoc(f: Files, key: Key, docId: int): Files
    requires CanMove(f, key, docId)
  {
    Files(f.master - {docId}, f.users[key := f.users[key][docId := f.master[docId]]])
  }

  function DropDocs(f: Files, key: Key, ids: set<int>): Files {
    if key in f.users then f.(users := f.users[key := f.users[key] - ids]) else f
  }

  function Purge(f: Files, key: Key): Files {
    if key in f.users then f.(users := f.users[key := map[]]) else f
  }

  function PurgeAll(f: Files): Files {
    Files(map[], map key | key in f.users :: map[])
  }

  function AddUser(f: Files, key: Key): Files {
    if key in f.users then f else f.(users := f.users[key := map[]])
  }

  // The module's functions, over the directories they walk.

  /** readdir: some entry that has not been read. */
  method NextEntry<T(==)>(entries: set<T>) returns (entry: T)
    requires entries != {}
    ensures entry in entries
  {
    entry :| entry in entries;
  }

  class FileStore {
    var master: map<int, Offer>
    var users: map<Key, map<int, Offer>>

    ghost function State(): Files
      reads this
    {
      Files(master, users)
    }

    constructor ()
      ensures State() == Files(map[], map[])
    {
      master := map[];
      users := map[];
    }

    method UserInit(key: Key)
      modifies this
      ensures State() == AddUser(old(State()), key)
    {
      if key !in users {
        users := users[key := map[]];
      }
    }

    method Count(key: Key) returns (count: int)
      ensures count == CountDocs(State(), key)
    {
      if key !in users {
        return -1;
      }
      count := 0;
      var entries := users[key].Keys;
      while entries != {}
        invariant count + |entries| == |users[key].Keys|
        decreases |entries|
      {
        var entry := NextEntry(entries);
        count := count + 1;
        entries := entries - {entry};
      }
    }

    method HasDoc(key: Key, docId: int) returns (has: bool)
      ensures has <==> docId in Held(State(), key)
    {
      return key in users && docId in users[key];
    }

    /** sandbox_buy: a rename. It fails without the file or the directory, and renameOk
        is false when the file system refuses by itself. */
    method Buy(key: Key, docId: int, renameOk: bool) returns (ok: bool)
      modifies this
      ensures ok <==> renameOk && CanMove(old(State()), key, docId)
      ensures State() == if ok then MoveDoc(old(State()), key, docId) else old(State())
    {
      if docId !in master || key !in users || !renameOk {
        return false;
      }
      users := users[key := users[key][docId := master[docId]]];
      master := master - {docId};
      return true;
    }

    method Dispose(key: Key, docId: int) returns (ok: bool)
      modifies this
      ensures ok <==> docId in Held(old(State()), key)
      ensures State() == DropDocs(old(State()), key, {docId})
    {
      if key !in users {
        return false;
      }
      ok := docId in users[key];
      users := users[key := users[key] - {docId}];
    }

    method ReadDoc(key: Key, docId: int) returns (doc: Option<Offer>)
      ensures doc == if docId in Held(State(), key) then Some(Held(State(), key)[docId]) else None
    {
      return if key in users && docId in users[key] then Some(users[key][docId]) else None;
    }

    /** sandbox_list: as many documents as fit, none twice. */
    method List(key: Key, max: nat) returns (ids: seq<int>)
      ensures |ids| == if |Held(State(), key)| < max then |Held(State(), key)| else max
      ensures forall i :: 0 <= i < |ids| ==> ids[i] in Held(State(), key)
      ensures forall i, j :: 0 <= i < j < |ids| ==> ids[i] != ids[j]
      ensures |Held(State(), key)| <= max ==> forall id :: id in Held(State(), key) ==> id in ids
    {
      ids := [];
      if key !in users {
        return;
      }
      var entries := users[key].Keys;
      while entries != {} && |ids| < max
        invariant entries <= users[key].Keys && |ids| + |entries| == |users[key].Keys| && |ids| <= max
        invariant forall i :: 0 <= i < |ids| ==> ids[i] in users[key].Keys && ids[i] !in entries
        invariant forall i, j :: 0 <= i < j < |ids| ==> ids[i] != ids[j]
        invariant forall id :: id in users[key] ==> id in entries || id in ids
        decreases |entries|
      {
        var entry := NextEntry(entries);
        ids := ids + [entry];
        entries := entries - {entry};
      }
      assert |Held(State(), key)| == |users[key].Keys|;
    }

    method WriteDoc(doc: Offer)
      modifies this
      ensures State() == old(State()).(master := old(master)[doc.docId := doc])
    {
      master := master[doc.docId := doc];
    }

    method RemoveDoc(docId: int)
      modifies this
      ensures State() == old(State()).(master := old(master) - {docId})
    {
      master := master - {docId};
    }

    method PurgeUser(key: Key)
      modifies this
      ensures State() == Purge(old(State()), key)
    {
      if key !in users {
        return;
      }
      var entries := users[key].Keys;
      while entries != {}
        invariant master == old(master) && users.Keys == old(users).Keys && key in users
        invariant users == old(users)[key := users[key]]
        invariant users[key].Keys == entries
        decreases |entries|
      {
        var entry := NextEntry(entries);
        users := users[key := users[key] - {entry}];
        entries := entries - {entry};
      }
      assert users[key] == map[];
    }

    method PurgeMaster()
      modifies this
      ensures State() == Files(map[], old(users))
    {
      var entries := master.Keys;
      while entries != {}
        invariant master.Keys == entries && users == old(users)
        decreases |entries|
      {
        var entry := NextEntry(entries);
        master := master - {entry};
        entries := entries - {entry};
      }
    }

    method GlobalReset()
      modifies this
      ensures State() == PurgeAll(old(State()))
    {
      PurgeMaster();
      var dirs := users.Keys;
      while dirs != {}
        invariant master == map[] && users.Keys == old(users).Keys && dirs <= users.Keys
        invariant forall k :: k in users && k !in dirs ==> users[k] == map[]
        decreases |dirs|
      {
        var dir := NextEntry(dirs);
        ghost var before := users;
        PurgeUser(dir);
        assert users == before[dir := map[]];
        dirs := dirs - {dir};
      }
    }
  }
}
