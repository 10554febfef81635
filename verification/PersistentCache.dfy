/** core/src/persistent_cache.cc: a cache file replaced through a transaction. The file
    system is modelled at the grain of whole events, and a crash may come between any two
    operations on it. */
module PersistentCache {
  import opened Options

  /** The contents of the cache file and of the files named with .new and .old after it. */
  datatype Disk<E> = Disk(cache: Option<seq<E>>, newFile: Option<seq<E>>, oldFile: Option<seq<E>>)

  /** One operation on the file system. */
  datatype Op<E> =
    | OpenNew             // file::opener on .new: it is created, or opened to append
    | Append(event: E)
    | CacheToOld
    | NewToCache
    | RemoveOld
    | RemoveNew

  function ContentsOf<E>(f: Option<seq<E>>): seq<E> { if f.Some? then f.value else [] }

  /** A rename fails, and changes nothing, if its source is missing. */
  function Do<E>(d: Disk<E>, op: Op<E>): Disk<E> {
    match op
    case OpenNew => d.(newFile := Some(ContentsOf(d.newFile)))
    case Append(e) => d.(newFile := Some(ContentsOf(d.newFile) + [e]))
    case CacheToOld => if d.cache.None? then d else Disk(None, d.newFile, d.cache)
    case NewToCache => if d.newFile.None? then d else Disk(d.newFile, None, d.oldFile)
    case RemoveOld => d.(oldFile := None)
    case RemoveNew => d.(newFile := None)
  }

  function DoAll<E>(d: Disk<E>, ops: seq<Op<E>>): Disk<E> {
    if ops == [] then d else Do(DoAll(d, ops[..|ops| - 1]), ops[|ops| - 1])
  }

  /** _open: the old file comes back if the cache file is missing, and the cache file is
      created if there is none. */
  function Reopened<E>(d: Disk<E>): (r: Disk<E>)
    ensures r.cache.Some? && r.newFile == d.newFile
  {
    if d.cache.Some? then d
    else if d.oldFile.Some? then Disk(d.oldFile, d.newFile, None)
    else d.(cache := Some([]))
  }

  function Appends<E>(events: seq<E>): (r: seq<Op<E>>)
    ensures |r| == |events|
    ensures forall i :: 0 <= i < |events| ==> r[i] == Append(events[i])
  {
    if events == [] then [] else Appends(events[..|events| - 1]) + [Append(events[|events| - 1])]
  }

  /** What saving the events does: transaction, add for each event, commit. */
  function Save<E>(events: seq<E>): (r: seq<Op<E>>)
    ensures |r| == |events| + 4
  {
    [OpenNew] + Appends(events) + [CacheToOld, NewToCache, RemoveOld]
  }

  class Cache<E(!new)> {
    var disk: Disk<E>
    var writing: bool
    /** The operations made on the file system since it was opened. */
    ghost var ops: seq<Op<E>>

    constructor (disk: Disk<E>)
      ensures !writing && this.disk == Reopened(disk) && ops == []
    {
      writing := false;
      this.disk := Reopened(disk);
      ops := [];
    }

    method Perform(op: Op<E>)
      modifies this`disk, this`ops
      ensures disk == Do(old(disk), op) && ops == old(ops) + [op]
    {
      disk := Do(disk, op);
      ops := ops + [op];
    }

    method Transaction() returns (ok: bool)
      modifies this
      ensures ok == !old(writing) && writing
      ensures disk == if ok then Do(old(disk), OpenNew) else old(disk)
      ensures ops == old(ops) + if ok then [OpenNew] else []
    {
      if writing { return false; }
      Perform(OpenNew);
      writing := true;
      return true;
    }

    method Add(e: E) returns (ok: bool)
      modifies this
      ensures ok == old(writing) && writing == old(writing)
      ensures disk == if ok then Do(old(disk), Append(e)) else old(disk)
      ensures ops == old(ops) + if ok then [Append(e)] else []
    {
      ok := writing;
      if ok { Perform(Append(e)); }
    }

    /** commit: the steps after a failed rename are not taken. */
    method Commit() returns (ok: bool)
      modifies this
      ensures !writing
      ensures !old(writing) ==> ok && disk == old(disk) && ops == old(ops)
      ensures old(writing) && ok ==>
                && disk == DoAll(old(disk), [CacheToOld, NewToCache, RemoveOld])
                && ops == old(ops) + [CacheToOld, NewToCache, RemoveOld]
      ensures old(writing) ==> (ok <==> old(disk).cache.Some? && old(disk).newFile.Some?)
      ensures !ok ==> disk.newFile == old(disk).newFile && Reopened(disk).cache == Reopened(old(disk)).cache
    {
      if !writing { return true; }
      writing := false;
      if disk.cache.None? { return false; }
      ghost var d := disk;
      Perform(CacheToOld);
      if disk.newFile.None? { return false; }
      Perform(NewToCache);
      Perform(RemoveOld);
      ok := true;
      CommitSteps(d);
    }

    /** What a user of the cache does to replace it: a transaction, the events one by one,
        and the commit. These are the operations that the theorems on crashes interrupt. */
    method ReplaceWith(events: seq<E>) returns (ok: bool)
      requires disk.cache.Some?
      modifies this
      ensures ok == !old(writing)
      ensures disk == if ok then DoAll(old(disk), Save(events)) else old(disk)
      ensures ops == old(ops) + if ok then Save(events) else []
      ensures writing == old(writing)
    {
      hide DoAll, Save, Do;
      ghost var d, before := disk, ops;
      ok := Transaction();
      if !ok { return; }
      OpenDone(d, events);
      SaveStarts(events);
      var i := 0;
      while i < |events|
        invariant i <= |events| && writing
        invariant disk == DoAll(d, Save(events)[..i + 1]) && ops == before + Save(events)[..i + 1]
      {
        var added := Add(events[i]);
        AddDone(d, events, i);
        SaveGoesOn(events, i);
        i := i + 1;
      }
      AppendsDone(d, events, i);
      ok := Commit();
      SaveSteps(d, events);
      SaveEnds(events);
    }

    method Rollback()
      modifies this
      ensures !writing && disk == Do(old(disk), RemoveNew) && ops == old(ops) + [RemoveNew]
    {
      writing := false;
      Perform(RemoveNew);
    }
  }

  lemma SaveStarts<E>(events: seq<E>)
    ensures Save(events)[..1] == [OpenNew]
  {}

  lemma SaveGoesOn<E>(events: seq<E>, i: nat)
    requires i < |events|
    ensures Save(events)[..i + 2] == Save(events)[..i + 1] + [Append(events[i])]
  {}

  lemma SaveEnds<E>(events: seq<E>)
    ensures Save(events) == Save(events)[..|events| + 1] + [CacheToOld, NewToCache, RemoveOld]
  {}

  lemma CommitSteps<E>(d: Disk<E>)
    ensures DoAll(d, [CacheToOld, NewToCache, RemoveOld]) == Do(Do(Do(d, CacheToOld), NewToCache), RemoveOld)
  {
    var ops: seq<Op<E>> := [CacheToOld, NewToCache, RemoveOld];
    assert ops[..2] == [CacheToOld, NewToCache] && ops[..2][..1] == [CacheToOld];
    assert DoAll(d, []) == d;
    assert DoAll(d, ops[..2][..1]) == Do(d, CacheToOld);
    assert DoAll(d, ops[..2]) == Do(Do(d, CacheToOld), NewToCache);
  }

  // ---------------------------------------------------------------- crashes

  lemma DoOneMore<E>(d: Disk<E>, ops: seq<Op<E>>, k: nat)
    requires k < |ops|
    ensures DoAll(d, ops[..k + 1]) == Do(DoAll(d, ops[..k]), ops[k])
  {
    assert ops[..k + 1][..k] == ops[..k];
  }

  lemma {:induction false} AppendsDone<E>(d: Disk<E>, events: seq<E>, k: nat)
    requires k <= |events|
    ensures DoAll(d, Save(events)[..k + 1]) == d.(newFile := Some(ContentsOf(d.newFile) + events[..k]))
  {
    var ops := Save(events);
    DoOneMore(d, ops, k);
    if k == 0 {
      assert ops[..0] == [] && ContentsOf(d.newFile) + [] == ContentsOf(d.newFile);
    } else {
      AppendsDone(d, events, k - 1);
      assert ops[k] == Append(events[k - 1]);
      assert ContentsOf(d.newFile) + events[..k - 1] + [events[k - 1]] == ContentsOf(d.newFile) + events[..k];
    }
  }

  lemma OpenDone<E>(d: Disk<E>, events: seq<E>)
    ensures DoAll(d, Save(events)[..1]) == Do(d, OpenNew)
  {
    DoOneMore(d, Save(events), 0);
  }

  lemma AddDone<E>(d: Disk<E>, events: seq<E>, i: nat)
    requires i < |events|
    ensures DoAll(d, Save(events)[..i + 2]) == Do(DoAll(d, Save(events)[..i + 1]), Append(events[i]))
  {
    DoOneMore(d, Save(events), i + 1);
  }

  lemma SaveSteps<E>(d: Disk<E>, events: seq<E>)
    ensures DoAll(d, Save(events)) == DoAll(DoAll(d, Save(events)[..|events| + 1]), [CacheToOld, NewToCache, RemoveOld])
  {
    hide DoAll, Save, Do;
    var n, ops := |events|, Save(events);
    CommitOps(events);
    DoOneMore(d, ops, n + 1);
    DoOneMore(d, ops, n + 2);
    DoOneMore(d, ops, n + 3);
    assert ops[..n + 4] == ops;
    CommitSteps(DoAll(d, ops[..n + 1]));
  }

  /** A crash after any k operations of a save, and the file opened again: up to the second
      rename the cache holds what it held, from then on what was in .new before with the
      saved events after it. */
  lemma CrashDuringSave<E>(d: Disk<E>, events: seq<E>, k: nat)
    requires d.cache.Some? && k <= |events| + 4
    ensures var r := Reopened(DoAll(d, Save(events)[..k]));
            && r.cache == (if k < |events| + 3 then d.cache else Some(ContentsOf(d.newFile) + events))
            && r.newFile == (if k == 0 then d.newFile
                            else if k < |events| + 3 then Some(ContentsOf(d.newFile) + events[..Min(k - 1, |events|)])
                            else None)
  {
    hide DoAll, Save;
    if k == 0 {
      NothingDone(d, Save(events));
    } else if k <= |events| + 1 {
      AppendsDone(d, events, k - 1);
    } else {
      CommitDone(d, events, k);
      assert events[..|events|] == events;
    }
  }

  lemma NothingDone<E>(d: Disk<E>, ops: seq<Op<E>>)
    ensures DoAll(d, ops[..0]) == d
  {
    assert ops[..0] == [];
  }

  lemma CommitOps<E>(events: seq<E>)
    ensures var n := |events|;
            Save(events)[n + 1] == CacheToOld && Save(events)[n + 2] == NewToCache && Save(events)[n + 3] == RemoveOld
  {}

  /** The disk after any step of a commit. */
  lemma CommitDone<E>(d: Disk<E>, events: seq<E>, k: nat)
    requires d.cache.Some? && |events| + 1 < k <= |events| + 4
    ensures var all := Some(ContentsOf(d.newFile) + events);
            DoAll(d, Save(events)[..k]) ==
            if k == |events| + 2 then Disk(None, all, d.cache)
            else if k == |events| + 3 then Disk(all, None, d.cache)
            else Disk(all, None, None)
  {
    hide DoAll, Save;
    var n, ops := |events|, Save(events);
    AppendsDone(d, events, n);
    assert events[..n] == events;
    CommitOps(events);
    DoOneMore(d, ops, n + 1);
    if k > n + 2 { DoOneMore(d, ops, n + 2); }
    if k > n + 3 { DoOneMore(d, ops, n + 3); }
  }

  function Min(a: nat, b: nat): nat { if a < b then a else b }

  /** The cache is always found as it was, or as it was to be, if and only if no earlier
      crash left anything in the .new file, which opening does not empty (or what it left
      happens to make no difference). */
  lemma AtomicIffNothingLeftOver<E>(d: Disk<E>, events: seq<E>)
    requires d.cache.Some?
    ensures (forall k: nat :: k <= |events| + 4 ==>
               Reopened(DoAll(d, Save(events)[..k])).cache in {d.cache, Some(events)})
            <==> ContentsOf(d.newFile) == [] || d.cache.value == ContentsOf(d.newFile) + events
  {
    var left := ContentsOf(d.newFile);
    forall k: nat | k <= |events| + 4
      ensures Reopened(DoAll(d, Save(events)[..k])).cache ==
              if k < |events| + 3 then d.cache else Some(left + events)
    {
      CrashDuringSave(d, events, k);
    }
    assert Reopened(DoAll(d, Save(events)[..|events| + 4])).cache == Some(left + events);
    if left == [] {
      assert left + events == events;
    } else {
      assert |left + events| != |events|;
    }
  }

  /** A transaction that is rolled back after any number of events leaves the cache as it was
      and nothing in .new, so that the next save is atomic whatever was left there before. */
  lemma RolledBack<E>(d: Disk<E>, events: seq<E>, k: nat, later: seq<E>)
    requires d.cache.Some? && k <= |events|
    ensures var r := Do(DoAll(d, Save(events)[..k + 1]), RemoveNew);
            && r == d.(newFile := None)
            && forall j: nat :: j <= |later| + 4 ==>
                 Reopened(DoAll(r, Save(later)[..j])).cache in {d.cache, Some(later)}
  {
    hide DoAll, Save;
    AppendsDone(d, events, k);
    AtomicIffNothingLeftOver(d.(newFile := None), later);
  }

  /** Two saves: the first crashes after writing one event, the second ends well, and the
      cache then holds an event that was in neither of them alone. */
  lemma LeftOverIsKept()
    ensures var first := Reopened(DoAll(Disk(Some([]), None, None), Save([1])[..2]));
            Reopened(DoAll(first, Save([2]))).cache == Some([1, 2])
  {
    CrashDuringSave(Disk(Some([]), None, None), [1], 2);
    var first := Reopened(DoAll(Disk(Some([]), None, None), Save([1])[..2]));
    assert [1][..1] == [1] && [] + [1] == [1];
    CrashDuringSave(first, [2], 5);
    assert Save([2])[..5] == Save([2]);
    assert [1] + [2] == [1, 2];
  }
}
