/** Management locks of one resource group. The lock manager takes a
    snapshot of the group's locks when it is made, deletes them all before
    the DR operations and puts them back afterwards; a `deleted` flag
    records whether the release went through. */
module Locks {
  import opened Common

  datatype Lock = Lock(name: string, level: string, notes: Option<string>)

  const LockLevels: set<string> := {"CanNotDelete", "ReadOnly"}

  function NamesOf(s: seq<Lock>): (r: seq<string>)
    ensures |r| == |s| && forall i :: 0 <= i < |s| ==> r[i] == s[i].name
  {
    if s == [] then [] else [s[0].name] + NamesOf(s[1..])
  }

  /** Lock names are unique within a resource group. */
  predicate UniqueNames(s: seq<Lock>) {
    forall i, j :: 0 <= i < j < |s| ==> s[i].name != s[j].name
  }

  /** The locks left after deleting the named ones. */
  function Without(s: seq<Lock>, names: seq<string>): seq<Lock> {
    if s == [] then [] else (if s[0].name in names then [] else [s[0]]) + Without(s[1..], names)
  }

  /** A create-or-update by name: an existing lock of that name is replaced
      where it stands, a new one goes to the end. */
  function Upsert(s: seq<Lock>, l: Lock): seq<Lock> {
    if s == [] then [l]
    else if s[0].name == l.name then [l] + s[1..]
    else [s[0]] + Upsert(s[1..], l)
  }

  /** The locks after creating each of `ls` in turn. */
  function UpsertAll(s: seq<Lock>, ls: seq<Lock>): seq<Lock>
    decreases |ls|
  {
    if ls == [] then s else UpsertAll(Upsert(s, ls[0]), ls[1..])
  }

  /** Deleting names in two rounds is deleting them all at once. */
  lemma {:induction false} WithoutTwice(s: seq<Lock>, a: seq<string>, b: seq<string>)
    ensures Without(Without(s, a), b) == Without(s, a + b)
  {
    if s != [] {
      WithoutTwice(s[1..], a, b);
      var t := Without(s[1..], a);
      assert (s[0].name in a + b) <==> (s[0].name in a || s[0].name in b);
      var u := Without(s[1..], a + b);
      if s[0].name !in a {
        assert Without(s, a) == [s[0]] + t;
        assert ([s[0]] + t)[0] == s[0] && ([s[0]] + t)[1..] == t;
        assert Without([s[0]] + t, b) == (if s[0].name in b then [] else [s[0]]) + Without(t, b);
      } else {
        assert Without(s, a) == [] + t == t;
        assert Without(s, a + b) == [] + u == u;
      }
    }
  }

  /** Creating a lock whose name is not taken appends it. */
  lemma {:induction false} UpsertNew(s: seq<Lock>, l: Lock)
    requires l.name !in NamesOf(s)
    ensures Upsert(s, l) == s + [l]
  {
    if s != [] {
      assert s[0].name == NamesOf(s)[0];
      assert NamesOf(s[1..]) == NamesOf(s)[1..];
      UpsertNew(s[1..], l);
      assert s == [s[0]] + s[1..];
    }
  }

  lemma NamesOfAppend(s: seq<Lock>, l: Lock)
    ensures NamesOf(s + [l]) == NamesOf(s) + [l.name]
  {
    assert |NamesOf(s + [l])| == |NamesOf(s) + [l.name]|;
    forall i | 0 <= i < |s| + 1 ensures NamesOf(s + [l])[i] == (NamesOf(s) + [l.name])[i] {
      assert (s + [l])[i] == if i < |s| then s[i] else l;
    }
  }

  /** Creating locks none of whose names are taken, with distinct names,
      appends them in order. */
  lemma {:induction false} UpsertAllNew(s: seq<Lock>, ls: seq<Lock>)
    requires UniqueNames(ls)
    requires forall i :: 0 <= i < |ls| ==> ls[i].name !in NamesOf(s)
    ensures UpsertAll(s, ls) == s + ls
    decreases |ls|
  {
    if ls != [] {
      UpsertNew(s, ls[0]);
      var s' := s + [ls[0]];
      NamesOfAppend(s, ls[0]);
      var rest := ls[1..];
      forall i | 0 <= i < |rest| ensures rest[i].name !in NamesOf(s') {
        assert rest[i] == ls[i + 1];
        assert ls[0].name != ls[i + 1].name;
        assert ls[i + 1].name !in NamesOf(s);
      }
      assert UniqueNames(rest) by {
        forall i, j | 0 <= i < j < |rest| ensures rest[i].name != rest[j].name {
          assert rest[i] == ls[i + 1] && rest[j] == ls[j + 1];
        }
      }
      UpsertAllNew(s', rest);
      assert s' + rest == s + ls;
    }
  }

  /** Deleting names that cover every lock leaves none. */
  lemma {:induction false} WithoutCovered(s: seq<Lock>, names: seq<string>)
    requires forall i :: 0 <= i < |s| ==> s[i].name in names
    ensures Without(s, names) == []
  {
    if s != [] {
      assert s[0].name in names;
      WithoutCovered(s[1..], names);
    }
  }

  /** Deleting every lock by name leaves none. */
  lemma WithoutAll(s: seq<Lock>)
    ensures Without(s, NamesOf(s)) == []
  {
    forall i | 0 <= i < |s| ensures s[i].name in NamesOf(s) {
      assert NamesOf(s)[i] == s[i].name;
    }
    WithoutCovered(s, NamesOf(s));
  }

  /** The lock guard's promise: a group whose locks are all released and
      then all recreated from the snapshot holds the same locks, in the
      same order, as before. */
  lemma ReleaseRecreateRestores(s: seq<Lock>)
    requires UniqueNames(s)
    ensures UpsertAll(Without(s, NamesOf(s)), s) == s
  {
    WithoutAll(s);
    assert NamesOf([]) == [];
    UpsertAllNew([], s);
    assert [] + s == s;
  }

  /** How many snapshot locks are handled before the first one the service
      refuses; all of them when none is refused. */
  function Handled(ls: seq<Lock>, refused: set<string>): (k: nat)
    ensures k <= |ls|
    ensures forall j :: 0 <= j < k ==> ls[j].name !in refused
    ensures k < |ls| ==> ls[k].name in refused
  {
    if ls == [] || ls[0].name in refused then 0 else 1 + Handled(ls[1..], refused)
  }

  /** The group's locks as the lock service keeps them. The names in
      `refusedDeletes` and `refusedPuts` are the calls the service rejects. */
  class LockStore {
    var locks: seq<Lock>
    const refusedDeletes: set<string>
    const refusedPuts: set<string>

    constructor(locks: seq<Lock>, refusedDeletes: set<string>, refusedPuts: set<string>)
      ensures this.locks == locks && this.refusedDeletes == refusedDeletes && this.refusedPuts == refusedPuts
    {
      this.locks := locks;
      this.refusedDeletes := refusedDeletes;
      this.refusedPuts := refusedPuts;
    }

    /** `delete_at_resource_group_level`. */
    method Delete(name: string) returns (ok: bool)
      modifies this
      ensures ok <==> name !in refusedDeletes
      ensures locks == if ok then Without(old(locks), [name]) else old(locks)
    {
      ok := name !in refusedDeletes;
      if ok {
        locks := Without(locks, [name]);
      }
    }

    /** `create_or_update_at_resource_group_level`. */
    method Put(l: Lock) returns (ok: bool)
      modifies this
      ensures ok <==> l.name !in refusedPuts
      ensures locks == if ok then Upsert(old(locks), l) else old(locks)
    {
      ok := l.name !in refusedPuts;
      if ok {
        locks := Upsert(locks, l);
      }
    }

    /** Creates each of `ls` in turn; the first refused create stops the
        run, and `k` is how many were created. */
    method PutEach(ls: seq<Lock>) returns (k: nat)
      modifies this
      ensures k == Handled(ls, refusedPuts)
      ensures locks == UpsertAll(old(locks), ls[..k])
    {
      k := 0;
      assert ls[..0] == [];
      while k < |ls|
        invariant k <= |ls|
        invariant forall j :: 0 <= j < k ==> ls[j].name !in refusedPuts
        invariant locks == UpsertAll(old(locks), ls[..k])
      {
        var l := ls[k];
        var ok := Put(Lock(l.name, l.level, l.notes));
        if !ok {
          break;
        }
        UpsertAllSnoc(old(locks), ls, k);
        k := k + 1;
      }
      HandledAt(ls, refusedPuts, k);
    }
  }

  /** `AzureResourceLock`. */
  class AzureResourceLock {
    const store: LockStore
    var lockObjs: seq<Lock>
    var deleted: bool

    /** The snapshot is the group's locks at construction; nothing is
        released yet. */
    constructor(store: LockStore)
      ensures this.store == store && lockObjs == store.locks && !deleted
    {
      this.store := store;
      lockObjs := store.locks;
      deleted := false;
    }

    /** `release_locks`: deletes every snapshot lock by name, in order, and
        only then sets `deleted`. The first refused delete raises, leaving
        the earlier locks deleted and the flag as it was. */
    method ReleaseLocks() returns (r: Result<()>)
      modifies this, store
      ensures lockObjs == old(lockObjs)
      ensures var k := Handled(lockObjs, store.refusedDeletes);
        && (r.Ok? <==> k == |lockObjs|)
        && (r.Err? ==> r.error == ServiceError)
        && store.locks == Without(old(store.locks), NamesOf(lockObjs[..k]))
      ensures deleted == (old(deleted) || (r.Ok? && lockObjs != []))
    {
      WithoutNothing(store.locks);
      assert NamesOf(lockObjs[..0]) == [];
      if lockObjs == [] {
        return Ok(());
      }
      var objs := lockObjs;
      ghost var before := store.locks;
      var i := 0;
      while i < |objs|
        modifies store
        invariant 0 <= i <= |objs|
        invariant forall j :: 0 <= j < i ==> objs[j].name !in store.refusedDeletes
        invariant store.locks == Without(before, NamesOf(objs[..i]))
      {
        var ok := store.Delete(objs[i].name);
        if !ok {
          HandledAt(objs, store.refusedDeletes, i);
          return Err(ServiceError);
        }
        WithoutTwice(before, NamesOf(objs[..i]), [objs[i].name]);
        NamesOfSnoc(objs, i);
        i := i + 1;
      }
      HandledAt(objs, store.refusedDeletes, i);
      assert objs[..i] == objs;
      deleted := true;
      r := Ok(());
    }

    /** `recreate_locks`: only with a non-empty snapshot whose release went
        through, creates each snapshot lock again with its name, level and
        notes; the first refused create raises. `deleted` is left set. */
    method RecreateLocks() returns (r: Result<()>)
      modifies store
      ensures var go := lockObjs != [] && deleted;
        var k := Handled(lockObjs, store.refusedPuts);
        && (!go ==> r.Ok? && store.locks == old(store.locks))
        && (go ==> (r.Ok? <==> k == |lockObjs|) && store.locks == UpsertAll(old(store.locks), lockObjs[..k]))
        && (r.Err? ==> r.error == ServiceError)
    {
      if lockObjs == [] || !deleted {
        return Ok(());
      }
      var k := store.PutEach(lockObjs);
      r := if k == |lockObjs| then Ok(()) else Err(ServiceError);
    }

    /** `create_lock`: an unknown level raises ValueError before anything
        is read; the snapshot is refreshed, an existing name is left alone,
        and after a create the snapshot is refreshed again. */
    method CreateLock(name: string, level: string, notes: Option<string>) returns (r: Result<()>)
      modifies this, store
      ensures level !in LockLevels ==>
        r == Err(ValueError) && store.locks == old(store.locks) && lockObjs == old(lockObjs)
      ensures level in LockLevels && name in NamesOf(old(store.locks)) ==>
        r.Ok? && store.locks == old(store.locks) && lockObjs == store.locks
      ensures level in LockLevels && name !in NamesOf(old(store.locks)) ==>
        && (r.Ok? <==> name !in store.refusedPuts)
        && store.locks == (if r.Ok? then Upsert(old(store.locks), Lock(name, level, notes)) else old(store.locks))
        && lockObjs == store.locks
      ensures deleted == old(deleted)
    {
      if level !in LockLevels {
        return Err(ValueError);
      }
      lockObjs := store.locks;
      if name in NamesOf(lockObjs) {
        return Ok(());
      }
      var ok := store.Put(Lock(name, level, notes));
      if !ok {
        return Err(ServiceError);
      }
      lockObjs := store.locks;
      r := Ok(());
    }
  }

  lemma WithoutNothing(s: seq<Lock>)
    ensures Without(s, []) == s
  {
    if s != [] {
      WithoutNothing(s[1..]);
      assert s == [s[0]] + s[1..];
    }
  }

  lemma NamesOfSnoc(ls: seq<Lock>, i: nat)
    requires i < |ls|
    ensures NamesOf(ls[..i + 1]) == NamesOf(ls[..i]) + [ls[i].name]
  {
    var a, b := NamesOf(ls[..i + 1]), NamesOf(ls[..i]) + [ls[i].name];
    assert |a| == |b|;
    forall j | 0 <= j < |a| ensures a[j] == b[j] {
      assert ls[..i + 1][j] == ls[j];
      if j < i { assert ls[..i][j] == ls[j]; }
    }
  }

  lemma {:induction false} UpsertAllSnoc(s: seq<Lock>, ls: seq<Lock>, i: nat)
    requires i < |ls|
    ensures UpsertAll(s, ls[..i + 1]) == Upsert(UpsertAll(s, ls[..i]), ls[i])
    decreases i
  {
    if i > 0 {
      assert ls[..i + 1][1..] == ls[1..][..i];
      assert ls[..i][1..] == ls[1..][..i - 1];
      UpsertAllSnoc(Upsert(s, ls[0]), ls[1..], i - 1);
    } else {
      assert ls[..1] == [ls[0]] && ls[..0] == [];
    }
  }

  lemma HandledAt(ls: seq<Lock>, refused: set<string>, i: nat)
    requires i <= |ls|
    requires forall j :: 0 <= j < i ==> ls[j].name !in refused
    requires i < |ls| ==> ls[i].name in refused
    ensures Handled(ls, refused) == i
  {
  }
}
