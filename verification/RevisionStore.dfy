/** The methods of controllers/revision.go on one project's ConfigMaps. */
module RevisionStore {
  import opened Wrappers
  import opened Text
  import opened Revisions

  class Store {
    var revisions: map<nat, Data>  // the ConfigMaps {project}-rev-{n}
    var tf: Option<Data>           // the ConfigMap {project}-tf
    var revision: nat              // status.revision
    var pinned: int                // spec.pinnedRevision
    var applied: string            // status.lastAppliedHash
    const limit: nat               // spec.revisionHistoryLimit
    const digest: string -> string // SHA-256 in hexadecimal

    /** A new project finds the revisions that an earlier one of its name has left. */
    constructor (limit: nat, digest: string -> string, leftover: map<nat, Data>)
      ensures this.limit == limit && this.digest == digest && Value() == State(leftover, None, 0, 0, "")
    {
      this.limit, this.digest := limit, digest;
      revisions, tf, revision, pinned, applied := leftover, None, 0, 0, "";
    }

    ghost function Value(): State
      reads this
    {
      State(revisions, tf, revision, pinned, applied)
    }

    /** createRevision: the ConfigMap's data is filled entry by entry and the ConfigMap created if its name is free. */
    method CreateRevision(r: Record, files: Data) returns (ok: bool)
      modifies this`revisions
      ensures ok <==> revision !in old(revisions)
      ensures revisions == if ok then old(revisions)[revision := RevisionData(revision, r, files)] else old(revisions)
    {
      var data := Metadata(revision, r);
      if r.status == SUCCEEDED {
        data := AddSnapshot(data, files);
      } else {
        assert data == data + map[];
      }
      ok := revision !in revisions;
      if ok {
        revisions := revisions[revision := data];
      }
    }

    /** The revision ConfigMaps in the order the API happens to list them. */
    method ListRevisions() returns (items: seq<nat>)
      ensures forall x :: x in items <==> x in revisions
      ensures forall i, j :: 0 <= i < j < |items| ==> items[i] != items[j]
    {
      items := [];
      var left := revisions.Keys;
      while left != {}
        invariant left <= revisions.Keys
        invariant forall x :: x in items <==> x in revisions && x !in left
        invariant forall i, j :: 0 <= i < j < |items| ==> items[i] != items[j]
        decreases left
      {
        var n :| n in left;
        items := items + [n];
        left := left - {n};
      }
    }

    /** The counted loop over the sorted list. */
    method DeleteFront(sorted: seq<nat>, toDelete: nat)
      requires toDelete <= |sorted|
      modifies this`revisions
      ensures revisions == Without(old(revisions), sorted[..toDelete], pinned)
    {
      hide Without;
      ghost var before := revisions;
      WithoutNothing(revisions, pinned);
      for i := 0 to toDelete
        invariant revisions == Without(before, sorted[..i], pinned)
      {
        var rev := sorted[i];
        assert sorted[..i + 1] == sorted[..i] + [rev];
        WithoutOneMore(before, sorted[..i], rev, pinned);
        if rev == pinned {
          continue;
        }
        revisions := revisions - {rev};
      }
    }

    /** cleanupOldRevisions: the oldest ones beyond the limit are deleted, the pinned one excepted. */
    method CleanupOldRevisions()
      modifies this`revisions
      ensures revisions == Cleaned(old(revisions), limit, pinned)
    {
      if limit == 0 {
        return;
      }
      hide Cleaned, SortNumbers, Ascending, Without;
      var items := ListRevisions();
      SortAscends(items);
      var sorted := SortNumbers(items);
      SameSize(items, sorted);
      assert Elements(items) == revisions.Keys;
      if |items| <= limit {
        NothingBeyondLimit(revisions, limit, pinned);
        return;
      }
      OldestAreDeleted(revisions, sorted, limit, pinned);
      DeleteFront(sorted, |items| - limit);
    }

    /** createRevisionFromCM. */
    method CreateRevisionFromCM(r: Record)
      modifies this`revisions, this`revision
      ensures Value() == Recorded(old(Value()), limit, r)
    {
      if tf.None? {
        return;
      }
      revision := revision + 1;
      var ok := CreateRevision(r, tf.value);
      if !ok {
        return;
      }
      CleanupOldRevisions();
    }

    /** The status and revision side of a finished apply. */
    method FinishApply(r: Record)
      modifies this`revisions, this`revision, this`applied
      ensures Value() == Finished(old(Value()), limit, r)
    {
      if r.status == SUCCEEDED {
        applied := r.appliedHash;
      }
      CreateRevisionFromCM(r);
    }

    /** loadPinnedSnapshot: the prefixed entries are collected one by one. */
    method LoadPinnedSnapshot(n: nat) returns (l: Load)
      ensures l == LoadSnapshot(revisions, n)
    {
      if n !in revisions {
        return NotFound;
      }
      var data := revisions[n];
      var files := ReadSnapshot(data);
      if |files| == 0 {
        return NoSnapshot;
      }
      l := Snapshot(files, if "appliedHash" in data then data["appliedHash"] else "");
    }

    /** The ConfigMap side of reconcilePinned: `proceed` when it goes on to the lock and the Job. */
    method RestorePinned() returns (proceed: bool)
      modifies this`tf
      ensures Value() == Restored(old(Value()), digest)
      ensures proceed <==> ToRestore(old(Value()), digest).Some?
    {
      if pinned <= 0 {
        return false;
      }
      var l := LoadPinnedSnapshot(pinned);
      if !l.Snapshot? {
        return false;
      }
      if applied == PinHash(digest, pinned, l.appliedHash) {
        return false;
      }
      tf := Some(l.files);
      proceed := true;
    }

    /** The success branch of handlePinnedJobResult. */
    method RecordPinned()
      modifies this`applied
      ensures Value() == PinApplied(old(Value()), digest)
    {
      if pinned <= 0 {
        return;
      }
      var l := LoadPinnedSnapshot(pinned);
      if l.Snapshot? {
        applied := PinHash(digest, pinned, l.appliedHash);
      }
    }
  }

  /** Every file is added to the data under its prefixed name, in whatever order they come. */
  method AddSnapshot(data: Data, files: Data) returns (d: Data)
    ensures d == data + Prefixed(files)
  {
    hide Prefixed;
    d := data;
    var left := files.Keys;
    ghost var seen: Data := map[];
    PrefixedNothing();
    while left != {}
      invariant left <= files.Keys && seen == map k | k in files && k !in left :: files[k]
      invariant d == data + Prefixed(seen)
      decreases left
    {
      var k :| k in left;
      PrefixedExtends(seen, k, files[k]);
      d := d[SNAPSHOT_PREFIX + k := files[k]];
      left := left - {k};
      seen := seen[k := files[k]];
    }
    assert files == seen;
  }

  /** The entries under the prefix are collected under their own names, in whatever order they come. */
  method ReadSnapshot(data: Data) returns (files: Data)
    ensures files == SnapshotOf(data)
  {
    hide SnapshotOf;
    files := map[];
    var left := data.Keys;
    ghost var seen: Data := map[];
    SnapshotNothing();
    while left != {}
      invariant left <= data.Keys && seen == map k | k in data && k !in left :: data[k]
      invariant files == SnapshotOf(seen)
      decreases left
    {
      var k :| k in left;
      SnapshotExtends(seen, k, data[k]);
      if SNAPSHOT_PREFIX <= k {
        files := files[k[|SNAPSHOT_PREFIX|..] := data[k]];
      }
      left := left - {k};
      seen := seen[k := data[k]];
    }
    assert data == seen;
  }

  /** What is left when the listed revisions are deleted, the pinned one excepted. */
  function Without(m: map<nat, Data>, gone: seq<nat>, pinned: int): map<nat, Data> {
    map r | r in m && (r == pinned || r !in gone) :: m[r]
  }

  lemma WithoutNothing(m: map<nat, Data>, pinned: int)
    ensures Without(m, [], pinned) == m
  {
  }

  lemma WithoutOneMore(m: map<nat, Data>, gone: seq<nat>, rev: nat, pinned: int)
    ensures Without(m, gone + [rev], pinned) ==
            if rev == pinned then Without(m, gone, pinned) else Without(m, gone, pinned) - {rev}
  {
  }

  /** Deleting the front of the ascending list, the pin excepted, is the cleanup. */
  lemma OldestAreDeleted(m: map<nat, Data>, sorted: seq<nat>, limit: nat, pinned: int)
    requires Ascending(sorted) && Elements(sorted) == m.Keys && 0 < limit <= |sorted|
    ensures Cleaned(m, limit, pinned) == Without(m, sorted[..|sorted| - limit], pinned)
  {
    var toDelete := |sorted| - limit;
    forall r | r in m
      ensures Kept(m.Keys, limit, pinned, r) <==> r == pinned || r !in sorted[..toDelete]
    {
      assert r in Elements(sorted);
      var i :| 0 <= i < |sorted| && sorted[i] == r;
      NewerOfAscending(sorted, i);
      assert r in sorted[..toDelete] <==> i < toDelete;
    }
  }

  lemma PrefixedNothing()
    ensures Prefixed(map[]) == map[]
  {
  }

  lemma SnapshotNothing()
    ensures SnapshotOf(map[]) == map[]
  {
  }

  lemma PrefixedExtends(d: Data, k: string, v: string)
    requires k !in d
    ensures Prefixed(d[k := v]) == Prefixed(d)[SNAPSHOT_PREFIX + k := v]
  {
    var e := d[k := v];
    PrefixIsInjective();
    assert k in e;
    forall j | j in d
      ensures SNAPSHOT_PREFIX + j in Prefixed(e)
    {
      assert j in e;
    }
  }

  lemma SnapshotExtends(d: Data, k: string, v: string)
    requires k !in d
    ensures SnapshotOf(d[k := v]) ==
            if SNAPSHOT_PREFIX <= k then SnapshotOf(d)[k[|SNAPSHOT_PREFIX|..] := v] else SnapshotOf(d)
  {
    var e := d[k := v];
    if SNAPSHOT_PREFIX <= k {
      forall j | j in d && SNAPSHOT_PREFIX <= j
        ensures j[|SNAPSHOT_PREFIX|..] != k[|SNAPSHOT_PREFIX|..]
      {
        if j[|SNAPSHOT_PREFIX|..] == k[|SNAPSHOT_PREFIX|..] {
          TrimIsInjective(j, k);
        }
      }
      assert k in e;
    }
  }

  lemma NothingBeyondLimit(m: map<nat, Data>, limit: nat, pinned: int)
    requires |m.Keys| <= limit && limit > 0
    ensures Cleaned(m, limit, pinned) == m
  {
    forall r | r in m
      ensures |Newer(m.Keys, r)| < limit
    {
      SubsetSize(Newer(m.Keys, r), m.Keys - {r});
    }
  }

  lemma {:induction false} DistinctSize(ns: seq<nat>)
    requires forall i, j :: 0 <= i < j < |ns| ==> ns[i] != ns[j]
    ensures |Elements(ns)| == |ns|
  {
    if ns != [] {
      DistinctSize(ns[1..]);
      assert Elements(ns) == {ns[0]} + Elements(ns[1..]);
    }
  }

  lemma SameSize(items: seq<nat>, sorted: seq<nat>)
    requires forall i, j :: 0 <= i < j < |items| ==> items[i] != items[j]
    requires Ascending(sorted) && Elements(sorted) == Elements(items)
    ensures |items| == |sorted| == |Elements(items)|
  {
    DistinctSize(items);
    AscendingSize(sorted);
  }

  lemma {:induction false} SortedKeys(keys: set<nat>) returns (ns: seq<nat>)
    ensures Ascending(ns) && Elements(ns) == keys
  {
    if keys == {} {
      ns := [];
    } else {
      var k :| k in keys;
      var rest := SortedKeys(keys - {k});
      assert forall x :: x in rest <==> x in Elements(rest);
      InsertKeepsAscending(k, rest);
      ns := InsertNumber(k, rest);
      assert forall x :: x in Elements(ns) <==> x in ns;
      assert Elements(ns) == keys;
    }
  }

  lemma WithoutKeys(m: map<nat, Data>, gone: seq<nat>, rest: seq<nat>, pinned: nat)
    requires m.Keys == Elements(gone + rest) && Ascending(gone + rest)
    ensures Without(m, gone, pinned).Keys == Elements(rest) + if pinned in gone then {pinned} else {}
  {
    forall x | x in gone
      ensures x !in rest
    {
      var i :| 0 <= i < |gone| && gone[i] == x;
      assert (gone + rest)[i] == x && forall j :: 0 <= j < |rest| ==> rest[j] == (gone + rest)[|gone| + j];
    }
  }

  /** A cleanup leaves exactly `limit` revisions, or one more when it spares a pinned one that is older than those. */
  lemma CleanupLeavesLimitOrOneMore(m: map<nat, Data>, limit: nat, pinned: nat)
    requires 0 < limit <= |m.Keys|
    ensures |Cleaned(m, limit, pinned).Keys| ==
            limit + if pinned in m && |Newer(m.Keys, pinned)| >= limit then 1 else 0
  {
    hide Cleaned, Newer, Without;
    var sorted := SortedKeys(m.Keys);
    AscendingSize(sorted);
    var gone, rest := sorted[..|sorted| - limit], sorted[|sorted| - limit..];
    assert sorted == gone + rest;
    OldestAreDeleted(m, sorted, limit, pinned);
    AscendingSize(rest);
    PinAmongTheGone(sorted, limit, pinned);
    WithoutKeys(m, gone, rest, pinned);
  }

  lemma PinAmongTheGone(sorted: seq<nat>, limit: nat, pinned: nat)
    requires Ascending(sorted) && 0 < limit <= |sorted|
    ensures pinned in sorted[..|sorted| - limit] <==>
            pinned in Elements(sorted) && |Newer(Elements(sorted), pinned)| >= limit
    ensures pinned in sorted[..|sorted| - limit] ==> pinned !in sorted[|sorted| - limit..]
  {
    if pinned in sorted {
      var i :| 0 <= i < |sorted| && sorted[i] == pinned;
      NewerOfAscending(sorted, i);
      assert i < |sorted| - limit ==> sorted[..|sorted| - limit][i] == pinned;
    }
  }
}
