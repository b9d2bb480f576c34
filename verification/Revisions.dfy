/**
 The revision store of controllers/revision.go: numbered snapshots of the `-tf` ConfigMap, kept up to a limit, and
 restored when a revision is pinned.
 */
module Revisions {
  import opened Wrappers
  import opened Text

  type Data = map<string, string>

  const SNAPSHOT_PREFIX := "snapshot:"
  const SUCCEEDED := "succeeded"

  /** What a finished apply hands to createRevision besides the ConfigMap's data. */
  datatype Record = Record(
    appliedHash: string, jobName: string, timestamp: string, status: string,
    planSummary: string, planOutput: string, outputs: string)

  /** The ConfigMaps and numbers that revisions depend on. */
  datatype State = State(
    revisions: map<nat, Data>,  // the ConfigMaps {project}-rev-{n}, also an earlier project's leftovers
    tf: Option<Data>,           // the ConfigMap {project}-tf
    revision: nat,              // status.revision
    pinned: int,                // spec.pinnedRevision
    applied: string)            // status.lastAppliedHash

  // ----- one revision ConfigMap -----

  function Metadata(n: nat, r: Record): Data {
    map["revision" := Decimal(n), "appliedHash" := r.appliedHash, "jobName" := r.jobName, "timestamp" := r.timestamp,
        "status" := r.status, "planSummary" := r.planSummary, "planOutput" := r.planOutput, "outputs" := r.outputs]
  }

  lemma PrefixIsInjective()
    ensures forall a, b :: SNAPSHOT_PREFIX + a == SNAPSHOT_PREFIX + b ==> a == b
  {
    forall a, b | SNAPSHOT_PREFIX + a == SNAPSHOT_PREFIX + b
      ensures a == b
    {
      assert a == (SNAPSHOT_PREFIX + a)[|SNAPSHOT_PREFIX|..];
    }
  }

  lemma TrimIsInjective(a: string, b: string)
    requires SNAPSHOT_PREFIX <= a && SNAPSHOT_PREFIX <= b
    requires a[|SNAPSHOT_PREFIX|..] == b[|SNAPSHOT_PREFIX|..]
    ensures a == b
  {
    assert a == SNAPSHOT_PREFIX + a[|SNAPSHOT_PREFIX|..] && b == SNAPSHOT_PREFIX + b[|SNAPSHOT_PREFIX|..];
  }

  lemma TrimmingIsInjective()
    ensures forall a, b :: SNAPSHOT_PREFIX <= a && SNAPSHOT_PREFIX <= b ==>
              (a[|SNAPSHOT_PREFIX|..] == b[|SNAPSHOT_PREFIX|..] ==> a == b)
  {
    forall a, b | SNAPSHOT_PREFIX <= a && SNAPSHOT_PREFIX <= b && a[|SNAPSHOT_PREFIX|..] == b[|SNAPSHOT_PREFIX|..]
      ensures a == b
    {
      TrimIsInjective(a, b);
    }
  }

  function Prefixed(d: Data): Data {
    PrefixIsInjective();
    map k | k in d :: SNAPSHOT_PREFIX + k := d[k]
  }

  /** The data of revision `n`: metadata, and the files only of a succeeded apply. */
  function RevisionData(n: nat, r: Record, files: Data): Data {
    Metadata(n, r) + if r.status == SUCCEEDED then Prefixed(files) else map[]
  }

  /** The entries under the prefix, without it. */
  function SnapshotOf(d: Data): Data {
    TrimmingIsInjective();
    map k | k in d && SNAPSHOT_PREFIX <= k :: k[|SNAPSHOT_PREFIX|..] := d[k]
  }

  /** No metadata key looks like a snapshot key. */
  lemma MetadataIsNoSnapshot(n: nat, r: Record, k: string)
    requires k in Metadata(n, r)
    ensures !(SNAPSHOT_PREFIX <= k)
  {
    assert k[0] != SNAPSHOT_PREFIX[0] || k == "status";
  }

  /** Recording and restoring a succeeded revision gives back the files key for key; a failed one gives back none. */
  lemma SnapshotRoundTrip(n: nat, r: Record, files: Data)
    ensures SnapshotOf(RevisionData(n, r, files)) == if r.status == SUCCEEDED then files else map[]
  {
    var d := RevisionData(n, r, files);
    forall k | k in d && SNAPSHOT_PREFIX <= k
      ensures k !in Metadata(n, r)
    {
      if k in Metadata(n, r) {
        MetadataIsNoSnapshot(n, r, k);
      }
    }
    if r.status == SUCCEEDED {
      forall k | k in files
        ensures k in SnapshotOf(d) && SnapshotOf(d)[k] == files[k]
      {
        var p := SNAPSHOT_PREFIX + k;
        assert p in Prefixed(files) && p in d && p[|SNAPSHOT_PREFIX|..] == k;
      }
      forall k | k in SnapshotOf(d)
        ensures k in files
      {
        var p :| p in d && SNAPSHOT_PREFIX <= p && p[|SNAPSHOT_PREFIX|..] == k;
        assert p in Prefixed(files);
        PrefixIsInjective();
        assert p == SNAPSHOT_PREFIX + k;
      }
    }
  }

  /** The record that a revision's metadata tells. */
  function RecordOf(d: Data): Option<(nat, Record)> {
    if && {"revision", "appliedHash", "jobName", "timestamp"} <= d.Keys
       && {"status", "planSummary", "planOutput", "outputs"} <= d.Keys
       && (forall i :: 0 <= i < |d["revision"]| ==> IsDigit(d["revision"][i]))
    then Some((Value(d["revision"]),
               Record(d["appliedHash"], d["jobName"], d["timestamp"], d["status"], d["planSummary"], d["planOutput"],
                      d["outputs"])))
    else None
  }

  /** Number and record read back, whatever files are stored beside them. */
  lemma RecordRoundTrip(n: nat, r: Record, files: Data)
    ensures RecordOf(RevisionData(n, r, files)) == Some((n, r))
  {
    var d, m := RevisionData(n, r, files), Metadata(n, r);
    forall k | k in m
      ensures k in d && d[k] == m[k]
    {
      MetadataIsNoSnapshot(n, r, k);
      if k in Prefixed(files) {
        assert false;
      }
    }
    ValueOfDecimal(n);
  }

  // ----- retention -----

  function Newer(keys: set<nat>, r: nat): set<nat> {
    set s | s in keys && s > r
  }

  /** A revision survives a cleanup when it is pinned or fewer than `limit` stored revisions are newer. */
  predicate Kept(keys: set<nat>, limit: nat, pinned: int, r: nat) {
    limit == 0 || r == pinned || |Newer(keys, r)| < limit
  }

  function Cleaned(m: map<nat, Data>, limit: nat, pinned: int): map<nat, Data> {
    map r | r in m && Kept(m.Keys, limit, pinned, r) :: m[r]
  }

  /** createRevisionFromCM. */
  function Recorded(s: State, limit: nat, r: Record): State {
    if s.tf.None? then s
    else
      var n := s.revision + 1;
      if n in s.revisions then s.(revision := n)  // the ConfigMap exists already: creation fails, nothing is cleaned up
      else s.(revision := n, revisions := Cleaned(s.revisions[n := RevisionData(n, r, s.tf.value)], limit, s.pinned))
  }

  /** A finished apply: a succeeded one is the last applied, and either is recorded. */
  function Finished(s: State, limit: nat, r: Record): State {
    Recorded(if r.status == SUCCEEDED then s.(applied := r.appliedHash) else s, limit, r)
  }

  // ----- pinning -----

  datatype Load = NotFound | NoSnapshot | Snapshot(files: Data, appliedHash: string)

  function LoadSnapshot(revisions: map<nat, Data>, n: nat): Load {
    if n !in revisions then NotFound
    else
      var files := SnapshotOf(revisions[n]);
      if files == map[] then NoSnapshot
      else Snapshot(files, if "appliedHash" in revisions[n] then revisions[n]["appliedHash"] else "")
  }

  /** computePinnedHash. */
  function PinHash(digest: string -> string, n: nat, storedHash: string): string {
    digest("pinned:" + Decimal(n) + ":" + storedHash)
  }

  lemma ShorterDiffers(a: string, b: string, x: string, y: string)
    requires |a| < |b| && forall c :: c in b ==> IsDigit(c)
    ensures a + ":" + x != b + ":" + y
  {
    assert (a + ":" + x)[|a|] == ':' && (b + ":" + y)[|a|] == b[|a|] && b[|a|] in b;
  }

  /** Two numbers followed by a colon and more: the colon tells where the number ends. */
  lemma DigitsEndAtColon(a: string, b: string, x: string, y: string)
    requires forall c :: c in a || c in b ==> IsDigit(c)
    ensures a + ":" + x == b + ":" + y <==> a == b && x == y
  {
    if |a| < |b| {
      ShorterDiffers(a, b, x, y);
    } else if |b| < |a| {
      ShorterDiffers(b, a, y, x);
    } else {
      assert a == (a + ":" + x)[..|a|] && b == (b + ":" + y)[..|b|];
      assert x == (a + ":" + x)[|a| + 1..] && y == (b + ":" + y)[|b| + 1..];
    }
  }

  /** Pinned hashes differ for every two numbers and for every two recorded hashes, as far as digests do. */
  lemma PinHashShows(digest: string -> string, n: nat, hash: string, n': nat, hash': string)
    requires forall a, b :: digest(a) == digest(b) ==> a == b
    ensures PinHash(digest, n, hash) == PinHash(digest, n', hash') <==> n == n' && hash == hash'
  {
    hide Decimal;
    var a, b := "pinned:" + Decimal(n) + ":" + hash, "pinned:" + Decimal(n') + ":" + hash';
    if PinHash(digest, n, hash) == PinHash(digest, n', hash') {
      assert a == b;
      assert a[7..] == Decimal(n) + ":" + hash && b[7..] == Decimal(n') + ":" + hash';
      DigitsEndAtColon(Decimal(n), Decimal(n'), hash, hash');
      ValueOfDecimal(n);
      ValueOfDecimal(n');
    }
  }

  /** The snapshot that reconcilePinned goes on with: one whose hash is the last applied needs nothing. */
  function ToRestore(s: State, digest: string -> string): Option<Data> {
    if s.pinned <= 0 then None
    else
      match LoadSnapshot(s.revisions, s.pinned)
      case Snapshot(files, hash) => if s.applied == PinHash(digest, s.pinned, hash) then None else Some(files)
      case _ => None
  }

  /** The part of reconcilePinned that touches ConfigMaps: the pinned snapshot replaces the `-tf` data. */
  function Restored(s: State, digest: string -> string): State {
    match ToRestore(s, digest)
    case None => s
    case Some(files) => s.(tf := Some(files))
  }

  /** The pinned revision's Job has succeeded. */
  function PinApplied(s: State, digest: string -> string): State {
    if s.pinned <= 0 then s
    else
      match LoadSnapshot(s.revisions, s.pinned)
      case Snapshot(_, hash) => s.(applied := PinHash(digest, s.pinned, hash))
      case _ => s
  }

  // ----- sorting a list of revision numbers -----

  function InsertNumber(n: nat, sorted: seq<nat>): seq<nat> {
    if sorted == [] || n < sorted[0] then [n] + sorted else [sorted[0]] + InsertNumber(n, sorted[1..])
  }

  /** sort.Slice by revision number. */
  function SortNumbers(ns: seq<nat>): seq<nat> {
    if ns == [] then [] else InsertNumber(ns[0], SortNumbers(ns[1..]))
  }

  predicate Ascending(ns: seq<nat>) {
    forall i, j :: 0 <= i < j < |ns| ==> ns[i] < ns[j]
  }

  lemma ConsAscends(n: nat, ns: seq<nat>)
    requires Ascending(ns) && forall x :: x in ns ==> n < x
    ensures Ascending([n] + ns)
  {
    forall j | 0 < j < |[n] + ns|
      ensures n < ([n] + ns)[j]
    {
      assert ([n] + ns)[j] == ns[j - 1] && ns[j - 1] in ns;
    }
  }

  lemma {:induction false} InsertKeepsAscending(n: nat, ns: seq<nat>)
    requires Ascending(ns) && n !in ns
    ensures Ascending(InsertNumber(n, ns))
    ensures forall x :: x in InsertNumber(n, ns) <==> x == n || x in ns
  {
    if ns == [] || n < ns[0] {
      ConsAscends(n, ns);
    } else {
      assert ns == [ns[0]] + ns[1..];
      InsertKeepsAscending(n, ns[1..]);
      ConsAscends(ns[0], InsertNumber(n, ns[1..]));
    }
  }

  lemma {:induction false} SortAscends(ns: seq<nat>)
    requires forall i, j :: 0 <= i < j < |ns| ==> ns[i] != ns[j]
    ensures Ascending(SortNumbers(ns))
    ensures forall x :: x in SortNumbers(ns) <==> x in ns
  {
    if ns != [] {
      SortAscends(ns[1..]);
      InsertKeepsAscending(ns[0], SortNumbers(ns[1..]));
      assert ns == [ns[0]] + ns[1..];
    }
  }

  function Elements(ns: seq<nat>): set<nat> {
    set x | x in ns
  }

  lemma {:induction false} AscendingSize(ns: seq<nat>)
    requires Ascending(ns)
    ensures |Elements(ns)| == |ns|
  {
    if ns != [] {
      AscendingSize(ns[1..]);
      assert Elements(ns) == {ns[0]} + Elements(ns[1..]);
    }
  }

  /** In an ascending list the number of newer entries is the distance to the end. */
  lemma NewerOfAscending(ns: seq<nat>, i: nat)
    requires Ascending(ns) && i < |ns|
    ensures |Newer(Elements(ns), ns[i])| == |ns| - 1 - i
  {
    AscendingSize(ns[i + 1..]);
    assert Newer(Elements(ns), ns[i]) == Elements(ns[i + 1..]);
  }

  lemma {:induction false} SubsetSize(a: set<nat>, b: set<nat>)
    requires a <= b
    ensures |a| <= |b|
  {
    if a != {} {
      var x :| x in a;
      SubsetSize(a - {x}, b - {x});
    }
  }
}
