/** The revision store over whole runs: applies recorded, files rewritten, revisions pinned, unpinned, restored. */
module RevisionHistory {
  import opened Wrappers
  import opened Revisions

  datatype Event =
    | Apply(record: Record)       // a finished apply
    | WriteFiles(files: Data)     // ensureTFConfigMap
    | Pin(n: int)                 // an edit of spec.pinnedRevision; 0 unpins
    | Restore                     // a reconcile of the pinned revision
    | PinSucceeds                 // the pinned revision's Job has succeeded
    | Forget                      // drift repair clears the last applied hash

  function Next(s: State, limit: nat, digest: string -> string, e: Event): State {
    match e
    case Apply(r) => Finished(s, limit, r)
    case WriteFiles(files) => s.(tf := Some(files))
    case Pin(n) => s.(pinned := n)
    case Restore => Restored(s, digest)
    case PinSucceeds => PinApplied(s, digest)
    case Forget => s.(applied := "")
  }

  function After(s: State, limit: nat, digest: string -> string, es: seq<Event>): State {
    if es == [] then s else Next(After(s, limit, digest, es[..|es| - 1]), limit, digest, es[|es| - 1])
  }

  /** The numbers above `low` up to `high`. */
  function Interval(low: nat, high: nat): (s: set<nat>)
    ensures forall x :: x in s <==> low < x <= high
    ensures |s| == if low < high then high - low else 0
  {
    if high <= low then {} else {high} + Interval(low, high - 1)
  }

  /** The newest `limit` of the revisions 1 to `last`. */
  function Newest(limit: nat, last: nat): (s: set<nat>)
    ensures |s| == if last < limit then last else limit
  {
    Interval(if last > limit then last - limit else 0, last)
  }

  // ----- what one event leaves alone -----

  /** Events other than a finished apply touch no revision. */
  lemma OnlyAppliesRecord(s: State, limit: nat, digest: string -> string, e: Event)
    requires !e.Apply?
    ensures var t := Next(s, limit, digest, e); t.revisions == s.revisions && t.revision == s.revision
    ensures !e.Pin? ==> Next(s, limit, digest, e).pinned == s.pinned
  {
    hide LoadSnapshot;
  }

  /** In any store, a revision that stays stored stays as it is, and the counter never falls. */
  lemma StoredIsNeverOverwritten(s: State, limit: nat, digest: string -> string, e: Event)
    ensures var t := Next(s, limit, digest, e);
            && t.revision >= s.revision
            && (forall n :: n in t.revisions && (n in s.revisions || n <= s.revision) ==>
                  n in s.revisions && t.revisions[n] == s.revisions[n])
  {
    hide RevisionData, Kept;
    if !e.Apply? {
      OnlyAppliesRecord(s, limit, digest, e);
    }
  }

  /** A number once given is never given again, whatever an earlier project has left in the store. */
  lemma {:induction false} RevisionsAreImmutable(s: State, limit: nat, digest: string -> string, es: seq<Event>, n: nat)
    requires n <= s.revision
    ensures var t := After(s, limit, digest, es);
            t.revision >= s.revision && (n in t.revisions ==> n in s.revisions && t.revisions[n] == s.revisions[n])
  {
    hide Next;
    if es != [] {
      RevisionsAreImmutable(s, limit, digest, es[..|es| - 1], n);
      StoredIsNeverOverwritten(After(s, limit, digest, es[..|es| - 1]), limit, digest, es[|es| - 1]);
    }
  }

  lemma NextKeepsThePin(s: State, limit: nat, digest: string -> string, e: Event)
    requires s.pinned > 0 && s.pinned in s.revisions && !e.Pin?
    ensures var t := Next(s, limit, digest, e); t.pinned == s.pinned && s.pinned in t.revisions
  {
    hide RevisionData, Newer;
    if !e.Apply? {
      OnlyAppliesRecord(s, limit, digest, e);
    }
  }

  /** A revision present when pinned stays while it is pinned, in any store. */
  lemma {:induction false} PinnedRevisionStays(s: State, limit: nat, digest: string -> string, es: seq<Event>)
    requires s.pinned > 0 && s.pinned in s.revisions
    requires forall e :: e in es ==> !e.Pin?
    ensures var t := After(s, limit, digest, es); t.pinned == s.pinned && t.pinned in t.revisions
  {
    hide Next;
    if es != [] {
      PinnedRevisionStays(s, limit, digest, es[..|es| - 1]);
      NextKeepsThePin(After(s, limit, digest, es[..|es| - 1]), limit, digest, es[|es| - 1]);
    }
  }

  // ----- what a finished apply stores -----

  /**
   The revision of a finished apply is stored if and only if its number is free and it is pinned, or nothing is ever
   deleted, or fewer than `limit` stored revisions are newer.
   */
  lemma StoredIffFreeAndKept(s: State, limit: nat, r: Record)
    requires s.tf.Some?
    ensures var n := s.revision + 1;
            var t := Recorded(s, limit, r);
            && t.revision == n
            && (n in t.revisions && t.revisions[n] == RevisionData(n, r, s.tf.value) && n !in s.revisions <==>
                n !in s.revisions && (limit == 0 || n == s.pinned || |Newer(s.revisions.Keys, n)| < limit))
  {
    hide RevisionData;
    var n := s.revision + 1;
    assert Newer(s.revisions.Keys + {n}, n) == Newer(s.revisions.Keys, n);
    assert s.revisions[n := RevisionData(n, r, s.tf.value)].Keys == s.revisions.Keys + {n};
  }

  /** Two stores with one revision that an earlier project of the name has left, and a limit. */
  function Leftover(n: nat, d: Data, files: Data): State {
    State(map[n := d], Some(files), 0, 0, "")
  }

  /** A newer leftover: the first revision is stored and cleaned up again in the same call. */
  lemma NewerLeftoverPushesOut(d: Data, files: Data, r: Record)
    ensures var t := Recorded(Leftover(5, d, files), 1, r); t.revision == 1 && t.revisions == map[5 := d]
  {
    hide RevisionData;
    var m := map[5 := d][1 := RevisionData(1, r, files)];
    assert Newer(m.Keys, 1) == {5} && Newer(m.Keys, 5) == {};
  }

  /** A leftover of the same number: nothing is stored, and the number is used up. */
  lemma EqualLeftoverBlocks(d: Data, files: Data, r: Record)
    ensures var t := Recorded(Leftover(1, d, files), 10, r); t.revision == 1 && t.revisions == map[1 := d]
  {
  }

  // ----- the newest revisions -----

  /**
   Numbers run up to the counter, or to `past` where an earlier project has left some. Above `past` the newest are
   all there.
   */
  predicate Ranked(s: State, limit: nat, past: nat) {
    && (forall r :: r in s.revisions ==> 1 <= r && (r <= past || r <= s.revision))
    && (forall r :: r in Newest(limit, s.revision) && r > past ==> r in s.revisions)
  }

  /**
   The limit governs number `r` at counter `last`: above the leftovers always, below them once `limit` numbers have
   passed.
   */
  predicate Governed(r: nat, limit: nat, last: nat, past: nat) {
    r > past || last >= past + limit
  }

  /** Being among the newest `limit` stored is being one of the newest `limit` numbers. */
  lemma RankIsRecency(keys: set<nat>, limit: nat, last: nat, past: nat, r: nat)
    requires limit > 0 && r in keys && (forall k :: k in keys ==> 1 <= k <= last)
    requires forall k :: k in Newest(limit, last) && k > past ==> k in keys
    requires Governed(r, limit, last, past)
    ensures |Newer(keys, r)| < limit <==> r in Newest(limit, last)
  {
    if r in Newest(limit, last) {
      SubsetSize(Newer(keys, r), Interval(r, last));
    } else {
      assert forall k :: k in Newest(limit, last) ==> k > r && k > past;
      SubsetSize(Newest(limit, last), Newer(keys, r));
    }
  }

  /** What a cleanup leaves of such a store. */
  lemma CleanupKeepsTheNewest(m: map<nat, Data>, limit: nat, pinned: int, last: nat, past: nat)
    requires limit > 0 && forall k :: k in m ==> 1 <= k <= last
    requires forall k :: k in Newest(limit, last) && k > past ==> k in m
    ensures forall k :: Governed(k, limit, last, past) ==>
              (k in Cleaned(m, limit, pinned) <==> (k in m && k in Newest(limit, last)) || (k in m && k == pinned))
  {
    hide Newer, Newest;
    forall k | Governed(k, limit, last, past) && k in m
      ensures |Newer(m.Keys, k)| < limit <==> k in Newest(limit, last)
    {
      RankIsRecency(m.Keys, limit, last, past, k);
    }
  }

  lemma NewestOneMore(limit: nat, last: nat)
    requires limit > 0
    ensures last + 1 in Newest(limit, last + 1) && Newest(limit, last + 1) <= Newest(limit, last) + {last + 1}
  {
  }

  /**
   A recorded apply takes the next number and leaves exactly the newest revisions and the pin: of the numbers above the
   leftovers at once, of all numbers as soon as `limit` of them have passed the leftovers.
   */
  lemma ApplyKeepsTheNewest(s: State, limit: nat, past: nat, r: Record)
    requires limit > 0 && Ranked(s, limit, past) && s.tf.Some?
    ensures var t := Recorded(s, limit, r);
            && t.revision == s.revision + 1 && t.pinned == s.pinned
            && (forall k :: Governed(k, limit, t.revision, past) ==>
                  (k in t.revisions <==> k in Newest(limit, t.revision) || (k in s.revisions && k == s.pinned)))
            && Ranked(t, limit, past)
  {
    var n := s.revision + 1;
    NewestOneMore(limit, s.revision);
    if n > past {
      StoringAboveLeftovers(s, limit, past, r);
    } else {
      StoringBelowLeftovers(s, limit, past, r);
    }
  }

  lemma StoringAboveLeftovers(s: State, limit: nat, past: nat, r: Record)
    requires limit > 0 && Ranked(s, limit, past) && s.tf.Some? && s.revision + 1 > past
    ensures var t := Recorded(s, limit, r);
            && (forall k :: Governed(k, limit, t.revision, past) ==>
                  (k in t.revisions <==> k in Newest(limit, t.revision) || (k in s.revisions && k == s.pinned)))
            && Ranked(t, limit, past)
  {
    hide RevisionData, Cleaned, Newest;
    var n := s.revision + 1;
    NewestOneMore(limit, s.revision);
    var m := s.revisions[n := RevisionData(n, r, s.tf.value)];
    CleanupKeepsTheNewest(m, limit, s.pinned, n, past);
    CleanedIsPart(m, limit, s.pinned);
    AllNewestAreStored(m.Keys, limit, n, past);
  }

  lemma CleanedIsPart(m: map<nat, Data>, limit: nat, pinned: int)
    ensures Cleaned(m, limit, pinned).Keys <= m.Keys
  {
  }

  lemma AllNewestAreStored(keys: set<nat>, limit: nat, last: nat, past: nat)
    requires forall k :: k in Newest(limit, last) && k > past ==> k in keys
    ensures forall k :: k in Newest(limit, last) && Governed(k, limit, last, past) ==> k in keys
  {
  }

  lemma StoringBelowLeftovers(s: State, limit: nat, past: nat, r: Record)
    requires limit > 0 && Ranked(s, limit, past) && s.tf.Some? && s.revision + 1 <= past
    ensures var t := Recorded(s, limit, r);
            && (forall k :: Governed(k, limit, t.revision, past) ==>
                  k !in t.revisions && k !in Newest(limit, t.revision))
            && Ranked(t, limit, past)
  {
    hide RevisionData, Kept;
  }

  // ----- whole histories -----

  lemma RestoringKeepsRevisions(s: State, limit: nat, digest: string -> string, past: nat, e: Event)
    requires Ranked(s, limit, past) && !e.Apply?
    ensures Ranked(Next(s, limit, digest, e), limit, past)
  {
    hide Next, Newest;
    OnlyAppliesRecord(s, limit, digest, e);
  }

  lemma NextStaysRanked(s: State, limit: nat, digest: string -> string, past: nat, e: Event)
    requires limit > 0 && Ranked(s, limit, past)
    ensures Ranked(Next(s, limit, digest, e), limit, past)
  {
    if e.Apply? {
      hide Recorded, Newest;
      var applied := if e.record.status == SUCCEEDED then s.(applied := e.record.appliedHash) else s;
      if s.tf.Some? {
        ApplyKeepsTheNewest(applied, limit, past, e.record);
      } else {
        NothingToRecord(applied, limit, e.record);
      }
    } else {
      RestoringKeepsRevisions(s, limit, digest, past, e);
    }
  }

  lemma NothingToRecord(s: State, limit: nat, r: Record)
    requires s.tf.None?
    ensures Recorded(s, limit, r) == s
  {
  }

  /** In every history, from a start with any leftovers, the newest numbers above them are stored. */
  lemma {:induction false} RunStaysRanked(s: State, limit: nat, digest: string -> string, past: nat, es: seq<Event>)
    requires limit > 0 && Ranked(s, limit, past)
    ensures Ranked(After(s, limit, digest, es), limit, past)
  {
    hide Next, Ranked;
    if es != [] {
      RunStaysRanked(s, limit, digest, past, es[..|es| - 1]);
      NextStaysRanked(After(s, limit, digest, es[..|es| - 1]), limit, digest, past, es[|es| - 1]);
    }
  }

  /** The governed part of the store is exactly the newest. */
  ghost predicate IsNewest(s: State, limit: nat, past: nat) {
    forall k :: Governed(k, limit, s.revision, past) ==> (k in s.revisions <==> k in Newest(limit, s.revision))
  }

  lemma NextStaysNewest(s: State, limit: nat, digest: string -> string, past: nat, e: Event)
    requires limit > 0 && Ranked(s, limit, past) && IsNewest(s, limit, past) && s.pinned <= 0
    requires e.Pin? ==> e.n <= 0
    ensures var t := Next(s, limit, digest, e); t.pinned <= 0 && IsNewest(t, limit, past)
  {
    if e.Apply? {
      hide Recorded, Newest, Governed;
      var applied := if e.record.status == SUCCEEDED then s.(applied := e.record.appliedHash) else s;
      if s.tf.Some? {
        ApplyKeepsTheNewest(applied, limit, past, e.record);
      } else {
        NothingToRecord(applied, limit, e.record);
      }
      assert forall k :: k in s.revisions ==> k != s.pinned;
    } else {
      hide LoadSnapshot, Newest, Governed;
      OnlyAppliesRecord(s, limit, digest, e);
    }
  }

  /**
   While nothing is pinned, and whatever an earlier project has left under numbers up to `past`: above them the store is
   exactly the newest min(limit, created) revisions, and it is that altogether once `limit` numbers have passed them.
   */
  lemma {:induction false} UnpinnedStoreIsTheNewest(leftover: map<nat, Data>, past: nat, limit: nat,
                                                    digest: string -> string, es: seq<Event>)
    requires limit > 0 && forall r :: r in leftover ==> 1 <= r <= past
    requires forall e :: e in es && e.Pin? ==> e.n <= 0
    ensures var t := After(State(leftover, None, 0, 0, ""), limit, digest, es);
            t.pinned <= 0 && IsNewest(t, limit, past)
  {
    var s := State(leftover, None, 0, 0, "");
    if es != [] {
      hide Next, Ranked, IsNewest;
      var before := After(s, limit, digest, es[..|es| - 1]);
      StartIsRanked(leftover, past, limit);
      RunStaysRanked(s, limit, digest, past, es[..|es| - 1]);
      UnpinnedStoreIsTheNewest(leftover, past, limit, digest, es[..|es| - 1]);
      NextStaysNewest(before, limit, digest, past, es[|es| - 1]);
    }
  }

  lemma StartIsRanked(leftover: map<nat, Data>, past: nat, limit: nat)
    requires forall r :: r in leftover ==> 1 <= r <= past
    ensures Ranked(State(leftover, None, 0, 0, ""), limit, past)
  {
  }

  /** Without leftovers the store is the newest min(limit, created) revisions and nothing else. */
  lemma FreshStoreIsTheNewest(limit: nat, digest: string -> string, es: seq<Event>)
    requires limit > 0 && forall e :: e in es && e.Pin? ==> e.n <= 0
    ensures var t := After(State(map[], None, 0, 0, ""), limit, digest, es);
            t.revisions.Keys == Newest(limit, t.revision)
  {
    hide Next;
    UnpinnedStoreIsTheNewest(map[], 0, limit, digest, es);
    StartIsRanked(map[], 0, limit);
    RunStaysRanked(State(map[], None, 0, 0, ""), limit, digest, 0, es);
  }

  // ----- pinning -----

  /** What a recorded revision holds. */
  lemma RecordedData(s: State, limit: nat, r: Record)
    requires s.tf.Some? && s.revision + 1 !in s.revisions
    ensures var n := s.revision + 1;
            var t := Finished(s, limit, r);
            t.revision == n && (n in t.revisions ==> t.revisions[n] == RevisionData(n, r, s.tf.value))
  {
    hide RevisionData, Kept;
  }

  lemma RevisionNamesItsHash(n: nat, r: Record, files: Data)
    ensures var d := RevisionData(n, r, files); "appliedHash" in d && d["appliedHash"] == r.appliedHash
  {
    assert !(SNAPSHOT_PREFIX <= "appliedHash") by {
      MetadataIsNoSnapshot(n, r, "appliedHash");
    }
  }

  lemma RecordedLoads(revisions: map<nat, Data>, n: nat, r: Record, files: Data)
    requires n in revisions && revisions[n] == RevisionData(n, r, files) && files != map[]
    ensures LoadSnapshot(revisions, n) == if r.status == SUCCEEDED then Snapshot(files, r.appliedHash) else NoSnapshot
  {
    hide RevisionData, SnapshotOf;
    SnapshotRoundTrip(n, r, files);
    RevisionNamesItsHash(n, r, files);
  }

  /**
   However much later a succeeded revision is pinned, a reconcile of the pin leaves the recorded data in the `-tf`
   ConfigMap if and only if the pinned hash is not the last applied one or the data is there already. A failed revision
   has no snapshot and changes nothing.
   */
  lemma PinRestoresUnlessLastApplied(s: State, limit: nat, digest: string -> string, r: Record, es: seq<Event>)
    requires s.tf.Some? && s.tf.value != map[] && s.revision + 1 !in s.revisions
    ensures var n := s.revision + 1;
            var t := After(Finished(s, limit, r), limit, digest, es).(pinned := n);
            n in t.revisions ==>
              if r.status == SUCCEEDED then
                Restored(t, digest).tf == s.tf <==> t.applied != PinHash(digest, n, r.appliedHash) || t.tf == s.tf
              else LoadSnapshot(t.revisions, n).NoSnapshot? && Restored(t, digest) == t
  {
    var n := s.revision + 1;
    var t := After(Finished(s, limit, r), limit, digest, es);
    RecordedData(s, limit, r);
    RevisionsAreImmutable(Finished(s, limit, r), limit, digest, es, n);
    hide RevisionData, Finished, After, LoadSnapshot;
    if n in t.revisions {
      RecordedLoads(t.revisions, n, r, s.tf.value);
    }
  }

  /** After another revision was pinned and applied, or one with another hash, a pin always restores its own. */
  lemma PinningAnotherRestores(s: State, limit: nat, digest: string -> string, r: Record, es: seq<Event>, m: nat,
                               hash: string)
    requires forall a, b :: digest(a) == digest(b) ==> a == b
    requires s.tf.Some? && s.tf.value != map[] && s.revision + 1 !in s.revisions && r.status == SUCCEEDED
    requires After(Finished(s, limit, r), limit, digest, es).applied == PinHash(digest, m, hash)
    ensures var n := s.revision + 1;
            var t := After(Finished(s, limit, r), limit, digest, es).(pinned := n);
            n in t.revisions && t.tf != s.tf ==> (Restored(t, digest).tf == s.tf <==> m != n || hash != r.appliedHash)
  {
    hide Finished, After, Restored, PinHash;
    PinRestoresUnlessLastApplied(s, limit, digest, r, es);
    PinHashShows(digest, m, hash, s.revision + 1, r.appliedHash);
  }

  lemma AfterOneMore(s: State, limit: nat, digest: string -> string, es: seq<Event>, e: Event)
    ensures After(s, limit, digest, es + [e]) == Next(After(s, limit, digest, es), limit, digest, e)
  {
    assert (es + [e])[..|es|] == es;
  }

  /** Revision 1 alone, made from these files. */
  function OneRevision(files: Data, r: Record, tf: Data, pinned: int, applied: string): State {
    State(map[1 := RevisionData(1, r, files)], Some(tf), 1, pinned, applied)
  }

  lemma FirstRevision(files: Data, r: Record)
    requires r.status == SUCCEEDED
    ensures Finished(State(map[], Some(files), 0, 0, ""), 10, r) == OneRevision(files, r, files, 0, r.appliedHash)
  {
    hide RevisionData;
    var m := map[][1 := RevisionData(1, r, files)];
    assert Newer(m.Keys, 1) == {};
  }

  /** Unless its hash is the last applied, the pin restores the files; either way they are there. */
  lemma PinnedFilesAreThere(files: Data, r: Record, digest: string -> string)
    requires files != map[] && r.status == SUCCEEDED
    ensures var s := OneRevision(files, r, files, 1, r.appliedHash);
            && Restored(s, digest) == s
            && PinApplied(s, digest) == OneRevision(files, r, files, 1, PinHash(digest, 1, r.appliedHash))
  {
    hide RevisionData, LoadSnapshot;
    RecordedLoads(OneRevision(files, r, files, 1, r.appliedHash).revisions, 1, r, files);
  }

  lemma OtherFilesStay(files: Data, other: Data, r: Record, digest: string -> string)
    requires files != map[] && r.status == SUCCEEDED
    ensures var s := OneRevision(files, r, other, 1, PinHash(digest, 1, r.appliedHash)); Restored(s, digest) == s
  {
    hide RevisionData, LoadSnapshot;
    RecordedLoads(OneRevision(files, r, other, 1, PinHash(digest, 1, r.appliedHash)).revisions, 1, r, files);
  }

  /** Revision 1 is made, pinned and applied. */
  function PinOnce(r: Record): seq<Event> {
    [Apply(r)] + [Pin(1)] + [Restore] + [PinSucceeds]
  }

  /** It is unpinned, the files are rewritten from the spec, and it is pinned again. */
  function PinAgain(r: Record, other: Data): seq<Event> {
    PinOnce(r) + [Pin(0)] + [WriteFiles(other)] + [Pin(1)] + [Restore]
  }

  lemma AfterPinOnce(files: Data, r: Record, digest: string -> string)
    requires files != map[] && r.status == SUCCEEDED
    ensures After(State(map[], Some(files), 0, 0, ""), 10, digest, PinOnce(r)) ==
            OneRevision(files, r, files, 1, PinHash(digest, 1, r.appliedHash))
  {
    hide Finished, Restored, PinApplied, RevisionData;
    var s := State(map[], Some(files), 0, 0, "");
    FirstRevision(files, r);
    PinnedFilesAreThere(files, r, digest);
    AfterOneMore(s, 10, digest, [], Apply(r));
    assert [] + [Apply(r)] == [Apply(r)];
    AfterOneMore(s, 10, digest, [Apply(r)], Pin(1));
    AfterOneMore(s, 10, digest, [Apply(r)] + [Pin(1)], Restore);
    AfterOneMore(s, 10, digest, [Apply(r)] + [Pin(1)] + [Restore], PinSucceeds);
  }

  /**
   The exception is real: pinned again after the files were rewritten, revision 1 is not restored, for the last applied
   hash is still the pinned one.
   */
  lemma PinningAgainMayKeepOtherFiles(files: Data, other: Data, r: Record, digest: string -> string)
    requires files != map[] && other != files && r.status == SUCCEEDED
    ensures var t := After(State(map[], Some(files), 0, 0, ""), 10, digest, PinAgain(r, other));
            1 in t.revisions && t.revisions[1] == RevisionData(1, r, files) && t.pinned == 1 && t.tf == Some(other)
  {
    hide After, Restored, PinOnce, RevisionData;
    var s := State(map[], Some(files), 0, 0, "");
    AfterPinOnce(files, r, digest);
    OtherFilesStay(files, other, r, digest);
    AfterOneMore(s, 10, digest, PinOnce(r), Pin(0));
    AfterOneMore(s, 10, digest, PinOnce(r) + [Pin(0)], WriteFiles(other));
    AfterOneMore(s, 10, digest, PinOnce(r) + [Pin(0)] + [WriteFiles(other)], Pin(1));
    AfterOneMore(s, 10, digest, PinOnce(r) + [Pin(0)] + [WriteFiles(other)] + [Pin(1)], Restore);
  }
}
