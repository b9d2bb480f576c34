/** A pinned project runs a Job only for a revision that has a snapshot. */
module Pins {
  import opened Api
  import opened Protocol
  import opened Moves
  import opened Traces
  import Revisions

  /** Jobs of deletion and force-unlock come before the pin is looked at. */
  predicate IsForPin(k: Kind) {
    !k.ForceUnlock? && !k.Destroy?
  }

  lemma StartedForPin(b: Local, id: Key, others: map<Key, Project>, o: Obs, k: Kind)
    requires MayStart(b, id, others, o, k) && b.p.spec.pinnedRevision > 0 && IsForPin(k)
    ensures k == Apply(Prefix(o.pinHash)) && PinnedHash(b.p, o).Some? && b.p.status.lastAppliedHash != o.pinHash
  {
    hide UpstreamsReady, LockFree, MayApply, NoDriftJob, Revisions.LoadSnapshot;
  }

  /**
   While a revision is pinned, the only Job that a reconcile creates beside those of deletion and force-unlock is the
   apply Job of that revision, and only if the revision is stored, has a snapshot and is not the last applied one.
   */
  lemma PinStartsOnlyItsSnapshot(w: World, id: Key, o: Obs)
    requires ValidObs(w, id, o) && id in w.projects && w.projects[id].spec.pinnedRevision > 0
    ensures forall j :: IsNew(j, w.jobs, Reconcile(w, id, o).jobs) && IsForPin(j.kind) ==>
              && j == JobId(id, Apply(Prefix(o.pinHash))) && w.projects[id].status.lastAppliedHash != o.pinHash
              && Revisions.LoadSnapshot(o.revisions, w.projects[id].spec.pinnedRevision).Snapshot?
  {
    hide LocalStep, ValidObs, Makes, MayStart, KillActive, ClosedPR, Revisions.LoadSnapshot;
    var b, v := ReconcileMoves(w, id, o);
    SettlingShrinks(Loaded(w, id), id, o, b);
    MoveJobs(b, id, w.projects, o, v, Loaded(Reconcile(w, id, o), id));
    if v.Start? && IsForPin(v.kind) {
      StartedForPin(b, id, w.projects, o, v.kind);
    }
  }

  /** So a failed revision, recorded with any files, never leads to a Job of the pin. */
  lemma FailedRevisionStartsNothing(w: World, id: Key, o: Obs, r: Revisions.Record, files: Revisions.Data, j: JobId)
    requires ValidObs(w, id, o) && id in w.projects && w.projects[id].spec.pinnedRevision > 0
    requires var n := w.projects[id].spec.pinnedRevision;
             n in o.revisions && o.revisions[n] == Revisions.RevisionData(n, r, files)
    requires r.status != Revisions.SUCCEEDED && IsForPin(j.kind)
    ensures !IsNew(j, w.jobs, Reconcile(w, id, o).jobs)
  {
    hide Reconcile, ValidObs, Revisions.RevisionData, Revisions.SnapshotOf;
    PinStartsOnlyItsSnapshot(w, id, o);
    Revisions.SnapshotRoundTrip(w.projects[id].spec.pinnedRevision, r, files);
  }
}
