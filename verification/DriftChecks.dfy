/** What a finished drift check says of the project. */
module DriftChecks {
  import opened Wrappers
  import opened Text
  import opened PlanLog
  import opened Api
  import opened Protocol
  import opened Rules
  import opened RulesHold

  /** One of the two sentences that tell of no changes. */
  predicate TellsNoChanges(line: string) {
    || TrimSpace(line) == "No changes. Your infrastructure matches the configuration."
    || TrimSpace(line) == "No changes. Infrastructure is up-to-date."
  }

  predicate TellsPlan(line: string) {
    "Plan:" <= TrimSpace(line)
  }

  /** The line is the first to tell of either. */
  predicate FirstToTell(lines: seq<string>, i: int) {
    && 0 <= i < |lines| && (TellsPlan(lines[i]) || TellsNoChanges(lines[i]))
    && forall k :: 0 <= k < i ==> !TellsPlan(lines[k]) && !TellsNoChanges(lines[k])
  }

  lemma SummaryOfLine(line: string)
    ensures SummaryLine(line).Some? <==> TellsPlan(line) || TellsNoChanges(line)
    ensures TellsPlan(line) ==> SummaryLine(line) == Some(TrimSpace(line)) && SummaryLine(line) != Some("No changes.")
    ensures TellsNoChanges(line) && !TellsPlan(line) ==> SummaryLine(line) == Some("No changes.")
  {
    hide TrimSpace;
    if TellsPlan(line) {
      assert TrimSpace(line)[0] == "Plan:"[0] && "No changes."[0] == 'N';
    }
  }

  lemma {:induction false} SummaryIsFirst(lines: seq<string>)
    ensures FirstSummary(lines).None? <==>
            forall i :: 0 <= i < |lines| ==> !TellsPlan(lines[i]) && !TellsNoChanges(lines[i])
    ensures FirstSummary(lines).Some? ==>
              exists i :: 0 <= i < |lines| && FirstToTell(lines, i) && FirstSummary(lines) == SummaryLine(lines[i])
  {
    hide SummaryLine, TellsPlan, TellsNoChanges;
    if lines != [] {
      SummaryOfLine(lines[0]);
      if SummaryLine(lines[0]).Some? {
        assert FirstToTell(lines, 0);
      } else {
        SummaryIsFirst(lines[1..]);
        assert forall i :: 0 < i < |lines| ==> lines[i] == lines[1..][i - 1];
        if FirstSummary(lines[1..]).Some? {
          var rest := lines[1..];
          var i :| 0 <= i < |rest| && FirstToTell(rest, i) && FirstSummary(rest) == SummaryLine(rest[i]);
          assert FirstToTell(lines, i + 1);
        }
      }
    }
  }

  /** The first line to tell tells of a plan. */
  predicate PlanToldAt(lines: seq<string>, i: int) {
    FirstToTell(lines, i) && TellsPlan(lines[i])
  }

  lemma NoPlanTold(lines: seq<string>, i: int)
    requires FirstToTell(lines, i) && !TellsPlan(lines[i])
    ensures forall j :: !PlanToldAt(lines, j)
  {
    hide TellsPlan, TellsNoChanges;
  }

  lemma SummaryTells(lines: seq<string>)
    ensures var summary := FirstSummary(lines).GetOr("");
            summary != "" && summary != "No changes." <==> exists i :: PlanToldAt(lines, i)
  {
    hide SummaryLine, TellsPlan, TellsNoChanges, FirstSummary;
    SummaryIsFirst(lines);
    if FirstSummary(lines).Some? {
      var i :| 0 <= i < |lines| && FirstToTell(lines, i) && FirstSummary(lines) == SummaryLine(lines[i]);
      SummaryOfLine(lines[i]);
      PlanIsNotEmpty(lines[i]);
      if TellsPlan(lines[i]) {
        assert PlanToldAt(lines, i);
      } else {
        NoPlanTold(lines, i);
      }
    }
  }

  /** A log shows drift if and only if the first of its lines that tells of a plan or of no changes tells of a plan. */
  lemma ShowsDriftExactly(logs: string, lines: seq<string>)
    requires lines == Lines(logs)
    ensures ShowsDrift(logs) <==> exists i :: PlanToldAt(lines, i)
  {
    hide PlanToldAt, SummaryLine;
    SummaryTells(lines);
    assert ExtractPlanSummary(logs) == FirstSummary(lines).GetOr("");
  }

  lemma PlanIsNotEmpty(line: string)
    ensures TellsPlan(line) ==> TrimSpace(line) != ""
  {
    hide TrimSpace;
  }

  /** A finished and readable drift check decides mark, phase, time of the check and, under keepInSync, a new apply. */
  lemma CheckDecides(w: World, id: Key, o: Obs)
    requires ValidObs(w, id, o) && id in w.projects && DriftEnds(w, id, o, Success) && o.readable
    ensures id in Reconcile(w, id, o).projects
    ensures var d, p, s := FirstDrift(o.listing, id).value, w.projects[id], Reconcile(w, id, o).projects[id].status;
            var lines := Lines(w.jobs[d].logs);
            var shows := exists i :: PlanToldAt(lines, i);
            && (s.driftDetected <==> shows)
            && (!shows ==> s.phase == Succeeded)
            && s.lastDriftCheck == Some(o.now)
            && s.lastAppliedHash == (if shows && p.spec.keepInSync then "" else o.hash)
            && Reconcile(w, id, o).jobs == w.jobs - {d}
  {
    hide Reconcile, ValidObs, Steered, PlanToldAt, Lines, ShowsDrift, FirstDrift, JobsFollow,
         PhaseOfSteered, ProjectAfter, StatusAfter, PullsAfter, Writes, PhaseAfter, Drifted, Repairs, ChecksDrift;
    var d := FirstDrift(o.listing, id).value;
    ShowsDriftExactly(w.jobs[d].logs, Lines(w.jobs[d].logs));
    ReconcileFollowsRules(w, id, o);
    CheckedRules(w, id, o);
    CheckedJobs(w, id, o);
  }

  lemma CheckedRules(w: World, id: Key, o: Obs)
    requires ValidObs(w, id, o) && id in w.projects && DriftEnds(w, id, o, Success) && o.readable
    ensures var p := ProjectAfter(w, id, o, PhaseAfter(w, id, o));
            var shows := ShowsDrift(w.jobs[FirstDrift(o.listing, id).value].logs);
            && (p.status.driftDetected <==> shows) && p.status.lastDriftCheck == Some(o.now)
            && (!shows ==> p.status.phase == Succeeded)
            && p.status.lastAppliedHash == (if shows && w.projects[id].spec.keepInSync then "" else o.hash)
  {
    hide ValidObs, Steered, ShowsDrift, FirstDrift, MayRun, Reviews, RecordsPin, PhaseAfter, StatusAfter,
         PhaseOfSteered;
    OnlySteered(w, id, o);
    AppliedFlags(w, id, o);
    InSyncPhase(w, id, o);
    AppliedStatusRule(w, id, o, PhaseOfSteered(w, id, o));
  }

  lemma CheckedJobs(w: World, id: Key, o: Obs)
    requires ValidObs(w, id, o) && id in w.projects && DriftEnds(w, id, o, Success)
    requires JobsFollow(w, id, o, Reconcile(w, id, o).jobs)
    ensures Reconcile(w, id, o).jobs == w.jobs - {FirstDrift(o.listing, id).value}
  {
    hide Reconcile, ValidObs, Steered, FirstDrift, MayRun, Reviews, Plans, Wants, Clears;
    OnlySteered(w, id, o);
    AppliedFlags(w, id, o);
    DriftIsOurs(w, id, o);
  }
}
