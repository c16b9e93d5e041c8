/** A generation worker without its lease: how each stage ends, what a failed beat tells it, and what it can no longer
    do (packages/domain/pipeline.py:41-282). */
module Fences {
  import opened Basics
  import opened Packages
  import opened PackageStore
  import opened Pipeline
  import opened Generations
  import PipelineRuns

  // ----- stages without the lease -----

  /** The stages that look at the lease, or write under it. */
  predicate AtLease(phase: Phase) {
    || phase == CheckContext || phase == CheckArtifact || Stages(phase)
    || phase == Finalizing || phase.Rejecting?
  }

  predicate Stages(phase: Phase) {
    phase == StageContext || phase == StageDraft || phase == StageArtifact || phase == StageAts
  }

  /** Tables and objects as they were; the worker has given up, or files a failure. */
  predicate Untouched(s: Shared, n: Shared) {
    && n.tables == s.tables && n.objects == s.objects
    && n.worker.owner == s.worker.owner && n.worker.generation == s.worker.generation
    && (n.worker.phase == LeaseGone || n.worker.phase.Stopping?)
  }

  lemma NothingStaged(c: Setting, s: Shared, id: VersionId, now: nat, fields: map<Field, string>, next: Phase,
                      report: string)
    requires !Holds(s.tables, id, s.worker.owner, s.worker.generation, now)
    ensures StageStep(c, s, id, now, fields, next, report) == s.(worker := s.worker.(phase :=
      if id in s.tables.versions && s.tables.versions[id].status == Generating then LeaseGone else Stopping(report)))
  {
  }

  lemma NothingFiled(c: Setting, s: Shared, id: VersionId, now: nat, report: string)
    requires !Holds(s.tables, id, s.worker.owner, s.worker.generation, now)
    ensures FailStep(c, s, id, now, report) == s.(worker := s.worker.(phase := Finished(Failed), beating := false))
    ensures Untouched(s, FinalStep(c, s, id, now, report)) && Untouched(s, RejectStep(c, s, id, now, report))
    ensures IsBundle(BundleOf(s.worker)) ==>
      (FinalStep(c, s, id, now, report).worker.phase == LeaseGone <==>
         id in s.tables.versions && s.tables.versions[id].status == Generating)
    ensures !Blank(report) ==>
      (RejectStep(c, s, id, now, report).worker.phase == LeaseGone <==>
         id in s.tables.versions && s.tables.versions[id].status == Generating)
  {
  }

  /** Without the lease a stage stages nothing. The worker gives up on it if the version is still under way, and files
      a failure if it is not. */
  lemma LostAtStage(c: Setting, s: Shared, id: VersionId, now: nat, i: Input)
    requires !Holds(s.tables, id, s.worker.owner, s.worker.generation, now) && Stages(s.worker.phase)
    ensures Untouched(s, WorkStep(c, s, id, now, i))
    ensures WorkStep(c, s, id, now, i).worker.phase == LeaseGone <==>
      id in s.tables.versions && s.tables.versions[id].status == Generating
  {
    if s.worker.phase == StageContext {
      NothingStaged(c, s, id, now, ContextFields(s.worker), StageDraft, i.report);
    } else if s.worker.phase == StageDraft {
      var drafted := s.worker.(content := i.text, trail := i.second);
      NothingStaged(c, s.(worker := drafted), id, now, DraftFields(drafted),
        if c.passes(i.second) then CheckArtifact else Rejecting(i.report), i.report);
    } else if s.worker.phase == StageArtifact {
      NothingStaged(c, s, id, now, ArtifactFields(s.worker), StageAts, i.report);
    } else {
      var checked := s.worker.(ats := i.text);
      NothingStaged(c, s.(worker := checked), id, now, AtsFields(checked),
        if c.passes(i.text) then Finalizing else Rejecting(i.report), i.report);
    }
  }

  /** What it files is as it must be. */
  predicate Filing(w: Worker) {
    (w.phase == Finalizing && IsBundle(BundleOf(w))) || (w.phase.Rejecting? && !Blank(w.phase.report))
  }

  /** Nor does it file a bundle or a rejection, or go on to write an object. */
  lemma LostAtEnd(c: Setting, s: Shared, id: VersionId, now: nat, i: Input)
    requires !Holds(s.tables, id, s.worker.owner, s.worker.generation, now)
    requires AtLease(s.worker.phase) && !Stages(s.worker.phase)
    ensures Untouched(s, WorkStep(c, s, id, now, i))
    ensures Filing(s.worker) ==>
      (WorkStep(c, s, id, now, i).worker.phase == LeaseGone <==>
         id in s.tables.versions && s.tables.versions[id].status == Generating)
  {
    if s.worker.phase == Finalizing {
      NothingFiled(c, s, id, now, i.report);
    } else if s.worker.phase.Rejecting? {
      NothingFiled(c, s, id, now, s.worker.phase.report);
    } else {
      NoCheckPassed(s, id, now, if s.worker.phase == CheckContext then WriteContext else WriteArtifact);
    }
  }

  lemma NoCheckPassed(s: Shared, id: VersionId, now: nat, next: Phase)
    requires !Holds(s.tables, id, s.worker.owner, s.worker.generation, now)
    ensures Untouched(s, CheckStep(s, id, now, next))
  {
  }

  /** A failure without the lease is refused too, and the worker is through. */
  lemma LostIsOver(c: Setting, s: Shared, id: VersionId, now: nat, i: Input)
    requires !Holds(s.tables, id, s.worker.owner, s.worker.generation, now)
    requires s.worker.phase == LeaseGone || s.worker.phase.Stopping?
    ensures WorkStep(c, s, id, now, i) == s.(worker := s.worker.(phase := Finished(Failed), beating := false))
  {
    NothingFiled(c, s, id, now, if s.worker.phase.Stopping? then s.worker.phase.report else i.report);
  }

  /** So a worker that has lost its lease is through after two more stages, and everything is as if it had stopped right
      there. */
  lemma Disturbed(c: Setting, s: Shared, m: Shared, n: Shared, id: VersionId, now: nat, later: nat, i: Input, j: Input)
    requires !Holds(s.tables, id, s.worker.owner, s.worker.generation, now) && now <= later
    requires AtLease(s.worker.phase) && m == WorkStep(c, s, id, now, i) && n == WorkStep(c, m, id, later, j)
    ensures n.tables == s.tables && n.objects == s.objects
    ensures n.worker.phase == Finished(Failed) && !n.worker.beating
  {
    assert Untouched(s, m) by {
      if Stages(s.worker.phase) {
        LostAtStage(c, s, id, now, i);
      } else {
        LostAtEnd(c, s, id, now, i);
      }
    }
    LostIsOver(c, m, id, later, j);
  }

  /** A worker whose heartbeat broke still files its failure, if the lease is in fact its own. */
  lemma BrokenStillFiles(c: Setting, s: Shared, id: VersionId, now: nat, i: Input)
    requires s.worker.phase == LeaseGone && s.worker.broken && !Blank(i.report)
    requires Holds(s.tables, id, s.worker.owner, s.worker.generation, now)
    ensures EndsFailed(s, WorkStep(c, s, id, now, i), id, map[], i.report)
  {
    Filed(c, s, id, now, i.report);
  }

  // ----- an object that is already there -----

  /** A write that would overwrite is a failure, and what is stored stays. */
  lemma WriteTaken(c: Setting, s: Shared, id: VersionId, now: nat, later: nat, i: Input, j: Input)
    requires s.worker.phase == WriteContext || s.worker.phase == WriteArtifact
    requires Locator(s.worker, if s.worker.phase == WriteContext then "context.json" else "cv.pdf") in s.objects
    requires Holds(s.tables, id, s.worker.owner, s.worker.generation, later) && !Blank(i.report)
    ensures var n := WorkStep(c, WorkStep(c, s, id, now, i), id, later, j);
      n.objects == s.objects && EndsFailed(s, n, id, map[], i.report)
  {
    assert WorkStep(c, s, id, now, i) == s.(worker := s.worker.(phase := Stopping(i.report)));
    Filed(c, s.(worker := s.worker.(phase := Stopping(i.report))), id, later, i.report);
  }

  lemma Filed(c: Setting, s: Shared, id: VersionId, now: nat, report: string)
    requires Holds(s.tables, id, s.worker.owner, s.worker.generation, now) && !Blank(report)
    ensures FailStep(c, s, id, now, report).objects == s.objects
    ensures EndsFailed(s, FailStep(c, s, id, now, report), id, map[], report)
  {
    assert Granted(s.tables, c.suite, now, FailVersion(id, s.worker.owner, s.worker.generation, report));
    assert s.tables.versions[id].fields + map[] == s.tables.versions[id].fields;
  }

  // ----- heartbeats -----

  /** A beat under the lease gives it sixty seconds more and does nothing else. */
  lemma BeatRenews(c: Setting, s: Shared, id: VersionId, now: nat)
    requires s.worker.beating && !s.worker.lost
    requires Holds(s.tables, id, s.worker.owner, s.worker.generation, now)
    ensures BeatStep(c, s, id, now) == s.(tables := s.tables.(versions :=
      s.tables.versions[id := s.tables.versions[id].(expires := now + 60)]))
  {
  }

  /** One without it tells the worker, and does nothing else. */
  lemma BeatTells(c: Setting, s: Shared, id: VersionId, now: nat)
    requires s.worker.beating && !s.worker.lost
    requires !Holds(s.tables, id, s.worker.owner, s.worker.generation, now)
    ensures BeatStep(c, s, id, now) == s.(worker := s.worker.(lost := true))
  {
  }

  /** Told, and not in the middle of a write. */
  predicate Told(w: Worker) {
    w.lost && w.phase != WriteContext && w.phase != WriteArtifact
  }

  lemma ToldStep(c: Setting, s: Shared, id: VersionId, now: nat, i: Input)
    requires Told(s.worker)
    ensures Told(WorkStep(c, s, id, now, i).worker) && WorkStep(c, s, id, now, i).objects == s.objects
  {
  }

  lemma ToldNext(c: Setting, w: PipelineRuns.World, s: PipelineRuns.Step, id: VersionId)
    requires id in w.workers && id in w.tables.versions && Told(w.workers[id])
    ensures id in PipelineRuns.Next(c, w, s).workers && id in PipelineRuns.Next(c, w, s).tables.versions
    ensures Told(PipelineRuns.Next(c, w, s).workers[id])
    ensures s.Work? && s.id == id ==> PipelineRuns.Next(c, w, s).objects == w.objects
  {
    PipelineRuns.NextMoves(c, w, s, id);
    if s.Work? && s.id == id {
      ToldStep(c, PipelineRuns.Split(w, id), id, w.now, s.input);
    }
  }

  /** Over any run, whatever anyone does: a worker that has been told is told for good, and writes no object any
      more. */
  lemma {:induction false} ToldForGood(c: Setting, w: PipelineRuns.World, steps: seq<PipelineRuns.Step>, id: VersionId)
    requires id in w.workers && id in w.tables.versions && Told(w.workers[id])
    ensures var n := PipelineRuns.RunFrom(c, w, steps);
      id in n.workers && id in n.tables.versions && Told(n.workers[id])
    ensures forall i :: PipelineRuns.Next(c, PipelineRuns.RunFrom(c, w, steps), PipelineRuns.Work(id, i)).objects
                     == PipelineRuns.RunFrom(c, w, steps).objects
  {
    if steps != [] {
      ToldForGood(c, w, steps[..|steps| - 1], id);
      ToldNext(c, PipelineRuns.RunFrom(c, w, steps[..|steps| - 1]), steps[|steps| - 1], id);
    }
    forall i ensures PipelineRuns.Next(c, PipelineRuns.RunFrom(c, w, steps), PipelineRuns.Work(id, i)).objects
                  == PipelineRuns.RunFrom(c, w, steps).objects
    {
      ToldNext(c, PipelineRuns.RunFrom(c, w, steps), PipelineRuns.Work(id, i), id);
    }
  }

  // ----- recovery -----

  /** A row claimed by recovery is failed under the report, its bundle kept, under a generation that the old worker
      does not have; and that is what the claiming transaction does. */
  lemma RecoveredMeans(t: Tables, current: Suite, now: nat, id: VersionId, report: string)
    requires Claimable(t, id, now) && !Blank(report)
    ensures var v, n := t.versions[id], RecoveredRow(t.versions[id], true, report);
      && n.status == Failed && n.generation == v.generation + 1 && n.fields == v.fields[FailureReport := report]
      && n.package == v.package && n.number == v.number && n.owner == v.owner && n.expires == v.expires
      && Commit(t, current, now, ClaimExpired(id, report)) == t.(versions := t.versions[id := n])
      && RecoveredRow(v, false, report) == v
  {
    assert Granted(t, current, now, ClaimExpired(id, report));
  }
}
