/** The objects recovery lists as orphans (packages/domain/pipeline.py:283-305; the recover command in
    apps/cli/package_cmd.py:652-671 calls them inert): exactly which of them a row can still come to name. */
module Orphans {
  import opened Basics
  import opened Packages
  import opened PackageStore
  import opened Pipeline
  import opened PipelineRuns

  /** The two objects a generation writes. */
  datatype Part = ContextPart | ArtifactPart

  function NameOf(part: Part): string {
    if part == ContextPart then CONTEXT else ARTIFACT
  }

  function FieldOf(part: Part): Field {
    if part == ContextPart then ContextLocator else ArtifactLocator
  }

  function LocatorOf(v: Version, part: Part): string {
    ObjectLocator(v.package, v.number, 1, NameOf(part))
  }

  /** The worker has stored this object and not yet recorded where. */
  predicate Recording(p: Phase, part: Part) {
    if part == ContextPart then p == ReadContext || p == StageContext else p == ReadArtifact || p == StageArtifact
  }

  predicate Past(p: Phase, part: Part) {
    if part == ContextPart then HoldsContext(p) && p != StageContext else p == StageAts || p == Finalizing
  }

  // ----- what workers and rows know of each other -----

  /** A worker owns its row, and the row names every object the worker is done with. */
  predicate AttendedBy(w: Worker, v: Version) {
    && w.owner == v.owner
    && (Past(w.phase, ContextPart) ==> ContextLocator in v.fields)
    && (Past(w.phase, ArtifactPart) ==> ArtifactLocator in v.fields)
  }

  ghost predicate Attended(w: World) {
    forall id :: id in w.workers && id in w.tables.versions ==> AttendedBy(w.workers[id], w.tables.versions[id])
  }

  /** A row keeps its owner and every field it has. */
  predicate Grows(v: Version, n: Version) {
    n.owner == v.owner && v.fields.Keys <= n.fields.Keys
  }

  lemma CommitGrows(t: Tables, current: Suite, now: nat, x: Txn, id: VersionId)
    requires id in t.versions
    ensures id in Commit(t, current, now, x).versions
    ensures Grows(t.versions[id], Commit(t, current, now, x).versions[id])
  {
  }

  lemma NextGrows(c: Setting, w: World, s: Step, id: VersionId)
    requires id in w.tables.versions
    ensures id in Next(c, w, s).tables.versions
    ensures Grows(w.tables.versions[id], Next(c, w, s).tables.versions[id])
  {
    NextCommits(c, w, s);
    var n := Next(c, w, s).tables;
    if n != w.tables {
      var x :| n == Commit(w.tables, c.suite, w.now, x);
      CommitGrows(w.tables, c.suite, w.now, x, id);
    }
  }

  /** Whatever the worker would be past is named by the row or staged now. */
  predicate Covers(next: Phase, fields: map<Field, string>, v: Version) {
    && (Past(next, ContextPart) ==> ContextLocator in fields || ContextLocator in v.fields)
    && (Past(next, ArtifactPart) ==> ArtifactLocator in fields || ArtifactLocator in v.fields)
  }

  lemma StageAttended(c: Setting, s: Shared, id: VersionId, now: nat, fields: map<Field, string>, next: Phase,
                      report: string)
    requires id in s.tables.versions && s.worker.owner == s.tables.versions[id].owner
    requires Covers(next, fields, s.tables.versions[id])
    ensures var n := StageStep(c, s, id, now, fields, next, report);
      id in n.tables.versions && AttendedBy(n.worker, n.tables.versions[id])
  {
    var x := Progress(id, s.worker.owner, s.worker.generation, fields);
    if Granted(s.tables, c.suite, now, x) {
      assert Commit(s.tables, c.suite, now, x) == Put(s.tables, id, Staged(s.tables.versions[id], fields));
    }
  }

  /** Stages that record nothing bring the worker past nothing. */
  lemma PhaseOn(c: Setting, s: Shared, id: VersionId, now: nat, i: Input)
    requires s.worker.phase !in {StageContext, StageDraft, StageArtifact, StageAts}
    ensures var n := WorkStep(c, s, id, now, i).worker;
      && n.owner == s.worker.owner
      && (Past(n.phase, ContextPart) ==> Past(s.worker.phase, ContextPart))
      && (Past(n.phase, ArtifactPart) ==> Past(s.worker.phase, ArtifactPart))
  {
    match s.worker.phase
    case Rejecting(report) =>
    case Stopping(report) =>
    case Finalizing =>
    case LeaseGone =>
    case _ =>
  }

  lemma WorkGrows(c: Setting, s: Shared, id: VersionId, now: nat, i: Input)
    requires id in s.tables.versions
    ensures var n := WorkStep(c, s, id, now, i).tables;
      id in n.versions && Grows(s.tables.versions[id], n.versions[id])
  {
    WorkCommits(c, s, id, now, i);
    var n := WorkStep(c, s, id, now, i).tables;
    if n != s.tables {
      var x :| Fenced(x) && n == Commit(s.tables, c.suite, now, x);
      CommitGrows(s.tables, c.suite, now, x, id);
    }
  }

  lemma StagesAttended(c: Setting, s: Shared, id: VersionId, now: nat, i: Input)
    requires id in s.tables.versions && AttendedBy(s.worker, s.tables.versions[id])
    requires s.worker.phase in {StageContext, StageDraft, StageArtifact, StageAts}
    ensures var n := WorkStep(c, s, id, now, i);
      id in n.tables.versions && AttendedBy(n.worker, n.tables.versions[id])
  {
    var w := s.worker;
    match w.phase
    case StageContext => StageAttended(c, s, id, now, ContextFields(w), StageDraft, i.report);
    case StageDraft =>
      var drafted := w.(content := i.text, trail := i.second);
      StageAttended(c, s.(worker := drafted), id, now, DraftFields(drafted),
        if c.passes(i.second) then CheckArtifact else Rejecting(i.report), i.report);
    case StageArtifact => StageAttended(c, s, id, now, ArtifactFields(w), StageAts, i.report);
    case StageAts =>
      var checked := w.(ats := i.text);
      StageAttended(c, s.(worker := checked), id, now, AtsFields(checked),
        if c.passes(i.text) then Finalizing else Rejecting(i.report), i.report);
  }

  lemma WorkAttended(c: Setting, s: Shared, id: VersionId, now: nat, i: Input)
    requires id in s.tables.versions && AttendedBy(s.worker, s.tables.versions[id])
    ensures var n := WorkStep(c, s, id, now, i);
      id in n.tables.versions && AttendedBy(n.worker, n.tables.versions[id])
  {
    if s.worker.phase in {StageContext, StageDraft, StageArtifact, StageAts} {
      StagesAttended(c, s, id, now, i);
    } else {
      PhaseOn(c, s, id, now, i);
      WorkGrows(c, s, id, now, i);
    }
  }

  /** No other step moves a worker on, short of stopping it. */
  lemma WorkerLeftAlone(c: Setting, w: World, s: Step, id: VersionId)
    requires id in w.workers && id in w.tables.versions && !(s.Work? && s.id == id)
    ensures id in Next(c, w, s).workers
    ensures var n := Next(c, w, s).workers[id];
      n.owner == w.workers[id].owner && (n.phase == w.workers[id].phase || n.phase.Stopping?)
  {
  }

  lemma NewWorker(c: Setting, w: World, s: Step, id: VersionId)
    requires id !in w.workers && id in Next(c, w, s).workers
    ensures s.Start? && s.id == id && id !in w.tables.versions && id in Next(c, w, s).tables.versions
    ensures AttendedBy(Next(c, w, s).workers[id], Next(c, w, s).tables.versions[id])
  {
  }

  lemma NextAttended(c: Setting, w: World, s: Step)
    requires Bundled(c, w) && Attended(w)
    ensures Attended(Next(c, w, s))
  {
    var n := Next(c, w, s);
    forall id | id in n.workers && id in n.tables.versions ensures AttendedBy(n.workers[id], n.tables.versions[id]) {
      if id !in w.workers {
        NewWorker(c, w, s, id);
      } else if s.Work? && s.id == id {
        WorkAttended(c, Split(w, id), id, w.now, s.input);
      } else {
        StillAttended(c, w, s, id);
      }
    }
  }

  lemma StillAttended(c: Setting, w: World, s: Step, id: VersionId)
    requires id in w.workers && id in w.tables.versions && !(s.Work? && s.id == id)
    requires AttendedBy(w.workers[id], w.tables.versions[id])
    ensures var n := Next(c, w, s);
      id in n.workers && id in n.tables.versions && AttendedBy(n.workers[id], n.tables.versions[id])
  {
    NextGrows(c, w, s, id);
    WorkerLeftAlone(c, w, s, id);
  }

  lemma {:induction false} AlwaysAttended(c: Setting, steps: seq<Step>)
    ensures Attended(RunFrom(c, START, steps))
  {
    if steps != [] {
      var n := |steps| - 1;
      AlwaysAttended(c, steps[..n]);
      AlwaysBundled(c, steps[..n]);
      NextAttended(c, RunFrom(c, START, steps[..n]), steps[n]);
    }
  }

  // ----- an object that can still be named -----

  predicate UnderLease(v: Version, now: nat) {
    v.status == Generating && v.expires > now
  }

  /** The version is under way, its lease is not over, and its worker is about to record the object. */
  predicate Pending(w: World, id: VersionId, part: Part)
    requires id in w.tables.versions
  {
    && UnderLease(w.tables.versions[id], w.now)
    && id in w.workers && Recording(w.workers[id].phase, part)
  }

  predicate Names(w: World, k: VersionId, locator: string) {
    k in w.tables.versions && References(w.tables.versions[k], locator)
  }

  const NOTHING := Input("", "", "")

  lemma ReadsBack(c: Setting, w: World, id: VersionId, part: Part)
    requires Bundled(c, w) && Attended(w) && id in w.tables.versions && Pending(w, id, part)
    requires LocatorOf(w.tables.versions[id], part) in w.objects
    requires w.workers[id].phase == if part == ContextPart then ReadContext else ReadArtifact
    ensures var one := Next(c, w, Work(id, NOTHING));
      && one.tables == w.tables && one.now == w.now && id in one.workers
      && one.workers[id].phase == if part == ContextPart then StageContext else StageArtifact
  {
  }

  /** One more stage reads the object back, the next records it. */
  lemma PendingIsNamed(c: Setting, w: World, id: VersionId, part: Part)
    requires Bundled(c, w) && Attended(w) && id in w.tables.versions && Pending(w, id, part)
    requires LocatorOf(w.tables.versions[id], part) in w.objects
    ensures var one := Next(c, w, Work(id, NOTHING)); var two := Next(c, one, Work(id, NOTHING));
      Names(one, id, LocatorOf(w.tables.versions[id], part)) || Names(two, id, LocatorOf(w.tables.versions[id], part))
  {
    var one := Next(c, w, Work(id, NOTHING));
    if w.workers[id].phase in {StageContext, StageArtifact} {
      StagingNames(c, w, id, part);
    } else {
      ReadsBack(c, w, id, part);
      NextBundled(c, w, Work(id, NOTHING));
      NextAttended(c, w, Work(id, NOTHING));
      StagingNames(c, one, id, part);
    }
  }

  lemma StagingNames(c: Setting, w: World, id: VersionId, part: Part)
    requires Bundled(c, w) && Attended(w) && id in w.tables.versions && Pending(w, id, part)
    requires w.workers[id].phase == if part == ContextPart then StageContext else StageArtifact
    ensures Names(Next(c, w, Work(id, NOTHING)), id, LocatorOf(w.tables.versions[id], part))
  {
    assert AttendedBy(w.workers[id], w.tables.versions[id]);
    var next := if part == ContextPart then StageDraft else StageAts;
    var fields := if part == ContextPart then ContextFields(w.workers[id]) else ArtifactFields(w.workers[id]);
    StagedIsNamed(c, Split(w, id), id, w.now, fields, next, part);
  }

  lemma StagedIsNamed(c: Setting, s: Shared, id: VersionId, now: nat, fields: map<Field, string>, next: Phase,
                      part: Part)
    requires Holds(s.tables, id, s.worker.owner, s.worker.generation, now) && Stageable(fields)
    requires FieldOf(part) in fields && fields[FieldOf(part)] == LocatorOf(s.tables.versions[id], part)
    ensures var n := StageStep(c, s, id, now, fields, next, "").tables;
      id in n.versions && References(n.versions[id], LocatorOf(s.tables.versions[id], part))
  {
    var x := Progress(id, s.worker.owner, s.worker.generation, fields);
    assert Commit(s.tables, c.suite, now, x) == Put(s.tables, id, Staged(s.tables.versions[id], fields));
    assert Staged(s.tables.versions[id], fields).fields[FieldOf(part)] == fields[FieldOf(part)];
  }

  // ----- an object that can not -----

  /** Stored and not recorded, with nobody about to record it. */
  predicate Blocked(w: World, id: VersionId, part: Part) {
    && id in w.tables.versions
    && LocatorOf(w.tables.versions[id], part) in w.objects
    && FieldOf(part) !in w.tables.versions[id].fields
    && !Pending(w, id, part)
  }

  /** What a transaction that records no object does to a row: it adds no locator, and it neither revives a
      lease that is over nor a version that is settled. */
  predicate LeftAlone(v: Version, n: Version, now: nat) {
    && SameNumber(v, n)
    && (ContextLocator in n.fields ==> ContextLocator in v.fields)
    && (ArtifactLocator in n.fields ==> ArtifactLocator in v.fields)
    && (n.status == Generating ==> v.status == Generating && (n.expires == v.expires || v.expires > now))
  }

  /** The transaction can record this object in the row. */
  predicate Records(x: Txn, id: VersionId, part: Part) {
    (x.Progress? || x.Finalize?) && x.id == id && FieldOf(part) in x.fields
  }

  lemma CommitLeavesAlone(t: Tables, current: Suite, now: nat, x: Txn, id: VersionId)
    requires id in t.versions && !Records(x, id, ContextPart) && !Records(x, id, ArtifactPart)
    ensures id in Commit(t, current, now, x).versions
    ensures LeftAlone(t.versions[id], Commit(t, current, now, x).versions[id], now)
  {
    if Granted(t, current, now, x) {
      match x
      case Progress(k, _, _, fields) =>
      case Finalize(k, _, _, fields) =>
      case Approve(_, _, _) =>
      case ClaimExpired(_, _) =>
      case _ =>
    }
  }

  lemma RowLeftAlone(c: Setting, w: World, s: Step, id: VersionId)
    requires Bundled(c, w) && id in w.tables.versions && !(s.Work? && s.id == id)
    ensures id in Next(c, w, s).tables.versions
    ensures LeftAlone(w.tables.versions[id], Next(c, w, s).tables.versions[id], w.now)
  {
    match s
    case Start(package, k, owner) =>
      CommitLeavesAlone(w.tables, c.suite, w.now, Reserve(package, k, owner, LEASE_SECONDS), id);
    case Work(k, i) =>
      if k in w.workers {
        WorkKeeps(c, Split(w, k), k, w.now, i);
      }
    case Beat(k) =>
      if k in w.workers {
        var m := w.workers[k];
        CommitLeavesAlone(w.tables, c.suite, w.now, Renew(k, m.owner, m.generation, LEASE_SECONDS), id);
      }
    case Other(x) => if ByOthers(x) { CommitLeavesAlone(w.tables, c.suite, w.now, x, id); }
    case _ =>
  }

  lemma ObjectStays(c: Setting, w: World, s: Step, locator: string)
    requires locator in w.objects
    ensures locator in Next(c, w, s).objects
  {
    if s.Work? && s.id in w.workers {
      WorkExtends(c, Split(w, s.id), s.id, w.now, s.input);
    }
  }

  lemma ElseBlocked(c: Setting, w: World, s: Step, id: VersionId, part: Part)
    requires Bundled(c, w) && Blocked(w, id, part) && !(s.Work? && s.id == id)
    ensures Blocked(Next(c, w, s), id, part)
  {
    RowLeftAlone(c, w, s, id);
    ObjectStays(c, w, s, LocatorOf(w.tables.versions[id], part));
    if id in w.workers {
      WorkerLeftAlone(c, w, s, id);
    } else if id in Next(c, w, s).workers {
      NewWorker(c, w, s, id);
    }
    TimePasses(c, w, s);
  }

  lemma TimePasses(c: Setting, w: World, s: Step)
    ensures w.now <= Next(c, w, s).now
  {
  }

  /** The worker itself finds its object stored, or its lease over, or has nothing to do with the object. */
  lemma WorkBlocked(c: Setting, w: World, id: VersionId, i: Input, part: Part)
    requires Bundled(c, w) && Attended(w) && Blocked(w, id, part) && id in w.workers
    ensures Blocked(Next(c, w, Work(id, i)), id, part)
  {
    var m := w.workers[id];
    assert AttendedBy(m, w.tables.versions[id]);
    ObjectStays(c, w, Work(id, i), LocatorOf(w.tables.versions[id], part));
    NextMoves(c, w, Work(id, i), id);
    RecordsNothing(c, w, id, i, part);
  }

  /** The same of the worker's own view. */
  predicate BlockedFor(s: Shared, id: VersionId, now: nat, part: Part) {
    && id in s.tables.versions
    && Locator(s.worker, NameOf(part)) in s.objects
    && FieldOf(part) !in s.tables.versions[id].fields
    && !Past(s.worker.phase, part)
    && !(UnderLease(s.tables.versions[id], now) && Recording(s.worker.phase, part))
  }

  /** Afterwards the field is still missing, and the worker about to record it no more than before. */
  predicate StillBlocked(n: Shared, id: VersionId, now: nat, part: Part) {
    && id in n.tables.versions && FieldOf(part) !in n.tables.versions[id].fields
    && !(UnderLease(n.tables.versions[id], now) && Recording(n.worker.phase, part))
  }

  lemma StageBlocked(c: Setting, s: Shared, id: VersionId, now: nat, fields: map<Field, string>, next: Phase,
                     report: string, part: Part)
    requires BlockedFor(s, id, now, part) && !Recording(next, part)
    requires FieldOf(part) in fields ==> Recording(s.worker.phase, part)
    ensures StillBlocked(StageStep(c, s, id, now, fields, next, report), id, now, part)
  {
  }

  lemma StagesBlocked(c: Setting, s: Shared, id: VersionId, now: nat, i: Input, part: Part)
    requires BlockedFor(s, id, now, part)
    requires s.worker.phase in {StageContext, StageDraft, StageArtifact, StageAts}
    ensures StillBlocked(WorkStep(c, s, id, now, i), id, now, part)
  {
    var w := s.worker;
    match w.phase
    case StageContext => StageBlocked(c, s, id, now, ContextFields(w), StageDraft, i.report, part);
    case StageDraft =>
      var drafted := w.(content := i.text, trail := i.second);
      StageBlocked(c, s.(worker := drafted), id, now, DraftFields(drafted),
        if c.passes(i.second) then CheckArtifact else Rejecting(i.report), i.report, part);
    case StageArtifact => StageBlocked(c, s, id, now, ArtifactFields(w), StageAts, i.report, part);
    case StageAts =>
      var checked := w.(ats := i.text);
      StageBlocked(c, s.(worker := checked), id, now, AtsFields(checked),
        if c.passes(i.text) then Finalizing else Rejecting(i.report), i.report, part);
  }

  lemma EndsBlocked(c: Setting, s: Shared, id: VersionId, now: nat, i: Input, part: Part)
    requires BlockedFor(s, id, now, part)
    requires s.worker.phase.Rejecting? || s.worker.phase.Stopping?
          || s.worker.phase.LeaseGone? || s.worker.phase.Finished?
    ensures StillBlocked(WorkStep(c, s, id, now, i), id, now, part)
  {
    match s.worker.phase
    case Rejecting(report) => FailBlocked(c, s, id, now, report, part);
    case Stopping(report) => FailBlocked(c, s, id, now, report, part);
    case LeaseGone => FailBlocked(c, s, id, now, i.report, part);
    case Finished(_) =>
  }

  lemma FailBlocked(c: Setting, s: Shared, id: VersionId, now: nat, report: string, part: Part)
    requires BlockedFor(s, id, now, part)
    ensures StillBlocked(FailStep(c, s, id, now, report), id, now, part)
    ensures StillBlocked(RejectStep(c, s, id, now, report), id, now, part)
  {
  }

  lemma ObjectsBlocked(c: Setting, s: Shared, id: VersionId, now: nat, i: Input, part: Part)
    requires BlockedFor(s, id, now, part)
    requires s.worker.phase in {CheckContext, WriteContext, ReadContext, CheckArtifact, WriteArtifact, ReadArtifact}
    ensures StillBlocked(WorkStep(c, s, id, now, i), id, now, part)
  {
    match s.worker.phase
    case CheckContext =>
    case WriteContext =>
    case ReadContext =>
    case CheckArtifact =>
    case WriteArtifact =>
    case ReadArtifact =>
  }

  lemma RecordsNothing(c: Setting, w: World, id: VersionId, i: Input, part: Part)
    requires Bundled(c, w) && Attended(w) && Blocked(w, id, part) && id in w.workers
    ensures var n := Next(c, w, Work(id, i));
      id in n.tables.versions && FieldOf(part) !in n.tables.versions[id].fields && !Pending(n, id, part)
  {
    var m, s := w.workers[id], Split(w, id);
    assert AttendedBy(m, w.tables.versions[id]) && !Past(m.phase, part);
    assert Locator(m, NameOf(part)) == LocatorOf(w.tables.versions[id], part);
    assert BlockedFor(s, id, w.now, part);
    if m.phase in {StageContext, StageDraft, StageArtifact, StageAts} {
      StagesBlocked(c, s, id, w.now, i, part);
    } else if m.phase in {CheckContext, WriteContext, ReadContext, CheckArtifact, WriteArtifact, ReadArtifact} {
      ObjectsBlocked(c, s, id, w.now, i, part);
    } else {
      EndsBlocked(c, s, id, w.now, i, part);
    }
  }

  lemma NextBlocked(c: Setting, w: World, s: Step, id: VersionId, part: Part)
    requires Bundled(c, w) && Attended(w) && Blocked(w, id, part)
    ensures Blocked(Next(c, w, s), id, part)
  {
    if s.Work? && s.id == id {
      if id in w.workers {
        WorkBlocked(c, w, id, s.input, part);
      }
    } else {
      ElseBlocked(c, w, s, id, part);
    }
  }

  lemma {:induction false} BlockedOn(c: Setting, w: World, more: seq<Step>, id: VersionId, part: Part)
    requires Bundled(c, w) && Attended(w) && Blocked(w, id, part)
    ensures Bundled(c, RunFrom(c, w, more)) && Attended(RunFrom(c, w, more)) && Blocked(RunFrom(c, w, more), id, part)
    ensures SameNumber(w.tables.versions[id], RunFrom(c, w, more).tables.versions[id])
  {
    if more != [] {
      var n := |more| - 1;
      BlockedOn(c, w, more[..n], id, part);
      OneMoreBlocked(c, RunFrom(c, w, more[..n]), more[n], id, part);
    }
  }

  lemma OneMoreBlocked(c: Setting, w: World, s: Step, id: VersionId, part: Part)
    requires Bundled(c, w) && Attended(w) && Blocked(w, id, part)
    ensures Bundled(c, Next(c, w, s)) && Attended(Next(c, w, s)) && Blocked(Next(c, w, s), id, part)
    ensures SameNumber(w.tables.versions[id], Next(c, w, s).tables.versions[id])
  {
    NextBundled(c, w, s);
    NextAttended(c, w, s);
    NextBlocked(c, w, s, id, part);
    NextMoves(c, w, s, id);
  }

  // ----- which orphans are inert -----

  /** An orphan of a version under way is one of the two objects of its one lease generation. */
  lemma PartOf(c: Setting, w: World, id: VersionId, locator: string) returns (part: Part)
    requires Bundled(c, w) && id in w.tables.versions && w.tables.versions[id].status == Generating
    requires OrphanOf(w.tables.versions[id], w.objects, locator)
    ensures locator == LocatorOf(w.tables.versions[id], part) && FieldOf(part) !in w.tables.versions[id].fields
  {
    var v := w.tables.versions[id];
    var g :| 1 <= g <= v.generation && IsLocatorOf(v, g, locator);
    part := if locator == ObjectLocator(v.package, v.number, 1, CONTEXT) then ContextPart else ArtifactPart;
  }

  /** Rows name objects of their own package and number only. */
  lemma NamesItsOwn(c: Setting, w: World, k: VersionId, v: Version, part: Part)
    requires Bundled(c, w) && Numbered(w.tables) && '/' !in v.package && Names(w, k, LocatorOf(v, part))
    ensures SameNumber(w.tables.versions[k], v) && FieldOf(part) in w.tables.versions[k].fields
  {
    var row := w.tables.versions[k];
    var other :=
      if ContextLocator in row.fields && row.fields[ContextLocator] == LocatorOf(v, part) then CONTEXT else ARTIFACT;
    LocatorAttributes(v.package, v.number, 1, NameOf(part), row.package, row.number, 1, other);
  }

  /** What is blocked is named by no row, ever. */
  lemma BlockedIsInert(c: Setting, steps: seq<Step>, more: seq<Step>, id: VersionId, part: Part, k: VersionId)
    requires Blocked(RunFrom(c, START, steps), id, part)
    ensures !Names(RunFrom(c, START, steps + more), k, LocatorOf(RunFrom(c, START, steps).tables.versions[id], part))
  {
    var v, n := RunFrom(c, START, steps).tables.versions[id], RunFrom(c, START, steps + more);
    AlwaysBundled(c, steps);
    AlwaysAttended(c, steps);
    RunSplits(c, START, steps, more);
    BlockedOn(c, RunFrom(c, START, steps), more, id, part);
    AlwaysNumbered(c, steps + more);
    if Names(n, k, LocatorOf(v, part)) {
      assert n.tables.versions[id].package in n.tables.packages;
      NamesItsOwn(c, n, k, v, part);
      assert SameNumber(n.tables.versions[k], n.tables.versions[id]);
      assert false;
    }
  }

  /** Some continuation leads to a world where some row names this object. */
  ghost predicate ComesToBeNamed(c: Setting, steps: seq<Step>, locator: string) {
    exists more, k :: Names(RunFrom(c, START, steps + more), k, locator)
  }

  /** The lease is live and the worker has just stored this very object. */
  predicate AboutToRecord(w: World, id: VersionId, locator: string)
    requires id in w.tables.versions
  {
    exists part :: locator == LocatorOf(w.tables.versions[id], part) && Pending(w, id, part)
  }

  /** Over every reachable world: an object that recovery lists as an orphan of a version comes to be named by
      some row, in some continuation, if and only if the version is still generating under a lease that is
      not over and its worker is between storing that object and recording it. Every other one is inert. */
  lemma OrphanFate(c: Setting, steps: seq<Step>, id: VersionId, locator: string)
    requires id in RunFrom(c, START, steps).tables.versions
    requires OrphanOf(RunFrom(c, START, steps).tables.versions[id], RunFrom(c, START, steps).objects, locator)
    ensures ComesToBeNamed(c, steps, locator) <==> AboutToRecord(RunFrom(c, START, steps), id, locator)
  {
    var w := RunFrom(c, START, steps);
    if w.tables.versions[id].status != Generating {
      forall more, k ensures !Names(RunFrom(c, START, steps + more), k, locator) {
        if k in RunFrom(c, START, steps + more).tables.versions {
          SettledOrphanIsInert(c, steps, more, id, locator, k);
        }
      }
    } else {
      AlwaysBundled(c, steps);
      var part := PartOf(c, w, id, locator);
      if Pending(w, id, part) {
        PendingComesToBeNamed(c, steps, id, part);
      } else {
        forall more, k ensures !Names(RunFrom(c, START, steps + more), k, locator) {
          BlockedIsInert(c, steps, more, id, part, k);
        }
        AlwaysNumbered(c, steps);
        NotAboutTo(w, id, part);
      }
    }
  }

  lemma NotAboutTo(w: World, id: VersionId, part: Part)
    requires id in w.tables.versions && '/' !in w.tables.versions[id].package && !Pending(w, id, part)
    ensures !AboutToRecord(w, id, LocatorOf(w.tables.versions[id], part))
  {
    var v := w.tables.versions[id];
    forall other | LocatorOf(v, part) == LocatorOf(v, other) ensures !Pending(w, id, other) {
      LocatorAttributes(v.package, v.number, 1, NameOf(part), v.package, v.number, 1, NameOf(other));
    }
  }

  lemma PendingComesToBeNamed(c: Setting, steps: seq<Step>, id: VersionId, part: Part)
    requires id in RunFrom(c, START, steps).tables.versions && Pending(RunFrom(c, START, steps), id, part)
    requires LocatorOf(RunFrom(c, START, steps).tables.versions[id], part) in RunFrom(c, START, steps).objects
    ensures ComesToBeNamed(c, steps, LocatorOf(RunFrom(c, START, steps).tables.versions[id], part))
  {
    var w, s := RunFrom(c, START, steps), Work(id, NOTHING);
    var locator := LocatorOf(w.tables.versions[id], part);
    AlwaysBundled(c, steps);
    AlwaysAttended(c, steps);
    PendingIsNamed(c, w, id, part);
    RunOn(c, steps, s);
    RunOn(c, steps + [s], s);
    assert steps + [s] + [s] == steps + [s, s];
    if Names(Next(c, w, s), id, locator) {
      assert Names(RunFrom(c, START, steps + [s]), id, locator);
    } else {
      assert Names(RunFrom(c, START, steps + [s, s]), id, locator);
    }
  }

  lemma RunOn(c: Setting, steps: seq<Step>, s: Step)
    ensures RunFrom(c, START, steps + [s]) == Next(c, RunFrom(c, START, steps), s)
  {
    assert (steps + [s])[..|steps|] == steps;
  }

  // ----- one of each -----

  /** A package, a version, the lease check and the first object. */
  const STORED := [Other(AddPackage("p")), Start("p", "v", "o"), Work("v", NOTHING), Work("v", NOTHING)]

  function StoredWorld(objects: Objects, phase: Phase): World {
    var row := Version("p", 1, Generating, map[], "o", 1, LEASE_SECONDS);
    World(Tables(map["p" := None], map["v" := row], map[], [], []),
      objects, 0, map["v" := Started("p", 1, "o").(phase := phase)])
  }

  function StoredAt(): string { ObjectLocator("p", 1, 1, CONTEXT) }

  lemma FirstSteps(c: Setting)
    ensures Next(c, START, Other(AddPackage("p"))) == START.(tables := EMPTY.(packages := map["p" := None]))
    ensures Next(c, START.(tables := EMPTY.(packages := map["p" := None])), Start("p", "v", "o"))
         == StoredWorld(map[], CheckContext)
  {
    assert NumbersOf(map[], "p") == {};
  }

  lemma WorkSteps(c: Setting)
    ensures Next(c, StoredWorld(map[], CheckContext), Work("v", NOTHING)) == StoredWorld(map[], WriteContext)
    ensures Next(c, StoredWorld(map[], WriteContext), Work("v", NOTHING))
         == StoredWorld(map[StoredAt() := ""], ReadContext)
  {
  }

  lemma StoredIs(c: Setting)
    ensures RunFrom(c, START, STORED) == StoredWorld(map[StoredAt() := ""], ReadContext)
  {
    FirstSteps(c);
    WorkSteps(c);
    var s := [Other(AddPackage("p"))];
    RunOn(c, [], Other(AddPackage("p")));
    assert [] + s == s;
    RunOn(c, s, Start("p", "v", "o"));
    s := s + [Start("p", "v", "o")];
    RunOn(c, s, Work("v", NOTHING));
    s := s + [Work("v", NOTHING)];
    RunOn(c, s, Work("v", NOTHING));
    assert s + [Work("v", NOTHING)] == STORED;
  }

  /** From an empty instance: once stored, the context object is listed, and it comes to be named. */
  lemma ListedThenNamed(c: Setting)
    ensures var w := RunFrom(c, START, STORED);
      "v" in w.tables.versions && OrphanOf(w.tables.versions["v"], w.objects, StoredAt())
    ensures ComesToBeNamed(c, STORED, StoredAt())
  {
    StoredIs(c);
    var w := RunFrom(c, START, STORED);
    assert IsLocatorOf(w.tables.versions["v"], 1, StoredAt());
    assert LocatorOf(w.tables.versions["v"], ContextPart) == StoredAt() && Pending(w, "v", ContextPart);
    OrphanFate(c, STORED, "v", StoredAt());
  }

  /** Had the worker stopped there, the object would be listed for a version still generating and inert. */
  lemma ListedAndInert(c: Setting, report: string)
    ensures var w := RunFrom(c, START, STORED + [Raise("v", report)]);
      && "v" in w.tables.versions && w.tables.versions["v"].status == Generating
      && OrphanOf(w.tables.versions["v"], w.objects, StoredAt())
    ensures !ComesToBeNamed(c, STORED + [Raise("v", report)], StoredAt())
  {
    StoredIs(c);
    RunOn(c, STORED, Raise("v", report));
    var w := RunFrom(c, START, STORED + [Raise("v", report)]);
    assert w.workers["v"].phase == Stopping(report);
    assert IsLocatorOf(w.tables.versions["v"], 1, StoredAt());
    OrphanFate(c, STORED + [Raise("v", report)], "v", StoredAt());
  }
}
