/** Any number of workers, their heartbeats, recovery, approvals, adjudications and the clock,
    interleaved in any order. */
module PipelineRuns {
  import opened Basics
  import opened Packages
  import opened PackageStore
  import opened Pipeline

  /** Workers are named by the version they reserved. */
  datatype World = World(tables: Tables, objects: Objects, now: nat, workers: map<VersionId, Worker>)

  const START := World(EMPTY, map[], 0, map[])

  datatype Step =
    | Tick(seconds: nat)
    | Start(package: string, id: VersionId, owner: string)
    | Work(id: VersionId, input: Input)
    | Raise(id: VersionId, report: string)
    | Beat(id: VersionId)
    | BreakBeat(id: VersionId)
    | Other(txn: Txn)

  /** The transactions issued by something other than a generation worker. */
  predicate ByOthers(x: Txn) {
    match x
    case AddPackage(package) => '/' !in package
    case ClaimExpired(_, _) => true
    case Approve(_, _, _) => true
    case ClaimSuite(_, _, _, _) => true
    case RenewSuite(_, _, _, _) => true
    case ReleaseSuite(_, _, _) => true
    case InsertRun(_, _, _, _, _, _) => true
    case _ => false
  }

  predicate Running(p: Phase) {
    !p.Stopping? && !p.LeaseGone? && !p.Finished?
  }

  ghost function Next(c: Setting, w: World, s: Step): World {
    match s
    case Tick(seconds) => w.(now := w.now + seconds)
    case Start(package, id, owner) =>
      var x := Reserve(package, id, owner, LEASE_SECONDS);
      if !Granted(w.tables, c.suite, w.now, x) then w
      else
        w.(tables := Effect(w.tables, c.suite, w.now, x),
           workers := w.workers[id := Started(package, NextNumber(w.tables.versions, package), owner)])
    case Work(id, i) => if id in w.workers then Join(w, id, WorkStep(c, Split(w, id), id, w.now, i)) else w
    case Raise(id, report) =>
      if id in w.workers && Running(w.workers[id].phase)
      then Join(w, id, Split(w, id).(worker := w.workers[id].(phase := Stopping(report), beating := false)))
      else w
    case Beat(id) => if id in w.workers then Join(w, id, BeatStep(c, Split(w, id), id, w.now)) else w
    case BreakBeat(id) =>
      if id in w.workers && w.workers[id].beating
      then Join(w, id, Split(w, id).(worker := w.workers[id].(lost := true, broken := true)))
      else w
    case Other(x) => if ByOthers(x) then w.(tables := Commit(w.tables, c.suite, w.now, x)) else w
  }

  function Split(w: World, id: VersionId): Shared
    requires id in w.workers
  {
    Shared(w.tables, w.objects, w.workers[id])
  }

  function Join(w: World, id: VersionId, s: Shared): World {
    World(s.tables, s.objects, w.now, w.workers[id := s.worker])
  }

  ghost function RunFrom(c: Setting, w: World, steps: seq<Step>): World {
    if steps == [] then w else Next(c, RunFrom(c, w, steps[..|steps| - 1]), steps[|steps| - 1])
  }

  // ----- status moves only along the transition table; a settled bundle is frozen -----

  predicate Moves(v: Version, n: Version) {
    && n.package == v.package && n.number == v.number
    && (n.status == v.status || IsValidTransition(v.status, n.status))
    && v.generation <= n.generation
    && (v.status != Generating ==> n.fields == v.fields && n.generation == v.generation)
  }

  /** Every transaction, whoever issues it. */
  lemma CommitMoves(t: Tables, current: Suite, now: nat, x: Txn, id: VersionId)
    requires id in t.versions
    ensures id in Commit(t, current, now, x).versions
    ensures Moves(t.versions[id], Commit(t, current, now, x).versions[id])
  {
  }

  ghost predicate Commits(c: Setting, t: Tables, now: nat, n: Tables) {
    n == t || exists x :: n == Commit(t, c.suite, now, x)
  }

  /** The transactions a worker issues on its own row. */
  predicate Fenced(x: Txn) {
    x.Progress? || x.Finalize? || x.FailVersion?
  }

  lemma WorkCommits(c: Setting, s: Shared, id: VersionId, now: nat, i: Input)
    ensures var n := WorkStep(c, s, id, now, i).tables;
      n == s.tables || exists x :: Fenced(x) && n == Commit(s.tables, c.suite, now, x)
  {
    var w, t, n := s.worker, s.tables, WorkStep(c, s, id, now, i).tables;
    var progress := (fields: map<Field, string>) => Progress(id, w.owner, w.generation, fields);
    var failure := report => FailVersion(id, w.owner, w.generation, report);
    match w.phase
    case StageContext => FencedWitness(c, t, now, progress(ContextFields(w)), n);
    case StageDraft => FencedWitness(c, t, now, progress(DraftFields(w.(content := i.text, trail := i.second))), n);
    case StageArtifact => FencedWitness(c, t, now, progress(ArtifactFields(w)), n);
    case StageAts => FencedWitness(c, t, now, progress(AtsFields(w.(ats := i.text))), n);
    case Finalizing => FencedWitness(c, t, now, Finalize(id, w.owner, w.generation, BundleOf(w)), n);
    case Rejecting(report) => FencedWitness(c, t, now, failure(report), n);
    case Stopping(report) => FencedWitness(c, t, now, failure(report), n);
    case LeaseGone => if w.broken { FencedWitness(c, t, now, failure(i.report), n); }
    case _ =>
  }

  lemma FencedWitness(c: Setting, t: Tables, now: nat, x: Txn, n: Tables)
    requires Fenced(x) && n == Commit(t, c.suite, now, x)
    ensures exists x :: Fenced(x) && n == Commit(t, c.suite, now, x)
  {
  }

  lemma NextCommits(c: Setting, w: World, s: Step)
    ensures Commits(c, w.tables, w.now, Next(c, w, s).tables)
  {
    if s.Work? && s.id in w.workers {
      WorkCommits(c, Split(w, s.id), s.id, w.now, s.input);
    } else if s.Start? {
      assert Next(c, w, s).tables == Commit(w.tables, c.suite, w.now, Reserve(s.package, s.id, s.owner, LEASE_SECONDS));
    } else if s.Beat? && s.id in w.workers {
      var v := w.workers[s.id];
      assert Next(c, w, s).tables == w.tables
          || Next(c, w, s).tables
               == Commit(w.tables, c.suite, w.now, Renew(s.id, v.owner, v.generation, LEASE_SECONDS));
    }
  }

  lemma NextMoves(c: Setting, w: World, s: Step, id: VersionId)
    requires id in w.tables.versions
    ensures id in Next(c, w, s).tables.versions
    ensures Moves(w.tables.versions[id], Next(c, w, s).tables.versions[id])
  {
    NextCommits(c, w, s);
    var n := Next(c, w, s).tables;
    if n != w.tables {
      var x :| n == Commit(w.tables, c.suite, w.now, x);
      CommitMoves(w.tables, c.suite, w.now, x, id);
    }
  }

  /** Once a version has left GENERATING none of its bundle fields ever changes, and the only status
      it can still take is APPROVED, from VERIFIED. */
  lemma {:induction false} Settled(c: Setting, w: World, steps: seq<Step>, id: VersionId)
    requires id in w.tables.versions && w.tables.versions[id].status != Generating
    ensures id in RunFrom(c, w, steps).tables.versions
    ensures var v, n := w.tables.versions[id], RunFrom(c, w, steps).tables.versions[id];
      && n.fields == v.fields && n.package == v.package && n.number == v.number && n.generation == v.generation
      && (n.status == v.status || (v.status == Verified && n.status == Approved))
  {
    if steps != [] {
      Settled(c, w, steps[..|steps| - 1], id);
      NextMoves(c, RunFrom(c, w, steps[..|steps| - 1]), steps[|steps| - 1], id);
    }
  }

  // ----- the audit bundle matches the stored objects -----

  predicate Attests(c: Setting, objects: Objects, fields: map<Field, string>, locator: Field, digest: Field,
                    at: string) {
    (locator in fields || digest in fields) ==>
      && locator in fields && digest in fields
      && fields[locator] == at && at in objects && fields[digest] == c.hash(objects[at])
  }

  /** What holds of every version row, under way or settled. */
  predicate VersionWell(c: Setting, v: Version, objects: Objects) {
    && Attests(c, objects, v.fields, ContextLocator, ContextHash, ObjectLocator(v.package, v.number, 1, CONTEXT))
    && Attests(c, objects, v.fields, ArtifactLocator, ArtifactHash, ObjectLocator(v.package, v.number, 1, ARTIFACT))
    && (v.status in {Verified, Approved} ==> IsComplete(v.fields) && Cleared(c, v.fields))
    && (v.status == Failed ==> FailureReport in v.fields && !Blank(v.fields[FailureReport]))
    && v.generation == (if v.status == Failed then v.generation else 1)
  }

  /** The stored verifier and ATS reports both say passed. */
  predicate Cleared(c: Setting, fields: map<Field, string>) {
    && VerifierReport in fields && c.passes(fields[VerifierReport])
    && AtsReport in fields && c.passes(fields[AtsReport])
  }

  predicate HoldsContext(p: Phase) {
    p.StageContext? || p.StageDraft? || p.CheckArtifact? || p.WriteArtifact? || p.ReadArtifact? || HoldsArtifact(p)
  }

  predicate HoldsDraft(p: Phase) {
    p.CheckArtifact? || p.WriteArtifact? || p.ReadArtifact? || HoldsArtifact(p)
  }

  predicate HoldsArtifact(p: Phase) {
    p.StageArtifact? || p.StageAts? || p.Finalizing?
  }

  predicate WorkerWell(c: Setting, w: Worker, v: Version, objects: Objects) {
    && w.package == v.package && w.number == v.number && w.generation == 1
    && (HoldsContext(w.phase) ==>
          Locator(w, CONTEXT) in objects && w.contextHash == c.hash(objects[Locator(w, CONTEXT)]))
    && (HoldsDraft(w.phase) ==> c.passes(w.trail))
    && (HoldsArtifact(w.phase) ==>
          Locator(w, ARTIFACT) in objects && w.artifactHash == c.hash(objects[Locator(w, ARTIFACT)]))
    && (w.phase == Finalizing ==> c.passes(w.ats))
    && (w.phase == Finished(Verified) ==> v.status in {Verified, Approved} && Includes(v.fields, BundleOf(w)))
    && (w.phase.Finished? ==> !w.beating)
  }

  predicate Includes(fields: map<Field, string>, bundle: map<Field, string>) {
    forall f :: f in bundle ==> f in fields && fields[f] == bundle[f]
  }

  predicate Extends(objects: Objects, more: Objects) {
    forall l :: l in objects ==> l in more && more[l] == objects[l]
  }

  lemma WorkerMoves(c: Setting, w: Worker, v: Version, n: Version, objects: Objects, more: Objects)
    requires WorkerWell(c, w, v, objects) && Moves(v, n) && Extends(objects, more)
    ensures WorkerWell(c, w, n, more)
  {
  }

  predicate Well(c: Setting, s: Shared, id: VersionId) {
    && id in s.tables.versions
    && VersionWell(c, s.tables.versions[id], s.objects)
    && WorkerWell(c, s.worker, s.tables.versions[id], s.objects)
  }

  /** The step touched its own version and objects only, and left both well. */
  ghost predicate Keeps(c: Setting, s: Shared, id: VersionId, n: Shared) {
    && id in s.tables.versions
    && Well(c, n, id)
    && n.tables == Put(s.tables, id, n.tables.versions[id])
    && Extends(s.objects, n.objects)
  }

  lemma RowExtends(c: Setting, v: Version, objects: Objects, more: Objects)
    requires VersionWell(c, v, objects) && Extends(objects, more)
    ensures VersionWell(c, v, more)
  {
  }

  lemma PutSame(t: Tables, id: VersionId)
    requires id in t.versions
    ensures t == Put(t, id, t.versions[id])
  {
    assert t.versions == t.versions[id := t.versions[id]];
  }

  /** A step of the worker alone. */
  lemma PrivateKeeps(c: Setting, s: Shared, id: VersionId, w: Worker)
    requires Well(c, s, id) && WorkerWell(c, w, s.tables.versions[id], s.objects)
    ensures Keeps(c, s, id, s.(worker := w))
  {
    PutSame(s.tables, id);
  }

  lemma WriteKeeps(c: Setting, s: Shared, id: VersionId, name: string, i: Input, next: Phase)
    requires Well(c, s, id)
    requires s.worker.phase == (if next == ReadContext then WriteContext else WriteArtifact)
    requires next in {ReadContext, ReadArtifact}
    ensures Keeps(c, s, id, WriteStep(s, name, i, next))
  {
    var w, v := s.worker, s.tables.versions[id];
    var l := Locator(w, name);
    if l in s.objects {
      PrivateKeeps(c, s, id, w.(phase := Stopping(i.report)));
    } else {
      var more := s.objects[l := i.text];
      RowExtends(c, v, s.objects, more);
      WorkerMoves(c, w, v, v, s.objects, more);
      WriterWell(c, w, v, more, next);
      PutSame(s.tables, id);
    }
  }

  lemma WriterWell(c: Setting, w: Worker, v: Version, objects: Objects, next: Phase)
    requires WorkerWell(c, w, v, objects)
    requires w.phase == (if next == ReadContext then WriteContext else WriteArtifact)
    requires next in {ReadContext, ReadArtifact}
    ensures WorkerWell(c, w.(phase := next), v, objects)
  {
  }

  /** Staging fields that keep the row well, ahead of a phase they license. */
  lemma StageKeeps(c: Setting, s: Shared, id: VersionId, now: nat, fields: map<Field, string>, next: Phase,
                   report: string)
    requires Well(c, s, id) && Stageable(fields)
    requires s.tables.versions[id].status == Generating ==>
      VersionWell(c, Staged(s.tables.versions[id], fields), s.objects)
    requires WorkerWell(c, s.worker.(phase := next), s.tables.versions[id], s.objects)
    requires !next.Finished?
    ensures Keeps(c, s, id, StageStep(c, s, id, now, fields, next, report))
  {
    PutSame(s.tables, id);
  }

  lemma FailKeeps(c: Setting, s: Shared, id: VersionId, now: nat, report: string)
    requires Well(c, s, id)
    ensures Keeps(c, s, id, FailStep(c, s, id, now, report))
    ensures Keeps(c, s, id, RejectStep(c, s, id, now, report))
  {
    PutSame(s.tables, id);
  }

  /** The seven fields of the bundle, one by one. */
  lemma BundleFields(w: Worker)
    ensures BundleOf(w).Keys == VERIFIED_REQUIRED_FIELDS
    ensures BundleOf(w)[ContextLocator] == Locator(w, CONTEXT) && BundleOf(w)[ContextHash] == w.contextHash
    ensures BundleOf(w)[ContentModel] == w.content && BundleOf(w)[VerifierReport] == w.trail
    ensures BundleOf(w)[ArtifactLocator] == Locator(w, ARTIFACT) && BundleOf(w)[ArtifactHash] == w.artifactHash
    ensures BundleOf(w)[AtsReport] == w.ats
  {
  }

  lemma FinalRow(c: Setting, w: Worker, v: Version, objects: Objects)
    requires w.phase == Finalizing && WorkerWell(c, w, v, objects)
    requires VersionWell(c, v, objects) && v.status == Generating
    requires IsComplete(BundleOf(w))
    ensures var n := Staged(v, BundleOf(w)).(status := Verified);
      VersionWell(c, n, objects) && WorkerWell(c, w.(phase := Finished(Verified), beating := false), n, objects)
  {
    var b := BundleOf(w);
    var n := Staged(v, b).(status := Verified);
    BundleFields(w);
    assert Includes(n.fields, b);
    assert BundleOf(w.(phase := Finished(Verified), beating := false)) == b;
    assert IsComplete(n.fields);
    assert Cleared(c, n.fields);
    assert VersionWell(c, n, objects);
  }

  lemma FinalKeeps(c: Setting, s: Shared, id: VersionId, now: nat, report: string)
    requires Well(c, s, id) && s.worker.phase == Finalizing
    ensures Keeps(c, s, id, FinalStep(c, s, id, now, report))
  {
    PutSame(s.tables, id);
    var w, v := s.worker, s.tables.versions[id];
    if Granted(s.tables, c.suite, now, Finalize(id, w.owner, w.generation, BundleOf(w))) {
      FinalRow(c, w, v, s.objects);
    }
  }

  lemma ContextKeeps(c: Setting, s: Shared, id: VersionId, now: nat, i: Input)
    requires Well(c, s, id)
    requires s.worker.phase in {CheckContext, WriteContext, ReadContext}
    ensures Keeps(c, s, id, WorkStep(c, s, id, now, i))
  {
    var w := s.worker;
    match w.phase
    case CheckContext => PrivateKeeps(c, s, id, CheckStep(s, id, now, WriteContext).worker);
    case WriteContext => WriteKeeps(c, s, id, CONTEXT, i, ReadContext);
    case ReadContext => PrivateKeeps(c, s, id, WorkStep(c, s, id, now, i).worker);
  }

  /** What a worker stages keeps its row well. */
  lemma ContextRow(c: Setting, w: Worker, v: Version, objects: Objects)
    requires w.phase == StageContext && WorkerWell(c, w, v, objects)
    requires VersionWell(c, v, objects) && v.status == Generating
    ensures VersionWell(c, Staged(v, ContextFields(w)), objects)
  {
  }

  lemma DraftRow(c: Setting, w: Worker, v: Version, objects: Objects)
    requires VersionWell(c, v, objects) && v.status == Generating
    ensures VersionWell(c, Staged(v, DraftFields(w)), objects)
    ensures VersionWell(c, Staged(v, AtsFields(w)), objects)
  {
  }

  lemma ArtifactRow(c: Setting, w: Worker, v: Version, objects: Objects)
    requires w.phase == StageArtifact && WorkerWell(c, w, v, objects)
    requires VersionWell(c, v, objects) && v.status == Generating
    ensures VersionWell(c, Staged(v, ArtifactFields(w)), objects)
  {
  }

  lemma DraftKeeps(c: Setting, s: Shared, id: VersionId, now: nat, i: Input)
    requires Well(c, s, id)
    requires s.worker.phase == StageDraft
    ensures Keeps(c, s, id, WorkStep(c, s, id, now, i))
  {
    var v, drafted := s.tables.versions[id], s.worker.(content := i.text, trail := i.second);
    if v.status == Generating { DraftRow(c, drafted, v, s.objects); }
    StageKeeps(c, s.(worker := drafted), id, now, DraftFields(drafted),
      if c.passes(i.second) then CheckArtifact else Rejecting(i.report), i.report);
  }

  lemma SnapshotKeeps(c: Setting, s: Shared, id: VersionId, now: nat, i: Input)
    requires Well(c, s, id)
    requires s.worker.phase == StageContext
    ensures Keeps(c, s, id, WorkStep(c, s, id, now, i))
  {
    var w, v := s.worker, s.tables.versions[id];
    if v.status == Generating { ContextRow(c, w, v, s.objects); }
    StageKeeps(c, s, id, now, ContextFields(w), StageDraft, i.report);
  }

  lemma ArtifactKeeps(c: Setting, s: Shared, id: VersionId, now: nat, i: Input)
    requires Well(c, s, id)
    requires s.worker.phase in {CheckArtifact, WriteArtifact, ReadArtifact}
    ensures Keeps(c, s, id, WorkStep(c, s, id, now, i))
  {
    var w := s.worker;
    match w.phase
    case CheckArtifact => PrivateKeeps(c, s, id, CheckStep(s, id, now, WriteArtifact).worker);
    case WriteArtifact => WriteKeeps(c, s, id, ARTIFACT, i, ReadArtifact);
    case ReadArtifact => PrivateKeeps(c, s, id, WorkStep(c, s, id, now, i).worker);
  }

  lemma ReportKeeps(c: Setting, s: Shared, id: VersionId, now: nat, i: Input)
    requires Well(c, s, id)
    requires s.worker.phase == StageAts
    ensures Keeps(c, s, id, WorkStep(c, s, id, now, i))
  {
    var v, checked := s.tables.versions[id], s.worker.(ats := i.text);
    if v.status == Generating { DraftRow(c, checked, v, s.objects); }
    StageKeeps(c, s.(worker := checked), id, now, AtsFields(checked),
      if c.passes(i.text) then Finalizing else Rejecting(i.report), i.report);
  }

  lemma RenderKeeps(c: Setting, s: Shared, id: VersionId, now: nat, i: Input)
    requires Well(c, s, id)
    requires s.worker.phase == StageArtifact
    ensures Keeps(c, s, id, WorkStep(c, s, id, now, i))
  {
    var w, v := s.worker, s.tables.versions[id];
    if v.status == Generating { ArtifactRow(c, w, v, s.objects); }
    StageKeeps(c, s, id, now, ArtifactFields(w), StageAts, i.report);
  }

  /** A stage keeps its row and worker well and touches nothing else. */
  lemma WorkKeeps(c: Setting, s: Shared, id: VersionId, now: nat, i: Input)
    requires Well(c, s, id)
    ensures Keeps(c, s, id, WorkStep(c, s, id, now, i))
  {
    var w := s.worker;
    match w.phase
    case Finalizing => FinalKeeps(c, s, id, now, i.report);
    case Rejecting(report) => FailKeeps(c, s, id, now, report);
    case Stopping(report) => FailKeeps(c, s, id, now, report);
    case LeaseGone =>
      if w.broken {
        FailKeeps(c, s, id, now, i.report);
      } else {
        PrivateKeeps(c, s, id, w.(phase := Finished(Failed), beating := false));
      }
    case Finished(_) => PrivateKeeps(c, s, id, w);
    case StageContext => SnapshotKeeps(c, s, id, now, i);
    case StageDraft => DraftKeeps(c, s, id, now, i);
    case StageArtifact => RenderKeeps(c, s, id, now, i);
    case StageAts => ReportKeeps(c, s, id, now, i);
    case _ =>
      if w.phase in {CheckContext, WriteContext, ReadContext} {
        ContextKeeps(c, s, id, now, i);
      } else {
        ArtifactKeeps(c, s, id, now, i);
      }
  }

  // ----- every reachable world -----

  ghost predicate Bundled(c: Setting, w: World) {
    && (forall id :: id in w.tables.versions ==> VersionWell(c, w.tables.versions[id], w.objects))
    && (forall id :: id in w.workers ==> id in w.tables.versions)
    && (forall id :: id in w.workers ==> WorkerWell(c, w.workers[id], w.tables.versions[id], w.objects))
  }

  /** A package and a number name one version, and package names keep locators readable. */
  ghost predicate Numbered(t: Tables) {
    && (forall p :: p in t.packages ==> '/' !in p)
    && (forall id :: id in t.versions ==> t.versions[id].package in t.packages)
    && (forall i, j :: i in t.versions && j in t.versions && i != j ==> !SameNumber(t.versions[i], t.versions[j]))
  }

  predicate SameNumber(v: Version, n: Version) {
    v.package == n.package && v.number == n.number
  }

  lemma WorkBundled(c: Setting, w: World, id: VersionId, i: Input)
    requires Bundled(c, w) && id in w.workers
    ensures Bundled(c, Join(w, id, WorkStep(c, Split(w, id), id, w.now, i)))
  {
    WorkKeeps(c, Split(w, id), id, w.now, i);
    JoinBundled(c, w, id, WorkStep(c, Split(w, id), id, w.now, i));
  }

  lemma JoinBundled(c: Setting, w: World, id: VersionId, s: Shared)
    requires Bundled(c, w) && id in w.workers
    requires Keeps(c, Split(w, id), id, s)
    ensures Bundled(c, Join(w, id, s))
  {
    var n := Join(w, id, s);
    forall k | k in n.tables.versions ensures VersionWell(c, n.tables.versions[k], n.objects) {
      if k != id {
        RowExtends(c, w.tables.versions[k], w.objects, n.objects);
      }
    }
    forall k | k in n.workers
      ensures k in n.tables.versions && WorkerWell(c, n.workers[k], n.tables.versions[k], n.objects)
    {
      if k != id {
        WorkerMoves(c, w.workers[k], w.tables.versions[k], n.tables.versions[k], w.objects, n.objects);
      }
    }
  }

  lemma BeatBundled(c: Setting, w: World, id: VersionId)
    requires Bundled(c, w) && id in w.workers
    ensures Bundled(c, Join(w, id, BeatStep(c, Split(w, id), id, w.now)))
  {
    PutSame(w.tables, id);
    JoinBundled(c, w, id, BeatStep(c, Split(w, id), id, w.now));
  }

  lemma StartBundled(c: Setting, w: World, package: string, id: VersionId, owner: string)
    requires Bundled(c, w)
    ensures Bundled(c, Next(c, w, Start(package, id, owner)))
  {
    var x := Reserve(package, id, owner, LEASE_SECONDS);
    if Granted(w.tables, c.suite, w.now, x) {
      var number := NextNumber(w.tables.versions, package);
      var v := Version(package, number, Generating, map[], owner, 1, w.now + LEASE_SECONDS);
      var n := w.(tables := Put(w.tables, id, v), workers := w.workers[id := Started(package, number, owner)]);
      StartedWell(c, package, number, owner, w.now + LEASE_SECONDS, w.objects);
      assert Bundled(c, n);
      assert n == Next(c, w, Start(package, id, owner));
    }
  }

  lemma StartedWell(c: Setting, package: string, number: nat, owner: string, expires: nat, objects: Objects)
    ensures var v := Version(package, number, Generating, map[], owner, 1, expires);
      VersionWell(c, v, objects) && WorkerWell(c, Started(package, number, owner), v, objects)
  {
  }

  /** Recovery, approvals and adjudications keep every row well. */
  lemma OtherRow(c: Setting, t: Tables, now: nat, x: Txn, id: VersionId, objects: Objects)
    requires ByOthers(x) && id in t.versions && VersionWell(c, t.versions[id], objects)
    ensures id in Commit(t, c.suite, now, x).versions
    ensures VersionWell(c, Commit(t, c.suite, now, x).versions[id], objects)
  {
  }

  lemma OtherBundled(c: Setting, w: World, x: Txn)
    requires Bundled(c, w) && ByOthers(x)
    ensures Bundled(c, w.(tables := Commit(w.tables, c.suite, w.now, x)))
  {
    var n := Commit(w.tables, c.suite, w.now, x);
    assert n.versions.Keys == w.tables.versions.Keys;
    forall id | id in n.versions ensures VersionWell(c, n.versions[id], w.objects) {
      OtherRow(c, w.tables, w.now, x, id, w.objects);
    }
    forall id | id in w.workers ensures WorkerWell(c, w.workers[id], n.versions[id], w.objects) {
      CommitMoves(w.tables, c.suite, w.now, x, id);
      WorkerMoves(c, w.workers[id], w.tables.versions[id], n.versions[id], w.objects, w.objects);
    }
  }

  /** The heartbeat's flags, or a stage that raised, concern the worker alone. */
  lemma PrivateBundled(c: Setting, w: World, id: VersionId, n: Worker)
    requires Bundled(c, w) && id in w.workers
    requires WorkerWell(c, n, w.tables.versions[id], w.objects)
    ensures Bundled(c, Join(w, id, Split(w, id).(worker := n)))
  {
    PrivateKeeps(c, Split(w, id), id, n);
    JoinBundled(c, w, id, Split(w, id).(worker := n));
  }

  lemma RaiseBundled(c: Setting, w: World, id: VersionId, report: string)
    requires Bundled(c, w)
    ensures Bundled(c, Next(c, w, Raise(id, report)))
  {
    if id in w.workers && Running(w.workers[id].phase) {
      PrivateBundled(c, w, id, w.workers[id].(phase := Stopping(report), beating := false));
    }
  }

  lemma BreakBundled(c: Setting, w: World, id: VersionId)
    requires Bundled(c, w)
    ensures Bundled(c, Next(c, w, BreakBeat(id)))
  {
    if id in w.workers && w.workers[id].beating {
      PrivateBundled(c, w, id, w.workers[id].(lost := true, broken := true));
    }
  }

  lemma TickBundled(c: Setting, w: World, seconds: nat)
    requires Bundled(c, w)
    ensures Bundled(c, Next(c, w, Tick(seconds)))
  {
  }

  lemma NextBundled(c: Setting, w: World, s: Step)
    requires Bundled(c, w)
    ensures Bundled(c, Next(c, w, s))
  {
    match s
    case Tick(seconds) => TickBundled(c, w, seconds);
    case Start(package, id, owner) => StartBundled(c, w, package, id, owner);
    case Work(id, i) => if id in w.workers { WorkBundled(c, w, id, i); }
    case Raise(id, report) => RaiseBundled(c, w, id, report);
    case Beat(id) => if id in w.workers { BeatBundled(c, w, id); }
    case BreakBeat(id) => BreakBundled(c, w, id);
    case Other(x) => if ByOthers(x) { OtherBundled(c, w, x); }
  }

  lemma {:induction false} AlwaysBundled(c: Setting, steps: seq<Step>)
    ensures Bundled(c, RunFrom(c, START, steps))
  {
    if steps != [] {
      AlwaysBundled(c, steps[..|steps| - 1]);
      NextBundled(c, RunFrom(c, START, steps[..|steps| - 1]), steps[|steps| - 1]);
    }
  }

  /** Under every interleaving, a VERIFIED or APPROVED version has its whole audit bundle, its hashes
      are those of the write-once objects at its own generation's locators, and both stored reports
      say passed. */
  lemma VerifiedIsAudited(c: Setting, steps: seq<Step>, id: VersionId)
    requires var w := RunFrom(c, START, steps);
      id in w.tables.versions && w.tables.versions[id].status in {Verified, Approved}
    ensures var w := RunFrom(c, START, steps); var v := w.tables.versions[id];
      && IsComplete(v.fields) && Cleared(c, v.fields)
      && v.fields[ContextLocator] == ObjectLocator(v.package, v.number, v.generation, CONTEXT)
      && v.fields[ArtifactLocator] == ObjectLocator(v.package, v.number, v.generation, ARTIFACT)
      && v.fields[ContextLocator] in w.objects && v.fields[ContextHash] == c.hash(w.objects[v.fields[ContextLocator]])
      && v.fields[ArtifactLocator] in w.objects
      && v.fields[ArtifactHash] == c.hash(w.objects[v.fields[ArtifactLocator]])
  {
    AlwaysBundled(c, steps);
  }

  // ----- objects are write-once -----

  lemma WorkExtends(c: Setting, s: Shared, id: VersionId, now: nat, i: Input)
    ensures Extends(s.objects, WorkStep(c, s, id, now, i).objects)
  {
  }

  /** No stored object is ever changed or removed. */
  lemma {:induction false} WriteOnce(c: Setting, w: World, steps: seq<Step>)
    ensures Extends(w.objects, RunFrom(c, w, steps).objects)
  {
    if steps != [] {
      WriteOnce(c, w, steps[..|steps| - 1]);
      var m, s := RunFrom(c, w, steps[..|steps| - 1]), steps[|steps| - 1];
      if s.Work? && s.id in m.workers {
        WorkExtends(c, Split(m, s.id), s.id, m.now, s.input);
      }
      assert Extends(m.objects, Next(c, m, s).objects);
    }
  }

  // ----- orphans -----

  lemma WorkNames(c: Setting, s: Shared, id: VersionId, now: nat, i: Input)
    ensures WorkStep(c, s, id, now, i).tables.versions.Keys == s.tables.versions.Keys
    ensures WorkStep(c, s, id, now, i).tables.packages == s.tables.packages
  {
    WorkCommits(c, s, id, now, i);
    var n := WorkStep(c, s, id, now, i).tables;
    if n != s.tables {
      var x :| Fenced(x) && n == Commit(s.tables, c.suite, now, x);
      FencedNames(c, s.tables, now, x);
    }
  }

  lemma FencedNames(c: Setting, t: Tables, now: nat, x: Txn)
    requires Fenced(x)
    ensures Commit(t, c.suite, now, x).versions.Keys == t.versions.Keys
    ensures Commit(t, c.suite, now, x).packages == t.packages
  {
  }

  lemma OtherNames(c: Setting, t: Tables, now: nat, x: Txn)
    requires ByOthers(x)
    ensures Commit(t, c.suite, now, x).versions.Keys == t.versions.Keys
    ensures Commit(t, c.suite, now, x).packages.Keys
         == t.packages.Keys + if x.AddPackage? then {x.package} else {}
  {
  }

  /** Rows that keep their package and number stay numbered. */
  lemma RenamedNumbered(t: Tables, n: Tables)
    requires Numbered(t) && t.versions.Keys == n.versions.Keys && t.packages.Keys <= n.packages.Keys
    requires forall p :: p in n.packages ==> '/' !in p
    requires forall id :: id in t.versions ==> SameNumber(t.versions[id], n.versions[id])
    ensures Numbered(n)
  {
    forall i, j | i in n.versions && j in n.versions && i != j ensures !SameNumber(n.versions[i], n.versions[j]) {
      assert SameNumber(t.versions[i], n.versions[i]) && SameNumber(t.versions[j], n.versions[j]);
    }
    forall id | id in n.versions ensures n.versions[id].package in n.packages {
      assert SameNumber(t.versions[id], n.versions[id]);
    }
  }

  /** A newly reserved number is above every other number of its package. */
  lemma ReservedNumbered(t: Tables, id: VersionId, v: Version)
    requires Numbered(t) && id !in t.versions
    requires v.package in t.packages && v.number == NextNumber(t.versions, v.package)
    ensures Numbered(Put(t, id, v))
  {
    forall k | k in t.versions ensures !SameNumber(t.versions[k], v) {
      assert t.versions[k].package == v.package ==> t.versions[k].number in NumbersOf(t.versions, v.package);
    }
  }

  lemma NextNumbered(c: Setting, w: World, s: Step)
    requires Numbered(w.tables)
    ensures Numbered(Next(c, w, s).tables)
  {
    if s.Start? {
      var x := Reserve(s.package, s.id, s.owner, LEASE_SECONDS);
      if Granted(w.tables, c.suite, w.now, x) {
        var number := NextNumber(w.tables.versions, s.package);
        var row := Version(s.package, number, Generating, map[], s.owner, 1, w.now + LEASE_SECONDS);
        ReservedNumbered(w.tables, s.id, row);
      }
    } else {
      var n := Next(c, w, s).tables;
      if s.Work? && s.id in w.workers {
        WorkNames(c, Split(w, s.id), s.id, w.now, s.input);
      } else if s.Other? && ByOthers(s.txn) {
        OtherNames(c, w.tables, w.now, s.txn);
      }
      forall id | id in w.tables.versions ensures SameNumber(w.tables.versions[id], n.versions[id]) {
        NextMoves(c, w, s, id);
      }
      RenamedNumbered(w.tables, n);
    }
  }

  lemma {:induction false} AlwaysNumbered(c: Setting, steps: seq<Step>)
    ensures Numbered(RunFrom(c, START, steps).tables)
  {
    if steps != [] {
      AlwaysNumbered(c, steps[..|steps| - 1]);
      NextNumbered(c, RunFrom(c, START, steps[..|steps| - 1]), steps[|steps| - 1]);
    }
  }

  lemma {:induction false} RunSplits(c: Setting, w: World, first: seq<Step>, rest: seq<Step>)
    ensures RunFrom(c, w, first + rest) == RunFrom(c, RunFrom(c, w, first), rest)
  {
    if rest == [] {
      assert first + rest == first;
    } else {
      RunSplits(c, w, first, rest[..|rest| - 1]);
      assert (first + rest)[..|first + rest| - 1] == first + rest[..|rest| - 1];
    }
  }

  /** An object recovery lists for a settled version is inert: no version row will ever name it. */
  lemma SettledOrphanIsInert(c: Setting, steps: seq<Step>, more: seq<Step>, id: VersionId, locator: string,
                             k: VersionId)
    requires var w := RunFrom(c, START, steps);
      && id in w.tables.versions && w.tables.versions[id].status != Generating
      && OrphanOf(w.tables.versions[id], w.objects, locator)
    requires k in RunFrom(c, START, steps + more).tables.versions
    ensures !References(RunFrom(c, START, steps + more).tables.versions[k], locator)
  {
    var w, n := RunFrom(c, START, steps), RunFrom(c, START, steps + more);
    RunSplits(c, START, steps, more);
    Settled(c, w, more, id);
    AlwaysBundled(c, steps + more);
    AlwaysNumbered(c, steps + more);
    var v, row := w.tables.versions[id], n.tables.versions[k];
    if References(row, locator) {
      var g :| 1 <= g <= v.generation && IsLocatorOf(v, g, locator);
      var name := if locator == ObjectLocator(v.package, v.number, g, CONTEXT) then CONTEXT else ARTIFACT;
      var other := if ContextLocator in row.fields && row.fields[ContextLocator] == locator then CONTEXT else ARTIFACT;
      LocatorAttributes(v.package, v.number, g, name, row.package, row.number, 1, other);
      assert SameNumber(n.tables.versions[id], row);
      assert false;
    }
  }
}
