/** The lease-protected generation worker and recovery (packages/domain/pipeline.py). A worker's
    stages are its atomic accesses to the shared tables and objects; everything a model, renderer
    or extractor returns is an arbitrary input of the stage that uses it. */
module Pipeline {
  import opened Basics
  import opened Packages
  import opened PackageStore

  const LEASE_SECONDS := 60
  const CONTEXT := "context.json"
  const ARTIFACT := "cv.pdf"

  /** The digest of stored bytes, what a report's own `passed` flag says, and the suite in force. */
  datatype Setting = Setting(hash: string -> string, passes: string -> bool, suite: Suite)

  type Objects = map<string, string>

  datatype Phase =
    | CheckContext | WriteContext | ReadContext | StageContext
    | StageDraft
    | CheckArtifact | WriteArtifact | ReadArtifact | StageArtifact
    | StageAts | Finalizing
    | Rejecting(report: string)  // a verdict against the draft, reported under the lease
    | Stopping(report: string)   // a stage raised
    | LeaseGone                  // a lease check or fenced write was refused
    | Finished(outcome: Status)

  datatype Worker = Worker(
    package: string, number: nat, owner: string, generation: nat, phase: Phase,
    beating: bool, lost: bool, broken: bool,
    contextHash: string, content: string, trail: string, artifactHash: string, ats: string)

  /** What the outside world hands to a stage: texts, and the report to file should the stage fail. */
  datatype Input = Input(text: string, second: string, report: string)

  datatype Shared = Shared(tables: Tables, objects: Objects, worker: Worker)

  function Locator(w: Worker, name: string): string {
    ObjectLocator(w.package, w.number, w.generation, name)
  }

  function ContextFields(w: Worker): map<Field, string> {
    map[ContextLocator := Locator(w, CONTEXT), ContextHash := w.contextHash]
  }

  function DraftFields(w: Worker): map<Field, string> {
    map[ContentModel := w.content, VerifierReport := w.trail]
  }

  function ArtifactFields(w: Worker): map<Field, string> {
    map[ArtifactLocator := Locator(w, ARTIFACT), ArtifactHash := w.artifactHash]
  }

  function AtsFields(w: Worker): map<Field, string> {
    map[AtsReport := w.ats]
  }

  /** The full audit bundle the worker finalizes with. */
  function BundleOf(w: Worker): map<Field, string> {
    ContextFields(w) + DraftFields(w) + ArtifactFields(w) + AtsFields(w)
  }

  lemma SomethingStaged(w: Worker)
    ensures ContextFields(w) != map[] && DraftFields(w) != map[] && ArtifactFields(w) != map[] && AtsFields(w) != map[]
  {
    assert ContextHash in ContextFields(w) && VerifierReport in DraftFields(w);
    assert ArtifactHash in ArtifactFields(w) && AtsReport in AtsFields(w);
  }

  function After(r: Result<(), Error>, ok: Phase, report: string): Phase {
    match r
    case Ok(_) => ok
    case Err(LeaseLost) => LeaseGone
    case Err(_) => Stopping(report)
  }

  function Answer(granted: bool, t: Tables, id: VersionId): Result<(), Error> {
    if granted then Ok(()) else Err(Refusal(t, id))
  }

  /** Stage some fields of the version, then go on to the next phase. */
  ghost function StageStep(c: Setting, s: Shared, id: VersionId, now: nat, fields: map<Field, string>, next: Phase,
                           report: string): Shared {
    var w := s.worker;
    var x := Progress(id, w.owner, w.generation, fields);
    Shared(Commit(s.tables, c.suite, now, x), s.objects,
      w.(phase := After(Answer(Granted(s.tables, c.suite, now, x), s.tables, id), next, report)))
  }

  function CheckStep(s: Shared, id: VersionId, now: nat, next: Phase): Shared {
    var w := s.worker;
    s.(worker := w.(phase := if w.lost || !Holds(s.tables, id, w.owner, w.generation, now) then LeaseGone else next))
  }

  function WriteStep(s: Shared, name: string, i: Input, next: Phase): Shared {
    var w := s.worker;
    if Locator(w, name) in s.objects then s.(worker := w.(phase := Stopping(i.report)))
    else s.(objects := s.objects[Locator(w, name) := i.text], worker := w.(phase := next))
  }

  ghost function FailStep(c: Setting, s: Shared, id: VersionId, now: nat, report: string): Shared {
    var w := s.worker;
    Shared(Commit(s.tables, c.suite, now, FailVersion(id, w.owner, w.generation, report)), s.objects,
      w.(phase := Finished(Failed), beating := false))
  }

  ghost function RejectStep(c: Setting, s: Shared, id: VersionId, now: nat, report: string): Shared {
    var w := s.worker;
    var x := FailVersion(id, w.owner, w.generation, report);
    Shared(Commit(s.tables, c.suite, now, x), s.objects, w.(
      phase :=
        if Granted(s.tables, c.suite, now, x) then Finished(Failed)
        else if !Blank(report) && Refusal(s.tables, id) == LeaseLost then LeaseGone else Stopping(report),
      beating := false))
  }

  ghost function FinalStep(c: Setting, s: Shared, id: VersionId, now: nat, report: string): Shared {
    var w := s.worker;
    var x := Finalize(id, w.owner, w.generation, BundleOf(w));
    Shared(Commit(s.tables, c.suite, now, x), s.objects, w.(
      phase :=
        if Granted(s.tables, c.suite, now, x) then Finished(Verified)
        else if IsBundle(BundleOf(w)) && Refusal(s.tables, id) == LeaseLost then LeaseGone else Stopping(report),
      beating := false))
  }

  /** One atomic stage of the worker of version `id`. */
  ghost function WorkStep(c: Setting, s: Shared, id: VersionId, now: nat, i: Input): Shared {
    var w := s.worker;
    match w.phase
    case CheckContext => CheckStep(s, id, now, WriteContext)
    case WriteContext => WriteStep(s, CONTEXT, i, ReadContext)
    case ReadContext =>
      if Locator(w, CONTEXT) !in s.objects then s.(worker := w.(phase := Stopping(i.report)))
      else s.(worker := w.(phase := StageContext, contextHash := c.hash(s.objects[Locator(w, CONTEXT)])))
    case StageContext => StageStep(c, s, id, now, ContextFields(w), StageDraft, i.report)
    case StageDraft =>
      var drafted := w.(content := i.text, trail := i.second);
      StageStep(c, s.(worker := drafted), id, now, DraftFields(drafted),
        if c.passes(i.second) then CheckArtifact else Rejecting(i.report), i.report)
    case CheckArtifact => CheckStep(s, id, now, WriteArtifact)
    case WriteArtifact => WriteStep(s, ARTIFACT, i, ReadArtifact)
    case ReadArtifact =>
      if Locator(w, ARTIFACT) !in s.objects then s.(worker := w.(phase := Stopping(i.report)))
      else s.(worker := w.(phase := StageArtifact, artifactHash := c.hash(s.objects[Locator(w, ARTIFACT)])))
    case StageArtifact => StageStep(c, s, id, now, ArtifactFields(w), StageAts, i.report)
    case StageAts =>
      var checked := w.(ats := i.text);
      StageStep(c, s.(worker := checked), id, now, AtsFields(checked),
        if c.passes(i.text) then Finalizing else Rejecting(i.report), i.report)
    case Finalizing => FinalStep(c, s, id, now, i.report)
    case Rejecting(report) => RejectStep(c, s, id, now, report)
    case Stopping(report) => FailStep(c, s, id, now, report)
    case LeaseGone =>
      if w.broken then FailStep(c, s, id, now, i.report)
      else s.(worker := w.(phase := Finished(Failed), beating := false))
    case Finished(_) => s
  }

  // ----- the worker and the object store -----

  /** Write-once object storage. */
  class ObjectStorage {
    var objects: Objects

    constructor ()
      ensures objects == map[]
    {
      objects := map[];
    }

    /** Refuses to overwrite. */
    method WriteNew(locator: string, content: string) returns (ok: bool)
      modifies this
      ensures ok <==> locator !in old(objects)
      ensures objects == if ok then old(objects)[locator := content] else old(objects)
    {
      ok := locator !in objects;
      if ok {
        objects := objects[locator := content];
      }
    }
  }

  function Started(package: string, number: nat, owner: string): Worker {
    Worker(package, number, owner, 1, CheckContext, true, false, false, "", "", "", "", "")
  }

  class GenerationWorker {
    const repo: PackageRepository
    const storage: ObjectStorage
    const setting: Setting
    const id: VersionId
    var worker: Worker

    constructor (repo: PackageRepository, storage: ObjectStorage, setting: Setting,
                 id: VersionId, package: string, number: nat, owner: string)
      ensures this.repo == repo && this.storage == storage && this.setting == setting && this.id == id
      ensures worker == Started(package, number, owner)
    {
      this.repo, this.storage, this.setting, this.id := repo, storage, setting, id;
      worker := Started(package, number, owner);
    }

    function State(): Shared
      reads this, repo, storage
    {
      Shared(repo.State(), storage.objects, worker)
    }

    /** Nothing is written unless the lease still holds. */
    method Guard(next: Phase, now: nat)
      modifies this`worker
      ensures State() == CheckStep(old(State()), id, now, next)
    {
      var gone := worker.lost || !Holds(repo.State(), id, worker.owner, worker.generation, now);
      worker := worker.(phase := if gone then LeaseGone else next);
    }

    method Write(name: string, i: Input, next: Phase)
      modifies this`worker, storage
      ensures State() == WriteStep(old(State()), name, i, next)
    {
      var ok := storage.WriteNew(Locator(worker, name), i.text);
      worker := worker.(phase := if ok then next else Stopping(i.report));
    }

    method Stage(fields: map<Field, string>, next: Phase, report: string, now: nat)
      requires repo.current == setting.suite
      requires Stageable(fields) && fields != map[]
      modifies this`worker, repo
      ensures State() == StageStep(setting, old(State()), id, now, fields, next, report)
    {
      var r := repo.RecordProgress(id, worker.owner, worker.generation, fields, now);
      worker := worker.(phase := After(r, next, report));
    }

    /** No beat comes after this; the failure is filed if the lease allows it. */
    method StopAndFail(report: string, now: nat)
      requires repo.current == setting.suite
      modifies this`worker, repo
      ensures State() == FailStep(setting, old(State()), id, now, report)
    {
      worker := worker.(beating := false);
      var _ := repo.MarkFailed(id, worker.owner, worker.generation, report, now);
      worker := worker.(phase := Finished(Failed));
    }

    method StopAndReject(report: string, now: nat)
      requires repo.current == setting.suite
      modifies this`worker, repo
      ensures State() == RejectStep(setting, old(State()), id, now, report)
    {
      worker := worker.(beating := false);
      var r := repo.MarkFailed(id, worker.owner, worker.generation, report, now);
      worker := worker.(phase := After(r, Finished(Failed), report));
    }

    method StopAndFinalize(report: string, now: nat)
      requires repo.current == setting.suite
      modifies this`worker, repo
      ensures State() == FinalStep(setting, old(State()), id, now, report)
    {
      worker := worker.(beating := false);
      var r := repo.FinalizeVerified(id, worker.owner, worker.generation, BundleOf(worker), now);
      worker := worker.(phase := After(r, Finished(Verified), report));
    }

    /** Run the next stage. */
    method Advance(i: Input, now: nat)
      requires repo.current == setting.suite
      modifies this`worker, repo, storage
      ensures State() == WorkStep(setting, old(State()), id, now, i)
    {
      SomethingStaged(worker);
      match worker.phase
      case CheckContext => Guard(WriteContext, now);
      case WriteContext => Write(CONTEXT, i, ReadContext);
      case ReadContext =>
        if Locator(worker, CONTEXT) !in storage.objects {
          worker := worker.(phase := Stopping(i.report));
        } else {
          var hash := setting.hash(storage.objects[Locator(worker, CONTEXT)]);
          worker := worker.(phase := StageContext, contextHash := hash);
        }
      case StageContext => Stage(ContextFields(worker), StageDraft, i.report, now);
      case StageDraft =>
        worker := worker.(content := i.text, trail := i.second);
        SomethingStaged(worker);
        var next := if setting.passes(i.second) then CheckArtifact else Rejecting(i.report);
        Stage(DraftFields(worker), next, i.report, now);
      case CheckArtifact => Guard(WriteArtifact, now);
      case WriteArtifact => Write(ARTIFACT, i, ReadArtifact);
      case ReadArtifact =>
        if Locator(worker, ARTIFACT) !in storage.objects {
          worker := worker.(phase := Stopping(i.report));
        } else {
          var hash := setting.hash(storage.objects[Locator(worker, ARTIFACT)]);
          worker := worker.(phase := StageArtifact, artifactHash := hash);
        }
      case StageArtifact => Stage(ArtifactFields(worker), StageAts, i.report, now);
      case StageAts =>
        worker := worker.(ats := i.text);
        SomethingStaged(worker);
        Stage(AtsFields(worker), if setting.passes(i.text) then Finalizing else Rejecting(i.report), i.report, now);
      case Finalizing => StopAndFinalize(i.report, now);
      case Rejecting(report) => StopAndReject(report, now);
      case Stopping(report) => StopAndFail(report, now);
      case LeaseGone =>
        if worker.broken {
          StopAndFail(i.report, now);
        } else {
          worker := worker.(phase := Finished(Failed), beating := false);
        }
      case Finished(_) =>
    }

    /** One heartbeat: a renewal that touches no row stops the worker for good. */
    method Beat(now: nat)
      requires repo.current == setting.suite
      modifies this`worker, repo
      ensures State() == BeatStep(setting, old(State()), id, now)
    {
      if worker.beating && !worker.lost {
        var ok := repo.RenewLease(id, worker.owner, worker.generation, LEASE_SECONDS, now);
        worker := worker.(lost := !ok);
      }
    }
  }

  ghost function BeatStep(c: Setting, s: Shared, id: VersionId, now: nat): Shared {
    var w := s.worker;
    var x := Renew(id, w.owner, w.generation, LEASE_SECONDS);
    if !w.beating || w.lost then s
    else Shared(Commit(s.tables, c.suite, now, x), s.objects, w.(lost := !Granted(s.tables, c.suite, now, x)))
  }

  // ----- recovery -----

  /** An object of this version, under any lease generation so far, that its row does not name. */
  predicate OrphanOf(v: Version, objects: Objects, locator: string) {
    locator in objects && !References(v, locator) && OwnsLocator(v, locator)
  }

  predicate References(v: Version, locator: string) {
    || (ContextLocator in v.fields && v.fields[ContextLocator] == locator)
    || (ArtifactLocator in v.fields && v.fields[ArtifactLocator] == locator)
  }

  predicate OwnsLocator(v: Version, locator: string) {
    exists g :: 1 <= g <= v.generation && IsLocatorOf(v, g, locator)
  }

  predicate IsLocatorOf(v: Version, g: nat, locator: string) {
    || locator == ObjectLocator(v.package, v.number, g, CONTEXT)
    || locator == ObjectLocator(v.package, v.number, g, ARTIFACT)
  }

  method Unreferenced(v: Version, objects: Objects) returns (orphans: seq<string>)
    ensures forall l :: l in orphans <==> OrphanOf(v, objects, l)
  {
    orphans := [];
    for g := 1 to v.generation + 1
      invariant forall l :: l in orphans <==>
        l in objects && !References(v, l) && exists h :: 1 <= h < g && IsLocatorOf(v, h, l)
    {
      var first := ObjectLocator(v.package, v.number, g, CONTEXT);
      var second := ObjectLocator(v.package, v.number, g, ARTIFACT);
      if !References(v, first) && first in objects {
        orphans := orphans + [first];
      }
      if !References(v, second) && second in objects {
        orphans := orphans + [second];
      }
      assert IsLocatorOf(v, g, first) && IsLocatorOf(v, g, second);
    }
  }

  /** Claim the expired versions, then list the objects no row names. `listed` pairs each version
      with the status it was listed under. */
  method RecoverExpired(repo: PackageRepository, storage: ObjectStorage, listed: seq<(VersionId, Status)>,
                        report: string, now: nat)
    returns (claimed: seq<VersionId>, orphans: seq<string>)
    requires forall p :: p in listed ==> p.0 in repo.versions
    requires !Blank(report)
    modifies repo`versions
    ensures forall id :: id in claimed <==> (id, Generating) in listed && Claimable(old(repo.State()), id, now)
    ensures repo.versions ==
      map id | id in old(repo.versions) :: RecoveredRow(old(repo.versions)[id], id in claimed, report)
    ensures forall l :: l in orphans <==> exists p :: p in listed && OrphanOf(repo.versions[p.0], storage.objects, l)
  {
    claimed := [];
    ghost var before := repo.State();
    for i := 0 to |listed|
      invariant forall id :: id in claimed <==> (id, Generating) in listed[..i] && Claimable(before, id, now)
      invariant repo.versions ==
        map id | id in before.versions :: RecoveredRow(before.versions[id], id in claimed, report)
      invariant Distinct(claimed)
    {
      var (id, status) := listed[i];
      if status == Generating {
        var r := repo.ClaimExpiredAndFail(id, report, now);
        if r == Ok(true) {
          claimed := claimed + [id];
        }
      }
      assert listed[..i + 1] == listed[..i] + [listed[i]];
    }
    assert listed[..|listed|] == listed;
    orphans := ListOrphans(repo, storage, listed);
  }

  method ListOrphans(repo: PackageRepository, storage: ObjectStorage, listed: seq<(VersionId, Status)>)
    returns (orphans: seq<string>)
    requires forall p :: p in listed ==> p.0 in repo.versions
    ensures forall l :: l in orphans <==> exists p :: p in listed && OrphanOf(repo.versions[p.0], storage.objects, l)
  {
    orphans := [];
    for i := 0 to |listed|
      invariant forall l :: l in orphans <==>
        exists p :: p in listed[..i] && OrphanOf(repo.versions[p.0], storage.objects, l)
    {
      var more := Unreferenced(repo.versions[listed[i].0], storage.objects);
      orphans := orphans + more;
      assert listed[..i + 1] == listed[..i] + [listed[i]];
    }
    assert listed[..|listed|] == listed;
  }

  function RecoveredRow(v: Version, claim: bool, report: string): Version {
    if claim then FailedWith(v, report).(generation := v.generation + 1) else v
  }
}
