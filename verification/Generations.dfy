/** A generation nobody disturbs: what the row and the objects are once the worker is through, by what the draft and
    the ATS check came to (packages/domain/pipeline.py:187-282). */
module Generations {
  import opened Basics
  import opened Packages
  import opened PackageStore
  import opened Pipeline
  import PipelineRuns

  /** What the outside hands to the worker on the way: the context snapshot, the draft with its report, the document,
      the ATS report, and what a failure would be reported as. */
  datatype Course = Course(
    context: string, draft: string, trail: string, document: string, ats: string,
    unverified: string, unreadable: string, incomplete: string)

  /** The inputs of one stage after the other. */
  function Inputs(x: Course): seq<Input> {
    var none := Input("", "", "");
    [none, Input(x.context, "", ""), none, none,
     Input(x.draft, x.trail, x.unverified),
     none, Input(x.document, "", ""), none, none,
     Input(x.ats, "", x.unreadable),
     Input("", "", x.incomplete), none, none]
  }

  /** A worker just started, its version under its lease, and no object at its places. */
  ghost predicate Fresh(s: Shared, id: VersionId, now: nat) {
    && s.worker.phase == CheckContext && !s.worker.lost
    && Holds(s.tables, id, s.worker.owner, s.worker.generation, now)
    && Locator(s.worker, CONTEXT) !in s.objects && Locator(s.worker, ARTIFACT) !in s.objects
    && Locator(s.worker, CONTEXT) != Locator(s.worker, ARTIFACT)
  }

  /** The row with more fields. */
  function With(t: Tables, id: VersionId, fields: map<Field, string>): Tables
    requires id in t.versions
  {
    t.(versions := t.versions[id := t.versions[id].(fields := t.versions[id].fields + fields)])
  }

  function ContextPart(c: Setting, w: Worker, x: Course): map<Field, string> {
    map[ContextLocator := ObjectLocator(w.package, w.number, w.generation, "context.json"),
        ContextHash := c.hash(x.context)]
  }

  function DraftPart(x: Course): map<Field, string> {
    map[ContentModel := x.draft, VerifierReport := x.trail]
  }

  function DocumentPart(c: Setting, w: Worker, x: Course): map<Field, string> {
    map[ArtifactLocator := ObjectLocator(w.package, w.number, w.generation, "cv.pdf"),
        ArtifactHash := c.hash(x.document)]
  }

  function AtsPart(x: Course): map<Field, string> {
    map[AtsReport := x.ats]
  }

  /** Stage one: the context snapshot is stored, read back and recorded. */
  lemma ContextStored(c: Setting, s: Shared, id: VersionId, now: nat, x: Course)
    requires Fresh(s, id, now)
    ensures var none := Input("", "", "");
      var n := WorkStep(c, WorkStep(c, WorkStep(c, WorkStep(c, s, id, now, none), id, now, Input(x.context, "", "")),
                                    id, now, none), id, now, none);
      && n.tables == With(s.tables, id, ContextPart(c, s.worker, x))
      && n.objects == s.objects[Locator(s.worker, CONTEXT) := x.context]
      && n.worker == s.worker.(phase := StageDraft, contextHash := c.hash(x.context))
  {
    var none := Input("", "", "");
    var a := WorkStep(c, s, id, now, none);
    assert a == s.(worker := s.worker.(phase := WriteContext));
    var b := WorkStep(c, a, id, now, Input(x.context, "", ""));
    assert b.worker == s.worker.(phase := ReadContext) && b.tables == s.tables;
    var d := WorkStep(c, b, id, now, none);
    assert d.worker == s.worker.(phase := StageContext, contextHash := c.hash(x.context));
    StageRecords(c, d, id, now, ContextFields(d.worker), StageDraft, "");
    assert ContextFields(d.worker) == ContextPart(c, s.worker, x);
  }

  lemma StageRecords(c: Setting, s: Shared, id: VersionId, now: nat, fields: map<Field, string>, next: Phase,
                     report: string)
    requires Holds(s.tables, id, s.worker.owner, s.worker.generation, now) && Stageable(fields)
    ensures StageStep(c, s, id, now, fields, next, report) ==
      Shared(With(s.tables, id, fields), s.objects, s.worker.(phase := next))
  {
    assert Granted(s.tables, c.suite, now, Progress(id, s.worker.owner, s.worker.generation, fields));
  }

  /** Where the worker stands before a stage, with what it has recorded. */
  ghost predicate At(c: Setting, s0: Shared, s: Shared, id: VersionId, now: nat, phase: Phase,
                     fields: map<Field, string>) {
    && Holds(s0.tables, id, s0.worker.owner, s0.worker.generation, now)
    && s.tables == With(s0.tables, id, fields) && s.worker.phase == phase && !s.worker.lost
    && s.worker.package == s0.worker.package && s.worker.number == s0.worker.number
    && s.worker.owner == s0.worker.owner && s.worker.generation == s0.worker.generation
  }

  lemma WithWith(t: Tables, id: VersionId, a: map<Field, string>, b: map<Field, string>)
    requires id in t.versions
    ensures With(With(t, id, a), id, b) == With(t, id, a + b)
  {
    assert (t.versions[id].fields + a) + b == t.versions[id].fields + (a + b);
  }

  /** Stage two: the draft is recorded with its report, whatever that says. */
  lemma DraftRecorded(c: Setting, s0: Shared, s: Shared, id: VersionId, now: nat, x: Course, fields: map<Field, string>)
    requires At(c, s0, s, id, now, StageDraft, fields)
    ensures var n := WorkStep(c, s, id, now, Input(x.draft, x.trail, x.unverified));
      && At(c, s0, n, id, now, if c.passes(x.trail) then CheckArtifact else Rejecting(x.unverified),
            fields + DraftPart(x))
      && n.objects == s.objects
      && n.worker == s.worker.(phase := n.worker.phase, content := x.draft, trail := x.trail)
  {
    var drafted := s.worker.(content := x.draft, trail := x.trail);
    StageRecords(c, s.(worker := drafted), id, now, DraftFields(drafted),
      if c.passes(x.trail) then CheckArtifact else Rejecting(x.unverified), x.unverified);
    WithWith(s0.tables, id, fields, DraftPart(x));
  }

  /** Stage three: the document is stored, read back and recorded. */
  lemma DocumentStored(c: Setting, s0: Shared, s: Shared, id: VersionId, now: nat, x: Course,
                       fields: map<Field, string>)
    requires At(c, s0, s, id, now, CheckArtifact, fields) && Locator(s.worker, ARTIFACT) !in s.objects
    ensures var none := Input("", "", "");
      var n := WorkStep(c, WorkStep(c, WorkStep(c, WorkStep(c, s, id, now, none), id, now, Input(x.document, "", "")),
                                    id, now, none), id, now, none);
      && At(c, s0, n, id, now, StageAts, fields + DocumentPart(c, s0.worker, x))
      && n.objects == s.objects[Locator(s.worker, ARTIFACT) := x.document]
      && n.worker == s.worker.(phase := StageAts, artifactHash := c.hash(x.document))
  {
    var none := Input("", "", "");
    var a := WorkStep(c, s, id, now, none);
    assert a == s.(worker := s.worker.(phase := WriteArtifact));
    var b := WorkStep(c, a, id, now, Input(x.document, "", ""));
    assert b.worker == s.worker.(phase := ReadArtifact) && b.tables == s.tables;
    var d := WorkStep(c, b, id, now, none);
    assert d.worker == s.worker.(phase := StageArtifact, artifactHash := c.hash(x.document));
    StageRecords(c, d, id, now, ArtifactFields(d.worker), StageAts, "");
    assert ArtifactFields(d.worker) == DocumentPart(c, s0.worker, x);
    WithWith(s0.tables, id, fields, DocumentPart(c, s0.worker, x));
  }

  /** Stage four: the ATS report is recorded, whatever it says. */
  lemma AtsRecorded(c: Setting, s0: Shared, s: Shared, id: VersionId, now: nat, x: Course, fields: map<Field, string>)
    requires At(c, s0, s, id, now, StageAts, fields)
    ensures var n := WorkStep(c, s, id, now, Input(x.ats, "", x.unreadable));
      && At(c, s0, n, id, now, if c.passes(x.ats) then Finalizing else Rejecting(x.unreadable), fields + AtsPart(x))
      && n.objects == s.objects && n.worker == s.worker.(phase := n.worker.phase, ats := x.ats)
  {
    var checked := s.worker.(ats := x.ats);
    StageRecords(c, s.(worker := checked), id, now, AtsFields(checked),
      if c.passes(x.ats) then Finalizing else Rejecting(x.unreadable), x.unreadable);
    WithWith(s0.tables, id, fields, AtsPart(x));
  }

  /** The version failed under this report, with these fields recorded, and the worker is through. */
  ghost predicate EndsFailed(s0: Shared, n: Shared, id: VersionId, fields: map<Field, string>, report: string) {
    && id in s0.tables.versions
    && n.tables == s0.tables.(versions := s0.tables.versions[id := s0.tables.versions[id].(
         status := Failed, fields := (s0.tables.versions[id].fields + fields)[FailureReport := report])])
    && n.worker.phase == Finished(Failed) && !n.worker.beating
  }

  lemma Rejected(c: Setting, s0: Shared, s: Shared, id: VersionId, now: nat, i: Input, report: string,
                 fields: map<Field, string>)
    requires At(c, s0, s, id, now, Rejecting(report), fields) && !Blank(report)
    ensures EndsFailed(s0, WorkStep(c, s, id, now, i), id, fields, report)
  {
    assert Granted(s.tables, c.suite, now, FailVersion(id, s.worker.owner, s.worker.generation, report));
  }

  /** Everything the worker recorded. */
  function Parts(c: Setting, w: Worker, x: Course): map<Field, string> {
    ContextPart(c, w, x) + DraftPart(x) + DocumentPart(c, w, x) + AtsPart(x)
  }

  predicate AllSaid(c: Setting, x: Course) {
    x.draft != "" && x.trail != "" && x.ats != "" && c.hash(x.context) != "" && c.hash(x.document) != ""
  }

  ghost predicate EndsVerified(s0: Shared, n: Shared, id: VersionId, fields: map<Field, string>) {
    && id in s0.tables.versions
    && n.tables == s0.tables.(versions := s0.tables.versions[id :=
         s0.tables.versions[id].(status := Verified, fields := s0.tables.versions[id].fields + fields)])
    && n.worker.phase == Finished(Verified) && !n.worker.beating
  }

  /** The worker carries what it has recorded. */
  ghost predicate Carries(c: Setting, s0: Shared, s: Shared, x: Course) {
    && s.worker.contextHash == c.hash(x.context) && s.worker.content == x.draft && s.worker.trail == x.trail
    && s.worker.artifactHash == c.hash(x.document) && s.worker.ats == x.ats
  }

  /** The last stage: the whole bundle at once, if nothing in it is empty. */
  lemma Finalized(c: Setting, s0: Shared, s: Shared, id: VersionId, now: nat, i: Input, x: Course)
    requires At(c, s0, s, id, now, Finalizing, Parts(c, s0.worker, x)) && Carries(c, s0, s, x)
    ensures AllSaid(c, x) ==> EndsVerified(s0, WorkStep(c, s, id, now, i), id, Parts(c, s0.worker, x))
    ensures !AllSaid(c, x) ==>
      At(c, s0, WorkStep(c, s, id, now, i), id, now, Stopping(i.report), Parts(c, s0.worker, x))
  {
    PartsFiled(c, s0, s, id, now, i, x);
    FiledWell(c, s0, s, WorkStep(c, s, id, now, i), id, now, i.report, Parts(c, s0.worker, x));
    BundleSaid(c, s0.worker, x);
  }

  lemma PartsFiled(c: Setting, s0: Shared, s: Shared, id: VersionId, now: nat, i: Input, x: Course)
    requires Holds(s.tables, id, s.worker.owner, s.worker.generation, now) && s.worker.phase == Finalizing
    requires s.worker.package == s0.worker.package && s.worker.number == s0.worker.number
    requires s.worker.generation == s0.worker.generation && Carries(c, s0, s, x)
    ensures Filed(s, WorkStep(c, s, id, now, i), id, i.report, Parts(c, s0.worker, x))
  {
    BundleIs(c, s0, s, x);
    BundleFiled(c, s, id, now, i.report, Parts(c, s0.worker, x));
  }

  /** What filing this bundle gives. */
  ghost predicate Filed(s: Shared, n: Shared, id: VersionId, report: string, bundle: map<Field, string>) {
    && id in s.tables.versions && n.objects == s.objects
    && if IsBundle(bundle)
       then n.worker == s.worker.(phase := Finished(Verified), beating := false)
            && n.tables.versions == s.tables.versions[id :=
                 s.tables.versions[id].(status := Verified, fields := s.tables.versions[id].fields + bundle)]
            && n.tables == s.tables.(versions := n.tables.versions)
       else n.worker == s.worker.(phase := Stopping(report), beating := false) && n.tables == s.tables
  }

  lemma FiledWell(c: Setting, s0: Shared, s: Shared, n: Shared, id: VersionId, now: nat, report: string,
                  bundle: map<Field, string>)
    requires At(c, s0, s, id, now, Finalizing, bundle) && Filed(s, n, id, report, bundle)
    ensures if IsBundle(bundle) then EndsVerified(s0, n, id, bundle)
            else At(c, s0, n, id, now, Stopping(report), bundle)
  {
    if IsBundle(bundle) {
      FiledOnce(s0.tables, s.tables, n.tables, id, bundle);
    }
  }

  lemma FiledOnce(t0: Tables, t: Tables, n: Tables, id: VersionId, bundle: map<Field, string>)
    requires id in t0.versions && t == With(t0, id, bundle)
    requires n.versions == t.versions[id :=
               t.versions[id].(status := Verified, fields := t.versions[id].fields + bundle)]
    requires n == t.(versions := n.versions)
    ensures n == t0.(versions := t0.versions[id :=
              t0.versions[id].(status := Verified, fields := t0.versions[id].fields + bundle)])
  {
    var fields := t0.versions[id].fields;
    assert fields + bundle + bundle == fields + bundle;
  }

  lemma BundleFiled(c: Setting, s: Shared, id: VersionId, now: nat, report: string, bundle: map<Field, string>)
    requires Holds(s.tables, id, s.worker.owner, s.worker.generation, now) && bundle == BundleOf(s.worker)
    ensures Filed(s, FinalStep(c, s, id, now, report), id, report, bundle)
  {
    BundleGranted(s.tables, c.suite, now, id, s.worker.owner, s.worker.generation, bundle);
  }

  lemma BundleGranted(t: Tables, current: Suite, now: nat, id: VersionId, owner: string, generation: nat,
                      bundle: map<Field, string>)
    requires Holds(t, id, owner, generation, now)
    ensures var x := Finalize(id, owner, generation, bundle);
      && (Granted(t, current, now, x) <==> IsBundle(bundle))
      && Commit(t, current, now, x) == if !IsBundle(bundle) then t else t.(versions := t.versions[id :=
           t.versions[id].(status := Verified, fields := t.versions[id].fields + bundle)])
  {
  }

  lemma BundleIs(c: Setting, s0: Shared, s: Shared, x: Course)
    requires Carries(c, s0, s, x)
    requires s.worker.package == s0.worker.package && s.worker.number == s0.worker.number
    requires s.worker.generation == s0.worker.generation
    ensures BundleOf(s.worker) == Parts(c, s0.worker, x)
  {
  }

  lemma BundleSaid(c: Setting, w: Worker, x: Course)
    ensures IsBundle(Parts(c, w, x)) <==> AllSaid(c, x)
  {
    var parts := Parts(c, w, x);
    assert parts[ContentModel] == x.draft && parts[VerifierReport] == x.trail && parts[AtsReport] == x.ats;
    assert parts[ContextHash] == c.hash(x.context) && parts[ArtifactHash] == c.hash(x.document);
    assert parts[ContextLocator] != "" && parts[ArtifactLocator] != "";
  }

  lemma Stopped(c: Setting, s0: Shared, s: Shared, id: VersionId, now: nat, i: Input, report: string,
                fields: map<Field, string>)
    requires At(c, s0, s, id, now, Stopping(report), fields) && !Blank(report)
    ensures EndsFailed(s0, WorkStep(c, s, id, now, i), id, fields, report)
  {
    assert Granted(s.tables, c.suite, now, FailVersion(id, s.worker.owner, s.worker.generation, report));
  }

  // ----- from start to end -----

  ghost predicate StageAt(c: Setting, id: VersionId, x: Course, w: seq<Shared>, k: nat, now: nat) {
    k < 13 < |w| && w[k + 1] == WorkStep(c, w[k], id, now, Inputs(x)[k])
  }

  /** One stage after the other, each at a time of its own. */
  ghost predicate Runs(c: Setting, id: VersionId, x: Course, w: seq<Shared>, times: seq<nat>) {
    && |w| == 14 && |times| == 13
    && forall k :: 0 <= k < 13 ==> StageAt(c, id, x, w, k, times[k])
  }

  /** The same at one time. */
  ghost predicate RunsAt(c: Setting, id: VersionId, x: Course, w: seq<Shared>, now: nat, n: nat) {
    |w| == 14 && n <= 13 && forall k :: 0 <= k < n ==> StageAt(c, id, x, w, k, now)
  }

  lemma CommitsAlike(t: Tables, current: Suite, now: nat, later: nat, x: Txn)
    requires PipelineRuns.Fenced(x)
    requires x.id in t.versions && now < t.versions[x.id].expires && later < t.versions[x.id].expires
    ensures Granted(t, current, now, x) == Granted(t, current, later, x)
    ensures Commit(t, current, now, x) == Commit(t, current, later, x)
  {
  }

  lemma StagesAlike(c: Setting, s: Shared, id: VersionId, now: nat, later: nat, fields: map<Field, string>, next: Phase,
                    report: string)
    requires id in s.tables.versions
    requires now < s.tables.versions[id].expires && later < s.tables.versions[id].expires
    ensures StageStep(c, s, id, now, fields, next, report) == StageStep(c, s, id, later, fields, next, report)
    ensures FinalStep(c, s, id, now, report) == FinalStep(c, s, id, later, report)
    ensures FailStep(c, s, id, now, report) == FailStep(c, s, id, later, report)
    ensures RejectStep(c, s, id, now, report) == RejectStep(c, s, id, later, report)
    ensures CheckStep(s, id, now, next) == CheckStep(s, id, later, next)
  {
    var w := s.worker;
    CommitsAlike(s.tables, c.suite, now, later, Progress(id, w.owner, w.generation, fields));
    CommitsAlike(s.tables, c.suite, now, later, Finalize(id, w.owner, w.generation, BundleOf(w)));
    CommitsAlike(s.tables, c.suite, now, later, FailVersion(id, w.owner, w.generation, report));
  }

  /** While the lease lasts the time does not matter. */
  lemma SameWhileHeld(c: Setting, s: Shared, id: VersionId, now: nat, later: nat, i: Input)
    requires id in s.tables.versions
    requires now < s.tables.versions[id].expires && later < s.tables.versions[id].expires
    ensures WorkStep(c, s, id, now, i) == WorkStep(c, s, id, later, i)
  {
    var w := s.worker;
    match w.phase
    case CheckContext => StagesAlike(c, s, id, now, later, map[], WriteContext, i.report);
    case StageContext => StagesAlike(c, s, id, now, later, ContextFields(w), StageDraft, i.report);
    case StageDraft =>
      var drafted := w.(content := i.text, trail := i.second);
      StagesAlike(c, s.(worker := drafted), id, now, later, DraftFields(drafted),
        if c.passes(i.second) then CheckArtifact else Rejecting(i.report), i.report);
    case CheckArtifact => StagesAlike(c, s, id, now, later, map[], WriteArtifact, i.report);
    case StageArtifact => StagesAlike(c, s, id, now, later, ArtifactFields(w), StageAts, i.report);
    case StageAts =>
      var checked := w.(ats := i.text);
      StagesAlike(c, s.(worker := checked), id, now, later, AtsFields(checked),
        if c.passes(i.text) then Finalizing else Rejecting(i.report), i.report);
    case Finalizing => StagesAlike(c, s, id, now, later, map[], Finalizing, i.report);
    case Rejecting(report) => StagesAlike(c, s, id, now, later, map[], Finalizing, report);
    case Stopping(report) => StagesAlike(c, s, id, now, later, map[], Finalizing, report);
    case LeaseGone => StagesAlike(c, s, id, now, later, map[], Finalizing, i.report);
    case _ =>
  }

  lemma CommitKeepsEnd(t: Tables, current: Suite, now: nat, x: Txn, id: VersionId)
    requires PipelineRuns.Fenced(x) && id in t.versions
    ensures id in Commit(t, current, now, x).versions
    ensures Commit(t, current, now, x).versions[id].expires == t.versions[id].expires
  {
  }

  lemma EndKept(c: Setting, s: Shared, id: VersionId, now: nat, i: Input)
    requires id in s.tables.versions
    ensures id in WorkStep(c, s, id, now, i).tables.versions
    ensures WorkStep(c, s, id, now, i).tables.versions[id].expires == s.tables.versions[id].expires
  {
    PipelineRuns.WorkCommits(c, s, id, now, i);
    var n := WorkStep(c, s, id, now, i).tables;
    if n != s.tables {
      var x :| PipelineRuns.Fenced(x) && n == Commit(s.tables, c.suite, now, x);
      CommitKeepsEnd(s.tables, c.suite, now, x, id);
    }
  }

  lemma {:induction false} AtOnce(c: Setting, id: VersionId, x: Course, w: seq<Shared>, times: seq<nat>, now: nat,
                                  n: nat)
    requires Runs(c, id, x, w, times) && n <= 13 && id in w[0].tables.versions
    requires now < w[0].tables.versions[id].expires
    requires forall k :: 0 <= k < 13 ==> times[k] < w[0].tables.versions[id].expires
    ensures id in w[n].tables.versions && w[n].tables.versions[id].expires == w[0].tables.versions[id].expires
    ensures RunsAt(c, id, x, w, now, n)
  {
    if n > 0 {
      AtOnce(c, id, x, w, times, now, n - 1);
      assert StageAt(c, id, x, w, n - 1, times[n - 1]);
      EndKept(c, w[n - 1], id, times[n - 1], Inputs(x)[n - 1]);
      SameWhileHeld(c, w[n - 1], id, times[n - 1], now, Inputs(x)[n - 1]);
    }
  }

  lemma StaysFinished(c: Setting, s: Shared, id: VersionId, now: nat, i: Input)
    requires s.worker.phase.Finished?
    ensures WorkStep(c, s, id, now, i) == s
  {
  }

  /** What an undisturbed generation comes to: failed after the draft, after the ATS check or for an empty text, under
      the report for that; or else verified, with everything recorded and no other field touched. Either way the
      context is stored, and the document too once the draft has passed. */
  ghost predicate Through(c: Setting, s: Shared, n: Shared, id: VersionId, x: Course) {
    var w := s.worker;
    if !c.passes(x.trail) then
      && EndsFailed(s, n, id, ContextPart(c, w, x) + DraftPart(x), x.unverified)
      && n.objects == s.objects[Locator(w, CONTEXT) := x.context]
    else
      && n.objects == s.objects[Locator(w, CONTEXT) := x.context][Locator(w, ARTIFACT) := x.document]
      && if !c.passes(x.ats) then EndsFailed(s, n, id, Parts(c, w, x), x.unreadable)
         else if AllSaid(c, x) then EndsVerified(s, n, id, Parts(c, w, x))
         else EndsFailed(s, n, id, Parts(c, w, x), x.incomplete)
  }

  ghost predicate Reports(x: Course) {
    !Blank(x.unverified) && !Blank(x.unreadable) && !Blank(x.incomplete)
  }

  lemma ContextAt(c: Setting, id: VersionId, x: Course, w: seq<Shared>, now: nat)
    requires RunsAt(c, id, x, w, now, 13) && Fresh(w[0], id, now)
    ensures w[4].tables == With(w[0].tables, id, ContextPart(c, w[0].worker, x))
    ensures w[4].objects == w[0].objects[Locator(w[0].worker, CONTEXT) := x.context]
    ensures w[4].worker == w[0].worker.(phase := StageDraft, contextHash := c.hash(x.context))
  {
    ContextStored(c, w[0], id, now, x);
    assert StageAt(c, id, x, w, 0, now) && StageAt(c, id, x, w, 1, now);
    assert StageAt(c, id, x, w, 2, now) && StageAt(c, id, x, w, 3, now);
  }

  /** The first five stages, at one time. */
  lemma ThroughDraft(c: Setting, id: VersionId, x: Course, w: seq<Shared>, now: nat)
    requires RunsAt(c, id, x, w, now, 13) && Fresh(w[0], id, now)
    ensures At(c, w[0], w[5], id, now, if c.passes(x.trail) then CheckArtifact else Rejecting(x.unverified),
               ContextPart(c, w[0].worker, x) + DraftPart(x))
    ensures w[5].objects == w[0].objects[Locator(w[0].worker, CONTEXT) := x.context]
    ensures w[5].worker == w[0].worker.(phase := w[5].worker.phase, contextHash := c.hash(x.context),
                                        content := x.draft, trail := x.trail)
  {
    ContextAt(c, id, x, w, now);
    var part := ContextPart(c, w[0].worker, x);
    assert At(c, w[0], w[4], id, now, StageDraft, part);
    DraftRecorded(c, w[0], w[4], id, now, x, part);
    assert StageAt(c, id, x, w, 4, now) && Inputs(x)[4] == Input(x.draft, x.trail, x.unverified);
  }

  /** The next four, once the draft has passed. */
  lemma DocumentAt(c: Setting, id: VersionId, x: Course, w: seq<Shared>, now: nat, fields: map<Field, string>)
    requires RunsAt(c, id, x, w, now, 13) && At(c, w[0], w[5], id, now, CheckArtifact, fields)
    requires Locator(w[5].worker, ARTIFACT) !in w[5].objects
    ensures At(c, w[0], w[9], id, now, StageAts, fields + DocumentPart(c, w[0].worker, x))
    ensures w[9].objects == w[5].objects[Locator(w[5].worker, ARTIFACT) := x.document]
    ensures w[9].worker == w[5].worker.(phase := StageAts, artifactHash := c.hash(x.document))
  {
    DocumentStored(c, w[0], w[5], id, now, x, fields);
    assert StageAt(c, id, x, w, 5, now) && StageAt(c, id, x, w, 6, now);
    assert StageAt(c, id, x, w, 7, now) && StageAt(c, id, x, w, 8, now);
  }

  /** The same and the ATS check. */
  lemma ThroughAts(c: Setting, id: VersionId, x: Course, w: seq<Shared>, now: nat, fields: map<Field, string>)
    requires RunsAt(c, id, x, w, now, 13) && At(c, w[0], w[5], id, now, CheckArtifact, fields)
    requires Locator(w[5].worker, ARTIFACT) !in w[5].objects
    ensures At(c, w[0], w[10], id, now, if c.passes(x.ats) then Finalizing else Rejecting(x.unreadable),
               fields + DocumentPart(c, w[0].worker, x) + AtsPart(x))
    ensures w[10].objects == w[5].objects[Locator(w[5].worker, ARTIFACT) := x.document]
    ensures w[10].worker == w[5].worker.(phase := w[10].worker.phase, artifactHash := c.hash(x.document), ats := x.ats)
  {
    DocumentAt(c, id, x, w, now, fields);
    AtsRecorded(c, w[0], w[9], id, now, x, fields + DocumentPart(c, w[0].worker, x));
    assert StageAt(c, id, x, w, 9, now);
  }

  lemma {:induction false} FinishedOn(c: Setting, id: VersionId, x: Course, w: seq<Shared>, now: nat, k: nat, n: nat)
    requires RunsAt(c, id, x, w, now, 13) && k <= n <= 13 && w[k].worker.phase.Finished?
    ensures w[n] == w[k]
  {
    if n > k {
      FinishedOn(c, id, x, w, now, k, n - 1);
      assert StageAt(c, id, x, w, n - 1, now);
      StaysFinished(c, w[n - 1], id, now, Inputs(x)[n - 1]);
    }
  }

  /** A generation that is not disturbed, its stages at any times before its lease is over, is through after thirteen
      of them, as it should be. */
  lemma Undisturbed(c: Setting, id: VersionId, x: Course, w: seq<Shared>, times: seq<nat>)
    requires Runs(c, id, x, w, times) && Fresh(w[0], id, times[0]) && Reports(x)
    requires forall k :: 0 <= k < 13 ==> times[k] < w[0].tables.versions[id].expires
    ensures Through(c, w[0], w[13], id, x)
  {
    var now := times[0];
    AtOnce(c, id, x, w, times, now, 13);
    ThroughDraft(c, id, x, w, now);
    if c.passes(x.trail) {
      ThroughAts(c, id, x, w, now, ContextPart(c, w[0].worker, x) + DraftPart(x));
      LastStages(c, id, x, w, now);
    } else {
      Rejected(c, w[0], w[5], id, now, Inputs(x)[5], x.unverified, ContextPart(c, w[0].worker, x) + DraftPart(x));
      assert StageAt(c, id, x, w, 5, now);
      RejectedObjects(c, w[5], id, now, Inputs(x)[5], x.unverified);
      FinishedOn(c, id, x, w, now, 6, 13);
    }
  }

  lemma RejectedObjects(c: Setting, s: Shared, id: VersionId, now: nat, i: Input, report: string)
    requires s.worker.phase == Rejecting(report) || s.worker.phase == Stopping(report) || s.worker.phase == Finalizing
    ensures WorkStep(c, s, id, now, i).objects == s.objects
  {
  }

  lemma LastStages(c: Setting, id: VersionId, x: Course, w: seq<Shared>, now: nat)
    requires RunsAt(c, id, x, w, now, 13) && Reports(x)
    requires At(c, w[0], w[10], id, now, if c.passes(x.ats) then Finalizing else Rejecting(x.unreadable),
                Parts(c, w[0].worker, x))
    requires Carries(c, w[0], w[10], x)
    ensures w[13].objects == w[10].objects
    ensures if !c.passes(x.ats) then EndsFailed(w[0], w[13], id, Parts(c, w[0].worker, x), x.unreadable)
            else if AllSaid(c, x) then EndsVerified(w[0], w[13], id, Parts(c, w[0].worker, x))
            else EndsFailed(w[0], w[13], id, Parts(c, w[0].worker, x), x.incomplete)
  {
    assert StageAt(c, id, x, w, 10, now) && Inputs(x)[10] == Input("", "", x.incomplete);
    if !c.passes(x.ats) {
      Rejected(c, w[0], w[10], id, now, Inputs(x)[10], x.unreadable, Parts(c, w[0].worker, x));
      RejectedObjects(c, w[10], id, now, Inputs(x)[10], x.unreadable);
      FinishedOn(c, id, x, w, now, 11, 13);
    } else {
      Finalized(c, w[0], w[10], id, now, Inputs(x)[10], x);
      RejectedObjects(c, w[10], id, now, Inputs(x)[10], "");
      if AllSaid(c, x) {
        FinishedOn(c, id, x, w, now, 11, 13);
      } else {
        Stopped(c, w[0], w[11], id, now, Inputs(x)[11], x.incomplete, Parts(c, w[0].worker, x));
        assert StageAt(c, id, x, w, 11, now);
        RejectedObjects(c, w[11], id, now, Inputs(x)[11], x.incomplete);
        FinishedOn(c, id, x, w, now, 12, 13);
      }
    }
  }

  /** A reservation that is granted leaves a worker fresh at its start, for sixty seconds. */
  lemma StartIsFresh(t: Tables, current: Suite, now: nat, package: string, id: VersionId, owner: string,
                     objects: Objects)
    requires Granted(t, current, now, Reserve(package, id, owner, LEASE_SECONDS)) && '/' !in package
    requires ObjectLocator(package, NextNumber(t.versions, package), 1, "context.json") !in objects
    requires ObjectLocator(package, NextNumber(t.versions, package), 1, "cv.pdf") !in objects
    ensures var n := Effect(t, current, now, Reserve(package, id, owner, LEASE_SECONDS));
      var w := Started(package, NextNumber(t.versions, package), owner);
      && Fresh(Shared(n, objects, w), id, now) && w.beating && !w.broken
      && n.versions[id].expires == now + 60 && n.versions[id].package == package
      && n.versions[id].number == NextNumber(t.versions, package)
  {
    var k := NextNumber(t.versions, package);
    if ObjectLocator(package, k, 1, "context.json") == ObjectLocator(package, k, 1, "cv.pdf") {
      LocatorAttributes(package, k, 1, "context.json", package, k, 1, "cv.pdf");
    }
  }
}
