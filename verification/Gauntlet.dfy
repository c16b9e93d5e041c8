/** A Gauntlet run: stage zero, the three judges, the verdict and the fenced append
    (packages/domain/gauntlet.py). */
module Gauntlet {
  import opened Basics
  import opened Packages
  import opened PackageStore
  import opened Judges
  import Adjudication

  const JUDGES := [Truth, Consistency, Writing]
  const RESERVATION_SECONDS := 60

  datatype Disposition = InvariantPass | InvariantFail | InvariantAttention

  datatype Report = Report(invariants: seq<Disposition>, judges: seq<JudgeResult>)

  /** Everything outside the code that decides how an attempt goes: which accesses succeed, what stage
      zero finds over the stored bundle (None: it raised), and every reply of every judge. `lost`
      answers the successive checks of the heartbeat; `broken` says it stopped on an error of its own. */
  datatype Attempt = Attempt(
    run: string, owner: string, lost: nat -> bool, broken: bool,
    policyStored: bool, policyValid: bool, objectsReadable: bool, bundleParses: bool,
    stageZero: Option<seq<Disposition>>, templatesSound: bool,
    replies: Judge -> Replies, evidence: Evidence, evidenceStored: bool)

  predicate InvariantsPassed(invariants: seq<Disposition>) {
    InvariantFail !in invariants
  }

  predicate AnyOutcome(judges: seq<JudgeResult>, o: Outcome) {
    exists j :: j in judges && j.outcome == o
  }

  predicate AnyAdvisory(judges: seq<JudgeResult>) {
    exists j :: j in judges && HasSeverity(j.findings, Advisory)
  }

  function ReduceVerdict(r: Report): (Verdict, bool) {
    if !InvariantsPassed(r.invariants) then (Fail, true)
    else if AnyOutcome(r.judges, FailedOutcome) then (Fail, true)
    else if AnyOutcome(r.judges, OperationalAbstain) then (Incomplete, false)
    else if InvariantAttention in r.invariants || AnyOutcome(r.judges, TerminalAbstain) || AnyAdvisory(r.judges)
      then (Attention, true)
    else (Pass, true)
  }

  /** Stage zero: anything unreadable is an audit-integrity failure of its own. */
  function StageZero(a: Attempt): seq<Disposition> {
    if !a.policyValid || !a.objectsReadable || !a.bundleParses || a.stageZero.None? then [InvariantFail]
    else a.stageZero.value
  }

  function NotRunResult(judge: Judge): JudgeResult {
    JudgeResult(judge, NotRun, [], [], 0, [])
  }

  function ResultOf(a: Attempt, judge: Judge): JudgeResult {
    if InvariantsPassed(StageZero(a)) then JudgeRun(judge, a.replies(judge), a.evidence, []) else NotRunResult(judge)
  }

  function ReportOf(a: Attempt): Report {
    Report(StageZero(a), [ResultOf(a, Truth), ResultOf(a, Consistency), ResultOf(a, Writing)])
  }

  // ----- what a verdict means -----

  /** The judge accepted an output that passes and accuses nothing. */
  predicate ClearedBy(a: Attempt, judge: Judge) {
    Accepted(judge, a.replies(judge)) == Some((DeclaredPass, []))
  }

  /** The judge accepted an output with a blocking finding the evidence bears out. */
  predicate BlockedBy(a: Attempt, judge: Judge) {
    var output := Accepted(judge, a.replies(judge));
    output.Some? && HasSeverity(ValidOnes(judge, output.value.1, a.evidence), Blocking)
  }

  predicate SilentJudge(a: Attempt, judge: Judge) {
    var output := Accepted(judge, a.replies(judge));
    output.None? || (output.value.1 != [] && ValidOnes(judge, output.value.1, a.evidence) == [])
  }

  lemma ResultMeans(a: Attempt, judge: Judge)
    requires InvariantsPassed(StageZero(a))
    ensures var r := ResultOf(a, judge);
      && (r.outcome == FailedOutcome <==> BlockedBy(a, judge))
      && (r.outcome == OperationalAbstain <==> SilentJudge(a, judge))
      && r.outcome != NotRun
      && (r.outcome == Passed && !HasSeverity(r.findings, Advisory) <==> ClearedBy(a, judge))
  {
    OutcomeMeans(judge, a.replies(judge), a.evidence, []);
    SomeSeverity(ResultOf(a, judge).findings);
  }

  lemma SomeSeverity(findings: seq<Finding>)
    ensures findings != [] ==> HasSeverity(findings, Blocking) || HasSeverity(findings, Advisory)
  {
    if findings != [] {
      assert findings[0] in findings;
    }
  }

  predicate Clean(j: JudgeResult) {
    j.outcome in {Passed, NotRun} && !HasSeverity(j.findings, Advisory)
  }

  /** The reduction of three judge results. */
  lemma ReduceThree(invariants: seq<Disposition>, x: JudgeResult, y: JudgeResult, z: JudgeResult)
    ensures var (verdict, complete) := ReduceVerdict(Report(invariants, [x, y, z]));
      var blocked := FailedOutcome in {x.outcome, y.outcome, z.outcome};
      var silent := OperationalAbstain in {x.outcome, y.outcome, z.outcome};
      && (verdict == Pass <==> (forall d :: d in invariants ==> d == InvariantPass) && Clean(x) && Clean(y) && Clean(z))
      && (verdict == Fail <==> !InvariantsPassed(invariants) || blocked)
      && (verdict == Incomplete <==> InvariantsPassed(invariants) && !blocked && silent)
      && (complete <==> verdict != Incomplete)
  {
    var judges := [x, y, z];
    assert x in judges && y in judges && z in judges;
    assert forall j :: j in judges ==> j == x || j == y || j == z;
  }

  /** PASS exactly when stage zero passed everything and each of the three judges ran and accepted an
      output that declares PASS and accuses nothing. */
  lemma PassMeans(a: Attempt)
    ensures ReduceVerdict(ReportOf(a)).0 == Pass <==>
      && (forall d :: d in StageZero(a) ==> d == InvariantPass)
      && ClearedBy(a, Truth) && ClearedBy(a, Consistency) && ClearedBy(a, Writing)
    ensures ReduceVerdict(ReportOf(a)).0 == Pass ==> forall j :: j in ReportOf(a).judges ==> j.outcome == Passed
  {
    ReduceThree(StageZero(a), ResultOf(a, Truth), ResultOf(a, Consistency), ResultOf(a, Writing));
    if InvariantsPassed(StageZero(a)) {
      ResultMeans(a, Truth);
      ResultMeans(a, Consistency);
      ResultMeans(a, Writing);
    }
  }

  /** FAIL exactly when stage zero failed or some judge has a blocking finding borne out; INCOMPLETE
      exactly when otherwise some judge gave no adjudication; only INCOMPLETE leaves the suite open. */
  lemma FailMeans(a: Attempt)
    ensures var (verdict, complete) := ReduceVerdict(ReportOf(a));
      var passed := InvariantsPassed(StageZero(a));
      var blocked := BlockedBy(a, Truth) || BlockedBy(a, Consistency) || BlockedBy(a, Writing);
      var silent := SilentJudge(a, Truth) || SilentJudge(a, Consistency) || SilentJudge(a, Writing);
      && (verdict == Fail <==> !passed || blocked)
      && (verdict == Incomplete <==> passed && !blocked && silent)
      && (complete <==> verdict != Incomplete)
  {
    ReduceThree(StageZero(a), ResultOf(a, Truth), ResultOf(a, Consistency), ResultOf(a, Writing));
    if InvariantsPassed(StageZero(a)) {
      ResultMeans(a, Truth);
      ResultMeans(a, Consistency);
      ResultMeans(a, Writing);
    }
  }

  /** An accepted output that declares FAIL never becomes a PASS run, whatever its findings are worth. */
  lemma DeclaredFailNeverPasses(a: Attempt, judge: Judge)
    requires Accepted(judge, a.replies(judge)).Some? && Accepted(judge, a.replies(judge)).value.0 == DeclaredFail
    ensures ReduceVerdict(ReportOf(a)).0 != Pass
  {
    PassMeans(a);
  }

  // ----- the runner -----

  datatype Course = Discarded | Raised | Reported(report: Report)

  /** The heartbeat said stop: a lost reservation is left alone, an error of the heartbeat releases it. */
  function Stop(a: Attempt): Course {
    if a.broken then Raised else Discarded
  }

  /** The reservation was kept throughout, and nothing on the way raised. */
  predicate Undisturbed(a: Attempt) {
    (forall k :: 0 <= k < 6 ==> !a.lost(k)) && a.policyStored && a.templatesSound && a.evidenceStored
  }

  /** Everything between the claim and the append. */
  method Adjudicate(a: Attempt) returns (c: Course)
    ensures c.Reported? ==> c.report == ReportOf(a)
    ensures c.Discarded? ==> !a.broken && exists k :: 0 <= k < 6 && a.lost(k)
    ensures c.Raised? ==> a.broken || !a.policyStored || !a.templatesSound || !a.evidenceStored
    ensures Undisturbed(a) ==> c.Reported?
  {
    if a.lost(0) { return Stop(a); }
    if !a.policyStored { return Raised; }
    var invariants := [InvariantFail];
    if a.policyValid {
      if a.lost(1) { return Stop(a); }
      if a.objectsReadable && a.bundleParses && a.stageZero.Some? {
        invariants := a.stageZero.value;
      }
    }
    var judges := [];
    if InvariantFail !in invariants {
      if !a.templatesSound { return Raised; }
      for i := 0 to |JUDGES|
        invariant judges == ReportOf(a).judges[..i]
      {
        if a.lost(2 + i) { return Stop(a); }
        var r := RunJudge(JUDGES[i], a.replies(JUDGES[i]), a.evidence);
        judges := judges + [r];
      }
    } else {
      judges := [NotRunResult(Truth), NotRunResult(Consistency), NotRunResult(Writing)];
    }
    if a.lost(5) { return Stop(a); }
    if !a.evidenceStored { return Raised; }
    return Reported(Report(invariants, judges));
  }

  ghost function Appending(id: VersionId, suite: Suite, a: Attempt): Txn {
    var (verdict, complete) := ReduceVerdict(ReportOf(a));
    InsertRun(id, suite, a.owner, a.run, complete, verdict)
  }

  /** One fenced transaction appends the run; if the run table objects, the reservation is released. */
  method AppendRun(repo: PackageRepository, id: VersionId, suite: Suite, a: Attempt, report: Report, now: nat)
    returns (verdict: Option<Verdict>)
    requires report == ReportOf(a)
    modifies repo`reservations, repo`runs
    ensures verdict.Some? <==> Granted(old(repo.State()), repo.current, now, Appending(id, suite, a))
    ensures verdict.Some? ==> verdict.value == ReduceVerdict(ReportOf(a)).0
    ensures verdict.Some? ==> repo.State() == Commit(old(repo.State()), repo.current, now, Appending(id, suite, a))
    ensures verdict.None? ==>
      || repo.State() == old(repo.State())
      || repo.State() == Commit(old(repo.State()), repo.current, now, ReleaseSuite(id, suite, a.owner))
  {
    var (v, complete) := ReduceVerdict(report);
    var r := repo.InsertGauntletRun(id, suite, a.owner, a.run, complete, v, now);
    match r
    case Ok(row) => return Some(v);
    case Err(ReservationLost) => return None;
    case Err(_) =>
      var _ := repo.ReleaseReservation(id, suite, a.owner, now);
      return None;
  }

  /** Adjudicate, then append the run or release the reservation, each in one fenced transaction. */
  method RunClaimed(repo: PackageRepository, id: VersionId, suite: Suite, a: Attempt, now: nat)
    returns (verdict: Option<Verdict>)
    modifies repo`reservations, repo`runs
    ensures verdict.None? ==>
      || repo.State() == old(repo.State())
      || repo.State() == Commit(old(repo.State()), repo.current, now, ReleaseSuite(id, suite, a.owner))
    ensures verdict.Some? ==>
      && Granted(old(repo.State()), repo.current, now, Appending(id, suite, a))
      && repo.State() == Commit(old(repo.State()), repo.current, now, Appending(id, suite, a))
      && verdict.value == ReduceVerdict(ReportOf(a)).0
    ensures Undisturbed(a) && Granted(old(repo.State()), repo.current, now, Appending(id, suite, a)) ==> verdict.Some?
  {
    var c := Adjudicate(a);
    match c
    case Discarded => return None;
    case Raised =>
      var _ := repo.ReleaseReservation(id, suite, a.owner, now);
      return None;
    case Reported(report) =>
      verdict := AppendRun(repo, id, suite, a, report, now);
  }

  /** The suite can be claimed now, the reservation outlasts the attempt, and the run id is new. */
  ghost predicate Recordable(t: Tables, current: Suite, id: VersionId, status: Status, suite: Suite, a: Attempt,
                             now: nat, later: nat) {
    && Adjudication.RunsWell(t) && status in {Verified, Approved} && Undisturbed(a)
    && Granted(t, current, now, ClaimSuite(id, suite, a.owner, RESERVATION_SECONDS))
    && later < now + RESERVATION_SECONDS
    && forall q :: q in t.runs ==> q.id != a.run
  }

  /** Then nothing keeps the attempt from being recorded. */
  lemma ClaimLeadsToRun(t: Tables, current: Suite, id: VersionId, status: Status, suite: Suite, a: Attempt, now: nat,
                        later: nat)
    requires Recordable(t, current, id, status, suite, a, now, later)
    ensures var claimed := Commit(t, current, now, ClaimSuite(id, suite, a.owner, RESERVATION_SECONDS));
      Granted(claimed, current, later, Appending(id, suite, a))
  {
    var claimed := Commit(t, current, now, ClaimSuite(id, suite, a.owner, RESERVATION_SECONDS));
    var (verdict, complete) := ReduceVerdict(ReportOf(a));
    Adjudication.UniquenessUnreachable(claimed, id, suite, a.run, complete, verdict);
  }

  /** One whole invocation against a version snapshot with this status. */
  method RunAttempt(repo: PackageRepository, id: VersionId, status: Status, suite: Suite, a: Attempt, now: nat,
                    later: nat)
    returns (verdict: Option<Verdict>)
    requires id in repo.versions
    modifies repo`reservations, repo`runs
    ensures status !in {Verified, Approved} ==> repo.State() == old(repo.State())
    ensures HasComplete(old(repo.runs), id, suite) ==> repo.State() == old(repo.State()) && verdict.None?
    ensures verdict.None? ==> repo.runs == old(repo.runs)
    ensures verdict.Some? ==>
      && verdict.value == ReduceVerdict(ReportOf(a)).0
      && repo.runs == old(repo.runs)
                    + [NewRun(old(repo.runs), id, suite, a.run, ReduceVerdict(ReportOf(a)).1, verdict.value)]
    ensures old(Recordable(repo.State(), repo.current, id, status, suite, a, now, later)) ==> verdict.Some?
  {
    if status != Verified && status != Approved {
      return None;
    }
    ghost var before := repo.State();
    var claim := repo.ClaimReservation(id, suite, a.owner, RESERVATION_SECONDS, now);
    if claim != Ok(true) {
      return None;
    }
    if Recordable(before, repo.current, id, status, suite, a, now, later) {
      ClaimLeadsToRun(before, repo.current, id, status, suite, a, now, later);
    }
    verdict := RunClaimed(repo, id, suite, a, later);
  }
}
