/** What adjudication and approval keep over every sequence of transactions, whoever issues them and
    however the clock and the current suite move (adapters/storage/sqlite_packages.py:170-375). */
module Adjudication {
  import opened Basics
  import opened Packages
  import opened PackageStore

  /** One transaction, the clock reading it saw and the suite current at the time. */
  datatype Event = Event(txn: Txn, now: nat, current: Suite)

  ghost function After(events: seq<Event>): Tables {
    if events == [] then EMPTY
    else
      var e := events[|events| - 1];
      Commit(After(events[..|events| - 1]), e.current, e.now, e.txn)
  }

  ghost function From(t: Tables, events: seq<Event>): Tables {
    if events == [] then t
    else
      var e := events[|events| - 1];
      Commit(From(t, events[..|events| - 1]), e.current, e.now, e.txn)
  }

  // ----- reservations and runs -----

  /** How many runs of this version and suite a prefix of the table holds. */
  function CountRuns(runs: seq<Run>, id: VersionId, suite: Suite): nat {
    if runs == [] then 0
    else
      CountRuns(runs[..|runs| - 1], id, suite) + if Judges(runs[|runs| - 1], id, suite) then 1 else 0
  }

  /** Attempts count up from one, and nothing follows a complete run of the same version and suite. */
  ghost predicate AppendedWell(runs: seq<Run>) {
    && (forall k :: 0 <= k < |runs| ==> runs[k].attempt == CountRuns(runs[..k], runs[k].version, runs[k].suite) + 1)
    && (forall j, k :: 0 <= j < k < |runs| && runs[j].complete ==> !Judges(runs[k], runs[j].version, runs[j].suite))
    && (forall j, k :: 0 <= j < k < |runs| ==> runs[j].id != runs[k].id)
  }

  /** A reservation is held only while there is no complete run to protect. */
  ghost predicate Reserving(t: Tables) {
    forall id, suite :: (id, suite) in t.reservations ==> id in t.versions && !HasComplete(t.runs, id, suite)
  }

  ghost predicate Judged(t: Tables) {
    forall r :: r in t.runs ==> r.version in t.versions
  }

  lemma {:induction false} AttemptsCount(runs: seq<Run>, id: VersionId, suite: Suite)
    requires forall k :: 0 <= k < |runs| ==> runs[k].attempt == CountRuns(runs[..k], runs[k].version, runs[k].suite) + 1
    ensures LastAttempt(runs, id, suite) == CountRuns(runs, id, suite)
  {
    if runs != [] {
      var n := |runs| - 1;
      forall k | 0 <= k < n
        ensures runs[..n][k].attempt == CountRuns(runs[..n][..k], runs[..n][k].version, runs[..n][k].suite) + 1
      {
        assert runs[..n][..k] == runs[..k];
      }
      AttemptsCount(runs[..n], id, suite);
    }
  }

  /** Appending after a consumed reservation keeps the run table well formed. */
  lemma RunAppended(runs: seq<Run>, r: Run)
    requires AppendedWell(runs)
    requires r == NewRun(runs, r.version, r.suite, r.id, r.complete, r.verdict)
    requires !HasComplete(runs, r.version, r.suite)
    requires forall q :: q in runs ==> q.id != r.id
    ensures AppendedWell(runs + [r])
  {
    AttemptsCount(runs, r.version, r.suite);
    var more := runs + [r];
    forall k | 0 <= k < |more|
      ensures more[k].attempt == CountRuns(more[..k], more[k].version, more[k].suite) + 1
    {
      assert more[..k] == if k < |runs| then runs[..k] else runs;
    }
    forall j, k | 0 <= j < k < |more| && more[j].complete
      ensures !Judges(more[k], more[j].version, more[j].suite)
    {
      assert runs[j] in runs;
    }
  }

  /** With a reservation in hand, an insert is refused only for a run id used before: the other two
      uniqueness constraints can not fire. */
  lemma UniquenessUnreachable(t: Tables, id: VersionId, suite: Suite, run: string, complete: bool, verdict: Verdict)
    requires AppendedWell(t.runs) && Reserving(t)
    requires (id, suite) in t.reservations
    ensures Violates(t.runs, NewRun(t.runs, id, suite, run, complete, verdict)) <==>
      exists q :: q in t.runs && q.id == run
  {
    var r := NewRun(t.runs, id, suite, run, complete, verdict);
    assert !HasComplete(t.runs, id, suite);
    forall q | q in t.runs
      ensures Clashes(q, r) <==> q.id == run
    {
    }
    if q :| q in t.runs && q.id == run {
      assert Clashes(q, r);
    }
  }

  // ----- approvals -----

  ghost predicate Cites(runs: seq<Run>, d: Decision) {
    exists r :: r in runs && Cited(r, d)
  }

  predicate Cited(r: Run, d: Decision) {
    r.id == d.run && r.version == d.version && r.complete && r.verdict == d.verdict
  }

  /** The verdict the decision records allowed it. */
  predicate Warranted(d: Decision) {
    && (!d.override ==> d.verdict == Pass)
    && (d.override ==> d.verdict in {Fail, Attention} && d.reason.Some? && !Blank(d.reason.value))
  }

  predicate Approves(versions: map<VersionId, Version>, id: VersionId) {
    id in versions && versions[id].status == Approved
  }

  ghost predicate Citing(decisions: seq<Decision>, runs: seq<Run>) {
    forall d :: d in decisions ==> Cites(runs, d) && Warranted(d)
  }

  /** Exactly the approved versions have a decision, each one. */
  ghost predicate Deciding(decisions: seq<Decision>, versions: map<VersionId, Version>) {
    && (forall k :: 0 <= k < |decisions| ==> Approves(versions, decisions[k].version))
    && (forall i, j :: 0 <= i < j < |decisions| ==> decisions[i].version != decisions[j].version)
    && (forall id :: Approves(versions, id) ==> exists k :: 0 <= k < |decisions| && decisions[k].version == id)
  }

  ghost predicate Pointing(packages: map<string, Option<VersionId>>, versions: map<VersionId, Version>) {
    forall p :: p in packages && packages[p].Some? ==> PointsWell(versions, p, packages[p].value)
  }

  ghost predicate PointsWell(versions: map<VersionId, Version>, p: string, id: VersionId) {
    Approves(versions, id) && versions[id].package == p
  }

  ghost predicate Inv(t: Tables) {
    && Reserving(t) && AppendedWell(t.runs) && Judged(t)
    && ApprovalsRest(t)
  }

  ghost predicate RunsWell(t: Tables) {
    Reserving(t) && AppendedWell(t.runs) && Judged(t)
  }

  lemma InsertRunStep(t: Tables, current: Suite, now: nat, x: Txn)
    requires RunsWell(t) && x.InsertRun? && Granted(t, current, now, x)
    ensures RunsWell(Effect(t, current, now, x))
  {
    var r := NewRun(t.runs, x.id, x.suite, x.run, x.complete, x.verdict);
    forall q | q in t.runs ensures q.id != r.id {
      assert !Clashes(q, r);
    }
    RunAppended(t.runs, r);
    assert forall q :: q in t.runs + [r] <==> q in t.runs || q == r;
  }

  lemma RunsStep(t: Tables, e: Event)
    requires RunsWell(t)
    ensures RunsWell(Commit(t, e.current, e.now, e.txn))
  {
    if e.txn.InsertRun? && Granted(t, e.current, e.now, e.txn) {
      InsertRunStep(t, e.current, e.now, e.txn);
    }
  }

  ghost predicate ApprovalsRest(t: Tables) {
    Citing(t.decisions, t.runs) && Deciding(t.decisions, t.versions) && Pointing(t.packages, t.versions)
  }

  lemma DecisionAdded(decisions: seq<Decision>, versions: map<VersionId, Version>, d: Decision, v: Version)
    requires Deciding(decisions, versions)
    requires !Approves(versions, d.version) && v.status == Approved
    ensures Deciding(decisions + [d], versions[d.version := v])
  {
    var more, next := decisions + [d], versions[d.version := v];
    forall id | Approves(next, id) ensures exists k :: 0 <= k < |more| && more[k].version == id {
      if id == d.version {
        assert more[|decisions|].version == id;
      } else {
        assert Approves(versions, id);
        var k :| 0 <= k < |decisions| && decisions[k].version == id;
        assert more[k].version == id;
      }
    }
    forall k | 0 <= k < |decisions| ensures decisions[k].version != d.version {
      assert Approves(versions, decisions[k].version);
    }
  }

  lemma ApprovalStep(t: Tables, current: Suite, now: nat, id: VersionId, override: bool, reason: Option<string>)
    requires ApprovalsRest(t)
    requires Granted(t, current, now, Approve(id, override, reason))
    ensures ApprovalsRest(Commit(t, current, now, Approve(id, override, reason)))
  {
    var run := Effective(t.runs, id, current).value;
    var n := Effect(t, current, now, Approve(id, override, reason));
    var d := Decision(id, run.id, run.verdict, override, reason);
    assert Cited(run, d);
    assert Citing(n.decisions, n.runs);
    DecisionAdded(t.decisions, t.versions, d, t.versions[id].(status := Approved));
    forall p | p in n.packages && n.packages[p].Some? ensures PointsWell(n.versions, p, n.packages[p].value) {
      if n.packages[p] != Some(id) {
        assert PointsWell(t.versions, p, t.packages[p].value);
      }
    }
  }

  /** How a transaction other than an approval leaves decisions, approved rows and the pointers to them. */
  ghost predicate ApprovalsAlike(t: Tables, n: Tables) {
    && n.decisions == t.decisions
    && t.runs <= n.runs
    && (forall id :: Approves(n.versions, id) <==> Approves(t.versions, id))
    && (forall id :: Approves(t.versions, id) ==> n.versions[id] == t.versions[id])
    && (forall p :: p in n.packages && n.packages[p].Some? ==> p in t.packages && t.packages[p] == n.packages[p])
  }

  lemma OtherStep(t: Tables, e: Event)
    requires !e.txn.Approve?
    ensures ApprovalsAlike(t, Commit(t, e.current, e.now, e.txn))
  {
    if OnVersions(e.txn) {
      VersionStep(t, e.current, e.now, e.txn);
    }
  }

  /** The transactions on a version row under way. */
  predicate OnVersions(x: Txn) {
    x.Reserve? || x.Renew? || x.Progress? || x.Finalize? || x.FailVersion? || x.ClaimExpired?
  }

  lemma VersionStep(t: Tables, current: Suite, now: nat, x: Txn)
    requires OnVersions(x)
    ensures ApprovalsAlike(t, Commit(t, current, now, x))
  {
    if Granted(t, current, now, x) {
      var v := Effect(t, current, now, x).versions[x.id];
      assert Effect(t, current, now, x) == Put(t, x.id, v);
      PutUnapproved(t, x.id, v);
    }
  }

  lemma PutUnapproved(t: Tables, id: VersionId, v: Version)
    requires !Approves(t.versions, id) && v.status != Approved
    ensures ApprovalsAlike(t, Put(t, id, v))
  {
  }

  lemma ApprovalsKept(t: Tables, n: Tables)
    requires ApprovalsRest(t) && ApprovalsAlike(t, n)
    ensures ApprovalsRest(n)
  {
    forall d | d in t.decisions ensures Cites(n.runs, d) {
      var r :| r in t.runs && Cited(r, d);
      assert r in n.runs;
    }
    forall p | p in n.packages && n.packages[p].Some? ensures PointsWell(n.versions, p, n.packages[p].value) {
      assert PointsWell(t.versions, p, t.packages[p].value);
    }
  }

  /** Every reachable table set is well formed. */
  lemma {:induction false} Always(events: seq<Event>)
    ensures Inv(After(events))
  {
    if events != [] {
      var before, e := After(events[..|events| - 1]), events[|events| - 1];
      Always(events[..|events| - 1]);
      RunsStep(before, e);
      if e.txn.Approve? {
        if Granted(before, e.current, e.now, e.txn) {
          ApprovalStep(before, e.current, e.now, e.txn.id, e.txn.override, e.txn.reason);
        }
      } else {
        OtherStep(before, e);
        ApprovalsKept(before, After(events));
      }
    }
  }

  /** At most one complete run per version and suite ever exists, and it is the last attempt. */
  lemma OneCompleteRun(events: seq<Event>, j: nat, k: nat)
    requires j < |After(events).runs| && k < |After(events).runs|
    requires After(events).runs[j].complete
    requires Judges(After(events).runs[k], After(events).runs[j].version, After(events).runs[j].suite)
    ensures k <= j
    ensures After(events).runs[k].complete ==> k == j
    ensures After(events).runs[k].attempt <= After(events).runs[j].attempt
  {
    Always(events);
    var runs := After(events).runs;
    if k < j {
      CountGrows(runs, k, j, runs[j].version, runs[j].suite);
    }
  }

  lemma {:induction false} CountGrows(runs: seq<Run>, k: nat, j: nat, id: VersionId, suite: Suite)
    requires k <= j <= |runs|
    ensures CountRuns(runs[..k], id, suite) <= CountRuns(runs[..j], id, suite)
  {
    if k < j {
      CountGrows(runs, k, j - 1, id, suite);
      assert runs[..j][..j - 1] == runs[..j - 1];
    }
  }

  /** A decision that warrants the approval of this version, resting on this run of it. */
  predicate ApprovedOn(d: Decision, r: Run, id: VersionId) {
    && r.version == id && r.complete && r.id == d.run && d.version == id
    && (if d.override then r.verdict in {Fail, Attention} && d.reason.Some? && !Blank(d.reason.value)
        else r.verdict == Pass)
  }

  /** Every approval rests on a complete run of that very version: a PASS, or a recorded FAIL or
      ATTENTION waived for a stated reason. */
  lemma ApprovedMeansJudged(events: seq<Event>, id: VersionId)
    requires Approves(After(events).versions, id)
    ensures exists d, r :: d in After(events).decisions && r in After(events).runs && ApprovedOn(d, r, id)
  {
    Always(events);
    var t := After(events);
    var k :| 0 <= k < |t.decisions| && t.decisions[k].version == id;
    var d := t.decisions[k];
    assert Cites(t.runs, d) && Warranted(d);
    var r :| r in t.runs && Cited(r, d);
    assert ApprovedOn(d, r, id);
  }
}
