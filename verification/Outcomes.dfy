/** What the transactions on the package tables achieve, whatever comes after them: leases that last as long as they
    are renewed, failures and bundles that stay, suites that are free again or closed for good, and packages that
    point at what was approved last (adapters/storage/sqlite_packages.py:95-395). */
module Outcomes {
  import opened Basics
  import opened Packages
  import opened PackageStore
  import opened Adjudication

  // ----- the lease of a version -----

  /** The version is under way, under this lease. */
  predicate Leased(t: Tables, id: VersionId, owner: string, generation: nat, expires: nat) {
    && id in t.versions && t.versions[id].status == Generating
    && t.versions[id].owner == owner && t.versions[id].generation == generation && t.versions[id].expires == expires
  }

  predicate Renews(x: Txn, id: VersionId, owner: string, generation: nat) {
    x.Renew? && x.id == id && x.owner == owner && x.generation == generation
  }

  /** When the lease is over, given the events since and the owner's own renewals among them: so many seconds after
      the last of them. */
  function LeaseEnd(expires: nat, events: seq<Event>, id: VersionId, owner: string, generation: nat): nat {
    if events == [] then expires
    else
      var e := events[|events| - 1];
      if Renews(e.txn, id, owner, generation) then e.now + e.txn.seconds
      else LeaseEnd(expires, events[..|events| - 1], id, owner, generation)
  }

  /** The owner itself brings the version to its end. */
  predicate EndsLease(x: Txn, id: VersionId, owner: string, generation: nat) {
    (x.Finalize? || x.FailVersion?) && x.id == id && x.owner == owner && x.generation == generation
  }

  /** Each event comes before the lease is over, and none is the owner's last. */
  ghost predicate RenewedEachTime(expires: nat, events: seq<Event>, id: VersionId, owner: string, generation: nat) {
    forall k :: 0 <= k < |events| ==>
      events[k].now < LeaseEnd(expires, events[..k], id, owner, generation)
      && !EndsLease(events[k].txn, id, owner, generation)
  }

  /** A reservation of a number comes with a lease for so many seconds. */
  lemma LeaseGranted(t: Tables, current: Suite, now: nat, package: string, id: VersionId, owner: string, seconds: nat)
    requires package in t.packages && id !in t.versions
    ensures Leased(Commit(t, current, now, Reserve(package, id, owner, seconds)), id, owner, 1, now + seconds)
  {
    assert Granted(t, current, now, Reserve(package, id, owner, seconds));
  }

  /** While it lasts, nobody takes the version over, and only the owner's renewal moves its end. */
  lemma LeaseStep(t: Tables, e: Event, id: VersionId, owner: string, generation: nat, expires: nat)
    requires Leased(t, id, owner, generation, expires) && e.now < expires && !EndsLease(e.txn, id, owner, generation)
    ensures Leased(Commit(t, e.current, e.now, e.txn), id, owner, generation,
                   if Renews(e.txn, id, owner, generation) then e.now + e.txn.seconds else expires)
    ensures e.txn.ClaimExpired? && e.txn.id == id ==> !Granted(t, e.current, e.now, e.txn)
  {
  }

  lemma RenewedUpTo(expires: nat, events: seq<Event>, id: VersionId, owner: string, generation: nat, n: nat)
    requires RenewedEachTime(expires, events, id, owner, generation) && n <= |events|
    ensures RenewedEachTime(expires, events[..n], id, owner, generation)
  {
    forall k | 0 <= k < n
      ensures events[..n][k].now < LeaseEnd(expires, events[..n][..k], id, owner, generation)
      ensures !EndsLease(events[..n][k].txn, id, owner, generation)
    {
      assert events[..n][..k] == events[..k];
    }
  }

  /** Over any events of any workers: a version whose owner renews each time before the lease is over stays that
      owner's until so many seconds after the last renewal. */
  lemma {:induction false} LeaseLasts(t: Tables, events: seq<Event>, id: VersionId, owner: string, generation: nat,
                                      expires: nat)
    requires Leased(t, id, owner, generation, expires)
    requires RenewedEachTime(expires, events, id, owner, generation)
    ensures Leased(From(t, events), id, owner, generation, LeaseEnd(expires, events, id, owner, generation))
  {
    if events != [] {
      var n := |events| - 1;
      RenewedUpTo(expires, events, id, owner, generation, n);
      LeaseLasts(t, events[..n], id, owner, generation, expires);
      LeaseStep(From(t, events[..n]), events[n], id, owner, generation,
        LeaseEnd(expires, events[..n], id, owner, generation));
    }
  }

  /** Meanwhile nobody's claim on it is granted. */
  lemma NoTakeover(t: Tables, events: seq<Event>, id: VersionId, owner: string, generation: nat, expires: nat, k: nat)
    requires Leased(t, id, owner, generation, expires)
    requires RenewedEachTime(expires, events, id, owner, generation)
    requires k < |events| && events[k].txn.ClaimExpired? && events[k].txn.id == id
    ensures !Granted(From(t, events[..k]), events[k].current, events[k].now, events[k].txn)
  {
    RenewedUpTo(expires, events, id, owner, generation, k);
    LeaseLasts(t, events[..k], id, owner, generation, expires);
  }

  /** From then on the two sides change places at the very end of the lease: before it the owner is served and a
      claim refused, from it on it is the other way round. */
  lemma LeaseDecides(t: Tables, events: seq<Event>, id: VersionId, owner: string, generation: nat, expires: nat,
                     current: Suite, later: nat, seconds: nat, report: string)
    requires Leased(t, id, owner, generation, expires) && !Blank(report)
    requires RenewedEachTime(expires, events, id, owner, generation)
    ensures var n, end := From(t, events), LeaseEnd(expires, events, id, owner, generation);
      && (Granted(n, current, later, Renew(id, owner, generation, seconds)) <==> later < end)
      && (Granted(n, current, later, ClaimExpired(id, report)) <==> later >= end)
  {
    LeaseLasts(t, events, id, owner, generation, expires);
  }

  /** A fenced write is refused as a lost lease exactly while the version is still under way: somebody else's, or over
      its time. */
  lemma RefusedAsLost(t: Tables, id: VersionId)
    ensures Refusal(t, id) == LeaseLost <==> id in t.versions && t.versions[id].status == Generating
    ensures Refusal(t, id) == StateError <==> !(id in t.versions && t.versions[id].status == Generating)
  {
  }

  // ----- what may be staged and filed -----

  /** Any part of the audit bundle may be staged, but no report of a failure and no field unknown. */
  lemma StageableMeans(fields: map<Field, string>)
    ensures Stageable(fields) <==> forall f :: f in fields ==> f != FailureReport && !f.Unlisted?
  {
  }

  /** A bundle is all of it, and nothing in it empty. */
  lemma BundleMeans(fields: map<Field, string>)
    ensures IsBundle(fields) <==>
      && (forall f :: f in fields <==> f != FailureReport && !f.Unlisted?)
      && forall f :: f in fields ==> fields[f] != ""
  {
  }

  // ----- what stays -----

  predicate Final(v: Version) {
    v.status == Failed || v.status == Approved
  }

  /** A failed or approved row never changes again. */
  lemma {:induction false} FinalStays(t: Tables, more: seq<Event>, id: VersionId)
    requires id in t.versions && Final(t.versions[id])
    ensures id in From(t, more).versions && From(t, more).versions[id] == t.versions[id]
  {
    if more != [] {
      FinalStays(t, more[..|more| - 1], id);
      FinalStep(From(t, more[..|more| - 1]), more[|more| - 1], id);
    }
  }

  lemma FinalStep(t: Tables, e: Event, id: VersionId)
    requires id in t.versions && Final(t.versions[id])
    ensures id in Commit(t, e.current, e.now, e.txn).versions
    ensures Commit(t, e.current, e.now, e.txn).versions[id] == t.versions[id]
  {
    SettledStep(t, e, id);
  }

  /** The one change to a row that is no longer under way is the approval of a verified one. */
  lemma SettledStep(t: Tables, e: Event, id: VersionId)
    requires id in t.versions && t.versions[id].status != Generating
    ensures var v, n := t.versions[id], Commit(t, e.current, e.now, e.txn);
      id in n.versions && (n.versions[id] == v || (v.status == Verified && n.versions[id] == v.(status := Approved)))
  {
    var x := e.txn;
    if Granted(t, e.current, e.now, x) && OnVersions(x) {
      assert x.id != id;
      assert Effect(t, e.current, e.now, x) == Put(t, x.id, Effect(t, e.current, e.now, x).versions[x.id]);
    } else if Granted(t, e.current, e.now, x) && x.Approve? {
      assert Effect(t, e.current, e.now, x).versions == t.versions[x.id := t.versions[x.id].(status := Approved)];
    }
  }

  /** A failure that is filed, by the owner or by whoever claims the expired lease, is there for good, under its own
      report; and once claimed, the version is of another generation than the worker's. */
  lemma FailureStays(t: Tables, e: Event, more: seq<Event>, id: VersionId)
    requires (e.txn.FailVersion? || e.txn.ClaimExpired?) && e.txn.id == id && Granted(t, e.current, e.now, e.txn)
    ensures var n := From(Commit(t, e.current, e.now, e.txn), more);
      && id in n.versions && n.versions[id].status == Failed
      && FailureReport in n.versions[id].fields && n.versions[id].fields[FailureReport] == e.txn.report
      && (e.txn.ClaimExpired? ==> n.versions[id].generation == t.versions[id].generation + 1)
      && forall owner, generation, later :: !Holds(n, id, owner, generation, later)
  {
    var n := Commit(t, e.current, e.now, e.txn);
    assert id in n.versions && n.versions[id].status == Failed;
    FinalStays(n, more, id);
  }

  predicate Bundled(v: Version, fields: map<Field, string>) {
    && (v.status == Verified || v.status == Approved)
    && forall f :: f in fields ==> f in v.fields && v.fields[f] == fields[f]
  }

  /** A bundle that is filed is there for good, field by field. */
  lemma {:induction false} BundleStays(t: Tables, e: Event, more: seq<Event>)
    requires e.txn.Finalize? && Granted(t, e.current, e.now, e.txn)
    ensures var n := From(Commit(t, e.current, e.now, e.txn), more);
      e.txn.id in n.versions && Bundled(n.versions[e.txn.id], e.txn.fields)
  {
    if more != [] {
      var n := |more| - 1;
      BundleStays(t, e, more[..n]);
      BundleStep(From(Commit(t, e.current, e.now, e.txn), more[..n]), more[n], e.txn.id, e.txn.fields);
    }
  }

  lemma BundleStep(t: Tables, e: Event, id: VersionId, fields: map<Field, string>)
    requires id in t.versions && Bundled(t.versions[id], fields)
    ensures var n := Commit(t, e.current, e.now, e.txn); id in n.versions && Bundled(n.versions[id], fields)
  {
    SettledStep(t, e, id);
  }

  /** What is staged is what was given, on top of what was staged before; nothing else of the row changes. */
  lemma StagingAdds(t: Tables, current: Suite, now: nat, x: Txn)
    requires x.Progress? && Granted(t, current, now, x)
    ensures var v, n := t.versions[x.id], Commit(t, current, now, x).versions[x.id];
      && n == v.(fields := n.fields)
      && forall f :: (f in n.fields <==> f in x.fields || f in v.fields)
           && (f in n.fields ==> n.fields[f] == if f in x.fields then x.fields[f] else v.fields[f])
  {
  }

  // ----- suites -----

  /** A reservation given up, or consumed by a run that did not complete, leaves the suite open to anyone at once. */
  lemma SuiteIsFree(t: Tables, e: Event, owner: string, seconds: nat, current: Suite, later: nat)
    requires RunsWell(t) && Granted(t, e.current, e.now, e.txn)
    requires e.txn.ReleaseSuite? || (e.txn.InsertRun? && !e.txn.complete)
    ensures Granted(Commit(t, e.current, e.now, e.txn), current, later,
                    ClaimSuite(e.txn.id, e.txn.suite, owner, seconds))
  {
    var n := Commit(t, e.current, e.now, e.txn);
    assert (e.txn.id, e.txn.suite) in t.reservations;
    assert e.txn.id in n.versions && (e.txn.id, e.txn.suite) !in n.reservations;
    assert !HasComplete(t.runs, e.txn.id, e.txn.suite);
    if e.txn.InsertRun? {
      assert n.runs[..|t.runs|] == t.runs;
      assert forall r :: r in n.runs ==> r in t.runs || !r.complete;
    }
  }

  lemma {:induction false} CompleteStays(t: Tables, more: seq<Event>, id: VersionId, suite: Suite)
    requires HasComplete(t.runs, id, suite)
    ensures HasComplete(From(t, more).runs, id, suite)
  {
    if more != [] {
      var before, e := From(t, more[..|more| - 1]), more[|more| - 1];
      CompleteStays(t, more[..|more| - 1], id, suite);
      var r :| r in before.runs && Judges(r, id, suite) && r.complete;
      assert r in Commit(before, e.current, e.now, e.txn).runs;
    }
  }

  /** A complete run closes the suite for good: no claim on it is ever granted again, and no further run. */
  lemma SuiteIsClosed(t: Tables, e: Event, more: seq<Event>, owner: string, seconds: nat, current: Suite, later: nat)
    requires e.txn.InsertRun? && e.txn.complete && Granted(t, e.current, e.now, e.txn)
    ensures !Granted(From(Commit(t, e.current, e.now, e.txn), more), current, later,
                     ClaimSuite(e.txn.id, e.txn.suite, owner, seconds))
  {
    var n := Commit(t, e.current, e.now, e.txn);
    assert n.runs[|t.runs|] in n.runs;
    CompleteStays(n, more, e.txn.id, e.txn.suite);
  }

  // ----- approval -----

  /** The version's adjudication under the suite: the one run of it that came to an end. */
  predicate Adjudicates(r: Run, id: VersionId, suite: Suite) {
    r.version == id && r.suite == suite && r.complete
  }

  /** A pass needs no override and admits none; a FAIL or ATTENTION can be waived for a reason that says something. */
  predicate Warrants(verdict: Verdict, override: bool, reason: Option<string>) {
    || (verdict == Pass && !override)
    || ((verdict == Fail || verdict == Attention) && override && reason.Some?
        && exists i :: 0 <= i < |reason.value| && !IsSpace(reason.value[i]))
  }

  lemma OneAdjudicates(events: seq<Event>, q: Run, r: Run, id: VersionId, suite: Suite)
    requires q in After(events).runs && r in After(events).runs
    requires Adjudicates(q, id, suite) && Adjudicates(r, id, suite)
    ensures q == r
  {
    var j :| 0 <= j < |After(events).runs| && After(events).runs[j] == q;
    var k :| 0 <= k < |After(events).runs| && After(events).runs[k] == r;
    OneCompleteRun(events, j, k);
  }

  /** After any run: what is verified can be approved exactly if it has been adjudicated under the current suite, no
      other, with a verdict that warrants it; and the decision then says so. */
  lemma ApprovalGate(events: seq<Event>, current: Suite, now: nat, id: VersionId, override: bool,
                     reason: Option<string>)
    ensures var t, x := After(events), Approve(id, override, reason);
      && (Granted(t, current, now, x) <==>
            && id in t.versions && t.versions[id].status == Verified
            && exists r :: r in t.runs && Adjudicates(r, id, current) && Warrants(r.verdict, override, reason))
      && (Granted(t, current, now, x) ==> forall r :: r in t.runs && Adjudicates(r, id, current) ==>
            Commit(t, current, now, x).decisions == t.decisions + [Decision(id, r.id, r.verdict, override, reason)])
  {
    var t := After(events);
    var run := Effective(t.runs, id, current);
    if run.Some? {
      forall r | r in t.runs && Adjudicates(r, id, current) ensures r == run.value {
        OneAdjudicates(events, r, run.value, id, current);
      }
    }
    if r :| r in t.runs && Adjudicates(r, id, current) {
      assert Judges(r, id, current) && HasComplete(t.runs, id, current);
    }
  }

  // ----- pointers -----

  /** The version of the latest decision on a version of this package. */
  function LatestApproved(decisions: seq<Decision>, versions: map<VersionId, Version>, package: string)
    : Option<VersionId>
  {
    if decisions == [] then None
    else
      var last := decisions[|decisions| - 1].version;
      if last in versions && versions[last].package == package then Some(last)
      else LatestApproved(decisions[..|decisions| - 1], versions, package)
  }

  ghost predicate Housed(t: Tables) {
    && (forall id :: id in t.versions ==> t.versions[id].package in t.packages)
    && (forall d :: d in t.decisions ==> d.version in t.versions)
  }

  ghost predicate PointsAtLatest(t: Tables) {
    forall p :: p in t.packages ==> t.packages[p] == LatestApproved(t.decisions, t.versions, p)
  }

  /** A version stays where it is. */
  lemma RowsStay(t: Tables, e: Event)
    ensures var n := Commit(t, e.current, e.now, e.txn);
      forall id :: id in t.versions ==> id in n.versions && n.versions[id].package == t.versions[id].package
  {
    var x := e.txn;
    if Granted(t, e.current, e.now, x) && OnVersions(x) {
      assert Effect(t, e.current, e.now, x) == Put(t, x.id, Effect(t, e.current, e.now, x).versions[x.id]);
    }
  }

  lemma {:induction false} LatestAlike(decisions: seq<Decision>, a: map<VersionId, Version>, b: map<VersionId, Version>,
                                       p: string)
    requires forall d :: d in decisions ==> d.version in a
    requires forall id :: id in a ==> id in b && b[id].package == a[id].package
    ensures LatestApproved(decisions, a, p) == LatestApproved(decisions, b, p)
  {
    if decisions != [] {
      assert decisions[|decisions| - 1] in decisions;
      LatestAlike(decisions[..|decisions| - 1], a, b, p);
    }
  }

  lemma {:induction false} NoneDecided(decisions: seq<Decision>, versions: map<VersionId, Version>, p: string)
    requires forall id :: id in versions ==> versions[id].package != p
    ensures LatestApproved(decisions, versions, p) == None
  {
    if decisions != [] {
      NoneDecided(decisions[..|decisions| - 1], versions, p);
    }
  }

  lemma HousedStep(t: Tables, e: Event)
    requires Housed(t)
    ensures Housed(Commit(t, e.current, e.now, e.txn))
  {
    var n := Commit(t, e.current, e.now, e.txn);
    RowsStay(t, e);
    assert forall p :: p in t.packages ==> p in n.packages;
    assert forall d :: d in n.decisions ==> d in t.decisions || (e.txn.Approve? && d.version == e.txn.id);
  }

  lemma ApprovedPoints(t: Tables, e: Event)
    requires Housed(t) && PointsAtLatest(t) && e.txn.Approve? && Granted(t, e.current, e.now, e.txn)
    ensures PointsAtLatest(Commit(t, e.current, e.now, e.txn))
  {
    var n := Commit(t, e.current, e.now, e.txn);
    RowsStay(t, e);
    assert n.decisions[..|t.decisions|] == t.decisions && n.decisions[|t.decisions|].version == e.txn.id;
    forall p | p in n.packages ensures n.packages[p] == LatestApproved(n.decisions, n.versions, p) {
      LatestAlike(t.decisions, t.versions, n.versions, p);
    }
  }

  lemma DecisionsAlike(t: Tables, e: Event)
    requires !(e.txn.Approve? && Granted(t, e.current, e.now, e.txn))
    ensures var n := Commit(t, e.current, e.now, e.txn);
      && n.decisions == t.decisions
      && forall p :: p in n.packages ==> n.packages[p] == if p in t.packages then t.packages[p] else None
  {
  }

  lemma PointsStep(t: Tables, e: Event)
    requires Housed(t) && PointsAtLatest(t)
    ensures PointsAtLatest(Commit(t, e.current, e.now, e.txn))
  {
    if e.txn.Approve? && Granted(t, e.current, e.now, e.txn) {
      ApprovedPoints(t, e);
    } else {
      var n := Commit(t, e.current, e.now, e.txn);
      DecisionsAlike(t, e);
      RowsStay(t, e);
      forall p | p in n.packages ensures n.packages[p] == LatestApproved(n.decisions, n.versions, p) {
        LatestAlike(t.decisions, t.versions, n.versions, p);
        if p !in t.packages {
          NoneDecided(t.decisions, t.versions, p);
        }
      }
    }
  }

  /** After any run each package points at the version that its latest decision approved, or at none before the
      first. */
  lemma {:induction false} PointsAlways(events: seq<Event>)
    ensures Housed(After(events)) && PointsAtLatest(After(events))
  {
    if events != [] {
      PointsAlways(events[..|events| - 1]);
      HousedStep(After(events[..|events| - 1]), events[|events| - 1]);
      PointsStep(After(events[..|events| - 1]), events[|events| - 1]);
    }
  }

  /** An approval moves the pointer of its own package to its version, and no other pointer. */
  lemma ApprovalPoints(events: seq<Event>, e: Event)
    requires e.txn.Approve? && Granted(After(events), e.current, e.now, e.txn)
    ensures var t, n := After(events), After(events + [e]);
      && e.txn.id in n.versions && n.versions[e.txn.id].status == Approved
      && t.versions[e.txn.id].package in n.packages
      && n.packages[t.versions[e.txn.id].package] == Some(e.txn.id)
      && forall p :: p in t.packages && p != t.versions[e.txn.id].package ==>
           p in n.packages && n.packages[p] == t.packages[p]
  {
    assert (events + [e])[..|events|] == events;
    PointsAlways(events);
  }
}
