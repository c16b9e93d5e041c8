/** The suspect cohorts over whole runs: which polls open one, who is in it, and how the poll right after settles
    it (packages/domain/closure.py:96-142; adapters/storage/sqlite_opportunities.py:122-157). */
module Cohorts {
  import opened Basics
  import opened Closure
  import opened Opportunities
  import opened ClosureRuns

  /** A cohort is of a suspicious poll, holds exactly what vanished in it, and is settled by the poll after: a member
      that is back has reappeared, and one that is not is confirmed closed. Until then all are pending. */
  ghost predicate Accounted(c: Cohort, polls: seq<Poll>) {
    && 1 <= c.trigger <= |polls| && SuspiciousAt(polls, c.trigger - 1)
    && c.outcomes.Keys == Vanished(polls[..c.trigger - 1], polls[c.trigger - 1])
    && (c.resolved <==> c.trigger < |polls|)
    && forall id :: id in c.outcomes ==>
         && (c.outcomes[id] == Pending <==> !c.resolved)
         && (c.resolved ==> (c.outcomes[id] == Reappeared <==> id in polls[c.trigger].present))
  }

  lemma AccountedOn(c: Cohort, init: seq<Poll>, p: Poll)
    requires Accounted(c, init) && c.resolved
    ensures Accounted(c, init + [p])
  {
    var polls, t := init + [p], c.trigger;
    assert polls[..t - 1] == init[..t - 1] && polls[t - 1] == init[t - 1] && polls[t] == init[t];
  }

  /** What a poll makes of a member of the pending cohort. */
  predicate Resolves(c: Cohort, n: Cohort, p: Poll) {
    && n.trigger == c.trigger && n.resolved && n.outcomes.Keys == c.outcomes.Keys
    && forall id :: id in n.outcomes ==> n.outcomes[id] == if id in p.present then Reappeared else ConfirmedClosed
  }

  lemma PendingResolves(s: Source, p: Poll, k: nat)
    requires Inv(s) && FirstUnresolved(s.cohorts) == Some(k) && k < |s.cohorts|
    requires forall id :: id in s.cohorts[k].outcomes ==> s.cohorts[k].outcomes[id] == Pending
    ensures Resolves(s.cohorts[k], Settled(s.cohorts[k], States(WithMinted(s.rows, p)), OutlookOf(s, p)), p)
  {
    var c := s.cohorts[k];
    forall id | id in c.outcomes
      ensures id in OutlookOf(s, p).members && id in States(WithMinted(s.rows, p))
      ensures States(WithMinted(s.rows, p))[id].Live()
    {
      assert id in Members(PendingOf(s.cohorts));
      PendingMember(s, id);
    }
  }

  lemma AccountedThen(c: Cohort, n: Cohort, init: seq<Poll>, p: Poll)
    requires Accounted(c, init) && !c.resolved && Resolves(c, n, p)
    ensures Accounted(n, init + [p])
  {
    var polls := init + [p];
    assert polls[..|init| - 1] == init[..|init| - 1] && polls[|init| - 1] == init[|init| - 1] && polls[|init|] == p;
  }

  /** Each cohort from before stays, settled if it was pending; at most one is opened. */
  lemma CohortsStep(s: Source, p: Poll)
    ensures |s.cohorts| <= |Advance(s, p).cohorts| <= |s.cohorts| + 1
    ensures forall k :: 0 <= k < |s.cohorts| ==>
      (Advance(s, p).cohorts[k] == if FirstUnresolved(s.cohorts) == Some(k)
        then Settled(s.cohorts[k], States(WithMinted(s.rows, p)), OutlookOf(s, p)) else s.cohorts[k])
  {
  }

  /** What a poll opens. */
  predicate Opens(c: Cohort, vanished: set<OppId>, t: nat) {
    && c.trigger == t && !c.resolved && c.outcomes.Keys == vanished
    && forall id :: id in c.outcomes ==> c.outcomes[id] == Pending
  }

  lemma CohortOpened(s: Source, p: Poll)
    ensures var states, o := States(WithMinted(s.rows, p)), OutlookOf(s, p);
      && (|Advance(s, p).cohorts| > |s.cohorts| <==> Guarded(states, o) && FreshIds(states, o) != {})
      && (|Advance(s, p).cohorts| > |s.cohorts| ==>
            Opens(Advance(s, p).cohorts[|s.cohorts|], FreshIds(states, o), s.committed + 1))
  {
  }

  lemma AccountedNew(init: seq<Poll>, p: Poll, c: Cohort)
    requires Opens(c, Vanished(init, p), |init| + 1) && Suspicious(init, p)
    ensures Accounted(c, init + [p])
  {
    assert (init + [p])[..|init|] == init && (init + [p])[|init|] == p;
  }

  lemma OthersResolved(s: Source, k: nat)
    requires Inv(s) && k < |s.cohorts| && FirstUnresolved(s.cohorts) != Some(k)
    ensures s.cohorts[k].resolved
  {
    if FirstUnresolved(s.cohorts).Some? {
      var j := FirstUnresolved(s.cohorts).value;
      assert s.cohorts[j].resolved || s.cohorts[k].resolved;
    }
  }

  lemma OldCohort(init: seq<Poll>, p: Poll, k: nat)
    requires k < |Run(init).cohorts| && Accounted(Run(init).cohorts[k], init)
    ensures k < |Run(init + [p]).cohorts| && Accounted(Run(init + [p]).cohorts[k], init + [p])
    ensures Run(init + [p]).cohorts[k].trigger == Run(init).cohorts[k].trigger
  {
    var s := Run(init);
    RunOn(init, p);
    GuardTransparent(init);
    CohortsStep(s, p);
    if FirstUnresolved(s.cohorts) == Some(k) {
      PendingResolves(s, p, k);
      AccountedThen(s.cohorts[k], Run(init + [p]).cohorts[k], init, p);
    } else {
      OthersResolved(s, k);
      AccountedOn(s.cohorts[k], init, p);
    }
  }

  lemma NewCohort(init: seq<Poll>, p: Poll)
    ensures var before, after := Run(init).cohorts, Run(init + [p]).cohorts;
      && |before| <= |after| <= |before| + 1
      && (|after| > |before| <==> Suspicious(init, p) && Vanished(init, p) != {})
      && (|after| > |before| ==> Accounted(after[|before|], init + [p]) && after[|before|].trigger == |init| + 1)
  {
    RunOn(init, p);
    GuardTransparent(init);
    CountsFollow(init, p);
    CohortsStep(Run(init), p);
    CohortOpened(Run(init), p);
    if |Run(init + [p]).cohorts| > |Run(init).cohorts| {
      AccountedNew(init, p, Run(init + [p]).cohorts[|Run(init).cohorts|]);
    }
  }

  ghost predicate AllAccounted(cohorts: seq<Cohort>, polls: seq<Poll>) {
    forall k :: 0 <= k < |cohorts| ==> Accounted(cohorts[k], polls)
  }

  lemma OldCohorts(init: seq<Poll>, p: Poll)
    requires AllAccounted(Run(init).cohorts, init) && |Run(init).cohorts| <= |Run(init + [p]).cohorts|
    ensures forall k :: 0 <= k < |Run(init).cohorts| ==> Accounted(Run(init + [p]).cohorts[k], init + [p])
  {
    forall k | 0 <= k < |Run(init).cohorts| ensures Accounted(Run(init + [p]).cohorts[k], init + [p]) {
      OldCohort(init, p, k);
    }
  }

  lemma OneMore<T>(xs: seq<T>, good: T -> bool, n: nat)
    requires n <= |xs| <= n + 1 && forall k :: 0 <= k < n ==> good(xs[k])
    requires n < |xs| ==> good(xs[n])
    ensures forall k :: 0 <= k < |xs| ==> good(xs[k])
  {
  }

  /** Over any run every cohort is so accounted for. */
  lemma {:induction false} CohortsAccounted(polls: seq<Poll>)
    ensures AllAccounted(Run(polls).cohorts, polls)
  {
    if polls != [] {
      var init, p := polls[..|polls| - 1], polls[|polls| - 1];
      assert polls == init + [p];
      CohortsAccounted(init);
      NewCohort(init, p);
      OldCohorts(init, p);
      OneMore(Run(polls).cohorts, c => Accounted(c, polls), |Run(init).cohorts|);
    }
  }

  /** Some cohort was opened by this poll. */
  ghost predicate OpenedBy(cohorts: seq<Cohort>, t: nat) {
    exists k :: 0 <= k < |cohorts| && cohorts[k].trigger == t
  }

  lemma OpenedStill(init: seq<Poll>, p: Poll, t: nat)
    requires OpenedBy(Run(init).cohorts, t)
    ensures OpenedBy(Run(init + [p]).cohorts, t)
  {
    RunOn(init, p);
    CohortsStep(Run(init), p);
    var k :| 0 <= k < |Run(init).cohorts| && Run(init).cohorts[k].trigger == t;
    assert Run(init + [p]).cohorts[k].trigger == t;
  }

  lemma OpenedNow(init: seq<Poll>, p: Poll)
    requires Suspicious(init, p) && Vanished(init, p) != {}
    ensures OpenedBy(Run(init + [p]).cohorts, |init| + 1)
  {
    NewCohort(init, p);
    assert Run(init + [p]).cohorts[|Run(init).cohorts|].trigger == |init| + 1;
  }

  /** And every suspicious poll that lost something opened one, which is never lost itself. */
  lemma {:induction false} SuspiciousOpens(polls: seq<Poll>, i: nat)
    requires i < |polls| && SuspiciousAt(polls, i) && Vanished(polls[..i], polls[i]) != {}
    ensures OpenedBy(Run(polls).cohorts, i + 1)
  {
    var init, p := polls[..|polls| - 1], polls[|polls| - 1];
    assert polls == init + [p];
    if i < |init| {
      assert init[..i] == polls[..i];
      SuspiciousOpens(init, i);
      OpenedStill(init, p, i + 1);
    } else {
      OpenedNow(init, p);
    }
  }
}
