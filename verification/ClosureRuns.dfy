/** Closure over whole runs: the guarded machine with its cohorts refines the plain rule "close on the
    second consecutive absence, or on one authoritative absence", and every row is decided by the
    history of polls alone. */
module ClosureRuns {
  import opened Basics
  import opened Closure
  import opened Opportunities

  // ---------------------------------------------------------------- the machine and the plain rule

  ghost function Run(polls: seq<Poll>): Source {
    if polls == [] then EMPTY else Advance(Run(polls[..|polls| - 1]), polls[|polls| - 1])
  }

  /** The plain rule for one row; it knows neither guard nor cohort. */
  function RuleRow(r: Row, present: bool, authoritative: bool, snapshot: SnapId, at: nat): Row {
    if present then
      if r.Live() then Touched(r, at) else ReopenedRow(r, 1, at)
    else if !r.Live() then r
    else if authoritative then ClosedRow(r, [snapshot], at)
    else if r.streak == 0 then Missed(r, 1, snapshot)
    else ClosedRow(r, if r.lastAbsence.Some? then [r.lastAbsence.value, snapshot] else [snapshot], at)
  }

  function RuleStep(rows: map<OppId, Row>, p: Poll, snapshot: SnapId): map<OppId, Row> {
    var minted := WithMinted(rows, p);
    map id | id in minted :: RuleRow(minted[id], id in p.present, p.authoritative, snapshot, p.at)
  }

  function RuleRun(polls: seq<Poll>): map<OppId, Row> {
    if polls == [] then map[] else RuleStep(RuleRun(polls[..|polls| - 1]), polls[|polls| - 1], |polls|)
  }

  /** Equal but for the recorded confirming snapshots. */
  predicate SameButClosing(a: Row, b: Row) {
    a.(closing := []) == b.(closing := [])
  }

  // ---------------------------------------------------------------- what every poll keeps

  predicate RowFits(r: Row, committed: nat) {
    && r.streak <= 1
    && (r.streak == 1 ==> r.Live() && r.lastAbsence == Some(committed))
    && (r.streak == 0 ==> r.lastAbsence == None)
  }

  ghost predicate CohortFits(c: Cohort, s: Source) {
    !c.resolved ==>
      && c.trigger == s.committed
      && (forall id :: id in c.outcomes && c.outcomes[id] == Pending ==>
          id in s.rows && s.rows[id].streak == 1)
  }

  /** Live streaks are 0 or 1, a running streak began with the latest snapshot, at most one cohort is
      unresolved, it was triggered by the latest snapshot, and its pending members are mid-streak. */
  ghost predicate Inv(s: Source) {
    && (forall id :: id in s.rows ==> RowFits(s.rows[id], s.committed))
    && (forall k :: 0 <= k < |s.cohorts| ==> CohortFits(s.cohorts[k], s))
    && (forall j, k :: 0 <= j < k < |s.cohorts| ==> s.cohorts[j].resolved || s.cohorts[k].resolved)
  }

  /** A member awaiting confirmation is live, mid-streak since the snapshot that triggered the cohort. */
  lemma PendingMember(s: Source, id: OppId)
    requires Inv(s) && id in Members(PendingOf(s.cohorts))
    ensures id in s.rows && s.rows[id].Live() && s.rows[id].streak == 1
    ensures s.rows[id].lastAbsence == Some(TriggerOf(PendingOf(s.cohorts)))
  {
    var k := FirstUnresolved(s.cohorts).value;
    assert CohortFits(s.cohorts[k], s);
  }

  /** One poll treats a row as the plain rule does. The recorded confirming snapshots differ exactly when an
      authoritative snapshot confirms a member of the pending cohort: the pair is recorded where the
      rule records the one decisive snapshot. */
  lemma RowRefines(s: Source, p: Poll, id: OppId)
    requires Inv(s) && id in WithMinted(s.rows, p)
    ensures var r := WithMinted(s.rows, p)[id];
      var machine := NextRow(id, r, OutlookOf(s, p), TriggerOf(PendingOf(s.cohorts)), p.at);
      var rule := RuleRow(r, id in p.present, p.authoritative, s.committed + 1, p.at);
      && SameButClosing(machine, rule)
      && (machine.closing == rule.closing <==>
          !(p.authoritative && id !in p.present && id in Members(PendingOf(s.cohorts))))
  {
    if id in Members(PendingOf(s.cohorts)) {
      PendingMember(s, id);
    }
  }

  lemma InvStep(s: Source, p: Poll)
    requires Inv(s)
    ensures Inv(Advance(s, p))
  {
    var next := Advance(s, p);
    forall id | id in next.rows ensures RowFits(next.rows[id], next.committed) {
      RowRefines(s, p, id);
    }
    AllSettled(s, p);
    forall k | 0 <= k < |next.cohorts| ensures CohortFits(next.cohorts[k], next) {
      if k == |s.cohorts| {
        SuspectsAreMidStreak(s, p);
      }
    }
  }

  /** Every cohort from before the poll is resolved after it. */
  lemma AllSettled(s: Source, p: Poll)
    requires Inv(s)
    ensures |s.cohorts| <= |Advance(s, p).cohorts| <= |s.cohorts| + 1
    ensures forall k :: 0 <= k < |s.cohorts| ==> Advance(s, p).cohorts[k].resolved
  {
  }

  lemma SuspectsAreMidStreak(s: Source, p: Poll)
    requires Inv(s)
    ensures var next := Advance(s, p);
      |next.cohorts| > |s.cohorts| ==> CohortFits(next.cohorts[|s.cohorts|], next)
  {
    var next := Advance(s, p);
    if |next.cohorts| > |s.cohorts| {
      var o := OutlookOf(s, p);
      var states := States(WithMinted(s.rows, p));
      assert next.cohorts[|s.cohorts|].outcomes.Keys == FreshIds(states, o);
      forall id | id in FreshIds(states, o) ensures id in next.rows && next.rows[id].streak == 1 {
        RowRefines(s, p, id);
        assert states[id] == StateOf(id, WithMinted(s.rows, p)[id]);
      }
    }
  }

  // ---------------------------------------------------------------- transparency over runs

  /** The plain rule does not look at the recorded confirming snapshots. */
  lemma RuleRowAgrees(a: Row, b: Row, present: bool, authoritative: bool, snapshot: SnapId, at: nat)
    requires SameButClosing(a, b)
    ensures SameButClosing(
      RuleRow(a, present, authoritative, snapshot, at), RuleRow(b, present, authoritative, snapshot, at))
  {
  }

  lemma SameButClosingChain(a: Row, b: Row, c: Row)
    requires SameButClosing(a, b) && SameButClosing(b, c)
    ensures SameButClosing(a, c)
  {
  }

  lemma AdvancedRow(s: Source, p: Poll, id: OppId)
    requires id in WithMinted(s.rows, p)
    ensures id in Advance(s, p).rows
    ensures Advance(s, p).rows[id]
         == NextRow(id, WithMinted(s.rows, p)[id], OutlookOf(s, p), TriggerOf(PendingOf(s.cohorts)), p.at)
  {
  }

  lemma RowAgrees(s: Source, rule: map<OppId, Row>, p: Poll, id: OppId)
    requires Inv(s) && s.rows.Keys == rule.Keys
    requires id in rule ==> SameButClosing(s.rows[id], rule[id])
    requires id in WithMinted(s.rows, p)
    ensures id in Advance(s, p).rows && id in RuleStep(rule, p, s.committed + 1)
    ensures SameButClosing(Advance(s, p).rows[id], RuleStep(rule, p, s.committed + 1)[id])
  {
    var a, b := WithMinted(s.rows, p)[id], WithMinted(rule, p)[id];
    AdvancedRow(s, p, id);
    RowRefines(s, p, id);
    RuleRowAgrees(a, b, id in p.present, p.authoritative, s.committed + 1, p.at);
    SameButClosingChain(Advance(s, p).rows[id],
      RuleRow(a, id in p.present, p.authoritative, s.committed + 1, p.at),
      RuleRow(b, id in p.present, p.authoritative, s.committed + 1, p.at));
  }

  lemma AdvancedKeys(s: Source, rule: map<OppId, Row>, p: Poll)
    ensures Advance(s, p).rows.Keys == WithMinted(s.rows, p).Keys
    ensures s.rows.Keys == rule.Keys ==> RuleStep(rule, p, s.committed + 1).Keys == WithMinted(s.rows, p).Keys
  {
  }

  lemma StepAgrees(s: Source, rule: map<OppId, Row>, p: Poll)
    requires Inv(s) && s.rows.Keys == rule.Keys
    requires forall id :: id in rule ==> SameButClosing(s.rows[id], rule[id])
    ensures Advance(s, p).rows.Keys == RuleStep(rule, p, s.committed + 1).Keys
    ensures forall id :: id in Advance(s, p).rows ==>
      SameButClosing(Advance(s, p).rows[id], RuleStep(rule, p, s.committed + 1)[id])
  {
    AdvancedKeys(s, rule, p);
    forall id | id in WithMinted(s.rows, p)
      ensures SameButClosing(Advance(s, p).rows[id], RuleStep(rule, p, s.committed + 1)[id])
    {
      RowAgrees(s, rule, p, id);
    }
  }

  /** On every run, whatever the guard settings of each poll, the machine's rows are those of the plain
      rule: availability, streak, last absence, reopenings and times. */
  lemma {:induction false} GuardTransparent(polls: seq<Poll>)
    ensures Inv(Run(polls)) && Run(polls).committed == |polls|
    ensures Run(polls).rows.Keys == RuleRun(polls).Keys
    ensures forall id :: id in RuleRun(polls) ==> SameButClosing(Run(polls).rows[id], RuleRun(polls)[id])
  {
    if polls != [] {
      var init, p := polls[..|polls| - 1], polls[|polls| - 1];
      GuardTransparent(init);
      InvStep(Run(init), p);
      StepAgrees(Run(init), RuleRun(init), p);
    }
  }

  /** A poll that is not authoritative leaves exactly the rows of the plain rule. */
  lemma OrdinaryStep(s: Source, p: Poll)
    requires Inv(s) && !p.authoritative
    ensures Advance(s, p).rows == RuleStep(s.rows, p, s.committed + 1)
  {
    var next, rule := Advance(s, p).rows, RuleStep(s.rows, p, s.committed + 1);
    AdvancedKeys(s, s.rows, p);
    forall id | id in WithMinted(s.rows, p) ensures next[id] == rule[id] {
      AdvancedRow(s, p, id);
      RowRefines(s, p, id);
      SameThroughout(next[id], rule[id]);
    }
  }

  lemma SameThroughout(a: Row, b: Row)
    requires SameButClosing(a, b) && a.closing == b.closing
    ensures a == b
  {
  }

  /** The confirming snapshots agree as well when no snapshot of the run is authoritative. */
  lemma {:induction false} GuardTransparentThroughout(polls: seq<Poll>)
    requires forall i :: 0 <= i < |polls| ==> !polls[i].authoritative
    ensures Run(polls).rows == RuleRun(polls)
  {
    if polls != [] {
      var init := polls[..|polls| - 1];
      GuardTransparent(init);
      GuardTransparentThroughout(init);
      OrdinaryStep(Run(init), polls[|polls| - 1]);
    }
  }

  /** Two runs over the same observations, under any two histories of guard settings. */
  ghost predicate SameObservations(ps: seq<Poll>, qs: seq<Poll>) {
    && |ps| == |qs|
    && forall i :: 0 <= i < |ps| ==>
      ps[i].present == qs[i].present && ps[i].authoritative == qs[i].authoritative && ps[i].at == qs[i].at
  }

  lemma {:induction false} RuleIgnoresGuard(ps: seq<Poll>, qs: seq<Poll>)
    requires SameObservations(ps, qs)
    ensures RuleRun(ps) == RuleRun(qs)
  {
    if ps != [] {
      RuleIgnoresGuard(ps[..|ps| - 1], qs[..|qs| - 1]);
    }
  }

  lemma GuardSettingsImmaterial(ps: seq<Poll>, qs: seq<Poll>)
    requires SameObservations(ps, qs)
    ensures Run(ps).rows.Keys == Run(qs).rows.Keys
    ensures forall id :: id in Run(ps).rows ==> SameButClosing(Run(ps).rows[id], Run(qs).rows[id])
    ensures (forall i :: 0 <= i < |ps| ==> !ps[i].authoritative) ==> Run(ps).rows == Run(qs).rows
  {
    GuardTransparent(ps);
    GuardTransparent(qs);
    RuleIgnoresGuard(ps, qs);
    if forall i :: 0 <= i < |ps| ==> !ps[i].authoritative {
      GuardTransparentThroughout(ps);
      GuardTransparentThroughout(qs);
    }
  }

  lemma RunOn(init: seq<Poll>, p: Poll)
    ensures Run(init + [p]) == Advance(Run(init), p)
  {
    assert (init + [p])[..|init|] == init;
  }

  /** A run on which the guard setting does change the recorded confirming snapshots: one posting, lost
      in an ordinary poll and then in an authoritative one. */
  lemma GuardSettingRecorded(seen: Poll, lost: Poll, vouched: Poll)
    requires seen == Poll({"a"}, false, 0, 1, 0) && vouched == Poll({}, true, 0, 1, 0)
    requires lost.present == {} && !lost.authoritative && lost.guardPercent == 0
    requires lost.guardMin == 1 || lost.guardMin == 2
    ensures var end := Run([seen, lost, vouched]);
      "a" in end.rows && end.rows["a"].closing == if lost.guardMin == 1 then [2, 3] else [3]
  {
    FirstPosting(seen);
    RunOn([seen], lost);
    assert [seen] + [lost] == [seen, lost];
    LostPosting(Run([seen]), lost);
    RunOn([seen, lost], vouched);
    assert [seen, lost] + [vouched] == [seen, lost, vouched];
    LastPosting(Run([seen, lost]), lost.guardMin == 1, vouched);
  }

  lemma LastPosting(s: Source, suspected: bool, vouched: Poll)
    requires s.rows == map["a" := Missed(Minted(0), 1, 2)] && s.committed == 2
    requires s.cohorts == if suspected then [Cohort(2, map["a" := Pending], false)] else []
    requires vouched == Poll({}, true, 0, 1, 0)
    ensures var end := Advance(s, vouched);
      "a" in end.rows && end.rows["a"].closing == if suspected then [2, 3] else [3]
  {
    assert WithMinted(s.rows, vouched) == s.rows;
    if suspected {
      assert FirstUnresolved(s.cohorts) == Some(0);
      assert "a" in Members(PendingOf(s.cohorts));
    }
  }

  lemma FirstPosting(seen: Poll)
    requires seen == Poll({"a"}, false, 0, 1, 0)
    ensures Run([seen]) == Source(map["a" := Minted(0)], [], 1)
  {
    assert [seen][..0] == [];
    var states := States(WithMinted(EMPTY.rows, seen));
    assert WithMinted(EMPTY.rows, seen) == map["a" := Minted(0)];
    assert FreshIds(states, OutlookOf(EMPTY, seen)) == {};
    assert Run([seen]) == Advance(EMPTY, seen);
    assert Advance(EMPTY, seen).rows == map["a" := Minted(0)];
  }

  lemma LostPosting(s: Source, lost: Poll)
    requires s == Source(map["a" := Minted(0)], [], 1)
    requires lost.present == {} && !lost.authoritative && lost.guardPercent == 0
    requires lost.guardMin == 1 || lost.guardMin == 2
    ensures Advance(s, lost).rows == map["a" := Missed(Minted(0), 1, 2)]
    ensures Advance(s, lost).cohorts ==
      if lost.guardMin == 1 then [Cohort(2, map["a" := Pending], false)] else []
  {
    var states := States(WithMinted(s.rows, lost));
    var o := OutlookOf(s, lost);
    assert WithMinted(s.rows, lost) == s.rows;
    assert states["a"] == StateOf("a", Minted(0));
    assert FreshIds(states, o) == {"a"} && LiveIds(states) == {"a"};
    assert Guarded(states, o) <==> lost.guardMin == 1;
    var suspects := FreshIds(states, o);
    assert (map id | id in suspects :: Pending) == map["a" := Pending];
  }

  // ---------------------------------------------------------------- decided by the history alone

  /** How many of the latest polls in a row lack the posting. */
  function Trailing(polls: seq<Poll>, id: OppId): (n: nat)
    ensures n <= |polls|
  {
    if polls == [] || id in polls[|polls| - 1].present then 0 else 1 + Trailing(polls[..|polls| - 1], id)
  }

  ghost predicate Seen(polls: seq<Poll>, id: OppId) {
    exists i :: 0 <= i < |polls| && id in polls[i].present
  }

  /** Seen, and since then absent from two polls in a row, or from one that the vendor vouches for. */
  predicate ClosedBy(polls: seq<Poll>, id: OppId) {
    var lacking := Trailing(polls, id);
    lacking < |polls| && (lacking >= 2 || (lacking == 1 && polls[|polls| - 1].authoritative))
  }

  function ReopensIn(polls: seq<Poll>, id: OppId): nat {
    if polls == [] then 0
    else
      var init := polls[..|polls| - 1];
      ReopensIn(init, id) + if id in polls[|polls| - 1].present && ClosedBy(init, id) then 1 else 0
  }

  lemma TrailingIsAbsence(polls: seq<Poll>, id: OppId)
    ensures var k := |polls| - Trailing(polls, id);
      && (forall i :: k <= i < |polls| ==> id !in polls[i].present)
      && (k > 0 ==> id in polls[k - 1].present)
      && (Seen(polls, id) <==> k > 0)
  {
    if polls != [] && id !in polls[|polls| - 1].present {
      var init := polls[..|polls| - 1];
      TrailingIsAbsence(init, id);
      forall i | |polls| - Trailing(polls, id) <= i < |polls| ensures id !in polls[i].present {
        if i < |init| { assert polls[i] == init[i]; }
      }
      var k := |polls| - Trailing(polls, id);
      assert k > 0 ==> init[k - 1] == polls[k - 1];
    } else if polls != [] {
      assert id in polls[|polls| - 1].present;
    }
  }

  /** The row's state is what the polls say about the posting. */
  predicate StateRecorded(r: Row, polls: seq<Poll>, id: OppId) {
    var first := |polls| - Trailing(polls, id);
    var closed := ClosedBy(polls, id);
    && first > 0
    && (r.availability == Closed <==> closed)
    && (r.availability == Reopened <==> !closed && ReopensIn(polls, id) > 0)
    && r.reopens == ReopensIn(polls, id)
    && r.streak == (if closed then 0 else Trailing(polls, id))
    && r.lastAbsence == (if !closed && Trailing(polls, id) == 1 then Some(|polls|) else None)
    && r.lastSeen == polls[first - 1].at
  }

  lemma {:induction false} StateDecided(polls: seq<Poll>, id: OppId)
    ensures id in Run(polls).rows <==> Seen(polls, id)
    ensures Seen(polls, id) ==> StateRecorded(Run(polls).rows[id], polls, id)
  {
    if polls != [] {
      var init, p := polls[..|polls| - 1], polls[|polls| - 1];
      assert polls == init + [p];
      StateDecided(init, id);
      GuardTransparent(init);
      SeenStep(init, p, id);
      if Seen(polls, id) {
        StateStep(Run(init), init, p, id);
      }
    }
  }

  lemma SeenStep(init: seq<Poll>, p: Poll, id: OppId)
    ensures Seen(init + [p], id) <==> Seen(init, id) || id in p.present
  {
    var polls := init + [p];
    if id in p.present {
      assert id in polls[|init|].present;
    }
    if Seen(init, id) {
      var i :| 0 <= i < |init| && id in init[i].present;
      assert id in polls[i].present;
    }
  }

  lemma StateStep(s: Source, init: seq<Poll>, p: Poll, id: OppId)
    requires Inv(s) && s.committed == |init|
    requires id in s.rows || id in p.present
    requires id in s.rows <==> Seen(init, id)
    requires id in s.rows ==> StateRecorded(s.rows[id], init, id)
    ensures StateRecorded(Advance(s, p).rows[id], init + [p], id)
  {
    RowRefines(s, p, id);
    var next := Advance(s, p).rows[id];
    if id in s.rows {
      assert RowFits(s.rows[id], s.committed);
      StateAgain(s.rows[id], next, init, p, id);
    } else {
      StateFirst(next, init, p, id);
    }
  }

  lemma StateAgain(r: Row, next: Row, init: seq<Poll>, p: Poll, id: OppId)
    requires StateRecorded(r, init, id) && RowFits(r, |init|)
    requires SameButClosing(next, RuleRow(r, id in p.present, p.authoritative, |init| + 1, p.at))
    ensures StateRecorded(next, init + [p], id)
  {
    assert (init + [p])[..|init|] == init;
  }

  lemma StateFirst(next: Row, init: seq<Poll>, p: Poll, id: OppId)
    requires !Seen(init, id) && id in p.present
    requires SameButClosing(next, Minted(p.at))
    ensures StateRecorded(next, init + [p], id)
  {
    assert (init + [p])[..|init|] == init;
    TrailingIsAbsence(init, id);
    NeverReopened(init, id);
  }

  lemma NeverReopened(polls: seq<Poll>, id: OppId)
    requires !Seen(polls, id)
    ensures ReopensIn(polls, id) == 0
  {
    if polls != [] {
      SeenStep(polls[..|polls| - 1], polls[|polls| - 1], id);
      assert polls == polls[..|polls| - 1] + [polls[|polls| - 1]];
      NeverReopened(polls[..|polls| - 1], id);
    }
  }

  // ---------------------------------------------------------------- what is recorded of a closure

  function AllSeen(polls: seq<Poll>): set<OppId> {
    if polls == [] then {} else AllSeen(polls[..|polls| - 1]) + polls[|polls| - 1].present
  }

  lemma {:induction false} AllSeenIs(polls: seq<Poll>, id: OppId)
    ensures id in AllSeen(polls) <==> Seen(polls, id)
  {
    if polls != [] {
      var init, p := polls[..|polls| - 1], polls[|polls| - 1];
      AllSeenIs(init, id);
      SeenStep(init, p, id);
      assert polls == init + [p];
    }
  }

  /** The postings there in the poll before and lacking in this one. */
  function Vanished(polls: seq<Poll>, p: Poll): set<OppId> {
    if polls == [] then {} else polls[|polls| - 1].present - p.present
  }

  /** The postings not closed by the polls so far, the new ones of this poll included. */
  function NotClosed(polls: seq<Poll>, p: Poll): set<OppId> {
    (set id | id in AllSeen(polls) && !ClosedBy(polls, id)) + (p.present - AllSeen(polls))
  }

  /** Too much vanishes at once: what of the observations so far and of the settings of this poll alone the
      guard looks at. */
  predicate Suspicious(polls: seq<Poll>, p: Poll) {
    var lost, live := |Vanished(polls, p)|, |NotClosed(polls, p)|;
    !p.authoritative && live > 0 && lost >= p.guardMin && lost * 100 > live * p.guardPercent
  }

  predicate SuspiciousAt(polls: seq<Poll>, i: nat)
    requires i < |polls|
  {
    Suspicious(polls[..i], polls[i])
  }

  lemma SuspiciousBefore(init: seq<Poll>, p: Poll, i: nat)
    requires i < |init|
    ensures SuspiciousAt(init + [p], i) == SuspiciousAt(init, i)
  {
    assert (init + [p])[..i] == init[..i];
  }

  lemma CountsFollow(polls: seq<Poll>, p: Poll)
    ensures var s := Run(polls); var states := States(WithMinted(s.rows, p));
      && FreshIds(states, OutlookOf(s, p)) == Vanished(polls, p)
      && LiveIds(states) == NotClosed(polls, p)
  {
    var s := Run(polls);
    var states := States(WithMinted(s.rows, p));
    forall id ensures id in FreshIds(states, OutlookOf(s, p)) <==> id in Vanished(polls, p) {
      FreshFollows(polls, p, id);
    }
    forall id ensures id in LiveIds(states) <==> id in NotClosed(polls, p) {
      StateDecided(polls, id);
      AllSeenIs(polls, id);
    }
  }

  lemma FreshFollows(polls: seq<Poll>, p: Poll, id: OppId)
    ensures var s := Run(polls);
      id in FreshIds(States(WithMinted(s.rows, p)), OutlookOf(s, p)) <==> id in Vanished(polls, p)
  {
    StateDecided(polls, id);
    GuardTransparent(polls);
    TrailingIsAbsence(polls, id);
    if id in Members(PendingOf(Run(polls).cohorts)) {
      PendingMember(Run(polls), id);
    }
  }

  /** The pending members after a poll are what vanished in it, if that was suspicious, and otherwise none. */
  lemma PendingIs(polls: seq<Poll>, p: Poll, id: OppId)
    ensures id in Members(PendingOf(Run(polls + [p]).cohorts)) <==> Suspicious(polls, p) && id in Vanished(polls, p)
  {
    RunOn(polls, p);
    GuardTransparent(polls);
    CountsFollow(polls, p);
    SuspectsPending(Run(polls), p, id);
  }

  lemma SuspectsPending(s: Source, p: Poll, id: OppId)
    requires Inv(s)
    ensures var states, o := States(WithMinted(s.rows, p)), OutlookOf(s, p);
      id in Members(PendingOf(Advance(s, p).cohorts)) <==> Guarded(states, o) && id in FreshIds(states, o)
  {
    AllSettled(s, p);
    var next := Advance(s, p).cohorts;
    var suspects := FreshIds(States(WithMinted(s.rows, p)), OutlookOf(s, p));
    if |next| > |s.cohorts| {
      assert next[|s.cohorts|].outcomes == map i | i in suspects :: Pending;
      assert FirstUnresolved(next) == Some(|s.cohorts|);
    } else {
      assert FirstUnresolved(next) == None;
    }
  }

  /** The confirming snapshots of a closure: the first absence if it is authoritative; otherwise the first
      two, or the second alone if that is authoritative and the first was not suspicious. */
  function Confirming(polls: seq<Poll>, first: nat, suspicious: bool): seq<SnapId>
    requires first < |polls| && (polls[first].authoritative || first + 1 < |polls|)
  {
    if polls[first].authoritative then [first + 1]
    else if polls[first + 1].authoritative && !suspicious then [first + 2]
    else [first + 1, first + 2]
  }

  function ConfirmingOf(polls: seq<Poll>, id: OppId): seq<SnapId>
    requires ClosedBy(polls, id)
  {
    var first := |polls| - Trailing(polls, id);
    Confirming(polls, first, SuspiciousAt(polls, first))
  }

  function ClosedAt(polls: seq<Poll>, first: nat): nat
    requires first < |polls| && (polls[first].authoritative || first + 1 < |polls|)
  {
    if polls[first].authoritative then polls[first].at else polls[first + 1].at
  }

  function ClosingTime(polls: seq<Poll>, id: OppId): nat
    requires ClosedBy(polls, id)
  {
    ClosedAt(polls, |polls| - Trailing(polls, id))
  }

  /** How many polls there were when the posting was last closed; none if it never was. */
  function LastClosed(polls: seq<Poll>, id: OppId): (n: nat)
    ensures n <= |polls| && (n > 0 ==> ClosedBy(polls[..n], id))
  {
    if polls == [] then 0
    else
      var init := polls[..|polls| - 1];
      assert polls[..|polls|] == polls && forall k: nat :: k <= |init| ==> polls[..k] == init[..k];
      if ClosedBy(polls, id) then |polls| else LastClosed(init, id)
  }

  function LastConfirming(polls: seq<Poll>, id: OppId): seq<SnapId> {
    var n := LastClosed(polls, id);
    if n == 0 then [] else ConfirmingOf(polls[..n], id)
  }

  function LastClosingTime(polls: seq<Poll>, id: OppId): Option<nat> {
    var n := LastClosed(polls, id);
    if n == 0 then None else Some(ClosingTime(polls[..n], id))
  }

  /** What the row keeps of its last closure, a reopening included. */
  predicate ClosureRecorded(r: Row, polls: seq<Poll>, id: OppId) {
    r.closing == LastConfirming(polls, id) && r.closedAt == LastClosingTime(polls, id)
  }

  lemma {:induction false} ClosureDecided(polls: seq<Poll>, id: OppId)
    requires Seen(polls, id)
    ensures id in Run(polls).rows && ClosureRecorded(Run(polls).rows[id], polls, id)
  {
    var init, p := polls[..|polls| - 1], polls[|polls| - 1];
    assert polls == init + [p];
    StateDecided(polls, id);
    SeenStep(init, p, id);
    if Seen(init, id) {
      ClosureDecided(init, id);
      ClosureStep(init, p, id);
    } else {
      FirstRow(init, p, id);
    }
  }

  lemma FirstRow(init: seq<Poll>, p: Poll, id: OppId)
    requires !Seen(init, id) && id in p.present && id in Run(init + [p]).rows
    ensures ClosureRecorded(Run(init + [p]).rows[id], init + [p], id)
  {
    RunOn(init, p);
    StateDecided(init, id);
    GuardTransparent(init);
    NewRow(Run(init), p, id);
    assert (init + [p])[..|init|] == init;
    NeverClosed(init + [p], id);
  }

  lemma NewRow(s: Source, p: Poll, id: OppId)
    requires Inv(s) && id !in s.rows && id in p.present
    ensures Advance(s, p).rows[id].closing == [] && Advance(s, p).rows[id].closedAt == None
  {
    AdvancedRow(s, p, id);
    RowRefines(s, p, id);
  }

  lemma ClosureStep(init: seq<Poll>, p: Poll, id: OppId)
    requires id in Run(init).rows && id in Run(init + [p]).rows && ClosureRecorded(Run(init).rows[id], init, id)
    ensures ClosureRecorded(Run(init + [p]).rows[id], init + [p], id)
  {
    StateDecided(init, id);
    StateDecided(init + [p], id);
    GuardTransparent(init);
    RunOn(init, p);
    ClosureOn(Run(init), Run(init + [p]).rows[id], init, p, id);
  }

  lemma ClosureOn(s: Source, next: Row, init: seq<Poll>, p: Poll, id: OppId)
    requires s == Run(init) && Inv(s) && s.committed == |init| && id in s.rows
    requires id in Advance(s, p).rows && next == Advance(s, p).rows[id]
    requires StateRecorded(s.rows[id], init, id) && ClosureRecorded(s.rows[id], init, id)
    requires StateRecorded(next, init + [p], id)
    ensures ClosureRecorded(next, init + [p], id)
  {
    if ClosedBy(init + [p], id) && !ClosedBy(init, id) {
      ClosureMade(s, p, id);
      ClosesBy(init, p, id);
      PendingBefore(init, id);
      NewClosure(next, init, p, id, id in Members(PendingOf(s.cohorts)));
    } else {
      ClosureKept(s, p, id);
      OldClosure(s.rows[id], next, init, p, id);
    }
  }

  /** Nothing is recorded of a posting not seen before the last poll. */
  lemma {:induction false} NeverClosed(polls: seq<Poll>, id: OppId)
    requires Trailing(polls, id) == |polls| || (Trailing(polls, id) == 0 && !Seen(polls[..|polls| - 1], id))
    ensures LastClosed(polls, id) == 0
  {
    if polls != [] {
      TrailingIsAbsence(polls[..|polls| - 1], id);
      NeverClosed(polls[..|polls| - 1], id);
    }
  }

  lemma LastClosedOn(init: seq<Poll>, p: Poll, id: OppId)
    ensures LastClosed(init + [p], id) == if ClosedBy(init + [p], id) then |init| + 1 else LastClosed(init, id)
    ensures (init + [p])[..LastClosed(init, id)] == init[..LastClosed(init, id)]
    ensures (init + [p])[..|init| + 1] == init + [p]
    ensures ClosedBy(init, id) ==> LastClosed(init, id) == |init| && init[..|init|] == init
  {
    assert (init + [p])[..|init|] == init;
  }

  /** A poll that does not close a row keeps what is recorded of its last closure. */
  lemma ClosureKept(s: Source, p: Poll, id: OppId)
    requires Inv(s) && id in s.rows
    requires s.rows[id].Live() ==> Advance(s, p).rows[id].Live()
    ensures Advance(s, p).rows[id].closing == s.rows[id].closing
    ensures Advance(s, p).rows[id].closedAt == s.rows[id].closedAt
  {
    AdvancedRow(s, p, id);
    RowRefines(s, p, id);
    if id in Members(PendingOf(s.cohorts)) {
      PendingMember(s, id);
    }
  }

  /** One that does close it records the pair, or an authoritative snapshot alone. */
  lemma ClosureMade(s: Source, p: Poll, id: OppId)
    requires Inv(s) && id in s.rows && s.rows[id].Live() && !Advance(s, p).rows[id].Live()
    ensures Advance(s, p).rows[id].closedAt == Some(p.at)
    ensures Advance(s, p).rows[id].closing ==
      if p.authoritative && id !in Members(PendingOf(s.cohorts)) then [s.committed + 1]
      else [s.committed, s.committed + 1]
  {
    AdvancedRow(s, p, id);
    RowRefines(s, p, id);
    assert RowFits(s.rows[id], s.committed);
    if id in Members(PendingOf(s.cohorts)) {
      PendingMember(s, id);
    }
  }

  lemma OldClosure(r: Row, next: Row, init: seq<Poll>, p: Poll, id: OppId)
    requires ClosureRecorded(r, init, id) && next.closing == r.closing && next.closedAt == r.closedAt
    requires ClosedBy(init + [p], id) ==> ClosedBy(init, id)
    ensures ClosureRecorded(next, init + [p], id)
  {
    LastClosedOn(init, p, id);
    if ClosedBy(init + [p], id) {
      ClosureStays(init, p, id);
    }
  }

  lemma TrailingOn(init: seq<Poll>, p: Poll, id: OppId)
    ensures Trailing(init + [p], id) == if id in p.present then 0 else 1 + Trailing(init, id)
  {
    assert (init + [p])[..|init|] == init;
  }

  /** More polls leave alone what a closure records of earlier ones. */
  lemma ConfirmingStays(init: seq<Poll>, p: Poll, first: nat, suspicious: bool)
    requires first < |init| && (init[first].authoritative || first + 1 < |init|)
    ensures Confirming(init + [p], first, suspicious) == Confirming(init, first, suspicious)
    ensures ClosedAt(init + [p], first) == ClosedAt(init, first)
  {
  }

  lemma ClosureStays(init: seq<Poll>, p: Poll, id: OppId)
    requires ClosedBy(init, id) && ClosedBy(init + [p], id)
    ensures ConfirmingOf(init + [p], id) == ConfirmingOf(init, id)
    ensures ClosingTime(init + [p], id) == ClosingTime(init, id)
  {
    var first := |init| - Trailing(init, id);
    TrailingOn(init, p, id);
    SuspiciousBefore(init, p, first);
    ConfirmingStays(init, p, first, SuspiciousAt(init, first));
  }

  lemma ClosedByOn(init: seq<Poll>, p: Poll, id: OppId)
    ensures ClosedBy(init + [p], id) <==>
      id !in p.present && Trailing(init, id) < |init| && (p.authoritative || Trailing(init, id) >= 1)
  {
    TrailingOn(init, p, id);
  }

  /** A closure falls on the first absence or on the second. */
  lemma ClosesBy(init: seq<Poll>, p: Poll, id: OppId)
    requires ClosedBy(init + [p], id) && !ClosedBy(init, id)
    ensures Trailing(init + [p], id) == Trailing(init, id) + 1 && Trailing(init, id) < |init|
    ensures if Trailing(init, id) == 0 then p.authoritative
            else Trailing(init, id) == 1 && !init[|init| - 1].authoritative
  {
    ClosedByOn(init, p, id);
    TrailingOn(init, p, id);
  }

  lemma ConfirmingNew(init: seq<Poll>, p: Poll, first: nat, pending: bool)
    requires if first == |init| then p.authoritative else first + 1 == |init| && !init[first].authoritative
    requires pending <==> first < |init| && SuspiciousAt(init, first)
    ensures Confirming(init + [p], first, SuspiciousAt(init + [p], first)) ==
      if p.authoritative && !pending then [|init| + 1] else [|init|, |init| + 1]
    ensures ClosedAt(init + [p], first) == p.at
  {
    if first < |init| {
      SuspiciousBefore(init, p, first);
    }
  }

  lemma PendingBefore(init: seq<Poll>, id: OppId)
    requires Trailing(init, id) < |init|
    ensures id in Members(PendingOf(Run(init).cohorts)) <==> Trailing(init, id) == 1 && SuspiciousAt(init, |init| - 1)
  {
    var before, q := init[..|init| - 1], init[|init| - 1];
    assert init == before + [q];
    PendingIs(before, q, id);
  }

  lemma NewClosure(next: Row, init: seq<Poll>, p: Poll, id: OppId, pending: bool)
    requires ClosedBy(init + [p], id) && !ClosedBy(init, id)
    requires pending <==> Trailing(init, id) == 1 && SuspiciousAt(init, |init| - 1)
    requires next.closedAt == Some(p.at)
    requires next.closing == if p.authoritative && !pending then [|init| + 1] else [|init|, |init| + 1]
    ensures ClosureRecorded(next, init + [p], id)
  {
    ClosesBy(init, p, id);
    ConfirmingNew(init, p, |init| - Trailing(init, id), pending);
    RecordedNow(next, init + [p], id, |init| - Trailing(init, id));
  }

  lemma RecordedNow(r: Row, polls: seq<Poll>, id: OppId, first: nat)
    requires ClosedBy(polls, id) && first == |polls| - Trailing(polls, id)
    requires r.closing == Confirming(polls, first, SuspiciousAt(polls, first))
    requires r.closedAt == Some(ClosedAt(polls, first))
    ensures ClosureRecorded(r, polls, id)
  {
    assert polls[..|polls|] == polls;
    assert LastClosed(polls, id) == |polls|;
  }

  /** Every field of every row follows from the polls: no cohort or earlier row matters, and of the guard
      settings only those of the first absence of a closure, for its confirming snapshots. */
  lemma HistoryDecides(polls: seq<Poll>, id: OppId)
    ensures id in Run(polls).rows <==> Seen(polls, id)
    ensures Seen(polls, id) ==>
      StateRecorded(Run(polls).rows[id], polls, id) && ClosureRecorded(Run(polls).rows[id], polls, id)
  {
    StateDecided(polls, id);
    if Seen(polls, id) {
      ClosureDecided(polls, id);
    }
  }

  /** Lost in an ordinary poll, then in an authoritative one, and only one of the two settings in force at the
      first made it suspicious. */
  predicate DisputedClosure(ps: seq<Poll>, qs: seq<Poll>, id: OppId)
    requires |ps| == |qs| && ClosedBy(ps, id)
  {
    var first := |ps| - Trailing(ps, id);
    && !ps[first].authoritative && ps[first + 1].authoritative
    && SuspiciousAt(ps, first) != SuspiciousAt(qs, first)
  }

  /** The same of the last closure of a posting. */
  predicate Disputed(ps: seq<Poll>, qs: seq<Poll>, id: OppId)
    requires |ps| == |qs|
  {
    var n := LastClosed(ps, id);
    n > 0 && DisputedClosure(ps[..n], qs[..n], id)
  }

  /** Two histories of guard settings over the same observations record different confirming snapshots
      exactly for the postings in dispute, and everything else alike. */
  lemma GuardHistoriesRecord(ps: seq<Poll>, qs: seq<Poll>, id: OppId)
    requires SameObservations(ps, qs) && Seen(ps, id)
    ensures id in Run(ps).rows && id in Run(qs).rows && SameButClosing(Run(ps).rows[id], Run(qs).rows[id])
    ensures Run(ps).rows[id] != Run(qs).rows[id] <==> Disputed(ps, qs, id)
  {
    GuardSettingsImmaterial(ps, qs);
    HistoryDecides(ps, id);
    HistoryDecides(qs, id);
    LastConfirmedAlike(ps, qs, id);
    if Run(ps).rows[id].closing == Run(qs).rows[id].closing {
      SameThroughout(Run(ps).rows[id], Run(qs).rows[id]);
    }
  }

  lemma LastConfirmedAlike(ps: seq<Poll>, qs: seq<Poll>, id: OppId)
    requires SameObservations(ps, qs)
    ensures LastConfirming(ps, id) != LastConfirming(qs, id) <==> Disputed(ps, qs, id)
  {
    SameHistory(ps, qs, id);
    var n := LastClosed(ps, id);
    if n > 0 {
      ConfirmedAlike(ps[..n], qs[..n], id);
    }
  }

  lemma ConfirmedAlike(ps: seq<Poll>, qs: seq<Poll>, id: OppId)
    requires SameObservations(ps, qs) && ClosedBy(ps, id)
    ensures ClosedBy(qs, id)
    ensures ConfirmingOf(ps, id) != ConfirmingOf(qs, id) <==> DisputedClosure(ps, qs, id)
  {
    SameHistory(ps, qs, id);
    var first := |ps| - Trailing(ps, id);
    assert ConfirmingOf(ps, id) == Confirming(ps, first, SuspiciousAt(ps, first));
    assert ConfirmingOf(qs, id) == Confirming(qs, first, SuspiciousAt(qs, first));
    ConfirmingAlike(ps, qs, first, SuspiciousAt(ps, first), SuspiciousAt(qs, first));
  }

  lemma ConfirmingAlike(ps: seq<Poll>, qs: seq<Poll>, first: nat, a: bool, b: bool)
    requires SameObservations(ps, qs) && first < |ps| && (ps[first].authoritative || first + 1 < |ps|)
    ensures Confirming(ps, first, a) != Confirming(qs, first, b) <==>
      !ps[first].authoritative && ps[first + 1].authoritative && a != b
  {
  }

  lemma {:induction false} SameHistory(ps: seq<Poll>, qs: seq<Poll>, id: OppId)
    requires SameObservations(ps, qs)
    ensures Trailing(ps, id) == Trailing(qs, id) && ClosedBy(ps, id) == ClosedBy(qs, id)
    ensures LastClosed(ps, id) == LastClosed(qs, id)
  {
    if ps != [] {
      SameHistory(ps[..|ps| - 1], qs[..|qs| - 1], id);
    }
  }

  /** Over runs of ordinary snapshots a closed posting records two consecutive committed snapshots that
      both lack it, the posting having been present in the one just before. */
  lemma ConfirmingPair(polls: seq<Poll>, id: OppId)
    requires forall i :: 0 <= i < |polls| ==> !polls[i].authoritative
    ensures id in Run(polls).rows && Run(polls).rows[id].availability == Closed ==>
      Confirms(Run(polls).rows[id].closing, polls, id)
  {
    HistoryDecides(polls, id);
    if id in Run(polls).rows && Run(polls).rows[id].availability == Closed {
      PairRecorded(Run(polls).rows[id], polls, id);
    }
  }

  /** Two consecutive snapshots that lack the posting, right after one that had it. */
  predicate Confirms(closing: seq<SnapId>, polls: seq<Poll>, id: OppId) {
    && |closing| == 2 && 1 < closing[0] < |polls| && closing[1] == closing[0] + 1
    && id in polls[closing[0] - 2].present
    && id !in polls[closing[0] - 1].present && id !in polls[closing[1] - 1].present
  }

  lemma PairRecorded(r: Row, polls: seq<Poll>, id: OppId)
    requires forall i :: 0 <= i < |polls| ==> !polls[i].authoritative
    requires StateRecorded(r, polls, id) && ClosureRecorded(r, polls, id) && r.availability == Closed
    ensures Confirms(r.closing, polls, id)
  {
    TrailingIsAbsence(polls, id);
    assert polls[..|polls|] == polls;
  }
}
