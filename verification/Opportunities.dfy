/** The opportunities of one source and how a committed poll changes them
    (adapters/storage/sqlite_opportunities.py, apply_closure_plan; workers/discovery/run.py, _apply_poll). */
module Opportunities {
  import opened Basics
  import opened Closure

  datatype Row = Row(
    availability: Availability, streak: nat, lastAbsence: Option<SnapId>, reopens: nat,
    closing: seq<SnapId>, closedAt: Option<nat>, lastSeen: nat)
  {
    predicate Live() { availability != Closed }
  }

  datatype Outcome = Pending | ConfirmedClosed | Reappeared

  datatype Cohort = Cohort(trigger: SnapId, outcomes: map<OppId, Outcome>, resolved: bool)

  datatype Source = Source(rows: map<OppId, Row>, cohorts: seq<Cohort>, committed: nat)

  /** One committed poll: the postings present, whether the vendor vouches for it with a version
      token, the guard configuration in force, and the database time. */
  datatype Poll = Poll(present: set<OppId>, authoritative: bool, guardPercent: int, guardMin: int, at: nat)

  const EMPTY := Source(map[], [], 0)

  function Minted(at: nat): Row { Row(Open, 0, None, 0, [], None, at) }

  function Touched(r: Row, at: nat): Row { r.(streak := 0, lastAbsence := None, lastSeen := at) }

  function ReopenedRow(r: Row, times: nat, at: nat): Row {
    r.(availability := Reopened, streak := 0, lastAbsence := None, reopens := r.reopens + times, lastSeen := at)
  }

  function Missed(r: Row, streak: nat, snapshot: SnapId): Row {
    r.(streak := streak, lastAbsence := if r.lastAbsence.Some? then r.lastAbsence else Some(snapshot))
  }

  function ClosedRow(r: Row, confirming: seq<SnapId>, at: nat): Row {
    r.(availability := Closed, streak := 0, lastAbsence := None, closing := confirming, closedAt := Some(at))
  }

  function StateOf(id: OppId, r: Row): OpportunityState {
    OpportunityState(id, r.availability, r.streak, r.lastAbsence)
  }

  function States(rows: map<OppId, Row>): Rows {
    map id | id in rows :: StateOf(id, rows[id])
  }

  function TouchIn(ids: seq<OppId>, id: OppId, r: Row, at: nat): Row {
    if id in ids then Touched(r, at) else r
  }

  function ReopenIn(ids: seq<OppId>, id: OppId, r: Row, at: nat): Row {
    if Times(ids, id) > 0 then ReopenedRow(r, Times(ids, id), at) else r
  }

  /** How often an id is listed. */
  function Times(ids: seq<OppId>, id: OppId): nat {
    if ids == [] then 0 else Times(ids[..|ids| - 1], id) + if ids[|ids| - 1] == id then 1 else 0
  }

  lemma ReopenMore(ids: seq<OppId>, i: nat, id: OppId, r: Row, at: nat)
    requires i < |ids|
    ensures ReopenIn(ids[..i + 1], id, r, at)
         == if id == ids[i] then ReopenedRow(ReopenIn(ids[..i], id, r, at), 1, at) else ReopenIn(ids[..i], id, r, at)
  {
    assert ids[..i + 1][..i] == ids[..i];
  }

  function MissIn(absences: seq<(OppId, nat)>, id: OppId, r: Row, snapshot: SnapId): Row {
    if Find(absences, id).Some? then Missed(r, Find(absences, id).value, snapshot) else r
  }

  function CloseIn(closures: seq<(OppId, seq<SnapId>)>, id: OppId, r: Row, at: nat): Row {
    if Find(closures, id).Some? then ClosedRow(r, Find(closures, id).value, at) else r
  }

  function ConfirmIn(ids: seq<OppId>, id: OppId, r: Row, confirming: seq<SnapId>, at: nat): Row {
    if id in ids then ClosedRow(r, confirming, at) else r
  }

  /** The row an arbitrary plan leaves behind, its updates taken in the order they are issued. */
  function RowAfter(id: OppId, r: Row, plan: ClosurePlan, trigger: SnapId, at: nat): Row {
    var streaked := StreakedRow(id, r, plan, at);
    if plan.resolved.None? then streaked
    else TouchIn(plan.cohortReappeared, id,
                 ConfirmIn(plan.cohortClosed, id, streaked, [trigger, plan.snapshot], at), at)
  }

  function StreakedRow(id: OppId, r: Row, plan: ClosurePlan, at: nat): Row {
    var r1 := TouchIn(plan.present, id, r, at);
    var r2 := ReopenIn(plan.reopened, id, r1, at);
    var r3 := MissIn(plan.absences, id, r2, plan.snapshot);
    CloseIn(plan.closures, id, r3, at)
  }

  function ResolvedCohort(c: Cohort, plan: ClosurePlan): Cohort {
    Cohort(c.trigger,
      map id | id in c.outcomes ::
        if id in plan.cohortReappeared then Reappeared
        else if id in plan.cohortClosed then ConfirmedClosed
        else c.outcomes[id],
      true)
  }

  function CohortsAfter(cohorts: seq<Cohort>, plan: ClosurePlan): seq<Cohort>
    requires plan.resolved.Some? ==> plan.resolved.value < |cohorts|
  {
    var settled :=
      if plan.resolved.None? then cohorts
      else cohorts[plan.resolved.value := ResolvedCohort(cohorts[plan.resolved.value], plan)];
    if plan.newCohort == [] then settled
    else settled + [Cohort(plan.snapshot, map id | id in plan.newCohort :: Pending, false)]
  }

  function FirstUnresolved(cohorts: seq<Cohort>): (r: Option<nat>)
    ensures r.Some? ==> r.value < |cohorts| && !cohorts[r.value].resolved
    ensures r.Some? ==> forall k :: 0 <= k < r.value ==> cohorts[k].resolved
    ensures r.None? ==> forall k :: 0 <= k < |cohorts| ==> cohorts[k].resolved
  {
    if cohorts == [] then None
    else if FirstUnresolved(cohorts[..|cohorts| - 1]).Some? then FirstUnresolved(cohorts[..|cohorts| - 1])
    else if !cohorts[|cohorts| - 1].resolved then Some(|cohorts| - 1)
    else None
  }

  function PendingOf(cohorts: seq<Cohort>): Option<PendingCohort> {
    var k := FirstUnresolved(cohorts);
    if k.None? then None
    else
      var c := cohorts[k.value];
      Some(PendingCohort(k.value, c.trigger, set id | id in c.outcomes && c.outcomes[id] == Pending))
  }

  /** The rows after the postings never seen before have been added. */
  function WithMinted(rows: map<OppId, Row>, p: Poll): map<OppId, Row> {
    rows + map id | id in p.present - rows.Keys :: Minted(p.at)
  }

  function OutlookOf(s: Source, p: Poll): Outlook {
    Outlook(s.committed + 1, p.present, Members(PendingOf(s.cohorts)), p.authoritative, p.guardPercent, p.guardMin)
  }

  /** What a committed poll does to one row. */
  function NextRow(id: OppId, r: Row, o: Outlook, trigger: SnapId, at: nat): Row {
    var s := StateOf(id, r);
    if id in o.members then
      if id in o.present then Touched(r, at)
      else if r.Live() then ClosedRow(r, [trigger, o.snapshot], at)
      else r
    else if id in o.present then
      if r.Live() then Touched(r, at) else ReopenedRow(r, 1, at)
    else if MissOf(s, o).Some? then Missed(r, MissOf(s, o).value, o.snapshot)
    else if CloseOf(s, o).Some? then ClosedRow(r, CloseOf(s, o).value, at)
    else r
  }

  function TriggerIn(cohorts: seq<Cohort>, cohort: Option<nat>): SnapId
    requires cohort.Some? ==> cohort.value < |cohorts|
  {
    if cohort.Some? then cohorts[cohort.value].trigger else 0
  }

  function TriggerOf(pending: Option<PendingCohort>): SnapId {
    if pending.Some? then pending.value.trigger else 0
  }

  /** The cohorts a committed poll leaves: the pending one settled, and the disappearance set of
      this poll suspected when the guard triggers. */
  ghost function NextCohorts(s: Source, p: Poll): seq<Cohort> {
    var o := OutlookOf(s, p);
    var states := States(WithMinted(s.rows, p));
    var k := FirstUnresolved(s.cohorts);
    var settled := if k.None? then s.cohorts else s.cohorts[k.value := Settled(s.cohorts[k.value], states, o)];
    var suspects := FreshIds(states, o);
    if Guarded(states, o) && suspects != {}
    then settled + [Cohort(o.snapshot, map id | id in suspects :: Pending, false)]
    else settled
  }

  function Settled(c: Cohort, states: Rows, o: Outlook): Cohort {
    Cohort(c.trigger,
      map id | id in c.outcomes ::
        if id in o.members && id in o.present then Reappeared
        else if id in o.members && id in states && states[id].Live() then ConfirmedClosed
        else c.outcomes[id],
      true)
  }

  ghost function Advance(s: Source, p: Poll): Source {
    var minted := WithMinted(s.rows, p);
    var o := OutlookOf(s, p);
    var trigger := TriggerOf(PendingOf(s.cohorts));
    Source(NextRows(minted, o, trigger, p.at), NextCohorts(s, p), s.committed + 1)
  }

  /** Per posting, a fitting plan has the effect of NextRow. */
  lemma PlanRow(id: OppId, s: Source, p: Poll, plan: ClosurePlan)
    requires id in WithMinted(s.rows, p)
    requires PlanFits(plan, States(WithMinted(s.rows, p)), CohortId(PendingOf(s.cohorts)), OutlookOf(s, p))
    ensures RowAfter(id, WithMinted(s.rows, p)[id], plan, TriggerOf(PendingOf(s.cohorts)), p.at)
         == NextRow(id, WithMinted(s.rows, p)[id], OutlookOf(s, p), TriggerOf(PendingOf(s.cohorts)), p.at)
  {
    DistinctCount(plan.reopened, id);
    var states := States(WithMinted(s.rows, p));
    var o := OutlookOf(s, p);
    assert states[id] == StateOf(id, WithMinted(s.rows, p)[id]);
    assert Find(plan.absences, id) == MissAt(states, id, o);
    assert Find(plan.closures, id) == CloseAt(states, id, o);
  }

  lemma {:induction false} DistinctCount(ids: seq<OppId>, id: OppId)
    requires Distinct(ids)
    ensures Times(ids, id) == if id in ids then 1 else 0
  {
    if ids != [] {
      var init, last := ids[..|ids| - 1], ids[|ids| - 1];
      DistinctCount(init, id);
      assert ids == init + [last];
    }
  }

  lemma PlanCohorts(s: Source, p: Poll, plan: ClosurePlan)
    requires PlanFits(plan, States(WithMinted(s.rows, p)), CohortId(PendingOf(s.cohorts)), OutlookOf(s, p))
    ensures CohortsAfter(s.cohorts, plan) == NextCohorts(s, p)
  {
    var o := OutlookOf(s, p);
    var states := States(WithMinted(s.rows, p));
    SuspectsListed(plan.newCohort, FreshIds(states, o), Guarded(states, o));
    var k := FirstUnresolved(s.cohorts);
    if k.Some? {
      SettledByPlan(s.cohorts[k.value], plan, states, CohortId(PendingOf(s.cohorts)), o);
    }
  }

  lemma SettledByPlan(c: Cohort, plan: ClosurePlan, states: Rows, cohort: Option<nat>, o: Outlook)
    requires PlanFits(plan, states, cohort, o)
    ensures ResolvedCohort(c, plan) == Settled(c, states, o)
  {
    assert ResolvedCohort(c, plan).outcomes == Settled(c, states, o).outcomes;
  }

  lemma SuspectsListed(ids: seq<OppId>, suspects: set<OppId>, guard: bool)
    requires forall id :: id in ids <==> id in suspects && guard
    ensures ids != [] <==> guard && suspects != {}
    ensures guard ==> (map id | id in ids :: Pending) == (map id | id in suspects :: Pending)
  {
    EmptyOrInhabited(ids);
    if guard && suspects != {} {
      var x :| x in suspects;
      assert x in ids;
    }
  }

  lemma EmptyOrInhabited<T>(xs: seq<T>)
    ensures xs == [] || exists x :: x in xs
  {
    if |xs| > 0 { assert xs[0] in xs; }
  }

  lemma TriggersAgree(s: Source, p: Poll, plan: ClosurePlan)
    requires PlanFits(plan, States(WithMinted(s.rows, p)), CohortId(PendingOf(s.cohorts)), OutlookOf(s, p))
    ensures plan.resolved.Some? ==> plan.resolved.value < |s.cohorts|
    ensures TriggerIn(s.cohorts, plan.resolved) == TriggerOf(PendingOf(s.cohorts))
  {
  }

  /** The rows an arbitrary plan leaves behind. */
  function RowsAfter(rows: map<OppId, Row>, plan: ClosurePlan, trigger: SnapId, at: nat): map<OppId, Row> {
    map id | id in rows :: RowAfter(id, rows[id], plan, trigger, at)
  }

  function NextRows(rows: map<OppId, Row>, o: Outlook, trigger: SnapId, at: nat): map<OppId, Row> {
    map id | id in rows :: NextRow(id, rows[id], o, trigger, at)
  }

  lemma PlanRows(s: Source, p: Poll, plan: ClosurePlan)
    requires PlanFits(plan, States(WithMinted(s.rows, p)), CohortId(PendingOf(s.cohorts)), OutlookOf(s, p))
    ensures var trigger := TriggerOf(PendingOf(s.cohorts));
      RowsAfter(WithMinted(s.rows, p), plan, trigger, p.at)
        == NextRows(WithMinted(s.rows, p), OutlookOf(s, p), trigger, p.at)
  {
    var minted, trigger := WithMinted(s.rows, p), TriggerOf(PendingOf(s.cohorts));
    forall id | id in minted
      ensures RowAfter(id, minted[id], plan, trigger, p.at) == NextRow(id, minted[id], OutlookOf(s, p), trigger, p.at)
    {
      PlanRow(id, s, p, plan);
    }
  }

  /** Applying a fitting plan advances the source. */
  lemma AdvanceByPlan(s: Source, p: Poll, plan: ClosurePlan)
    requires PlanFits(plan, States(WithMinted(s.rows, p)), CohortId(PendingOf(s.cohorts)), OutlookOf(s, p))
    ensures plan.resolved.Some? ==> plan.resolved.value < |s.cohorts|
    ensures Advance(s, p) == Source(
      RowsAfter(WithMinted(s.rows, p), plan, TriggerIn(s.cohorts, plan.resolved), p.at),
      CohortsAfter(s.cohorts, plan), s.committed + 1)
  {
    TriggersAgree(s, p, plan);
    PlanRows(s, p, plan);
    PlanCohorts(s, p, plan);
  }

  /** The rows and cohorts of one source. */
  class OpportunityRepository {
    var rows: map<OppId, Row>
    var cohorts: seq<Cohort>
    var committed: nat

    constructor ()
      ensures State() == EMPTY
    {
      rows, cohorts, committed := map[], [], 0;
    }

    ghost function State(): Source
      reads this
    {
      Source(rows, cohorts, committed)
    }

    /** The rows of the source, in some order. */
    method ListForSource() returns (known: seq<OpportunityState>)
      ensures Lists(known, States(rows))
    {
      known := [];
      var todo := rows.Keys;
      while todo != {}
        invariant todo <= rows.Keys
        invariant DistinctIds(known)
        invariant forall s :: s in known <==> s.id in rows.Keys - todo && s == StateOf(s.id, rows[s.id])
      {
        var id :| id in todo;
        known := known + [StateOf(id, rows[id])];
        todo := todo - {id};
      }
    }

    method Touch(ids: seq<OppId>, at: nat)
      modifies this`rows
      ensures rows == map id | id in old(rows) :: TouchIn(ids, id, old(rows)[id], at)
    {
      for i := 0 to |ids|
        invariant rows == map id | id in old(rows) :: TouchIn(ids[..i], id, old(rows)[id], at)
      {
        if ids[i] in rows {
          rows := rows[ids[i] := Touched(rows[ids[i]], at)];
        }
        assert ids[..i + 1] == ids[..i] + [ids[i]];
      }
      assert ids[..|ids|] == ids;
    }

    method Reopen(ids: seq<OppId>, at: nat)
      modifies this`rows
      ensures rows == map id | id in old(rows) :: ReopenIn(ids, id, old(rows)[id], at)
    {
      for i := 0 to |ids|
        invariant rows == map id | id in old(rows) :: ReopenIn(ids[..i], id, old(rows)[id], at)
      {
        if ids[i] in rows {
          rows := rows[ids[i] := ReopenedRow(rows[ids[i]], 1, at)];
        }
        forall id | id in old(rows) {
          ReopenMore(ids, i, id, old(rows)[id], at);
        }
      }
      assert ids[..|ids|] == ids;
    }

    method Miss(absences: seq<(OppId, nat)>, snapshot: SnapId)
      modifies this`rows
      ensures rows == map id | id in old(rows) :: MissIn(absences, id, old(rows)[id], snapshot)
    {
      for i := 0 to |absences|
        invariant rows == map id | id in old(rows) :: MissIn(absences[..i], id, old(rows)[id], snapshot)
      {
        var (id, streak) := absences[i];
        if id in rows {
          rows := rows[id := Missed(rows[id], streak, snapshot)];
        }
        assert absences[..i + 1][..i] == absences[..i];
      }
      assert absences[..|absences|] == absences;
    }

    method Close(closures: seq<(OppId, seq<SnapId>)>, at: nat)
      modifies this`rows
      ensures rows == map id | id in old(rows) :: CloseIn(closures, id, old(rows)[id], at)
    {
      for i := 0 to |closures|
        invariant rows == map id | id in old(rows) :: CloseIn(closures[..i], id, old(rows)[id], at)
      {
        var (id, confirming) := closures[i];
        if id in rows {
          rows := rows[id := ClosedRow(rows[id], confirming, at)];
        }
        assert closures[..i + 1][..i] == closures[..i];
      }
      assert closures[..|closures|] == closures;
    }

    method ConfirmCohort(ids: seq<OppId>, confirming: seq<SnapId>, at: nat)
      modifies this`rows
      ensures rows == map id | id in old(rows) :: ConfirmIn(ids, id, old(rows)[id], confirming, at)
    {
      for i := 0 to |ids|
        invariant rows == map id | id in old(rows) :: ConfirmIn(ids[..i], id, old(rows)[id], confirming, at)
      {
        if ids[i] in rows {
          rows := rows[ids[i] := ClosedRow(rows[ids[i]], confirming, at)];
        }
        assert ids[..i + 1] == ids[..i] + [ids[i]];
      }
      assert ids[..|ids|] == ids;
    }

    method ApplyStreaks(plan: ClosurePlan, at: nat)
      modifies this`rows
      ensures rows == map id | id in old(rows) :: StreakedRow(id, old(rows)[id], plan, at)
    {
      Touch(plan.present, at);
      Reopen(plan.reopened, at);
      Miss(plan.absences, plan.snapshot);
      Close(plan.closures, at);
    }

    /** Everything the plan says, in the order of the statements. */
    method ApplyClosurePlan(plan: ClosurePlan, observedAt: nat)
      requires plan.resolved.Some? ==> plan.resolved.value < |cohorts|
      modifies this`rows, this`cohorts
      ensures cohorts == CohortsAfter(old(cohorts), plan)
      ensures rows == RowsAfter(old(rows), plan, TriggerIn(old(cohorts), plan.resolved), observedAt)
    {
      ApplyStreaks(plan, observedAt);
      if plan.resolved.Some? {
        var cohort := cohorts[plan.resolved.value];
        ConfirmCohort(plan.cohortClosed, [cohort.trigger, plan.snapshot], observedAt);
        Touch(plan.cohortReappeared, observedAt);
        cohorts := cohorts[plan.resolved.value := ResolvedCohort(cohort, plan)];
      }
      if plan.newCohort != [] {
        cohorts := cohorts + [Cohort(plan.snapshot, map id | id in plan.newCohort :: Pending, false)];
      }
    }

    /** Commit the snapshot and add the postings never seen before. */
    method CommitPoll(p: Poll)
      modifies this`rows, this`committed
      ensures rows == WithMinted(old(rows), p) && committed == old(committed) + 1
    {
      committed := committed + 1;
      rows := rows + map id | id in p.present - rows.Keys :: Minted(p.at);
    }

    /** All closure effects of one validated poll: commit the snapshot, add the new postings, plan, apply. */
    method ApplyPoll(p: Poll)
      modifies this
      ensures State() == Advance(old(State()), p)
    {
      ghost var s := State();
      CommitPoll(p);
      var known := ListForSource();
      var pending := PendingOf(cohorts);
      var plan := PlanSnapshot(committed, p.present, known, pending, p.authoritative, p.guardPercent, p.guardMin);
      SameListing(ById(known), States(rows), known);
      AdvanceByPlan(s, p, plan);
      ApplyClosurePlan(plan, p.at);
    }
  }

  lemma SameListing(a: Rows, b: Rows, known: seq<OpportunityState>)
    requires Lists(known, a) && Lists(known, b)
    ensures a == b
  {
  }
}
