/** The closure planner (packages/domain/closure.py): from one committed snapshot and the
    source's rows to the list of effects the repository applies. */
module Closure {
  import opened Basics

  type OppId = string
  /** Snapshots of a source are numbered 1, 2, 3, ... in committed order. */
  type SnapId = nat

  const CLOSURE_STREAK: nat := 2

  datatype Availability = Open | Closed | Reopened

  datatype OpportunityState = OpportunityState(
    id: OppId, availability: Availability, streak: nat, lastAbsence: Option<SnapId>)
  {
    predicate Live() { availability != Closed }
  }

  datatype PendingCohort = PendingCohort(cohort: nat, trigger: SnapId, members: set<OppId>)

  datatype ClosurePlan = ClosurePlan(
    snapshot: SnapId,
    present: seq<OppId>,
    reopened: seq<OppId>,
    absences: seq<(OppId, nat)>,
    closures: seq<(OppId, seq<SnapId>)>,
    resolved: Option<nat>,
    cohortClosed: seq<OppId>,
    cohortReappeared: seq<OppId>,
    newCohort: seq<OppId>)

  /** What one committed snapshot says, with the members awaiting confirmation and the knobs of the guard. */
  datatype Outlook = Outlook(
    snapshot: SnapId, present: set<OppId>, members: set<OppId>, authoritative: bool, guardPercent: int, guardMin: int)

  /** The rows of a source, each under its own id. */
  type Rows = map<OppId, OpportunityState>

  /** The list holds every row of the map once: what a query over the source returns. */
  ghost predicate Lists(known: seq<OpportunityState>, rows: Rows) {
    && DistinctIds(known)
    && (forall s :: s in known ==> s.id in rows && rows[s.id] == s)
    && (forall id :: id in rows ==> rows[id].id == id && rows[id] in known)
  }

  ghost predicate DistinctIds(states: seq<OpportunityState>) {
    forall i, j :: 0 <= i < j < |states| ==> states[i].id != states[j].id
  }

  /** A live row outside the pending cohort that the snapshot lacks. */
  predicate Absent(s: OpportunityState, o: Outlook) {
    s.id !in o.members && s.id !in o.present && s.Live()
  }

  ghost function LiveIds(rows: Rows): set<OppId> {
    set id | id in rows && rows[id].Live()
  }

  /** The disappearance set: absences that start with this snapshot. */
  ghost function FreshIds(rows: Rows, o: Outlook): set<OppId> {
    set id | id in rows && Absent(rows[id], o) && rows[id].streak == 0
  }

  predicate GuardTriggers(startingCount: nat, liveCount: nat, o: Outlook) {
    && !o.authoritative && liveCount > 0
    && startingCount >= o.guardMin && startingCount * 100 > liveCount * o.guardPercent
  }

  ghost predicate Guarded(rows: Rows, o: Outlook) {
    GuardTriggers(|FreshIds(rows, o)|, |LiveIds(rows)|, o)
  }

  /** The streak an absent row is left with, unless it closes. */
  function MissOf(s: OpportunityState, o: Outlook): Option<nat> {
    if Absent(s, o) && !o.authoritative && s.streak + 1 < CLOSURE_STREAK then Some(s.streak + 1) else None
  }

  /** The confirming snapshots of a row that closes outside any cohort. */
  function CloseOf(s: OpportunityState, o: Outlook): Option<seq<SnapId>> {
    if !Absent(s, o) then None
    else if o.authoritative then Some([o.snapshot])
    else if s.streak + 1 < CLOSURE_STREAK then None
    else if s.lastAbsence.Some? then Some([s.lastAbsence.value, o.snapshot])
    else Some([o.snapshot])
  }

  function MissAt(rows: Rows, id: OppId, o: Outlook): Option<nat> {
    if id in rows then MissOf(rows[id], o) else None
  }

  function CloseAt(rows: Rows, id: OppId, o: Outlook): Option<seq<SnapId>> {
    if id in rows then CloseOf(rows[id], o) else None
  }

  /** What the plan says about every single posting. Except for the membership of a new cohort,
      nothing in it depends on whether the guard triggered. */
  ghost predicate PlanFits(plan: ClosurePlan, rows: Rows, cohort: Option<nat>, o: Outlook) {
    && plan.snapshot == o.snapshot
    && plan.resolved == cohort
    && (forall id :: id in plan.present <==> id in rows && id !in o.members && id in o.present && rows[id].Live())
    && (forall id :: id in plan.reopened <==> id in rows && id !in o.members && id in o.present && !rows[id].Live())
    && Distinct(plan.reopened)
    && (forall id :: Find(plan.absences, id) == MissAt(rows, id, o))
    && (forall id :: Find(plan.closures, id) == CloseAt(rows, id, o))
    && (forall id :: id in plan.cohortClosed <==> id in o.members && id !in o.present && id in rows && rows[id].Live())
    && (forall id :: id in plan.cohortReappeared <==> id in o.members && id in o.present)
    && (forall id :: id in plan.newCohort <==> id in FreshIds(rows, o) && Guarded(rows, o))
  }

  /** Row-level resolution of the prior cohort. Members are visited in an arbitrary order, which
      only orders the two lists. */
  method ResolveMembers(o: Outlook, byId: Rows) returns (closed: seq<OppId>, reappeared: seq<OppId>)
    ensures forall id :: id in closed <==> id in o.members && id !in o.present && id in byId && byId[id].Live()
    ensures forall id :: id in reappeared <==> id in o.members && id in o.present
  {
    closed, reappeared := [], [];
    var todo := o.members;
    while todo != {}
      invariant todo <= o.members
      invariant forall id :: id in closed <==>
        id in o.members - todo && id !in o.present && id in byId && byId[id].Live()
      invariant forall id :: id in reappeared <==> id in o.members - todo && id in o.present
    {
      var member :| member in todo;
      if member in o.present {
        reappeared := reappeared + [member];
      } else if member in byId && byId[member].Live() {
        closed := closed + [member];
      }
      todo := todo - {member};
    }
  }

  /** Presence handling for every row outside the cohort. */
  method SortByPresence(known: seq<OpportunityState>, ghost rows: Rows, o: Outlook)
    returns (present: seq<OppId>, reopened: seq<OppId>, liveAbsent: seq<OpportunityState>)
    requires Lists(known, rows)
    ensures forall id :: id in present <==> id in rows && id !in o.members && id in o.present && rows[id].Live()
    ensures forall id :: id in reopened <==> id in rows && id !in o.members && id in o.present && !rows[id].Live()
    ensures Distinct(reopened) && DistinctIds(liveAbsent)
    ensures forall s :: s in liveAbsent <==> s in known && Absent(s, o)
  {
    present, reopened, liveAbsent := [], [], [];
    ghost var done: set<OppId> := {};
    for i := 0 to |known|
      invariant done <= rows.Keys
      invariant forall j :: 0 <= j < i ==> known[j].id in done
      invariant forall j :: i <= j < |known| ==> known[j].id !in done
      invariant forall id :: id in present <==> id in done && id !in o.members && id in o.present && rows[id].Live()
      invariant forall id :: id in reopened <==> id in done && id !in o.members && id in o.present && !rows[id].Live()
      invariant Distinct(reopened) && DistinctIds(liveAbsent)
      invariant forall s :: s in liveAbsent <==> s.id in done && rows[s.id] == s && Absent(s, o)
    {
      var state := known[i];
      assert state in known;
      if state.id in o.members {
      } else if state.id in o.present {
        if state.availability == Closed {
          reopened := reopened + [state.id];
        } else {
          present := present + [state.id];
        }
      } else if state.Live() {
        liveAbsent := liveAbsent + [state];
      }
      done := done + {state.id};
    }
    assert done == rows.Keys by {
      forall id | id in rows ensures id in done {
        var j :| 0 <= j < |known| && known[j] == rows[id];
      }
    }
  }

  /** fresh_absent: the absences that start with this snapshot. */
  function Fresh(states: seq<OpportunityState>): seq<OpportunityState> {
    if states == [] then []
    else
      var rest, last := Fresh(states[..|states| - 1]), states[|states| - 1];
      if last.streak == 0 then rest + [last] else rest
  }

  /** Absences already running before this snapshot. */
  function MidStreak(states: seq<OpportunityState>): seq<OpportunityState> {
    if states == [] then []
    else
      var rest, last := MidStreak(states[..|states| - 1]), states[|states| - 1];
      if last.streak > 0 then rest + [last] else rest
  }

  function LiveOnes(states: seq<OpportunityState>): seq<OpportunityState> {
    if states == [] then []
    else
      var rest, last := LiveOnes(states[..|states| - 1]), states[|states| - 1];
      if last.Live() then rest + [last] else rest
  }

  lemma Selections(states: seq<OpportunityState>)
    requires DistinctIds(states)
    ensures DistinctIds(Fresh(states)) && DistinctIds(MidStreak(states)) && DistinctIds(LiveOnes(states))
    ensures forall s :: s in Fresh(states) <==> s in states && s.streak == 0
    ensures forall s :: s in MidStreak(states) <==> s in states && s.streak > 0
    ensures forall s :: s in LiveOnes(states) <==> s in states && s.Live()
  {
    if states != [] {
      var init, last := states[..|states| - 1], states[|states| - 1];
      Selections(init);
      assert states == init + [last];
      assert forall s :: s in init ==> s.id != last.id;
      AppendDistinct(Fresh(init), last);
      AppendDistinct(MidStreak(init), last);
      AppendDistinct(LiveOnes(init), last);
    }
  }

  lemma AppendDistinct(states: seq<OpportunityState>, s: OpportunityState)
    requires DistinctIds(states) && forall t :: t in states ==> t.id != s.id
    ensures DistinctIds(states + [s])
  {
  }

  lemma CardinalityOf(states: seq<OpportunityState>, ids: set<OppId>)
    requires DistinctIds(states)
    requires forall s :: s in states ==> s.id in ids
    requires forall id :: id in ids ==> exists s :: s in states && s.id == id
    ensures |states| == |ids|
  {
    if states != [] {
      var init, last := states[..|states| - 1], states[|states| - 1];
      assert states == init + [last];
      forall id | id in ids - {last.id} ensures exists s :: s in init && s.id == id {
        var s :| s in states && s.id == id;
        assert s in init;
      }
      forall s | s in init ensures s.id in ids - {last.id} {
        assert s in states;
      }
      CardinalityOf(init, ids - {last.id});
    } else {
      assert ids == {};
    }
  }

  function Ids(states: seq<OpportunityState>): (ids: seq<OppId>)
    ensures forall id :: id in ids <==> exists s :: s in states && s.id == id
  {
    if states == [] then []
    else
      var init, last := states[..|states| - 1], states[|states| - 1];
      assert states == init + [last];
      Ids(init) + [last.id]
  }

  /** The first absence of every listed row. */
  function FirstMisses(states: seq<OpportunityState>): seq<(OppId, nat)> {
    if states == [] then []
    else
      var last := states[|states| - 1];
      Put(FirstMisses(states[..|states| - 1]), last.id, last.streak + 1)
  }

  lemma FirstMissesAt(states: seq<OpportunityState>, id: OppId)
    requires forall s :: s in states ==> s.streak == 0
    ensures Find(FirstMisses(states), id) == if id in Ids(states) then Some(1) else None
  {
    if states != [] {
      FirstMissesAt(states[..|states| - 1], id);
    }
  }

  /** Appending a pair to a list. */
  function Put<V>(pairs: seq<(OppId, V)>, id: OppId, v: V): (r: seq<(OppId, V)>)
    ensures forall k :: Find(r, k) == if k == id then Some(v) else Find(pairs, k)
  {
    assert (pairs + [(id, v)])[..|pairs|] == pairs;
    pairs + [(id, v)]
  }

  predicate Counted(absences: seq<(OppId, nat)>, closures: seq<(OppId, seq<SnapId>)>, already: seq<(OppId, nat)>,
                    s: OpportunityState, o: Outlook)
  {
    && Find(closures, s.id) == CloseOf(s, o)
    && Find(absences, s.id) == if MissOf(s, o).Some? then MissOf(s, o) else Find(already, s.id)
  }

  predicate Uncounted(absences: seq<(OppId, nat)>, closures: seq<(OppId, seq<SnapId>)>, already: seq<(OppId, nat)>,
                      id: OppId) {
    Find(closures, id) == None && Find(absences, id) == Find(already, id)
  }

  /** Ordinary streaks: every listed absent row either closes or is left with a longer streak. */
  method CountStreaks(ordinary: seq<OpportunityState>, already: seq<(OppId, nat)>, o: Outlook)
    returns (absences: seq<(OppId, nat)>, closures: seq<(OppId, seq<SnapId>)>)
    requires DistinctIds(ordinary)
    requires forall s :: s in ordinary ==> Absent(s, o)
    ensures forall s :: s in ordinary ==> Counted(absences, closures, already, s, o)
    ensures forall id :: id !in Ids(ordinary) ==> Uncounted(absences, closures, already, id)
  {
    absences, closures := already, [];
    for i := 0 to |ordinary|
      invariant forall j :: 0 <= j < i ==> Counted(absences, closures, already, ordinary[j], o)
      invariant forall j :: i <= j < |ordinary| ==> Uncounted(absences, closures, already, ordinary[j].id)
      invariant forall id :: id !in Ids(ordinary) ==> Uncounted(absences, closures, already, id)
    {
      assert ordinary[i] in ordinary;
      absences, closures := CountOne(absences, closures, ordinary[i], o);
    }
  }

  /** One ordinary absence: close, or lengthen the streak. */
  method CountOne(absences: seq<(OppId, nat)>, closures: seq<(OppId, seq<SnapId>)>, state: OpportunityState, o: Outlook)
    returns (misses: seq<(OppId, nat)>, closes: seq<(OppId, seq<SnapId>)>)
    requires Absent(state, o)
    requires Find(closures, state.id) == None
    ensures forall id :: id != state.id ==>
      Find(misses, id) == Find(absences, id) && Find(closes, id) == Find(closures, id)
    ensures Find(closes, state.id) == CloseOf(state, o)
    ensures Find(misses, state.id) == if MissOf(state, o).Some? then MissOf(state, o) else Find(absences, state.id)
  {
    misses, closes := absences, closures;
    var newStreak := state.streak + 1;
    if o.authoritative {
      closes := Put(closes, state.id, [o.snapshot]);
    } else if newStreak >= CLOSURE_STREAK {
      var confirming := if state.lastAbsence.Some? then [state.lastAbsence.value, o.snapshot] else [o.snapshot];
      closes := Put(closes, state.id, confirming);
    } else {
      misses := Put(misses, state.id, newStreak);
    }
  }

  /** by_id: the listed rows keyed by their id. */
  function ById(known: seq<OpportunityState>): (rows: Rows)
    requires DistinctIds(known)
    ensures Lists(known, rows)
  {
    assert forall s, t :: s in known && t in known && s.id == t.id ==> s == t;
    map s | s in known :: s.id := s
  }

  method PlanSnapshot(snapshot: SnapId, presentIds: set<OppId>, known: seq<OpportunityState>,
                      pending: Option<PendingCohort>, authoritative: bool, guardPercent: int, guardMin: int)
    returns (plan: ClosurePlan)
    requires DistinctIds(known)
    ensures PlanFits(plan, ById(known), CohortId(pending),
      Outlook(snapshot, presentIds, Members(pending), authoritative, guardPercent, guardMin))
  {
    var o := Outlook(snapshot, presentIds, Members(pending), authoritative, guardPercent, guardMin);
    var byId := ById(known);
    var cohortClosed, cohortReappeared := ResolveMembers(o, byId);
    var present, reopened, liveAbsent := SortByPresence(known, byId, o);

    var absences, closures, newCohort := GuardAndStreaks(known, byId, liveAbsent, o);
    plan := ClosurePlan(snapshot, present, reopened, absences, closures, CohortId(pending),
      cohortClosed, cohortReappeared, newCohort);
  }

  /** The mass-closure guard, measured on the absences that start now, and the ordinary streaks. */
  method GuardAndStreaks(known: seq<OpportunityState>, ghost rows: Rows, liveAbsent: seq<OpportunityState>, o: Outlook)
    returns (absences: seq<(OppId, nat)>, closures: seq<(OppId, seq<SnapId>)>, newCohort: seq<OppId>)
    requires Lists(known, rows) && DistinctIds(liveAbsent)
    requires forall s :: s in liveAbsent <==> s in known && Absent(s, o)
    ensures forall id :: Find(absences, id) == MissAt(rows, id, o)
    ensures forall id :: Find(closures, id) == CloseAt(rows, id, o)
    ensures forall id :: id in newCohort <==> id in FreshIds(rows, o) && Guarded(rows, o)
  {
    var starting := Fresh(liveAbsent);
    var guard := GuardTriggers(|starting|, |LiveOnes(known)|, o);
    GuardCounts(known, rows, liveAbsent, o);
    Selections(liveAbsent);
    var ordinary := if guard then MidStreak(liveAbsent) else liveAbsent;
    var deferred := if guard then FirstMisses(starting) else [];
    absences, closures := CountStreaks(ordinary, deferred, o);
    StreaksFit(known, rows, liveAbsent, guard, absences, closures, o);
    newCohort := if guard then Ids(starting) else [];
  }

  /** Deferring the starting absences to a cohort leaves every streak as the ordinary rule would. */
  lemma StreaksFit(known: seq<OpportunityState>, rows: Rows, liveAbsent: seq<OpportunityState>, guard: bool,
                   absences: seq<(OppId, nat)>, closures: seq<(OppId, seq<SnapId>)>, o: Outlook)
    requires Lists(known, rows) && DistinctIds(liveAbsent) && (guard ==> !o.authoritative)
    requires forall s :: s in liveAbsent <==> s in known && Absent(s, o)
    requires var ordinary := if guard then MidStreak(liveAbsent) else liveAbsent;
      var already := if guard then FirstMisses(Fresh(liveAbsent)) else [];
      && (forall s :: s in ordinary ==> Counted(absences, closures, already, s, o))
      && (forall id :: id !in Ids(ordinary) ==> Uncounted(absences, closures, already, id))
    ensures forall id :: Find(absences, id) == MissAt(rows, id, o)
    ensures forall id :: Find(closures, id) == CloseAt(rows, id, o)
  {
    forall id ensures Find(absences, id) == MissAt(rows, id, o) && Find(closures, id) == CloseAt(rows, id, o) {
      if id in rows && Absent(rows[id], o) {
        AbsentStreakFits(liveAbsent, rows[id], guard, absences, closures, o);
      } else {
        OtherStreakFits(liveAbsent, id, guard, absences, closures, o);
      }
    }
  }

  lemma AbsentStreakFits(liveAbsent: seq<OpportunityState>, s: OpportunityState, guard: bool,
                         absences: seq<(OppId, nat)>, closures: seq<(OppId, seq<SnapId>)>, o: Outlook)
    requires DistinctIds(liveAbsent) && s in liveAbsent && Absent(s, o) && (guard ==> !o.authoritative)
    requires var ordinary := if guard then MidStreak(liveAbsent) else liveAbsent;
      var already := if guard then FirstMisses(Fresh(liveAbsent)) else [];
      && (s in ordinary ==> Counted(absences, closures, already, s, o))
      && (s.id !in Ids(ordinary) ==> Uncounted(absences, closures, already, s.id))
    ensures Find(absences, s.id) == MissOf(s, o) && Find(closures, s.id) == CloseOf(s, o)
  {
    Selections(liveAbsent);
    FirstMissesAt(Fresh(liveAbsent), s.id);
    OneStateEach(Fresh(liveAbsent), liveAbsent, s);
    OneStateEach(MidStreak(liveAbsent), liveAbsent, s);
  }

  lemma OtherStreakFits(liveAbsent: seq<OpportunityState>, id: OppId, guard: bool,
                        absences: seq<(OppId, nat)>, closures: seq<(OppId, seq<SnapId>)>, o: Outlook)
    requires DistinctIds(liveAbsent) && forall s :: s in liveAbsent ==> s.id != id
    requires var ordinary := if guard then MidStreak(liveAbsent) else liveAbsent;
      var already := if guard then FirstMisses(Fresh(liveAbsent)) else [];
      id !in Ids(ordinary) ==> Uncounted(absences, closures, already, id)
    ensures Find(absences, id) == None && Find(closures, id) == None
  {
    Selections(liveAbsent);
    FirstMissesAt(Fresh(liveAbsent), id);
  }

  /** Within a list of distinct ids, a state of this id is this state. */
  lemma OneStateEach(part: seq<OpportunityState>, whole: seq<OpportunityState>, s: OpportunityState)
    requires DistinctIds(whole) && s in whole && forall t :: t in part ==> t in whole
    ensures forall t :: t in part && t.id == s.id ==> t == s
  {
  }

  function Members(pending: Option<PendingCohort>): set<OppId> {
    if pending.Some? then pending.value.members else {}
  }

  function CohortId(pending: Option<PendingCohort>): Option<nat> {
    if pending.Some? then Some(pending.value.cohort) else None
  }

  /** The lists the planner counts are as long as the sets the guard speaks about. */
  lemma GuardCounts(known: seq<OpportunityState>, rows: Rows, liveAbsent: seq<OpportunityState>, o: Outlook)
    requires Lists(known, rows) && DistinctIds(liveAbsent)
    requires forall s :: s in liveAbsent <==> s in known && Absent(s, o)
    ensures |Fresh(liveAbsent)| == |FreshIds(rows, o)| && |LiveOnes(known)| == |LiveIds(rows)|
    ensures forall id :: id in Ids(Fresh(liveAbsent)) <==> id in FreshIds(rows, o)
  {
    Selections(known);
    Selections(liveAbsent);
    forall id | id in FreshIds(rows, o) ensures exists s :: s in Fresh(liveAbsent) && s.id == id {
      assert rows[id] in Fresh(liveAbsent);
    }
    CardinalityOf(Fresh(liveAbsent), FreshIds(rows, o));
    forall id | id in LiveIds(rows) ensures exists s :: s in LiveOnes(known) && s.id == id {
      assert rows[id] in LiveOnes(known);
    }
    CardinalityOf(LiveOnes(known), LiveIds(rows));
  }
}
