/** What the user's tables and the stored verdicts come to over whole runs, by the steps alone: each setting is as it
    was last written, the audit trail chains, and a verdict reads as current exactly until the next write or version
    (adapters/storage/sqlite_policies.py:28-60, sqlite_profile.py:32-68, family_strategy.py:35-131;
    apps/cli/discover.py:440-451). */
module GateOutcomes {
  import opened Basics
  import GateCache
  import opened GateRuns

  // ----- settings -----

  /** The value a policy was last given. */
  function LastPolicy(steps: seq<Step>, key: string): Option<string> {
    if steps == [] then None
    else
      var s := steps[|steps| - 1];
      if s.SetPolicy? && s.key == key then Some(s.policy) else LastPolicy(steps[..|steps| - 1], key)
  }

  /** What a field was last given: a value, or nothing. */
  function LastField(steps: seq<Step>, field: string): Option<Option<string>> {
    if steps == [] then None
    else
      var s := steps[|steps| - 1];
      if s.SetField? && s.field == field then Some(s.value) else LastField(steps[..|steps| - 1], field)
  }

  lemma SettingsStep(gate: Gate, w: World, s: Step)
    ensures Next(gate, w, s).tables.policies ==
      if s.SetPolicy? then w.tables.policies[s.key := s.policy] else w.tables.policies
    ensures Next(gate, w, s).tables.fields ==
      if s.SetField? then w.tables.fields[s.field := s.value] else w.tables.fields
  {
  }

  /** Over any run a policy is as last written, and no other is in the table. */
  lemma {:induction false} PoliciesAreLast(gate: Gate, steps: seq<Step>, key: string)
    ensures var policies := RunFrom(gate, START, steps).tables.policies;
      match LastPolicy(steps, key)
      case Some(value) => key in policies && policies[key] == value
      case None => key !in policies
  {
    if steps != [] {
      PoliciesAreLast(gate, steps[..|steps| - 1], key);
      SettingsStep(gate, RunFrom(gate, START, steps[..|steps| - 1]), steps[|steps| - 1]);
    }
  }

  /** And so is a profile field. */
  lemma {:induction false} FieldsAreLast(gate: Gate, steps: seq<Step>, field: string)
    ensures var fields := RunFrom(gate, START, steps).tables.fields;
      match LastField(steps, field)
      case Some(value) => field in fields && fields[field] == value
      case None => field !in fields
  {
    if steps != [] {
      FieldsAreLast(gate, steps[..|steps| - 1], field);
      SettingsStep(gate, RunFrom(gate, START, steps[..|steps| - 1]), steps[|steps| - 1]);
    }
  }

  /** What the trail says a policy was last given. */
  function PolicyTrail(writes: seq<GateCache.PolicyWrite>, key: string): Option<string> {
    if writes == [] then None
    else
      var w := writes[|writes| - 1];
      if w.key == key then Some(w.after) else PolicyTrail(writes[..|writes| - 1], key)
  }

  function FieldTrail(writes: seq<GateCache.FieldWrite>, field: string): Option<string> {
    if writes == [] then None
    else
      var w := writes[|writes| - 1];
      if w.field == field then w.after else FieldTrail(writes[..|writes| - 1], field)
  }

  /** Each entry starts where the one before it on the same setting ended, and the last one ends in what is held. */
  ghost predicate PoliciesTold(writes: seq<GateCache.PolicyWrite>, policies: map<string, string>) {
    && (forall i :: 0 <= i < |writes| ==> writes[i].before == PolicyTrail(writes[..i], writes[i].key))
    && (forall key :: PolicyTrail(writes, key) == if key in policies then Some(policies[key]) else None)
  }

  ghost predicate FieldsTold(writes: seq<GateCache.FieldWrite>, fields: map<string, Option<string>>) {
    && (forall i :: 0 <= i < |writes| ==> writes[i].before == FieldTrail(writes[..i], writes[i].field))
    && (forall field :: FieldTrail(writes, field) == if field in fields then fields[field] else None)
  }

  ghost predicate Told(t: GateCache.Tables) {
    PoliciesTold(t.policyWrites, t.policies) && FieldsTold(t.fieldWrites, t.fields)
  }

  /** One entry for each write. */
  function Writes(steps: seq<Step>): nat {
    if steps == [] then 0
    else Writes(steps[..|steps| - 1]) + if steps[|steps| - 1].SetPolicy? || steps[|steps| - 1].SetField? then 1 else 0
  }

  lemma PolicyTold(writes: seq<GateCache.PolicyWrite>, policies: map<string, string>, w: GateCache.PolicyWrite)
    requires PoliciesTold(writes, policies) && w.before == GateCache.Get(policies, w.key)
    ensures PoliciesTold(writes + [w], policies[w.key := w.after])
  {
    var more := writes + [w];
    assert more[..|writes|] == writes;
    forall i | 0 <= i < |writes| ensures more[i].before == PolicyTrail(more[..i], more[i].key) {
      assert more[..i] == writes[..i];
    }
  }

  lemma FieldTold(writes: seq<GateCache.FieldWrite>, fields: map<string, Option<string>>, w: GateCache.FieldWrite)
    requires FieldsTold(writes, fields) && w.before == GateCache.Held(fields, w.field)
    ensures FieldsTold(writes + [w], fields[w.field := w.after])
  {
    var more := writes + [w];
    assert more[..|writes|] == writes;
    forall i | 0 <= i < |writes| ensures more[i].before == FieldTrail(more[..i], more[i].field) {
      assert more[..i] == writes[..i];
    }
  }

  lemma TrailStep(gate: Gate, w: World, s: Step)
    requires Told(w.tables)
    ensures Told(Next(gate, w, s).tables)
  {
    var t := w.tables;
    if s.SetPolicy? {
      PolicyTold(t.policyWrites, t.policies, GateCache.PolicyWrite(s.key, GateCache.Get(t.policies, s.key), s.policy));
    } else if s.SetField? {
      FieldTold(t.fieldWrites, t.fields, GateCache.FieldWrite(s.field, GateCache.Held(t.fields, s.field), s.value));
    }
  }

  lemma TrailGrows(gate: Gate, w: World, s: Step)
    ensures var t, n := w.tables, Next(gate, w, s).tables;
      |n.policyWrites| + |n.fieldWrites| ==
      |t.policyWrites| + |t.fieldWrites| + if s.SetPolicy? || s.SetField? then 1 else 0
  {
  }

  /** Over any run the audit trail has every write, each starting from the value the one before left, and it ends in
      what the tables hold. */
  lemma {:induction false} TrailChains(gate: Gate, steps: seq<Step>)
    ensures Told(RunFrom(gate, START, steps).tables)
    ensures |RunFrom(gate, START, steps).tables.policyWrites| + |RunFrom(gate, START, steps).tables.fieldWrites|
         == Writes(steps)
  {
    if steps != [] {
      TrailChains(gate, steps[..|steps| - 1]);
      TrailStep(gate, RunFrom(gate, START, steps[..|steps| - 1]), steps[|steps| - 1]);
      TrailGrows(gate, RunFrom(gate, START, steps[..|steps| - 1]), steps[|steps| - 1]);
    }
  }

  // ----- strategy -----

  /** A mint adds one version, with the families it comes with; nothing but a mint or a family row touches either. */
  lemma StrategyStep(gate: Gate, w: World, s: Step)
    ensures var t, n := w.tables, Next(gate, w, s).tables;
      match s
      case Mint(families, objective, allocations) =>
        && n.families == families && |n.strategies| == |t.strategies| + 1 && t.strategies <= n.strategies
        && n.strategies[|t.strategies|].objective == objective
        && n.strategies[|t.strategies|].allocations == allocations
      case AddRow(id, family) =>
        && n.strategies == t.strategies && n.families.Keys == t.families.Keys + {id}
        && (forall f :: f in t.families ==> n.families[f] == t.families[f])
        && (id !in t.families ==> n.families[id] == family)
      case _ => n.strategies == t.strategies && n.families == t.families
  {
  }

  /** An objective given with an edit counts, unless it is empty. */
  lemma ObjectiveSays(given: string, current: string)
    ensures given != "" ==> GateCache.ObjectiveOr(given, current) == given
    ensures given == "" ==> GateCache.ObjectiveOr(given, current) == current
  {
  }

  /** A version may be minted exactly with an objective that says something and with allocations from one to five. */
  lemma MintableMeans(objective: string, allocations: map<string, int>)
    ensures GateCache.Mintable(objective, allocations) <==>
      && (exists i :: 0 <= i < |objective| && !IsSpace(objective[i]))
      && forall id :: id in allocations ==>
           || allocations[id] == 1 || allocations[id] == 2 || allocations[id] == 3 || allocations[id] == 4
           || allocations[id] == 5
  {
  }

  /** After a status change a family is allocated exactly while active: as before, or with three if it was not. No
      other family's allocation changes, and so the change is never refused for them. */
  lemma StatusSays(allocations: map<string, int>, id: string, status: GateCache.Status, objective: string)
    ensures var more := GateCache.StatusAllocations(allocations, id, status);
      && (id in more <==> status == GateCache.Active)
      && (id in more ==> more[id] == if id in allocations then allocations[id] else 3)
      && (forall other :: other != id ==> (other in more <==> other in allocations))
      && (forall other :: other != id && other in more ==> more[other] == allocations[other])
      && (GateCache.Mintable(objective, allocations) ==> GateCache.Mintable(objective, more))
  {
  }

  /** So it is an edit of that one family. */
  lemma StatusIsEdit(allocations: map<string, int>, id: string, status: GateCache.Status)
    ensures GateCache.StatusAllocations(allocations, id, status) == GateCache.Edited(allocations, GateCache.Edit(id,
      if status != GateCache.Active then None else if id in allocations then Some(allocations[id]) else Some(3), 0))
  {
  }

  lemma StatusKeepsTarget(f: GateCache.Family, status: GateCache.Status)
    ensures GateCache.WithStatus(f, status).status == status
    ensures GateCache.WithStatus(f, status).seniority == f.seniority
  {
  }

  // ----- verdicts -----

  /** A write of the services. */
  predicate Bumps(s: Step) {
    s.SetPolicy? || s.SetField? || s.Mint?
  }

  function Bumped(steps: seq<Step>): nat {
    if steps == [] then 0
    else Bumped(steps[..|steps| - 1]) + if Bumps(steps[|steps| - 1]) then 1 else 0
  }

  lemma {:induction false} BumpedSince(steps: seq<Step>, n: nat)
    requires n <= |steps|
    ensures Bumped(steps[..n]) <= Bumped(steps)
    ensures Bumped(steps[..n]) == Bumped(steps) <==> forall i :: n <= i < |steps| ==> !Bumps(steps[i])
  {
    if n < |steps| {
      BumpedSince(steps[..|steps| - 1], n);
      assert steps[..|steps| - 1][..n] == steps[..n];
      assert forall i :: n <= i < |steps| - 1 ==> steps[..|steps| - 1][i] == steps[i];
    } else {
      assert steps[..n] == steps;
    }
  }

  function VersionOf(steps: seq<Step>, o: string): Option<string> {
    if steps == [] then None
    else
      var s := steps[|steps| - 1];
      if s.NewVersion? && s.opportunity == o then Some(s.version) else VersionOf(steps[..|steps| - 1], o)
  }

  /** Where the run last started. */
  function Start(steps: seq<Step>, r: nat): (n: Option<nat>)
    ensures n.Some? ==> n.value < |steps| && steps[n.value] == StartRun(r)
    ensures n.Some? ==> forall i :: n.value < i < |steps| ==> steps[i] != StartRun(r)
    ensures n.None? ==> forall i :: 0 <= i < |steps| ==> steps[i] != StartRun(r)
  {
    if steps == [] then None
    else if steps[|steps| - 1] == StartRun(r) then Some(|steps| - 1)
    else Start(steps[..|steps| - 1], r)
  }

  /** Since then it has taken this step. */
  predicate Took(steps: seq<Step>, r: nat, s: Step) {
    Start(steps, r).Some? && exists i :: Start(steps, r).value < i < |steps| && steps[i] == s
  }

  predicate ReadAll(steps: seq<Step>, r: nat) {
    Took(steps, r, ReadPolicies(r)) && Took(steps, r, ReadFields(r)) && Took(steps, r, ReadFamilies(r))
  }

  /** This step judges the opportunity, by a run that has read everything. */
  predicate JudgesAt(steps: seq<Step>, i: nat, o: string) {
    && i < |steps| && steps[i].Judge? && steps[i].opportunity == o && ReadAll(steps[..i], steps[i].run)
    && VersionOf(steps[..i], o).Some?
  }

  lemma TookOn(steps: seq<Step>, s: Step, r: nat, read: Step)
    requires !read.StartRun?
    ensures Took(steps + [s], r, read) <==>
      s != StartRun(r) && (Took(steps, r, read) || (Start(steps, r).Some? && s == read))
  {
    var more := steps + [s];
    assert more[..|steps|] == steps;
    if Took(steps, r, read) && s != StartRun(r) {
      var i :| Start(steps, r).value < i < |steps| && steps[i] == read;
      assert more[i] == read;
    }
    if Start(steps, r).Some? && s == read {
      assert more[|steps|] == read;
    }
    if Took(more, r, read) && s != StartRun(r) {
      var i :| Start(more, r).value < i < |more| && more[i] == read;
      assert i < |steps| ==> steps[i] == read;
    }
  }

  /** The runs, by the steps taken. */
  ghost predicate RunIs(w: World, steps: seq<Step>, r: nat) {
    && (r in w.runs <==> Start(steps, r).Some?)
    && (r in w.runs ==>
          && w.runs[r].epoch == Bumped(steps[..Start(steps, r).value])
          && (w.runs[r].policies.Some? <==> Took(steps, r, ReadPolicies(r)))
          && (w.runs[r].fields.Some? <==> Took(steps, r, ReadFields(r)))
          && (w.runs[r].seniorities.Some? <==> Took(steps, r, ReadFamilies(r))))
  }

  lemma {:induction false} EpochIs(gate: Gate, steps: seq<Step>)
    ensures RunFrom(gate, START, steps).tables.epoch == Bumped(steps)
  {
    if steps != [] {
      EpochIs(gate, steps[..|steps| - 1]);
    }
  }

  lemma RunStep(gate: Gate, w: World, steps: seq<Step>, s: Step, r: nat)
    requires RunIs(w, steps, r) && w.tables.epoch == Bumped(steps)
    ensures RunIs(Next(gate, w, s), steps + [s], r)
  {
    TookOn(steps, s, r, ReadPolicies(r));
    TookOn(steps, s, r, ReadFields(r));
    TookOn(steps, s, r, ReadFamilies(r));
    assert (steps + [s])[..|steps|] == steps;
    if Start(steps, r).Some? {
      assert (steps + [s])[..Start(steps, r).value] == steps[..Start(steps, r).value];
    }
  }

  lemma {:induction false} RunsAre(gate: Gate, steps: seq<Step>, r: nat)
    ensures RunIs(RunFrom(gate, START, steps), steps, r)
  {
    if steps != [] {
      var init, s := steps[..|steps| - 1], steps[|steps| - 1];
      assert steps == init + [s];
      RunsAre(gate, init, r);
      EpochIs(gate, init);
      RunStep(gate, RunFrom(gate, START, init), init, s, r);
    }
  }

  lemma {:induction false} VersionsAre(gate: Gate, steps: seq<Step>, o: string)
    ensures var w := RunFrom(gate, START, steps);
      VersionOf(steps, o) == if o in w.versions then Some(w.versions[o]) else None
  {
    if steps != [] {
      VersionsAre(gate, steps[..|steps| - 1], o);
    }
  }

  predicate Unjudged(steps: seq<Step>, from: nat, n: nat, o: string) {
    forall k :: from <= k < n ==> !JudgesAt(steps, k, o)
  }

  lemma UnjudgedOn(steps: seq<Step>, from: nat, n: nat, o: string)
    requires Unjudged(steps, from, n, o) && !JudgesAt(steps, n, o)
    ensures Unjudged(steps, from, n + 1, o)
  {
  }

  /** The last step that judged the opportunity. */
  function LastJudged(steps: seq<Step>, n: nat, o: string): (i: Option<nat>)
    requires n <= |steps|
    ensures i.Some? ==> i.value < n && JudgesAt(steps, i.value, o) && Unjudged(steps, i.value + 1, n, o)
    ensures i.None? ==> Unjudged(steps, 0, n, o)
  {
    if n == 0 then None
    else if JudgesAt(steps, n - 1, o) then Some(n - 1)
    else
      var before := LastJudged(steps, n - 1, o);
      UnjudgedOn(steps, if before.Some? then before.value + 1 else 0, n - 1, o);
      before
  }

  /** The verdict stored for the opportunity is of the version and of the epoch at which the run that judged it last
      had started. */
  ghost predicate StoredIs(w: World, steps: seq<Step>, n: nat, o: string)
    requires n <= |steps|
  {
    match LastJudged(steps, n, o)
    case None => o !in w.verdicts
    case Some(i) =>
      && o in w.verdicts && w.verdicts[o].version == VersionOf(steps[..i], o).value
      && w.verdicts[o].epoch == Bumped(steps[..i][..Start(steps[..i], steps[i].run).value])
  }

  /** What one step makes of the verdict. */
  lemma VerdictStep(gate: Gate, w: World, steps: seq<Step>, s: Step, o: string)
    requires s.Judge? ==> RunIs(w, steps, s.run)
    requires VersionOf(steps, o) == if o in w.versions then Some(w.versions[o]) else None
    ensures var n := Next(gate, w, s);
      if s.Judge? && s.opportunity == o && ReadAll(steps, s.run) && VersionOf(steps, o).Some?
      then
        && o in n.verdicts && n.verdicts[o].version == VersionOf(steps, o).value
        && n.verdicts[o].epoch == Bumped(steps[..Start(steps, s.run).value])
      else (o in n.verdicts <==> o in w.verdicts) && (o in w.verdicts ==> n.verdicts[o] == w.verdicts[o])
  {
  }

  lemma {:induction false} VerdictsAre(gate: Gate, steps: seq<Step>, n: nat, o: string)
    requires n <= |steps|
    ensures StoredIs(RunFrom(gate, START, steps[..n]), steps, n, o)
  {
    if n > 0 {
      var init, s := steps[..n - 1], steps[n - 1];
      VerdictsAre(gate, steps, n - 1, o);
      assert steps[..n][..n - 1] == init;
      VersionsAre(gate, init, o);
      if s.Judge? {
        RunsAre(gate, init, s.run);
      }
      VerdictStep(gate, RunFrom(gate, START, init), init, s, o);
    }
  }

  /** Nothing has been written since the run that judged it last had started, and its version is the one judged. */
  ghost predicate UpToDate(steps: seq<Step>, o: string) {
    exists i: nat ::
      && JudgesAt(steps, i, o) && (forall k :: i < k < |steps| ==> !JudgesAt(steps, k, o))
      && VersionOf(steps, o) == VersionOf(steps[..i], o)
      && forall k :: Start(steps[..i], steps[i].run).value <= k < |steps| ==> !Bumps(steps[k])
  }

  /** Over any run: a stored verdict reads as current exactly when that is so, and there is none exactly when the
      opportunity has never been judged. */
  lemma CurrentExactly(gate: Gate, steps: seq<Step>, o: string)
    ensures var w := RunFrom(gate, START, steps);
      && (GateState(w, o).Current? <==> UpToDate(steps, o))
      && (GateState(w, o).NoVerdict? <==> forall i: nat :: !JudgesAt(steps, i, o))
  {
    assert steps[..|steps|] == steps;
    VerdictsAre(gate, steps, |steps|, o);
    VersionsAre(gate, steps, o);
    EpochIs(gate, steps);
    if LastJudged(steps, |steps|, o).Some? {
      OnlyLast(steps, o, LastJudged(steps, |steps|, o).value);
    }
  }

  lemma OnlyLast(steps: seq<Step>, o: string, i: nat)
    requires JudgesAt(steps, i, o) && forall k :: i < k < |steps| ==> !JudgesAt(steps, k, o)
    ensures var start := Start(steps[..i], steps[i].run).value;
      && Bumped(steps[..i][..start]) <= Bumped(steps)
      && (UpToDate(steps, o) <==>
            VersionOf(steps, o) == VersionOf(steps[..i], o) && Bumped(steps[..i][..start]) == Bumped(steps))
  {
    var start := Start(steps[..i], steps[i].run).value;
    assert steps[..i][..start] == steps[..start];
    BumpedSince(steps, start);
    assert UpToDate(steps, o) <==>
      VersionOf(steps, o) == VersionOf(steps[..i], o) && forall k :: start <= k < |steps| ==> !Bumps(steps[k]);
  }
}
