/** Discovery runs judging postings while the user edits policies, profile and strategy: the cached
    verdict and the fresh one. */
module GateRuns {
  import opened Basics
  import opened GateCache

  /** The three parts of the gate's context, each read by its own query. */
  datatype Context = Context(
    policies: map<string, string>, fields: map<string, Option<string>>, seniorities: set<string>)

  /** A run: the epoch it read at its start, and what it has read of the context so far. */
  datatype Run = Run(
    epoch: nat, policies: Option<map<string, string>>, fields: Option<map<string, Option<string>>>,
    seniorities: Option<set<string>>)

  datatype Stored = Stored(version: string, epoch: nat, verdict: bool)

  /** versions: the current version of each opportunity. verdicts: the latest one of each. */
  datatype World = World(
    tables: Tables, runs: map<nat, Run>, versions: map<string, string>, verdicts: map<string, Stored>)

  const START := World(EMPTY, map[], map[], map[])

  datatype Step =
    | SetPolicy(key: string, policy: string)
    | SetField(field: string, value: Option<string>)
    | Mint(families: map<string, Family>, objective: string, allocations: map<string, int>)
    | AddRow(id: string, family: Family)  // a family row added by its repository, without a bump
    | NewVersion(opportunity: string, version: string)
    | StartRun(run: nat)
    | ReadPolicies(run: nat)
    | ReadFields(run: nat)
    | ReadFamilies(run: nat)
    | Judge(run: nat, opportunity: string)

  /** The gate on the facts of a version; the company's metadata is fixed. */
  type Gate = (string, Context) -> bool

  function ActiveSeniorities(families: map<string, Family>): set<string> {
    set id | id in families && families[id].status == Active :: families[id].seniority
  }

  function ContextOf(t: Tables): Context {
    Context(t.policies, t.fields, ActiveSeniorities(t.families))
  }

  function Next(gate: Gate, w: World, s: Step): World {
    match s
    case SetPolicy(key, policy) => w.(tables := PolicySet(w.tables, key, policy))
    case SetField(field, value) => w.(tables := FieldSet(w.tables, field, value))
    case Mint(families, objective, allocations) => w.(tables := Minted(w.tables, families, objective, allocations))
    case AddRow(id, family) =>
      if id in w.tables.families then w else w.(tables := w.tables.(families := w.tables.families[id := family]))
    case NewVersion(o, v) => w.(versions := w.versions[o := v])
    case StartRun(r) => w.(runs := w.runs[r := Run(w.tables.epoch, None, None, None)])
    case ReadPolicies(r) =>
      if r in w.runs then w.(runs := w.runs[r := w.runs[r].(policies := Some(w.tables.policies))]) else w
    case ReadFields(r) =>
      if r in w.runs then w.(runs := w.runs[r := w.runs[r].(fields := Some(w.tables.fields))]) else w
    case ReadFamilies(r) =>
      if r in w.runs then w.(runs := w.runs[r := w.runs[r].(seniorities := Some(ActiveSeniorities(w.tables.families)))])
      else w
    case Judge(r, o) =>
      if r in w.runs && o in w.versions && HasContext(w.runs[r])
      then
        w.(verdicts :=
          w.verdicts[o := Stored(w.versions[o], w.runs[r].epoch, gate(w.versions[o], ReadContext(w.runs[r])))])
      else w
  }

  predicate HasContext(r: Run) {
    r.policies.Some? && r.fields.Some? && r.seniorities.Some?
  }

  function ReadContext(r: Run): Context
    requires HasContext(r)
  {
    Context(r.policies.value, r.fields.value, r.seniorities.value)
  }

  function RunFrom(gate: Gate, w: World, steps: seq<Step>): World {
    if steps == [] then w else Next(gate, RunFrom(gate, w, steps[..|steps| - 1]), steps[|steps| - 1])
  }

  // ----- reading a verdict -----

  datatype State = NoVerdict | Stale | Current(verdict: bool)

  /** What a reader makes of the stored verdict: it counts only if it is of this very version and epoch. */
  function GateState(w: World, o: string): State {
    if o !in w.verdicts then NoVerdict
    else if o !in w.versions || w.verdicts[o].version != w.versions[o] then Stale
    else if w.verdicts[o].epoch < w.tables.epoch then Stale
    else Current(w.verdicts[o].verdict)
  }

  /** What has been read at the current epoch is what stands. */
  predicate RunWell(t: Tables, r: Run) {
    && r.epoch <= t.epoch
    && (r.epoch == t.epoch ==>
          && (r.policies.Some? ==> r.policies.value == t.policies)
          && (r.fields.Some? ==> r.fields.value == t.fields)
          && (r.seniorities.Some? ==> r.seniorities.value == ActiveSeniorities(t.families)))
  }

  predicate StoredWell(gate: Gate, t: Tables, v: Stored) {
    v.epoch <= t.epoch && (v.epoch == t.epoch ==> v.verdict == gate(v.version, ContextOf(t)))
  }

  predicate Inv(gate: Gate, w: World) {
    && (forall r :: r in w.runs ==> RunWell(w.tables, w.runs[r]))
    && (forall o :: o in w.verdicts ==> StoredWell(gate, w.tables, w.verdicts[o]))
  }

  /** Every write of the services moves the epoch on, so whatever was read or judged before is behind it. */
  lemma WritesBump(gate: Gate, w: World, s: Step)
    requires !s.AddRow? && Next(gate, w, s).tables != w.tables
    ensures Next(gate, w, s).tables.epoch == w.tables.epoch + 1
  {
  }

  /** A family row added without a bump leaves the context as it is. */
  predicate Harmless(t: Tables, s: Step) {
    s.AddRow? && s.id !in t.families ==>
      ActiveSeniorities(t.families[s.id := s.family]) == ActiveSeniorities(t.families)
  }

  ghost predicate HarmlessThroughout(gate: Gate, steps: seq<Step>) {
    forall i: nat :: i < |steps| ==> Harmless(RunFrom(gate, START, steps[..i]).tables, steps[i])
  }

  lemma RunsKept(gate: Gate, w: World, s: Step)
    requires Inv(gate, w) && Harmless(w.tables, s)
    ensures forall r :: r in Next(gate, w, s).runs ==> RunWell(Next(gate, w, s).tables, Next(gate, w, s).runs[r])
  {
    if !s.AddRow? && Next(gate, w, s).tables != w.tables {
      WritesBump(gate, w, s);
    }
  }

  lemma VerdictsKept(gate: Gate, w: World, s: Step)
    requires Inv(gate, w) && Harmless(w.tables, s)
    ensures forall o :: o in Next(gate, w, s).verdicts ==>
      StoredWell(gate, Next(gate, w, s).tables, Next(gate, w, s).verdicts[o])
  {
    if !s.AddRow? && Next(gate, w, s).tables != w.tables {
      WritesBump(gate, w, s);
    }
  }

  lemma {:induction false} Always(gate: Gate, steps: seq<Step>)
    requires HarmlessThroughout(gate, steps)
    ensures Inv(gate, RunFrom(gate, START, steps))
  {
    if steps != [] {
      var n := |steps| - 1;
      var w, s := RunFrom(gate, START, steps[..n]), steps[n];
      forall i: nat | i < n ensures Harmless(RunFrom(gate, START, steps[..n][..i]).tables, steps[..n][i]) {
        assert steps[..n][..i] == steps[..i];
      }
      Always(gate, steps[..n]);
      RunsKept(gate, w, s);
      VerdictsKept(gate, w, s);
    }
  }

  /** The verdict of this opportunity, if it reads as current, is the one the gate gives now. */
  predicate Fresh(gate: Gate, w: World, o: string) {
    GateState(w, o).Current? ==> o in w.versions && GateState(w, o).verdict == gate(w.versions[o], ContextOf(w.tables))
  }

  /** A verdict that does not read as stale is the one the gate gives on the current version, policies,
      profile and families; unbumped family rows do no harm as long as they leave the context alone. */
  lemma CachedIsFresh(gate: Gate, steps: seq<Step>, o: string)
    requires HarmlessThroughout(gate, steps)
    ensures Fresh(gate, RunFrom(gate, START, steps), o)
  {
    Always(gate, steps);
  }

  // ----- a write without the bump -----

  /** Equal but for what the verdicts say. */
  predicate Alike(a: World, b: World) {
    && a.tables == b.tables && a.runs == b.runs && a.versions == b.versions && a.verdicts.Keys == b.verdicts.Keys
    && forall o :: o in a.verdicts ==>
         o in b.verdicts && a.verdicts[o].version == b.verdicts[o].version && a.verdicts[o].epoch == b.verdicts[o].epoch
  }

  /** Which verdicts read as current does not depend on the gate. */
  lemma {:induction false} GateImmaterial(gate: Gate, other: Gate, steps: seq<Step>)
    ensures Alike(RunFrom(gate, START, steps), RunFrom(other, START, steps))
  {
    if steps != [] {
      var n := |steps| - 1;
      GateImmaterial(gate, other, steps[..n]);
      AlikeOn(gate, other, RunFrom(gate, START, steps[..n]), RunFrom(other, START, steps[..n]), steps[n]);
    }
  }

  lemma AlikeOn(gate: Gate, other: Gate, a: World, b: World, s: Step)
    requires Alike(a, b)
    ensures Alike(Next(gate, a, s), Next(other, b, s))
  {
  }

  lemma StaysFresh(gate: Gate, w: World, s: Step, o: string)
    requires Inv(gate, w) && s.AddRow? && Harmless(w.tables, s)
    ensures Fresh(gate, Next(gate, w, s), o)
  {
    VerdictsKept(gate, w, s);
  }

  /** The gate that passes in one context only. */
  function Picky(only: Context): Gate {
    (v: string, c: Context) => c == only
  }

  lemma TurnsWrong(w: World, s: Step, o: string)
    requires s.AddRow? && !Harmless(w.tables, s) && GateState(w, o).Current?
    requires Inv(Picky(ContextOf(w.tables.(families := w.tables.families[s.id := s.family]))), w)
    ensures var after := ContextOf(w.tables.(families := w.tables.families[s.id := s.family]));
      !Fresh(Picky(after), Next(Picky(after), w, s), o)
  {
    var gate := Picky(ContextOf(w.tables.(families := w.tables.families[s.id := s.family])));
    assert StoredWell(gate, w.tables, w.verdicts[o]);
    assert ContextOf(w.tables).seniorities != ContextOf(Next(gate, w, s).tables).seniorities;
  }

  /** After a run that did no harm so far, a family row is added without the bump while some verdict reads
      as current. That verdict is still right under every gate exactly when the row leaves the set of active
      target seniorities unchanged. */
  lemma UnbumpedExactly(any: Gate, steps: seq<Step>, id: string, family: Family, o: string)
    requires HarmlessThroughout(any, steps)
    requires GateState(RunFrom(any, START, steps), o).Current?
    ensures (forall gate: Gate :: FreshAfter(gate, steps, AddRow(id, family), o))
      <==> Harmless(RunFrom(any, START, steps).tables, AddRow(id, family))
  {
    var t, s := RunFrom(any, START, steps).tables, AddRow(id, family);
    if Harmless(t, s) {
      forall gate: Gate ensures FreshAfter(gate, steps, s, o) {
        ReachedUnder(any, gate, steps, o);
        StaysFresh(gate, RunFrom(gate, START, steps), s, o);
      }
    } else {
      var picky := Picky(ContextOf(t.(families := t.families[id := family])));
      ReachedUnder(any, picky, steps, o);
      TurnsWrong(RunFrom(picky, START, steps), s, o);
      assert !FreshAfter(picky, steps, s, o);
    }
  }

  predicate FreshAfter(gate: Gate, steps: seq<Step>, s: Step, o: string) {
    Fresh(gate, Next(gate, RunFrom(gate, START, steps), s), o)
  }

  /** The same run under another gate: same tables, same verdicts current. */
  lemma ReachedUnder(any: Gate, gate: Gate, steps: seq<Step>, o: string)
    requires HarmlessThroughout(any, steps)
    ensures var a, w := RunFrom(any, START, steps), RunFrom(gate, START, steps);
      Inv(gate, w) && w.tables == a.tables && (GateState(w, o).Current? <==> GateState(a, o).Current?)
  {
    HarmlessUnder(any, gate, steps);
    Always(gate, steps);
    GateImmaterial(any, gate, steps);
  }

  lemma HarmlessUnder(gate: Gate, other: Gate, steps: seq<Step>)
    requires HarmlessThroughout(gate, steps)
    ensures HarmlessThroughout(other, steps)
  {
    forall i: nat | i < |steps| ensures Harmless(RunFrom(other, START, steps[..i]).tables, steps[i]) {
      GateImmaterial(gate, other, steps[..i]);
    }
  }

  /** In terms of the row to be added: it must be inactive, or target a seniority some active family has. */
  lemma HarmlessRow(t: Tables, id: string, family: Family)
    requires id !in t.families
    ensures Harmless(t, AddRow(id, family)) <==>
      family.status != Active || family.seniority in ActiveSeniorities(t.families)
  {
    var more := t.families[id := family];
    forall x ensures x in ActiveSeniorities(more) <==>
      x in ActiveSeniorities(t.families) || (family.status == Active && x == family.seniority)
    {
      if x in ActiveSeniorities(t.families) {
        var f :| f in t.families && t.families[f].status == Active && t.families[f].seniority == x;
        assert more[f] == t.families[f];
      }
      if family.status == Active && x == family.seniority {
        assert more[id] == family;
      }
    }
  }

  /** One posting, judged by one run on an empty instance. */
  const JUDGED_ONCE := [
    NewVersion("o", "v"), StartRun(0), ReadPolicies(0), ReadFields(0), ReadFamilies(0), Judge(0, "o")]

  lemma RunOn(gate: Gate, steps: seq<Step>, s: Step)
    ensures RunFrom(gate, START, steps + [s]) == Next(gate, RunFrom(gate, START, steps), s)
  {
    assert (steps + [s])[..|steps|] == steps;
  }

  /** The instance once the run has read this much, and once it has judged. */
  function Reading(policies: Option<map<string, string>>, fields: Option<map<string, Option<string>>>,
                   seniorities: Option<set<string>>): World {
    World(EMPTY, map[0 := Run(0, policies, fields, seniorities)], map["o" := "v"], map[])
  }

  function Judgment(gate: Gate): World {
    Reading(Some(map[]), Some(map[]), Some({})).(
      verdicts := map["o" := Stored("v", 0, gate("v", Context(map[], map[], {})))])
  }

  lemma StartedSteps(gate: Gate)
    ensures Next(gate, START, NewVersion("o", "v")) == START.(versions := map["o" := "v"])
    ensures Next(gate, START.(versions := map["o" := "v"]), StartRun(0)) == Reading(None, None, None)
    ensures Next(gate, Reading(None, None, None), ReadPolicies(0)) == Reading(Some(map[]), None, None)
  {
  }

  lemma JudgedSteps(gate: Gate)
    ensures Next(gate, Reading(Some(map[]), None, None), ReadFields(0)) == Reading(Some(map[]), Some(map[]), None)
    ensures Next(gate, Reading(Some(map[]), Some(map[]), None), ReadFamilies(0))
         == Reading(Some(map[]), Some(map[]), Some({}))
    ensures Next(gate, Reading(Some(map[]), Some(map[]), Some({})), Judge(0, "o")) == Judgment(gate)
  {
    assert ActiveSeniorities(map[]) == {};
  }

  lemma JudgedOnce(gate: Gate)
    ensures RunFrom(gate, START, JUDGED_ONCE) == Judgment(gate)
    ensures HarmlessThroughout(gate, JUDGED_ONCE)
  {
    StartedSteps(gate);
    JudgedSteps(gate);
    var s := [NewVersion("o", "v")];
    RunOn(gate, [], NewVersion("o", "v"));
    assert [] + s == s;
    RunOn(gate, s, StartRun(0));
    s := s + [StartRun(0)];
    RunOn(gate, s, ReadPolicies(0));
    s := s + [ReadPolicies(0)];
    RunOn(gate, s, ReadFields(0));
    s := s + [ReadFields(0)];
    RunOn(gate, s, ReadFamilies(0));
    s := s + [ReadFamilies(0)];
    RunOn(gate, s, Judge(0, "o"));
    s := s + [Judge(0, "o")];
    assert s == JUDGED_ONCE;
  }

  /** A reachable case: the first active family, added without the bump after that judgment, makes the cached
      verdict wrong under some gate while it still reads as current. */
  lemma BumpIsNeeded(any: Gate, seniority: string)
    ensures GateState(RunFrom(any, START, JUDGED_ONCE), "o").Current?
    ensures exists gate: Gate :: !FreshAfter(gate, JUDGED_ONCE, AddRow("f", Family(seniority, Active)), "o")
  {
    JudgedOnce(any);
    HarmlessRow(EMPTY, "f", Family(seniority, Active));
    UnbumpedExactly(any, JUDGED_ONCE, "f", Family(seniority, Active), "o");
  }

  /** Strategy versions are never changed, only added to. */
  lemma {:induction false} StrategiesGrow(gate: Gate, w: World, steps: seq<Step>)
    ensures w.tables.strategies <= RunFrom(gate, w, steps).tables.strategies
    ensures w.tables.epoch <= RunFrom(gate, w, steps).tables.epoch
  {
    if steps != [] {
      StrategiesGrow(gate, w, steps[..|steps| - 1]);
    }
  }
}
