/** Gate verdicts cached under the dependency epoch. Every write the gate depends on bumps the epoch in
    its own transaction, so a verdict that does not read as stale is the verdict the gate would give now
    (adapters/storage/epoch.py, sqlite_policies.py, sqlite_profile.py, family_strategy.py;
    workers/discovery/run.py, _gate; apps/cli/discover.py, _gate_state). */
module GateCache {
  import opened Basics

  datatype Status = Active | Paused | Dropped

  /** A role family: its target seniority ("" for none) and its status. */
  datatype Family = Family(seniority: string, status: Status)

  datatype Strategy = Strategy(objective: string, allocations: map<string, int>)

  datatype PolicyWrite = PolicyWrite(key: string, before: Option<string>, after: string)

  /** A field may be emptied, which is stored as a null. */
  datatype FieldWrite = FieldWrite(field: string, before: Option<string>, after: Option<string>)

  /** The user's side: policies and profile fields with their audit trails, families, strategy versions,
      and the dependency epoch. */
  datatype Tables = Tables(
    policies: map<string, string>, policyWrites: seq<PolicyWrite>,
    fields: map<string, Option<string>>, fieldWrites: seq<FieldWrite>,
    families: map<string, Family>, strategies: seq<Strategy>, epoch: nat)

  const EMPTY := Tables(map[], [], map[], [], map[], [], 0)

  // ----- audited writes -----

  function Get(m: map<string, string>, key: string): Option<string> {
    if key in m then Some(m[key]) else None
  }

  function PolicySet(t: Tables, key: string, value: string): Tables {
    t.(policies := t.policies[key := value],
       policyWrites := t.policyWrites + [PolicyWrite(key, Get(t.policies, key), value)], epoch := t.epoch + 1)
  }

  /** An absent field reads like an emptied one. */
  function Held(fields: map<string, Option<string>>, field: string): Option<string> {
    if field in fields then fields[field] else None
  }

  function FieldSet(t: Tables, field: string, value: Option<string>): Tables {
    t.(fields := t.fields[field := value],
       fieldWrites := t.fieldWrites + [FieldWrite(field, Held(t.fields, field), value)], epoch := t.epoch + 1)
  }

  // ----- strategy versions -----

  predicate Mintable(objective: string, allocations: map<string, int>) {
    !Blank(objective) && forall id :: id in allocations ==> 1 <= allocations[id] <= 5
  }

  function Minted(t: Tables, families: map<string, Family>, objective: string, allocations: map<string, int>): Tables {
    t.(families := families, strategies := t.strategies + [Strategy(objective, allocations)], epoch := t.epoch + 1)
  }

  function Current(t: Tables): Strategy
    requires t.strategies != []
  {
    t.strategies[|t.strategies| - 1]
  }

  /** An objective given with an edit replaces the current one; an empty one does not. */
  function ObjectiveOr(given: string, current: string): string {
    if given == "" then current else given
  }

  function WithStatus(f: Family, status: Status): Family { f.(status := status) }

  function StatusAllocations(allocations: map<string, int>, id: string, status: Status): map<string, int> {
    if status == Active then if id in allocations then allocations else allocations[id := 3]
    else allocations - {id}
  }

  predicate Overlap(a: map<string, Family>, b: map<string, Family>) {
    exists id :: id in a && id in b
  }

  /** What an edit found before it opened its transaction. */
  datatype Reading = Reading(objective: string, allocations: map<string, int>)

  ghost predicate ReadOf(t: Tables, objective: string, read: Reading) {
    t.strategies != [] && read == Reading(ObjectiveOr(objective, Current(t).objective), Current(t).allocations)
  }

  class UserState {
    var policies: map<string, string>
    var policyWrites: seq<PolicyWrite>
    var fields: map<string, Option<string>>
    var fieldWrites: seq<FieldWrite>
    var families: map<string, Family>
    var strategies: seq<Strategy>
    var epoch: nat

    constructor ()
      ensures State() == EMPTY
    {
      policies, policyWrites, fields, fieldWrites, families, strategies, epoch := map[], [], map[], [], map[], [], 0;
    }

    function State(): Tables
      reads this
    {
      Tables(policies, policyWrites, fields, fieldWrites, families, strategies, epoch)
    }

    method BumpDependencyEpoch()
      modifies this`epoch
      ensures epoch == old(epoch) + 1
    {
      epoch := epoch + 1;
    }

    method SetPolicy(key: string, value: string)
      modifies this
      ensures State() == PolicySet(old(State()), key, value)
    {
      var before := Get(policies, key);
      policies := policies[key := value];
      policyWrites := policyWrites + [PolicyWrite(key, before, value)];
      BumpDependencyEpoch();
    }

    method SetField(field: string, value: Option<string>)
      modifies this
      ensures State() == FieldSet(old(State()), field, value)
    {
      var before := Held(fields, field);
      fields := fields[field := value];
      fieldWrites := fieldWrites + [FieldWrite(field, before, value)];
      BumpDependencyEpoch();
    }

    /** Mint a complete new version; on a refused edit nothing at all is written. */
    method InsertVersion(updated: map<string, Family>, objective: string,
                         allocations: map<string, int>) returns (ok: bool)
      modifies this`families, this`strategies, this`epoch
      ensures ok <==> Mintable(objective, allocations)
      ensures State() == if ok then Minted(old(State()), updated, objective, allocations) else old(State())
    {
      if Blank(objective) {
        return false;
      }
      var todo := allocations.Keys;
      while todo != {}
        invariant todo <= allocations.Keys
        invariant forall id :: id in allocations && id !in todo ==> 1 <= allocations[id] <= 5
        invariant State() == old(State())
      {
        var id :| id in todo;
        if !(1 <= allocations[id] <= 5) {
          return false;
        }
        todo := todo - {id};
      }
      families := updated;
      strategies := strategies + [Strategy(objective, allocations)];
      BumpDependencyEpoch();
      return true;
    }

    method MintInitial(added: map<string, Family>, allocations: map<string, int>, objective: string) returns (ok: bool)
      modifies this`families, this`strategies, this`epoch
      ensures ok <==> !Overlap(added, old(families)) && Mintable(objective, allocations)
      ensures State() ==
        if ok then Minted(old(State()), old(families) + added, objective, allocations) else old(State())
    {
      if Overlap(added, families) {
        return false;
      }
      ok := InsertVersion(families + added, objective, allocations);
    }

    /** Read, before any transaction: the current version, the objective replaced by one that was given. */
    method RequireCurrent(objective: string) returns (r: Option<Reading>)
      ensures r.Some? <==> strategies != []
      ensures r.Some? ==> ReadOf(State(), objective, r.value)
    {
      if strategies == [] {
        return None;
      }
      var current := strategies[|strategies| - 1];
      return Some(Reading(ObjectiveOr(objective, current.objective), current.allocations));
    }

    method KnowsFamily(id: string) returns (known: bool)
      ensures known <==> id in families
    {
      known := id in families;
    }

    /** Copy-forward: the objective and allocations as read, plus the new family. */
    method AddFamily(id: string, family: Family, allocation: int, read: Reading) returns (ok: bool)
      modifies this`families, this`strategies, this`epoch
      ensures ok <==> id !in old(families) && Mintable(read.objective, read.allocations[id := allocation])
      ensures State() == if ok
        then Minted(old(State()), old(families)[id := family], read.objective, read.allocations[id := allocation])
        else old(State())
    {
      if id in families {
        return false;
      }
      ok := InsertVersion(families[id := family], read.objective, read.allocations[id := allocation]);
    }

    method SetEmphasis(id: string, allocation: int, read: Reading) returns (ok: bool)
      modifies this`families, this`strategies, this`epoch
      ensures ok <==> id in read.allocations && Mintable(read.objective, read.allocations[id := allocation])
      ensures State() == if ok
        then Minted(old(State()), old(families), read.objective, read.allocations[id := allocation])
        else old(State())
    {
      if id !in read.allocations {
        return false;
      }
      ok := InsertVersion(families, read.objective, read.allocations[id := allocation]);
    }

    /** Pause, drop or reactivate a family found before: it is allocated only while active. */
    method SetStatus(id: string, status: Status, read: Reading) returns (ok: bool)
      requires id in families
      modifies this`families, this`strategies, this`epoch
      ensures ok <==> Mintable(read.objective, StatusAllocations(read.allocations, id, status))
      ensures State() == if ok
        then Minted(old(State()), old(families)[id := WithStatus(old(families)[id], status)],
          read.objective, StatusAllocations(read.allocations, id, status))
        else old(State())
    {
      ok := InsertVersion(families[id := WithStatus(families[id], status)], read.objective,
        StatusAllocations(read.allocations, id, status));
    }
  }

  // ----- edits that overlap -----

  /** One committed edit: it allocates a family, or takes its allocation away, in a copy of the version it
      had read, given by its place in the table. */
  datatype Edit = Edit(family: string, allocation: Option<int>, read: nat)

  function Edited(allocations: map<string, int>, e: Edit): map<string, int> {
    if e.allocation.Some? then allocations[e.family := e.allocation.value] else allocations - {e.family}
  }

  /** Version k + 1 is what edit k made of the version it had read. */
  ghost predicate MintedBy(strategies: seq<Strategy>, edits: seq<Edit>) {
    && |strategies| == |edits| + 1 && ReadsBack(edits)
    && forall k: nat :: k < |edits| ==> MintedAt(strategies, edits, k)
  }

  predicate MintedAt(strategies: seq<Strategy>, edits: seq<Edit>, k: nat) {
    && k < |edits| && k + 1 < |strategies| && edits[k].read <= k
    && strategies[k + 1].allocations == Edited(strategies[edits[k].read].allocations, edits[k])
  }

  ghost predicate ReadsBack(edits: seq<Edit>) {
    forall k: nat :: k < |edits| ==> edits[k].read <= k
  }

  /** Each committed edit of the service extends the table so: what it wrote is what it had read, edited. */
  lemma EditMints(t: Tables, n: Tables, edits: seq<Edit>, e: Edit, earlier: Tables, objective: string, read: Reading,
                  families: map<string, Family>)
    requires MintedBy(t.strategies, edits) && ReadOf(earlier, objective, read)
    requires earlier.strategies <= t.strategies && e.read == |earlier.strategies| - 1
    requires n == Minted(t, families, read.objective, Edited(read.allocations, e))
    ensures MintedBy(n.strategies, edits + [e])
  {
    var more := edits + [e];
    forall k: nat | k < |more| ensures MintedAt(n.strategies, more, k) {
      if k < |edits| {
        assert MintedAt(t.strategies, edits, k);
      } else {
        assert t.strategies[e.read] == Current(earlier);
      }
    }
  }

  /** The allocation version k gives a family, going back along the versions it was copied from: by the last
      edit of the family on that way, or as at first. */
  ghost function Says(edits: seq<Edit>, k: nat, first: map<string, int>, family: string): Option<int>
    requires k <= |edits| && ReadsBack(edits)
  {
    if k == 0 then if family in first then Some(first[family]) else None
    else if edits[k - 1].family == family then edits[k - 1].allocation
    else Says(edits, edits[k - 1].read, first, family)
  }

  /** A version reflects exactly the edits on the way it was copied along, each family by the latest of them;
      any other edit is lost to it. */
  lemma {:induction false} VersionSays(strategies: seq<Strategy>, edits: seq<Edit>, k: nat, family: string)
    requires MintedBy(strategies, edits) && k <= |edits|
    ensures var said := Says(edits, k, strategies[0].allocations, family);
      && (family in strategies[k].allocations <==> said.Some?)
      && (said.Some? ==> strategies[k].allocations[family] == said.value)
    decreases k
  {
    if k > 0 {
      assert MintedAt(strategies, edits, k - 1);
      VersionSays(strategies, edits, edits[k - 1].read, family);
    }
  }

  /** Families newly allocated by edits of their own, none of them twice and none of them at first. */
  ghost predicate NewFamilies(edits: seq<Edit>, first: map<string, int>) {
    && (forall i: nat :: i < |edits| ==> edits[i].allocation.Some? && edits[i].family !in first)
    && (forall i: nat, j: nat :: i < j < |edits| ==> edits[i].family != edits[j].family)
  }

  /** The families of a version are those at first and those of edits before it. */
  lemma {:induction false} OnlyEarlier(strategies: seq<Strategy>, edits: seq<Edit>, k: nat, family: string)
    requires MintedBy(strategies, edits) && k <= |edits| && family in strategies[k].allocations
    ensures family in strategies[0].allocations || exists i: nat :: i < k && edits[i].family == family
    decreases k
  {
    if k > 0 && edits[k - 1].family != family {
      assert MintedAt(strategies, edits, k - 1);
      OnlyEarlier(strategies, edits, edits[k - 1].read, family);
    }
  }

  ghost predicate AllCarried(strategies: seq<Strategy>, edits: seq<Edit>, k: nat) {
    k < |strategies| && k <= |edits| && forall i: nat :: i < k ==> edits[i].family in strategies[k].allocations
  }

  /** Edits that each allocate a family of their own are all carried forward if and only if no version was
      ever minted between an edit's reading and its writing. */
  lemma {:induction false} CarriedForward(strategies: seq<Strategy>, edits: seq<Edit>, k: nat)
    requires MintedBy(strategies, edits) && NewFamilies(edits, strategies[0].allocations) && k <= |edits|
    ensures AllCarried(strategies, edits, k) <==> forall i: nat :: i < k ==> edits[i].read == i
  {
    if k > 0 {
      var e := edits[k - 1];
      CarriedForward(strategies, edits, k - 1);
      assert MintedAt(strategies, edits, k - 1);
      if e.read == k - 1 {
        assert forall i: nat :: i < k - 1 ==>
          (edits[i].family in strategies[k].allocations <==> edits[i].family in strategies[k - 1].allocations);
      } else {
        LostEdit(strategies, edits, k);
      }
    }
  }

  /** An edit that read an older version drops the one minted just before it. */
  lemma LostEdit(strategies: seq<Strategy>, edits: seq<Edit>, k: nat)
    requires MintedBy(strategies, edits) && NewFamilies(edits, strategies[0].allocations)
    requires 0 < k <= |edits| && edits[k - 1].read < k - 1
    ensures edits[k - 2].family !in strategies[k].allocations
  {
    assert MintedAt(strategies, edits, k - 1);
    var f, read := edits[k - 2].family, edits[k - 1].read;
    if f in strategies[read].allocations {
      OnlyEarlier(strategies, edits, read, f);
    }
  }

  /** Two families added side by side, each edit having read the first version: the second drops the first. */
  lemma SideBySide(objective: string, a: string, b: string)
    requires a != b
    ensures var edits := [Edit(a, Some(1), 0), Edit(b, Some(2), 0)];
      var strategies :=
        [Strategy(objective, map[]), Strategy(objective, map[a := 1]), Strategy(objective, map[b := 2])];
      MintedBy(strategies, edits) && !AllCarried(strategies, edits, 2)
  {
    var edits := [Edit(a, Some(1), 0), Edit(b, Some(2), 0)];
    var strategies := [Strategy(objective, map[]), Strategy(objective, map[a := 1]), Strategy(objective, map[b := 2])];
    assert MintedAt(strategies, edits, 0) && MintedAt(strategies, edits, 1);
    assert edits[0].family !in strategies[2].allocations;
  }
}
