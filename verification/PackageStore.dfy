/** The package tables and the transactions on them (adapters/storage/sqlite_packages.py). Every
    transaction compares leases with one reading of the database clock, passed in as `now`. */
module PackageStore {
  import opened Basics
  import opened Packages

  type VersionId = string
  type Suite = string

  datatype Verdict = Pass | Fail | Attention | Incomplete

  datatype Version = Version(
    package: string, number: nat, status: Status, fields: map<Field, string>,
    owner: string, generation: nat, expires: nat)

  datatype Reservation = Reservation(owner: string, expires: nat)

  /** One row of the append-only run table; its place in the table is its sequence number. */
  datatype Run = Run(id: string, version: VersionId, suite: Suite, attempt: nat, complete: bool, verdict: Verdict)

  datatype Decision = Decision(
    version: VersionId, run: string, verdict: Verdict, override: bool, reason: Option<string>)

  /** packages maps a package to its approved version. */
  datatype Tables = Tables(
    packages: map<string, Option<VersionId>>, versions: map<VersionId, Version>,
    reservations: map<(VersionId, Suite), Reservation>, runs: seq<Run>, decisions: seq<Decision>)

  datatype Error = StateError | LeaseLost | ReservationLost

  const EMPTY := Tables(map[], map[], map[], [], [])

  // ----- the lease -----

  predicate Holds(t: Tables, id: VersionId, owner: string, generation: nat, now: nat) {
    && id in t.versions
    && t.versions[id].status == Generating
    && t.versions[id].owner == owner
    && t.versions[id].generation == generation
    && t.versions[id].expires > now
  }

  predicate Claimable(t: Tables, id: VersionId, now: nat) {
    id in t.versions && t.versions[id].status == Generating && t.versions[id].expires <= now
  }

  /** Why a fenced update touched no row. */
  function Refusal(t: Tables, id: VersionId): Error {
    if id in t.versions && t.versions[id].status == Generating then LeaseLost else StateError
  }

  // ----- version numbers -----

  ghost function NumbersOf(versions: map<VersionId, Version>, package: string): set<nat> {
    set id | id in versions && versions[id].package == package :: versions[id].number
  }

  /** COALESCE(MAX(version), 0) + 1 */
  ghost function NextNumber(versions: map<VersionId, Version>, package: string): (n: nat)
    ensures forall k :: k in NumbersOf(versions, package) ==> k < n
    ensures if NumbersOf(versions, package) == {} then n == 1 else n - 1 in NumbersOf(versions, package)
  {
    var numbers := NumbersOf(versions, package);
    if numbers == {} then 1
    else
      HasMaximum(numbers);
      var m :| m in numbers && forall k :: k in numbers ==> k <= m;
      m + 1
  }

  lemma {:induction false} HasMaximum(numbers: set<nat>)
    requires numbers != {}
    ensures exists m :: m in numbers && forall k :: k in numbers ==> k <= m
  {
    var x :| x in numbers;
    var rest := numbers - {x};
    if rest != {} {
      HasMaximum(rest);
      var m :| m in rest && forall k :: k in rest ==> k <= m;
      var top := if x > m then x else m;
      assert forall k :: k in numbers ==> k == x || k in rest;
      assert top in numbers && forall k :: k in numbers ==> k <= top;
    } else {
      assert numbers == {x};
    }
  }

  // ----- the transactions -----

  datatype Txn =
    | AddPackage(package: string)
    | Reserve(package: string, id: VersionId, owner: string, seconds: nat)
    | Renew(id: VersionId, owner: string, generation: nat, seconds: nat)
    | Progress(id: VersionId, owner: string, generation: nat, fields: map<Field, string>)
    | Finalize(id: VersionId, owner: string, generation: nat, fields: map<Field, string>)
    | FailVersion(id: VersionId, owner: string, generation: nat, report: string)
    | ClaimExpired(id: VersionId, report: string)
    | Approve(id: VersionId, override: bool, reason: Option<string>)
    | ClaimSuite(id: VersionId, suite: Suite, owner: string, seconds: nat)
    | RenewSuite(id: VersionId, suite: Suite, owner: string, seconds: nat)
    | ReleaseSuite(id: VersionId, suite: Suite, owner: string)
    | InsertRun(id: VersionId, suite: Suite, owner: string, run: string, complete: bool, verdict: Verdict)

  /** Whether the transaction takes effect. */
  ghost predicate Granted(t: Tables, current: Suite, now: nat, x: Txn) {
    match x
    case AddPackage(package) => package !in t.packages
    case Reserve(package, id, owner, seconds) => package in t.packages && id !in t.versions
    case Renew(id, owner, generation, seconds) => Holds(t, id, owner, generation, now)
    case Progress(id, owner, generation, fields) => Stageable(fields) && Holds(t, id, owner, generation, now)
    case Finalize(id, owner, generation, fields) => IsBundle(fields) && Holds(t, id, owner, generation, now)
    case FailVersion(id, owner, generation, report) => !Blank(report) && Holds(t, id, owner, generation, now)
    case ClaimExpired(id, report) => !Blank(report) && Claimable(t, id, now)
    case Approve(id, override, reason) =>
      && id in t.versions
      && t.versions[id].status == Verified
      && MayApprove(Effective(t.runs, id, current), override, reason)
    case ClaimSuite(id, suite, owner, seconds) =>
      && id in t.versions
      && !HasComplete(t.runs, id, suite)
      && ((id, suite) in t.reservations ==> t.reservations[(id, suite)].expires <= now)
    case RenewSuite(id, suite, owner, seconds) => Owns(t, id, suite, owner, now)
    case ReleaseSuite(id, suite, owner) => Owns(t, id, suite, owner, now)
    case InsertRun(id, suite, owner, run, complete, verdict) =>
      Owns(t, id, suite, owner, now) && !Violates(t.runs, NewRun(t.runs, id, suite, run, complete, verdict))
  }

  /** What a granted transaction leaves behind. */
  ghost function Effect(t: Tables, current: Suite, now: nat, x: Txn): Tables
    requires Granted(t, current, now, x)
  {
    match x
    case AddPackage(package) => t.(packages := t.packages[package := None])
    case Reserve(package, id, owner, seconds) =>
      Put(t, id, Version(package, NextNumber(t.versions, package), Generating, map[], owner, 1, now + seconds))
    case Renew(id, owner, generation, seconds) => Put(t, id, t.versions[id].(expires := now + seconds))
    case Progress(id, owner, generation, fields) => Put(t, id, Staged(t.versions[id], fields))
    case Finalize(id, owner, generation, fields) => Put(t, id, Staged(t.versions[id], fields).(status := Verified))
    case FailVersion(id, owner, generation, report) => Put(t, id, FailedWith(t.versions[id], report))
    case ClaimExpired(id, report) =>
      Put(t, id, FailedWith(t.versions[id], report).(generation := t.versions[id].generation + 1))
    case Approve(id, override, reason) =>
      var run := Effective(t.runs, id, current).value;
      Put(t, id, t.versions[id].(status := Approved)).(
        decisions := t.decisions + [Decision(id, run.id, run.verdict, override, reason)],
        packages := PointedAt(t.packages, t.versions[id].package, id))
    case ClaimSuite(id, suite, owner, seconds) => Booked(t, id, suite, owner, now + seconds)
    case RenewSuite(id, suite, owner, seconds) => Booked(t, id, suite, owner, now + seconds)
    case ReleaseSuite(id, suite, owner) => t.(reservations := t.reservations - {(id, suite)})
    case InsertRun(id, suite, owner, run, complete, verdict) =>
      t.(reservations := t.reservations - {(id, suite)},
         runs := t.runs + [NewRun(t.runs, id, suite, run, complete, verdict)])
  }

  ghost function Commit(t: Tables, current: Suite, now: nat, x: Txn): Tables {
    if Granted(t, current, now, x) then Effect(t, current, now, x) else t
  }

  function Put(t: Tables, id: VersionId, v: Version): Tables {
    t.(versions := t.versions[id := v])
  }

  function Booked(t: Tables, id: VersionId, suite: Suite, owner: string, expires: nat): Tables {
    t.(reservations := t.reservations[(id, suite) := Reservation(owner, expires)])
  }

  function Staged(v: Version, fields: map<Field, string>): Version {
    v.(fields := v.fields + fields)
  }

  function FailedWith(v: Version, report: string): Version {
    v.(status := Failed, fields := v.fields[FailureReport := report])
  }

  function PointedAt(packages: map<string, Option<VersionId>>, package: string, id: VersionId)
    : map<string, Option<VersionId>>
  {
    if package in packages then packages[package := Some(id)] else packages
  }

  /** Only required fields may be staged. */
  predicate Stageable(fields: map<Field, string>) {
    fields.Keys <= VERIFIED_REQUIRED_FIELDS
  }

  predicate IsBundle(fields: map<Field, string>) {
    fields.Keys <= VERIFIED_REQUIRED_FIELDS && IsComplete(fields)
  }

  // ----- adjudication -----

  predicate Owns(t: Tables, id: VersionId, suite: Suite, owner: string, now: nat) {
    && (id, suite) in t.reservations
    && t.reservations[(id, suite)].owner == owner
    && t.reservations[(id, suite)].expires > now
  }

  predicate Judges(r: Run, id: VersionId, suite: Suite) {
    r.version == id && r.suite == suite
  }

  predicate HasComplete(runs: seq<Run>, id: VersionId, suite: Suite) {
    exists r :: r in runs && Judges(r, id, suite) && r.complete
  }

  /** The complete run with the highest sequence number. */
  function Effective(runs: seq<Run>, id: VersionId, suite: Suite): (r: Option<Run>)
    ensures r.Some? ==> r.value in runs && Judges(r.value, id, suite) && r.value.complete
    ensures r.None? <==> !HasComplete(runs, id, suite)
  {
    if runs == [] then None
    else
      var last := runs[|runs| - 1];
      assert runs == runs[..|runs| - 1] + [last];
      if Judges(last, id, suite) && last.complete then Some(last) else Effective(runs[..|runs| - 1], id, suite)
  }

  /** COALESCE(MAX(attempt), 0) */
  function LastAttempt(runs: seq<Run>, id: VersionId, suite: Suite): (n: nat)
    ensures forall r :: r in runs && Judges(r, id, suite) ==> r.attempt <= n
  {
    if runs == [] then 0
    else
      var last, before := runs[|runs| - 1], LastAttempt(runs[..|runs| - 1], id, suite);
      assert runs == runs[..|runs| - 1] + [last];
      if Judges(last, id, suite) && last.attempt > before then last.attempt else before
  }

  function NewRun(runs: seq<Run>, id: VersionId, suite: Suite, run: string, complete: bool, verdict: Verdict): Run {
    Run(run, id, suite, LastAttempt(runs, id, suite) + 1, complete, verdict)
  }

  /** The run table's uniqueness constraints: the run id, the attempt label, one complete run a suite. */
  predicate Violates(runs: seq<Run>, r: Run) {
    exists q :: q in runs && Clashes(q, r)
  }

  predicate Clashes(q: Run, r: Run) {
    || q.id == r.id
    || (Judges(q, r.version, r.suite) && q.attempt == r.attempt)
    || (Judges(q, r.version, r.suite) && q.complete && r.complete)
  }

  predicate MayApprove(run: Option<Run>, override: bool, reason: Option<string>) {
    && run.Some?
    && (!override ==> run.value.verdict == Pass)
    && (override ==> reason.Some? && !Blank(reason.value) && run.value.verdict in {Fail, Attention})
  }

  // ----- the repository -----

  class PackageRepository {
    var packages: map<string, Option<VersionId>>
    var versions: map<VersionId, Version>
    var reservations: map<(VersionId, Suite), Reservation>
    var runs: seq<Run>
    var decisions: seq<Decision>
    const current: Suite

    constructor (current: Suite)
      ensures State() == EMPTY && this.current == current
    {
      packages, versions, reservations, runs, decisions := map[], map[], map[], [], [];
      this.current := current;
    }

    function State(): Tables
      reads this
    {
      Tables(packages, versions, reservations, runs, decisions)
    }

    method InsertPackage(package: string)
      modifies this
      ensures State() == Commit(old(State()), current, 0, AddPackage(package))
    {
      if package !in packages {
        packages := packages[package := None];
      }
    }

    method NextVersionNumber(package: string) returns (n: nat)
      ensures n == NextNumber(versions, package)
    {
      n := 1;
      var todo := versions.Keys;
      ghost var seen: set<nat> := {};
      while todo != {}
        invariant todo <= versions.Keys
        invariant seen ==
          set id | id in versions && id !in todo && versions[id].package == package :: versions[id].number
        invariant forall k :: k in seen ==> k < n
        invariant if seen == {} then n == 1 else n - 1 in seen
      {
        var id :| id in todo;
        todo := todo - {id};
        if versions[id].package == package {
          seen := seen + {versions[id].number};
          if versions[id].number >= n {
            n := versions[id].number + 1;
          }
        }
      }
      assert seen == NumbersOf(versions, package);
    }

    /** Tries the minted ids in turn: a clash on the id is retried, at most once for each of them. */
    method ReserveVersion(package: string, ids: seq<VersionId>, owner: string, seconds: nat, now: nat)
      returns (r: Result<VersionId, Error>)
      modifies this`versions
      ensures r.Ok? ==>
        && r.value in ids
        && Granted(old(State()), current, now, Reserve(package, r.value, owner, seconds))
        && State() == Effect(old(State()), current, now, Reserve(package, r.value, owner, seconds))
      ensures r.Err? ==> State() == old(State())
      ensures r.Err? <==> package !in packages || forall id :: id in ids ==> id in old(versions)
    {
      if package !in packages {
        return Err(StateError);
      }
      for i := 0 to |ids|
        invariant versions == old(versions)
        invariant forall k :: 0 <= k < i ==> ids[k] in versions
      {
        var number := NextVersionNumber(package);
        if ids[i] !in versions {
          versions := versions[ids[i] := Version(package, number, Generating, map[], owner, 1, now + seconds)];
          return Ok(ids[i]);
        }
      }
      return Err(StateError);
    }

    method RenewLease(id: VersionId, owner: string, generation: nat, seconds: nat, now: nat) returns (ok: bool)
      modifies this`versions
      ensures ok <==> Granted(old(State()), current, now, Renew(id, owner, generation, seconds))
      ensures State() == Commit(old(State()), current, now, Renew(id, owner, generation, seconds))
    {
      ok := Holds(State(), id, owner, generation, now);
      if ok {
        versions := versions[id := versions[id].(expires := now + seconds)];
      }
    }

    method RecordProgress(id: VersionId, owner: string, generation: nat, fields: map<Field, string>, now: nat)
      returns (r: Result<(), Error>)
      modifies this`versions
      ensures r.Ok? <==> Stageable(fields) && (fields == map[] || Holds(old(State()), id, owner, generation, now))
      ensures r.Err? ==> r.error == if Stageable(fields) then Refusal(old(State()), id) else StateError
      ensures State() == Commit(old(State()), current, now, Progress(id, owner, generation, fields))
    {
      if !Stageable(fields) {
        return Err(StateError);
      }
      if fields == map[] {
        assert forall v: Version :: v.fields + fields == v.fields;
        assert id in versions ==> versions == versions[id := Staged(versions[id], fields)];
        return Ok(());
      }
      if !Holds(State(), id, owner, generation, now) {
        return Err(Refusal(State(), id));
      }
      versions := versions[id := Staged(versions[id], fields)];
      return Ok(());
    }

    method FinalizeVerified(id: VersionId, owner: string, generation: nat, bundle: map<Field, string>, now: nat)
      returns (r: Result<(), Error>)
      modifies this`versions
      ensures r.Ok? <==> Granted(old(State()), current, now, Finalize(id, owner, generation, bundle))
      ensures r.Err? ==> r.error == if IsBundle(bundle) then Refusal(old(State()), id) else StateError
      ensures State() == Commit(old(State()), current, now, Finalize(id, owner, generation, bundle))
    {
      if !IsBundle(bundle) {
        return Err(StateError);
      }
      if !Holds(State(), id, owner, generation, now) {
        return Err(Refusal(State(), id));
      }
      versions := versions[id := Staged(versions[id], bundle).(status := Verified)];
      return Ok(());
    }

    method MarkFailed(id: VersionId, owner: string, generation: nat, report: string, now: nat)
      returns (r: Result<(), Error>)
      modifies this`versions
      ensures r.Ok? <==> Granted(old(State()), current, now, FailVersion(id, owner, generation, report))
      ensures r.Err? ==> r.error == if Blank(report) then StateError else Refusal(old(State()), id)
      ensures State() == Commit(old(State()), current, now, FailVersion(id, owner, generation, report))
    {
      if Blank(report) {
        return Err(StateError);
      }
      if !Holds(State(), id, owner, generation, now) {
        return Err(Refusal(State(), id));
      }
      versions := versions[id := FailedWith(versions[id], report)];
      return Ok(());
    }

    /** Fails the version of a dead worker and bumps the generation, so that worker stays fenced out. */
    method ClaimExpiredAndFail(id: VersionId, report: string, now: nat) returns (r: Result<bool, Error>)
      modifies this`versions
      ensures r.Err? <==> Blank(report)
      ensures r.Ok? ==> (r.value <==> Claimable(old(State()), id, now))
      ensures State() == Commit(old(State()), current, now, Txn.ClaimExpired(id, report))
    {
      if Blank(report) {
        return Err(StateError);
      }
      var claim := Claimable(State(), id, now);
      if claim {
        versions := versions[id := FailedWith(versions[id], report).(generation := versions[id].generation + 1)];
      }
      return Ok(claim);
    }

    method ApproveVersion(id: VersionId, override: bool, reason: Option<string>) returns (r: Result<(), Error>)
      modifies this
      ensures r.Ok? <==> Granted(old(State()), current, 0, Approve(id, override, reason))
      ensures State() == Commit(old(State()), current, 0, Approve(id, override, reason))
    {
      if id !in versions || versions[id].status != Verified {
        return Err(StateError);
      }
      var run := Effective(runs, id, current);
      if run.None? {
        return Err(StateError);
      }
      var verdict := run.value.verdict;
      if !override {
        if verdict != Pass { return Err(StateError); }
      } else {
        if reason.None? || Blank(reason.value) { return Err(StateError); }
        if verdict != Fail && verdict != Attention { return Err(StateError); }
      }
      decisions := decisions + [Decision(id, run.value.id, verdict, override, reason)];
      packages := PointedAt(packages, versions[id].package, id);
      versions := versions[id := versions[id].(status := Approved)];
      return Ok(());
    }

    method ClaimReservation(id: VersionId, suite: Suite, owner: string, seconds: nat, now: nat)
      returns (r: Result<bool, Error>)
      modifies this`reservations
      ensures r.Err? <==> id !in versions || HasComplete(runs, id, suite)
      ensures r == Ok(true) <==> Granted(old(State()), current, now, ClaimSuite(id, suite, owner, seconds))
      ensures State() == Commit(old(State()), current, now, ClaimSuite(id, suite, owner, seconds))
    {
      if id !in versions || Effective(runs, id, suite).Some? {
        return Err(StateError);
      }
      if (id, suite) !in reservations {
        reservations := reservations[(id, suite) := Reservation(owner, now + seconds)];
        return Ok(true);
      }
      if reservations[(id, suite)].expires <= now {
        reservations := reservations[(id, suite) := Reservation(owner, now + seconds)];
        return Ok(true);
      }
      return Ok(false);
    }

    method RenewReservation(id: VersionId, suite: Suite, owner: string, seconds: nat, now: nat) returns (ok: bool)
      modifies this`reservations
      ensures ok <==> Granted(old(State()), current, now, RenewSuite(id, suite, owner, seconds))
      ensures State() == Commit(old(State()), current, now, RenewSuite(id, suite, owner, seconds))
    {
      ok := Owns(State(), id, suite, owner, now);
      if ok {
        reservations := reservations[(id, suite) := Reservation(owner, now + seconds)];
      }
    }

    method ReleaseReservation(id: VersionId, suite: Suite, owner: string, now: nat) returns (ok: bool)
      modifies this`reservations
      ensures ok <==> Granted(old(State()), current, now, ReleaseSuite(id, suite, owner))
      ensures State() == Commit(old(State()), current, now, ReleaseSuite(id, suite, owner))
    {
      ok := Owns(State(), id, suite, owner, now);
      if ok {
        reservations := reservations - {(id, suite)};
      }
    }

    /** Consumes the reservation and appends the run, or leaves everything as it was. */
    method InsertGauntletRun(id: VersionId, suite: Suite, owner: string, run: string, complete: bool,
                             verdict: Verdict, now: nat)
      returns (r: Result<Run, Error>)
      modifies this`reservations, this`runs
      ensures r.Ok? <==> Granted(old(State()), current, now, InsertRun(id, suite, owner, run, complete, verdict))
      ensures r == Err(ReservationLost) <==> !Owns(old(State()), id, suite, owner, now)
      ensures State() == Commit(old(State()), current, now, InsertRun(id, suite, owner, run, complete, verdict))
    {
      if !Owns(State(), id, suite, owner, now) {
        return Err(ReservationLost);
      }
      var row := NewRun(runs, id, suite, run, complete, verdict);
      var clash := FindClash(row);
      if clash {
        return Err(StateError);
      }
      reservations := reservations - {(id, suite)};
      runs := runs + [row];
      return Ok(row);
    }

    method FindClash(row: Run) returns (found: bool)
      ensures found <==> Violates(runs, row)
    {
      for i := 0 to |runs|
        invariant forall k :: 0 <= k < i ==> !Clashes(runs[k], row)
      {
        if Clashes(runs[i], row) {
          return true;
        }
      }
      return false;
    }
  }
}
