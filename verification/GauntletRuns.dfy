/** Any number of Gauntlet attempts, their heartbeats, approvals and everything else the package tables see,
    in any interleaving: what a recorded run and an approval rest on
    (packages/domain/gauntlet.py; adapters/storage/sqlite_packages.py:222-395). */
module GauntletRuns {
  import opened Basics
  import opened PackageStore
  import opened Judges
  import opened Gauntlet
  import Adjudication

  // ----- from the judges to the approval -----

  /** What happens to the tables over time: a judged attempt appends its run, or something else does
      anything but append one. `event` and `now` may come from any worker, in any interleaving. */
  datatype Act =
    | Judged(id: VersionId, suite: Suite, attempt: Attempt, now: nat, current: Suite)
    | Other(event: Adjudication.Event)

  ghost function EventOf(x: Act): Adjudication.Event {
    match x
    case Judged(id, suite, a, now, current) => Adjudication.Event(Appending(id, suite, a), now, current)
    case Other(event) => event
  }

  /** Only judged attempts append runs. */
  ghost predicate Genuine(acts: seq<Act>) {
    forall x :: x in acts && x.Other? ==> !x.event.txn.InsertRun?
  }

  ghost function Events(acts: seq<Act>): seq<Adjudication.Event> {
    seq(|acts|, i requires 0 <= i < |acts| => EventOf(acts[i]))
  }

  ghost function TablesAfter(acts: seq<Act>): Tables {
    Adjudication.After(Events(acts))
  }

  /** The attempt behind each recorded run: entered when its append is granted, and never again. */
  ghost function Log(acts: seq<Act>): map<string, Attempt> {
    if acts == [] then map[]
    else
      var before, x := TablesAfter(acts[..|acts| - 1]), acts[|acts| - 1];
      var log := Log(acts[..|acts| - 1]);
      if x.Judged? && Granted(before, x.current, x.now, Appending(x.id, x.suite, x.attempt))
      then log[x.attempt.run := x.attempt] else log
  }

  lemma TablesOn(acts: seq<Act>)
    requires acts != []
    ensures var e := EventOf(acts[|acts| - 1]);
      TablesAfter(acts) == Commit(TablesAfter(acts[..|acts| - 1]), e.current, e.now, e.txn)
  {
    assert Events(acts)[..|acts| - 1] == Events(acts[..|acts| - 1]);
  }

  lemma CommitAppends(t: Tables, current: Suite, now: nat, x: Txn)
    ensures Commit(t, current, now, x).runs == t.runs
      || (x.InsertRun? && Granted(t, current, now, x) && Commit(t, current, now, x).runs
            == t.runs + [NewRun(t.runs, x.id, x.suite, x.run, x.complete, x.verdict)])
  {
  }

  /** The attempt under this run's own id ended in this run's verdict. */
  predicate Logged(log: map<string, Attempt>, r: Run) {
    && r.id in log && log[r.id].run == r.id
    && ReduceVerdict(ReportOf(log[r.id])) == (r.verdict, r.complete)
  }

  /** Every recorded run carries the verdict and completeness its own attempt reduces to. */
  lemma {:induction false} RunsAreLogged(acts: seq<Act>)
    requires Genuine(acts)
    ensures forall r :: r in TablesAfter(acts).runs ==> Logged(Log(acts), r)
    ensures forall run :: run in Log(acts) ==> exists r :: r in TablesAfter(acts).runs && r.id == run
  {
    if acts != [] {
      var init, x := acts[..|acts| - 1], acts[|acts| - 1];
      RunsAreLogged(init);
      TablesOn(acts);
      var t, e := TablesAfter(init), EventOf(x);
      if x.Judged? && Granted(t, x.current, x.now, Appending(x.id, x.suite, x.attempt)) {
        RunLogged(t, x, Log(init));
      } else {
        assert x in acts;
        CommitAppends(t, e.current, e.now, e.txn);
        assert TablesAfter(acts).runs == t.runs;
      }
    }
  }

  /** A granted append enters its attempt under an id no earlier run has. */
  lemma RunLogged(t: Tables, x: Act, log: map<string, Attempt>)
    requires x.Judged? && Granted(t, x.current, x.now, Appending(x.id, x.suite, x.attempt))
    requires forall r :: r in t.runs ==> Logged(log, r)
    requires forall run :: run in log ==> exists r :: r in t.runs && r.id == run
    ensures var n := Commit(t, x.current, x.now, Appending(x.id, x.suite, x.attempt));
      var more := log[x.attempt.run := x.attempt];
      && (forall r :: r in n.runs ==> Logged(more, r))
      && (forall run :: run in more ==> exists r :: r in n.runs && r.id == run)
  {
    var a := x.attempt;
    var (verdict, complete) := ReduceVerdict(ReportOf(a));
    var row := NewRun(t.runs, x.id, x.suite, a.run, complete, verdict);
    var n := Commit(t, x.current, x.now, Appending(x.id, x.suite, a));
    assert n.runs == t.runs + [row];
    forall r | r in t.runs ensures r.id != a.run {
      assert !Clashes(r, row);
    }
    var more := log[a.run := a];
    forall run | run in more ensures exists r :: r in n.runs && r.id == run {
      if run == a.run {
        assert row in n.runs;
      } else {
        var r :| r in t.runs && r.id == run;
        assert r in n.runs;
      }
    }
  }

  predicate ClearedThroughout(a: Attempt) {
    && (forall d :: d in StageZero(a) ==> d == InvariantPass)
    && ClearedBy(a, Truth) && ClearedBy(a, Consistency) && ClearedBy(a, Writing)
  }

  /** A recorded run is PASS exactly when its own attempt was cleared by stage zero and all three judges;
      in particular none of them was skipped. */
  lemma PassIsCleared(acts: seq<Act>, r: Run)
    requires Genuine(acts) && r in TablesAfter(acts).runs
    ensures r.id in Log(acts)
    ensures r.verdict == Pass <==> ClearedThroughout(Log(acts)[r.id])
    ensures r.verdict == Pass ==> forall j :: j in ReportOf(Log(acts)[r.id]).judges ==> j.outcome == Passed
  {
    RunsAreLogged(acts);
    PassMeans(Log(acts)[r.id]);
  }

  /** The decision rests on the attempt recorded under the run it cites. */
  predicate RestsOn(d: Decision, log: map<string, Attempt>) {
    && d.run in log && log[d.run].run == d.run
    && ReduceVerdict(ReportOf(log[d.run])) == (d.verdict, true)
    && (!d.override ==> ClearedThroughout(log[d.run]))
    && (d.override ==> !ClearedThroughout(log[d.run]) && d.reason.Some? && !Blank(d.reason.value))
  }

  /** End to end: every approved version has a decision, and each decision rests on the very attempt that
      produced the run it cites: cleared by stage zero and by all three judges, or waived for a stated
      reason when it was not. */
  lemma ApprovedMeansCleared(acts: seq<Act>)
    requires Genuine(acts)
    ensures forall d :: d in TablesAfter(acts).decisions ==>
      RestsOn(d, Log(acts)) && Adjudication.Cites(TablesAfter(acts).runs, d)
    ensures forall id :: Adjudication.Approves(TablesAfter(acts).versions, id) ==>
      exists d :: d in TablesAfter(acts).decisions && d.version == id
  {
    Adjudication.Always(Events(acts));
    var t := TablesAfter(acts);
    forall d | d in t.decisions ensures RestsOn(d, Log(acts)) && Adjudication.Cites(t.runs, d) {
      assert Adjudication.Cites(t.runs, d) && Adjudication.Warranted(d);
      var r :| r in t.runs && Adjudication.Cited(r, d);
      RunsAreLogged(acts);
      PassMeans(Log(acts)[r.id]);
    }
    forall id | Adjudication.Approves(t.versions, id) ensures exists d :: d in t.decisions && d.version == id {
      var k :| 0 <= k < |t.decisions| && t.decisions[k].version == id;
      assert t.decisions[k] in t.decisions;
    }
  }

  // ----- an attempt that outlives its first reservation -----

  /** When the reservation runs out, given the events since and the owner's own renewals among them. */
  function Deadline(expires: nat, events: seq<Adjudication.Event>, id: VersionId, suite: Suite, owner: string): nat {
    if events == [] then expires
    else
      var e := events[|events| - 1];
      if e.txn.RenewSuite? && e.txn.id == id && e.txn.suite == suite && e.txn.owner == owner
      then e.now + e.txn.seconds else Deadline(expires, events[..|events| - 1], id, suite, owner)
  }

  /** Each event comes before the reservation runs out, and the owner neither releases nor consumes it. */
  ghost predicate KeptAlive(expires: nat, events: seq<Adjudication.Event>, id: VersionId, suite: Suite, owner: string) {
    forall k :: 0 <= k < |events| ==>
      && events[k].now < Deadline(expires, events[..k], id, suite, owner)
      && !EndedBy(events[k].txn, id, suite, owner)
  }

  predicate EndedBy(x: Txn, id: VersionId, suite: Suite, owner: string) {
    (x.ReleaseSuite? || x.InsertRun?) && x.id == id && x.suite == suite && x.owner == owner
  }

  predicate Reserved(t: Tables, id: VersionId, suite: Suite, owner: string, expires: nat) {
    (id, suite) in t.reservations && t.reservations[(id, suite)] == Reservation(owner, expires)
  }

  /** While it lasts, nobody but its owner moves a reservation, and nobody takes it. */
  lemma ReservationStep(t: Tables, e: Adjudication.Event, id: VersionId, suite: Suite, owner: string, expires: nat)
    requires Reserved(t, id, suite, owner, expires) && e.now < expires && !EndedBy(e.txn, id, suite, owner)
    ensures Reserved(Commit(t, e.current, e.now, e.txn), id, suite, owner, Deadline(expires, [e], id, suite, owner))
  {
    assert [e][..0] == [];
  }

  lemma {:induction false} RunsStayWell(t: Tables, events: seq<Adjudication.Event>)
    requires Adjudication.RunsWell(t)
    ensures Adjudication.RunsWell(Adjudication.From(t, events))
  {
    if events != [] {
      RunsStayWell(t, events[..|events| - 1]);
      Adjudication.RunsStep(Adjudication.From(t, events[..|events| - 1]), events[|events| - 1]);
    }
  }

  lemma AliveBefore(expires: nat, events: seq<Adjudication.Event>, id: VersionId, suite: Suite, owner: string, n: nat)
    requires KeptAlive(expires, events, id, suite, owner) && n <= |events|
    ensures KeptAlive(expires, events[..n], id, suite, owner)
  {
    forall k | 0 <= k < n
      ensures events[..n][k].now < Deadline(expires, events[..n][..k], id, suite, owner)
      ensures !EndedBy(events[..n][k].txn, id, suite, owner)
    {
      assert events[..n][..k] == events[..k];
    }
  }

  /** Over any run of events of any workers, a reservation renewed in time stays its owner's. */
  lemma {:induction false} RenewedInTime(t: Tables, events: seq<Adjudication.Event>, id: VersionId, suite: Suite,
                                         owner: string, expires: nat)
    requires Reserved(t, id, suite, owner, expires) && KeptAlive(expires, events, id, suite, owner)
    ensures Reserved(Adjudication.From(t, events), id, suite, owner, Deadline(expires, events, id, suite, owner))
  {
    if events != [] {
      var n := |events| - 1;
      AliveBefore(expires, events, id, suite, owner, n);
      RenewedInTime(t, events[..n], id, suite, owner, expires);
      ReservationStep(Adjudication.From(t, events[..n]), events[n], id, suite, owner,
        Deadline(expires, events[..n], id, suite, owner));
      DeadlineStep(expires, events, id, suite, owner);
    }
  }

  lemma DeadlineStep(expires: nat, events: seq<Adjudication.Event>, id: VersionId, suite: Suite, owner: string)
    requires events != []
    ensures var n := |events| - 1;
      Deadline(expires, events, id, suite, owner)
      == Deadline(Deadline(expires, events[..n], id, suite, owner), [events[n]], id, suite, owner)
  {
    assert [events[|events| - 1]][..0] == [];
  }

  /** At the very end of it the two sides change places: before, its owner can renew and release it and a claim is
      refused; from then on a claim is granted and the owner can do nothing under it any more. */
  lemma ReservationDecides(t: Tables, events: seq<Adjudication.Event>, id: VersionId, suite: Suite, owner: string,
                           expires: nat, current: Suite, later: nat, seconds: nat, other: string, run: string,
                           complete: bool, verdict: Verdict)
    requires Reserved(t, id, suite, owner, expires) && KeptAlive(expires, events, id, suite, owner)
    requires Adjudication.RunsWell(t)
    ensures var n, end := Adjudication.From(t, events), Deadline(expires, events, id, suite, owner);
      && (Granted(n, current, later, RenewSuite(id, suite, owner, seconds)) <==> later < end)
      && (Granted(n, current, later, ReleaseSuite(id, suite, owner)) <==> later < end)
      && (Granted(n, current, later, ClaimSuite(id, suite, other, seconds)) <==> later >= end)
      && (later >= end ==> !Granted(n, current, later, InsertRun(id, suite, owner, run, complete, verdict)))
  {
    RenewedInTime(t, events, id, suite, owner, expires);
    RunsStayWell(t, events);
    EndDecides(Adjudication.From(t, events), id, suite, owner, Deadline(expires, events, id, suite, owner), current,
      later, seconds, other, run, complete, verdict);
  }

  lemma EndDecides(t: Tables, id: VersionId, suite: Suite, owner: string, end: nat, current: Suite, later: nat,
                   seconds: nat, other: string, run: string, complete: bool, verdict: Verdict)
    requires Reserved(t, id, suite, owner, end) && Adjudication.RunsWell(t)
    ensures Granted(t, current, later, RenewSuite(id, suite, owner, seconds)) <==> later < end
    ensures Granted(t, current, later, ReleaseSuite(id, suite, owner)) <==> later < end
    ensures Granted(t, current, later, ClaimSuite(id, suite, other, seconds)) <==> later >= end
    ensures later >= end ==> !Granted(t, current, later, InsertRun(id, suite, owner, run, complete, verdict))
  {
  }

  /** However long an attempt takes and whatever else happens meanwhile: if it renews in time, its append
      is refused for nothing but a run id already used. */
  lemma RenewedLeadsToRun(t: Tables, current: Suite, id: VersionId, suite: Suite, a: Attempt, claimed: nat,
                          events: seq<Adjudication.Event>, later: nat)
    requires Adjudication.RunsWell(t)
    requires Granted(t, current, claimed, ClaimSuite(id, suite, a.owner, RESERVATION_SECONDS))
    requires KeptAlive(claimed + RESERVATION_SECONDS, events, id, suite, a.owner)
    requires later < Deadline(claimed + RESERVATION_SECONDS, events, id, suite, a.owner)
    ensures var claim := ClaimSuite(id, suite, a.owner, RESERVATION_SECONDS);
      var end := Adjudication.From(Commit(t, current, claimed, claim), events);
      Granted(end, current, later, Appending(id, suite, a)) <==> forall q :: q in end.runs ==> q.id != a.run
  {
    var claim := ClaimSuite(id, suite, a.owner, RESERVATION_SECONDS);
    var booked := Commit(t, current, claimed, claim);
    Adjudication.RunsStep(t, Adjudication.Event(claim, claimed, current));
    RenewedInTime(booked, events, id, suite, a.owner, claimed + RESERVATION_SECONDS);
    RunsStayWell(booked, events);
    var deadline := Deadline(claimed + RESERVATION_SECONDS, events, id, suite, a.owner);
    ReservedCanAppend(Adjudication.From(booked, events), current, id, suite, a, deadline, later);
  }

  lemma ReservedCanAppend(t: Tables, current: Suite, id: VersionId, suite: Suite, a: Attempt, expires: nat, later: nat)
    requires Adjudication.RunsWell(t) && Reserved(t, id, suite, a.owner, expires) && later < expires
    ensures Granted(t, current, later, Appending(id, suite, a)) <==> forall q :: q in t.runs ==> q.id != a.run
  {
    var (verdict, complete) := ReduceVerdict(ReportOf(a));
    Adjudication.UniquenessUnreachable(t, id, suite, a.run, complete, verdict);
    OwnerCanInsert(t, current, id, suite, a.owner, a.run, complete, verdict, expires, later);
  }

  lemma OwnerCanInsert(t: Tables, current: Suite, id: VersionId, suite: Suite, owner: string, run: string,
                       complete: bool, verdict: Verdict, expires: nat, later: nat)
    requires Reserved(t, id, suite, owner, expires) && later < expires
    requires Violates(t.runs, NewRun(t.runs, id, suite, run, complete, verdict)) <==>
      exists q :: q in t.runs && q.id == run
    ensures Granted(t, current, later, InsertRun(id, suite, owner, run, complete, verdict)) <==>
      forall q :: q in t.runs ==> q.id != run
  {
    assert Owns(t, id, suite, owner, later);
  }
}
