/** What each operation of the queue does to a row, in plain numbers and stages, and what that comes to over runs: the
    way a row takes, the coverage it carries, and a run's lease that lasts as long as it is renewed
    (adapters/storage/sqlite_opportunities.py:352-523; adapters/storage/sqlite_discovery.py:291-353;
    packages/domain/promotion.py:13-15, 74-81). */
module QueueOutcomes {
  import opened Basics
  import opened PromotionQueue
  import opened QueueRuns

  // ----- one operation at a time -----

  /** The four stages of a row's work, in order. */
  predicate NextStage(from: Stage, to: Stage) {
    || (from == PendingExtraction && to == Extracted)
    || (from == Extracted && to == PendingJudgment)
    || (from == PendingJudgment && to == Judged)
  }

  predicate AtWork(r: QueueRow) {
    r.stage == PendingExtraction || r.stage == Extracted || r.stage == PendingJudgment
  }

  /** Only row k is touched, and of it only what n says. */
  predicate Becomes(a: seq<QueueRow>, b: seq<QueueRow>, k: nat, n: QueueRow) {
    k < |a| == |b| && b[k] == n && forall j :: 0 <= j < |a| && j != k ==> b[j] == a[j]
  }

  /** The row pins the current version of an opportunity that is open, or open again. */
  predicate PinsCurrent(q: Queue, r: QueueRow) {
    && r.opportunity in q.opportunities && q.opportunities[r.opportunity].current == r.version
    && q.opportunities[r.opportunity].closed == false
  }

  /** Nobody's, of an earlier fence, or the claimant's own already. */
  predicate FreeFor(r: QueueRow, m: Mark) {
    r.claimed == None || r.claimed.value.fence < m.fence || r.claimed.value == m
  }

  /** A claim takes a row at work out of the queue if it is stale, marks it if it is free, and is refused otherwise;
      it is recorded exactly when the row is marked. */
  lemma ClaimDoes(w: World, m: Mark, k: nat, epoch: nat)
    requires HeldBy(w.lease, m.owner, m.fence, w.now) && k < |w.queue.rows|
    ensures var r, n := w.queue.rows[k], Next(w, Fenced(m, Claim(k, epoch)));
      if AtWork(r) && (!PinsCurrent(w.queue, r) || r.epoch < epoch) then
        Becomes(w.queue.rows, n.queue.rows, k, r.(stage := Superseded)) && n.claims == w.claims
      else if AtWork(r) && FreeFor(r, m) then
        Becomes(w.queue.rows, n.queue.rows, k, r.(claimed := Some(m))) && n.claims == w.claims + [Claimed(k, m)]
      else n == w
  {
  }

  /** Without the lease nothing is written. */
  lemma NotServed(w: World, m: Mark, x: Write)
    requires w.lease.owner != Some(m.owner) || w.lease.fence != m.fence || w.lease.expires == None
          || w.lease.expires.value < w.now
    ensures Next(w, Fenced(m, x)) == w
  {
  }

  /** A transition along the stages takes the coverage given with it, and starts the stage with no failure; one
      without coverage keeps what was measured. */
  lemma TransitionDoes(w: World, m: Mark, k: nat, to: Stage, coverage: Option<int>)
    requires HeldBy(w.lease, m.owner, m.fence, w.now) && k < |w.queue.rows|
    requires NextStage(w.queue.rows[k].stage, to) && (to == Extracted ==> coverage.Some?)
    ensures var r := w.queue.rows[k];
      Becomes(w.queue.rows, Next(w, Fenced(m, Transition(k, to, coverage))).queue.rows, k,
        QueueRow(r.opportunity, r.version, to, r.enqueued, r.epoch,
          if coverage == None then r.coverage else coverage, 0, r.nextRun, r.claimed))
  {
  }

  /** The first failure is retried one run later, the second two, and the third is the last. */
  lemma FailureDoes(w: World, m: Mark, k: nat, run: nat)
    requires HeldBy(w.lease, m.owner, m.fence, w.now) && k < |w.queue.rows| && AtWork(w.queue.rows[k])
    requires w.queue.rows[k].attempts <= 2
    ensures var r := w.queue.rows[k];
      Becomes(w.queue.rows, Next(w, Fenced(m, ReleaseFailed(k, run))).queue.rows, k,
        if r.attempts == 0 then r.(attempts := 1, nextRun := run + 1)
        else if r.attempts == 1 then r.(attempts := 2, nextRun := run + 2)
        else r.(attempts := 3, stage := FailedRow))
  {
  }

  /** A retry starts the row over, claimable from this run on, under its old number. */
  lemma RetryDoes(w: World, k: nat, run: nat)
    requires k < |w.queue.rows| && w.queue.rows[k].stage == FailedRow
    ensures Becomes(w.queue.rows, Next(w, RetryFailed(k, run)).queue.rows, k,
      w.queue.rows[k].(stage := PendingExtraction, attempts := 0, nextRun := run))
  {
  }

  /** A closure cancels every row at work on the opportunity; a new version those that pin another. Nothing else
      changes. */
  lemma SupersedeDoes(w: World, id: string, current: Option<string>, k: nat)
    requires k < |w.queue.rows|
    ensures var r, rows := w.queue.rows[k], Next(w, SupersedeFor(id, current)).queue.rows;
      && |rows| == |w.queue.rows|
      && rows[k] ==
           if AtWork(r) && r.opportunity == id && (current == None || Some(r.version) != current)
           then r.(stage := Superseded) else r
  {
  }

  /** A sweep supersedes the rows at work of an earlier epoch, and no others. */
  lemma SweepDoes(w: World, epoch: nat, k: nat)
    requires k < |w.queue.rows|
    ensures var r, rows := w.queue.rows[k], Next(w, SupersedeBefore(epoch)).queue.rows;
      |rows| == |w.queue.rows| && rows[k] == if AtWork(r) && r.epoch < epoch then r.(stage := Superseded) else r
  {
  }

  /** A new row waits for extraction, unclaimed, behind every other. */
  lemma EnqueueDoes(w: World, m: Mark, opportunity: string, version: string, epoch: nat)
    requires HeldBy(w.lease, m.owner, m.fence, w.now) && opportunity in w.queue.opportunities && epoch <= w.epoch
    requires forall k :: 0 <= k < |w.queue.rows| ==>
      w.queue.rows[k].opportunity != opportunity || w.queue.rows[k].version != version || w.queue.rows[k].epoch != epoch
    ensures var rows := Next(w, Fenced(m, Enqueue(opportunity, version, epoch))).queue.rows;
      && |rows| == |w.queue.rows| + 1 && rows[..|w.queue.rows|] == w.queue.rows
      && (forall k :: 0 <= k < |w.queue.rows| ==> rows[k].enqueued < rows[|w.queue.rows|].enqueued)
      && rows[|w.queue.rows|].(enqueued := 0)
           == QueueRow(opportunity, version, PendingExtraction, 0, epoch, None, 0, 0, None)
  {
    var row := NewRow(w.queue.rows, opportunity, version, epoch);
    assert Next(w, Fenced(m, Enqueue(opportunity, version, epoch))).queue.rows == w.queue.rows + [row];
  }

  // ----- the way a row takes -----

  /** What brings a row from one stage to another. */
  ghost predicate Moves(w: World, s: Step, k: nat, from: Stage, to: Stage)
    requires k < |w.queue.rows|
  {
    match s
    case Fenced(m, Transition(j, t, coverage)) =>
      j == k && t == to && NextStage(from, to) && (to == Extracted ==> coverage.Some?)
    case Fenced(m, ReleaseFailed(j, run)) =>
      j == k && to == FailedRow && AtWork(w.queue.rows[k]) && w.queue.rows[k].attempts == 2
    case Fenced(m, Claim(j, epoch)) =>
      j == k && to == Superseded && AtWork(w.queue.rows[k])
      && (!Pinned(w.queue, w.queue.rows[k]) || w.queue.rows[k].epoch < epoch)
    case SupersedeFor(id, current) =>
      to == Superseded && AtWork(w.queue.rows[k]) && w.queue.rows[k].opportunity == id
      && (current == None || Some(w.queue.rows[k].version) != current)
    case SupersedeBefore(epoch) => to == Superseded && AtWork(w.queue.rows[k]) && w.queue.rows[k].epoch < epoch
    case RetryFailed(j, run) => j == k && from == FailedRow && to == PendingExtraction
    case _ => false
  }

  /** A row changes its stage in these ways only: along the stages, to failure on the third attempt, out of the queue
      when it is stale, and back to its start on an explicit retry. */
  lemma StageMoves(w: World, s: Step, k: nat)
    requires Inv(w) && k < |w.queue.rows|
    ensures k < |Next(w, s).queue.rows|
    ensures var from, to := w.queue.rows[k].stage, Next(w, s).queue.rows[k].stage;
      from != to ==> Moves(w, s, k, from, to) && (s.Fenced? ==> HeldBy(w.lease, s.mark.owner, s.mark.fence, w.now))
  {
    assert RowWell(w.queue.rows[k], w.lease.fence, w.epoch, w.queue.opportunities);
  }

  /** The coverage given with the latest transition of the row that carried one. */
  ghost function CoverageGiven(w: World, steps: seq<Step>, k: nat): Option<int> {
    if steps == [] then if k < |w.queue.rows| then w.queue.rows[k].coverage else None
    else
      var before, s := RunFrom(w, steps[..|steps| - 1]), steps[|steps| - 1];
      if Measures(before, s, k) then s.write.coverage else CoverageGiven(w, steps[..|steps| - 1], k)
  }

  /** A transition of this row that takes effect and carries a measurement. */
  ghost predicate Measures(w: World, s: Step, k: nat) {
    && s.Fenced? && s.write.Transition? && s.write.row == k && s.write.coverage.Some?
    && HeldBy(w.lease, s.mark.owner, s.mark.fence, w.now)
    && k < |w.queue.rows| && NextStage(w.queue.rows[k].stage, s.write.to)
  }

  lemma CoverageStep(w: World, s: Step, k: nat)
    requires k < |Next(w, s).queue.rows|
    ensures Next(w, s).queue.rows[k].coverage ==
      if Measures(w, s, k) then s.write.coverage
      else if k < |w.queue.rows| then w.queue.rows[k].coverage else None
  {
  }

  /** Over any run a row has the coverage its latest measuring transition gave it: after an extraction, what was
      extracted. */
  lemma {:induction false} CoverageIsGiven(w: World, steps: seq<Step>, k: nat)
    requires k < |RunFrom(w, steps).queue.rows|
    ensures RunFrom(w, steps).queue.rows[k].coverage == CoverageGiven(w, steps, k)
  {
    if steps != [] {
      var before := RunFrom(w, steps[..|steps| - 1]);
      CoverageStep(before, steps[|steps| - 1], k);
      if k < |before.queue.rows| {
        CoverageIsGiven(w, steps[..|steps| - 1], k);
      } else {
        NoneGiven(w, steps[..|steps| - 1], k);
      }
    }
  }

  lemma {:induction false} NoneGiven(w: World, steps: seq<Step>, k: nat)
    requires k >= |RunFrom(w, steps).queue.rows|
    ensures CoverageGiven(w, steps, k) == None
  {
    if steps != [] {
      StepRowsOn(RunFrom(w, steps[..|steps| - 1]), steps[|steps| - 1]);
      NoneGiven(w, steps[..|steps| - 1], k);
    }
  }

  // ----- the lease of a run -----

  /** The lease of this owner under this fence, with this end. */
  predicate RunLease(w: World, m: Mark, expires: nat) {
    w.lease == Lease(Some(m.owner), m.fence, Some(expires))
  }

  /** When the lease is over: so many seconds after the latest renewal. */
  ghost function RunLeaseEnd(w: World, expires: nat, steps: seq<Step>, m: Mark): nat {
    if steps == [] then expires
    else
      var before, s := RunFrom(w, steps[..|steps| - 1]), steps[|steps| - 1];
      if s.Renew? && s.mark == m then before.now + s.seconds else RunLeaseEnd(w, expires, steps[..|steps| - 1], m)
  }

  /** No step comes after the lease is over, and the owner does not give it up. */
  ghost predicate RenewedThroughout(w: World, expires: nat, steps: seq<Step>, m: Mark) {
    forall k :: 0 <= k < |steps| ==>
      RunFrom(w, steps[..k]).now <= RunLeaseEnd(w, expires, steps[..k], m) && steps[k] != Release(m.owner)
  }

  /** An acquisition comes with a lease for so many seconds, under a fence of its own. */
  lemma AcquireDoes(w: World, owner: string, seconds: nat)
    requires w.lease.owner == None || w.lease.expires == None || w.lease.expires.value < w.now
    ensures RunLease(Next(w, Acquire(owner, seconds)), Mark(owner, w.lease.fence + 1), w.now + seconds)
  {
  }

  lemma RunLeaseStep(w: World, s: Step, m: Mark, expires: nat)
    requires RunLease(w, m, expires) && w.now <= expires && s != Release(m.owner)
    ensures RunLease(Next(w, s), m, if s.Renew? && s.mark == m then w.now + s.seconds else expires)
  {
  }

  /** Over any run: a lease renewed each time before it is over stays its owner's, under the same fence. */
  lemma {:induction false} RunLeaseLasts(w: World, steps: seq<Step>, m: Mark, expires: nat)
    requires RunLease(w, m, expires) && RenewedThroughout(w, expires, steps, m)
    ensures RunLease(RunFrom(w, steps), m, RunLeaseEnd(w, expires, steps, m))
  {
    if steps != [] {
      var n := |steps| - 1;
      forall k | 0 <= k < n
        ensures RunFrom(w, steps[..n][..k]).now <= RunLeaseEnd(w, expires, steps[..n][..k], m)
        ensures steps[..n][k] != Release(m.owner)
      {
        assert steps[..n][..k] == steps[..k];
      }
      RunLeaseLasts(w, steps[..n], m, expires);
      RunLeaseStep(RunFrom(w, steps[..n]), steps[n], m, RunLeaseEnd(w, expires, steps[..n], m));
    }
  }

  /** So the owner's writes are served up to the end of its lease, and anyone else is admitted from right after it. */
  lemma RunLeaseDecides(w: World, steps: seq<Step>, m: Mark, expires: nat, later: nat)
    requires RunLease(w, m, expires) && RenewedThroughout(w, expires, steps, m)
    ensures var lease, end := RunFrom(w, steps).lease, RunLeaseEnd(w, expires, steps, m);
      && (HeldBy(lease, m.owner, m.fence, later) <==> later <= end)
      && (Free(lease, later) <==> later > end)
  {
    RunLeaseLasts(w, steps, m, expires);
  }

  /** Given up by its owner, or found over. */
  predicate GivesUp(w: World, s: Step) {
    || (s.Release? && w.lease.owner == Some(s.owner))
    || (s.ClaimExpired? && w.lease.owner.Some? && (w.lease.expires == None || w.lease.expires.value < w.now))
  }

  /** A lease that is given up is nobody's from then on, until the next acquisition; the fence stays as it was. */
  lemma {:induction false} GivenUpStays(w: World, s: Step, more: seq<Step>)
    requires GivesUp(w, s) && forall k :: 0 <= k < |more| ==> !more[k].Acquire?
    ensures RunFrom(Next(w, s), more).lease == Lease(None, w.lease.fence, None)
  {
    if more != [] {
      GivenUpStays(w, s, more[..|more| - 1]);
    }
  }
}
