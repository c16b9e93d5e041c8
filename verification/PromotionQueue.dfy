/** The durable promotion queue and the singleton discovery lease that fences it
    (adapters/storage/sqlite_opportunities.py:325-523, adapters/storage/sqlite_discovery.py:283-353). */
module PromotionQueue {
  import opened Basics
  import Promotion

  datatype Stage = PendingExtraction | Extracted | PendingJudgment | Judged | FailedRow | Superseded

  datatype Mark = Mark(owner: string, fence: nat)

  /** A row is named by its place in the table. */
  datatype QueueRow = QueueRow(
    opportunity: string, version: string, stage: Stage, enqueued: nat, epoch: nat,
    coverage: Option<int>, attempts: nat, nextRun: nat, claimed: Option<Mark>)

  /** What the queue looks up in the opportunity table. */
  datatype Opportunity = Opportunity(closed: bool, current: string)

  datatype Lease = Lease(owner: Option<string>, fence: nat, expires: Option<nat>)

  datatype Queue = Queue(rows: seq<QueueRow>, opportunities: map<string, Opportunity>)

  predicate Unfinished(s: Stage) {
    s == PendingExtraction || s == Extracted || s == PendingJudgment
  }

  predicate Follows(from: Stage, to: Stage) {
    (from == PendingExtraction && to == Extracted) || (from == Extracted && to == PendingJudgment)
    || (from == PendingJudgment && to == Judged)
  }

  // ----- the lease -----

  predicate Free(l: Lease, now: nat) {
    l.owner.None? || l.expires.None? || l.expires.value < now
  }

  predicate HeldBy(l: Lease, owner: string, fence: nat, now: nat) {
    l.owner == Some(owner) && l.fence == fence && l.expires.Some? && l.expires.value >= now
  }

  function Acquired(l: Lease, owner: string, expires: nat): Lease {
    Lease(Some(owner), l.fence + 1, Some(expires))
  }

  function Cleared(l: Lease): Lease {
    l.(owner := None, expires := None)
  }

  class DiscoveryLease {
    var lease: Lease

    constructor ()
      ensures lease == Lease(None, 0, None)
    {
      lease := Lease(None, 0, None);
    }

    /** One conditional update: the new fence, or nothing if it is not free. */
    method Acquire(owner: string, seconds: nat, now: nat) returns (fence: Option<nat>)
      modifies this
      ensures fence.Some? <==> Free(old(lease), now)
      ensures fence.Some? ==> fence.value > old(lease.fence) && HeldBy(lease, owner, fence.value, now)
      ensures lease == if Free(old(lease), now) then Acquired(old(lease), owner, now + seconds) else old(lease)
    {
      if !Free(lease, now) {
        return None;
      }
      lease := Acquired(lease, owner, now + seconds);
      return Some(lease.fence);
    }

    method Renew(owner: string, fence: nat, seconds: nat, now: nat) returns (ok: bool)
      modifies this
      ensures ok <==> HeldBy(old(lease), owner, fence, now)
      ensures lease == if ok then old(lease).(expires := Some(now + seconds)) else old(lease)
    {
      ok := HeldBy(lease, owner, fence, now);
      if ok {
        lease := lease.(expires := Some(now + seconds));
      }
    }

    /** Clear a lease that has expired, and no other. */
    method ClaimExpired(now: nat) returns (ok: bool)
      modifies this
      ensures ok <==> old(lease.owner).Some? && Free(old(lease), now)
      ensures lease == if ok then Cleared(old(lease)) else old(lease)
    {
      ok := lease.owner.Some? && Free(lease, now);
      if ok {
        lease := Cleared(lease);
      }
    }

    method Release(owner: string)
      modifies this
      ensures lease == if old(lease.owner) == Some(owner) then Cleared(old(lease)) else old(lease)
    {
      if lease.owner == Some(owner) {
        lease := Cleared(lease);
      }
    }
  }

  // ----- the queue -----

  /** COALESCE(MAX(enqueue_seq), 0) */
  function LastEnqueued(rows: seq<QueueRow>): (n: nat)
    ensures forall k :: 0 <= k < |rows| ==> rows[k].enqueued <= n
  {
    if rows == [] then 0
    else
      var before, last := LastEnqueued(rows[..|rows| - 1]), rows[|rows| - 1].enqueued;
      assert forall k :: 0 <= k < |rows| - 1 ==> rows[k] == rows[..|rows| - 1][k];
      if last > before then last else before
  }

  predicate SameKey(r: QueueRow, opportunity: string, version: string, epoch: nat) {
    r.opportunity == opportunity && r.version == version && r.epoch == epoch
  }

  predicate Enqueued(rows: seq<QueueRow>, opportunity: string, version: string, epoch: nat) {
    exists k :: 0 <= k < |rows| && SameKey(rows[k], opportunity, version, epoch)
  }

  function NewRow(rows: seq<QueueRow>, opportunity: string, version: string, epoch: nat): QueueRow {
    QueueRow(opportunity, version, PendingExtraction, LastEnqueued(rows) + 1, epoch, None, 0, 0, None)
  }

  /** The row still pins the current version of an opportunity that is not closed. */
  predicate Pinned(q: Queue, r: QueueRow) {
    && r.opportunity in q.opportunities
    && !q.opportunities[r.opportunity].closed
    && q.opportunities[r.opportunity].current == r.version
  }

  predicate Workable(q: Queue, k: nat) {
    k < |q.rows| && Unfinished(q.rows[k].stage)
  }

  /** Not claimed, claimed under an older fence, or by this very claimant. */
  predicate Claimable(r: QueueRow, m: Mark) {
    r.claimed.None? || r.claimed.value.fence < m.fence || r.claimed.value == m
  }

  predicate ClaimGranted(q: Queue, k: nat, epoch: nat, m: Mark) {
    Workable(q, k) && Pinned(q, q.rows[k]) && q.rows[k].epoch >= epoch && Claimable(q.rows[k], m)
  }

  function Put(q: Queue, k: nat, r: QueueRow): Queue
    requires k < |q.rows|
  {
    q.(rows := q.rows[k := r])
  }

  /** A claim marks the row, supersedes a stale one, or does nothing. */
  function Claiming(q: Queue, k: nat, epoch: nat, m: Mark): Queue {
    if !Workable(q, k) then q
    else if !Pinned(q, q.rows[k]) || q.rows[k].epoch < epoch then Put(q, k, q.rows[k].(stage := Superseded))
    else if Claimable(q.rows[k], m) then Put(q, k, q.rows[k].(claimed := Some(m)))
    else q
  }

  predicate MayTransition(q: Queue, k: nat, to: Stage, coverage: Option<int>) {
    k < |q.rows| && Follows(q.rows[k].stage, to) && (to == Extracted ==> coverage.Some?)
  }

  function Transitioned(q: Queue, k: nat, to: Stage, coverage: Option<int>): Queue
    requires k < |q.rows|
  {
    var r := q.rows[k];
    Put(q, k, r.(stage := to, coverage := if coverage.Some? then coverage else r.coverage, attempts := 0))
  }

  function Released(r: QueueRow, run: nat): QueueRow
    requires r.attempts < Promotion.MAX_ATTEMPTS
  {
    match Promotion.RetryOutcome(r.attempts, run)
    case GiveUp => r.(stage := FailedRow, attempts := r.attempts + 1)
    case RetryAt(next) => r.(attempts := r.attempts + 1, nextRun := next)
  }

  function Retried(r: QueueRow, run: nat): QueueRow {
    r.(stage := PendingExtraction, attempts := 0, nextRun := run)
  }

  /** Unfinished rows that meet a condition are superseded. */
  function Swept(rows: seq<QueueRow>, stale: QueueRow -> bool): seq<QueueRow> {
    seq(|rows|, k requires 0 <= k < |rows| => SweptRow(rows[k], stale))
  }

  function SweptRow(r: QueueRow, stale: QueueRow -> bool): QueueRow {
    if Unfinished(r.stage) && stale(r) then r.(stage := Superseded) else r
  }

  class PromotionQueueRepository {
    var rows: seq<QueueRow>
    var opportunities: map<string, Opportunity>

    constructor ()
      ensures State() == Queue([], map[])
    {
      rows, opportunities := [], map[];
    }

    function State(): Queue
      reads this
    {
      Queue(rows, opportunities)
    }

    /** Survivors of a later run merge by their key. */
    method Enqueue(opportunity: string, version: string, epoch: nat) returns (k: nat)
      modifies this`rows
      ensures k < |rows| && SameKey(rows[k], opportunity, version, epoch)
      ensures rows == if Enqueued(old(rows), opportunity, version, epoch) then old(rows)
                      else old(rows) + [NewRow(old(rows), opportunity, version, epoch)]
    {
      for i := 0 to |rows|
        invariant rows == old(rows)
        invariant forall j :: 0 <= j < i ==> !SameKey(rows[j], opportunity, version, epoch)
      {
        if SameKey(rows[i], opportunity, version, epoch) {
          return i;
        }
      }
      rows := rows + [NewRow(rows, opportunity, version, epoch)];
      return |rows| - 1;
    }

    /** Re-check the pin and the epoch given: a stale row is superseded, never worked. */
    method Recheck(k: nat, epoch: nat) returns (row: Option<QueueRow>)
      requires k < |rows| ==> rows[k].opportunity in opportunities
      modifies this`rows
      ensures row.Some? <==>
        Workable(old(State()), k) && Pinned(old(State()), old(rows)[k]) && old(rows)[k].epoch >= epoch
      ensures row.Some? ==> rows == old(rows) && row.value == rows[k]
      ensures row.None? ==>
        rows == if Workable(old(State()), k) then old(rows)[k := old(rows)[k].(stage := Superseded)] else old(rows)
    {
      if !Workable(State(), k) {
        return None;
      }
      var opp := opportunities[rows[k].opportunity];
      if opp.closed || opp.current != rows[k].version {
        rows := rows[k := rows[k].(stage := Superseded)];
        return None;
      }
      if rows[k].epoch < epoch {
        rows := rows[k := rows[k].(stage := Superseded)];
        return None;
      }
      return Some(rows[k]);
    }

    /** Under an owner and a fence the claim is exclusive; without them it only re-checks. */
    method Claim(k: nat, epoch: nat, m: Option<Mark>) returns (r: Option<QueueRow>)
      requires k < |rows| ==> rows[k].opportunity in opportunities
      modifies this`rows
      ensures m.Some? ==> State() == Claiming(old(State()), k, epoch, m.value)
      ensures m.Some? ==> (r.Some? <==> ClaimGranted(old(State()), k, epoch, m.value))
      ensures r.Some? ==> k < |rows| && r.value == rows[k]
      ensures r.Some? && m.Some? ==> rows[k] == old(rows)[k].(claimed := m)
      ensures m.None? ==>
        (r.Some? <==> Workable(old(State()), k) && Pinned(old(State()), old(rows)[k]) && old(rows)[k].epoch >= epoch)
      ensures m.None? ==>
        rows ==
          if r.None? && Workable(old(State()), k) then old(rows)[k := old(rows)[k].(stage := Superseded)]
          else old(rows)
    {
      r := Recheck(k, epoch);
      if r.None? || m.None? {
        return;
      }
      if !Claimable(r.value, m.value) {
        return None;
      }
      rows := rows[k := r.value.(claimed := m)];
      return Some(rows[k]);
    }

    method Transition(k: nat, to: Stage, coverage: Option<int>) returns (ok: bool)
      modifies this`rows
      ensures ok <==> MayTransition(old(State()), k, to, coverage)
      ensures State() == if ok then Transitioned(old(State()), k, to, coverage) else old(State())
    {
      ok := k < |rows| && Follows(rows[k].stage, to) && (to == Extracted ==> coverage.Some?);
      if ok {
        var row := rows[k];
        var measured := if coverage.Some? then coverage else row.coverage;
        rows := rows[k := row.(stage := to, coverage := measured, attempts := 0)];
      }
    }

    method ReleaseFailed(k: nat, run: nat) returns (ok: bool)
      requires k < |rows| && Unfinished(rows[k].stage) ==> rows[k].attempts < Promotion.MAX_ATTEMPTS
      modifies this`rows
      ensures ok <==> Workable(old(State()), k)
      ensures ok ==> rows == old(rows)[k := Released(old(rows)[k], run)]
      ensures !ok ==> rows == old(rows)
    {
      ok := Workable(State(), k);
      if ok {
        var row := rows[k];
        match Promotion.RetryOutcome(row.attempts, run)
        case GiveUp => rows := rows[k := row.(stage := FailedRow, attempts := row.attempts + 1)];
        case RetryAt(next) => rows := rows[k := row.(attempts := row.attempts + 1, nextRun := next)];
      }
    }

    /** The explicit retry after remediation. */
    method RetryFailed(k: nat, run: nat) returns (ok: bool)
      modifies this`rows
      ensures ok <==> k < |old(rows)| && old(rows)[k].stage == FailedRow
      ensures rows == if ok then old(rows)[k := Retried(old(rows)[k], run)] else old(rows)
    {
      ok := k < |rows| && rows[k].stage == FailedRow;
      if ok {
        rows := rows[k := Retried(rows[k], run)];
      }
    }

    method Sweep(stale: QueueRow -> bool) returns (count: nat)
      modifies this`rows
      ensures rows == Swept(old(rows), stale)
      ensures count == 0 <==> rows == old(rows)
    {
      count := 0;
      ghost var before := rows;
      for i := 0 to |rows|
        invariant |rows| == |before| && 0 <= count
        invariant forall k :: 0 <= k < i ==> rows[k] == SweptRow(before[k], stale)
        invariant forall k :: i <= k < |rows| ==> rows[k] == before[k]
        invariant count == 0 <==> rows == before
      {
        if Unfinished(rows[i].stage) && stale(rows[i]) {
          rows := rows[i := rows[i].(stage := Superseded)];
          count := count + 1;
          assert rows[i] != before[i];
        }
      }
    }
  }
}
