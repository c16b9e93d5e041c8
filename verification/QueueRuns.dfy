/** Any number of discovery runs over one lease and one queue, with the clock, closures, new versions and
    epoch bumps in between. */
module QueueRuns {
  import opened Basics
  import opened PromotionQueue
  import Promotion

  /** acquired: the owner of each acquisition, in order. claims: every claim granted, in order. */
  datatype World = World(
    lease: Lease, queue: Queue, epoch: nat, now: nat, acquired: seq<string>, claims: seq<Claimed>)

  datatype Claimed = Claimed(row: nat, mark: Mark)

  const START := World(Lease(None, 0, None), Queue([], map[]), 0, 0, [], [])

  datatype Step =
    | Tick(seconds: nat)
    | BumpEpoch
    | SetOpportunity(id: string, opportunity: Opportunity)
    | Acquire(owner: string, seconds: nat)
    | Renew(mark: Mark, seconds: nat)
    | ClaimExpired
    | Release(owner: string)
    | Fenced(mark: Mark, write: Write)  // a transition inside a transaction that re-checks the fence
    | RetryFailed(row: nat, run: nat)
    | SupersedeFor(id: string, current: Option<string>)
    | SupersedeBefore(epoch: nat)

  /** `epoch` is the one read when the run started. */
  datatype Write =
    | Enqueue(opportunity: string, version: string, epoch: nat)
    | Claim(row: nat, epoch: nat)
    | Transition(row: nat, to: Stage, coverage: Option<int>)
    | ReleaseFailed(row: nat, run: nat)

  function StaleFor(id: string, current: Option<string>): QueueRow -> bool {
    (r: QueueRow) => r.opportunity == id && (current.None? || r.version != current.value)
  }

  function WithRows(w: World, rows: seq<QueueRow>): World {
    w.(queue := w.queue.(rows := rows))
  }

  ghost function Written(w: World, m: Mark, x: Write): World {
    match x
    case Enqueue(opportunity, version, epoch) =>
      if Enqueued(w.queue.rows, opportunity, version, epoch) || opportunity !in w.queue.opportunities || epoch > w.epoch
      then w
      else WithRows(w, w.queue.rows + [NewRow(w.queue.rows, opportunity, version, epoch)])
    case Claim(k, epoch) =>
      var n := w.(queue := Claiming(w.queue, k, epoch, m));
      if ClaimGranted(w.queue, k, epoch, m) then n.(claims := w.claims + [Claimed(k, m)]) else n
    case Transition(k, to, coverage) =>
      if MayTransition(w.queue, k, to, coverage) then w.(queue := Transitioned(w.queue, k, to, coverage)) else w
    case ReleaseFailed(k, run) =>
      if Workable(w.queue, k) && w.queue.rows[k].attempts < Promotion.MAX_ATTEMPTS
      then WithRows(w, w.queue.rows[k := Released(w.queue.rows[k], run)]) else w
  }

  ghost function Next(w: World, s: Step): World {
    match s
    case Tick(seconds) => w.(now := w.now + seconds)
    case BumpEpoch => w.(epoch := w.epoch + 1)
    case SetOpportunity(id, o) => w.(queue := w.queue.(opportunities := w.queue.opportunities[id := o]))
    case Acquire(owner, seconds) =>
      if Free(w.lease, w.now)
      then w.(lease := Acquired(w.lease, owner, w.now + seconds), acquired := w.acquired + [owner])
      else w
    case Renew(m, seconds) =>
      if HeldBy(w.lease, m.owner, m.fence, w.now) then w.(lease := w.lease.(expires := Some(w.now + seconds))) else w
    case ClaimExpired => if w.lease.owner.Some? && Free(w.lease, w.now) then w.(lease := Cleared(w.lease)) else w
    case Release(owner) => if w.lease.owner == Some(owner) then w.(lease := Cleared(w.lease)) else w
    case Fenced(m, x) => if HeldBy(w.lease, m.owner, m.fence, w.now) then Written(w, m, x) else w
    case RetryFailed(k, run) =>
      if k < |w.queue.rows| && w.queue.rows[k].stage == FailedRow
      then WithRows(w, w.queue.rows[k := Retried(w.queue.rows[k], run)]) else w
    case SupersedeFor(id, current) => WithRows(w, Swept(w.queue.rows, StaleFor(id, current)))
    case SupersedeBefore(epoch) => WithRows(w, Swept(w.queue.rows, (r: QueueRow) => r.epoch < epoch))
  }

  ghost function RunFrom(w: World, steps: seq<Step>): World {
    if steps == [] then w else Next(RunFrom(w, steps[..|steps| - 1]), steps[|steps| - 1])
  }

  // ----- what holds of every row -----

  predicate RowWell(r: QueueRow, fence: nat, epoch: nat, opportunities: map<string, Opportunity>) {
    && (Unfinished(r.stage) ==> r.attempts < Promotion.MAX_ATTEMPTS)
    && (r.stage == Extracted || r.stage == PendingJudgment || r.stage == Judged ==> r.coverage.Some?)
    && (r.claimed.Some? ==> 1 <= r.claimed.value.fence <= fence)
    && r.epoch <= epoch
    && r.opportunity in opportunities
  }

  /** Fences number the acquisitions; the holder is the last to have acquired. */
  predicate LeaseWell(w: World) {
    && w.lease.fence == |w.acquired|
    && (w.lease.owner.Some? ==> w.acquired != [] && w.acquired[|w.acquired| - 1] == w.lease.owner.value)
  }

  /** Every claim ever granted was made by the owner of its fence, and the row's mark is the latest. */
  ghost predicate ClaimsWell(w: World) {
    && (forall c :: c in w.claims ==> ClaimWell(w, c))
    && (forall i, j :: 0 <= i < j < |w.claims| && w.claims[i].row == w.claims[j].row ==>
          w.claims[i].mark.fence <= w.claims[j].mark.fence)
  }

  predicate ClaimWell(w: World, c: Claimed) {
    && c.row < |w.queue.rows|
    && 1 <= c.mark.fence <= |w.acquired| && w.acquired[c.mark.fence - 1] == c.mark.owner
    && w.queue.rows[c.row].claimed.Some? && c.mark.fence <= w.queue.rows[c.row].claimed.value.fence
  }

  predicate SameKeys(a: QueueRow, b: QueueRow) {
    SameKey(a, b.opportunity, b.version, b.epoch)
  }

  /** The later mark is the same one, or of a later fence. */
  predicate MarkOn(a: Option<Mark>, b: Option<Mark>) {
    a.Some? ==> b.Some? && (a == b || a.value.fence < b.value.fence)
  }

  /** What a step leaves of a row there was: identity, age, and a mark that only moves to later fences. */
  predicate RowOn(a: QueueRow, b: QueueRow) {
    && b.opportunity == a.opportunity && b.version == a.version && b.epoch == a.epoch && b.enqueued == a.enqueued
    && MarkOn(a.claimed, b.claimed)
  }

  ghost predicate RowsOn(a: seq<QueueRow>, b: seq<QueueRow>) {
    |a| <= |b| && forall k :: 0 <= k < |a| ==> RowOn(a[k], b[k])
  }

  lemma StepRowsOn(w: World, s: Step)
    ensures RowsOn(w.queue.rows, Next(w, s).queue.rows)
  {
  }

  lemma LeaseStep(w: World, s: Step)
    requires LeaseWell(w)
    ensures LeaseWell(Next(w, s))
    ensures w.acquired <= Next(w, s).acquired && w.lease.fence <= Next(w, s).lease.fence
    ensures w.epoch <= Next(w, s).epoch && w.queue.opportunities.Keys <= Next(w, s).queue.opportunities.Keys
  {
  }

  ghost predicate RowsWell(w: World) {
    forall k :: 0 <= k < |w.queue.rows| ==> RowWell(w.queue.rows[k], w.lease.fence, w.epoch, w.queue.opportunities)
  }

  lemma WrittenRowsWell(w: World, m: Mark, x: Write)
    requires RowsWell(w) && 1 <= m.fence <= w.lease.fence
    ensures RowsWell(Written(w, m, x))
  {
  }

  lemma RowsStep(w: World, s: Step)
    requires LeaseWell(w) && RowsWell(w)
    ensures RowsWell(Next(w, s))
  {
    if s.Fenced? && HeldBy(w.lease, s.mark.owner, s.mark.fence, w.now) {
      WrittenRowsWell(w, s.mark, s.write);
    }
  }

  ghost predicate KeysWell(rows: seq<QueueRow>) {
    && (forall j, k :: 0 <= j < k < |rows| ==> rows[j].enqueued < rows[k].enqueued)
    && (forall j, k :: 0 <= j < k < |rows| ==> !SameKeys(rows[j], rows[k]))
  }

  lemma KeysKept(a: seq<QueueRow>, b: seq<QueueRow>)
    requires KeysWell(a) && |a| == |b| && RowsOn(a, b)
    ensures KeysWell(b)
  {
    forall j, k | 0 <= j < k < |b| ensures b[j].enqueued < b[k].enqueued && !SameKeys(b[j], b[k]) {
      assert RowOn(a[j], b[j]) && RowOn(a[k], b[k]);
      assert !SameKeys(a[j], a[k]);
    }
  }

  /** A new row is younger than every other and has a key of its own. */
  lemma KeysStep(w: World, s: Step)
    requires KeysWell(w.queue.rows)
    ensures KeysWell(Next(w, s).queue.rows)
  {
    var a, b := w.queue.rows, Next(w, s).queue.rows;
    StepRowsOn(w, s);
    if |a| == |b| {
      KeysKept(a, b);
    } else {
      var x := s.write;
      assert b == a + [NewRow(a, x.opportunity, x.version, x.epoch)];
      assert !Enqueued(a, x.opportunity, x.version, x.epoch);
    }
  }

  lemma OldClaimsWell(w: World, n: World)
    requires ClaimsWell(w) && w.acquired <= n.acquired && RowsOn(w.queue.rows, n.queue.rows)
    ensures forall c :: c in w.claims ==> ClaimWell(n, c)
  {
    forall c | c in w.claims ensures ClaimWell(n, c) {
      assert ClaimWell(w, c) && RowOn(w.queue.rows[c.row], n.queue.rows[c.row]);
    }
  }

  /** A claim is only granted to the holder, and not below a mark the row already carries. */
  lemma NewClaimWell(w: World, m: Mark, k: nat, epoch: nat)
    requires LeaseWell(w) && ClaimsWell(w)
    requires HeldBy(w.lease, m.owner, m.fence, w.now) && ClaimGranted(w.queue, k, epoch, m)
    ensures ClaimsWell(Written(w, m, Claim(k, epoch)))
  {
    var n := Written(w, m, Claim(k, epoch));
    var c := Claimed(k, m);
    StepRowsOn(w, Fenced(m, Claim(k, epoch)));
    OldClaimsWell(w, n);
    assert ClaimWell(n, c);
    forall i, j | 0 <= i < j < |n.claims| && n.claims[i].row == n.claims[j].row
      ensures n.claims[i].mark.fence <= n.claims[j].mark.fence
    {
      if j == |w.claims| {
        assert ClaimWell(w, w.claims[i]);
      }
    }
  }

  lemma ClaimsStep(w: World, s: Step)
    requires LeaseWell(w) && ClaimsWell(w)
    ensures ClaimsWell(Next(w, s))
  {
    var n := Next(w, s);
    LeaseStep(w, s);
    StepRowsOn(w, s);
    if n.claims == w.claims {
      OldClaimsWell(w, n);
    } else {
      NewClaimWell(w, s.mark, s.write.row, s.write.epoch);
    }
  }

  ghost predicate Inv(w: World) {
    LeaseWell(w) && ClaimsWell(w) && RowsWell(w) && KeysWell(w.queue.rows)
  }

  lemma InvStep(w: World, s: Step)
    requires Inv(w)
    ensures Inv(Next(w, s))
  {
    LeaseStep(w, s);
    ClaimsStep(w, s);
    RowsStep(w, s);
    KeysStep(w, s);
  }

  lemma {:induction false} Always(steps: seq<Step>)
    ensures Inv(RunFrom(START, steps))
  {
    if steps != [] {
      Always(steps[..|steps| - 1]);
      InvStep(RunFrom(START, steps[..|steps| - 1]), steps[|steps| - 1]);
    }
  }

  /** In every run: an unfinished row has attempts left, so the backoff table is never overrun; a row past
      extraction has its coverage; no mark is ahead of the lease; and rows are in order of enqueueing. */
  lemma EveryRow(steps: seq<Step>, k: nat)
    requires k < |RunFrom(START, steps).queue.rows|
    ensures var w := RunFrom(START, steps); var r := w.queue.rows[k];
      && (Unfinished(r.stage) ==> r.attempts < |Promotion.RETRY_BACKOFF_RUNS| + 1)
      && (r.stage in {Extracted, PendingJudgment, Judged} ==> r.coverage.Some?)
      && (r.claimed.Some? ==> 1 <= r.claimed.value.fence <= w.lease.fence)
      && (forall j :: 0 <= j < k ==> w.queue.rows[j].enqueued < r.enqueued)
  {
    Always(steps);
    var w := RunFrom(START, steps);
    assert RowWell(w.queue.rows[k], w.lease.fence, w.epoch, w.queue.opportunities);
  }

  // ----- exclusion -----

  /** Each acquisition gets a fence of its own, the number of acquisitions so far. */
  lemma FencesAreUnique(w: World, owner: string, seconds: nat)
    requires Inv(w)
    ensures var n := Next(w, Acquire(owner, seconds));
      n.acquired == w.acquired || (n.lease.fence == |w.acquired| + 1 && n.acquired == w.acquired + [owner])
    ensures forall c :: c in w.claims ==> c.mark.fence <= |w.acquired|
  {
    forall c | c in w.claims ensures c.mark.fence <= |w.acquired| {
      assert ClaimWell(w, c);
    }
  }

  /** In every run, claims on one row come under fences that never decrease, and two claims under one
      fence are by one owner. */
  lemma ClaimsExclude(steps: seq<Step>, i: nat, j: nat)
    requires i < j < |RunFrom(START, steps).claims|
    requires RunFrom(START, steps).claims[i].row == RunFrom(START, steps).claims[j].row
    ensures var claims := RunFrom(START, steps).claims;
      && claims[i].mark.fence <= claims[j].mark.fence
      && (claims[i].mark.fence == claims[j].mark.fence ==> claims[i].mark == claims[j].mark)
  {
    Always(steps);
    var w := RunFrom(START, steps);
    assert ClaimWell(w, w.claims[i]) && ClaimWell(w, w.claims[j]);
  }

  /** A row's mark never runs ahead of the lease and never moves back to another owner or an older fence. */
  lemma {:induction false} MarksAdvance(w: World, steps: seq<Step>, k: nat)
    requires k < |w.queue.rows|
    ensures k < |RunFrom(w, steps).queue.rows|
    ensures MarkOn(w.queue.rows[k].claimed, RunFrom(w, steps).queue.rows[k].claimed)
  {
    if steps != [] {
      MarksAdvance(w, steps[..|steps| - 1], k);
      var m := RunFrom(w, steps[..|steps| - 1]);
      StepRowsOn(m, steps[|steps| - 1]);
      assert RowOn(m.queue.rows[k], RunFrom(w, steps).queue.rows[k]);
    }
  }

  // ----- what a claim pins -----

  /** A granted claim is of an unfinished row that pins the current version of an open opportunity. Its
      epoch is the one in force exactly when the row is not behind it; since the check is against the
      epoch asked for, that is certain when no write bumped the epoch since it was read, and fails for
      every row between the two. */
  lemma ClaimPins(w: World, m: Mark, k: nat, asked: nat)
    requires Inv(w) && ClaimGranted(w.queue, k, asked, m)
    ensures Unfinished(w.queue.rows[k].stage) && Pinned(w.queue, w.queue.rows[k])
    ensures asked == w.epoch ==> w.queue.rows[k].epoch == w.epoch
    ensures asked <= w.queue.rows[k].epoch <= w.epoch
  {
    assert RowWell(w.queue.rows[k], w.lease.fence, w.epoch, w.queue.opportunities);
  }

  function CountBumps(steps: seq<Step>): nat {
    if steps == [] then 0
    else CountBumps(steps[..|steps| - 1]) + if steps[|steps| - 1] == BumpEpoch then 1 else 0
  }

  lemma {:induction false} EpochCountsBumps(w: World, steps: seq<Step>)
    ensures RunFrom(w, steps).epoch == w.epoch + CountBumps(steps)
    ensures CountBumps(steps) == 0 <==> BumpEpoch !in steps
  {
    if steps != [] {
      var n := |steps| - 1;
      EpochCountsBumps(w, steps[..n]);
      assert steps == steps[..n] + [steps[n]];
    }
  }

  lemma {:induction false} RowStaysOn(w: World, steps: seq<Step>, k: nat)
    requires k < |w.queue.rows|
    ensures k < |RunFrom(w, steps).queue.rows| && RunFrom(w, steps).queue.rows[k].epoch == w.queue.rows[k].epoch
  {
    if steps != [] {
      RowStaysOn(w, steps[..|steps| - 1], k);
      var m := RunFrom(w, steps[..|steps| - 1]);
      StepRowsOn(m, steps[|steps| - 1]);
      assert RowOn(m.queue.rows[k], RunFrom(w, steps).queue.rows[k]);
    }
  }

  /** Step i of the run enqueues, for a discovery run that read this epoch, and row k is the one it comes to:
      the new one, or the one that had its key before. */
  ghost predicate EnqueuedAt(steps: seq<Step>, i: nat, k: nat, epoch: nat) {
    && i < |steps| && steps[i].Fenced? && steps[i].write.Enqueue? && steps[i].write.epoch == epoch
    && EnqueuesTo(RunFrom(START, steps[..i]), steps[i], k)
  }

  ghost predicate EnqueuesTo(w: World, s: Step, k: nat)
    requires s.Fenced? && s.write.Enqueue?
  {
    && k < |Next(w, s).queue.rows|
    && SameKey(Next(w, s).queue.rows[k], s.write.opportunity, s.write.version, s.write.epoch)
  }

  /** The holder's enqueue of a known opportunity comes to exactly one row, new or not. */
  lemma EnqueueAnswers(w: World, s: Step)
    requires Inv(w) && s.Fenced? && s.write.Enqueue? && HeldBy(w.lease, s.mark.owner, s.mark.fence, w.now)
    requires s.write.opportunity in w.queue.opportunities && s.write.epoch <= w.epoch
    ensures exists k: nat :: EnqueuesTo(w, s, k)
    ensures forall j: nat, k: nat :: EnqueuesTo(w, s, j) && EnqueuesTo(w, s, k) ==> j == k
    ensures forall k: nat :: EnqueuesTo(w, s, k) ==>
      if k < |w.queue.rows| then Next(w, s) == w else k == |w.queue.rows| && Next(w, s).queue.rows[..k] == w.queue.rows
  {
    var x, rows := s.write, w.queue.rows;
    KeysStep(w, s);
    if Enqueued(rows, x.opportunity, x.version, x.epoch) {
      var k :| 0 <= k < |rows| && SameKey(rows[k], x.opportunity, x.version, x.epoch);
      assert EnqueuesTo(w, s, k);
    } else {
      assert EnqueuesTo(w, s, |rows|);
    }
    forall j: nat, k: nat | EnqueuesTo(w, s, j) && EnqueuesTo(w, s, k) ensures j == k {
      assert SameKeys(Next(w, s).queue.rows[j], Next(w, s).queue.rows[k]);
      assert SameKeys(Next(w, s).queue.rows[k], Next(w, s).queue.rows[j]);
    }
  }

  lemma RowAsEnqueued(steps: seq<Step>, i: nat, k: nat, epoch: nat)
    requires EnqueuedAt(steps, i, k, epoch)
    ensures k < |RunFrom(START, steps).queue.rows| && RunFrom(START, steps).queue.rows[k].epoch == epoch
  {
    RunOn(steps[..i], steps[i]);
    assert steps[..i] + [steps[i]] == steps[..i + 1];
    RunSplits(START, steps[..i + 1], steps[i + 1..]);
    assert steps[..i + 1] + steps[i + 1..] == steps;
    RowStaysOn(RunFrom(START, steps[..i + 1]), steps[i + 1..], k);
  }

  /** A row that a discovery run started after `before` enqueues or merges into is at the current epoch exactly when
      nothing has bumped the epoch since that start, whoever looks at it and whenever: a claim of it is then
      of a current row, and otherwise of a stale one. */
  lemma RowCurrent(before: seq<Step>, during: seq<Step>, i: nat, k: nat)
    requires |before| <= i && EnqueuedAt(before + during, i, k, RunFrom(START, before).epoch)
    ensures k < |RunFrom(START, before + during).queue.rows|
    ensures RunFrom(START, before + during).queue.rows[k].epoch == RunFrom(START, before + during).epoch
      <==> BumpEpoch !in during
  {
    RowAsEnqueued(before + during, i, k, RunFrom(START, before).epoch);
    RunSplits(START, before, during);
    EpochCountsBumps(RunFrom(START, before), during);
  }

  /** A discovery run that read its epoch after `before` claims a row it enqueued or merged into: the claim returns a
      row at the current epoch if and only if nothing bumped the epoch since the run started. */
  lemma OwnRowCurrent(before: seq<Step>, during: seq<Step>, i: nat, k: nat, m: Mark)
    requires |before| <= i && EnqueuedAt(before + during, i, k, RunFrom(START, before).epoch)
    ensures var w := RunFrom(START, before + during); var asked := RunFrom(START, before).epoch;
      && k < |w.queue.rows|
      && (ClaimGranted(w.queue, k, asked, m) <==>
            Workable(w.queue, k) && Pinned(w.queue, w.queue.rows[k]) && Claimable(w.queue.rows[k], m))
      && (StaleRow(w, k) <==> BumpEpoch in during)
  {
    RowCurrent(before, during, i, k);
    RowAsEnqueued(before + during, i, k, RunFrom(START, before).epoch);
    RunSplits(START, before, during);
    EpochCountsBumps(RunFrom(START, before), during);
  }

  predicate StaleRow(w: World, k: nat)
    requires k < |w.queue.rows|
  {
    w.queue.rows[k].epoch < w.epoch
  }

  /** Unfinished, pinned, not held by anyone else, and of an epoch the run would accept although it is past. */
  predicate Exposed(w: World, m: Mark, k: nat, asked: nat) {
    && Workable(w.queue, k) && Pinned(w.queue, w.queue.rows[k]) && Claimable(w.queue.rows[k], m)
    && asked <= w.queue.rows[k].epoch < w.epoch
  }

  /** What a run may be granted is current without exception if and only if no row open to it lies between the
      epoch it read and the one in force; a sweep with the epoch in force leaves none. */
  lemma GrantsCurrent(w: World, m: Mark, asked: nat)
    requires Inv(w)
    ensures (forall k: nat :: ClaimGranted(w.queue, k, asked, m) ==> w.queue.rows[k].epoch == w.epoch) <==>
      forall k: nat :: !Exposed(w, m, k, asked)
    ensures forall k: nat :: !Exposed(Next(w, SupersedeBefore(w.epoch)), m, k, asked)
  {
    forall k: nat | ClaimGranted(w.queue, k, asked, m)
      ensures w.queue.rows[k].epoch == w.epoch || Exposed(w, m, k, asked)
    {
      assert RowWell(w.queue.rows[k], w.lease.fence, w.epoch, w.queue.opportunities);
    }
    forall k: nat | Exposed(w, m, k, asked) ensures ClaimGranted(w.queue, k, asked, m) {
    }
  }

  // ----- how a row falls behind -----

  /** Every unfinished row is of the epoch in force. */
  ghost predicate NoneBehind(w: World) {
    forall k :: 0 <= k < |w.queue.rows| && Unfinished(w.queue.rows[k].stage) ==> w.queue.rows[k].epoch == w.epoch
  }

  /** The step bumps the epoch over unfinished rows, adds a row of a passed epoch, or retries one. */
  ghost predicate LetsBehind(w: World, s: Step) {
    match s
    case BumpEpoch => exists k: nat :: Workable(w.queue, k)
    case Fenced(m, Enqueue(opportunity, version, epoch)) =>
      && HeldBy(w.lease, m.owner, m.fence, w.now) && opportunity in w.queue.opportunities && epoch < w.epoch
      && !Enqueued(w.queue.rows, opportunity, version, epoch)
    case RetryFailed(k, _) =>
      k < |w.queue.rows| && w.queue.rows[k].stage == FailedRow && w.queue.rows[k].epoch < w.epoch
    case _ => false
  }

  /** Those are the only ways an unfinished row comes to be behind the epoch, and each of them is one. */
  lemma FallsBehind(w: World, s: Step)
    requires Inv(w) && NoneBehind(w)
    ensures NoneBehind(Next(w, s)) <==> !LetsBehind(w, s)
  {
    var rows, n := w.queue.rows, Next(w, s);
    forall k | 0 <= k < |rows| ensures rows[k].epoch <= w.epoch {
      assert RowWell(rows[k], w.lease.fence, w.epoch, w.queue.opportunities);
    }
    if LetsBehind(w, s) {
      if s.BumpEpoch? {
        var k: nat :| Workable(w.queue, k);
        assert n.queue.rows[k].epoch < n.epoch;
      } else if s.Fenced? {
        assert n.queue.rows[|rows|].epoch < n.epoch;
      } else {
        assert n.queue.rows[s.row].epoch < n.epoch;
      }
    } else {
      StaysAbreast(w, s);
    }
  }

  lemma StaysAbreast(w: World, s: Step)
    requires Inv(w) && NoneBehind(w) && !LetsBehind(w, s)
    ensures NoneBehind(Next(w, s))
  {
    var rows, n := w.queue.rows, Next(w, s);
    StepRowsOn(w, s);
    forall k | 0 <= k < |n.queue.rows| && Unfinished(n.queue.rows[k].stage) ensures n.queue.rows[k].epoch == n.epoch {
      if k < |rows| {
        assert RowOn(rows[k], n.queue.rows[k]);
        assert RowWell(rows[k], w.lease.fence, w.epoch, w.queue.opportunities);
        if Unfinished(rows[k].stage) {
          assert Workable(w.queue, k);
        } else {
          OnlyRetryRevives(w, s, k);
        }
      }
    }
  }

  /** No step of the run lets a row fall behind. */
  ghost predicate Abreast(w: World, steps: seq<Step>) {
    forall i :: 0 <= i < |steps| ==> !LetsBehind(RunFrom(w, steps[..i]), steps[i])
  }

  lemma {:induction false} AbreastSince(w: World, steps: seq<Step>)
    requires Inv(w) && NoneBehind(w) && Abreast(w, steps)
    ensures Inv(RunFrom(w, steps)) && NoneBehind(RunFrom(w, steps))
  {
    if steps != [] {
      var n := |steps| - 1;
      forall i | 0 <= i < n ensures !LetsBehind(RunFrom(w, steps[..n][..i]), steps[..n][i]) {
        assert steps[..n][..i] == steps[..i];
      }
      AbreastSince(w, steps[..n]);
      InvStep(RunFrom(w, steps[..n]), steps[n]);
      FallsBehind(RunFrom(w, steps[..n]), steps[n]);
    }
  }

  /** From a sweep at the epoch in force on, whatever anyone is granted under whatever epoch is current until
      a step bumps the epoch over unfinished rows, adds a row of a passed epoch or retries one. */
  lemma CurrentSinceSweep(before: seq<Step>, after: seq<Step>, m: Mark, k: nat, asked: nat)
    requires var w := RunFrom(START, before); Abreast(Next(w, SupersedeBefore(w.epoch)), after)
    ensures var w := RunFrom(START, before); var n := RunFrom(Next(w, SupersedeBefore(w.epoch)), after);
      ClaimGranted(n.queue, k, asked, m) ==> n.queue.rows[k].epoch == n.epoch
  {
    var w := RunFrom(START, before);
    Always(before);
    InvStep(w, SupersedeBefore(w.epoch));
    forall j | 0 <= j < |w.queue.rows| ensures w.queue.rows[j].epoch <= w.epoch {
      assert RowWell(w.queue.rows[j], w.lease.fence, w.epoch, w.queue.opportunities);
    }
    AbreastSince(Next(w, SupersedeBefore(w.epoch)), after);
  }

  /** The holder is granted a claim on a row of an epoch already passed. */
  predicate StaleGrant(w: World, m: Mark, k: nat, asked: nat) {
    HeldBy(w.lease, m.owner, m.fence, w.now) && ClaimGranted(w.queue, k, asked, m) && w.queue.rows[k].epoch < w.epoch
  }

  /** It does happen: the epoch is bumped between the start of a run and its claim. */
  lemma StaleClaimGranted()
    ensures exists steps: seq<Step>, m: Mark :: StaleGrant(RunFrom(START, steps), m, 0, 0)
  {
    var m, o := Mark("run", 1), Opportunity(false, "v");
    var row := QueueRow("o", "v", PendingExtraction, 1, 0, None, 0, 0, None);
    var known := World(Lease(None, 0, None), Queue([], map["o" := o]), 0, 0, [], []);
    var held := World(Lease(Some("run"), 1, Some(60)), Queue([], map["o" := o]), 0, 0, ["run"], []);
    var queued := held.(queue := Queue([row], map["o" := o]));
    assert Next(START, SetOpportunity("o", o)) == known;
    assert Next(known, Acquire("run", 60)) == held;
    assert Next(held, Fenced(m, Enqueue("o", "v", 0))) == queued by {
      assert NewRow([], "o", "v", 0) == row;
    }
    var steps := [SetOpportunity("o", o)];
    RunOn([], SetOpportunity("o", o));
    assert [] + steps == steps;
    RunOn(steps, Acquire("run", 60));
    steps := steps + [Acquire("run", 60)];
    RunOn(steps, Fenced(m, Enqueue("o", "v", 0)));
    steps := steps + [Fenced(m, Enqueue("o", "v", 0))];
    RunOn(steps, BumpEpoch);
    steps := steps + [BumpEpoch];
    assert RunFrom(START, steps) == queued.(epoch := 1);
    assert StaleGrant(queued.(epoch := 1), m, 0, 0);
  }

  lemma RunOn(steps: seq<Step>, s: Step)
    ensures RunFrom(START, steps + [s]) == Next(RunFrom(START, steps), s)
  {
    assert (steps + [s])[..|steps|] == steps;
  }

  // ----- every row gets there -----

  function StagesLeft(s: Stage): nat {
    match s
    case PendingExtraction => 3
    case Extracted => 2
    case PendingJudgment => 1
    case _ => 0
  }

  /** Stages left, then attempts left in this stage. */
  function Measure(r: QueueRow): nat {
    if Unfinished(r.stage) && r.attempts < Promotion.MAX_ATTEMPTS
    then StagesLeft(r.stage) * Promotion.MAX_ATTEMPTS + (Promotion.MAX_ATTEMPTS - r.attempts) else 0
  }

  /** The row was moved on, failed or superseded. */
  predicate Worked(a: QueueRow, b: QueueRow) {
    a.stage != b.stage || a.attempts != b.attempts
  }

  /** Whatever happens to a row other than the explicit retry brings it strictly nearer to its end, and a
      row at its end stays there. */
  lemma RowsMoveOn(w: World, s: Step, k: nat)
    requires Inv(w) && k < |w.queue.rows| && !(s.RetryFailed? && s.row == k)
    ensures k < |Next(w, s).queue.rows|
    ensures var a, b := w.queue.rows[k], Next(w, s).queue.rows[k];
      && (if Worked(a, b) then Measure(b) < Measure(a) else Measure(b) == Measure(a))
      && (!Unfinished(a.stage) ==> b.stage == a.stage)
  {
    assert RowWell(w.queue.rows[k], w.lease.fence, w.epoch, w.queue.opportunities);
  }

  /** The explicit retry is the only way out of an end, and only out of failure. */
  lemma OnlyRetryRevives(w: World, s: Step, k: nat)
    requires Inv(w) && k < |w.queue.rows|
    requires !Unfinished(w.queue.rows[k].stage) && Next(w, s).queue.rows[k].stage != w.queue.rows[k].stage
    ensures s.RetryFailed? && s.row == k && w.queue.rows[k].stage == FailedRow
  {
    if !(s.RetryFailed? && s.row == k) {
      RowsMoveOn(w, s, k);
    }
  }

  /** How often a row was worked on over a run. */
  ghost function TimesWorked(w: World, steps: seq<Step>, k: nat): nat
    requires k < |w.queue.rows|
  {
    if steps == [] then 0
    else
      var m := RunFrom(w, steps[..|steps| - 1]);
      MarksAdvance(w, steps[..|steps| - 1], k);
      MarksAdvance(w, steps, k);
      TimesWorked(w, steps[..|steps| - 1], k)
      + if Worked(m.queue.rows[k], RunFrom(w, steps).queue.rows[k]) then 1 else 0
  }

  /** Between explicit retries a row is worked on at most twelve times, however long the run. */
  lemma {:induction false} WorkIsBounded(before: seq<Step>, steps: seq<Step>, k: nat)
    requires k < |RunFrom(START, before).queue.rows|
    requires forall s :: s in steps ==> !(s.RetryFailed? && s.row == k)
    ensures k < |RunFrom(RunFrom(START, before), steps).queue.rows|
    ensures TimesWorked(RunFrom(START, before), steps, k)
         + Measure(RunFrom(RunFrom(START, before), steps).queue.rows[k])
         <= Measure(RunFrom(START, before).queue.rows[k]) <= 12
  {
    var w := RunFrom(START, before);
    Always(before);
    assert RowWell(w.queue.rows[k], w.lease.fence, w.epoch, w.queue.opportunities);
    if steps != [] {
      var init := steps[..|steps| - 1];
      WorkIsBounded(before, init, k);
      RunSplits(START, before, init);
      Always(before + init);
      assert steps[|steps| - 1] in steps;
      RowsMoveOn(RunFrom(w, init), steps[|steps| - 1], k);
    }
  }

  lemma {:induction false} RunSplits(w: World, first: seq<Step>, rest: seq<Step>)
    ensures RunFrom(w, first + rest) == RunFrom(RunFrom(w, first), rest)
  {
    if rest == [] {
      assert first + rest == first;
    } else {
      RunSplits(w, first, rest[..|rest| - 1]);
      assert (first + rest)[..|first + rest| - 1] == first + rest[..|rest| - 1];
    }
  }
}
