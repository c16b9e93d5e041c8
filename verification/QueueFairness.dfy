/** Fair selection on the queue itself, where a row that failed comes back under its old enqueue number
    (packages/domain/promotion.py:56-71; adapters/storage/sqlite_opportunities.py:379-384, 452-494;
    workers/discovery/run.py:962-1134). */
module QueueFairness {
  import opened PromotionQueue
  import opened QueueRuns
  import Packages
  import Promotion

  /** A stage of one discovery run: which rows it lists, how it ranks them, and all that happens from its
      selection to the next one that lists the row in question. */
  datatype Round = Round(ready: QueueRow -> bool, key: QueueRow -> Promotion.PriorityKey, steps: seq<Step>)

  function Shown(rows: seq<QueueRow>, k: nat, r: Round): Promotion.PendingRow
    requires k < |rows|
  {
    Promotion.PendingRow(Packages.Decimal(k), rows[k].enqueued, r.key(rows[k]))
  }

  /** pending_for_stage */
  function Listed(rows: seq<QueueRow>, r: Round): seq<Promotion.PendingRow> {
    if rows == [] then []
    else
      var n := |rows| - 1;
      Listed(rows[..n], r) + if r.ready(rows[n]) then [Shown(rows, n, r)] else []
  }

  predicate Selects(rows: seq<QueueRow>, cap: nat, r: Round, k: nat) {
    Packages.Decimal(k) in Promotion.SelectForStage(cap, Listed(rows, r))
  }

  lemma {:induction false} ListedAre(rows: seq<QueueRow>, r: Round)
    ensures forall p :: p in Listed(rows, r) <==>
      exists k: nat :: k < |rows| && r.ready(rows[k]) && p == Shown(rows, k, r)
    ensures Promotion.DistinctIds(Listed(rows, r))
  {
    if rows != [] {
      var n := |rows| - 1;
      ListedAre(rows[..n], r);
      var init := Listed(rows[..n], r);
      forall p | p in init
        ensures p.id != Packages.Decimal(n) && exists k: nat :: k < |rows| && r.ready(rows[k]) && p == Shown(rows, k, r)
      {
        var k: nat :| k < n && r.ready(rows[..n][k]) && p == Shown(rows[..n], k, r);
        assert p == Shown(rows, k, r);
        if p.id == Packages.Decimal(n) {
          Packages.DecimalInjective(k, n);
        }
      }
      forall k: nat | k < |rows| && r.ready(rows[k]) ensures Shown(rows, k, r) in Listed(rows, r) {
        if k < n {
          assert r.ready(rows[..n][k]) && Shown(rows, k, r) == Shown(rows[..n], k, r);
        }
      }
      if r.ready(rows[n]) {
        Promotion.AppendDistinct(init, Shown(rows, n, r));
      }
    }
  }

  // ----- counting -----

  /** All the work still left in the rows before x. */
  function WorkLeft(rows: seq<QueueRow>, x: nat): nat
    requires x <= |rows|
  {
    if x == 0 then 0 else WorkLeft(rows, x - 1) + Measure(rows[x - 1])
  }

  /** How many of the rows before x carry one of these ids. */
  function CountIn(ids: set<string>, x: nat): nat {
    if x == 0 then 0 else CountIn(ids, x - 1) + if Packages.Decimal(x - 1) in ids then 1 else 0
  }

  ghost predicate Numbered(id: string, x: nat) {
    exists k: nat :: k < x && id == Packages.Decimal(k)
  }

  lemma {:induction false} CountAtLeast(ids: set<string>, x: nat)
    requires forall id :: id in ids ==> Numbered(id, x)
    ensures |ids| <= CountIn(ids, x)
  {
    if x > 0 {
      var last := Packages.Decimal(x - 1);
      forall id | id in ids - {last} ensures Numbered(id, x - 1) {
        var k: nat :| k < x && id == Packages.Decimal(k);
        assert k < x - 1;
      }
      CountAtLeast(ids - {last}, x - 1);
      CountMonotone(ids - {last}, ids, x - 1);
      if last in ids {
        assert ids == (ids - {last}) + {last};
      } else {
        assert ids - {last} == ids;
      }
    } else {
      assert ids == {};
    }
  }

  lemma {:induction false} CountMonotone(few: set<string>, many: set<string>, x: nat)
    requires few <= many
    ensures CountIn(few, x) <= CountIn(many, x)
  {
    if x > 0 {
      CountMonotone(few, many, x - 1);
    }
  }

  lemma {:induction false} WorkDrops(a: seq<QueueRow>, b: seq<QueueRow>, ids: set<string>, x: nat)
    requires x <= |a| && x <= |b|
    requires forall k: nat :: k < x ==> Measure(b[k]) <= Measure(a[k])
    requires forall k: nat :: k < x && Packages.Decimal(k) in ids ==> Measure(b[k]) < Measure(a[k])
    ensures WorkLeft(b, x) + CountIn(ids, x) <= WorkLeft(a, x)
  {
    if x > 0 {
      WorkDrops(a, b, ids, x - 1);
    }
  }

  lemma {:induction false} WorkAtMost(rows: seq<QueueRow>, x: nat)
    requires x <= |rows|
    ensures WorkLeft(rows, x) <= 12 * x
  {
    if x > 0 {
      WorkAtMost(rows, x - 1);
    }
  }

  // ----- rounds -----

  ghost predicate Reachable(w: World) {
    exists steps :: w == RunFrom(START, steps)
  }

  ghost predicate WorkedOn(w: World, steps: seq<Step>, k: nat) {
    k < |w.queue.rows| && TimesWorked(w, steps, k) > 0
  }

  /** The round takes the world from w to n. It lists row x, works on every older row it selects, and no
      older row is retried by hand meanwhile. */
  ghost predicate RoundOf(w: World, r: Round, n: World, cap: nat, x: nat) {
    && n == RunFrom(w, r.steps)
    && x < |w.queue.rows| && r.ready(w.queue.rows[x])
    && (forall k: nat :: k < x && Selects(w.queue.rows, cap, r, k) ==> WorkedOn(w, r.steps, k))
    && (forall s :: s in r.steps && s.RetryFailed? ==> s.row >= x)
  }

  /** At least half a cap of older rows is selected whenever x is left out. */
  lemma OlderSelected(rows: seq<QueueRow>, cap: nat, r: Round, x: nat) returns (ids: set<string>)
    requires KeysWell(rows) && x < |rows| && r.ready(rows[x]) && cap > 0 && !Selects(rows, cap, r, x)
    ensures |ids| == cap / 2
    ensures forall id :: id in ids ==> Numbered(id, x)
    ensures forall k: nat :: k < |rows| && Packages.Decimal(k) in ids ==> Selects(rows, cap, r, k)
  {
    var listed := Listed(rows, r);
    ListedAre(rows, r);
    var p := Shown(rows, x, r);
    Promotion.LeftOutFairly(cap, listed, p);
    var aged := Promotion.Aged(cap, listed);
    Promotion.AgedAre(cap, listed);
    Promotion.IdSetSize(aged);
    ids := Promotion.IdSet(aged);
    forall id | id in ids ensures Numbered(id, x) && id in Promotion.SelectForStage(cap, listed) {
      var q :| q in aged && q.id == id;
      var k: nat :| k < |rows| && r.ready(rows[k]) && q == Shown(rows, k, r);
      assert q.enqueued <= p.enqueued && q.id in Promotion.SelectForStage(cap, listed);
      assert k <= x && k != x;
    }
  }

  lemma WorkedLess(w: World, steps: seq<Step>, k: nat)
    requires Reachable(w) && k < |w.queue.rows|
    requires forall s :: s in steps ==> !(s.RetryFailed? && s.row == k)
    ensures var n := RunFrom(w, steps);
      && k < |n.queue.rows| && Measure(n.queue.rows[k]) <= Measure(w.queue.rows[k])
      && (WorkedOn(w, steps, k) ==> Measure(n.queue.rows[k]) < Measure(w.queue.rows[k]))
  {
    var before :| w == RunFrom(START, before);
    WorkIsBounded(before, steps, k);
  }

  lemma WorkUsed(w: World, steps: seq<Step>, n: World, ids: set<string>, x: nat)
    requires Reachable(w) && x < |w.queue.rows| && n == RunFrom(w, steps)
    requires forall k: nat :: k < x && Packages.Decimal(k) in ids ==> WorkedOn(w, steps, k)
    requires forall s :: s in steps && s.RetryFailed? ==> s.row >= x
    ensures x < |n.queue.rows| && WorkLeft(n.queue.rows, x) + CountIn(ids, x) <= WorkLeft(w.queue.rows, x)
  {
    MarksAdvance(w, steps, x);
    forall k: nat | k < x
      ensures Measure(n.queue.rows[k]) <= Measure(w.queue.rows[k])
      ensures Packages.Decimal(k) in ids ==> Measure(n.queue.rows[k]) < Measure(w.queue.rows[k])
    {
      WorkedLess(w, steps, k);
    }
    WorkDrops(w.queue.rows, n.queue.rows, ids, x);
  }

  lemma ReachableOn(w: World, steps: seq<Step>)
    requires Reachable(w)
    ensures Reachable(RunFrom(w, steps))
  {
    var before :| w == RunFrom(START, before);
    RunSplits(START, before, steps);
    assert RunFrom(w, steps) == RunFrom(START, before + steps);
  }

  lemma RowsInOrder(w: World)
    requires Reachable(w)
    ensures KeysWell(w.queue.rows)
  {
    var before :| w == RunFrom(START, before);
    Always(before);
  }

  /** A round that leaves x out uses up half a cap of the work left before it. */
  lemma LeftOutUsesWork(w: World, r: Round, n: World, cap: nat, x: nat)
    requires Reachable(w) && cap > 0 && RoundOf(w, r, n, cap, x) && !Selects(w.queue.rows, cap, r, x)
    ensures Reachable(n) && x < |n.queue.rows| && WorkLeft(n.queue.rows, x) + cap / 2 <= WorkLeft(w.queue.rows, x)
  {
    RowsInOrder(w);
    ReachableOn(w, r.steps);
    var ids := OlderSelected(w.queue.rows, cap, r, x);
    CountAtLeast(ids, x);
    WorkUsed(w, r.steps, n, ids, x);
  }

  /** worlds[j] is where round j starts. */
  ghost predicate Rounds(worlds: seq<World>, rounds: seq<Round>, cap: nat, x: nat) {
    |worlds| == |rounds| + 1 && forall j: nat :: j < |rounds| ==> RoundAt(worlds, rounds, cap, x, j)
  }

  ghost predicate RoundAt(worlds: seq<World>, rounds: seq<Round>, cap: nat, x: nat, j: nat) {
    j < |rounds| && j + 1 < |worlds| && RoundOf(worlds[j], rounds[j], worlds[j + 1], cap, x)
  }

  predicate SelectedAt(worlds: seq<World>, rounds: seq<Round>, cap: nat, x: nat, j: nat) {
    j < |rounds| && j < |worlds| && Selects(worlds[j].queue.rows, cap, rounds[j], x)
  }

  function Times(n: nat, half: nat): nat {
    if n == 0 then 0 else Times(n - 1, half) + half
  }

  lemma {:induction false} TimesIs(n: nat, half: nat)
    ensures Times(n, half) == n * half
  {
    if n > 0 {
      TimesIs(n - 1, half);
    }
  }

  lemma {:induction false} WaitingUsesWork(worlds: seq<World>, rounds: seq<Round>, cap: nat, x: nat, n: nat)
    requires Rounds(worlds, rounds, cap, x) && Reachable(worlds[0]) && cap > 0 && x < |worlds[0].queue.rows|
    requires n <= |rounds| && forall j: nat :: j < n ==> !SelectedAt(worlds, rounds, cap, x, j)
    ensures Reachable(worlds[n]) && x < |worlds[n].queue.rows|
    ensures WorkLeft(worlds[n].queue.rows, x) + Times(n, cap / 2) <= WorkLeft(worlds[0].queue.rows, x)
  {
    if n > 0 {
      WaitingUsesWork(worlds, rounds, cap, x, n - 1);
      assert RoundAt(worlds, rounds, cap, x, n - 1) && !SelectedAt(worlds, rounds, cap, x, n - 1);
      LeftOutUsesWork(worlds[n - 1], rounds[n - 1], worlds[n], cap, x);
    }
  }

  /** No starvation on the queue's own rows, failures, backoff and re-entry under the old number included: as
      long as selected rows are worked on, n rounds leave no row out that has less than n half caps of work
      ahead of it. */
  lemma EveryRowSelected(worlds: seq<World>, rounds: seq<Round>, cap: nat, x: nat)
    requires Rounds(worlds, rounds, cap, x) && Reachable(worlds[0]) && cap >= 2 && x < |worlds[0].queue.rows|
    requires |rounds| * (cap / 2) > WorkLeft(worlds[0].queue.rows, x)
    ensures exists j: nat :: SelectedAt(worlds, rounds, cap, x, j)
  {
    if forall j: nat :: j < |rounds| ==> !SelectedAt(worlds, rounds, cap, x, j) {
      WaitingUsesWork(worlds, rounds, cap, x, |rounds|);
      TimesIs(|rounds|, cap / 2);
      assert false;
    }
  }

  /** Twelve pieces of work for each row ahead bound the wait in terms of their number alone. */
  lemma SelectedWithin(worlds: seq<World>, rounds: seq<Round>, cap: nat, x: nat)
    requires Rounds(worlds, rounds, cap, x) && Reachable(worlds[0]) && cap >= 2 && x < |worlds[0].queue.rows|
    requires |rounds| * (cap / 2) > 12 * x
    ensures exists j: nat :: SelectedAt(worlds, rounds, cap, x, j)
  {
    WorkAtMost(worlds[0].queue.rows, x);
    EveryRowSelected(worlds, rounds, cap, x);
  }
}
