/** Which pending rows a stage takes, how failures are retried, and why no row waits forever
    (packages/domain/promotion.py). */
module Promotion {
  import opened Basics

  const MAX_ATTEMPTS := 3
  const RETRY_BACKOFF_RUNS := [1, 2]

  /** A tuple of tuples, compared component by component. */
  type PriorityKey = seq<seq<int>>

  datatype PendingRow = PendingRow(id: string, enqueued: nat, priority: PriorityKey)

  // ----- orders -----

  predicate WordLeq(a: seq<int>, b: seq<int>) {
    a == [] || (b != [] && (a[0] < b[0] || (a[0] == b[0] && WordLeq(a[1..], b[1..]))))
  }

  predicate KeyLeq(a: PriorityKey, b: PriorityKey) {
    a == [] || (b != [] && if a[0] == b[0] then KeyLeq(a[1..], b[1..]) else WordLeq(a[0], b[0]))
  }

  predicate AgeLeq(a: PendingRow, b: PendingRow) { a.enqueued <= b.enqueued }

  predicate PriorityLeq(a: PendingRow, b: PendingRow) {
    if a.priority == b.priority then a.enqueued <= b.enqueued else KeyLeq(a.priority, b.priority)
  }

  lemma {:induction false} WordTotal(a: seq<int>, b: seq<int>)
    ensures WordLeq(a, b) || WordLeq(b, a)
    ensures WordLeq(a, b) && WordLeq(b, a) ==> a == b
  {
    if a != [] && b != [] && a[0] == b[0] {
      WordTotal(a[1..], b[1..]);
      assert a == [a[0]] + a[1..] && b == [b[0]] + b[1..];
    }
  }

  lemma {:induction false} WordChain(a: seq<int>, b: seq<int>, c: seq<int>)
    ensures WordLeq(a, b) && WordLeq(b, c) ==> WordLeq(a, c)
  {
    if a != [] && b != [] && c != [] {
      WordChain(a[1..], b[1..], c[1..]);
    }
  }

  lemma {:induction false} KeyTotal(a: PriorityKey, b: PriorityKey)
    ensures KeyLeq(a, b) || KeyLeq(b, a)
    ensures KeyLeq(a, b) && KeyLeq(b, a) ==> a == b
  {
    if a != [] && b != [] {
      WordTotal(a[0], b[0]);
      if a[0] == b[0] {
        KeyTotal(a[1..], b[1..]);
        assert a == [a[0]] + a[1..] && b == [b[0]] + b[1..];
      }
    }
  }

  lemma {:induction false} KeyChain(a: PriorityKey, b: PriorityKey, c: PriorityKey)
    ensures KeyLeq(a, b) && KeyLeq(b, c) ==> KeyLeq(a, c)
  {
    if a != [] && b != [] && c != [] {
      WordTotal(a[0], b[0]);
      WordTotal(b[0], c[0]);
      WordChain(a[0], b[0], c[0]);
      WordTotal(a[0], c[0]);
      KeyChain(a[1..], b[1..], c[1..]);
    }
  }

  /** The relation is total and chains. */
  ghost predicate IsOrder(leq: (PendingRow, PendingRow) -> bool) {
    && (forall a, b :: leq(a, b) || leq(b, a))
    && (forall a, b, c :: leq(a, b) && leq(b, c) ==> leq(a, c))
  }

  lemma AgeIsOrder()
    ensures IsOrder(AgeLeq)
  {
  }

  lemma PriorityIsOrder()
    ensures IsOrder(PriorityLeq)
  {
    forall a, b ensures PriorityLeq(a, b) || PriorityLeq(b, a) {
      KeyTotal(a.priority, b.priority);
    }
    forall a, b, c ensures PriorityLeq(a, b) && PriorityLeq(b, c) ==> PriorityLeq(a, c) {
      KeyTotal(a.priority, b.priority);
      KeyTotal(b.priority, c.priority);
      KeyTotal(a.priority, c.priority);
      KeyChain(a.priority, b.priority, c.priority);
    }
  }

  // ----- sorting -----

  ghost predicate Sorted(rows: seq<PendingRow>, leq: (PendingRow, PendingRow) -> bool) {
    forall i, j :: 0 <= i < j < |rows| ==> leq(rows[i], rows[j])
  }

  /** Stable: r goes behind everything that may precede it. */
  function Insert(rows: seq<PendingRow>, r: PendingRow, leq: (PendingRow, PendingRow) -> bool): seq<PendingRow> {
    if rows == [] || leq(rows[|rows| - 1], r) then rows + [r]
    else Insert(rows[..|rows| - 1], r, leq) + [rows[|rows| - 1]]
  }

  function Sort(rows: seq<PendingRow>, leq: (PendingRow, PendingRow) -> bool): seq<PendingRow> {
    if rows == [] then [] else Insert(Sort(rows[..|rows| - 1], leq), rows[|rows| - 1], leq)
  }

  predicate DistinctIds(rows: seq<PendingRow>) {
    forall i, j :: 0 <= i < j < |rows| ==> rows[i].id != rows[j].id
  }

  lemma {:induction false} InsertKeeps(rows: seq<PendingRow>, r: PendingRow, leq: (PendingRow, PendingRow) -> bool)
    ensures |Insert(rows, r, leq)| == |rows| + 1
    ensures forall x :: x in Insert(rows, r, leq) <==> x in rows || x == r
    ensures DistinctIds(rows) && (forall x :: x in rows ==> x.id != r.id) ==> DistinctIds(Insert(rows, r, leq))
  {
    if rows != [] && !leq(rows[|rows| - 1], r) {
      var n := |rows| - 1;
      assert rows == rows[..n] + [rows[n]];
      InsertKeeps(rows[..n], r, leq);
      if DistinctIds(rows) && forall x :: x in rows ==> x.id != r.id {
        assert rows[n] in rows;
        AppendDistinct(Insert(rows[..n], r, leq), rows[n]);
      }
    } else if DistinctIds(rows) && forall x :: x in rows ==> x.id != r.id {
      AppendDistinct(rows, r);
    }
  }

  lemma AppendDistinct(rows: seq<PendingRow>, r: PendingRow)
    requires DistinctIds(rows) && forall x :: x in rows ==> x.id != r.id
    ensures DistinctIds(rows + [r])
  {
  }

  lemma {:induction false} InsertSorts(rows: seq<PendingRow>, r: PendingRow, leq: (PendingRow, PendingRow) -> bool)
    requires IsOrder(leq) && Sorted(rows, leq)
    ensures Sorted(Insert(rows, r, leq), leq)
  {
    if rows != [] {
      var n := |rows| - 1;
      if leq(rows[n], r) {
        assert forall i :: 0 <= i < n ==> leq(rows[i], rows[n]);
      } else {
        InsertSorts(rows[..n], r, leq);
        InsertKeeps(rows[..n], r, leq);
        var before := Insert(rows[..n], r, leq);
        forall i | 0 <= i < |before| ensures leq(before[i], rows[n]) {
          assert before[i] in rows[..n] || before[i] == r;
        }
      }
    }
  }

  lemma {:induction false} SortKeeps(rows: seq<PendingRow>, leq: (PendingRow, PendingRow) -> bool)
    ensures |Sort(rows, leq)| == |rows|
    ensures forall x :: x in Sort(rows, leq) <==> x in rows
    ensures DistinctIds(rows) ==> DistinctIds(Sort(rows, leq))
    ensures IsOrder(leq) ==> Sorted(Sort(rows, leq), leq)
  {
    if rows != [] {
      var n := |rows| - 1;
      assert rows == rows[..n] + [rows[n]];
      SortKeeps(rows[..n], leq);
      InsertKeeps(Sort(rows[..n], leq), rows[n], leq);
      if IsOrder(leq) {
        InsertSorts(Sort(rows[..n], leq), rows[n], leq);
      }
    }
  }

  // ----- selection -----

  function Ids(rows: seq<PendingRow>): (ids: seq<string>)
    ensures |ids| == |rows| && forall i :: 0 <= i < |rows| ==> ids[i] == rows[i].id
  {
    seq(|rows|, i requires 0 <= i < |rows| => rows[i].id)
  }

  function Without(rows: seq<PendingRow>, taken: seq<string>): seq<PendingRow> {
    if rows == [] then []
    else Without(rows[..|rows| - 1], taken) + if rows[|rows| - 1].id in taken then [] else [rows[|rows| - 1]]
  }

  function Min(a: nat, b: nat): nat { if a < b then a else b }

  function Aged(cap: nat, rows: seq<PendingRow>): (aged: seq<PendingRow>)
    ensures |aged| == Min(cap / 2, |rows|)
  {
    SortKeeps(rows, AgeLeq);
    Sort(rows, AgeLeq)[..Min(cap / 2, |rows|)]
  }

  function Rest(cap: nat, rows: seq<PendingRow>): seq<PendingRow> {
    Sort(Without(rows, Ids(Aged(cap, rows))), PriorityLeq)
  }

  function Picked(cap: nat, rows: seq<PendingRow>): seq<PendingRow> {
    Aged(cap, rows) + Rest(cap, rows)[..Min(cap - |Aged(cap, rows)|, |Rest(cap, rows)|)]
  }

  /** The oldest rows fill half of the cap, the best of the others what is left. */
  function SelectForStage(cap: int, rows: seq<PendingRow>): seq<string> {
    if cap <= 0 || rows == [] then [] else Ids(Picked(cap, rows))
  }

  lemma {:induction false} WithoutAre(rows: seq<PendingRow>, taken: seq<string>)
    ensures forall x :: x in Without(rows, taken) <==> x in rows && x.id !in taken
    ensures DistinctIds(rows) ==> DistinctIds(Without(rows, taken))
  {
    if rows != [] {
      var n := |rows| - 1;
      assert rows == rows[..n] + [rows[n]];
      WithoutAre(rows[..n], taken);
    }
  }

  /** Taking distinct present ids away leaves that many rows fewer. */
  lemma {:induction false} WithoutCounts(rows: seq<PendingRow>, taken: seq<PendingRow>)
    requires DistinctIds(rows) && DistinctIds(taken) && forall t :: t in taken ==> t in rows
    ensures |Without(rows, Ids(taken))| == |rows| - |taken|
  {
    if taken == [] {
      WithoutNone(rows);
    } else {
      var n := |taken| - 1;
      assert taken == taken[..n] + [taken[n]];
      WithoutCounts(rows, taken[..n]);
      forall r | r in rows && r.id == taken[n].id ensures r == taken[n] {
        SameRow(rows, r, taken[n]);
      }
      WithoutOneMore(rows, Ids(taken[..n]), taken[n]);
      assert Ids(taken) == Ids(taken[..n]) + [taken[n].id];
    }
  }

  lemma SameRow(rows: seq<PendingRow>, a: PendingRow, b: PendingRow)
    requires DistinctIds(rows) && a in rows && b in rows && a.id == b.id
    ensures a == b
  {
    var i :| 0 <= i < |rows| && rows[i] == a;
    var j :| 0 <= j < |rows| && rows[j] == b;
    assert i == j;
  }

  lemma TakeMember(rows: seq<PendingRow>, n: nat, j: nat)
    requires n <= |rows| && j < |rows|
    ensures j < n ==> rows[j] in rows[..n]
  {
    if j < n {
      assert rows[..n][j] == rows[j];
    }
  }

  lemma {:induction false} WithoutNone(rows: seq<PendingRow>)
    ensures Without(rows, []) == rows
  {
    if rows != [] {
      WithoutNone(rows[..|rows| - 1]);
    }
  }

  lemma {:induction false} WithoutOneMore(rows: seq<PendingRow>, taken: seq<string>, t: PendingRow)
    requires DistinctIds(rows) && t.id !in taken
    requires forall r :: r in rows && r.id == t.id ==> r == t
    ensures |Without(rows, taken + [t.id])| == |Without(rows, taken)| - if t in rows then 1 else 0
  {
    if rows != [] {
      var n := |rows| - 1;
      assert rows == rows[..n] + [rows[n]];
      WithoutOneMore(rows[..n], taken, t);
      assert rows[n] == t ==> t !in rows[..n];
    }
  }

  // ----- what a selection contains -----

  lemma AgedAre(cap: nat, rows: seq<PendingRow>)
    requires DistinctIds(rows)
    ensures DistinctIds(Aged(cap, rows))
    ensures forall x :: x in Aged(cap, rows) ==> x in rows
    ensures forall x, y :: x in Aged(cap, rows) && y in rows && y !in Aged(cap, rows) ==> x.enqueued <= y.enqueued
  {
    AgeIsOrder();
    SortKeeps(rows, AgeLeq);
    var sorted, n := Sort(rows, AgeLeq), |Aged(cap, rows)|;
    forall x, y | x in sorted[..n] && y in rows && y !in sorted[..n] ensures x.enqueued <= y.enqueued {
      var i :| 0 <= i < n && sorted[i] == x;
      var j :| 0 <= j < |sorted| && sorted[j] == y;
      TakeMember(sorted, n, j);
      assert AgeLeq(sorted[i], sorted[j]);
    }
  }

  lemma AgedTakesAll(cap: nat, rows: seq<PendingRow>)
    ensures |rows| <= cap / 2 ==> forall x :: x in rows ==> x in Aged(cap, rows)
  {
    SortKeeps(rows, AgeLeq);
    if |rows| <= cap / 2 {
      assert Aged(cap, rows) == Sort(rows, AgeLeq);
    }
  }

  lemma RestAre(cap: nat, rows: seq<PendingRow>)
    requires DistinctIds(rows)
    ensures DistinctIds(Rest(cap, rows)) && Sorted(Rest(cap, rows), PriorityLeq)
    ensures |Rest(cap, rows)| == |rows| - |Aged(cap, rows)|
    ensures forall x :: x in Rest(cap, rows) <==> x in rows && x !in Aged(cap, rows)
  {
    AgedAre(cap, rows);
    var aged := Aged(cap, rows);
    WithoutAre(rows, Ids(aged));
    WithoutCounts(rows, aged);
    PriorityIsOrder();
    SortKeeps(Without(rows, Ids(aged)), PriorityLeq);
    forall x | x in rows ensures x.id in Ids(aged) <==> x in aged {
      SameId(rows, aged, x);
    }
  }

  lemma SameId(rows: seq<PendingRow>, part: seq<PendingRow>, x: PendingRow)
    requires DistinctIds(rows) && x in rows && forall y :: y in part ==> y in rows
    ensures x.id in Ids(part) <==> x in part
  {
    if x in part {
      var i :| 0 <= i < |part| && part[i] == x;
      assert Ids(part)[i] == x.id;
    }
    if x.id in Ids(part) {
      var i :| 0 <= i < |part| && Ids(part)[i] == x.id;
      assert part[i] in rows;
      SameRow(rows, part[i], x);
    }
  }

  /** Exactly min(cap, n) distinct pending rows are taken. */
  lemma SelectionIsExact(cap: nat, rows: seq<PendingRow>)
    requires DistinctIds(rows)
    ensures |SelectForStage(cap, rows)| == Min(cap, |rows|)
    ensures Distinct(SelectForStage(cap, rows))
    ensures forall id :: id in SelectForStage(cap, rows) ==> exists r :: r in rows && r.id == id
  {
    if cap > 0 && rows != [] {
      AgedAre(cap, rows);
      RestAre(cap, rows);
      var picked := Picked(cap, rows);
      assert DistinctIds(picked) by {
        forall i, j | 0 <= i < j < |picked| ensures picked[i].id != picked[j].id {
          PickedDiffer(cap, rows, i, j);
        }
      }
      forall id | id in Ids(picked) ensures exists r :: r in rows && r.id == id {
        var i :| 0 <= i < |picked| && picked[i].id == id;
        assert picked[i] in rows;
      }
    }
  }

  lemma PickedDiffer(cap: nat, rows: seq<PendingRow>, i: nat, j: nat)
    requires DistinctIds(rows) && i < j < |Picked(cap, rows)|
    ensures Picked(cap, rows)[i].id != Picked(cap, rows)[j].id
  {
    AgedAre(cap, rows);
    RestAre(cap, rows);
    var aged, rest := Aged(cap, rows), Rest(cap, rows);
    if i < |aged| <= j {
      var x, y := aged[i], rest[j - |aged|];
      assert x in aged && y in rest;
      SameId(rows, aged, y);
      assert Ids(aged)[i] == x.id;
    }
  }

  lemma PickedIds(cap: nat, rows: seq<PendingRow>, x: PendingRow)
    requires DistinctIds(rows) && cap > 0 && x in rows
    ensures x.id in SelectForStage(cap, rows) <==> x in Picked(cap, rows)
  {
    AgedAre(cap, rows);
    RestAre(cap, rows);
    assert forall y :: y in Picked(cap, rows) ==> y in rows;
    SameId(rows, Picked(cap, rows), x);
  }

  /** A row that is left out is no older than the oldest cap / 2 taken, and no row taken beyond those
      ranks below it. */
  lemma LeftOutFairly(cap: nat, rows: seq<PendingRow>, x: PendingRow)
    requires DistinctIds(rows) && cap > 0 && x in rows && x.id !in SelectForStage(cap, rows)
    ensures |Aged(cap, rows)| == cap / 2
    ensures forall y :: y in Aged(cap, rows) ==> y.enqueued <= x.enqueued && y.id in SelectForStage(cap, rows)
    ensures forall y :: y in rows && y.id in SelectForStage(cap, rows) && y !in Aged(cap, rows) ==> PriorityLeq(y, x)
  {
    AgedAre(cap, rows);
    RestAre(cap, rows);
    PickedIds(cap, rows, x);
    var aged, rest := Aged(cap, rows), Rest(cap, rows);
    AgedTakesAll(cap, rows);
    forall y | y in aged ensures y.enqueued <= x.enqueued && y.id in SelectForStage(cap, rows) {
      PickedIds(cap, rows, y);
    }
    forall y | y in rows && y.id in SelectForStage(cap, rows) && y !in aged ensures PriorityLeq(y, x) {
      PickedIds(cap, rows, y);
      var n := Min(cap - |aged|, |rest|);
      var i :| 0 <= i < n && rest[i] == y;
      var j :| 0 <= j < |rest| && rest[j] == x;
      TakeMember(rest, n, j);
    }
  }

  // ----- no starvation -----

  /** The rows older than x. */
  function OlderThan(rows: seq<PendingRow>, x: PendingRow): set<string> {
    set r | r in rows && r.enqueued < x.enqueued :: r.id
  }

  ghost predicate DistinctAges(rows: seq<PendingRow>) {
    forall a, b :: a in rows && b in rows && a.id != b.id ==> a.enqueued != b.enqueued
  }

  /** One round: the selected rows leave, newer ones arrive. */
  function Round(cap: nat, rows: seq<PendingRow>, arrivals: seq<PendingRow>): seq<PendingRow> {
    Without(rows, SelectForStage(cap, rows)) + arrivals
  }

  ghost predicate Arrive(rows: seq<PendingRow>, arrivals: seq<PendingRow>) {
    && DistinctIds(rows + arrivals) && DistinctAges(rows + arrivals)
    && forall a, r :: a in arrivals && r in rows ==> r.enqueued < a.enqueued
  }

  function After(cap: nat, rows: seq<PendingRow>, arrivals: seq<seq<PendingRow>>): seq<PendingRow> {
    if arrivals == [] then rows
    else Round(cap, After(cap, rows, arrivals[..|arrivals| - 1]), arrivals[|arrivals| - 1])
  }

  /** Arrivals are new rows with higher enqueue numbers than everything pending. */
  ghost predicate Flows(cap: nat, rows: seq<PendingRow>, arrivals: seq<seq<PendingRow>>) {
    DistinctIds(rows) && DistinctAges(rows) &&
    forall k :: 0 <= k < |arrivals| ==> Arrive(After(cap, rows, arrivals[..k]), arrivals[k])
  }

  /** The row was left out in every one of these rounds. */
  ghost predicate LeftOut(cap: nat, rows: seq<PendingRow>, arrivals: seq<seq<PendingRow>>, x: PendingRow) {
    forall k :: 0 <= k < |arrivals| ==> x.id !in SelectForStage(cap, After(cap, rows, arrivals[..k]))
  }

  lemma RoundKeeps(cap: nat, rows: seq<PendingRow>, arrivals: seq<PendingRow>)
    requires Arrive(rows, arrivals)
    ensures DistinctIds(Round(cap, rows, arrivals)) && DistinctAges(Round(cap, rows, arrivals))
  {
    var kept := Without(rows, SelectForStage(cap, rows));
    DistinctParts(rows, arrivals);
    WithoutAre(rows, SelectForStage(cap, rows));
    forall i, j | 0 <= i < j < |kept + arrivals| ensures (kept + arrivals)[i].id != (kept + arrivals)[j].id {
      if i < |kept| <= j {
        assert kept[i] in kept && arrivals[j - |kept|] in arrivals;
      }
    }
    forall a, b | a in kept + arrivals && b in kept + arrivals && a.id != b.id ensures a.enqueued != b.enqueued {
      assert a in rows + arrivals && b in rows + arrivals;
    }
  }

  lemma DistinctParts(a: seq<PendingRow>, b: seq<PendingRow>)
    requires DistinctIds(a + b)
    ensures DistinctIds(a) && DistinctIds(b)
    ensures forall x, y :: x in a && y in b ==> x.id != y.id
  {
    var all := a + b;
    forall i, j | 0 <= i < j < |a| ensures a[i].id != a[j].id {
      assert all[i].id != all[j].id;
    }
    forall i, j | 0 <= i < j < |b| ensures b[i].id != b[j].id {
      assert all[|a| + i].id != all[|a| + j].id;
    }
    forall x, y | x in a && y in b ensures x.id != y.id {
      var i :| 0 <= i < |a| && a[i] == x;
      var j :| 0 <= j < |b| && b[j] == y;
      assert all[i].id != all[|a| + j].id;
    }
  }

  /** A row left out stays, and half a cap of the rows before it is gone. */
  lemma LeftOutMovesUp(cap: nat, rows: seq<PendingRow>, arrivals: seq<PendingRow>, x: PendingRow)
    requires Arrive(rows, arrivals) && cap > 0
    requires x in rows && x.id !in SelectForStage(cap, rows)
    ensures x in Round(cap, rows, arrivals)
    ensures |OlderThan(Round(cap, rows, arrivals), x)| + cap / 2 <= |OlderThan(rows, x)|
  {
    var aged := Aged(cap, rows);
    DistinctParts(rows, arrivals);
    WithoutAre(rows, SelectForStage(cap, rows));
    AgesInPart(rows, arrivals);
    LeftOutFairly(cap, rows, x);
    AgedAre(cap, rows);
    IdSetSize(aged);
    AgedAreOlder(cap, rows, x);
    TakenAreGone(cap, rows, arrivals, x);
    SubsetSize(OlderThan(Round(cap, rows, arrivals), x), OlderThan(rows, x) - IdSet(aged));
    SubsetSize(IdSet(aged), OlderThan(rows, x));
  }

  function IdSet(rows: seq<PendingRow>): set<string> {
    set i | 0 <= i < |rows| :: rows[i].id
  }

  lemma AgesInPart(rows: seq<PendingRow>, arrivals: seq<PendingRow>)
    requires DistinctAges(rows + arrivals)
    ensures DistinctAges(rows)
  {
    forall a, b | a in rows && b in rows && a.id != b.id ensures a.enqueued != b.enqueued {
      assert a in rows + arrivals && b in rows + arrivals;
    }
  }

  lemma AgedAreOlder(cap: nat, rows: seq<PendingRow>, x: PendingRow)
    requires DistinctIds(rows) && DistinctAges(rows) && cap > 0
    requires x in rows && x.id !in SelectForStage(cap, rows)
    ensures IdSet(Aged(cap, rows)) <= OlderThan(rows, x)
  {
    var aged := Aged(cap, rows);
    LeftOutFairly(cap, rows, x);
    AgedAre(cap, rows);
    forall i | 0 <= i < |aged| ensures aged[i].id in OlderThan(rows, x) {
      assert aged[i] in aged;
    }
  }

  lemma TakenAreGone(cap: nat, rows: seq<PendingRow>, arrivals: seq<PendingRow>, x: PendingRow)
    requires Arrive(rows, arrivals) && DistinctIds(rows) && cap > 0
    requires x in rows && x.id !in SelectForStage(cap, rows)
    ensures OlderThan(Round(cap, rows, arrivals), x) <= OlderThan(rows, x) - IdSet(Aged(cap, rows))
  {
    var taken, aged := SelectForStage(cap, rows), Aged(cap, rows);
    WithoutAre(rows, taken);
    LeftOutFairly(cap, rows, x);
    forall r | r in Round(cap, rows, arrivals) && r.enqueued < x.enqueued
      ensures r.id in OlderThan(rows, x) && r.id !in IdSet(aged)
    {
      assert r in Without(rows, taken);
      forall i | 0 <= i < |aged| ensures aged[i].id != r.id {
        assert aged[i] in aged;
      }
    }
  }

  lemma SubsetSize<T>(a: set<T>, b: set<T>)
    requires a <= b
    ensures |a| <= |b| && |b - a| == |b| - |a|
  {
    assert b == a + (b - a);
  }

  lemma {:induction false} IdSetSize(rows: seq<PendingRow>)
    requires DistinctIds(rows)
    ensures |IdSet(rows)| == |rows|
  {
    if rows != [] {
      var n := |rows| - 1;
      IdSetSize(rows[..n]);
      forall i | 0 <= i < n ensures rows[i].id in IdSet(rows[..n]) {
        assert rows[..n][i] == rows[i];
      }
      assert IdSet(rows) == IdSet(rows[..n]) + {rows[n].id};
    }
  }

  /** A row left out for as many rounds as there are arrivals has moved up by half a cap each time. */
  lemma {:induction false} Waiting(cap: nat, rows: seq<PendingRow>, arrivals: seq<seq<PendingRow>>, x: PendingRow)
    requires cap > 0 && x in rows && Flows(cap, rows, arrivals) && LeftOut(cap, rows, arrivals, x)
    ensures var now := After(cap, rows, arrivals);
      && DistinctIds(now) && DistinctAges(now) && x in now
      && |OlderThan(now, x)| + |arrivals| * (cap / 2) <= |OlderThan(rows, x)|
  {
    if arrivals != [] {
      var n := |arrivals| - 1;
      var init := arrivals[..n];
      forall k | 0 <= k < n ensures arrivals[..k] == init[..k] {
      }
      Waiting(cap, rows, init, x);
      var before := After(cap, rows, init);
      assert Arrive(before, arrivals[n]);
      RoundKeeps(cap, before, arrivals[n]);
      LeftOutMovesUp(cap, before, arrivals[n], x);
      assert |arrivals| * (cap / 2) == n * (cap / 2) + cap / 2;
    }
  }

  /** With a cap of two or more, a row with k older rows is selected within k / (cap / 2) + 1 rounds,
      whatever arrives. */
  lemma NoStarvation(cap: nat, rows: seq<PendingRow>, arrivals: seq<seq<PendingRow>>, x: PendingRow)
    requires cap >= 2 && x in rows && Flows(cap, rows, arrivals)
    requires |arrivals| > |OlderThan(rows, x)| / (cap / 2)
    ensures exists k ::
      0 <= k <= |OlderThan(rows, x)| / (cap / 2) && x.id in SelectForStage(cap, After(cap, rows, arrivals[..k]))
  {
    var half, k := cap / 2, |OlderThan(rows, x)|;
    var rounds := k / half + 1;
    var first := arrivals[..rounds];
    forall j | 0 <= j < rounds ensures first[..j] == arrivals[..j] {
    }
    if LeftOut(cap, rows, first, x) {
      assert Flows(cap, rows, first);
      Waiting(cap, rows, first, x);
      Overshoots(k, half);
      assert false;
    } else {
      var j :| 0 <= j < |first| && x.id in SelectForStage(cap, After(cap, rows, first[..j]));
      assert first[..j] == arrivals[..j];
    }
  }

  lemma Overshoots(k: nat, half: nat)
    requires half > 0
    ensures (k / half + 1) * half > k
  {
  }

  /** Left out in each of n rounds of arrivals. */
  ghost predicate StarvedFor(n: nat, cap: nat, rows: seq<PendingRow>, arrivals: seq<seq<PendingRow>>, x: PendingRow) {
    x in rows && |arrivals| == n && Flows(cap, rows, arrivals) && LeftOut(cap, rows, arrivals, x)
  }

  /** With a cap of one there is no aged half, and newcomers of better priority keep one row waiting for
      any number of rounds. */
  lemma OneStarves(n: nat)
    ensures exists rows, arrivals, x :: StarvedFor(n, 1, rows, arrivals, x)
  {
    var arrivals := seq(n, k requires 0 <= k < n => [Newcomer(k + 1)]);
    OvertakenThroughout(arrivals);
    assert StarvedFor(n, 1, [Waiter(), Newcomer(0)], arrivals, Waiter());
  }

  lemma OvertakenThroughout(arrivals: seq<seq<PendingRow>>)
    requires forall j :: 0 <= j < |arrivals| ==> arrivals[j] == [Newcomer(j + 1)]
    ensures StarvedFor(|arrivals|, 1, [Waiter(), Newcomer(0)], arrivals, Waiter())
  {
    var rows := [Waiter(), Newcomer(0)];
    ArrivesWell(0);
    DistinctParts(rows, [Newcomer(1)]);
    AgesInPart(rows, [Newcomer(1)]);
    forall k | 0 <= k < |arrivals| ensures Arrive(After(1, rows, arrivals[..k]), arrivals[k]) {
      Overtaken(rows, arrivals, k);
      ArrivesWell(k);
    }
    forall k | 0 <= k < |arrivals| ensures Waiter().id !in SelectForStage(1, After(1, rows, arrivals[..k])) {
      Overtaken(rows, arrivals, k);
      NewcomerTaken(k);
    }
  }

  lemma ArrivesWell(k: nat)
    ensures Arrive([Waiter(), Newcomer(k)], [Newcomer(k + 1)])
  {
    var all := [Waiter(), Newcomer(k)] + [Newcomer(k + 1)];
    assert |all[0].id| == 0 && |all[1].id| == k + 1 && |all[2].id| == k + 2;
    assert all == [Waiter(), Newcomer(k), Newcomer(k + 1)];
  }

  function Waiter(): PendingRow { PendingRow("", 0, [[1]]) }

  function Newcomer(k: nat): PendingRow {
    PendingRow(seq(k + 1, _ => 'n'), k + 1, [[0]])
  }

  lemma NewcomerTaken(k: nat)
    ensures SelectForStage(1, [Waiter(), Newcomer(k)]) == [Newcomer(k).id]
    ensures Round(1, [Waiter(), Newcomer(k)], [Newcomer(k + 1)]) == [Waiter(), Newcomer(k + 1)]
  {
    var rows := [Waiter(), Newcomer(k)];
    assert |Newcomer(k).id| == k + 1;
    assert Aged(1, rows) == [];
    WithoutNone(rows);
    assert Ids([]) == [];
    assert rows[..1] == [Waiter()] && rows[..1][..0] == [];
    assert Sort(rows[..1], PriorityLeq) == [Waiter()];
    assert !PriorityLeq(Waiter(), Newcomer(k));
    assert [Waiter()][..0] == [] && Insert([], Newcomer(k), PriorityLeq) == [Newcomer(k)];
    assert Insert([Waiter()], Newcomer(k), PriorityLeq) == [Newcomer(k)] + [Waiter()];
    assert Sort(rows, PriorityLeq) == [Newcomer(k), Waiter()];
    assert Picked(1, rows) == [Newcomer(k)];
    assert Without(rows[..1], [Newcomer(k).id]) == [Waiter()];
    assert Without(rows, [Newcomer(k).id]) == [Waiter()];
  }

  lemma {:induction false} Overtaken(rows: seq<PendingRow>, arrivals: seq<seq<PendingRow>>, k: nat)
    requires rows == [Waiter(), Newcomer(0)] && k <= |arrivals|
    requires forall j :: 0 <= j < |arrivals| ==> arrivals[j] == [Newcomer(j + 1)]
    ensures After(1, rows, arrivals[..k]) == [Waiter(), Newcomer(k)]
  {
    if k > 0 {
      Overtaken(rows, arrivals, k - 1);
      assert arrivals[..k][..k - 1] == arrivals[..k - 1];
      NewcomerTaken(k - 1);
    }
  }

  // ----- retries -----

  datatype Retry = RetryAt(run: nat) | GiveUp

  /** One failed attempt: back off while attempts remain. */
  function RetryOutcome(attemptsBefore: nat, currentRun: nat): (r: Retry)
    requires attemptsBefore < MAX_ATTEMPTS
    ensures r.GiveUp? <==> attemptsBefore + 1 == MAX_ATTEMPTS
    ensures r.RetryAt? ==> currentRun < r.run <= currentRun + 2
  {
    var attemptsNow := attemptsBefore + 1;
    if attemptsNow >= MAX_ATTEMPTS then GiveUp else RetryAt(currentRun + RETRY_BACKOFF_RUNS[attemptsNow - 1])
  }
}
