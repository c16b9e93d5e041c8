/** The list a stage works through, place by place: the oldest first, then the best of the others
    (packages/domain/promotion.py:18-71). */
module Selection {
  import opened Basics
  import opened Promotion

  // ----- what comes before what -----

  /** At the first place where they differ a has the smaller number, or a ends there. */
  predicate WordBefore(a: seq<int>, b: seq<int>) {
    exists m :: 0 <= m <= |a| && m < |b| && a[..m] == b[..m] && (m == |a| || a[m] < b[m])
  }

  predicate KeyBefore(a: PriorityKey, b: PriorityKey) {
    exists m :: 0 <= m <= |a| && m < |b| && a[..m] == b[..m] && (m == |a| || WordBefore(a[m], b[m]))
  }

  lemma NotItself(a: seq<int>)
    ensures !WordBefore(a, a)
  {
  }

  lemma WordStep(a: seq<int>, b: seq<int>)
    requires a != [] && b != [] && a[0] == b[0]
    ensures WordBefore(a, b) <==> WordBefore(a[1..], b[1..])
  {
    if m :| 0 <= m <= |a| && m < |b| && a[..m] == b[..m] && (m == |a| || a[m] < b[m]) {
      assert m > 0 && a[1..][..m - 1] == a[..m][1..] && b[1..][..m - 1] == b[..m][1..];
      assert m < |a| ==> a[1..][m - 1] < b[1..][m - 1];
    }
    if m :| 0 <= m <= |a| - 1 && m < |b| - 1 && a[1..][..m] == b[1..][..m] && (m == |a| - 1 || a[1..][m] < b[1..][m]) {
      assert a[..m + 1] == [a[0]] + a[1..][..m] && b[..m + 1] == [b[0]] + b[1..][..m];
    }
  }

  lemma {:induction false} WordMeans(a: seq<int>, b: seq<int>)
    ensures WordLeq(a, b) <==> a == b || WordBefore(a, b)
  {
    if a == [] && b != [] {
      assert a[..0] == b[..0];
    } else if a != [] && b != [] && a[0] == b[0] {
      WordStep(a, b);
      WordMeans(a[1..], b[1..]);
      assert a == [a[0]] + a[1..] && b == [b[0]] + b[1..];
    } else if a != [] && b != [] {
      assert a[..0] == b[..0];
      assert forall m :: 0 < m <= |a| && m <= |b| ==> a[..m][0] != b[..m][0];
    }
  }

  lemma KeyStep(a: PriorityKey, b: PriorityKey)
    requires a != [] && b != [] && a[0] == b[0]
    ensures KeyBefore(a, b) <==> KeyBefore(a[1..], b[1..])
  {
    if m :| 0 <= m <= |a| && m < |b| && a[..m] == b[..m] && (m == |a| || WordBefore(a[m], b[m])) {
      if m == 0 {
        NotItself(a[0]);
      }
      assert m > 0 && a[1..][..m - 1] == a[..m][1..] && b[1..][..m - 1] == b[..m][1..];
      assert m < |a| ==> a[1..][m - 1] == a[m] && b[1..][m - 1] == b[m];
    }
    if KeyBefore(a[1..], b[1..]) {
      var m :| 0 <= m <= |a| - 1 && m < |b| - 1 && a[1..][..m] == b[1..][..m]
        && (m == |a| - 1 || WordBefore(a[1..][m], b[1..][m]));
      assert a[..m + 1] == [a[0]] + a[1..][..m] && b[..m + 1] == [b[0]] + b[1..][..m];
    }
  }

  lemma {:induction false} KeyMeans(a: PriorityKey, b: PriorityKey)
    ensures KeyLeq(a, b) <==> a == b || KeyBefore(a, b)
  {
    if a == [] && b != [] {
      assert a[..0] == b[..0];
    } else if a != [] && b != [] && a[0] == b[0] {
      KeyStep(a, b);
      KeyMeans(a[1..], b[1..]);
      assert a == [a[0]] + a[1..] && b == [b[0]] + b[1..];
    } else if a != [] && b != [] {
      WordMeans(a[0], b[0]);
      assert a[..0] == b[..0];
      assert forall m :: 0 < m <= |a| && m <= |b| ==> a[..m][0] != b[..m][0];
    }
  }

  /** By key, and among equal keys by number. */
  predicate NoWorse(a: PendingRow, b: PendingRow) {
    KeyBefore(a.priority, b.priority) || (a.priority == b.priority && a.enqueued <= b.enqueued)
  }

  lemma PriorityMeans(a: PendingRow, b: PendingRow)
    ensures PriorityLeq(a, b) <==> NoWorse(a, b)
  {
    KeyMeans(a.priority, b.priority);
    if a.priority == b.priority && KeyBefore(a.priority, b.priority) {
      KeyNotItself(a.priority);
    }
  }

  lemma KeyNotItself(a: PriorityKey)
    ensures !KeyBefore(a, a)
  {
    forall m | 0 <= m < |a| ensures !WordBefore(a[m], a[m]) {
      NotItself(a[m]);
    }
  }

  // ----- the list -----

  /** Rows in order of age, none of them younger than any other row. */
  ghost predicate Oldest(rows: seq<PendingRow>, aged: seq<PendingRow>) {
    && (forall x :: x in aged ==> x in rows)
    && (forall i, j :: 0 <= i < j < |aged| ==> aged[i].enqueued <= aged[j].enqueued)
    && (forall y, x :: y in aged && x in rows && x !in aged ==> y.enqueued <= x.enqueued)
  }

  /** Of the rows besides those, some in order of priority, none of them behind any other. */
  ghost predicate Best(rows: seq<PendingRow>, aged: seq<PendingRow>, best: seq<PendingRow>) {
    && (forall x :: x in best ==> x in rows && x !in aged)
    && (forall i, j :: 0 <= i < j < |best| ==> NoWorse(best[i], best[j]))
    && (forall y, x :: y in best && x in rows && x !in aged && x !in best ==> NoWorse(y, x))
  }

  lemma AgedOldest(cap: nat, rows: seq<PendingRow>)
    requires DistinctIds(rows)
    ensures Oldest(rows, Aged(cap, rows))
  {
    AgedAre(cap, rows);
    AgeIsOrder();
    SortKeeps(rows, AgeLeq);
    var sorted, aged := Sort(rows, AgeLeq), Aged(cap, rows);
    forall i, j | 0 <= i < j < |aged| ensures aged[i].enqueued <= aged[j].enqueued {
      assert AgeLeq(sorted[i], sorted[j]);
    }
  }

  lemma RestBest(cap: nat, rows: seq<PendingRow>, k: nat)
    requires DistinctIds(rows) && k <= |Rest(cap, rows)|
    ensures Best(rows, Aged(cap, rows), Rest(cap, rows)[..k])
  {
    RestAre(cap, rows);
    var aged, rest := Aged(cap, rows), Rest(cap, rows);
    forall x | x in rest[..k] ensures x in rows && x !in aged {
      assert x in rest;
    }
    forall i, j | 0 <= i < j < k ensures NoWorse(rest[i], rest[j]) {
      PriorityMeans(rest[i], rest[j]);
    }
    forall y, x | y in rest[..k] && x in rows && x !in aged && x !in rest[..k] ensures NoWorse(y, x) {
      TakenFirst(rest, k, y, x);
      PriorityMeans(y, x);
    }
  }

  lemma TakenFirst(xs: seq<PendingRow>, k: nat, y: PendingRow, x: PendingRow)
    requires Sorted(xs, PriorityLeq) && k <= |xs| && y in xs[..k] && x in xs && x !in xs[..k]
    ensures PriorityLeq(y, x)
  {
    var i :| 0 <= i < k && xs[i] == y;
    var j :| 0 <= j < |xs| && xs[j] == x;
    if j < k {
      AtFront(xs, k, j);
    }
  }

  lemma AtFront(xs: seq<PendingRow>, k: nat, j: nat)
    requires j < k <= |xs|
    ensures xs[j] in xs[..k]
  {
    assert xs[..k][j] == xs[j];
  }

  /** The two parts of the list, and how long they are. */
  ghost predicate Halves(cap: nat, rows: seq<PendingRow>, ids: seq<string>, aged: seq<PendingRow>,
                         best: seq<PendingRow>) {
    && ids == Ids(aged + best) && Oldest(rows, aged) && Best(rows, aged, best)
    && |aged| == (if cap / 2 < |rows| then cap / 2 else |rows|)
    && |aged| + |best| == (if cap < |rows| then cap else |rows|)
  }

  lemma NothingPicked(cap: nat, rows: seq<PendingRow>)
    requires cap == 0 || rows == []
    ensures Halves(cap, rows, SelectForStage(cap, rows), [], [])
  {
  }

  lemma PickedHalves(cap: nat, rows: seq<PendingRow>, best: seq<PendingRow>)
    requires DistinctIds(rows) && cap > 0 && rows != []
    requires best == Rest(cap, rows)[..Min(cap - |Aged(cap, rows)|, |Rest(cap, rows)|)]
    ensures Halves(cap, rows, SelectForStage(cap, rows), Aged(cap, rows), best)
  {
    RestAre(cap, rows);
    AgedOldest(cap, rows);
    RestBest(cap, rows, |best|);
  }

  /** The first half of the cap, rounded down, goes to the oldest rows in order of age, and what is left of the cap to
      the best of the others in order of priority, for as many rows as there are. */
  lemma SelectedInOrder(cap: nat, rows: seq<PendingRow>)
    requires DistinctIds(rows)
    ensures exists aged, best :: Halves(cap, rows, SelectForStage(cap, rows), aged, best)
  {
    if cap == 0 || rows == [] {
      NothingPicked(cap, rows);
    } else {
      PickedHalves(cap, rows, Rest(cap, rows)[..Min(cap - |Aged(cap, rows)|, |Rest(cap, rows)|)]);
    }
  }
}
