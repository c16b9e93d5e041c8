/** What a line of marks says and does, token by token (apps/cli/onboarding.py:260-340). */
module MarkLines {
  import opened Basics
  import opened Onboarding

  // ----- what a line says -----

  /** A number, or a range that does not run backwards, with the letter of a mark. */
  predicate Readable(t: Token) {
    t.mark.Some? && (t.body.Number? || (t.body.Range? && t.body.low <= t.body.high))
  }

  predicate Names(t: Token, n: nat) {
    t.body == Number(n) || (t.body.Range? && t.body.low <= n <= t.body.high)
  }

  /** Some token gives the item this mark. */
  predicate Says(line: Line, n: nat, m: Mark) {
    exists i :: 0 <= i < |line| && Names(line[i], n) && line[i].mark == Some(m)
  }

  lemma NamedAre(t: Token)
    ensures Named(t).Some? <==> Readable(t)
    ensures Named(t).Some? ==> Named(t).value != [] && forall n :: n in Named(t).value <==> Names(t, n)
    ensures Named(t).Some? ==> forall i, j :: 0 <= i < j < |Named(t).value| ==> Named(t).value[i] != Named(t).value[j]
  {
    if Readable(t) && t.body.Range? {
      var ns := Upto(t.body.low, t.body.high);
      forall n: nat | Names(t, n) ensures n in ns {
        assert ns[n - t.body.low] == n;
      }
    }
  }

  lemma {:induction false} PairsAre(line: Line, n: nat, m: Mark)
    ensures Pairs(line).Some? <==> forall i :: 0 <= i < |line| ==> Readable(line[i])
    ensures Pairs(line).Some? ==> ((n, m) in Pairs(line).value <==> Says(line, n, m))
  {
    if line != [] {
      var k := |line| - 1;
      PairsAre(line[..k], n, m);
      NamedAre(line[k]);
      assert line == line[..k] + [line[k]];
      if Pairs(line).Some? {
        var last := WithMark(Named(line[k]).value, line[k].mark.value);
        assert (n, m) in last <==> Names(line[k], n) && line[k].mark == Some(m) by {
          if Names(line[k], n) && line[k].mark == Some(m) {
            var j :| 0 <= j < |last| && Named(line[k]).value[j] == n;
            assert last[j] == (n, m);
          }
        }
      }
    }
  }

  /** No item is named by two tokens. */
  ghost predicate NamedOnce(line: Line) {
    forall i, j, n: nat :: 0 <= i < j < |line| ==> !(Names(line[i], n) && Names(line[j], n))
  }

  ghost predicate Distinct(pairs: seq<(nat, Mark)>) {
    forall i, j :: 0 <= i < j < |pairs| ==> pairs[i].0 != pairs[j].0
  }

  lemma DistinctSplit(a: seq<(nat, Mark)>, b: seq<(nat, Mark)>)
    ensures Distinct(a + b) <==>
      Distinct(a) && Distinct(b) && forall i, j :: 0 <= i < |a| && 0 <= j < |b| ==> a[i].0 != b[j].0
  {
    if Distinct(a + b) {
      assert forall i :: 0 <= i < |a| ==> (a + b)[i] == a[i];
      assert forall j :: 0 <= j < |b| ==> (a + b)[|a| + j] == b[j];
    }
  }

  predicate Mentions(line: Line, n: nat) {
    exists i :: 0 <= i < |line| && Names(line[i], n)
  }

  predicate HasItem(pairs: seq<(nat, Mark)>, n: nat) {
    exists i :: 0 <= i < |pairs| && pairs[i].0 == n
  }

  lemma ItemsAre(line: Line, n: nat)
    requires Pairs(line).Some?
    ensures HasItem(Pairs(line).value, n) <==> Mentions(line, n)
  {
    var pairs := Pairs(line).value;
    forall m ensures (n, m) in pairs <==> Says(line, n, m) {
      PairsAre(line, n, m);
    }
    PairsAre(line, n, Accept);
    if i :| 0 <= i < |pairs| && pairs[i].0 == n {
      assert pairs[i] == (n, pairs[i].1) && Says(line, n, pairs[i].1);
    }
    if i :| 0 <= i < |line| && Names(line[i], n) {
      assert Readable(line[i]) && Says(line, n, line[i].mark.value);
      assert (n, line[i].mark.value) in pairs;
    }
  }

  lemma {:induction false} DistinctMeans(line: Line)
    requires Pairs(line).Some?
    ensures Distinct(Pairs(line).value) <==> NamedOnce(line)
  {
    if line != [] {
      var k := |line| - 1;
      var front := line[..k];
      DistinctMeans(front);
      NamedAre(line[k]);
      var ns := Named(line[k]).value;
      var last := WithMark(ns, line[k].mark.value);
      DistinctSplit(Pairs(front).value, last);
      assert Distinct(last);
      forall n ensures HasItem(Pairs(front).value, n) <==> Mentions(front, n) {
        ItemsAre(front, n);
      }
      OnceSplit(line);
      Apart(Pairs(front).value, ns, last, front, line[k]);
    }
  }

  /** No item is named both by the last token and before it. */
  ghost predicate LastApart(front: Line, t: Token) {
    forall i, n: nat :: 0 <= i < |front| ==> !(Names(front[i], n) && Names(t, n))
  }

  lemma OnceSplit(line: Line)
    requires line != []
    ensures NamedOnce(line) <==> NamedOnce(line[..|line| - 1]) && LastApart(line[..|line| - 1], line[|line| - 1])
  {
    var k := |line| - 1;
    assert forall i :: 0 <= i < k ==> line[..k][i] == line[i];
    if NamedOnce(line) {
      forall i, n: nat | 0 <= i < k ensures !(Names(line[..k][i], n) && Names(line[k], n)) {
      }
    }
  }

  lemma Apart(pairs: seq<(nat, Mark)>, ns: seq<nat>, last: seq<(nat, Mark)>, front: Line, t: Token)
    requires |last| == |ns| && forall j :: 0 <= j < |ns| ==> last[j].0 == ns[j]
    requires forall n :: n in ns <==> Names(t, n)
    requires forall n: nat :: HasItem(pairs, n) <==> Mentions(front, n)
    ensures (forall i, j :: 0 <= i < |pairs| && 0 <= j < |last| ==> pairs[i].0 != last[j].0) <==> LastApart(front, t)
  {
    if forall i, j :: 0 <= i < |pairs| && 0 <= j < |last| ==> pairs[i].0 != last[j].0 {
      forall i, n: nat | 0 <= i < |front| && Names(front[i], n) ensures !Names(t, n) {
        assert Mentions(front, n) && HasItem(pairs, n);
      }
    }
    if LastApart(front, t) {
      forall i, j | 0 <= i < |pairs| && 0 <= j < |last| ensures pairs[i].0 != last[j].0 {
        assert HasItem(pairs, pairs[i].0) && Mentions(front, pairs[i].0);
        assert last[j].0 in ns;
      }
    }
  }

  lemma AllWaiting(pairs: seq<(nat, Mark)>, line: Line, pending: set<nat>)
    requires forall n: nat :: HasItem(pairs, n) <==> Mentions(line, n)
    ensures (forall i :: 0 <= i < |pairs| ==> pairs[i].0 in pending) <==>
      forall i, n: nat :: 0 <= i < |line| && Names(line[i], n) ==> n in pending
  {
    if forall i :: 0 <= i < |pairs| ==> pairs[i].0 in pending {
      forall i, n: nat | 0 <= i < |line| && Names(line[i], n) ensures n in pending {
        assert Mentions(line, n) && HasItem(pairs, n);
      }
    }
    if forall i, n: nat :: 0 <= i < |line| && Names(line[i], n) ==> n in pending {
      forall i | 0 <= i < |pairs| ensures pairs[i].0 in pending {
        assert HasItem(pairs, pairs[i].0) && Mentions(line, pairs[i].0);
      }
    }
  }

  /** A line can be used exactly when it says something, each token can be read, each item named is waiting, and none
      is named twice. */
  lemma UsableMeans(line: Line, pending: set<nat>)
    ensures Usable(line, pending) <==>
      && line != [] && (forall i :: 0 <= i < |line| ==> Readable(line[i])) && NamedOnce(line)
      && forall i, n: nat :: 0 <= i < |line| && Names(line[i], n) ==> n in pending
  {
    PairsAre(line, 0, Accept);
    if Pairs(line).Some? {
      var pairs := Pairs(line).value;
      DistinctMeans(line);
      forall n ensures HasItem(pairs, n) <==> Mentions(line, n) {
        ItemsAre(line, n);
      }
      AllWaiting(pairs, line, pending);
      if line != [] {
        NamedAre(line[|line| - 1]);
      }
    }
  }

  /** And then it gives each item it names the mark of the token that names it, and no other. */
  lemma MarksMean(line: Line, pending: set<nat>, n: nat, m: Mark)
    requires Usable(line, pending)
    ensures var marks := MarksOf(Pairs(line).value);
      n in marks && marks[n] == m <==> Says(line, n, m)
  {
    PairsAre(line, n, m);
    MarksListed(Pairs(line).value, n, m);
  }

  lemma {:induction false} MarksListed(pairs: seq<(nat, Mark)>, n: nat, m: Mark)
    requires Distinct(pairs)
    ensures n in MarksOf(pairs) && MarksOf(pairs)[n] == m <==> (n, m) in pairs
  {
    if pairs != [] {
      var k := |pairs| - 1;
      MarksListed(pairs[..k], n, m);
      assert pairs == pairs[..k] + [pairs[k]];
      if pairs[k].0 == n && (n, m) in pairs {
        var i :| 0 <= i < |pairs| && pairs[i] == (n, m);
        assert i == k;
      }
    }
  }

  // ----- what it does -----

  /** The line gives the item a mark that counts now. */
  predicate Gives(s: Sheet, marks: map<nat, Mark>, i: nat, m: Mark) {
    i in marks && marks[i] == m && i !in s.deferred
  }

  /** The item is a fact of an experience that the line rejects. */
  predicate Drags(s: Sheet, facts: map<nat, set<nat>>, marks: map<nat, Mark>, i: nat) {
    exists e :: e in marks && marks[e] == Reject && e !in s.deferred && e in facts && i in facts[e]
  }

  /** A usable line marks the items it names and rejects the facts of the experiences it rejects; those wait no more,
      marks on items of a later phase do not count, and nothing else changes. */
  lemma AppliedMeans(s: Sheet, facts: map<nat, set<nat>>, marks: map<nat, Mark>, i: nat)
    ensures var n, drags := Applied(s, facts, marks), Drags(s, facts, marks, i);
      && (drags ==> i in n.marks && n.marks[i] == Reject)
      && (!drags ==> forall m :: Gives(s, marks, i, m) ==> i in n.marks && n.marks[i] == m)
      && (!drags && (i !in marks || i in s.deferred) ==>
            (i in n.marks <==> i in s.marks) && (i in s.marks ==> n.marks[i] == s.marks[i]))
      && (i in n.pending <==> i in s.pending && !drags && (i !in marks || i in s.deferred))
      && (i in n.deferred <==> i in s.deferred && !drags)
  {
    var now := Current(marks, s.deferred);
    assert i in Cascaded(facts, now) <==> Drags(s, facts, marks, i) by {
      if e :| e in marks && marks[e] == Reject && e !in s.deferred && e in facts && i in facts[e] {
        assert e in now && i in Cascade(facts, e, now[e]);
      }
    }
  }
}
