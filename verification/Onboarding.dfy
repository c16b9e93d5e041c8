/** The review of an extracted CV: every experience and fact gets its own mark, in two phases
    (apps/cli/onboarding.py:260-542). A line typed by the user is a list of tokens already split off. */
module Onboarding {
  import opened Basics

  datatype Mark = Accept | EditMark | Reject

  datatype Body = Number(n: nat) | Range(low: nat, high: nat) | Garbage

  /** A word of a line: what it names, and the mark its last letter stands for, if any. */
  datatype Token = Token(body: Body, mark: Option<Mark>)

  type Line = seq<Token>

  // ----- one line -----

  function Upto(low: nat, high: nat): (ns: seq<nat>)
    requires low <= high
    ensures |ns| == high - low + 1 && forall i :: 0 <= i < |ns| ==> ns[i] == low + i
  {
    seq(high - low + 1, i requires 0 <= i => low + i)
  }

  /** The item numbers a token names, if it can be read. */
  function Named(t: Token): Option<seq<nat>> {
    if t.mark.None? then None
    else
      match t.body
      case Number(n) => Some([n])
      case Range(low, high) => if high < low then None else Some(Upto(low, high))
      case Garbage => None
  }

  /** Everything a line says, in order, if all of it can be read. */
  function Pairs(line: Line): Option<seq<(nat, Mark)>> {
    if line == [] then Some([])
    else
      var n := |line| - 1;
      var before, last := Pairs(line[..n]), Named(line[n]);
      if before.None? || last.None? then None
      else Some(before.value + WithMark(last.value, line[n].mark.value))
  }

  function WithMark(ns: seq<nat>, m: Mark): (ps: seq<(nat, Mark)>)
    ensures |ps| == |ns| && forall i :: 0 <= i < |ps| ==> ps[i] == (ns[i], m)
  {
    seq(|ns|, i requires 0 <= i < |ns| => (ns[i], m))
  }

  /** Each number is waiting for a mark and is named once. */
  ghost predicate Fits(pairs: seq<(nat, Mark)>, pending: set<nat>) {
    && (forall i :: 0 <= i < |pairs| ==> pairs[i].0 in pending)
    && (forall i, j :: 0 <= i < j < |pairs| ==> pairs[i].0 != pairs[j].0)
  }

  /** Every token can be read, and each item it names still waits and is named once. */
  ghost predicate Usable(line: Line, pending: set<nat>) {
    Pairs(line).Some? && Pairs(line).value != [] && Fits(Pairs(line).value, pending)
  }

  function MarksOf(pairs: seq<(nat, Mark)>): map<nat, Mark> {
    if pairs == [] then map[]
    else MarksOf(pairs[..|pairs| - 1])[pairs[|pairs| - 1].0 := pairs[|pairs| - 1].1]
  }

  lemma {:induction false} MarksNameThePairs(pairs: seq<(nat, Mark)>)
    ensures forall n :: n in MarksOf(pairs) <==> exists i :: 0 <= i < |pairs| && pairs[i].0 == n
  {
    if pairs != [] {
      var k := |pairs| - 1;
      MarksNameThePairs(pairs[..k]);
      forall n ensures n in MarksOf(pairs) <==> exists i :: 0 <= i < |pairs| && pairs[i].0 == n {
        if i :| 0 <= i < |pairs| && pairs[i].0 == n {
          assert i < k ==> pairs[..k][i].0 == n;
        }
        if n in MarksOf(pairs[..k]) {
          var i :| 0 <= i < k && pairs[..k][i].0 == n;
          assert pairs[i].0 == n;
        }
      }
    }
  }

  lemma FitsOn(pairs: seq<(nat, Mark)>, p: (nat, Mark), pending: set<nat>)
    ensures Fits(pairs + [p], pending) <==> Fits(pairs, pending) && p.0 in pending && p.0 !in MarksOf(pairs)
    ensures MarksOf(pairs + [p]) == MarksOf(pairs)[p.0 := p.1]
  {
    var more := pairs + [p];
    assert more[..|pairs|] == pairs;
    MarksNameThePairs(pairs);
    if Fits(more, pending) {
      assert more[|pairs|] == p;
      forall i | 0 <= i < |pairs| ensures pairs[i].0 in pending && pairs[i].0 != p.0 {
        assert more[i] == pairs[i];
      }
      forall i, j | 0 <= i < j < |pairs| ensures pairs[i].0 != pairs[j].0 {
        assert more[i] == pairs[i] && more[j] == pairs[j];
      }
    }
  }

  lemma FitsPrefix(pairs: seq<(nat, Mark)>, more: seq<(nat, Mark)>, pending: set<nat>)
    ensures Fits(pairs + more, pending) ==> Fits(pairs, pending)
  {
    if Fits(pairs + more, pending) {
      forall i | 0 <= i < |pairs| ensures pairs[i].0 in pending {
        assert (pairs + more)[i] == pairs[i];
      }
      forall i, j | 0 <= i < j < |pairs| ensures pairs[i].0 != pairs[j].0 {
        assert (pairs + more)[i] == pairs[i] && (pairs + more)[j] == pairs[j];
      }
    }
  }

  lemma SplitAt<T>(a: seq<T>, b: seq<T>, i: nat)
    requires i < |b|
    ensures a + b[..i + 1] == (a + b[..i]) + [b[i]]
    ensures a + b == (a + b[..i + 1]) + b[i + 1..]
  {
  }

  /** The numbers of one token, added to what the line has said so far. */
  method TakeNumbers(ghost said: seq<(nat, Mark)>, before: map<nat, Mark>, numbers: seq<nat>, mark: Mark,
                     pending: set<nat>)
    returns (marks: Option<map<nat, Mark>>)
    requires Fits(said, pending) && before == MarksOf(said)
    ensures marks.Some? <==> Fits(said + WithMark(numbers, mark), pending)
    ensures marks.Some? ==> marks.value == MarksOf(said + WithMark(numbers, mark))
  {
    var taken := before;
    ghost var pairs := WithMark(numbers, mark);
    assert said + pairs[..0] == said;
    for i := 0 to |numbers|
      invariant Fits(said + pairs[..i], pending) && taken == MarksOf(said + pairs[..i])
    {
      SplitAt(said, pairs, i);
      FitsOn(said + pairs[..i], pairs[i], pending);
      if numbers[i] !in pending || numbers[i] in taken {
        FitsPrefix(said + pairs[..i + 1], pairs[i + 1..], pending);
        return None;
      }
      taken := taken[numbers[i] := mark];
    }
    assert pairs[..|numbers|] == pairs;
    return Some(taken);
  }

  /** What the front of a line says is the front of what the line says. */
  lemma {:induction false} PairsUpTo(line: Line, i: nat)
    requires i <= |line|
    ensures Pairs(line).Some? ==> Pairs(line[..i]).Some? && Pairs(line[..i]).value <= Pairs(line).value
  {
    if i == |line| {
      assert line[..i] == line;
    } else {
      var n := |line| - 1;
      PairsUpTo(line[..n], i);
      assert line[..n][..i] == line[..i];
    }
  }

  lemma UnfitPrefix(line: Line, i: nat, pending: set<nat>)
    requires i <= |line| && Pairs(line[..i]).Some? && !Fits(Pairs(line[..i]).value, pending)
    ensures !Usable(line, pending)
  {
    PairsUpTo(line, i);
    if Pairs(line).Some? {
      var front, whole := Pairs(line[..i]).value, Pairs(line).value;
      assert whole == front + whole[|front|..];
      FitsPrefix(front, whole[|front|..], pending);
    }
  }

  lemma SomethingSaid(pairs: seq<(nat, Mark)>)
    ensures MarksOf(pairs) == map[] <==> pairs == []
  {
    if pairs != [] {
      assert pairs[|pairs| - 1].0 in MarksOf(pairs);
    }
  }

  method ParseMarks(line: Line, pending: set<nat>) returns (marks: Option<map<nat, Mark>>)
    ensures marks.Some? <==> Usable(line, pending)
    ensures marks.Some? ==> marks.value == MarksOf(Pairs(line).value)
  {
    var taken: map<nat, Mark> := map[];
    ghost var said: seq<(nat, Mark)> := [];
    for i := 0 to |line|
      invariant Pairs(line[..i]) == Some(said) && Fits(said, pending) && taken == MarksOf(said)
    {
      assert line[..i + 1][..i] == line[..i];
      var numbers := Named(line[i]);
      PairsUpTo(line, i + 1);
      if numbers.None? {
        return None;
      }
      var more := TakeNumbers(said, taken, numbers.value, line[i].mark.value, pending);
      if more.None? {
        UnfitPrefix(line, i + 1, pending);
        return None;
      }
      taken, said := more.value, said + WithMark(numbers.value, line[i].mark.value);
    }
    assert line[..|line|] == line;
    SomethingSaid(said);
    if taken == map[] {
      return None;
    }
    return Some(taken);
  }

  // ----- collecting marks over many lines -----

  /** The state of one phase: marks given, items still waiting, and items of a later phase. */
  datatype Sheet = Sheet(marks: map<nat, Mark>, pending: set<nat>, deferred: set<nat>)

  /** The items a mark takes along: a rejected experience rejects its facts. */
  function Cascade(facts: map<nat, set<nat>>, index: nat, m: Mark): set<nat> {
    if m == Reject && index in facts then facts[index] else {}
  }

  /** The marks of a line that count now: those of items not deferred. */
  function Current(marks: map<nat, Mark>, deferred: set<nat>): map<nat, Mark> {
    map i | i in marks && i !in deferred :: marks[i]
  }

  function Cascaded(facts: map<nat, set<nat>>, marks: map<nat, Mark>): set<nat> {
    set i, f | i in marks && f in Cascade(facts, i, marks[i]) :: f
  }

  function AllReject(indices: set<nat>): map<nat, Mark> {
    map f | f in indices :: Reject
  }

  /** What a usable line does. */
  function Applied(s: Sheet, facts: map<nat, set<nat>>, marks: map<nat, Mark>): Sheet {
    WithMarks(s, facts, Current(marks, s.deferred))
  }

  /** These marks given, and everything they take along rejected. */
  function WithMarks(s: Sheet, facts: map<nat, set<nat>>, now: map<nat, Mark>): Sheet {
    var along := Cascaded(facts, now);
    Sheet(s.marks + now + AllReject(along), s.pending - now.Keys - along, s.deferred - along)
  }

  /** What any line does: an unusable one does nothing. */
  ghost function AfterLine(s: Sheet, facts: map<nat, set<nat>>, line: Line): Sheet {
    if s.pending == {} || !Usable(line, s.pending + s.deferred) then s
    else Applied(s, facts, MarksOf(Pairs(line).value))
  }

  ghost function AfterLines(s: Sheet, facts: map<nat, set<nat>>, lines: seq<Line>): Sheet {
    if lines == [] then s else AfterLine(AfterLines(s, facts, lines[..|lines| - 1]), facts, lines[|lines| - 1])
  }

  /** The facts an experience can take along are items of a later phase, each of one experience. */
  ghost predicate Separate(facts: map<nat, set<nat>>, items: set<nat>) {
    && (forall e, f :: e in facts && f in facts[e] ==> f !in items)
    && (forall d, e :: d in facts && e in facts && d != e ==> facts[d] !! facts[e])
  }

  /** One mark, and what it takes along. */
  function MarkOne(n: Sheet, facts: map<nat, set<nat>>, i: nat, m: Mark): Sheet {
    var along := Cascade(facts, i, m);
    Sheet(n.marks[i := m] + AllReject(along), n.pending - {i} - along, n.deferred - along)
  }

  lemma NothingYet(s: Sheet, facts: map<nat, set<nat>>)
    ensures WithMarks(s, facts, map[]) == s
  {
    assert Cascaded(facts, map[]) == {};
    assert s.marks + map[] + AllReject({}) == s.marks;
  }

  lemma OneMore(s: Sheet, facts: map<nat, set<nat>>, items: set<nat>, done: map<nat, Mark>, i: nat, m: Mark)
    requires Separate(facts, items) && i in items && i !in done && done.Keys <= items
    ensures WithMarks(s, facts, done[i := m]) == MarkOne(WithMarks(s, facts, done), facts, i, m)
  {
    CascadedOn(facts, done, i, m);
    CascadeOutside(facts, items, done);
    var along, more := Cascaded(facts, done), Cascade(facts, i, m);
    MarksOn(s.marks, done, along, i, m, more);
    WaitingOn(s.pending, done.Keys, along, i, more);
    WaitingLess(s.deferred, along, more);
    assert done[i := m].Keys == done.Keys + {i};
  }

  lemma MarksOn(given: map<nat, Mark>, done: map<nat, Mark>, along: set<nat>, i: nat, m: Mark, more: set<nat>)
    requires i !in along
    ensures given + done[i := m] + AllReject(along + more)
         == (given + done + AllReject(along))[i := m] + AllReject(more)
  {
  }

  lemma WaitingOn(pending: set<nat>, done: set<nat>, along: set<nat>, i: nat, more: set<nat>)
    ensures pending - (done + {i}) - (along + more) == (pending - done - along) - {i} - more
  {
  }

  lemma WaitingLess(deferred: set<nat>, along: set<nat>, more: set<nat>)
    ensures deferred - (along + more) == (deferred - along) - more
  {
  }

  lemma CascadeOutside(facts: map<nat, set<nat>>, items: set<nat>, done: map<nat, Mark>)
    requires Separate(facts, items)
    ensures Cascaded(facts, done) !! items
  {
  }

  lemma CascadedOn(facts: map<nat, set<nat>>, done: map<nat, Mark>, i: nat, m: Mark)
    requires i !in done
    ensures Cascaded(facts, done[i := m]) == Cascaded(facts, done) + Cascade(facts, i, m)
  {
    var more := done[i := m];
    forall f | f in Cascaded(facts, done) ensures f in Cascaded(facts, more) {
      var e :| e in done && f in Cascade(facts, e, done[e]);
      assert f in Cascade(facts, e, more[e]);
    }
    forall f | f in Cascade(facts, i, m) ensures f in Cascaded(facts, more) {
      assert f in Cascade(facts, i, more[i]);
    }
  }

  /** What every sheet of a phase satisfies: an item is marked or waiting, and beyond the items only what a
      rejected item took along is marked. */
  ghost predicate SheetWell(s: Sheet, items: set<nat>, facts: map<nat, set<nat>>, deferred: set<nat>) {
    && s.pending <= items && s.deferred <= deferred
    && (forall i :: i in items ==> (i in s.marks <==> i !in s.pending))
    && (forall f :: f !in items ==> (f in s.marks <==> TakenAlong(s.marks, items, facts, f)))
    && (forall f :: f !in items && f in s.marks ==> s.marks[f] == Reject)
    && (forall f :: f in deferred ==> (f in s.deferred <==> !TakenAlong(s.marks, items, facts, f)))
  }

  /** f belongs to a rejected item. */
  ghost predicate TakenAlong(marks: map<nat, Mark>, items: set<nat>, facts: map<nat, set<nat>>, f: nat) {
    exists e :: e in items && e in marks && marks[e] == Reject && e in facts && f in facts[e]
  }

  lemma OneMarkKeeps(s: Sheet, items: set<nat>, facts: map<nat, set<nat>>, deferred: set<nat>, i: nat, m: Mark)
    requires Separate(facts, items) && items !! deferred && SheetWell(s, items, facts, deferred)
    requires i in s.pending
    ensures SheetWell(MarkOne(s, facts, i, m), items, facts, deferred)
  {
    var n := MarkOne(s, facts, i, m);
    assert forall e :: e in items ==> (e in n.marks <==> e in s.marks || e == i);
    assert forall e :: e in items && e in s.marks ==> n.marks[e] == s.marks[e];
    assert n.marks[i] == m;
    forall f | f !in items
      ensures TakenAlong(n.marks, items, facts, f) <==>
        TakenAlong(s.marks, items, facts, f) || f in Cascade(facts, i, m)
    {
      if TakenAlong(s.marks, items, facts, f) {
        var e :| e in items && e in s.marks && s.marks[e] == Reject && e in facts && f in facts[e];
        assert n.marks[e] == Reject;
      }
    }
  }

  /** The marks of one usable line, one by one. */
  method ApplyLine(s: Sheet, facts: map<nat, set<nat>>, marks: map<nat, Mark>, ghost items: set<nat>,
                   ghost deferred: set<nat>)
    returns (n: Sheet)
    requires Separate(facts, items) && items !! deferred && SheetWell(s, items, facts, deferred)
    requires marks.Keys <= s.pending + s.deferred
    ensures n == Applied(s, facts, marks)
    ensures SheetWell(n, items, facts, deferred)
  {
    n := s;
    var now := Current(marks, s.deferred);
    var todo := now.Keys;
    ghost var done: map<nat, Mark> := map[];
    NothingYet(s, facts);
    while todo != {}
      invariant todo <= now.Keys && Applying(s, n, facts, items, deferred, now, done, todo)
    {
      var i :| i in todo;
      ApplyNext(s, n, facts, items, deferred, now, done, todo, i);
      n := MarkOne(n, facts, i, now[i]);
      todo, done := todo - {i}, done[i := now[i]];
    }
    assert done == now;
  }

  /** Part of the marks have been applied, the rest are still to come. */
  ghost predicate Applying(s: Sheet, n: Sheet, facts: map<nat, set<nat>>, items: set<nat>, deferred: set<nat>,
                           now: map<nat, Mark>, done: map<nat, Mark>, todo: set<nat>) {
    && todo <= n.pending && done.Keys <= items && DoneOf(now, done, todo)
    && n == WithMarks(s, facts, done) && SheetWell(n, items, facts, deferred)
  }

  lemma ApplyNext(s: Sheet, n: Sheet, facts: map<nat, set<nat>>, items: set<nat>, deferred: set<nat>,
                  now: map<nat, Mark>, done: map<nat, Mark>, todo: set<nat>, i: nat)
    requires Separate(facts, items) && items !! deferred
    requires Applying(s, n, facts, items, deferred, now, done, todo) && i in todo && i in now
    ensures Applying(s, MarkOne(n, facts, i, now[i]), facts, items, deferred, now, done[i := now[i]], todo - {i})
  {
    OneMore(s, facts, items, done, i, now[i]);
    OneMarkKeeps(n, items, facts, deferred, i, now[i]);
    StillWaiting(n, items, facts, i, now[i], todo);
    OneDone(now, done, todo, i);
    assert done[i := now[i]].Keys <= items;
  }

  /** The marks are those already done and those still to do. */
  ghost predicate DoneOf(now: map<nat, Mark>, done: map<nat, Mark>, todo: set<nat>) {
    todo !! done.Keys && todo + done.Keys == now.Keys && forall j :: j in done ==> done[j] == now[j]
  }

  lemma OneDone(now: map<nat, Mark>, done: map<nat, Mark>, todo: set<nat>, i: nat)
    requires DoneOf(now, done, todo) && i in todo
    ensures DoneOf(now, done[i := now[i]], todo - {i})
  {
  }

  lemma StillWaiting(n: Sheet, items: set<nat>, facts: map<nat, set<nat>>, i: nat, m: Mark, todo: set<nat>)
    requires Separate(facts, items) && todo <= n.pending && n.pending <= items
    ensures todo - {i} <= MarkOne(n, facts, i, m).pending
  {
  }

  /** Take lines until every listed item carries a mark, or the input ends. */
  method CollectMarks(items: set<nat>, facts: map<nat, set<nat>>, deferred: set<nat>, lines: seq<Line>)
    returns (sheet: Sheet, used: nat)
    requires Separate(facts, items) && items !! deferred
    ensures used <= |lines| && sheet == AfterLines(Sheet(map[], items, deferred), facts, lines[..used])
    ensures SheetWell(sheet, items, facts, deferred)
    ensures sheet.pending != {} ==> used == |lines|
  {
    sheet, used := Sheet(map[], items, deferred), 0;
    while sheet.pending != {} && used < |lines|
      invariant used <= |lines| && sheet == AfterLines(Sheet(map[], items, deferred), facts, lines[..used])
      invariant SheetWell(sheet, items, facts, deferred)
    {
      var parsed := ParseMarks(lines[used], sheet.pending + sheet.deferred);
      assert lines[..used + 1][..used] == lines[..used];
      if parsed.Some? {
        WaitingNumbers(Pairs(lines[used]).value, sheet.pending + sheet.deferred);
        sheet := ApplyLine(sheet, facts, parsed.value, items, deferred);
      }
      used := used + 1;
    }
  }

  lemma WaitingNumbers(pairs: seq<(nat, Mark)>, pending: set<nat>)
    requires Fits(pairs, pending)
    ensures MarksOf(pairs).Keys <= pending
  {
    MarksNameThePairs(pairs);
  }

  lemma {:induction false} LinesSplit(s: Sheet, facts: map<nat, set<nat>>, a: seq<Line>, b: seq<Line>)
    ensures AfterLines(s, facts, a + b) == AfterLines(AfterLines(s, facts, a), facts, b)
  {
    if b == [] {
      assert a + b == a;
    } else {
      var n := |b| - 1;
      LinesSplit(s, facts, a, b[..n]);
      assert (a + b)[..|a| + n] == a + b[..n] && (a + b)[|a| + n] == b[n];
      calc {
        AfterLines(s, facts, a + b);
        AfterLine(AfterLines(s, facts, a + b[..n]), facts, b[n]);
        AfterLine(AfterLines(AfterLines(s, facts, a), facts, b[..n]), facts, b[n]);
      }
    }
  }

  /** A line that can not be used might as well not have been typed, wherever it comes. */
  lemma UnusableLineIgnored(s: Sheet, facts: map<nat, set<nat>>, a: seq<Line>, line: Line, b: seq<Line>)
    requires var now := AfterLines(s, facts, a); !Usable(line, now.pending + now.deferred)
    ensures AfterLines(s, facts, a + [line] + b) == AfterLines(s, facts, a + b)
  {
    LinesSplit(s, facts, a + [line], b);
    LinesSplit(s, facts, a, [line]);
    LinesSplit(s, facts, a, b);
    var now := AfterLines(s, facts, a);
    assert [line][..0] == [];
    assert AfterLines(now, facts, [line]) == now;
  }

  // ----- the listing -----

  /** An extraction: which experiences were confirmed earlier, and the experience each fact hangs off. */
  datatype Extraction = Extraction(reused: seq<bool>, facts: seq<Option<nat>>)

  datatype Item = Item(isFact: bool, ref: nat)

  predicate IsExtraction(x: Extraction) {
    forall f :: 0 <= f < |x.facts| && x.facts[f].Some? ==> x.facts[f].value < |x.reused|
  }

  function FactsUnder(x: Extraction, who: Option<nat>, k: nat): seq<Item>
    requires k <= |x.facts|
  {
    if k == 0 then [] else FactsUnder(x, who, k - 1) + if x.facts[k - 1] == who then [Item(true, k - 1)] else []
  }

  function ListExperiences(x: Extraction, p: nat): seq<Item>
    requires p <= |x.reused|
  {
    if p == 0 then []
    else
      ListExperiences(x, p - 1) + (if x.reused[p - 1] then [] else [Item(false, p - 1)])
      + FactsUnder(x, Some(p - 1), |x.facts|)
  }

  /** Each experience that needs a mark, its facts after it, the facts of no experience last. The item at
      place k carries number k + 1. */
  function Listing(x: Extraction): seq<Item> {
    ListExperiences(x, |x.reused|) + FactsUnder(x, None, |x.facts|)
  }

  method AddFactItems(x: Extraction, who: Option<nat>, items: seq<Item>) returns (more: seq<Item>)
    ensures more == items + FactsUnder(x, who, |x.facts|)
  {
    more := items;
    for k := 0 to |x.facts|
      invariant more == items + FactsUnder(x, who, k)
    {
      if x.facts[k] == who {
        more := more + [Item(true, k)];
      }
    }
  }

  method ListItems(x: Extraction) returns (items: seq<Item>)
    ensures items == Listing(x)
  {
    items := [];
    for p := 0 to |x.reused|
      invariant items == ListExperiences(x, p)
    {
      if !x.reused[p] {
        items := items + [Item(false, p)];
      }
      items := AddFactItems(x, Some(p), items);
    }
    items := AddFactItems(x, None, items);
  }

  lemma {:induction false} FactsUnderAre(x: Extraction, who: Option<nat>, k: nat)
    requires k <= |x.facts|
    ensures forall i :: i in FactsUnder(x, who, k) <==> i.isFact && i.ref < k && x.facts[i.ref] == who
    ensures Distinct(FactsUnder(x, who, k))
  {
    if k > 0 {
      FactsUnderAre(x, who, k - 1);
    }
  }

  lemma JoinDistinct<T>(a: seq<T>, b: seq<T>)
    requires Distinct(a) && Distinct(b) && forall x :: x in a ==> x !in b
    ensures Distinct(a + b)
  {
    forall i, j | 0 <= i < j < |a + b| ensures (a + b)[i] != (a + b)[j] {
      if i < |a| <= j {
        assert a[i] in a && b[j - |a|] in b;
      }
    }
  }

  lemma {:induction false} ExperiencesListed(x: Extraction, p: nat)
    requires p <= |x.reused|
    ensures forall i :: i in ListExperiences(x, p) <==>
      if i.isFact then i.ref < |x.facts| && x.facts[i.ref].Some? && x.facts[i.ref].value < p
      else i.ref < p && !x.reused[i.ref]
    ensures Distinct(ListExperiences(x, p))
  {
    if p > 0 {
      ExperiencesListed(x, p - 1);
      FactsUnderAre(x, Some(p - 1), |x.facts|);
      var before, own := ListExperiences(x, p - 1), if x.reused[p - 1] then [] else [Item(false, p - 1)];
      JoinDistinct(before, own);
      JoinDistinct(before + own, FactsUnder(x, Some(p - 1), |x.facts|));
    }
  }

  /** Every fact is listed once, and exactly the experiences not confirmed earlier are, once each. */
  lemma ListingIsExact(x: Extraction)
    requires IsExtraction(x)
    ensures Distinct(Listing(x))
    ensures forall i :: i in Listing(x) <==>
      if i.isFact then i.ref < |x.facts| else i.ref < |x.reused| && !x.reused[i.ref]
  {
    ExperiencesListed(x, |x.reused|);
    FactsUnderAre(x, None, |x.facts|);
    JoinDistinct(ListExperiences(x, |x.reused|), FactsUnder(x, None, |x.facts|));
  }
}
