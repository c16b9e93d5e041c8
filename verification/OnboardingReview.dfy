/** The two-phase review on top of the marks loop: what is stored when, and what every item ends up with
    (apps/cli/onboarding.py:348-542). */
module OnboardingReview {
  import opened Basics
  import opened Onboarding

  datatype FactState = Draft | Approved | Retracted

  /** first: the marks of the experience phase, with the facts rejections took along, after so many lines.
      second: those of the fact phase, after so many more, and the front of one more if it was interrupted. */
  datatype Outcome =
    | InterruptedInExperiences
    | InterruptedInFacts(first: map<nat, Mark>, second: map<nat, Mark>, lines: nat, more: nat, atQuestion: bool)
    | Returned(first: map<nat, Mark>, second: map<nat, Mark>, lines: nat, more: nat)

  predicate IsNumber(items: seq<Item>, i: nat) {
    1 <= i <= |items|
  }

  function ItemAt(items: seq<Item>, i: nat): Item
    requires IsNumber(items, i)
  {
    items[i - 1]
  }

  function Numbers(items: seq<Item>, facts: bool): set<nat> {
    set i: nat | 1 <= i <= |items| && HasKind(items, i, facts) :: i
  }

  predicate HasKind(items: seq<Item>, i: nat, fact: bool) {
    IsNumber(items, i) && items[i - 1].isFact == fact
  }

  predicate HangsOff(x: Extraction, f: nat, p: nat) {
    f < |x.facts| && x.facts[f] == Some(p)
  }

  /** The fact items an experience item takes along when rejected. */
  function FactsOf(x: Extraction, items: seq<Item>): map<nat, set<nat>> {
    map i | i in Numbers(items, false) ::
      set j | j in Numbers(items, true) && HangsOff(x, ItemAt(items, j).ref, ItemAt(items, i).ref)
  }

  lemma NumbersApart(x: Extraction, items: seq<Item>)
    requires Distinct(items)
    ensures Separate(FactsOf(x, items), Numbers(items, false))
    ensures Numbers(items, false) !! Numbers(items, true)
  {
    var facts := FactsOf(x, items);
    forall d, e | d in facts && e in facts && d != e ensures facts[d] !! facts[e] {
      assert ItemAt(items, d) != ItemAt(items, e);
    }
  }

  // ----- what is kept -----

  /** Accepted or edited experiences, by position. */
  function Taken(items: seq<Item>, first: map<nat, Mark>): set<nat> {
    set i | i in Numbers(items, false) && i in first && first[i] != Reject :: ItemAt(items, i).ref
  }

  /** A fact is persisted unless its experience was rejected. */
  predicate Persists(x: Extraction, taken: set<nat>, f: nat)
    requires f < |x.facts| && IsExtraction(x)
  {
    x.facts[f].None? || x.reused[x.facts[f].value] || x.facts[f].value in taken
  }

  /** The fact's own experience item was rejected. */
  predicate RejectedWith(x: Extraction, items: seq<Item>, first: map<nat, Mark>, f: nat) {
    exists i :: i in Numbers(items, false) && i in first && first[i] == Reject && HangsOff(x, f, ItemAt(items, i).ref)
  }

  ghost predicate Sheet1(x: Extraction, items: seq<Item>, first: map<nat, Mark>) {
    && IsExtraction(x) && items == Listing(x)
    && (forall i :: i in Numbers(items, false) ==> i in first)
    && (forall j :: j in Numbers(items, true) ==> (j in first <==> RejectedWith(x, items, first, ItemAt(items, j).ref)))
    && first.Keys <= Numbers(items, false) + Numbers(items, true)
  }

  lemma NumberedItem(items: seq<Item>, it: Item) returns (i: nat)
    requires it in items
    ensures IsNumber(items, i) && ItemAt(items, i) == it && i in Numbers(items, it.isFact)
  {
    var k :| 0 <= k < |items| && items[k] == it;
    i := k + 1;
    assert HasKind(items, i, it.isFact);
  }

  lemma TakenByMark(items: seq<Item>, first: map<nat, Mark>, i: nat)
    requires Distinct(items) && i in Numbers(items, false) && i in first
    ensures ItemAt(items, i).ref in Taken(items, first) <==> first[i] != Reject
  {
    var p := ItemAt(items, i).ref;
    if p in Taken(items, first) {
      var d :| d in Numbers(items, false) && d in first && first[d] != Reject && ItemAt(items, d).ref == p;
      SameNumber(items, d, i);
    }
  }

  lemma RejectedByMark(x: Extraction, items: seq<Item>, first: map<nat, Mark>, i: nat, f: nat)
    requires Distinct(items) && i in Numbers(items, false) && i in first && HangsOff(x, f, ItemAt(items, i).ref)
    ensures RejectedWith(x, items, first, f) <==> first[i] == Reject
  {
    if RejectedWith(x, items, first, f) {
      var d :| d in Numbers(items, false) && d in first && first[d] == Reject && HangsOff(x, f, ItemAt(items, d).ref);
      SameNumber(items, d, i);
    }
  }

  /** An experience that needed a mark is taken, or its facts are rejected with it. */
  lemma TakenOrRejected(x: Extraction, items: seq<Item>, first: map<nat, Mark>, f: nat, p: nat)
    requires Sheet1(x, items, first) && HangsOff(x, f, p) && !x.reused[p]
    ensures p in Taken(items, first) <==> !RejectedWith(x, items, first, f)
  {
    ListingIsExact(x);
    var i := NumberedItem(items, Item(false, p));
    TakenByMark(items, first, i);
    RejectedByMark(x, items, first, i, f);
  }

  /** After the experience phase a fact is dropped exactly when its experience was rejected, which is
      exactly when its item already has its mark. */
  lemma DroppedExactly(x: Extraction, items: seq<Item>, first: map<nat, Mark>, j: nat)
    requires Sheet1(x, items, first) && j in Numbers(items, true)
    ensures ItemAt(items, j).ref < |x.facts|
    ensures !Persists(x, Taken(items, first), ItemAt(items, j).ref) <==> j in first
  {
    ListingIsExact(x);
    var f := ItemAt(items, j).ref;
    assert ItemAt(items, j) in items;
    if x.facts[f].Some? && !x.reused[x.facts[f].value] {
      TakenOrRejected(x, items, first, f, x.facts[f].value);
    } else if RejectedWith(x, items, first, f) {
      RejectedIsListed(x, items, first, f);
    }
  }

  lemma RejectedIsListed(x: Extraction, items: seq<Item>, first: map<nat, Mark>, f: nat)
    requires IsExtraction(x) && items == Listing(x) && RejectedWith(x, items, first, f)
    ensures f < |x.facts| && x.facts[f].Some? && !x.reused[x.facts[f].value]
  {
    ListingIsExact(x);
    var d :| d in Numbers(items, false) && d in first && first[d] == Reject && HangsOff(x, f, ItemAt(items, d).ref);
    assert ItemAt(items, d) in items;
  }

  lemma SameNumber(items: seq<Item>, i: nat, j: nat)
    requires Distinct(items) && IsNumber(items, i) && IsNumber(items, j) && ItemAt(items, i) == ItemAt(items, j)
    ensures i == j
  {
  }

  /** What the completed experience phase hands on. */
  lemma FirstPhaseMarks(x: Extraction, items: seq<Item>, s: Sheet)
    requires IsExtraction(x) && items == Listing(x)
    requires SheetWell(s, Numbers(items, false), FactsOf(x, items), Numbers(items, true)) && s.pending == {}
    ensures Sheet1(x, items, s.marks)
  {
    ListingIsExact(x);
    NumbersApart(x, items);
    var e, facts := Numbers(items, false), FactsOf(x, items);
    forall j | j in Numbers(items, true)
      ensures j in s.marks <==> RejectedWith(x, items, s.marks, ItemAt(items, j).ref)
    {
      assert TakenAlong(s.marks, e, facts, j) <==> RejectedWith(x, items, s.marks, ItemAt(items, j).ref) by {
        var f := ItemAt(items, j).ref;
        if i :| i in e && i in s.marks && s.marks[i] == Reject && HangsOff(x, f, ItemAt(items, i).ref) {
          assert j in facts[i];
        }
      }
    }
    forall j | j in s.marks ensures j in e + Numbers(items, true) {
      if j !in e {
        assert TakenAlong(s.marks, e, facts, j);
        var i :| i in e && i in s.marks && s.marks[i] == Reject && i in facts && j in facts[i];
      }
    }
  }

  // ----- the review -----

  /** The facts that await a mark of their own. */
  function Awaiting(x: Extraction, items: seq<Item>, first: map<nat, Mark>): set<nat>
    requires IsExtraction(x) && items == Listing(x)
  {
    ListingIsExact(x);
    set j | j in Numbers(items, true) && j !in first
      && ItemAt(items, j).ref < |x.facts| && Persists(x, Taken(items, first), ItemAt(items, j).ref)
  }

  function Settled(m: Mark): FactState {
    if m == Reject then Retracted else Approved
  }

  /** Rejected facts are retracted, accepted and edited ones approved, and the others drafts. */
  predicate StandsAs(state: FactState, marks: map<nat, Mark>, j: nat) {
    && (state == Retracted <==> j in marks && marks[j] == Reject)
    && (state == Approved <==> j in marks && (marks[j] == Accept || marks[j] == EditMark))
    && (state == Draft <==> j !in marks)
  }

  /** Each persisted fact as its mark left it, a draft while it has none. */
  ghost predicate FactsStand(x: Extraction, items: seq<Item>, taken: set<nat>, second: map<nat, Mark>,
                             facts: map<nat, FactState>) {
    && IsExtraction(x)
    && (forall f: nat :: f in facts <==> f < |x.facts| && Persists(x, taken, f))
    && (forall j :: HasKind(items, j, true) && ItemAt(items, j).ref in facts ==>
          StandsAs(facts[ItemAt(items, j).ref], second, j))
  }

  /** Stored are the experiences marked accept or edit; a persisted fact is retracted, approved or a draft
      according to its mark. */
  ghost predicate StoredAsMarked(items: seq<Item>, first: map<nat, Mark>, second: map<nat, Mark>,
                                 experiences: set<nat>, facts: map<nat, FactState>) {
    && (forall i :: HasKind(items, i, false) ==>
          i in first && (ItemAt(items, i).ref in experiences <==> first[i] == Accept || first[i] == EditMark))
    && (forall j :: HasKind(items, j, true) && ItemAt(items, j).ref in facts ==>
          StandsAs(facts[ItemAt(items, j).ref], second, j))
  }

  lemma MarksAreStored(x: Extraction, items: seq<Item>, first: map<nat, Mark>, second: map<nat, Mark>,
                       facts: map<nat, FactState>)
    requires Sheet1(x, items, first) && FactsStand(x, items, Taken(items, first), second, facts)
    ensures StoredAsMarked(items, first, second, Taken(items, first), facts)
  {
    ListingIsExact(x);
    forall i | HasKind(items, i, false)
      ensures i in first
      ensures ItemAt(items, i).ref in Taken(items, first) <==> first[i] == Accept || first[i] == EditMark
    {
      assert i in Numbers(items, false);
      TakenByMark(items, first, i);
    }
  }

  /** What holds when a review returns: every listed item has exactly one mark; the facts with no mark of
      their own are those of rejected experiences, which are those never persisted; the others stand as
      they were marked. */
  ghost predicate Reviewed(x: Extraction, items: seq<Item>, first: map<nat, Mark>, second: map<nat, Mark>,
                           experiences: set<nat>, facts: map<nat, FactState>)
  {
    && first.Keys !! second.Keys && first.Keys + second.Keys == Numbers(items, false) + Numbers(items, true)
    && experiences == Taken(items, first)
    && (forall j :: j in Numbers(items, true) ==> FactReviewed(x, items, first, second, facts, j))
  }

  predicate FactReviewed(x: Extraction, items: seq<Item>, first: map<nat, Mark>, second: map<nat, Mark>,
                         facts: map<nat, FactState>, j: nat)
    requires IsNumber(items, j)
  {
    var f := ItemAt(items, j).ref;
    && (j !in second <==> RejectedWith(x, items, first, f))
    && (f !in facts <==> RejectedWith(x, items, first, f))
    && (f in facts ==> j in second && StandsAs(facts[f], second, j))
  }

  /** A mark that asks for a replacement text, of an item whose question is left unanswered. */
  predicate Stops(marks: map<nat, Mark>, unanswered: set<nat>, i: nat) {
    i in marks && marks[i] == EditMark && i in unanswered
  }

  /** Earlier marks, and those of a line for the items below n. */
  function Marked(second: map<nat, Mark>, marks: map<nat, Mark>, n: nat): map<nat, Mark> {
    if n == 0 then second
    else if n - 1 in marks then Marked(second, marks, n - 1)[n - 1 := marks[n - 1]]
    else Marked(second, marks, n - 1)
  }

  lemma {:induction false} MarkedAt(second: map<nat, Mark>, marks: map<nat, Mark>, n: nat, i: nat)
    ensures i in Marked(second, marks, n) <==> i in second || (i in marks && i < n)
    ensures i in Marked(second, marks, n) ==>
      Marked(second, marks, n)[i] == if i in marks && i < n then marks[i] else second[i]
  {
    if n > 0 {
      MarkedAt(second, marks, n - 1, i);
    }
  }

  lemma MarkedAll(second: map<nat, Mark>, marks: map<nat, Mark>, n: nat)
    requires forall i :: i in marks ==> i < n
    ensures Marked(second, marks, n) == second + marks
  {
    forall i: nat {
      MarkedAt(second, marks, n, i);
    }
    assert forall i :: i in Marked(second, marks, n) <==> i in second + marks;
  }

  /** The marks of so many lines of a phase and, if a question stopped it, of the front of the next. */
  ghost predicate Given(s: Sheet, lines: seq<Line>, used: nat, stopped: bool, unanswered: set<nat>,
                        second: map<nat, Mark>)
    requires used <= |lines|
  {
    var now := AfterLines(s, map[], lines[..used]);
    if !stopped then second == now.marks
    else
      && used < |lines| && Usable(lines[used], now.pending + now.deferred)
      && FrontOf(now, lines[used], unanswered, second)
  }

  /** The line is cut at the first mark that stops it. */
  ghost predicate FrontOf(now: Sheet, line: Line, unanswered: set<nat>, second: map<nat, Mark>)
    requires Pairs(line).Some?
  {
    var marks := MarksOf(Pairs(line).value);
    exists i: nat :: CutAt(marks, unanswered, i) && TakenUpTo(now.marks, marks, i, second)
  }

  /** The first item of the line to be edited whose replacement text is not given. */
  predicate CutAt(marks: map<nat, Mark>, unanswered: set<nat>, i: nat) {
    && i in marks && marks[i] == EditMark && i in unanswered
    && forall j: nat :: j < i && j in marks && marks[j] == EditMark ==> j !in unanswered
  }

  /** The marks given before and those of the line for items below i, and no others. */
  ghost predicate TakenUpTo(before: map<nat, Mark>, marks: map<nat, Mark>, i: nat, second: map<nat, Mark>) {
    forall j: nat ::
      && (j in second <==> j in before || (j < i && j in marks))
      && (j in second ==> second[j] == if j < i && j in marks then marks[j] else before[j])
  }

  lemma {:induction false} MarkedAre(before: map<nat, Mark>, marks: map<nat, Mark>, i: nat)
    ensures TakenUpTo(before, marks, i, Marked(before, marks, i))
  {
    if i > 0 {
      MarkedAre(before, marks, i - 1);
    }
  }

  lemma CutAtFirst(marks: map<nat, Mark>, unanswered: set<nat>, i: nat)
    requires Stops(marks, unanswered, i) && forall j: nat :: j < i ==> !Stops(marks, unanswered, j)
    ensures CutAt(marks, unanswered, i)
  {
    forall j: nat | j < i && j in marks && marks[j] == EditMark ensures j !in unanswered {
      assert !Stops(marks, unanswered, j);
    }
  }

  class ReviewStore {
    var experiences: set<nat>
    var facts: map<nat, FactState>

    constructor ()
      ensures experiences == {} && facts == map[]
    {
      experiences, facts := {}, map[];
    }

    /** The accepted experiences together, then every fact whose experience stands. */
    method PersistDrafts(x: Extraction, items: seq<Item>, first: map<nat, Mark>)
      requires IsExtraction(x) && facts == map[]
      modifies this
      ensures experiences == Taken(items, first)
      ensures FactsStand(x, items, Taken(items, first), map[], facts)
    {
      experiences := Taken(items, first);
      for f := 0 to |x.facts|
        invariant experiences == Taken(items, first)
        invariant forall g: nat :: g in facts <==> g < f && Persists(x, experiences, g)
        invariant forall g: nat :: g in facts ==> facts[g] == Draft
      {
        if x.facts[f].Some? && !x.reused[x.facts[f].value] && x.facts[f].value !in experiences {
          continue;
        }
        facts := facts[f := Draft];
      }
    }

    /** The mark of one item, if it has one, reaches its row. */
    method SettleNext(x: Extraction, items: seq<Item>, ghost taken: set<nat>, ghost second: map<nat, Mark>,
                      marks: map<nat, Mark>, j: nat)
      requires Distinct(items) && FactsStand(x, items, taken, Marked(second, marks, j), facts)
      requires j in marks ==> HasKind(items, j, true) && ItemAt(items, j).ref in facts
      modifies this`facts
      ensures FactsStand(x, items, taken, Marked(second, marks, j + 1), facts) && facts.Keys == old(facts.Keys)
    {
      if j in marks {
        FactSettled(x, items, taken, Marked(second, marks, j), facts, j, marks[j]);
        facts := facts[ItemAt(items, j).ref := Settled(marks[j])];
      }
    }

    /** The marks of a line reach their rows one by one, in the order of the items, up to the first whose question
        for a replacement text is left unanswered. */
    method SettleFacts(x: Extraction, items: seq<Item>, ghost taken: set<nat>, ghost second: map<nat, Mark>,
                       marks: map<nat, Mark>, unanswered: set<nat>)
      returns (upto: nat, stopped: bool)
      requires Distinct(items) && FactsStand(x, items, taken, second, facts)
      requires forall j :: j in marks ==> HasKind(items, j, true) && ItemAt(items, j).ref in facts
      modifies this`facts
      ensures FactsStand(x, items, taken, Marked(second, marks, upto), facts)
      ensures if stopped then Stops(marks, unanswered, upto) else forall i :: i in marks ==> i < upto
      ensures forall i: nat :: i < upto ==> !Stops(marks, unanswered, i)
    {
      for j := 0 to |items| + 1
        invariant FactsStand(x, items, taken, Marked(second, marks, j), facts) && facts.Keys == old(facts.Keys)
        invariant forall i: nat :: i < j ==> !Stops(marks, unanswered, i)
      {
        if Stops(marks, unanswered, j) {
          return j, true;
        }
        SettleNext(x, items, taken, second, marks, j);
      }
      return |items| + 1, false;
    }

    /** One line of the fact phase, if it can be used: every mark is stored before the next is taken. A question
        left unanswered leaves the marks before it stored. */
    method MarkLine(x: Extraction, items: seq<Item>, ghost taken: set<nat>, ghost awaiting: set<nat>, s: Sheet,
                    line: Line, unanswered: set<nat>)
      returns (n: Sheet, second: map<nat, Mark>, stopped: bool)
      requires Distinct(items) && FactsStand(x, items, taken, s.marks, facts)
      requires SheetWell(s, awaiting, map[], {}) && s.deferred == {} && s.pending != {}
      requires forall j :: j in awaiting ==> HasKind(items, j, true) && ItemAt(items, j).ref in facts
      modifies this`facts
      ensures SheetWell(n, awaiting, map[], {}) && n.deferred == {}
      ensures if stopped then n == s && Usable(line, s.pending + s.deferred) && FrontOf(s, line, unanswered, second)
              else n == AfterLine(s, map[], line) && second == n.marks
      ensures FactsStand(x, items, taken, second, facts) && facts.Keys == old(facts.Keys)
    {
      assert s.pending + s.deferred == s.pending;
      var parsed := ParseMarks(line, s.pending);
      if parsed.None? {
        return s, s.marks, false;
      }
      WaitingNumbers(Pairs(line).value, s.pending);
      var upto;
      upto, stopped := SettleFacts(x, items, taken, s.marks, parsed.value, unanswered);
      second := Marked(s.marks, parsed.value, upto);
      if stopped {
        CutAtFirst(parsed.value, unanswered, upto);
        MarkedAre(s.marks, parsed.value, upto);
        return s, second, true;
      }
      NoCascade(s, parsed.value, upto);
      n := ApplyLine(s, map[], parsed.value, awaiting, {});
    }

    /** The fact phase, line by line, until every fact that awaits a mark has one. */
    method MarkFacts(x: Extraction, items: seq<Item>, ghost taken: set<nat>, awaiting: set<nat>, lines: seq<Line>,
                     unanswered: set<nat>)
      returns (sheet: Sheet, used: nat, second: map<nat, Mark>, stopped: bool)
      requires Distinct(items) && FactsStand(x, items, taken, map[], facts)
      requires forall j :: j in awaiting ==> HasKind(items, j, true) && ItemAt(items, j).ref in facts
      modifies this`facts
      ensures used <= |lines| && sheet == AfterLines(Sheet(map[], awaiting, {}), map[], lines[..used])
      ensures sheet.pending != {} && !stopped ==> used == |lines|
      ensures SheetWell(sheet, awaiting, map[], {})
      ensures Given(Sheet(map[], awaiting, {}), lines, used, stopped, unanswered, second)
      ensures FactsStand(x, items, taken, second, facts)
    {
      sheet, second := Sheet(map[], awaiting, {}), map[];
      used, stopped := 0, false;
      while sheet.pending != {} && used < |lines|
        invariant used <= |lines| && sheet.deferred == {} && second == sheet.marks && !stopped
        invariant sheet == AfterLines(Sheet(map[], awaiting, {}), map[], lines[..used])
        invariant SheetWell(sheet, awaiting, map[], {})
        invariant FactsStand(x, items, taken, second, facts) && facts.Keys == old(facts.Keys)
      {
        sheet, second, stopped := MarkLine(x, items, taken, awaiting, sheet, lines[used], unanswered);
        if stopped {
          assert Given(Sheet(map[], awaiting, {}), lines, used, true, unanswered, second);
          return;
        }
        assert lines[..used + 1][..used] == lines[..used];
        used := used + 1;
      }
    }

    /** The whole review. An interruption of the experience phase leaves nothing stored, be it the end of the
        input or a question left unanswered; one of the fact phase leaves exactly the facts marked so far decided. */
    method Review(x: Extraction, lines: seq<Line>, quits: bool, unanswered: set<nat>)
      returns (r: Outcome)
      requires IsExtraction(x) && experiences == {} && facts == map[]
      modifies this
      ensures r.InterruptedInExperiences? ==> experiences == {} && facts == map[]
      ensures !r.InterruptedInExperiences? ==>
        && r.lines <= |lines| && r.more <= |lines| - r.lines
        && r.first == AfterLines(Opening(x), FactsOf(x, Listing(x)), lines[..r.lines]).marks
      ensures r.InterruptedInFacts? ==>
        && experiences == Taken(Listing(x), r.first)
        && FactsStand(x, Listing(x), Taken(Listing(x), r.first), r.second, facts)
      ensures !r.InterruptedInExperiences? ==> StoredAsMarked(Listing(x), r.first, r.second, experiences, facts)
      ensures r.InterruptedInFacts? ==>
        Given(Reopening(x, r.first), lines[r.lines..], r.more, r.atQuestion, unanswered, r.second)
      ensures r.InterruptedInFacts? && !r.atQuestion ==> r.lines + r.more == |lines|
      ensures r.Returned? ==> Reviewed(x, Listing(x), r.first, r.second, experiences, facts)
      ensures r.Returned? ==> Given(Reopening(x, r.first), lines[r.lines..], r.more, false, unanswered, r.second)
    {
      var items := ListItems(x);
      ListingIsExact(x);
      NumbersApart(x, items);
      var sheet, used := CollectMarks(Numbers(items, false), FactsOf(x, items), Numbers(items, true), lines);
      if sheet.pending != {} || quits {
        return InterruptedInExperiences;
      }
      FirstPhaseMarks(x, items, sheet);
      PersistDrafts(x, items, sheet.marks);
      var awaiting := Awaiting(x, items, sheet.marks);
      AwaitingStand(x, items, sheet.marks, facts);
      var later, more, second, stopped := MarkFacts(x, items, Taken(items, sheet.marks), awaiting,
        lines[used..], unanswered);
      MarksAreStored(x, items, sheet.marks, second, facts);
      if stopped || later.pending != {} {
        return InterruptedInFacts(sheet.marks, second, used, more, stopped);
      }
      ReviewConcluded(x, items, sheet.marks, later, facts);
      return Returned(sheet.marks, later.marks, used, more);
    }
  }

  /** The sheet the fact phase starts from. */
  function Reopening(x: Extraction, first: map<nat, Mark>): Sheet
    requires IsExtraction(x)
  {
    Sheet(map[], Awaiting(x, Listing(x), first), {})
  }

  /** The sheet the experience phase starts from. */
  function Opening(x: Extraction): Sheet {
    Sheet(map[], Numbers(Listing(x), false), Numbers(Listing(x), true))
  }

  lemma AwaitingStand(x: Extraction, items: seq<Item>, first: map<nat, Mark>, facts: map<nat, FactState>)
    requires Sheet1(x, items, first) && FactsStand(x, items, Taken(items, first), map[], facts)
    ensures forall j :: j in Awaiting(x, items, first) ==> HasKind(items, j, true) && ItemAt(items, j).ref in facts
  {
  }

  lemma NoCascade(s: Sheet, marks: map<nat, Mark>, n: nat)
    requires s.deferred == {} && forall i :: i in marks ==> i < n
    ensures Applied(s, map[], marks).marks == Marked(s.marks, marks, n) && Applied(s, map[], marks).deferred == {}
  {
    assert Current(marks, {}) == marks;
    assert Cascaded(map[], marks) == {};
    assert s.marks + marks + AllReject({}) == s.marks + marks;
    MarkedAll(s.marks, marks, n);
  }

  lemma AwaitingAreUnmarked(x: Extraction, items: seq<Item>, first: map<nat, Mark>)
    requires Sheet1(x, items, first)
    ensures forall j :: j in Numbers(items, true) ==> (j in Awaiting(x, items, first) <==> j !in first)
  {
    forall j | j in Numbers(items, true) ensures j in Awaiting(x, items, first) <==> j !in first {
      DroppedExactly(x, items, first, j);
    }
  }

  lemma ReviewConcluded(x: Extraction, items: seq<Item>, first: map<nat, Mark>, s: Sheet, facts: map<nat, FactState>)
    requires Sheet1(x, items, first) && s.pending == {}
    requires SheetWell(s, Awaiting(x, items, first), map[], {})
    requires FactsStand(x, items, Taken(items, first), s.marks, facts)
    ensures Reviewed(x, items, first, s.marks, Taken(items, first), facts)
  {
    AwaitingAreUnmarked(x, items, first);
    var awaiting := Awaiting(x, items, first);
    assert s.marks.Keys == awaiting;
    forall j | j in Numbers(items, true) ensures FactReviewed(x, items, first, s.marks, facts, j) {
      DroppedExactly(x, items, first, j);
    }
    assert forall i :: i in Numbers(items, false) + Numbers(items, true) ==> i in first || i in awaiting;
  }

  lemma FactSettled(x: Extraction, items: seq<Item>, taken: set<nat>, second: map<nat, Mark>,
                    facts: map<nat, FactState>, j: nat, m: Mark)
    requires Distinct(items) && FactsStand(x, items, taken, second, facts)
    requires HasKind(items, j, true) && ItemAt(items, j).ref in facts
    ensures FactsStand(x, items, taken, second[j := m], facts[ItemAt(items, j).ref := Settled(m)])
  {
    forall i | i in Numbers(items, true) && i != j ensures ItemAt(items, i).ref != ItemAt(items, j).ref {
      if ItemAt(items, i).ref == ItemAt(items, j).ref {
        SameNumber(items, i, j);
      }
    }
  }
}
