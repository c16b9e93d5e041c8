/** Verdicts in terms of what the judges sent: the decoded outputs themselves, with no table of the parser or the
    validator in between (packages/domain/gauntlet_judges.py:33-48, 209-345; packages/domain/gauntlet.py). */
module Verdicts {
  import opened Basics
  import opened PackageStore
  import opened Judges
  import opened Gauntlet
  import GauntletRuns

  // ----- a well-formed output -----

  predicate Said(j: Json) {
    j.Str? && exists i :: 0 <= i < |j.s| && !IsSpace(j.s[i])
  }

  predicate SaidAt(f: map<string, Json>, key: string) {
    key in f && Said(f[key])
  }

  /** Which keys a judge may use in a finding. */
  predicate Allowed(judge: Judge, key: string) {
    || key == "element_id" || key == "severity" || key == "quote" || key == "message"
    || (judge == Truth && key == "fact_ids")
    || (judge == Consistency && (key == "second_element_id" || key == "second_quote"))
  }

  predicate FindingShaped(judge: Judge, f: map<string, Json>) {
    && (forall key :: key in f ==> Allowed(judge, key))
    && SaidAt(f, "element_id") && SaidAt(f, "severity") && SaidAt(f, "quote") && SaidAt(f, "message")
    && (f["severity"] == Str("blocking") || f["severity"] == Str("advisory"))
    && ("fact_ids" in f ==> f["fact_ids"].Arr? && forall x :: x in f["fact_ids"].items ==> Said(x))
    && ("second_element_id" in f ==> Said(f["second_element_id"]))
    && ("second_quote" in f ==> Said(f["second_quote"]))
  }

  function FindingsIn(o: map<string, Json>): seq<Json> {
    if "findings" in o && o["findings"].Arr? then o["findings"].items else []
  }

  /** A verdict out of three, findings of the judge's own shape, a textual note, and no FAIL without a finding. */
  predicate Shaped(judge: Judge, o: map<string, Json>) {
    && (forall key :: key in o ==> key == "verdict" || key == "findings" || key == "note")
    && "verdict" in o
    && (o["verdict"] == Str("PASS") || o["verdict"] == Str("FAIL") || o["verdict"] == Str("TERMINAL_ABSTAIN"))
    && ("findings" in o ==> o["findings"].Arr?)
    && (forall f :: f in FindingsIn(o) ==> f.Obj? && FindingShaped(judge, f.fields))
    && ("note" in o ==> o["note"].Str?)
    && (o["verdict"] == Str("FAIL") ==> FindingsIn(o) != [])
  }

  predicate WellFormed(judge: Judge, output: Option<Json>) {
    output.Some? && output.value.Obj? && Shaped(judge, output.value.fields)
  }

  lemma SaidIsText(j: Json)
    ensures Said(j) <==> IsText(j)
  {
  }

  lemma RequiredAre(f: map<string, Json>)
    ensures (forall k :: k in REQUIRED_KEYS ==> IsTextAt(f, k)) <==>
      SaidAt(f, "element_id") && SaidAt(f, "severity") && SaidAt(f, "quote") && SaidAt(f, "message")
  {
    assert REQUIRED_KEYS[0] == "element_id" && REQUIRED_KEYS[1] == "severity";
    assert REQUIRED_KEYS[2] == "quote" && REQUIRED_KEYS[3] == "message";
    forall key ensures SaidAt(f, key) <==> IsTextAt(f, key) {
      if key in f {
        SaidIsText(f[key]);
      }
    }
  }

  lemma KeysAre(judge: Judge, f: map<string, Json>)
    ensures f.Keys <= AllowedKeys(judge) <==> forall key :: key in f ==> Allowed(judge, key)
  {
    assert forall key :: Allowed(judge, key) <==> key in AllowedKeys(judge);
  }

  lemma AllSaid(items: seq<Json>)
    ensures (forall x :: x in items ==> Said(x)) <==> forall x :: x in items ==> IsText(x)
  {
    forall x | x in items ensures Said(x) <==> IsText(x) {
      SaidIsText(x);
    }
  }

  lemma FindingIs(judge: Judge, f: map<string, Json>)
    ensures FindingShaped(judge, f) <==> FindingWellTyped(judge, f)
  {
    RequiredAre(f);
    KeysAre(judge, f);
    if "fact_ids" in f && f["fact_ids"].Arr? {
      AllSaid(f["fact_ids"].items);
    }
    if "second_element_id" in f {
      SaidIsText(f["second_element_id"]);
    }
    if "second_quote" in f {
      SaidIsText(f["second_quote"]);
    }
  }

  /** The parser accepts exactly the well-formed outputs, and reads off them what they say. */
  lemma ParsesExactly(judge: Judge, output: Option<Json>)
    ensures ParseOutput(judge, output).Some? <==> WellFormed(judge, output)
    ensures WellFormed(judge, output) ==>
      var (declared, findings) := ParseOutput(judge, output).value;
      var o := output.value.fields;
      && findings == FindingsIn(o)
      && (declared == DeclaredPass <==> o["verdict"] == Str("PASS"))
      && (declared == DeclaredFail <==> o["verdict"] == Str("FAIL"))
      && (declared == DeclaredAbstain <==> o["verdict"] == Str("TERMINAL_ABSTAIN"))
  {
    if output.Some? && output.value.Obj? {
      forall f | f in FindingsIn(output.value.fields) && f.Obj?
        ensures FindingShaped(judge, f.fields) <==> FindingWellTyped(judge, f.fields)
      {
        FindingIs(judge, f.fields);
      }
    }
  }

  // ----- the output that decides -----

  /** The first well-formed output, all before it having come back malformed. */
  predicate Deciding(judge: Judge, replies: seq<Reply>, k: nat) {
    && k < |replies| && replies[k].Completion? && WellFormed(judge, replies[k].output)
    && forall i :: 0 <= i < k ==> replies[i].Completion? && !WellFormed(judge, replies[i].output)
  }

  function Output(replies: seq<Reply>, k: nat): map<string, Json>
    requires k < |replies|
  {
    if replies[k].Completion? && replies[k].output.Some? && replies[k].output.value.Obj?
    then replies[k].output.value.fields else map[]
  }

  lemma {:induction false} AcceptedIs(judge: Judge, replies: seq<Reply>)
    ensures Accepted(judge, replies).Some? ==> exists k: nat :: Deciding(judge, replies, k)
    ensures forall k: nat :: Deciding(judge, replies, k) ==>
      Accepted(judge, replies) == ParseOutput(judge, replies[k].output)
  {
    if replies != [] {
      if replies[0].Completion? {
        ParsesExactly(judge, replies[0].output);
      }
      if Refused(judge, replies[0]) {
        AcceptedIs(judge, replies[1..]);
        if k: nat :| Deciding(judge, replies[1..], k) {
          assert Deciding(judge, replies, k + 1);
        }
        forall k: nat | Deciding(judge, replies, k)
          ensures Accepted(judge, replies) == ParseOutput(judge, replies[k].output)
        {
          assert k > 0;
          assert Deciding(judge, replies[1..], k - 1);
        }
      } else if replies[0].Completion? {
        assert Deciding(judge, replies, 0);
      }
    }
  }

  // ----- findings the evidence bears out -----

  /** The quote, normalized, is a non-empty part of the normalized text of the element. */
  predicate QuotedFrom(e: Evidence, element: string, quote: string) {
    && element in e.elements && e.normalize(quote) != ""
    && Part(e.normalize(e.elements[element]), e.normalize(quote))
  }

  predicate Part(text: string, part: string) {
    exists i :: 0 <= i <= |text| && PartAt(text, part, i)
  }

  predicate PartAt(text: string, part: string, i: nat) {
    i + |part| <= |text| && text[i..i + |part|] == part
  }

  lemma QuotedIs(e: Evidence, element: string, quote: string)
    ensures QuotedFrom(e, element, quote) <==> Quotes(e, element, quote)
  {
    if element in e.elements {
      var text, part := e.normalize(e.elements[element]), e.normalize(quote);
      if i :| 0 <= i <= |text| && OccursAt(text, part, i) {
        assert PartAt(text, part, i);
      }
      if i :| 0 <= i <= |text| && PartAt(text, part, i) {
        assert OccursAt(text, part, i);
      }
    }
  }

  /** Nothing is cited for the summary; for a bullet exactly its own facts. */
  predicate FactsMatch(f: map<string, Json>, e: Evidence)
    requires FindingShaped(Truth, f)
  {
    if f["element_id"] == Str("summary") then "fact_ids" !in f || f["fact_ids"] == Arr([])
    else
      && f["element_id"].Str? && f["element_id"].s in e.bulletFacts
      && "fact_ids" in f && f["fact_ids"].Arr?
      && (forall x :: x in f["fact_ids"].items ==> x.Str? && x.s in e.bulletFacts[f["element_id"].s])
      && (forall x :: x in e.bulletFacts[f["element_id"].s] ==> Str(x) in f["fact_ids"].items)
  }

  /** What the evidence bears out, of a finding of the right shape: its quote is from the element accused; Truth
      cites what must be cited; Consistency quotes a second, different element. */
  predicate BornOut(judge: Judge, f: map<string, Json>, e: Evidence)
    requires FindingShaped(judge, f)
  {
    && QuotedFrom(e, f["element_id"].s, f["quote"].s)
    && (judge == Truth ==> FactsMatch(f, e))
    && (judge == Consistency ==>
          && "second_element_id" in f && "second_quote" in f && f["second_element_id"] != f["element_id"]
          && QuotedFrom(e, f["second_element_id"].s, f["second_quote"].s))
  }

  lemma FactsAre(f: map<string, Json>, e: Evidence)
    requires FindingShaped(Truth, f)
    ensures CitedFacts(f, f["element_id"].s, e).Some? <==> FactsMatch(f, e)
  {
    if f["element_id"].s != "summary" && "fact_ids" in f && f["element_id"].s in e.bulletFacts {
      var items := f["fact_ids"].items;
      assert AllText(items) by {
        forall x | x in items ensures x.Str? { assert Said(x); }
      }
      var claimed := Texts(items);
      forall x ensures x in claimed <==> Str(x) in items {
        if x in claimed {
          var i :| 0 <= i < |claimed| && claimed[i] == x;
          assert items[i] in items && items[i] == Str(x);
        }
        if Str(x) in items {
          var i :| 0 <= i < |items| && items[i] == Str(x);
          assert claimed[i] == x;
        }
      }
      forall x | x in items ensures x.s in claimed {
        var i :| 0 <= i < |items| && items[i] == x;
        assert claimed[i] == x.s;
      }
      assert (set x | x in claimed) == e.bulletFacts[f["element_id"].s] <==>
        (forall x :: x in claimed ==> x in e.bulletFacts[f["element_id"].s])
        && forall x :: x in e.bulletFacts[f["element_id"].s] ==> x in claimed;
    }
  }

  /** The validator keeps exactly these, with the severity they state. */
  lemma KeptExactly(judge: Judge, f: map<string, Json>, e: Evidence)
    requires FindingShaped(judge, f)
    ensures ValidateOne(judge, Obj(f), e).Some? <==> BornOut(judge, f, e)
    ensures BornOut(judge, f, e) ==>
      (ValidateOne(judge, Obj(f), e).value.severity == Blocking <==> f["severity"] == Str("blocking"))
  {
    QuotedIs(e, f["element_id"].s, f["quote"].s);
    if judge == Truth {
      FactsAre(f, e);
    }
    if judge == Consistency && "second_element_id" in f && "second_quote" in f {
      QuotedIs(e, f["second_element_id"].s, f["second_quote"].s);
    }
  }

  lemma {:induction false} ValidOnesAre(judge: Judge, findings: seq<Json>, e: Evidence, v: Finding)
    ensures v in ValidOnes(judge, findings, e) <==> exists f :: f in findings && ValidateOne(judge, f, e) == Some(v)
  {
    if findings != [] {
      var n := |findings| - 1;
      ValidOnesAre(judge, findings[..n], e, v);
      assert findings == findings[..n] + [findings[n]];
    }
  }

  // ----- what each judge said -----

  /** The deciding output declares this verdict. */
  ghost predicate Declares(a: Attempt, judge: Judge, verdict: string) {
    exists k: nat :: Deciding(judge, a.replies(judge), k) && "verdict" in Output(a.replies(judge), k)
      && Output(a.replies(judge), k)["verdict"] == Str(verdict)
  }

  /** It declares PASS and accuses nothing. */
  ghost predicate Clears(a: Attempt, judge: Judge) {
    exists k: nat :: ClearsAt(a, judge, k)
  }

  predicate ClearsAt(a: Attempt, judge: Judge, k: nat) {
    && Deciding(judge, a.replies(judge), k) && "verdict" in Output(a.replies(judge), k)
    && Output(a.replies(judge), k)["verdict"] == Str("PASS") && FindingsIn(Output(a.replies(judge), k)) == []
  }

  /** It makes a finding that the evidence bears out. */
  predicate Accuses(a: Attempt, judge: Judge, k: nat, f: Json) {
    && Deciding(judge, a.replies(judge), k) && f in FindingsIn(Output(a.replies(judge), k))
    && f.Obj? && FindingShaped(judge, f.fields) && BornOut(judge, f.fields, a.evidence)
  }

  /** One of them is blocking. */
  ghost predicate Blocks(a: Attempt, judge: Judge) {
    exists k: nat, f :: Accuses(a, judge, k, f) && f.fields["severity"] == Str("blocking")
  }

  /** No output decides, or it makes findings and the evidence bears out none. */
  ghost predicate Silent(a: Attempt, judge: Judge) {
    forall k: nat :: Deciding(judge, a.replies(judge), k) ==>
      FindingsIn(Output(a.replies(judge), k)) != [] && forall f :: !Accuses(a, judge, k, f)
  }

  lemma DecidingIs(a: Attempt, judge: Judge, k: nat)
    requires Deciding(judge, a.replies(judge), k)
    ensures var o := Output(a.replies(judge), k); var accepted := Accepted(judge, a.replies(judge));
      && Shaped(judge, o) && accepted.Some? && accepted.value.1 == FindingsIn(o)
      && (accepted.value.0 == DeclaredPass <==> o["verdict"] == Str("PASS"))
      && (accepted.value.0 == DeclaredFail <==> o["verdict"] == Str("FAIL"))
  {
    AcceptedIs(judge, a.replies(judge));
    ParsesExactly(judge, a.replies(judge)[k].output);
  }

  lemma ClearsIs(a: Attempt, judge: Judge)
    ensures ClearedBy(a, judge) <==> Clears(a, judge)
  {
    AcceptedIs(judge, a.replies(judge));
    if Accepted(judge, a.replies(judge)).Some? {
      var k: nat :| Deciding(judge, a.replies(judge), k);
      DecidingIs(a, judge, k);
      assert ClearedBy(a, judge) <==> ClearsAt(a, judge, k);
    }
    if k: nat :| ClearsAt(a, judge, k) {
      DecidingIs(a, judge, k);
    }
  }

  /** The findings kept of the deciding output are those the evidence bears out. */
  lemma KeptAre(a: Attempt, judge: Judge, k: nat)
    requires Deciding(judge, a.replies(judge), k)
    ensures var kept := ValidOnes(judge, FindingsIn(Output(a.replies(judge), k)), a.evidence);
      && (kept != [] <==> exists f :: Accuses(a, judge, k, f))
      && (HasSeverity(kept, Blocking) <==>
            exists f :: Accuses(a, judge, k, f) && f.fields["severity"] == Str("blocking"))
  {
    DecidingIs(a, judge, k);
    var findings := FindingsIn(Output(a.replies(judge), k));
    var kept := ValidOnes(judge, findings, a.evidence);
    forall f | f in findings
      ensures ValidateOne(judge, f, a.evidence).Some? <==> Accuses(a, judge, k, f)
      ensures Accuses(a, judge, k, f) ==> (ValidateOne(judge, f, a.evidence).value.severity == Blocking <==>
          f.fields["severity"] == Str("blocking"))
    {
      KeptExactly(judge, f.fields, a.evidence);
    }
    forall v ensures v in kept <==> exists f :: f in findings && ValidateOne(judge, f, a.evidence) == Some(v) {
      ValidOnesAre(judge, findings, a.evidence, v);
    }
    if kept != [] {
      assert kept[0] in kept;
    }
    if f :| Accuses(a, judge, k, f) {
      assert ValidateOne(judge, f, a.evidence).value in kept;
    }
    if f :| Accuses(a, judge, k, f) && f.fields["severity"] == Str("blocking") {
      assert ValidateOne(judge, f, a.evidence).value in kept;
    }
  }

  lemma BlocksIs(a: Attempt, judge: Judge)
    ensures BlockedBy(a, judge) <==> Blocks(a, judge)
  {
    AcceptedIs(judge, a.replies(judge));
    if Accepted(judge, a.replies(judge)).Some? {
      var k: nat :| Deciding(judge, a.replies(judge), k);
      DecidingIs(a, judge, k);
      KeptAre(a, judge, k);
    }
    if k: nat, f :| Accuses(a, judge, k, f) && f.fields["severity"] == Str("blocking") {
      DecidingIs(a, judge, k);
      KeptAre(a, judge, k);
    }
  }

  lemma SilentIs(a: Attempt, judge: Judge)
    ensures SilentJudge(a, judge) <==> Silent(a, judge)
  {
    AcceptedIs(judge, a.replies(judge));
    if Accepted(judge, a.replies(judge)).Some? {
      var k: nat :| Deciding(judge, a.replies(judge), k);
      DecidingIs(a, judge, k);
      KeptAre(a, judge, k);
    }
    forall k: nat | Deciding(judge, a.replies(judge), k)
      ensures SilentJudge(a, judge) <==>
        FindingsIn(Output(a.replies(judge), k)) != [] && forall f :: !Accuses(a, judge, k, f)
    {
      DecidingIs(a, judge, k);
      KeptAre(a, judge, k);
    }
  }

  // ----- the verdict of a run -----

  /** The stored bundle could be read, and stage zero came to an end over it. */
  predicate Examined(a: Attempt) {
    a.policyValid && a.objectsReadable && a.bundleParses && a.stageZero.Some?
  }

  ghost predicate StageZeroFailed(a: Attempt) {
    !Examined(a) || exists d :: d in a.stageZero.value && d == InvariantFail
  }

  function VerdictOf(a: Attempt): Verdict { ReduceVerdict(ReportOf(a)).0 }

  /** Stage zero passed everything, and each judge's deciding output says "PASS" and finds nothing. */
  ghost predicate SpokenFor(a: Attempt) {
    && Examined(a) && (forall d :: d in a.stageZero.value ==> d == InvariantPass)
    && Clears(a, Truth) && Clears(a, Consistency) && Clears(a, Writing)
  }

  /** That is exactly what a PASS means. */
  lemma PassSaid(a: Attempt)
    ensures VerdictOf(a) == Pass <==> SpokenFor(a)
  {
    PassMeans(a);
    ClearsIs(a, Truth);
    ClearsIs(a, Consistency);
    ClearsIs(a, Writing);
    assert !Examined(a) ==> InvariantFail in StageZero(a);
  }

  /** It is FAIL exactly when stage zero failed or some judge made a blocking finding that the evidence bears out,
      whatever verdict the judge declared; INCOMPLETE exactly when neither is so and some judge was silent. */
  lemma FailSaid(a: Attempt)
    ensures var blocked := Blocks(a, Truth) || Blocks(a, Consistency) || Blocks(a, Writing);
      var silent := Silent(a, Truth) || Silent(a, Consistency) || Silent(a, Writing);
      && (VerdictOf(a) == Fail <==> StageZeroFailed(a) || blocked)
      && (VerdictOf(a) == Incomplete <==> !StageZeroFailed(a) && !blocked && silent)
  {
    FailMeans(a);
    forall judge ensures (BlockedBy(a, judge) <==> Blocks(a, judge)) && (SilentJudge(a, judge) <==> Silent(a, judge)) {
      BlocksIs(a, judge);
      SilentIs(a, judge);
    }
    assert StageZeroFailed(a) <==> !InvariantsPassed(StageZero(a));
  }

  /** A judge whose deciding output says "FAIL" keeps the run from being PASS, whatever its findings are worth. */
  lemma FailNeverPasses(a: Attempt, judge: Judge)
    requires Declares(a, judge, "FAIL")
    ensures VerdictOf(a) != Pass
  {
    PassSaid(a);
    var k: nat :| Deciding(judge, a.replies(judge), k) && "verdict" in Output(a.replies(judge), k)
      && Output(a.replies(judge), k)["verdict"] == Str("FAIL");
    if k': nat :| ClearsAt(a, judge, k') {
      OneDecides(judge, a.replies(judge), k, k');
    }
  }

  lemma OneDecides(judge: Judge, replies: seq<Reply>, j: nat, k: nat)
    requires Deciding(judge, replies, j) && Deciding(judge, replies, k)
    ensures j == k
  {
  }

  /** Over any run of the store: an approval without an override rests on an attempt in which stage zero passed and
      all three judges said "PASS" and found nothing, and one with an override on an attempt that was otherwise. */
  lemma ApprovalSaid(acts: seq<GauntletRuns.Act>, d: Decision)
    requires GauntletRuns.Genuine(acts) && d in GauntletRuns.TablesAfter(acts).decisions
    ensures d.run in GauntletRuns.Log(acts)
    ensures d.override <==> !SpokenFor(GauntletRuns.Log(acts)[d.run])
  {
    GauntletRuns.ApprovedMeansCleared(acts);
    var a := GauntletRuns.Log(acts)[d.run];
    PassMeans(a);
    PassSaid(a);
  }

  /** After a failed stage zero no judge is asked: the report does not depend on what they would have said. */
  lemma NobodyAsked(a: Attempt, b: Attempt)
    requires StageZeroFailed(a) && b == a.(replies := b.replies)
    ensures ReportOf(a) == ReportOf(b)
    ensures forall r :: r in ReportOf(a).judges ==> r.outcome == NotRun && r.attempts == 0
  {
    assert !InvariantsPassed(StageZero(a));
  }
}
