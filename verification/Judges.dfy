/** One judge: its output schema, the deterministic check of its findings, and the outcome they map
    to (packages/domain/gauntlet_judges.py). A completion's text is taken as already decoded. */
module Judges {
  import opened Basics

  datatype Judge = Truth | Consistency | Writing

  const MAX_JUDGE_ATTEMPTS := 3

  datatype Json =
    | Null
    | Bool(b: bool)
    | Number(n: int)
    | Str(s: string)
    | Arr(items: seq<Json>)
    | Obj(fields: map<string, Json>)

  datatype Declared = DeclaredPass | DeclaredFail | DeclaredAbstain

  datatype Outcome = Passed | FailedOutcome | TerminalAbstain | OperationalAbstain | NotRun

  datatype Severity = Blocking | Advisory

  datatype Finding = Finding(
    element: string, severity: Severity, quote: string, message: string,
    facts: seq<string>, second: Option<(string, string)>)

  datatype JudgeResult = JudgeResult(
    judge: Judge, outcome: Outcome, findings: seq<Finding>, invalid: seq<Json>, attempts: nat, models: seq<string>)

  /** The accusable elements with their rendered text, each bullet's facts, and text normalization. */
  datatype Evidence = Evidence(
    elements: map<string, string>, bulletFacts: map<string, set<string>>, normalize: string -> string)

  /** What one call returned: an adapter failure, or the model's name and its decoded text, if it is JSON. */
  datatype Reply = AdapterFailure | Completion(model: string, output: Option<Json>)

  // ----- output schema -----

  const TOP_KEYS := {"verdict", "findings", "note"}
  const REQUIRED_KEYS := ["element_id", "severity", "quote", "message"]

  function AllowedKeys(judge: Judge): set<string> {
    {"element_id", "severity", "quote", "message"}
    + (if judge == Truth then {"fact_ids"} else {})
    + (if judge == Consistency then {"second_element_id", "second_quote"} else {})
  }

  predicate IsText(j: Json) {
    j.Str? && !Blank(j.s)
  }

  predicate IsTextAt(f: map<string, Json>, key: string) {
    key in f && IsText(f[key])
  }

  function SeverityOf(j: Json): Option<Severity> {
    if j == Str("blocking") then Some(Blocking) else if j == Str("advisory") then Some(Advisory) else None
  }

  function DeclaredOf(j: Json): Option<Declared> {
    if j == Str("PASS") then Some(DeclaredPass)
    else if j == Str("FAIL") then Some(DeclaredFail)
    else if j == Str("TERMINAL_ABSTAIN") then Some(DeclaredAbstain)
    else None
  }

  predicate FindingWellTyped(judge: Judge, f: map<string, Json>) {
    && f.Keys <= AllowedKeys(judge)
    && (forall k :: k in REQUIRED_KEYS ==> IsTextAt(f, k))
    && "severity" in f && SeverityOf(f["severity"]).Some?
    && ("fact_ids" in f ==> f["fact_ids"].Arr? && forall x :: x in f["fact_ids"].items ==> IsText(x))
    && ("second_element_id" in f ==> IsText(f["second_element_id"]))
    && ("second_quote" in f ==> IsText(f["second_quote"]))
  }

  /** The declared verdict and the findings, or nothing when the schema is broken. */
  function ParseOutput(judge: Judge, output: Option<Json>): Option<(Declared, seq<Json>)> {
    if output.None? || !output.value.Obj? then None
    else
      var o := output.value.fields;
      if !(o.Keys <= TOP_KEYS) || "verdict" !in o || DeclaredOf(o["verdict"]).None? then None
      else
        var findings := if "findings" in o then o["findings"] else Arr([]);
        if !findings.Arr? || (exists f :: f in findings.items && !f.Obj?) then None
        else if "note" in o && !o["note"].Str? then None
        else if exists f :: f in findings.items && !FindingWellTyped(judge, f.fields) then None
        else if DeclaredOf(o["verdict"]).value == DeclaredFail && findings.items == [] then None
        else Some((DeclaredOf(o["verdict"]).value, findings.items))
  }

  // ----- the finding validator -----

  predicate Contains(text: string, part: string) {
    exists i :: 0 <= i <= |text| && OccursAt(text, part, i)
  }

  predicate OccursAt(text: string, part: string, i: int) {
    0 <= i <= |text| - |part| && text[i..i + |part|] == part
  }

  predicate IsSpan(e: Evidence, quote: string, text: string) {
    e.normalize(quote) != "" && Contains(e.normalize(text), e.normalize(quote))
  }

  /** The element exists and the quote is a span of its own text. */
  predicate Quotes(e: Evidence, element: string, quote: string) {
    element in e.elements && IsSpan(e, quote, e.elements[element])
  }

  predicate AllText(items: seq<Json>) {
    forall x :: x in items ==> x.Str?
  }

  function Texts(items: seq<Json>): (r: seq<string>)
    requires AllText(items)
    ensures |r| == |items| && forall i :: 0 <= i < |r| ==> r[i] == items[i].s
  {
    seq(|items|, i requires 0 <= i < |items| => items[i].s)
  }

  predicate Truthy(f: map<string, Json>, key: string) {
    key in f && match f[key]
      case Null => false
      case Bool(b) => b
      case Number(n) => n != 0
      case Str(s) => s != ""
      case Arr(items) => items != []
      case Obj(fields) => fields != map[]
  }

  /** The facts a Truth finding cites, or nothing when they do not match the element's sources. */
  function CitedFacts(f: map<string, Json>, element: string, e: Evidence): Option<seq<string>> {
    if element == "summary" then if Truthy(f, "fact_ids") then None else Some([])
    else if element !in e.bulletFacts || "fact_ids" !in f then None
    else if !f["fact_ids"].Arr? || !AllText(f["fact_ids"].items) then None
    else
      var claimed := Texts(f["fact_ids"].items);
      if (set x | x in claimed) == e.bulletFacts[element] then Some(claimed) else None
  }

  function SecondQuote(f: map<string, Json>, element: string, e: Evidence): Option<(string, string)> {
    if "second_element_id" !in f || !f["second_element_id"].Str? then None
    else if "second_quote" !in f || !f["second_quote"].Str? then None
    else
      var other, quote := f["second_element_id"].s, f["second_quote"].s;
      if other == element || !Quotes(e, other, quote) then None else Some((other, quote))
  }

  function ValidateOne(judge: Judge, finding: Json, e: Evidence): Option<Finding> {
    if !finding.Obj? then None
    else
      var f := finding.fields;
      if "element_id" !in f || !f["element_id"].Str? || "quote" !in f || !f["quote"].Str? then None
      else
        var element, quote := f["element_id"].s, f["quote"].s;
        var facts := if judge == Truth then CitedFacts(f, element, e) else Some([]);
        var second := if judge == Consistency then SecondQuote(f, element, e) else None;
        if !Quotes(e, element, quote) || facts.None? || (judge == Consistency && second.None?) then None
        else if "severity" !in f || SeverityOf(f["severity"]).None? || "message" !in f || !f["message"].Str? then None
        else Some(Finding(element, SeverityOf(f["severity"]).value, quote, f["message"].s, facts.value, second))
  }

  function ValidOnes(judge: Judge, findings: seq<Json>, e: Evidence): seq<Finding> {
    if findings == [] then []
    else
      var n := |findings| - 1;
      var v := ValidateOne(judge, findings[n], e);
      ValidOnes(judge, findings[..n], e) + if v.Some? then [v.value] else []
  }

  function InvalidOnes(judge: Judge, findings: seq<Json>, e: Evidence): seq<Json> {
    if findings == [] then []
    else
      var n := |findings| - 1;
      InvalidOnes(judge, findings[..n], e) + if ValidateOne(judge, findings[n], e).Some? then [] else [findings[n]]
  }

  method ValidateFindings(judge: Judge, findings: seq<Json>, e: Evidence)
    returns (valid: seq<Finding>, invalid: seq<Json>)
    ensures valid == ValidOnes(judge, findings, e) && invalid == InvalidOnes(judge, findings, e)
    ensures |valid| + |invalid| == |findings|
  {
    valid, invalid := [], [];
    for i := 0 to |findings|
      invariant valid == ValidOnes(judge, findings[..i], e) && invalid == InvalidOnes(judge, findings[..i], e)
      invariant |valid| + |invalid| == i
    {
      assert findings[..i + 1][..i] == findings[..i];
      var entry := ValidateOne(judge, findings[i], e);
      if entry.None? {
        invalid := invalid + [findings[i]];
      } else {
        valid := valid + [entry.value];
      }
    }
    assert findings[..|findings|] == findings;
  }

  /** What a judge may be heard on: elements that exist, quoted from their own text, with exactly the
      facts of the bullet (Truth) or a second, different element (Consistency). */
  predicate Grounded(judge: Judge, f: Finding, e: Evidence) {
    && Quotes(e, f.element, f.quote)
    && (judge == Truth && f.element != "summary" ==>
          f.element in e.bulletFacts && (set x | x in f.facts) == e.bulletFacts[f.element])
    && (judge == Consistency ==>
          f.second.Some? && f.second.value.0 != f.element && Quotes(e, f.second.value.0, f.second.value.1))
  }

  lemma {:induction false} ValidAreGrounded(judge: Judge, findings: seq<Json>, e: Evidence)
    ensures forall f :: f in ValidOnes(judge, findings, e) ==> Grounded(judge, f, e)
    ensures |ValidOnes(judge, findings, e)| + |InvalidOnes(judge, findings, e)| == |findings|
  {
    if findings != [] {
      ValidAreGrounded(judge, findings[..|findings| - 1], e);
    }
  }

  // ----- one judge run -----

  predicate Refused(judge: Judge, r: Reply) {
    r.Completion? && ParseOutput(judge, r.output).None?
  }

  predicate HasSeverity(findings: seq<Finding>, s: Severity) {
    exists f :: f in findings && f.severity == s
  }

  function OutcomeOf(declared: Declared, valid: seq<Finding>): Outcome {
    if HasSeverity(valid, Blocking) then FailedOutcome
    else if declared == DeclaredAbstain then TerminalAbstain
    else Passed
  }

  /** The result when attempt number `attempts` is the one that decides. */
  function Decide(judge: Judge, r: Reply, e: Evidence, attempts: nat, models: seq<string>): JudgeResult
    requires !Refused(judge, r)
  {
    if r.AdapterFailure? then JudgeResult(judge, OperationalAbstain, [], [], attempts, models)
    else
      var (declared, findings) := ParseOutput(judge, r.output).value;
      var valid, invalid := ValidOnes(judge, findings, e), InvalidOnes(judge, findings, e);
      if findings != [] && valid == []
      then JudgeResult(judge, OperationalAbstain, [], invalid, attempts, models + [r.model])
      else JudgeResult(judge, OutcomeOf(declared, valid), valid, invalid, attempts, models + [r.model])
  }

  /** The replies to the calls a judge may make. */
  type Replies = r: seq<Reply> | |r| == MAX_JUDGE_ATTEMPTS witness [AdapterFailure, AdapterFailure, AdapterFailure]

  method RunJudge(judge: Judge, replies: Replies, e: Evidence) returns (r: JudgeResult)
    ensures 1 <= r.attempts <= MAX_JUDGE_ATTEMPTS
    ensures forall k :: 0 <= k < r.attempts - 1 ==> Refused(judge, replies[k])
    ensures !Refused(judge, replies[r.attempts - 1])
      ==> r == Decide(judge, replies[r.attempts - 1], e, r.attempts, Models(replies[..r.attempts - 1]))
    ensures Refused(judge, replies[r.attempts - 1]) ==> r == Exhausted(judge, replies)
    ensures r == JudgeRun(judge, replies, e, [])
  {
    var attempts, models := 0, [];
    while attempts < MAX_JUDGE_ATTEMPTS
      invariant 0 <= attempts <= MAX_JUDGE_ATTEMPTS
      invariant forall k :: 0 <= k < attempts ==> Refused(judge, replies[k])
      invariant models == Models(replies[..attempts]) && |models| == attempts
      invariant JudgeRun(judge, replies, e, []) == JudgeRun(judge, replies[attempts..], e, models)
    {
      var reply := replies[attempts];
      assert replies[attempts..][1..] == replies[attempts + 1..];
      assert replies[..attempts + 1][..attempts] == replies[..attempts];
      attempts := attempts + 1;
      if reply.AdapterFailure? {
        return JudgeResult(judge, OperationalAbstain, [], [], attempts, models);
      }
      var parsed := ParseOutput(judge, reply.output);
      if parsed.None? {
        models := models + [reply.model];
        continue;
      }
      var (declared, findings) := parsed.value;
      var valid, invalid := ValidateFindings(judge, findings, e);
      if findings != [] && valid == [] {
        return JudgeResult(judge, OperationalAbstain, [], invalid, attempts, models + [reply.model]);
      }
      return JudgeResult(judge, OutcomeOf(declared, valid), valid, invalid, attempts, models + [reply.model]);
    }
    assert replies[..attempts] == replies;
    return JudgeResult(judge, OperationalAbstain, [], [], attempts, models);
  }

  function Models(replies: seq<Reply>): seq<string> {
    if replies == [] then []
    else
      var last := replies[|replies| - 1];
      Models(replies[..|replies| - 1]) + if last.Completion? then [last.model] else []
  }

  function Exhausted(judge: Judge, replies: seq<Reply>): JudgeResult {
    JudgeResult(judge, OperationalAbstain, [], [], MAX_JUDGE_ATTEMPTS, Models(replies))
  }

  /** The first reply that is not refused decides; when all are refused the judge abstains. The models
      are those of the refused calls so far. */
  function JudgeRun(judge: Judge, replies: seq<Reply>, e: Evidence, models: seq<string>): JudgeResult {
    if replies == [] then JudgeResult(judge, OperationalAbstain, [], [], |models|, models)
    else if Refused(judge, replies[0]) then JudgeRun(judge, replies[1..], e, models + [replies[0].model])
    else Decide(judge, replies[0], e, |models| + 1, models)
  }

  /** The output a judge run rests on, if any completion met the schema before the adapter failed. */
  function Accepted(judge: Judge, replies: seq<Reply>): Option<(Declared, seq<Json>)> {
    if replies == [] then None
    else if Refused(judge, replies[0]) then Accepted(judge, replies[1..])
    else if replies[0].AdapterFailure? then None
    else ParseOutput(judge, replies[0].output)
  }

  /** What each outcome means in terms of the accepted output. */
  lemma {:induction false} OutcomeMeans(judge: Judge, replies: seq<Reply>, e: Evidence, models: seq<string>)
    ensures var r, a := JudgeRun(judge, replies, e, models), Accepted(judge, replies);
      && r.judge == judge && r.outcome != NotRun
      && (r.outcome == FailedOutcome <==> a.Some? && HasSeverity(ValidOnes(judge, a.value.1, e), Blocking))
      && (r.outcome == OperationalAbstain <==> a.None? || (a.value.1 != [] && ValidOnes(judge, a.value.1, e) == []))
      && (a.Some? && r.outcome != OperationalAbstain ==> r.findings == ValidOnes(judge, a.value.1, e))
      && (r.outcome == Passed && r.findings == [] <==> a == Some((DeclaredPass, [])))
      && (a.Some? && a.value.0 == DeclaredFail ==> a.value.1 != [])
  {
    if replies != [] && Refused(judge, replies[0]) {
      OutcomeMeans(judge, replies[1..], e, models + [replies[0].model]);
    }
  }
}
