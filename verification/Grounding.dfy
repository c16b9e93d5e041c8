/** The deterministic output gate (packages/domain/grounding.py). Its text functions are those of a
    Lexicon; each check reports findings by rule, and is proved to decide a condition on the model. */
module Grounding {
  import opened Basics
  import opened CvModel

  /** normalize_chars, casefold, tokenize_preserving_case, tokenize, lemma, content_lemmas,
      numeric_tokens (each numeral as one text) and is_entity_like. */
  datatype Lexicon = Lexicon(
    normalizeChars: string -> string, casefold: string -> string, tokens: string -> seq<string>,
    tokenize: string -> seq<string>, lemmaOf: string -> string, contentLemmas: string -> set<string>,
    numerals: string -> set<string>,
    entityLike: string -> bool)
  {
    function Normalize(text: string): string { casefold(normalizeChars(text)) }

    function LemmaSet(text: string): set<string> {
      set i | 0 <= i < |tokenize(text)| :: lemmaOf(tokenize(text)[i])
    }

    function FoldedTokens(text: string): set<string> {
      set i | 0 <= i < |tokenize(text)| :: casefold(tokenize(text)[i])
    }

    predicate Same(rendered: string, canonical: string) {
      normalizeChars(rendered) == normalizeChars(canonical)
    }
  }

  datatype Rule =
    | SectionOrderRule | Traceability | HeaderRule | HeadlineRule | NumbersDates | Entities | ContentWords | SkillsRule
    | Skeleton | SectionKind | ExperienceGate | ScopeInflation | Coverage | Ordering

  datatype Finding = Finding(rule: Rule, element: string)

  /** Some finding is of this rule. */
  predicate Reports(findings: seq<Finding>, r: Rule) {
    exists f :: f in findings && f.rule == r
  }

  lemma ReportsJoin(a: seq<Finding>, b: seq<Finding>)
    ensures forall r :: Reports(a + b, r) <==> Reports(a, r) || Reports(b, r)
  {
    forall r ensures Reports(a + b, r) <==> Reports(a, r) || Reports(b, r) {
      if Reports(a, r) {
        var f :| f in a && f.rule == r;
        assert f in a + b;
      }
      if Reports(b, r) {
        var f :| f in b && f.rule == r;
        assert f in a + b;
      }
    }
  }

  lemma ReportsOne(f: Finding)
    ensures forall r :: Reports([f], r) <==> r == f.rule
  {
    assert f in [f];
  }

  lemma NothingMissing<T>(a: set<T>, b: set<T>)
    ensures a - b == {} <==> a <= b
  {
    if a - b == {} {
      forall x | x in a ensures x in b {
        assert x !in a - b;
      }
    }
  }

  const OWNERSHIP_VERB_CLASSES: seq<set<string>> := [
    {"lead", "spearhead", "head", "direct", "drive"},
    {"build", "create", "develop", "architect", "engineer", "design", "implement"},
    {"found", "cofound", "co-found", "establish", "start"},
    {"manage", "oversee", "supervise", "coordinate"},
    {"own"},
    {"launch", "ship", "deliver", "release"}]

  function JoinLines(parts: seq<string>): string {
    if parts == [] then ""
    else if |parts| == 1 then parts[0]
    else JoinLines(parts[..|parts| - 1]) + "\n" + parts[|parts| - 1]
  }

  function NonEmpty(parts: seq<string>): seq<string> {
    if parts == [] then []
    else NonEmpty(parts[..|parts| - 1]) + if parts[|parts| - 1] != "" then [parts[|parts| - 1]] else []
  }

  function KindName(k: Kind): string {
    match k
    case Role => "role"
    case Venture => "venture"
    case OtherKind => "other"
    case Project => "project"
    case EducationKind => "education"
  }

  /** An experience row's own columns. */
  function Columns(e: Experience): seq<string> {
    NonEmpty([KindName(e.kind), e.title, e.org, e.start, e.end])
  }

  // ----- the verifier's inputs -----

  /** What the verifier holds: the view, and the corpus texts in the order they are joined. */
  datatype Ground = Ground(lex: Lexicon, ctx: Context, view: View, corpus: seq<string>, profileValues: seq<string>)

  /** The corpus is all renderable grounding text and nothing else: statements, experience columns,
      profile values, capability names. */
  ghost predicate IsGround(g: Ground) {
    && g.view == ViewOf(g.ctx)
    && (forall p :: p in g.corpus <==> Renderable(g.view, p))
    && (forall p :: p in g.profileValues <==> p != "" && p in g.view.profile.Values)
  }

  ghost predicate Renderable(v: View, p: string) {
    || (exists id :: id in v.facts && v.facts[id].statement == p)
    || (exists id :: id in v.experiences && p in Columns(v.experiences[id]))
    || (p != "" && p in v.profile.Values)
    || p in v.capabilities.Values
  }

  function Corpus(g: Ground): string { JoinLines(g.corpus) }

  // ----- text conditions -----

  predicate NumbersGrounded(g: Ground, text: string, source: string) {
    g.lex.numerals(text) <= g.lex.numerals(source)
  }

  predicate EntityAllowed(g: Ground, token: string) {
    var folded := g.lex.casefold(token);
    g.lex.entityLike(token) ==>
      || folded in g.lex.FoldedTokens(Corpus(g))
      || g.lex.lemmaOf(folded) in g.lex.LemmaSet(Corpus(g))
  }

  predicate EntitiesGrounded(g: Ground, text: string) {
    forall i :: 0 <= i < |g.lex.tokens(text)| ==> EntityAllowed(g, g.lex.tokens(text)[i])
  }

  predicate ScopeGrounded(g: Ground, text: string, source: string) {
    forall k :: 0 <= k < |OWNERSHIP_VERB_CLASSES| ==> ClassGrounded(g, text, source, OWNERSHIP_VERB_CLASSES[k])
  }

  predicate ClassGrounded(g: Ground, text: string, source: string, verbs: set<string>) {
    g.lex.LemmaSet(text) * verbs != {} ==> g.lex.LemmaSet(source) * verbs != {}
  }

  // ----- conditions on the parts of a model -----

  predicate Attached(g: Ground, entry: Entry, id: string) {
    id in g.view.facts && g.view.facts[id].experience == Some(entry.experience)
  }

  /** The statements of the facts that attach to the entry, in the order they are cited. */
  function Sources(g: Ground, entry: Entry, ids: seq<string>): seq<string> {
    if ids == [] then []
    else
      var last := ids[|ids| - 1];
      Sources(g, entry, ids[..|ids| - 1]) + if Attached(g, entry, last) then [g.view.facts[last].statement] else []
  }

  function AllowedContent(g: Ground, entry: Entry, source: string): set<string>
    requires entry.experience in g.view.experiences
  {
    g.lex.contentLemmas(source)
    + g.lex.contentLemmas(JoinLines(Columns(g.view.experiences[entry.experience])))
    + g.lex.contentLemmas(JoinLines(g.profileValues))
  }

  predicate BulletSatisfies(g: Ground, entry: Entry, b: Bullet, r: Rule)
    requires entry.experience in g.view.experiences
  {
    var sources := Sources(g, entry, b.facts);
    var source := JoinLines(sources);
    match r
    case Traceability => b.facts != [] && forall id :: id in b.facts ==> Attached(g, entry, id)
    case NumbersDates => sources == [] || NumbersGrounded(g, b.text, source)
    case Entities => sources == [] || EntitiesGrounded(g, b.text)
    case ContentWords => sources == [] || g.lex.contentLemmas(b.text) <= AllowedContent(g, entry, source)
    case ScopeInflation => sources == [] || ScopeGrounded(g, b.text, source)
    case _ => true
  }

  predicate RowSatisfies(g: Ground, s: Section, entry: Entry, row: Experience, r: Rule) {
    match r
    case Skeleton =>
      && g.lex.Same(entry.title, row.title) && g.lex.Same(entry.org, row.org)
      && g.lex.Same(entry.start, row.start) && g.lex.Same(entry.end, row.end) && entry.location.None?
    case SectionKind => SectionOf(row.kind) == s
    case ExperienceGate => s == Experiences ==> entry.bullets != []
    case _ => true
  }

  predicate EntrySatisfies(g: Ground, s: Section, entry: Entry, r: Rule) {
    if entry.experience !in g.view.experiences then r != Traceability
    else
      && RowSatisfies(g, s, entry, g.view.experiences[entry.experience], r)
      && forall k :: 0 <= k < |entry.bullets| ==> BulletSatisfies(g, entry, entry.bullets[k], r)
  }

  predicate EntriesSatisfy(g: Ground, s: Section, entries: seq<Entry>, r: Rule) {
    forall k :: 0 <= k < |entries| ==> EntrySatisfies(g, s, entries[k], r)
  }

  predicate MetaSatisfies(g: Ground, cv: Cv, r: Rule) {
    match r
    case SectionOrderRule => cv.meta.sectionOrder == SECTION_ORDER
    case Traceability => cv.meta.family == g.ctx.family && cv.meta.strategyVersion == g.ctx.strategyVersion
    case _ => true
  }

  function LinkValues(g: Ground): set<string> {
    FieldValues(g, LINK_FIELDS)
  }

  function FieldValues(g: Ground, fields: seq<string>): set<string> {
    set k | 0 <= k < |fields| && Lookup(g.view.profile, fields[k]) != "" ::
      g.lex.normalizeChars(Lookup(g.view.profile, fields[k]))
  }

  function RenderedLinks(g: Ground, links: seq<string>): set<string> {
    set k | 0 <= k < |links| :: g.lex.normalizeChars(links[k])
  }

  predicate HeaderSatisfies(g: Ground, cv: Cv) {
    && g.lex.Same(cv.header.name, Lookup(g.view.profile, "full_name"))
    && g.lex.Same(cv.header.email, Lookup(g.view.profile, "email"))
    && g.lex.Same(cv.header.phone, Lookup(g.view.profile, "phone"))
    && g.lex.Same(cv.header.location, Lookup(g.view.profile, "location"))
    && RenderedLinks(g, cv.header.links) == LinkValues(g)
  }

  predicate HeadlineSatisfies(g: Ground, cv: Cv) {
    cv.headline.Some? ==> g.lex.Same(cv.headline.value, g.ctx.familyName)
  }

  predicate SummarySatisfies(g: Ground, cv: Cv, r: Rule) {
    match r
    case NumbersDates => NumbersGrounded(g, cv.summary, Corpus(g))
    case Entities => EntitiesGrounded(g, cv.summary)
    case ContentWords => g.lex.contentLemmas(cv.summary) <= g.lex.contentLemmas(Corpus(g))
    case _ => true
  }

  predicate CapabilityCovered(g: Ground, id: string) {
    id in g.view.capabilities && HasFacts(g.ctx.selections, id)
  }

  /** Every capability is covered, and the name shown is that of one of them. */
  predicate SkillSatisfies(g: Ground, k: Skill) {
    && (forall id :: id in k.capabilities ==> CapabilityCovered(g, id))
    && ((exists id :: id in k.capabilities && CapabilityCovered(g, id)) ==>
          exists id :: id in k.capabilities && CapabilityCovered(g, id)
            && g.lex.Normalize(k.name) == g.lex.Normalize(g.view.capabilities[id]))
  }

  predicate SkillsSatisfy(g: Ground, skills: seq<Skill>) {
    forall k :: 0 <= k < |skills| ==> SkillSatisfies(g, skills[k])
  }

  ghost predicate RenderOnce(entries: seq<Entry>) {
    forall i, j :: 0 <= i < j < |entries| ==> entries[i].experience != entries[j].experience
  }

  predicate Renders(entries: seq<Entry>, id: string) {
    exists k :: 0 <= k < |entries| && entries[k].experience == id
  }

  /** The row, if its kind must be shown, has an entry in the section for it. */
  predicate RowRendered(g: Ground, cv: Cv, id: string)
    requires id in g.view.experiences
  {
    var s := SectionOf(g.view.experiences[id].kind);
    s != Experiences ==> Renders(EntriesOf(cv, s), id)
  }

  predicate Backed(f: Fact) {
    f.experience.Some? && f.experience.value != ""
  }

  predicate HasBackedFact(g: Ground) {
    exists id :: id in g.view.facts && Backed(g.view.facts[id])
  }

  predicate RendersFact(g: Ground, entry: Entry) {
    exists k, id :: 0 <= k < |entry.bullets| && id in entry.bullets[k].facts && Attached(g, entry, id)
  }

  ghost predicate CompletenessSatisfies(g: Ground, cv: Cv) {
    && RenderOnce(cv.AllEntries())
    && (forall id :: id in g.view.experiences ==> RowRendered(g, cv, id))
    && (HasBackedFact(g) ==> exists k :: 0 <= k < |cv.AllEntries()| && RendersFact(g, cv.AllEntries()[k]))
  }

  /** The canonical keys of the entries whose row is known, in order. */
  function CanonicalKeys(g: Ground, entries: seq<Entry>): seq<Key> {
    if entries == [] then []
    else
      var id := entries[|entries| - 1].experience;
      CanonicalKeys(g, entries[..|entries| - 1])
      + if id in g.view.experiences then [ChronRank(g.view.experiences[id].start, g.view.experiences[id].end)] else []
  }

  predicate OrderSatisfies(g: Ground, cv: Cv) {
    Descending(CanonicalKeys(g, cv.experiences), (k: Key) => k)
  }

  /** What a rule demands of the whole model. */
  ghost predicate Satisfies(g: Ground, cv: Cv, r: Rule) {
    && MetaSatisfies(g, cv, r)
    && (r == HeaderRule ==> HeaderSatisfies(g, cv))
    && (r == HeadlineRule ==> HeadlineSatisfies(g, cv))
    && SummarySatisfies(g, cv, r)
    && (r == SkillsRule ==> SkillsSatisfy(g, cv.skills))
    && EntriesSatisfy(g, Experiences, cv.experiences, r)
    && EntriesSatisfy(g, Projects, cv.projects, r)
    && EntriesSatisfy(g, Education, cv.education, r)
    && (r == Coverage ==> CompletenessSatisfies(g, cv))
    && (r == Ordering ==> OrderSatisfies(g, cv))
  }

  /** The model is lexically grounded: no rule objects. */
  ghost predicate Grounded(g: Ground, cv: Cv) {
    forall r :: Satisfies(g, cv, r)
  }

  // ----- the checks -----

  class GroundingVerifier {
    const g: Ground
    const corpusNumerals: set<string>
    const corpusLemmas: set<string>
    const corpusTokens: set<string>
    const corpusContent: set<string>

    ghost predicate Valid() {
      && IsGround(g)
      && corpusNumerals == g.lex.numerals(Corpus(g)) && corpusLemmas == g.lex.LemmaSet(Corpus(g))
      && corpusTokens == g.lex.FoldedTokens(Corpus(g)) && corpusContent == g.lex.contentLemmas(Corpus(g))
    }

    constructor (g: Ground)
      requires IsGround(g)
      ensures Valid() && this.g == g
    {
      this.g := g;
      corpusNumerals := g.lex.numerals(Corpus(g));
      corpusLemmas := g.lex.LemmaSet(Corpus(g));
      corpusTokens := g.lex.FoldedTokens(Corpus(g));
      corpusContent := g.lex.contentLemmas(Corpus(g));
    }

    method CheckNumbers(element: string, text: string, allowed: set<string>) returns (findings: seq<Finding>)
      ensures forall r :: Reports(findings, r) <==> r == NumbersDates && !(g.lex.numerals(text) <= allowed)
    {
      findings := [];
      NothingMissing(g.lex.numerals(text), allowed);
      if g.lex.numerals(text) - allowed != {} {
        findings := [Finding(NumbersDates, element)];
        ReportsOne(findings[0]);
      }
    }

    /** Unknown names and technical tokens fail closed. */
    method CheckEntities(element: string, text: string) returns (findings: seq<Finding>)
      requires Valid()
      ensures forall r :: Reports(findings, r) <==> r == Entities && !EntitiesGrounded(g, text)
    {
      findings := [];
      var tokens := g.lex.tokens(text);
      for i := 0 to |tokens|
        invariant forall r :: Reports(findings, r) <==>
          r == Entities && exists k :: 0 <= k < i && !EntityAllowed(g, tokens[k])
      {
        if !g.lex.entityLike(tokens[i]) {
          continue;
        }
        var folded := g.lex.casefold(tokens[i]);
        if folded in corpusTokens || g.lex.lemmaOf(folded) in corpusLemmas {
          continue;
        }
        ReportsJoin(findings, [Finding(Entities, element)]);
        ReportsOne(Finding(Entities, element));
        findings := findings + [Finding(Entities, element)];
      }
    }

    method CheckScope(element: string, text: string, source: string) returns (findings: seq<Finding>)
      ensures forall r :: Reports(findings, r) <==> r == ScopeInflation && !ScopeGrounded(g, text, source)
    {
      findings := [];
      var bulletLemmas, sourceLemmas := g.lex.LemmaSet(text), g.lex.LemmaSet(source);
      for i := 0 to |OWNERSHIP_VERB_CLASSES|
        invariant forall r :: Reports(findings, r) <==>
          r == ScopeInflation && exists k :: 0 <= k < i && !ClassGrounded(g, text, source, OWNERSHIP_VERB_CLASSES[k])
      {
        var verbs := OWNERSHIP_VERB_CLASSES[i];
        if bulletLemmas * verbs != {} && sourceLemmas * verbs == {} {
          ReportsJoin(findings, [Finding(ScopeInflation, element)]);
          ReportsOne(Finding(ScopeInflation, element));
          findings := findings + [Finding(ScopeInflation, element)];
        }
      }
    }

    method CheckMeta(cv: Cv) returns (findings: seq<Finding>)
      requires Valid()
      ensures forall r :: Reports(findings, r) <==> !MetaSatisfies(g, cv, r)
    {
      findings := [];
      if cv.meta.sectionOrder != SECTION_ORDER {
        findings := [Finding(SectionOrderRule, "meta")];
        ReportsOne(findings[0]);
      }
      if cv.meta.family != g.ctx.family {
        ReportsJoin(findings, [Finding(Traceability, "meta")]);
        ReportsOne(Finding(Traceability, "meta"));
        findings := findings + [Finding(Traceability, "meta")];
      }
      if cv.meta.strategyVersion != g.ctx.strategyVersion {
        ReportsJoin(findings, [Finding(Traceability, "meta")]);
        ReportsOne(Finding(Traceability, "meta"));
        findings := findings + [Finding(Traceability, "meta")];
      }
    }

    method CheckHeadline(cv: Cv) returns (findings: seq<Finding>)
      ensures forall r :: Reports(findings, r) <==> r == HeadlineRule && !HeadlineSatisfies(g, cv)
    {
      findings := [];
      if cv.headline.Some? && !g.lex.Same(cv.headline.value, g.ctx.familyName) {
        findings := [Finding(HeadlineRule, "headline")];
        ReportsOne(findings[0]);
      }
    }

    method CheckSummary(cv: Cv) returns (findings: seq<Finding>)
      requires Valid()
      ensures forall r :: Reports(findings, r) <==> !SummarySatisfies(g, cv, r)
    {
      findings := CheckNumbers("summary", cv.summary, corpusNumerals);
      var entities := CheckEntities("summary", cv.summary);
      ReportsJoin(findings, entities);
      findings := findings + entities;
      NothingMissing(g.lex.contentLemmas(cv.summary), corpusContent);
      if g.lex.contentLemmas(cv.summary) - corpusContent != {} {
        ReportsJoin(findings, [Finding(ContentWords, "summary")]);
        ReportsOne(Finding(ContentWords, "summary"));
        findings := findings + [Finding(ContentWords, "summary")];
      }
    }

    method CheckField(field: string, rendered: string, canonical: string, rule: Rule) returns (findings: seq<Finding>)
      ensures forall r :: Reports(findings, r) <==> r == rule && !g.lex.Same(rendered, canonical)
    {
      findings := [];
      if !g.lex.Same(rendered, canonical) {
        findings := [Finding(rule, field)];
        ReportsOne(findings[0]);
      }
    }

    method CheckLinks(links: seq<string>) returns (findings: seq<Finding>)
      ensures forall r :: Reports(findings, r) <==> r == HeaderRule && RenderedLinks(g, links) != LinkValues(g)
    {
      findings := [];
      var values, rendered := LinkValues(g), RenderedLinks(g, links);
      for i := 0 to |links|
        invariant forall r :: Reports(findings, r) <==>
          r == HeaderRule && exists k :: 0 <= k < i && g.lex.normalizeChars(links[k]) !in values
      {
        if g.lex.normalizeChars(links[i]) !in values {
          ReportsJoin(findings, [Finding(HeaderRule, "header.links")]);
          ReportsOne(Finding(HeaderRule, "header.links"));
          findings := findings + [Finding(HeaderRule, "header.links")];
        }
      }
      assert (exists k :: 0 <= k < |links| && g.lex.normalizeChars(links[k]) !in values) <==> !(rendered <= values);
      NothingMissing(values, rendered);
      if values - rendered != {} {
        ReportsJoin(findings, [Finding(HeaderRule, "header.links")]);
        ReportsOne(Finding(HeaderRule, "header.links"));
        findings := findings + [Finding(HeaderRule, "header.links")];
      }
    }

    method CheckHeader(cv: Cv) returns (findings: seq<Finding>)
      ensures forall r :: Reports(findings, r) <==> r == HeaderRule && !HeaderSatisfies(g, cv)
    {
      var fields := [
        ("header.name", cv.header.name, Lookup(g.view.profile, "full_name")),
        ("header.email", cv.header.email, Lookup(g.view.profile, "email")),
        ("header.phone", cv.header.phone, Lookup(g.view.profile, "phone")),
        ("header.location", cv.header.location, Lookup(g.view.profile, "location"))];
      findings := [];
      for i := 0 to |fields|
        invariant forall r :: Reports(findings, r) <==>
          r == HeaderRule && exists k :: 0 <= k < i && !g.lex.Same(fields[k].1, fields[k].2)
      {
        var more := CheckField(fields[i].0, fields[i].1, fields[i].2, HeaderRule);
        ReportsJoin(findings, more);
        findings := findings + more;
      }
      var links := CheckLinks(cv.header.links);
      ReportsJoin(findings, links);
      findings := findings + links;
      assert fields[0].1 == cv.header.name && fields[1].1 == cv.header.email;
      assert fields[2].1 == cv.header.phone && fields[3].1 == cv.header.location;
    }

    method CheckSkill(skill: Skill) returns (findings: seq<Finding>)
      requires Valid()
      ensures forall r :: Reports(findings, r) <==> r == SkillsRule && !SkillSatisfies(g, skill)
    {
      findings := [];
      var names := {};
      for i := 0 to |skill.capabilities|
        invariant forall r :: Reports(findings, r) <==>
          r == SkillsRule && exists k :: 0 <= k < i && !CapabilityCovered(g, skill.capabilities[k])
        invariant forall n :: n in names <==>
          exists k :: 0 <= k < i && CapabilityCovered(g, skill.capabilities[k])
            && n == g.lex.Normalize(g.view.capabilities[skill.capabilities[k]])
      {
        var id := skill.capabilities[i];
        if id !in g.view.capabilities || !HasFacts(g.ctx.selections, id) {
          ReportsJoin(findings, [Finding(SkillsRule, skill.name)]);
          ReportsOne(Finding(SkillsRule, skill.name));
          findings := findings + [Finding(SkillsRule, skill.name)];
          continue;
        }
        names := names + {g.lex.Normalize(g.view.capabilities[id])};
      }
      NamesMeanSkill(skill, names);
      if names != {} && g.lex.Normalize(skill.name) !in names {
        ReportsJoin(findings, [Finding(SkillsRule, skill.name)]);
        ReportsOne(Finding(SkillsRule, skill.name));
        findings := findings + [Finding(SkillsRule, skill.name)];
      }
    }

    lemma NamesMeanSkill(skill: Skill, names: set<string>)
      requires forall n :: n in names <==>
          exists k :: 0 <= k < |skill.capabilities| && CapabilityCovered(g, skill.capabilities[k])
            && n == g.lex.Normalize(g.view.capabilities[skill.capabilities[k]])
      ensures SkillSatisfies(g, skill) <==>
        && (forall k :: 0 <= k < |skill.capabilities| ==> CapabilityCovered(g, skill.capabilities[k]))
        && (names == {} || g.lex.Normalize(skill.name) in names)
    {
      if id :| id in skill.capabilities && CapabilityCovered(g, id) {
        var k :| 0 <= k < |skill.capabilities| && skill.capabilities[k] == id;
        assert g.lex.Normalize(g.view.capabilities[id]) in names;
      }
    }

    method CheckSkills(cv: Cv) returns (findings: seq<Finding>)
      requires Valid()
      ensures forall r :: Reports(findings, r) <==> r == SkillsRule && !SkillsSatisfy(g, cv.skills)
    {
      findings := [];
      for i := 0 to |cv.skills|
        invariant forall r :: Reports(findings, r) <==>
          r == SkillsRule && exists k :: 0 <= k < i && !SkillSatisfies(g, cv.skills[k])
      {
        var more := CheckSkill(cv.skills[i]);
        ReportsJoin(findings, more);
        findings := findings + more;
      }
    }

    /** The facts a bullet cites: findings for those that do not attach, statements of those that do. */
    method CheckSources(element: string, entry: Entry, ids: seq<string>)
      returns (findings: seq<Finding>, sources: seq<string>)
      ensures sources == Sources(g, entry, ids)
      ensures forall r :: Reports(findings, r) <==>
        r == Traceability && !(ids != [] && forall id :: id in ids ==> Attached(g, entry, id))
    {
      findings, sources := [], [];
      if ids == [] {
        findings := [Finding(Traceability, element)];
        ReportsOne(findings[0]);
      }
      for i := 0 to |ids|
        invariant sources == Sources(g, entry, ids[..i])
        invariant forall r :: Reports(findings, r) <==>
          r == Traceability && (ids == [] || exists k :: 0 <= k < i && !Attached(g, entry, ids[k]))
      {
        assert ids[..i + 1][..i] == ids[..i];
        if ids[i] !in g.view.facts || g.view.facts[ids[i]].experience != Some(entry.experience) {
          ReportsJoin(findings, [Finding(Traceability, element)]);
          ReportsOne(Finding(Traceability, element));
          findings := findings + [Finding(Traceability, element)];
          continue;
        }
        sources := sources + [g.view.facts[ids[i]].statement];
      }
      assert ids[..|ids|] == ids;
    }

    /** The text of a bullet against its sources. */
    method CheckText(element: string, entry: Entry, text: string, source: string) returns (findings: seq<Finding>)
      requires Valid() && entry.experience in g.view.experiences
      ensures forall r :: Reports(findings, r) <==>
        || (r == NumbersDates && !NumbersGrounded(g, text, source))
        || (r == Entities && !EntitiesGrounded(g, text))
        || (r == ContentWords && !(g.lex.contentLemmas(text) <= AllowedContent(g, entry, source)))
        || (r == ScopeInflation && !ScopeGrounded(g, text, source))
    {
      findings := CheckNumbers(element, text, g.lex.numerals(source));
      var entities := CheckEntities(element, text);
      ReportsJoin(findings, entities);
      findings := findings + entities;
      var allowed := AllowedContent(g, entry, source);
      NothingMissing(g.lex.contentLemmas(text), allowed);
      if g.lex.contentLemmas(text) - allowed != {} {
        ReportsJoin(findings, [Finding(ContentWords, element)]);
        ReportsOne(Finding(ContentWords, element));
        findings := findings + [Finding(ContentWords, element)];
      }
      var scope := CheckScope(element, text, source);
      ReportsJoin(findings, scope);
      findings := findings + scope;
    }

    method CheckBullet(element: string, entry: Entry, b: Bullet) returns (findings: seq<Finding>)
      requires Valid() && entry.experience in g.view.experiences
      ensures forall r :: Reports(findings, r) <==> !BulletSatisfies(g, entry, b, r)
    {
      var sources;
      findings, sources := CheckSources(element, entry, b.facts);
      if sources == [] {
        return;
      }
      var text := CheckText(element, entry, b.text, JoinLines(sources));
      ReportsJoin(findings, text);
      findings := findings + text;
    }

    method CheckRow(element: string, s: Section, entry: Entry, row: Experience) returns (findings: seq<Finding>)
      ensures forall r :: Reports(findings, r) <==> !RowSatisfies(g, s, entry, row, r)
    {
      findings := [];
      var fields := [(entry.title, row.title), (entry.org, row.org), (entry.start, row.start), (entry.end, row.end)];
      for i := 0 to |fields|
        invariant forall r :: Reports(findings, r) <==>
          r == Skeleton && exists k :: 0 <= k < i && !g.lex.Same(fields[k].0, fields[k].1)
      {
        var more := CheckField(element, fields[i].0, fields[i].1, Skeleton);
        ReportsJoin(findings, more);
        findings := findings + more;
      }
      assert fields[0].0 == entry.title && fields[1].0 == entry.org;
      assert fields[2].0 == entry.start && fields[3].0 == entry.end;
      if entry.location.Some? {
        ReportsJoin(findings, [Finding(Skeleton, element)]);
        ReportsOne(Finding(Skeleton, element));
        findings := findings + [Finding(Skeleton, element)];
      }
      if SectionOf(row.kind) != s {
        ReportsJoin(findings, [Finding(SectionKind, element)]);
        ReportsOne(Finding(SectionKind, element));
        findings := findings + [Finding(SectionKind, element)];
      }
      if s == Experiences && entry.bullets == [] {
        ReportsJoin(findings, [Finding(ExperienceGate, element)]);
        ReportsOne(Finding(ExperienceGate, element));
        findings := findings + [Finding(ExperienceGate, element)];
      }
    }

    method CheckEntry(s: Section, entry: Entry) returns (findings: seq<Finding>)
      requires Valid()
      ensures forall r :: Reports(findings, r) <==> !EntrySatisfies(g, s, entry, r)
    {
      if entry.experience !in g.view.experiences {
        findings := [Finding(Traceability, entry.experience)];
        ReportsOne(findings[0]);
        return;
      }
      findings := CheckRow(entry.experience, s, entry, g.view.experiences[entry.experience]);
      ghost var row := findings;
      for i := 0 to |entry.bullets|
        invariant forall r :: Reports(findings, r) <==>
          Reports(row, r) || exists k :: 0 <= k < i && !BulletSatisfies(g, entry, entry.bullets[k], r)
      {
        var more := CheckBullet(entry.experience, entry, entry.bullets[i]);
        ReportsJoin(findings, more);
        findings := findings + more;
      }
    }

    method CheckEntries(s: Section, entries: seq<Entry>) returns (findings: seq<Finding>)
      requires Valid()
      ensures forall r :: Reports(findings, r) <==> !EntriesSatisfy(g, s, entries, r)
    {
      findings := [];
      for i := 0 to |entries|
        invariant forall r :: Reports(findings, r) <==> exists k :: 0 <= k < i && !EntrySatisfies(g, s, entries[k], r)
      {
        var more := CheckEntry(s, entries[i]);
        ReportsJoin(findings, more);
        findings := findings + more;
      }
    }

    /** No row of the profile has two entries. */
    method CheckOnce(entries: seq<Entry>) returns (findings: seq<Finding>)
      ensures forall r :: Reports(findings, r) <==> r == Coverage && !RenderOnce(entries)
    {
      findings := [];
      var rendered := {};
      for i := 0 to |entries|
        invariant rendered == set k | 0 <= k < i :: entries[k].experience
        invariant forall r :: Reports(findings, r) <==> r == Coverage && !RenderOnce(entries[..i])
      {
        ghost var before := entries[..i];
        assert entries[..i + 1] == before + [entries[i]];
        assert entries[i].experience in rendered <==>
          exists k :: 0 <= k < i && before[k].experience == entries[i].experience;
        assert RenderOnce(entries[..i + 1]) <==> RenderOnce(before) && entries[i].experience !in rendered;
        if entries[i].experience in rendered {
          ReportsJoin(findings, [Finding(Coverage, entries[i].experience)]);
          ReportsOne(Finding(Coverage, entries[i].experience));
          findings := findings + [Finding(Coverage, entries[i].experience)];
        }
        rendered := rendered + {entries[i].experience};
      }
      assert entries[..|entries|] == entries;
    }

    /** No row that must be shown is left out. */
    method CheckRowsRendered(cv: Cv) returns (findings: seq<Finding>)
      ensures forall r :: Reports(findings, r) <==>
        r == Coverage && !(forall id :: id in g.view.experiences ==> RowRendered(g, cv, id))
    {
      findings := [];
      var todo := g.view.experiences.Keys;
      while todo != {}
        invariant todo <= g.view.experiences.Keys
        invariant forall r :: Reports(findings, r) <==>
          r == Coverage && exists id :: id in g.view.experiences && id !in todo && !RowRendered(g, cv, id)
      {
        var id :| id in todo;
        todo := todo - {id};
        if !RowRendered(g, cv, id) {
          ReportsJoin(findings, [Finding(Coverage, id)]);
          ReportsOne(Finding(Coverage, id));
          findings := findings + [Finding(Coverage, id)];
        }
      }
    }

    method CheckCompleteness(cv: Cv) returns (findings: seq<Finding>)
      ensures forall r :: Reports(findings, r) <==> r == Coverage && !CompletenessSatisfies(g, cv)
    {
      findings := CheckOnce(cv.AllEntries());
      var rows := CheckRowsRendered(cv);
      ReportsJoin(findings, rows);
      findings := findings + rows;
      if HasBackedFact(g) {
        var entries := cv.AllEntries();
        var rendersFact := exists k :: 0 <= k < |entries| && RendersFact(g, entries[k]);
        if !rendersFact {
          ReportsJoin(findings, [Finding(Coverage, "entries")]);
          ReportsOne(Finding(Coverage, "entries"));
          findings := findings + [Finding(Coverage, "entries")];
        }
      }
    }

    method CheckExperienceOrder(cv: Cv) returns (findings: seq<Finding>)
      ensures forall r :: Reports(findings, r) <==> r == Ordering && !OrderSatisfies(g, cv)
    {
      findings := [];
      var keys := CanonicalKeys(g, cv.experiences);
      SortFixpoint(keys, (k: Key) => k);
      if keys != SortDescending(keys, (k: Key) => k) {
        findings := [Finding(Ordering, "experiences")];
        ReportsOne(findings[0]);
      }
    }

    /** The loops decide the declarative conditions, rule by rule. */
    method Verify(cv: Cv) returns (findings: seq<Finding>)
      requires Valid()
      ensures forall r :: Reports(findings, r) <==> !Satisfies(g, cv, r)
      ensures findings == [] <==> Grounded(g, cv)
    {
      findings := CheckMeta(cv);
      var header := CheckHeader(cv);
      ReportsJoin(findings, header);
      findings := findings + header;
      var headline := CheckHeadline(cv);
      ReportsJoin(findings, headline);
      findings := findings + headline;
      var summary := CheckSummary(cv);
      ReportsJoin(findings, summary);
      findings := findings + summary;
      var skills := CheckSkills(cv);
      ReportsJoin(findings, skills);
      findings := findings + skills;
      var experiences := CheckEntries(Experiences, cv.experiences);
      ReportsJoin(findings, experiences);
      findings := findings + experiences;
      var projects := CheckEntries(Projects, cv.projects);
      ReportsJoin(findings, projects);
      findings := findings + projects;
      var education := CheckEntries(Education, cv.education);
      ReportsJoin(findings, education);
      findings := findings + education;
      var completeness := CheckCompleteness(cv);
      ReportsJoin(findings, completeness);
      findings := findings + completeness;
      var order := CheckExperienceOrder(cv);
      ReportsJoin(findings, order);
      findings := findings + order;
      if findings != [] {
        assert Reports(findings, findings[0].rule);
      }
    }
  }
}
