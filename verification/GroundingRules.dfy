/** The rules of the grounding verifier on the context's own rows: what an accepted model shows, kind by kind and
    fact by fact, with no table shared between the verifier and the builder of the fallback
    (packages/domain/grounding.py:26-52, 119-407; packages/domain/generation.py:32-34, 74-112). */
module GroundingRules {
  import opened Basics
  import opened CvModel
  import opened Grounding
  import opened Generation
  import Dates

  // ----- the context's rows -----

  predicate IsRow(g: Ground, id: string, row: Experience) {
    row in g.ctx.experiences && row.id == id
  }

  predicate IsFact(g: Ground, id: string, f: Fact) {
    f.id == id && exists s :: s in g.ctx.selections && f in s.facts
  }

  /** Ids are primary keys. */
  ghost predicate Keyed(g: Ground) {
    && IsGround(g) && OneName(g.ctx.selections)
    && (forall d, e :: d in g.ctx.experiences && e in g.ctx.experiences && d.id == e.id ==> d == e)
    && (forall id, f, h :: IsFact(g, id, f) && IsFact(g, id, h) ==> f == h)
  }

  lemma {:induction false} AllFactsAre(selections: seq<Selection>, f: Fact)
    ensures f in AllFacts(selections) <==> exists s :: s in selections && f in s.facts
  {
    if selections != [] {
      var n := |selections| - 1;
      AllFactsAre(selections[..n], f);
      assert selections == selections[..n] + [selections[n]];
    }
  }

  lemma FactsAre(g: Ground, id: string)
    requires Keyed(g)
    ensures id in g.view.facts ==> IsFact(g, id, g.view.facts[id])
    ensures forall f :: IsFact(g, id, f) ==> id in g.view.facts && g.view.facts[id] == f
  {
    FactsHaveTheirIds(AllFacts(g.ctx.selections));
    if id in g.view.facts {
      AllFactsAre(g.ctx.selections, g.view.facts[id]);
    }
    forall f | IsFact(g, id, f) ensures id in g.view.facts && g.view.facts[id] == f {
      AllFactsAre(g.ctx.selections, f);
      AllFactsAre(g.ctx.selections, g.view.facts[id]);
      assert IsFact(g, id, g.view.facts[id]);
    }
  }

  lemma RowsAre(g: Ground, id: string)
    requires Keyed(g)
    ensures id in g.view.experiences ==> IsRow(g, id, g.view.experiences[id])
    ensures forall row :: IsRow(g, id, row) ==> id in g.view.experiences && g.view.experiences[id] == row
  {
    RowsHaveTheirIds(g.ctx.experiences);
  }

  /** The fact with this id hangs off the row of the entry. */
  ghost predicate Cites(g: Ground, e: Entry, id: string) {
    exists f :: IsFact(g, id, f) && f.experience == Some(e.experience)
  }

  lemma CitesIs(g: Ground, e: Entry, id: string)
    requires Keyed(g)
    ensures Cites(g, e, id) <==> Attached(g, e, id)
  {
    FactsAre(g, id);
  }

  // ----- sections and kinds -----

  /** Employment shows roles, ventures and the like, projects show projects, education shows education. */
  ghost predicate KindsFit(g: Ground, cv: Cv) {
    && (forall e, row :: e in cv.experiences && IsRow(g, e.experience, row) ==>
          row.kind == Role || row.kind == Venture || row.kind == OtherKind)
    && (forall e, row :: e in cv.projects && IsRow(g, e.experience, row) ==> row.kind == Project)
    && (forall e, row :: e in cv.education && IsRow(g, e.experience, row) ==> row.kind == EducationKind)
  }

  lemma KindsMean(g: Ground, cv: Cv)
    requires Keyed(g)
    ensures Satisfies(g, cv, SectionKind) <==> KindsFit(g, cv)
  {
    SectionOf3(g, Experiences, cv.experiences);
    SectionOf3(g, Projects, cv.projects);
    SectionOf3(g, Education, cv.education);
    KindByKind();
    if KindsFit(g, cv) {
      assert SectionFits(g, Experiences, cv.experiences);
      assert SectionFits(g, Projects, cv.projects);
      assert SectionFits(g, Education, cv.education);
    }
  }

  lemma KindByKind()
    ensures forall k: Kind :: SectionOf(k) == Experiences <==> k == Role || k == Venture || k == OtherKind
    ensures forall k: Kind :: SectionOf(k) == Projects <==> k == Project
    ensures forall k: Kind :: SectionOf(k) == Education <==> k == EducationKind
  {
  }

  ghost predicate SectionFits(g: Ground, s: Section, entries: seq<Entry>) {
    forall e, row :: e in entries && IsRow(g, e.experience, row) ==> SectionOf(row.kind) == s
  }

  lemma SectionOf3(g: Ground, s: Section, entries: seq<Entry>)
    requires Keyed(g)
    ensures EntriesSatisfy(g, s, entries, SectionKind) <==> SectionFits(g, s, entries)
  {
    forall k | 0 <= k < |entries|
      ensures EntrySatisfies(g, s, entries[k], SectionKind) <==>
        forall row :: IsRow(g, entries[k].experience, row) ==> SectionOf(row.kind) == s
    {
      RowsAre(g, entries[k].experience);
    }
    if EntriesSatisfy(g, s, entries, SectionKind) {
      forall e, row | e in entries && IsRow(g, e.experience, row) ensures SectionOf(row.kind) == s {
        var k :| 0 <= k < |entries| && entries[k] == e;
        assert EntrySatisfies(g, s, entries[k], SectionKind);
      }
    }
  }

  // ----- the frame of an entry -----

  /** Title, organization and dates are the row's own, and nothing else is said about the place. */
  ghost predicate FramesFit(g: Ground, cv: Cv) {
    forall e, row :: e in cv.AllEntries() && IsRow(g, e.experience, row) ==> FrameFits(g, e, row)
  }

  predicate FrameFits(g: Ground, e: Entry, row: Experience) {
    && g.lex.normalizeChars(e.title) == g.lex.normalizeChars(row.title)
    && g.lex.normalizeChars(e.org) == g.lex.normalizeChars(row.org)
    && g.lex.normalizeChars(e.start) == g.lex.normalizeChars(row.start)
    && g.lex.normalizeChars(e.end) == g.lex.normalizeChars(row.end)
    && e.location == None
  }

  lemma FramesMean(g: Ground, cv: Cv)
    requires Keyed(g)
    ensures Satisfies(g, cv, Skeleton) <==> FramesFit(g, cv)
  {
    FramesOf(g, Experiences, cv.experiences);
    FramesOf(g, Projects, cv.projects);
    FramesOf(g, Education, cv.education);
    assert forall e :: e in cv.AllEntries() <==> e in cv.experiences || e in cv.projects || e in cv.education;
    if FramesFit(g, cv) {
      assert AllFrames(g, cv.experiences) && AllFrames(g, cv.projects) && AllFrames(g, cv.education);
    }
  }

  ghost predicate AllFrames(g: Ground, entries: seq<Entry>) {
    forall e, row :: e in entries && IsRow(g, e.experience, row) ==> FrameFits(g, e, row)
  }

  lemma FramesOf(g: Ground, s: Section, entries: seq<Entry>)
    requires Keyed(g)
    ensures EntriesSatisfy(g, s, entries, Skeleton) <==> AllFrames(g, entries)
  {
    forall k | 0 <= k < |entries|
      ensures EntrySatisfies(g, s, entries[k], Skeleton) <==>
        forall row :: IsRow(g, entries[k].experience, row) ==> FrameFits(g, entries[k], row)
    {
      RowsAre(g, entries[k].experience);
    }
    if EntriesSatisfy(g, s, entries, Skeleton) {
      forall e, row | e in entries && IsRow(g, e.experience, row) ensures FrameFits(g, e, row) {
        var k :| 0 <= k < |entries| && entries[k] == e;
        assert EntrySatisfies(g, s, entries[k], Skeleton);
      }
    }
  }

  // ----- what is traced -----

  /** Every entry is a row of the context, and every bullet cites facts of that row, at least one. */
  ghost predicate EntryTraced(g: Ground, e: Entry) {
    && (exists row :: IsRow(g, e.experience, row))
    && forall b :: b in e.bullets ==> b.facts != [] && forall id :: id in b.facts ==> Cites(g, e, id)
  }

  lemma EntryTracedMeans(g: Ground, s: Section, e: Entry)
    requires Keyed(g)
    ensures EntrySatisfies(g, s, e, Traceability) <==> EntryTraced(g, e)
  {
    RowsAre(g, e.experience);
    forall id ensures Cites(g, e, id) <==> Attached(g, e, id) {
      CitesIs(g, e, id);
    }
    if e.experience in g.view.experiences {
      forall k | 0 <= k < |e.bullets|
        ensures BulletSatisfies(g, e, e.bullets[k], Traceability) <==>
          e.bullets[k].facts != [] && forall id :: id in e.bullets[k].facts ==> Cites(g, e, id)
      {
      }
      assert forall b :: b in e.bullets <==> exists k :: 0 <= k < |e.bullets| && e.bullets[k] == b;
    }
  }

  ghost predicate Traced(g: Ground, cv: Cv) {
    && cv.meta.family == g.ctx.family && cv.meta.strategyVersion == g.ctx.strategyVersion
    && forall e :: e in cv.AllEntries() ==> EntryTraced(g, e)
  }

  lemma TracedMeans(g: Ground, cv: Cv)
    requires Keyed(g)
    ensures Satisfies(g, cv, Traceability) <==> Traced(g, cv)
  {
    AllTraced(g, Experiences, cv.experiences);
    AllTraced(g, Projects, cv.projects);
    AllTraced(g, Education, cv.education);
    assert forall e :: e in cv.AllEntries() <==> e in cv.experiences || e in cv.projects || e in cv.education;
  }

  lemma AllTraced(g: Ground, s: Section, entries: seq<Entry>)
    requires Keyed(g)
    ensures EntriesSatisfy(g, s, entries, Traceability) <==> forall e :: e in entries ==> EntryTraced(g, e)
  {
    forall e ensures EntrySatisfies(g, s, e, Traceability) <==> EntryTraced(g, e) {
      EntryTracedMeans(g, s, e);
    }
  }

  // ----- coverage -----

  ghost predicate Shows(entries: seq<Entry>, id: string) {
    exists e :: e in entries && e.experience == id
  }

  /** Each row at most once, every project among the projects, every education row under education, and some
      fact shown whenever the context has one that hangs off an experience. */
  ghost predicate Covers(g: Ground, cv: Cv) {
    && (forall i, j :: 0 <= i < j < |cv.AllEntries()| ==>
          cv.AllEntries()[i].experience != cv.AllEntries()[j].experience)
    && (forall row :: row in g.ctx.experiences && row.kind == Project ==> Shows(cv.projects, row.id))
    && (forall row :: row in g.ctx.experiences && row.kind == EducationKind ==> Shows(cv.education, row.id))
    && ((exists id, f :: IsFact(g, id, f) && HangsOffSome(f)) ==> ShowsSomeFact(g, cv))
  }

  predicate HangsOffSome(f: Fact) {
    f.experience != None && f.experience != Some("")
  }

  ghost predicate ShowsSomeFact(g: Ground, cv: Cv) {
    exists e, b, id :: e in cv.AllEntries() && b in e.bullets && id in b.facts && Cites(g, e, id)
  }

  lemma CoversMeans(g: Ground, cv: Cv)
    requires Keyed(g)
    ensures Satisfies(g, cv, Coverage) <==> Covers(g, cv)
  {
    KindByKind();
    RowsCovered(g, cv);
    SomeFactShown(g, cv);
    BackedMeans(g);
    assert Satisfies(g, cv, Coverage) <==> CompletenessSatisfies(g, cv);
  }

  lemma ShowsIs(entries: seq<Entry>, id: string)
    ensures Shows(entries, id) <==> Renders(entries, id)
  {
    if Renders(entries, id) {
      var k :| 0 <= k < |entries| && entries[k].experience == id;
      assert entries[k] in entries;
    }
  }

  /** The row is shown, if its kind must be. */
  ghost predicate RowShown(cv: Cv, row: Experience) {
    (row.kind == Project ==> Shows(cv.projects, row.id)) && (row.kind == EducationKind ==> Shows(cv.education, row.id))
  }

  lemma RowShownIs(g: Ground, cv: Cv, row: Experience)
    requires Keyed(g) && row in g.ctx.experiences
    ensures row.id in g.view.experiences && g.view.experiences[row.id] == row
    ensures RowRendered(g, cv, row.id) <==> RowShown(cv, row)
  {
    KindByKind();
    RowsAre(g, row.id);
    assert IsRow(g, row.id, row);
    ShowsIs(cv.projects, row.id);
    ShowsIs(cv.education, row.id);
  }

  lemma RowsCovered(g: Ground, cv: Cv)
    requires Keyed(g)
    ensures (forall id :: id in g.view.experiences ==> RowRendered(g, cv, id)) <==>
      forall row :: row in g.ctx.experiences ==> RowShown(cv, row)
  {
    if forall id :: id in g.view.experiences ==> RowRendered(g, cv, id) {
      forall row | row in g.ctx.experiences ensures RowShown(cv, row) {
        RowShownIs(g, cv, row);
      }
    }
    if forall row :: row in g.ctx.experiences ==> RowShown(cv, row) {
      forall id | id in g.view.experiences ensures RowRendered(g, cv, id) {
        RowsAre(g, id);
        RowShownIs(g, cv, g.view.experiences[id]);
      }
    }
  }

  lemma BackedMeans(g: Ground)
    requires Keyed(g)
    ensures HasBackedFact(g) <==> exists id, f :: IsFact(g, id, f) && HangsOffSome(f)
  {
    if HasBackedFact(g) {
      var id :| id in g.view.facts && Backed(g.view.facts[id]);
      FactsAre(g, id);
    }
    if id, f :| IsFact(g, id, f) && HangsOffSome(f) {
      FactsAre(g, id);
      assert Backed(g.view.facts[id]);
    }
  }

  lemma SomeFactShown(g: Ground, cv: Cv)
    requires Keyed(g)
    ensures (exists k :: 0 <= k < |cv.AllEntries()| && RendersFact(g, cv.AllEntries()[k])) <==> ShowsSomeFact(g, cv)
  {
    var entries := cv.AllEntries();
    if k :| 0 <= k < |entries| && RendersFact(g, entries[k]) {
      var j, id :| 0 <= j < |entries[k].bullets| && id in entries[k].bullets[j].facts && Attached(g, entries[k], id);
      CitesIs(g, entries[k], id);
      assert entries[k] in entries && entries[k].bullets[j] in entries[k].bullets;
    }
    if e, b, id :| e in entries && b in e.bullets && id in b.facts && Cites(g, e, id) {
      CitesIs(g, e, id);
      var k :| 0 <= k < |entries| && entries[k] == e;
      var j :| 0 <= j < |e.bullets| && e.bullets[j] == b;
      assert RendersFact(g, entries[k]);
    }
  }

  // ----- header, headline, skills, order -----

  function Profile(g: Ground, key: string): string {
    if key in g.ctx.profile then g.ctx.profile[key] else ""
  }

  /** The links shown are those of the profile, each of the four that is set. */
  ghost predicate LinksFit(g: Ground, links: seq<string>) {
    && (forall l :: l in links ==> exists key :: IsLinkKey(key) && LinkOf(g, key, l))
    && (forall key :: IsLinkKey(key) && Profile(g, key) != "" ==> exists l :: l in links && LinkOf(g, key, l))
  }

  predicate IsLinkKey(key: string) {
    key == "linkedin_url" || key == "github_url" || key == "portfolio_url" || key == "website_url"
  }

  predicate LinkOf(g: Ground, key: string, link: string) {
    Profile(g, key) != "" && g.lex.normalizeChars(link) == g.lex.normalizeChars(Profile(g, key))
  }

  predicate FieldsFit(g: Ground, h: Header) {
    && g.lex.normalizeChars(h.name) == g.lex.normalizeChars(Profile(g, "full_name"))
    && g.lex.normalizeChars(h.email) == g.lex.normalizeChars(Profile(g, "email"))
    && g.lex.normalizeChars(h.phone) == g.lex.normalizeChars(Profile(g, "phone"))
    && g.lex.normalizeChars(h.location) == g.lex.normalizeChars(Profile(g, "location"))
  }

  lemma LinkKeysAre(key: string)
    ensures IsLinkKey(key) <==> exists k :: 0 <= k < |LINK_FIELDS| && LINK_FIELDS[k] == key
  {
    assert LINK_FIELDS[0] == "linkedin_url" && LINK_FIELDS[1] == "github_url";
    assert LINK_FIELDS[2] == "portfolio_url" && LINK_FIELDS[3] == "website_url";
  }

  lemma LinkValueIs(g: Ground, v: string)
    requires IsGround(g)
    ensures v in LinkValues(g) <==>
      exists key :: IsLinkKey(key) && Profile(g, key) != "" && g.lex.normalizeChars(Profile(g, key)) == v
  {
    if v in LinkValues(g) {
      var k :| 0 <= k < |LINK_FIELDS| && Lookup(g.view.profile, LINK_FIELDS[k]) != ""
        && g.lex.normalizeChars(Lookup(g.view.profile, LINK_FIELDS[k])) == v;
      LinkKeysAre(LINK_FIELDS[k]);
    }
    if key :| IsLinkKey(key) && Profile(g, key) != "" && g.lex.normalizeChars(Profile(g, key)) == v {
      LinkKeysAre(key);
      var k :| 0 <= k < |LINK_FIELDS| && LINK_FIELDS[k] == key;
      assert Lookup(g.view.profile, LINK_FIELDS[k]) != "";
    }
  }

  lemma ShownIs(g: Ground, links: seq<string>, v: string)
    ensures v in RenderedLinks(g, links) <==> exists l :: l in links && g.lex.normalizeChars(l) == v
  {
    if v in RenderedLinks(g, links) {
      var k :| 0 <= k < |links| && g.lex.normalizeChars(links[k]) == v;
      assert links[k] in links;
    }
    if l :| l in links && g.lex.normalizeChars(l) == v {
      var k :| 0 <= k < |links| && links[k] == l;
    }
  }

  lemma LinksKnown(g: Ground, links: seq<string>, values: set<string>, shown: set<string>)
    requires IsGround(g) && values == LinkValues(g) && shown == RenderedLinks(g, links)
    ensures shown <= values <==> forall l :: l in links ==> exists key :: IsLinkKey(key) && LinkOf(g, key, l)
  {
    forall l | l in links
      ensures g.lex.normalizeChars(l) in shown
      ensures g.lex.normalizeChars(l) in values <==> exists key :: IsLinkKey(key) && LinkOf(g, key, l)
    {
      ShownIs(g, links, g.lex.normalizeChars(l));
      LinkValueIs(g, g.lex.normalizeChars(l));
    }
    forall v | v in shown ensures exists l :: l in links && g.lex.normalizeChars(l) == v {
      ShownIs(g, links, v);
    }
  }

  lemma LinksShown(g: Ground, links: seq<string>, values: set<string>, shown: set<string>)
    requires IsGround(g) && values == LinkValues(g) && shown == RenderedLinks(g, links)
    ensures values <= shown <==>
      forall key :: IsLinkKey(key) && Profile(g, key) != "" ==> exists l :: l in links && LinkOf(g, key, l)
  {
    forall key | IsLinkKey(key) && Profile(g, key) != ""
      ensures g.lex.normalizeChars(Profile(g, key)) in values
      ensures g.lex.normalizeChars(Profile(g, key)) in shown <==> exists l :: l in links && LinkOf(g, key, l)
    {
      LinkValueIs(g, g.lex.normalizeChars(Profile(g, key)));
      ShownIs(g, links, g.lex.normalizeChars(Profile(g, key)));
    }
    forall v | v in values
      ensures exists key :: IsLinkKey(key) && Profile(g, key) != "" && g.lex.normalizeChars(Profile(g, key)) == v
    {
      LinkValueIs(g, v);
    }
  }

  lemma LinksMean(g: Ground, links: seq<string>)
    requires IsGround(g)
    ensures RenderedLinks(g, links) == LinkValues(g) <==> LinksFit(g, links)
  {
    var values, shown := LinkValues(g), RenderedLinks(g, links);
    LinksKnown(g, links, values, shown);
    LinksShown(g, links, values, shown);
    assert shown == values <==> shown <= values && values <= shown;
  }

  lemma HeaderFits(g: Ground, cv: Cv)
    requires IsGround(g)
    ensures HeaderSatisfies(g, cv) <==> FieldsFit(g, cv.header) && LinksFit(g, cv.header.links)
  {
    LinksMean(g, cv.header.links);
  }

  lemma HeaderMeans(g: Ground, cv: Cv)
    requires Keyed(g)
    ensures Satisfies(g, cv, HeaderRule) <==> FieldsFit(g, cv.header) && LinksFit(g, cv.header.links)
  {
    assert Satisfies(g, cv, HeaderRule) <==> HeaderSatisfies(g, cv) by {
      OnlyOn(g, cv, HeaderRule);
    }
    HeaderFits(g, cv);
  }

  /** The parts of a model that no entry rule speaks of. */
  lemma OnlyOn(g: Ground, cv: Cv, r: Rule)
    requires r in {HeaderRule, HeadlineRule, SkillsRule, Ordering, SectionOrderRule}
    requires Keyed(g)
    ensures EntriesSatisfy(g, Experiences, cv.experiences, r)
    ensures EntriesSatisfy(g, Projects, cv.projects, r) && EntriesSatisfy(g, Education, cv.education, r)
  {
  }

  lemma HeadlineMeans(g: Ground, cv: Cv)
    requires Keyed(g)
    ensures Satisfies(g, cv, HeadlineRule) <==>
      cv.headline == None || g.lex.normalizeChars(cv.headline.value) == g.lex.normalizeChars(g.ctx.familyName)
    ensures Satisfies(g, cv, SectionOrderRule) <==>
      cv.meta.sectionOrder == ["contact", "summary", "skills", "experience", "projects", "education"]
  {
    OnlyOn(g, cv, HeadlineRule);
    OnlyOn(g, cv, SectionOrderRule);
  }

  /** The capability is targeted, and some evidence chain of it ends in a fact. */
  ghost predicate Evidenced(g: Ground, capability: string, s: Selection) {
    s in g.ctx.selections && s.capability == capability && |s.facts| > 0
  }

  /** Only evidenced capabilities are claimed, under the name of one of them. */
  ghost predicate SkillFits(g: Ground, skill: Skill) {
    && (forall c :: c in skill.capabilities ==> exists s :: Evidenced(g, c, s))
    && (skill.capabilities != [] ==>
          exists c, s :: c in skill.capabilities && Evidenced(g, c, s) && NamedAs(g, skill.name, s.name))
  }

  predicate NamedAs(g: Ground, shown: string, name: string) {
    g.lex.casefold(g.lex.normalizeChars(shown)) == g.lex.casefold(g.lex.normalizeChars(name))
  }

  lemma CapabilityIs(g: Ground, c: string)
    requires Keyed(g)
    ensures CapabilityCovered(g, c) <==> exists s :: Evidenced(g, c, s)
    ensures forall s :: Evidenced(g, c, s) ==> c in g.view.capabilities && g.view.capabilities[c] == s.name
  {
    var covered := Covered(g.ctx.selections);
    CoveredAre(g.ctx.selections);
    NamesAre(covered);
    if HasFacts(g.ctx.selections, c) {
      var s :| s in g.ctx.selections && s.capability == c && s.facts != [];
      assert Evidenced(g, c, s);
    }
    forall s | Evidenced(g, c, s) ensures c in g.view.capabilities && g.view.capabilities[c] == s.name {
      assert s in covered;
      var t :| t in covered && t.capability == c && t.name == NamesById(covered)[c];
      assert t in g.ctx.selections;
    }
  }

  lemma SkillMeans(g: Ground, skill: Skill)
    requires Keyed(g)
    ensures SkillSatisfies(g, skill) <==> SkillFits(g, skill)
  {
    forall c ensures CapabilityCovered(g, c) <==> exists s :: Evidenced(g, c, s) {
      CapabilityIs(g, c);
    }
    if SkillSatisfies(g, skill) && skill.capabilities != [] {
      assert skill.capabilities[0] in skill.capabilities;
      var c :| c in skill.capabilities && CapabilityCovered(g, c)
        && g.lex.Normalize(skill.name) == g.lex.Normalize(g.view.capabilities[c]);
      CapabilityIs(g, c);
      var s :| Evidenced(g, c, s);
      assert NamedAs(g, skill.name, s.name);
    }
    if SkillFits(g, skill) && skill.capabilities != [] {
      var c, s :| c in skill.capabilities && Evidenced(g, c, s) && NamedAs(g, skill.name, s.name);
      CapabilityIs(g, c);
    }
  }

  lemma SkillsMean(g: Ground, cv: Cv)
    requires Keyed(g)
    ensures Satisfies(g, cv, SkillsRule) <==> forall k :: k in cv.skills ==> SkillFits(g, k)
  {
    OnlyOn(g, cv, SkillsRule);
    forall k ensures SkillSatisfies(g, k) <==> SkillFits(g, k) {
      SkillMeans(g, k);
    }
  }

  /** The one that ended last comes first; of two that ended alike, the one that started last. */
  predicate NoLater(a: Experience, b: Experience) {
    var x, y := Dates.EndRank(a.end), Dates.EndRank(b.end);
    var u, v := Dates.StartRank(a.start), Dates.StartRank(b.start);
    || x.0 < y.0 || (x.0 == y.0 && x.1 < y.1)
    || (x == y && (u.0 < v.0 || (u.0 == v.0 && u.1 <= v.1)))
  }

  ghost predicate InOrder(g: Ground, entries: seq<Entry>) {
    forall i, j :: 0 <= i < j < |entries| ==> OrderedPair(g, entries[i], entries[j])
  }

  ghost predicate OrderedPair(g: Ground, e: Entry, f: Entry) {
    forall a, b :: IsRow(g, e.experience, a) && IsRow(g, f.experience, b) ==> NoLater(b, a)
  }

  /** Two entries with known rows, in terms of their keys. */
  predicate Paired(known: Entry -> bool, key: Entry -> Key, e: Entry, f: Entry) {
    known(e) && known(f) ==> KeyLeq(key(f), key(e))
  }

  predicate AllPaired(known: Entry -> bool, key: Entry -> Key, entries: seq<Entry>) {
    forall i, j :: 0 <= i < j < |entries| ==> Paired(known, key, entries[i], entries[j])
  }

  lemma PairIs(g: Ground, e: Entry, f: Entry)
    requires Keyed(g)
    ensures OrderedPair(g, e, f) <==> Paired(Known(g), (x: Entry) => KeyOf(g, x), e, f)
  {
    RowsAre(g, e.experience);
    RowsAre(g, f.experience);
    if e.experience in g.view.experiences && f.experience in g.view.experiences {
      KeyIs(g.view.experiences[f.experience], g.view.experiences[e.experience]);
    }
  }

  function Known(g: Ground): Entry -> bool {
    (e: Entry) => e.experience in g.view.experiences
  }

  function KeyOf(g: Ground, e: Entry): Key {
    if e.experience in g.view.experiences
    then ChronRank(g.view.experiences[e.experience].start, g.view.experiences[e.experience].end) else ((0, 0), (0, 0))
  }

  lemma KeyIs(a: Experience, b: Experience)
    ensures NoLater(a, b) <==> KeyLeq(ChronRank(a.start, a.end), ChronRank(b.start, b.end))
  {
    RanksCompare(Dates.EndRank(a.end), Dates.EndRank(b.end), Dates.StartRank(a.start), Dates.StartRank(b.start));
  }

  lemma RanksCompare(x: Dates.Rank, y: Dates.Rank, u: Dates.Rank, v: Dates.Rank)
    ensures KeyLeq((x, u), (y, v)) <==>
      || x.0 < y.0 || (x.0 == y.0 && x.1 < y.1) || (x == y && (u.0 < v.0 || (u.0 == v.0 && u.1 <= v.1)))
  {
  }

  predicate Ranked(keys: seq<Key>, key: Key) {
    forall k :: 0 <= k < |keys| ==> KeyLeq(key, keys[k])
  }

  lemma RankedOn(keys: seq<Key>, more: Key, key: Key)
    ensures Ranked(keys + [more], key) <==> Ranked(keys, key) && KeyLeq(key, more)
  {
    if Ranked(keys + [more], key) {
      assert (keys + [more])[|keys|] == more;
      forall k | 0 <= k < |keys| ensures KeyLeq(key, keys[k]) {
        assert (keys + [more])[k] == keys[k];
      }
    }
  }

  lemma DescendingMore(keys: seq<Key>, key: Key)
    ensures Descending(keys + [key], (k: Key) => k) <==> Descending(keys, (k: Key) => k) && Ranked(keys, key)
  {
    var more := keys + [key];
    if Descending(more, (k: Key) => k) {
      forall i, j | 0 <= i < j < |keys| ensures KeyLeq(keys[j], keys[i]) {
        assert more[i] == keys[i] && more[j] == keys[j];
      }
      forall k | 0 <= k < |keys| ensures KeyLeq(key, keys[k]) {
        assert more[k] == keys[k] && more[|keys|] == key;
      }
    }
  }

  predicate AllBefore(known: Entry -> bool, key: Entry -> Key, entries: seq<Entry>, f: Entry) {
    forall i :: 0 <= i < |entries| ==> Paired(known, key, entries[i], f)
  }

  function KeysOf(known: Entry -> bool, key: Entry -> Key, entries: seq<Entry>): seq<Key> {
    if entries == [] then []
    else
      var last := entries[|entries| - 1];
      KeysOf(known, key, entries[..|entries| - 1]) + if known(last) then [key(last)] else []
  }

  lemma {:induction false} KeysBefore(known: Entry -> bool, key: Entry -> Key, entries: seq<Entry>, f: Entry)
    requires known(f)
    ensures Ranked(KeysOf(known, key, entries), key(f)) <==> AllBefore(known, key, entries, f)
  {
    if entries != [] {
      var n := |entries| - 1;
      KeysBefore(known, key, entries[..n], f);
      assert AllBefore(known, key, entries, f) <==>
        AllBefore(known, key, entries[..n], f) && Paired(known, key, entries[n], f);
      if known(entries[n]) {
        RankedOn(KeysOf(known, key, entries[..n]), key(entries[n]), key(f));
      } else {
        assert KeysOf(known, key, entries) == KeysOf(known, key, entries[..n]);
      }
    }
  }

  lemma {:induction false} KeysDescend(known: Entry -> bool, key: Entry -> Key, entries: seq<Entry>)
    ensures Descending(KeysOf(known, key, entries), (k: Key) => k) <==> AllPaired(known, key, entries)
  {
    if entries != [] {
      var n := |entries| - 1;
      KeysDescend(known, key, entries[..n]);
      assert AllPaired(known, key, entries) <==>
        AllPaired(known, key, entries[..n]) && AllBefore(known, key, entries[..n], entries[n]);
      if known(entries[n]) {
        KeysBefore(known, key, entries[..n], entries[n]);
        DescendingMore(KeysOf(known, key, entries[..n]), key(entries[n]));
      } else {
        assert KeysOf(known, key, entries) == KeysOf(known, key, entries[..n]);
      }
    }
  }

  lemma {:induction false} KeysAre(g: Ground, entries: seq<Entry>)
    ensures CanonicalKeys(g, entries) == KeysOf(Known(g), (x: Entry) => KeyOf(g, x), entries)
  {
    if entries != [] {
      KeysAre(g, entries[..|entries| - 1]);
    }
  }

  lemma OrderingMeans(g: Ground, cv: Cv)
    requires Keyed(g)
    ensures Satisfies(g, cv, Ordering) <==> InOrder(g, cv.experiences)
  {
    OnlyOn(g, cv, Ordering);
    KeysAre(g, cv.experiences);
    KeysDescend(Known(g), (x: Entry) => KeyOf(g, x), cv.experiences);
    forall e, f ensures OrderedPair(g, e, f) <==> Paired(Known(g), (x: Entry) => KeyOf(g, x), e, f) {
      PairIs(g, e, f);
    }
  }

  // ----- texts -----

  /** The statements of the facts a bullet cites, in order. */
  ghost predicate Cited(g: Ground, e: Entry, b: Bullet, texts: seq<string>) {
    |texts| == |b.facts| && forall i :: 0 <= i < |texts| ==> Says(g, e, b.facts[i], texts[i])
  }

  ghost predicate Says(g: Ground, e: Entry, id: string, text: string) {
    exists f :: IsFact(g, id, f) && f.experience == Some(e.experience) && f.statement == text
  }

  /** Once all its citations hold, a bullet's sources are those statements. */
  lemma {:induction false} SourcesSay(g: Ground, e: Entry, ids: seq<string>, b: Bullet)
    requires Keyed(g) && ids == b.facts && forall id :: id in ids ==> Cites(g, e, id)
    ensures Cited(g, e, b, Sources(g, e, ids))
    ensures forall texts :: Cited(g, e, b, texts) ==> texts == Sources(g, e, ids)
  {
    SourcesAt(g, e, ids);
    var own := Sources(g, e, ids);
    forall i | 0 <= i < |ids| ensures forall text :: Says(g, e, ids[i], text) <==> text == own[i] {
      FactsAre(g, ids[i]);
      assert Cites(g, e, ids[i]);
    }
  }

  lemma {:induction false} SourcesAt(g: Ground, e: Entry, ids: seq<string>)
    requires Keyed(g) && forall id :: id in ids ==> Cites(g, e, id)
    ensures |Sources(g, e, ids)| == |ids|
    ensures forall i :: 0 <= i < |ids| ==>
      ids[i] in g.view.facts && Sources(g, e, ids)[i] == g.view.facts[ids[i]].statement
  {
    if ids != [] {
      var n := |ids| - 1;
      assert ids[n] in ids && forall id :: id in ids[..n] ==> id in ids;
      SourcesAt(g, e, ids[..n]);
      CitesIs(g, e, ids[n]);
      assert Sources(g, e, ids) == Sources(g, e, ids[..n]) + [g.view.facts[ids[n]].statement];
    }
  }

  ghost predicate Uses(g: Ground, text: string, verbs: set<string>) {
    exists k :: 0 <= k < |g.lex.tokenize(text)| && g.lex.lemmaOf(g.lex.tokenize(text)[k]) in verbs
  }

  lemma UsesIs(g: Ground, text: string, verbs: set<string>)
    ensures Uses(g, text, verbs) <==> g.lex.LemmaSet(text) * verbs != {}
  {
    if g.lex.LemmaSet(text) * verbs != {} {
      var v :| v in g.lex.LemmaSet(text) * verbs;
      var k :| 0 <= k < |g.lex.tokenize(text)| && g.lex.lemmaOf(g.lex.tokenize(text)[k]) == v;
    }
    if Uses(g, text, verbs) {
      var k :| 0 <= k < |g.lex.tokenize(text)| && g.lex.lemmaOf(g.lex.tokenize(text)[k]) in verbs;
      assert g.lex.lemmaOf(g.lex.tokenize(text)[k]) in g.lex.LemmaSet(text) * verbs;
    }
  }

  /** Of each way to claim ownership, some verb is in the source if one is in the text. */
  ghost predicate ClaimsBacked(g: Ground, text: string, source: string) {
    && ClaimBacked(g, text, source, {"lead", "spearhead", "head", "direct", "drive"})
    && ClaimBacked(g, text, source, {"build", "create", "develop", "architect", "engineer", "design", "implement"})
    && ClaimBacked(g, text, source, {"found", "cofound", "co-found", "establish", "start"})
    && ClaimBacked(g, text, source, {"manage", "oversee", "supervise", "coordinate"})
    && ClaimBacked(g, text, source, {"own"})
    && ClaimBacked(g, text, source, {"launch", "ship", "deliver", "release"})
  }

  ghost predicate ClaimBacked(g: Ground, text: string, source: string, verbs: set<string>) {
    Uses(g, text, verbs) ==> Uses(g, source, verbs)
  }

  lemma ClaimIs(g: Ground, text: string, source: string, k: nat)
    requires k < |OWNERSHIP_VERB_CLASSES|
    ensures ClassGrounded(g, text, source, OWNERSHIP_VERB_CLASSES[k]) <==>
      ClaimBacked(g, text, source, OWNERSHIP_VERB_CLASSES[k])
  {
    UsesIs(g, text, OWNERSHIP_VERB_CLASSES[k]);
    UsesIs(g, source, OWNERSHIP_VERB_CLASSES[k]);
  }

  lemma ClaimsMean(g: Ground, text: string, source: string)
    ensures ScopeGrounded(g, text, source) <==> ClaimsBacked(g, text, source)
  {
    forall k | 0 <= k < |OWNERSHIP_VERB_CLASSES|
      ensures ClassGrounded(g, text, source, OWNERSHIP_VERB_CLASSES[k]) <==>
        ClaimBacked(g, text, source, OWNERSHIP_VERB_CLASSES[k])
    {
      ClaimIs(g, text, source, k);
    }
    assert OWNERSHIP_VERB_CLASSES[0] == {"lead", "spearhead", "head", "direct", "drive"};
    assert OWNERSHIP_VERB_CLASSES[1]
        == {"build", "create", "develop", "architect", "engineer", "design", "implement"};
    assert OWNERSHIP_VERB_CLASSES[2] == {"found", "cofound", "co-found", "establish", "start"};
    assert OWNERSHIP_VERB_CLASSES[3] == {"manage", "oversee", "supervise", "coordinate"};
    assert OWNERSHIP_VERB_CLASSES[4] == {"own"};
    assert OWNERSHIP_VERB_CLASSES[5] == {"launch", "ship", "deliver", "release"};
  }

  /** Every name-like token is a token of the text, folded, or shares its lemma with one. */
  ghost predicate NamesFrom(g: Ground, text: string, corpus: string) {
    forall i :: 0 <= i < |g.lex.tokens(text)| && g.lex.entityLike(g.lex.tokens(text)[i]) ==>
      NameFrom(g, g.lex.casefold(g.lex.tokens(text)[i]), corpus)
  }

  ghost predicate NameFrom(g: Ground, folded: string, corpus: string) {
    exists k :: 0 <= k < |g.lex.tokenize(corpus)|
      && (folded == g.lex.casefold(g.lex.tokenize(corpus)[k])
          || g.lex.lemmaOf(folded) == g.lex.lemmaOf(g.lex.tokenize(corpus)[k]))
  }

  lemma NamesMean(g: Ground, text: string)
    ensures EntitiesGrounded(g, text) <==> NamesFrom(g, text, Corpus(g))
  {
    forall i | 0 <= i < |g.lex.tokens(text)|
      ensures EntityAllowed(g, g.lex.tokens(text)[i]) <==>
        (g.lex.entityLike(g.lex.tokens(text)[i]) ==> NameFrom(g, g.lex.casefold(g.lex.tokens(text)[i]), Corpus(g)))
    {
      NameIs(g, g.lex.casefold(g.lex.tokens(text)[i]), Corpus(g));
    }
  }

  lemma NameIs(g: Ground, folded: string, corpus: string)
    ensures NameFrom(g, folded, corpus) <==>
      folded in g.lex.FoldedTokens(corpus) || g.lex.lemmaOf(folded) in g.lex.LemmaSet(corpus)
  {
    var tokens := g.lex.tokenize(corpus);
    if folded in g.lex.FoldedTokens(corpus) {
      var k :| 0 <= k < |tokens| && g.lex.casefold(tokens[k]) == folded;
    }
    if g.lex.lemmaOf(folded) in g.lex.LemmaSet(corpus) {
      var k :| 0 <= k < |tokens| && g.lex.lemmaOf(tokens[k]) == g.lex.lemmaOf(folded);
    }
  }

  /** What the corpus texts are: statements, the columns of the rows, profile values, capability names. */
  ghost predicate CorpusText(g: Ground, p: string) {
    || (exists id, f :: IsFact(g, id, f) && f.statement == p)
    || (exists row :: row in g.ctx.experiences && ColumnText(row, p))
    || (p != "" && exists key :: key in g.ctx.profile && g.ctx.profile[key] == p)
    || (exists c, s :: Evidenced(g, c, s) && s.name == p)
  }

  predicate ColumnText(row: Experience, p: string) {
    || (p != "" && (p == row.title || p == row.org || p == row.start || p == row.end))
    || (row.kind == Role && p == "role") || (row.kind == Venture && p == "venture")
    || (row.kind == OtherKind && p == "other")
    || (row.kind == Project && p == "project") || (row.kind == EducationKind && p == "education")
  }

  lemma ColumnsAre(row: Experience, p: string)
    ensures p in Columns(row) <==> ColumnText(row, p)
  {
    var columns := [KindName(row.kind), row.title, row.org, row.start, row.end];
    NonEmptyAre(columns, p);
    assert columns[0] == KindName(row.kind) && columns[1] == row.title && columns[2] == row.org;
    assert columns[3] == row.start && columns[4] == row.end;
    assert p in columns <==>
      p == KindName(row.kind) || p == row.title || p == row.org || p == row.start || p == row.end;
  }

  lemma {:induction false} NonEmptyAre(parts: seq<string>, p: string)
    ensures p in NonEmpty(parts) <==> p in parts && p != ""
  {
    if parts != [] {
      NonEmptyAre(parts[..|parts| - 1], p);
      assert parts == parts[..|parts| - 1] + [parts[|parts| - 1]];
    }
  }

  lemma CorpusMeans(g: Ground, p: string)
    requires Keyed(g)
    ensures p in g.corpus <==> CorpusText(g, p)
  {
    FromFacts(g, p);
    FromRows(g, p);
    FromNames(g, p);
    assert p in g.view.profile.Values <==> exists key :: key in g.ctx.profile && g.ctx.profile[key] == p;
  }

  /** What a bullet may repeat of the profile: whatever it states. */
  lemma ProfileTextsAre(g: Ground, p: string)
    requires Keyed(g)
    ensures p in g.profileValues <==> p != "" && exists key :: Profile(g, key) == p
  {
    if p != "" {
      if key :| Profile(g, key) == p {
        assert key in g.ctx.profile && g.view.profile[key] == p;
      }
      if p in g.view.profile.Values {
        var key :| key in g.view.profile && g.view.profile[key] == p;
        assert Profile(g, key) == p;
      }
    }
  }

  lemma FromFacts(g: Ground, p: string)
    requires Keyed(g)
    ensures (exists id :: id in g.view.facts && g.view.facts[id].statement == p) <==>
      exists id, f :: IsFact(g, id, f) && f.statement == p
  {
    if id :| id in g.view.facts && g.view.facts[id].statement == p {
      FactsAre(g, id);
    }
    if id, f :| IsFact(g, id, f) && f.statement == p {
      FactsAre(g, id);
    }
  }

  lemma FromRows(g: Ground, p: string)
    requires Keyed(g)
    ensures (exists id :: id in g.view.experiences && p in Columns(g.view.experiences[id])) <==>
      exists row :: row in g.ctx.experiences && ColumnText(row, p)
  {
    if id :| id in g.view.experiences && p in Columns(g.view.experiences[id]) {
      RowsAre(g, id);
      ColumnsAre(g.view.experiences[id], p);
    }
    if row :| row in g.ctx.experiences && ColumnText(row, p) {
      RowsAre(g, row.id);
      assert IsRow(g, row.id, row);
      ColumnsAre(row, p);
    }
  }

  lemma FromNames(g: Ground, p: string)
    requires Keyed(g)
    ensures p in g.view.capabilities.Values <==> exists c, s :: Evidenced(g, c, s) && s.name == p
  {
    var covered := Covered(g.ctx.selections);
    CoveredAre(g.ctx.selections);
    NamesAre(covered);
    if p in g.view.capabilities.Values {
      var c :| c in g.view.capabilities && g.view.capabilities[c] == p;
      var s :| s in covered && s.capability == c && s.name == p;
      assert Evidenced(g, c, s);
    }
    if c, s :| Evidenced(g, c, s) && s.name == p {
      CapabilityIs(g, c);
    }
  }

  /** Numbers and ownership come from the cited statements, content words from those, the row or the profile, and
      names from anywhere in the corpus. */
  ghost predicate TextFits(g: Ground, row: Experience, text: string, source: string) {
    && (forall n :: n in g.lex.numerals(text) ==> n in g.lex.numerals(source))
    && NamesFrom(g, text, Corpus(g))
    && (forall w :: w in g.lex.contentLemmas(text) ==>
          || w in g.lex.contentLemmas(source)
          || w in g.lex.contentLemmas(JoinLines(Columns(row)))
          || w in g.lex.contentLemmas(JoinLines(g.profileValues)))
    && ClaimsBacked(g, text, source)
  }

  ghost predicate BulletFits(g: Ground, e: Entry, b: Bullet) {
    forall row, texts :: IsRow(g, e.experience, row) && Cited(g, e, b, texts) ==>
      TextFits(g, row, b.text, JoinLines(texts))
  }

  predicate TextRule(r: Rule) {
    r == NumbersDates || r == Entities || r == ContentWords || r == ScopeInflation
  }

  lemma BulletMeans(g: Ground, e: Entry, b: Bullet)
    requires Keyed(g) && e.experience in g.view.experiences
    requires b.facts != [] && forall id :: id in b.facts ==> Cites(g, e, id)
    ensures (forall r :: TextRule(r) ==> BulletSatisfies(g, e, b, r)) <==> BulletFits(g, e, b)
  {
    var row, texts := g.view.experiences[e.experience], Sources(g, e, b.facts);
    RowsAre(g, e.experience);
    SourcesSay(g, e, b.facts, b);
    SourcesAt(g, e, b.facts);
    FourRules(g, e, b, row, texts);
    assert IsRow(g, e.experience, row) && Cited(g, e, b, texts);
  }

  /** The same rule by rule, so that each finding comes under its own. */
  lemma BulletRules(g: Ground, e: Entry, b: Bullet, row: Experience, texts: seq<string>)
    requires Keyed(g) && IsRow(g, e.experience, row) && Cited(g, e, b, texts)
    requires b.facts != [] && forall id :: id in b.facts ==> Cites(g, e, id)
    ensures e.experience in g.view.experiences
    ensures var text, source := b.text, JoinLines(texts);
      && (BulletSatisfies(g, e, b, NumbersDates) <==>
            forall n :: n in g.lex.numerals(text) ==> n in g.lex.numerals(source))
      && (BulletSatisfies(g, e, b, Entities) <==> NamesFrom(g, text, Corpus(g)))
      && (BulletSatisfies(g, e, b, ContentWords) <==> forall w :: w in g.lex.contentLemmas(text) ==>
            || w in g.lex.contentLemmas(source) || w in g.lex.contentLemmas(JoinLines(Columns(row)))
            || w in g.lex.contentLemmas(JoinLines(g.profileValues)))
      && (BulletSatisfies(g, e, b, ScopeInflation) <==> ClaimsBacked(g, text, source))
  {
    RowsAre(g, e.experience);
    SourcesSay(g, e, b.facts, b);
    RuleHeld(g, e, b, row, texts, NumbersDates);
    RuleHeld(g, e, b, row, texts, Entities);
    RuleHeld(g, e, b, row, texts, ContentWords);
    RuleHeld(g, e, b, row, texts, ScopeInflation);
    HeldRules(g, row, b.text, JoinLines(texts));
  }

  lemma RuleHeld(g: Ground, e: Entry, b: Bullet, row: Experience, texts: seq<string>, r: Rule)
    requires e.experience in g.view.experiences && g.view.experiences[e.experience] == row && TextRule(r)
    requires texts == Sources(g, e, b.facts) && texts != []
    ensures BulletSatisfies(g, e, b, r) <==> TextHeld(g, row, b.text, JoinLines(texts), r)
  {
  }

  lemma HeldRules(g: Ground, row: Experience, text: string, source: string)
    ensures TextHeld(g, row, text, source, NumbersDates) <==>
      forall n :: n in g.lex.numerals(text) ==> n in g.lex.numerals(source)
    ensures TextHeld(g, row, text, source, Entities) <==> NamesFrom(g, text, Corpus(g))
    ensures TextHeld(g, row, text, source, ContentWords) <==> forall w :: w in g.lex.contentLemmas(text) ==>
      || w in g.lex.contentLemmas(source) || w in g.lex.contentLemmas(JoinLines(Columns(row)))
      || w in g.lex.contentLemmas(JoinLines(g.profileValues))
    ensures TextHeld(g, row, text, source, ScopeInflation) <==> ClaimsBacked(g, text, source)
  {
    NamesMean(g, text);
    ClaimsMean(g, text, source);
  }

  predicate TextHeld(g: Ground, row: Experience, text: string, source: string, r: Rule) {
    match r
    case NumbersDates => NumbersGrounded(g, text, source)
    case Entities => EntitiesGrounded(g, text)
    case ContentWords =>
      g.lex.contentLemmas(text) <= g.lex.contentLemmas(source)
        + g.lex.contentLemmas(JoinLines(Columns(row))) + g.lex.contentLemmas(JoinLines(g.profileValues))
    case ScopeInflation => ScopeGrounded(g, text, source)
    case _ => true
  }

  lemma FourTexts(g: Ground, row: Experience, text: string, source: string)
    ensures (forall r :: TextRule(r) ==> TextHeld(g, row, text, source, r)) <==> TextFits(g, row, text, source)
  {
    HeldRules(g, row, text, source);
    assert TextRule(NumbersDates) && TextRule(Entities) && TextRule(ContentWords) && TextRule(ScopeInflation);
  }

  lemma FourRules(g: Ground, e: Entry, b: Bullet, row: Experience, texts: seq<string>)
    requires e.experience in g.view.experiences && g.view.experiences[e.experience] == row
    requires texts == Sources(g, e, b.facts) && texts != []
    ensures (forall r :: TextRule(r) ==> BulletSatisfies(g, e, b, r)) <==> TextFits(g, row, b.text, JoinLines(texts))
  {
    forall r | TextRule(r) ensures BulletSatisfies(g, e, b, r) <==> TextHeld(g, row, b.text, JoinLines(texts), r) {
      RuleHeld(g, e, b, row, texts, r);
    }
    FourTexts(g, row, b.text, JoinLines(texts));
  }

  ghost predicate BulletsFit(g: Ground, e: Entry) {
    forall b :: b in e.bullets ==> BulletFits(g, e, b)
  }

  lemma EntryTexts(g: Ground, s: Section, e: Entry)
    requires Keyed(g) && EntryTraced(g, e)
    ensures (forall r :: TextRule(r) ==> EntrySatisfies(g, s, e, r)) <==> BulletsFit(g, e)
  {
    RowsAre(g, e.experience);
    forall k | 0 <= k < |e.bullets|
      ensures (forall r :: TextRule(r) ==> BulletSatisfies(g, e, e.bullets[k], r)) <==> BulletFits(g, e, e.bullets[k])
    {
      assert e.bullets[k] in e.bullets;
      BulletMeans(g, e, e.bullets[k]);
    }
    if forall r :: TextRule(r) ==> EntrySatisfies(g, s, e, r) {
      forall b | b in e.bullets ensures BulletFits(g, e, b) {
        var k :| 0 <= k < |e.bullets| && e.bullets[k] == b;
        forall r | TextRule(r) ensures BulletSatisfies(g, e, e.bullets[k], r) {
          assert EntrySatisfies(g, s, e, r);
        }
      }
    }
    if BulletsFit(g, e) {
      forall r | TextRule(r) ensures EntrySatisfies(g, s, e, r) {
        forall k | 0 <= k < |e.bullets| ensures BulletSatisfies(g, e, e.bullets[k], r) {
          assert BulletFits(g, e, e.bullets[k]);
        }
      }
    }
  }

  ghost predicate TextsFit(g: Ground, entries: seq<Entry>) {
    forall e, b :: e in entries && b in e.bullets ==> BulletFits(g, e, b)
  }

  lemma SectionTexts(g: Ground, s: Section, entries: seq<Entry>)
    requires Keyed(g) && forall e :: e in entries ==> EntryTraced(g, e)
    ensures (forall r :: TextRule(r) ==> EntriesSatisfy(g, s, entries, r)) <==> TextsFit(g, entries)
  {
    forall e | e in entries
      ensures (forall r :: TextRule(r) ==> EntrySatisfies(g, s, e, r)) <==> BulletsFit(g, e)
    {
      EntryTexts(g, s, e);
    }
    if forall r :: TextRule(r) ==> EntriesSatisfy(g, s, entries, r) {
      forall e, b | e in entries && b in e.bullets ensures BulletFits(g, e, b) {
        var k :| 0 <= k < |entries| && entries[k] == e;
        forall r | TextRule(r) ensures EntrySatisfies(g, s, e, r) {
          assert EntriesSatisfy(g, s, entries, r);
        }
      }
    }
    if TextsFit(g, entries) {
      forall r | TextRule(r) ensures EntriesSatisfy(g, s, entries, r) {
        forall k | 0 <= k < |entries| ensures EntrySatisfies(g, s, entries[k], r) {
          assert entries[k] in entries;
        }
      }
    }
  }

  /** Numbers, names and content words of the summary come from the corpus. */
  ghost predicate SummaryFits(g: Ground, text: string) {
    && (forall n :: n in g.lex.numerals(text) ==> n in g.lex.numerals(Corpus(g)))
    && NamesFrom(g, text, Corpus(g))
    && (forall w :: w in g.lex.contentLemmas(text) ==> w in g.lex.contentLemmas(Corpus(g)))
  }

  lemma SummaryMeans(g: Ground, cv: Cv)
    ensures (forall r :: TextRule(r) ==> SummarySatisfies(g, cv, r)) <==> SummaryFits(g, cv.summary)
  {
    NamesMean(g, cv.summary);
    assert TextRule(NumbersDates) && TextRule(Entities) && TextRule(ContentWords);
  }

  /** And rule by rule; ownership is not asked of a summary. */
  lemma SummaryRules(g: Ground, cv: Cv)
    ensures SummarySatisfies(g, cv, NumbersDates) <==>
      forall n :: n in g.lex.numerals(cv.summary) ==> n in g.lex.numerals(Corpus(g))
    ensures SummarySatisfies(g, cv, Entities) <==> NamesFrom(g, cv.summary, Corpus(g))
    ensures SummarySatisfies(g, cv, ContentWords) <==>
      forall w :: w in g.lex.contentLemmas(cv.summary) ==> w in g.lex.contentLemmas(Corpus(g))
    ensures SummarySatisfies(g, cv, ScopeInflation)
  {
    NamesMean(g, cv.summary);
  }

  ghost predicate AllTextsFit(g: Ground, cv: Cv) {
    SummaryFits(g, cv.summary) && TextsFit(g, cv.experiences) && TextsFit(g, cv.projects) && TextsFit(g, cv.education)
  }

  lemma TextHolds(g: Ground, cv: Cv, r: Rule)
    requires TextRule(r)
    ensures Satisfies(g, cv, r) <==>
      && SummarySatisfies(g, cv, r) && EntriesSatisfy(g, Experiences, cv.experiences, r)
      && EntriesSatisfy(g, Projects, cv.projects, r) && EntriesSatisfy(g, Education, cv.education, r)
  {
  }

  lemma SectionsTraced(g: Ground, cv: Cv)
    requires Traced(g, cv)
    ensures forall e :: e in cv.experiences ==> EntryTraced(g, e)
    ensures forall e :: e in cv.projects ==> EntryTraced(g, e)
    ensures forall e :: e in cv.education ==> EntryTraced(g, e)
  {
    assert forall e :: e in cv.AllEntries() <==> e in cv.experiences || e in cv.projects || e in cv.education;
  }

  lemma SatisfiedTexts(g: Ground, cv: Cv)
    requires Keyed(g) && Traced(g, cv) && forall r :: TextRule(r) ==> Satisfies(g, cv, r)
    ensures AllTextsFit(g, cv)
  {
    SectionsTraced(g, cv);
    assert SummaryFits(g, cv.summary) by {
      forall r | TextRule(r) ensures SummarySatisfies(g, cv, r) { TextHolds(g, cv, r); }
      SummaryMeans(g, cv);
    }
    assert TextsFit(g, cv.experiences) by {
      forall r | TextRule(r) ensures EntriesSatisfy(g, Experiences, cv.experiences, r) { TextHolds(g, cv, r); }
      SectionTexts(g, Experiences, cv.experiences);
    }
    assert TextsFit(g, cv.projects) by {
      forall r | TextRule(r) ensures EntriesSatisfy(g, Projects, cv.projects, r) { TextHolds(g, cv, r); }
      SectionTexts(g, Projects, cv.projects);
    }
    assert TextsFit(g, cv.education) by {
      forall r | TextRule(r) ensures EntriesSatisfy(g, Education, cv.education, r) { TextHolds(g, cv, r); }
      SectionTexts(g, Education, cv.education);
    }
  }

  lemma FittingTexts(g: Ground, cv: Cv, r: Rule)
    requires Keyed(g) && Traced(g, cv) && AllTextsFit(g, cv) && TextRule(r)
    ensures Satisfies(g, cv, r)
  {
    SectionsTraced(g, cv);
    assert SummarySatisfies(g, cv, r) by { SummaryMeans(g, cv); }
    assert EntriesSatisfy(g, Experiences, cv.experiences, r) by { SectionTexts(g, Experiences, cv.experiences); }
    assert EntriesSatisfy(g, Projects, cv.projects, r) by { SectionTexts(g, Projects, cv.projects); }
    assert EntriesSatisfy(g, Education, cv.education, r) by { SectionTexts(g, Education, cv.education); }
    TextHolds(g, cv, r);
  }

  // ----- accepted -----

  lemma GateMeans(g: Ground, cv: Cv)
    requires Keyed(g) && Traced(g, cv)
    ensures Satisfies(g, cv, ExperienceGate) <==> forall e :: e in cv.experiences ==> e.bullets != []
  {
    forall e | e in cv.experiences ensures e.experience in g.view.experiences {
      assert e in cv.AllEntries() && EntryTraced(g, e);
      RowsAre(g, e.experience);
    }
  }

  /** What an accepted model is, in the context's own terms. */
  ghost predicate Honest(g: Ground, cv: Cv) {
    && Traced(g, cv) && KindsFit(g, cv) && FramesFit(g, cv) && Covers(g, cv) && InOrder(g, cv.experiences)
    && (forall e :: e in cv.experiences ==> e.bullets != [])
    && AllTextsFit(g, cv)
    && FieldsFit(g, cv.header) && LinksFit(g, cv.header.links)
    && (cv.headline == None || g.lex.normalizeChars(cv.headline.value) == g.lex.normalizeChars(g.ctx.familyName))
    && (forall k :: k in cv.skills ==> SkillFits(g, k))
    && cv.meta.sectionOrder == ["contact", "summary", "skills", "experience", "projects", "education"]
  }

  lemma GroundedIsHonest(g: Ground, cv: Cv)
    requires Keyed(g) && Grounded(g, cv)
    ensures Honest(g, cv)
  {
    assert Traced(g, cv) by { assert Satisfies(g, cv, Traceability); TracedMeans(g, cv); }
    assert KindsFit(g, cv) by { assert Satisfies(g, cv, SectionKind); KindsMean(g, cv); }
    assert FramesFit(g, cv) by { assert Satisfies(g, cv, Skeleton); FramesMean(g, cv); }
    assert Covers(g, cv) by { assert Satisfies(g, cv, Coverage); CoversMeans(g, cv); }
    assert InOrder(g, cv.experiences) by { assert Satisfies(g, cv, Ordering); OrderingMeans(g, cv); }
    assert forall e :: e in cv.experiences ==> e.bullets != [] by {
      assert Satisfies(g, cv, ExperienceGate);
      GateMeans(g, cv);
    }
    assert AllTextsFit(g, cv) by { SatisfiedTexts(g, cv); }
    assert FieldsFit(g, cv.header) && LinksFit(g, cv.header.links) by {
      assert Satisfies(g, cv, HeaderRule);
      HeaderMeans(g, cv);
    }
    HeadOfModel(g, cv);
    assert forall k :: k in cv.skills ==> SkillFits(g, k) by { assert Satisfies(g, cv, SkillsRule); SkillsMean(g, cv); }
  }

  lemma HeadOfModel(g: Ground, cv: Cv)
    requires Keyed(g) && Grounded(g, cv)
    ensures cv.headline == None || g.lex.normalizeChars(cv.headline.value) == g.lex.normalizeChars(g.ctx.familyName)
    ensures cv.meta.sectionOrder == ["contact", "summary", "skills", "experience", "projects", "education"]
  {
    assert Satisfies(g, cv, HeadlineRule) && Satisfies(g, cv, SectionOrderRule);
    HeadlineMeans(g, cv);
  }

  lemma HonestSatisfies(g: Ground, cv: Cv, r: Rule)
    requires Keyed(g) && Honest(g, cv)
    ensures Satisfies(g, cv, r)
  {
    match r
    case Traceability => TracedMeans(g, cv);
    case SectionKind => KindsMean(g, cv);
    case Skeleton => FramesMean(g, cv);
    case Coverage => CoversMeans(g, cv);
    case Ordering => OrderingMeans(g, cv);
    case ExperienceGate => GateMeans(g, cv);
    case HeaderRule => HeaderMeans(g, cv);
    case HeadlineRule => HeadlineMeans(g, cv);
    case SectionOrderRule => HeadlineMeans(g, cv);
    case SkillsRule => SkillsMean(g, cv);
    case _ => FittingTexts(g, cv, r);
  }

  /** The verifier objects to nothing if and only if the model is honest about its context. */
  lemma GroundedMeans(g: Ground, cv: Cv)
    requires Keyed(g)
    ensures Grounded(g, cv) <==> Honest(g, cv)
  {
    if Grounded(g, cv) {
      GroundedIsHonest(g, cv);
    }
    if Honest(g, cv) {
      forall r ensures Satisfies(g, cv, r) {
        HonestSatisfies(g, cv, r);
      }
    }
  }

  // ----- the fallback -----

  /** The fact hangs off the row. */
  ghost predicate HasFact(g: Ground, row: Experience, f: Fact) {
    row.id != "" && IsFact(g, f.id, f) && f.experience == Some(row.id)
  }

  /** What a row looks like in the fallback: its own columns, and each fact that hangs off it, word for word. */
  ghost predicate Quotes(g: Ground, e: Entry, row: Experience) {
    && e.experience == row.id && e.title == row.title && e.org == row.org && e.start == row.start && e.end == row.end
    && e.location == None
    && (forall b :: b in e.bullets <==>
          exists f :: HasFact(g, row, f) && b == Bullet(f.statement, [f.id]))
  }

  lemma {:induction false} BulletsAre(g: Ground, order: seq<string>, x: string, b: Bullet)
    requires forall id :: id in order ==> id in g.view.facts
    ensures b in BulletsFor(g.view.facts, order, x) <==>
      exists id :: id in order && HangsOff(g.view.facts[id], x) && b == Bullet(g.view.facts[id].statement, [id])
  {
    if order != [] {
      BulletsAre(g, order[..|order| - 1], x, b);
      assert order == order[..|order| - 1] + [order[|order| - 1]];
    }
  }

  lemma EntryQuotes(g: Ground, order: seq<string>, row: Experience)
    requires Keyed(g) && Visits(order, g.view.facts)
    ensures Quotes(g, EntryFor(g.view.facts, order, row), row)
  {
    forall b
      ensures b in BulletsFor(g.view.facts, order, row.id) <==>
        exists f :: HasFact(g, row, f) && b == Bullet(f.statement, [f.id])
    {
      BulletsAre(g, order, row.id, b);
      if id :| id in order && HangsOff(g.view.facts[id], row.id) && b == Bullet(g.view.facts[id].statement, [id]) {
        FactsAre(g, id);
      }
      if f :| HasFact(g, row, f) && b == Bullet(f.statement, [f.id]) {
        FactsAre(g, f.id);
      }
    }
  }

  lemma {:induction false} SectionIs(facts: map<string, Fact>, order: seq<string>, rows: seq<Experience>, s: Section,
                                     e: Entry)
    requires forall id :: id in order ==> id in facts
    ensures e in SectionFor(facts, order, rows, s) <==>
      exists row :: row in rows && Rendered(facts, order, row, s) && e == EntryFor(facts, order, row)
  {
    if rows != [] {
      SectionIs(facts, order, rows[..|rows| - 1], s, e);
      assert rows == rows[..|rows| - 1] + [rows[|rows| - 1]];
    }
  }

  lemma ShownInSection(g: Ground, order: seq<string>, row: Experience, s: Section)
    requires Keyed(g) && Visits(order, g.view.facts)
    ensures Rendered(g.view.facts, order, row, s) <==>
      match s
      case Projects => row.kind == Project
      case Education => row.kind == EducationKind
      case Experiences => Employs(g, row)
  {
    FactShown(g, order, row);
  }

  lemma SectionShows(g: Ground, order: seq<string>, s: Section, e: Entry)
    requires Keyed(g) && Visits(order, g.view.facts)
    ensures e in SectionFor(g.view.facts, order, g.ctx.experiences, s) <==>
      exists row :: row in g.ctx.experiences && IsEntry(g, order, e, row) && Rendered(g.view.facts, order, row, s)
  {
    SectionIs(g.view.facts, order, g.ctx.experiences, s, e);
  }

  /** The fallback shows every project among the projects, every education row under education, and among the
      experiences exactly the other rows that have a fact; nothing else anywhere. */
  lemma FallbackShows(g: Ground, order: seq<string>, at: string, e: Entry)
    requires Keyed(g) && Visits(order, g.view.facts)
    ensures e in Verbatim(g.ctx, order, at).projects <==>
      exists row :: row in g.ctx.experiences && row.kind == Project && IsEntry(g, order, e, row)
    ensures e in Verbatim(g.ctx, order, at).education <==>
      exists row :: row in g.ctx.experiences && row.kind == EducationKind && IsEntry(g, order, e, row)
    ensures e in Verbatim(g.ctx, order, at).experiences <==>
      exists row :: row in g.ctx.experiences && IsEntry(g, order, e, row) && Employs(g, row)
    ensures forall row :: IsEntry(g, order, e, row) ==> Quotes(g, e, row)
  {
    SectionShows(g, order, Projects, e);
    SectionShows(g, order, Education, e);
    SectionShows(g, order, Experiences, e);
    Sorted(SectionFor(g.view.facts, order, g.ctx.experiences, Experiences), e);
    forall row, s ensures Rendered(g.view.facts, order, row, s) <==>
      match s
      case Projects => row.kind == Project
      case Education => row.kind == EducationKind
      case Experiences => Employs(g, row)
    {
      ShownInSection(g, order, row, s);
    }
    forall row | IsEntry(g, order, e, row) ensures Quotes(g, e, row) {
      EntryQuotes(g, order, row);
    }
  }

  lemma Sorted(xs: seq<Entry>, e: Entry)
    ensures e in SortDescending(xs, EntryRank) <==> e in xs
  {
    SortSorts(xs, EntryRank);
    assert e in xs <==> e in multiset(xs);
    assert e in SortDescending(xs, EntryRank) <==> e in multiset(SortDescending(xs, EntryRank));
  }

  /** Neither project nor education, and with a fact under it. */
  ghost predicate Employs(g: Ground, row: Experience) {
    row.kind != Project && row.kind != EducationKind && exists f :: HasFact(g, row, f)
  }

  predicate IsEntry(g: Ground, order: seq<string>, e: Entry, row: Experience)
    requires forall id :: id in order ==> id in g.view.facts
  {
    e == EntryFor(g.view.facts, order, row)
  }

  lemma FactShown(g: Ground, order: seq<string>, row: Experience)
    requires Keyed(g) && Visits(order, g.view.facts)
    ensures BulletsFor(g.view.facts, order, row.id) != [] <==> exists f :: HasFact(g, row, f)
  {
    EntryQuotes(g, order, row);
    var bullets := BulletsFor(g.view.facts, order, row.id);
    if bullets != [] {
      assert bullets[0] in bullets;
    }
    if f :| HasFact(g, row, f) {
      assert Bullet(f.statement, [f.id]) in bullets;
    }
  }

  // ----- its head -----

  /** t is s without the white space around it. */
  ghost predicate Trims(s: string, t: string) {
    && (exists front: string, back: string :: s == front + t + back && AllSpace(front) && AllSpace(back))
    && (t != "" ==> !IsSpace(t[0]) && !IsSpace(t[|t| - 1]))
  }

  predicate AllSpace(s: string) {
    forall i :: 0 <= i < |s| ==> IsSpace(s[i])
  }

  lemma {:induction false} StartTrimmed(s: string)
    ensures exists front: string :: s == front + StripStart(s) && AllSpace(front)
    ensures StripStart(s) != "" ==> !IsSpace(StripStart(s)[0])
  {
    if s != "" && IsSpace(s[0]) {
      StartTrimmed(s[1..]);
      var front: string :| s[1..] == front + StripStart(s[1..]) && AllSpace(front);
      assert s == ([s[0]] + front) + StripStart(s) && AllSpace([s[0]] + front);
    } else {
      assert s == "" + s && AllSpace("");
    }
  }

  lemma {:induction false} EndTrimmed(s: string)
    ensures exists back: string :: s == StripEnd(s) + back && AllSpace(back)
    ensures StripEnd(s) != "" ==> !IsSpace(StripEnd(s)[|StripEnd(s)| - 1]) && StripEnd(s)[0] == s[0]
  {
    if s != "" && IsSpace(s[|s| - 1]) {
      var n := |s| - 1;
      EndTrimmed(s[..n]);
      var back: string :| s[..n] == StripEnd(s[..n]) + back && AllSpace(back);
      assert s == StripEnd(s) + (back + [s[n]]) && AllSpace(back + [s[n]]);
    } else {
      assert s == s + "" && AllSpace("");
    }
  }

  lemma StripTrims(s: string)
    ensures Trims(s, Strip(s))
  {
    StartTrimmed(s);
    EndTrimmed(StripStart(s));
    var front: string :| s == front + StripStart(s) && AllSpace(front);
    var back: string :| StripStart(s) == Strip(s) + back && AllSpace(back);
    assert s == front + Strip(s) + back;
  }

  lemma {:induction false} PresentAre(profile: map<string, string>, fields: seq<string>, link: string)
    ensures link in PresentValues(profile, fields) <==>
      link != "" && exists key :: key in fields && key in profile && profile[key] == link
  {
    if fields != [] {
      var n := |fields| - 1;
      PresentAre(profile, fields[..n], link);
      assert fields == fields[..n] + [fields[n]];
    }
  }

  lemma {:induction false} SkillsAre(covered: seq<Selection>, k: Skill)
    ensures k in SkillsFor(covered) <==> exists s :: s in covered && k == Skill(s.name, [s.capability])
  {
    if covered != [] {
      var n := |covered| - 1;
      SkillsAre(covered[..n], k);
      assert covered == covered[..n] + [covered[n]];
    }
  }

  /** The head that is set in code, for the fallback and for every draft: the profile's own fields, its links and no
      other, and the name of the role family unless that is blank. */
  lemma HeadIs(g: Ground)
    requires IsGround(g)
    ensures var h := BuildHeader(g.ctx);
      && h.name == Profile(g, "full_name") && h.email == Profile(g, "email") && h.phone == Profile(g, "phone")
      && h.location == Profile(g, "location")
      && forall link :: link in h.links <==> link != "" && exists key :: IsLinkKey(key) && Profile(g, key) == link
    ensures BuildHeadline(g.ctx) == None <==> AllSpace(g.ctx.familyName)
    ensures BuildHeadline(g.ctx).Some? ==> Trims(g.ctx.familyName, BuildHeadline(g.ctx).value)
  {
    forall link ensures link in BuildHeader(g.ctx).links <==>
      link != "" && exists key :: IsLinkKey(key) && Profile(g, key) == link
    {
      PresentAre(g.ctx.profile, LINK_FIELDS, link);
      forall key ensures IsLinkKey(key) <==> key in LINK_FIELDS {
        LinkKeysAre(key);
      }
    }
    StripTrims(g.ctx.familyName);
    if Strip(g.ctx.familyName) != "" {
      SomethingLeft(g.ctx.familyName, Strip(g.ctx.familyName));
    }
  }

  lemma SomethingLeft(s: string, t: string)
    requires Trims(s, t) && t != ""
    ensures !AllSpace(s)
  {
    var front: string, back: string :| s == front + t + back && AllSpace(front) && AllSpace(back);
    assert s[|front|] == t[0];
  }

  /** The fallback claims every evidenced capability under its own name, and no other; it has no summary. */
  lemma FallbackHead(g: Ground, order: seq<string>, at: string)
    requires Keyed(g) && Visits(order, g.view.facts)
    ensures var cv := Verbatim(g.ctx, order, at);
      && cv.summary == "" && cv.header == BuildHeader(g.ctx) && cv.headline == BuildHeadline(g.ctx)
      && cv.meta.family == g.ctx.family && cv.meta.strategyVersion == g.ctx.strategyVersion
      && cv.meta.generatedAt == at
      && forall k :: k in cv.skills <==> exists c, s :: Evidenced(g, c, s) && k == Skill(s.name, [c])
  {
    forall k ensures k in SkillsFor(Covered(g.ctx.selections)) <==>
      exists c, s :: Evidenced(g, c, s) && k == Skill(s.name, [c])
    {
      SkillsAre(Covered(g.ctx.selections), k);
      CoveredAre(g.ctx.selections);
      if s :| s in Covered(g.ctx.selections) && k == Skill(s.name, [s.capability]) {
        assert Evidenced(g, s.capability, s);
      }
      if c, s :| Evidenced(g, c, s) && k == Skill(s.name, [c]) {
        assert s in Covered(g.ctx.selections);
      }
    }
  }

  // ----- a drafted model -----

  /** Header, headline and identity are those of the context, and the rest is as drafted. */
  lemma StampedSays(ctx: Context, cv: Cv, at: string)
    ensures var s := Stamped(ctx, cv, at);
      && s.header == BuildHeader(ctx) && s.headline == BuildHeadline(ctx)
      && s.meta == Meta(ctx.family, ctx.strategyVersion, at, cv.meta.sectionOrder)
      && s.summary == cv.summary && s.skills == cv.skills
      && s.experiences == cv.experiences && s.projects == cv.projects && s.education == cv.education
  {
  }

  /** So a draft is accepted exactly when what it may write itself is honest: whatever header, headline and identity it
      comes with, it is shown under those of the context, and they pass. */
  lemma DraftAccepted(g: Ground, cv: Cv, at: string)
    requires Keyed(g) && Lawful(g.lex)
    ensures Acceptable(g, Some(cv), at) <==> Honest(g, Stamped(g.ctx, cv, at))
    ensures Satisfies(g, Stamped(g.ctx, cv, at), HeaderRule) && Satisfies(g, Stamped(g.ctx, cv, at), HeadlineRule)
  {
    var shown := Stamped(g.ctx, cv, at);
    var ordered := shown.(meta := shown.meta.(sectionOrder := SECTION_ORDER));
    GroundedMeans(g, shown);
    StampedSatisfies(g, ordered, HeaderRule);
    OnlyOn(g, shown, HeaderRule);
    OnlyOn(g, shown, HeadlineRule);
  }
}
