/** The deterministic parts of generation: header, headline, the verbatim fallback, and the bounded
    drafting loop (packages/domain/generation.py). */
module Generation {
  import opened Basics
  import opened CvModel
  import opened Grounding

  const MAX_DRAFT_ATTEMPTS := 3

  /** What the fallback always needs of the text functions: the empty text has nothing in it, and character
      normalization does not see surrounding white space. */
  ghost predicate Lawful(lex: Lexicon) {
    && lex.tokens("") == [] && lex.numerals("") == {} && lex.contentLemmas("") == {}
    && (forall t :: lex.normalizeChars(Strip(t)) == lex.normalizeChars(t))
  }

  /** Tokens split at a line break, and case folding commutes with tokenizing. */
  ghost predicate FoldsAlong(lex: Lexicon) {
    && (forall a, b :: lex.tokenize(a + "\n" + b) == lex.tokenize(a) + lex.tokenize(b))
    && (forall t :: |lex.tokenize(t)| == |lex.tokens(t)|)
    && (forall t, i :: 0 <= i < |lex.tokens(t)| ==> lex.tokenize(t)[i] == lex.casefold(lex.tokens(t)[i]))
  }

  function Strip(s: string): string {
    StripEnd(StripStart(s))
  }

  function StripStart(s: string): string {
    if s != "" && IsSpace(s[0]) then StripStart(s[1..]) else s
  }

  function StripEnd(s: string): string {
    if s != "" && IsSpace(s[|s| - 1]) then StripEnd(s[..|s| - 1]) else s
  }

  function PresentValues(profile: map<string, string>, fields: seq<string>): seq<string> {
    if fields == [] then []
    else
      var value := Lookup(profile, fields[|fields| - 1]);
      PresentValues(profile, fields[..|fields| - 1]) + if value != "" then [value] else []
  }

  function BuildHeader(ctx: Context): Header {
    Header(Lookup(ctx.profile, "full_name"), Lookup(ctx.profile, "email"), Lookup(ctx.profile, "phone"),
      Lookup(ctx.profile, "location"), PresentValues(ctx.profile, LINK_FIELDS))
  }

  function BuildHeadline(ctx: Context): Option<string> {
    var name := Strip(ctx.familyName);
    if name == "" then None else Some(name)
  }

  // ----- the fallback -----

  /** Facts are visited in this order: every fact of the view, and nothing else. */
  ghost predicate Visits(order: seq<string>, facts: map<string, Fact>) {
    forall id :: id in order <==> id in facts
  }

  predicate HangsOff(f: Fact, experience: string) {
    Backed(f) && f.experience == Some(experience)
  }

  /** The facts of an experience, verbatim. */
  function BulletsFor(facts: map<string, Fact>, order: seq<string>, experience: string): seq<Bullet>
    requires forall id :: id in order ==> id in facts
  {
    if order == [] then []
    else
      var id := order[|order| - 1];
      BulletsFor(facts, order[..|order| - 1], experience)
      + if HangsOff(facts[id], experience) then [Bullet(facts[id].statement, [id])] else []
  }

  function EntryFor(facts: map<string, Fact>, order: seq<string>, e: Experience): Entry
    requires forall id :: id in order ==> id in facts
  {
    Entry(e.id, e.title, e.org, e.start, e.end, BulletsFor(facts, order, e.id), None)
  }

  /** Employment renders only with a fact under it. */
  predicate Rendered(facts: map<string, Fact>, order: seq<string>, e: Experience, s: Section)
    requires forall id :: id in order ==> id in facts
  {
    SectionOf(e.kind) == s && (s == Experiences ==> BulletsFor(facts, order, e.id) != [])
  }

  function SectionFor(facts: map<string, Fact>, order: seq<string>, rows: seq<Experience>, s: Section): seq<Entry>
    requires forall id :: id in order ==> id in facts
  {
    if rows == [] then []
    else
      var e := rows[|rows| - 1];
      SectionFor(facts, order, rows[..|rows| - 1], s)
      + if Rendered(facts, order, e, s) then [EntryFor(facts, order, e)] else []
  }

  function EntryRank(e: Entry): Key { ChronRank(e.start, e.end) }

  function SkillsFor(covered: seq<Selection>): seq<Skill> {
    if covered == [] then []
    else SkillsFor(covered[..|covered| - 1]) + [Skill(covered[|covered| - 1].name, [covered[|covered| - 1].capability])]
  }

  function Verbatim(ctx: Context, order: seq<string>, at: string): Cv
    requires Visits(order, ViewOf(ctx).facts)
  {
    var facts := ViewOf(ctx).facts;
    Cv(BuildHeader(ctx), BuildHeadline(ctx), "", SkillsFor(Covered(ctx.selections)),
      SortDescending(SectionFor(facts, order, ctx.experiences, Experiences), EntryRank),
      SectionFor(facts, order, ctx.experiences, Projects),
      SectionFor(facts, order, ctx.experiences, Education),
      Meta(ctx.family, ctx.strategyVersion, at, SECTION_ORDER))
  }

  method GroupFacts(facts: map<string, Fact>, order: seq<string>) returns (groups: map<string, seq<string>>)
    requires forall id :: id in order ==> id in facts
    ensures forall x :: IdsFor(facts, order, x) == if x in groups then groups[x] else []
  {
    groups := map[];
    for i := 0 to |order|
      invariant forall x :: IdsFor(facts, order[..i], x) == if x in groups then groups[x] else []
    {
      assert order[..i + 1][..i] == order[..i];
      var fact := facts[order[i]];
      if Backed(fact) {
        var x := fact.experience.value;
        groups := groups[x := (if x in groups then groups[x] else []) + [order[i]]];
      }
    }
    assert order[..|order|] == order;
  }

  function IdsFor(facts: map<string, Fact>, order: seq<string>, experience: string): seq<string>
    requires forall id :: id in order ==> id in facts
  {
    if order == [] then []
    else
      var id := order[|order| - 1];
      IdsFor(facts, order[..|order| - 1], experience) + if HangsOff(facts[id], experience) then [id] else []
  }

  function Quoted(facts: map<string, Fact>, ids: seq<string>): seq<Bullet>
    requires forall id :: id in ids ==> id in facts
  {
    seq(|ids|, i requires 0 <= i < |ids| => Bullet(facts[ids[i]].statement, [ids[i]]))
  }

  lemma {:induction false} QuotedAre(facts: map<string, Fact>, order: seq<string>, x: string)
    requires forall id :: id in order ==> id in facts
    ensures forall id :: id in IdsFor(facts, order, x) ==> id in order
    ensures Quoted(facts, IdsFor(facts, order, x)) == BulletsFor(facts, order, x)
  {
    if order != [] {
      QuotedAre(facts, order[..|order| - 1], x);
    }
  }

  /** Row i adds its entry to the section of its kind, unless it is employment without a fact. */
  lemma RowPlaced(facts: map<string, Fact>, order: seq<string>, rows: seq<Experience>, i: nat, ids: seq<string>,
                  s: Section)
    requires i < |rows| && forall id :: id in order ==> id in facts
    requires ids == IdsFor(facts, order, rows[i].id)
    ensures forall id :: id in ids ==> id in facts
    ensures var e := rows[i];
      SectionFor(facts, order, rows[..i + 1], s) == SectionFor(facts, order, rows[..i], s)
        + if s == SectionOf(e.kind) && !(ids == [] && s == Experiences)
          then [Entry(e.id, e.title, e.org, e.start, e.end, Quoted(facts, ids), None)] else []
  {
    QuotedAre(facts, order, rows[i].id);
    assert rows[..i + 1][..i] == rows[..i];
    assert ids == [] <==> BulletsFor(facts, order, rows[i].id) == [];
  }

  /** One pass over the experiences, each into the section of its kind. */
  method BuildSections(rows: seq<Experience>, facts: map<string, Fact>, order: seq<string>)
    returns (experiences: seq<Entry>, projects: seq<Entry>, education: seq<Entry>)
    requires forall id :: id in order ==> id in facts
    ensures experiences == SectionFor(facts, order, rows, Experiences)
    ensures projects == SectionFor(facts, order, rows, Projects)
    ensures education == SectionFor(facts, order, rows, Education)
  {
    var groups := GroupFacts(facts, order);
    experiences, projects, education := [], [], [];
    for i := 0 to |rows|
      invariant experiences == SectionFor(facts, order, rows[..i], Experiences)
      invariant projects == SectionFor(facts, order, rows[..i], Projects)
      invariant education == SectionFor(facts, order, rows[..i], Education)
    {
      var e := rows[i];
      var ids := if e.id in groups then groups[e.id] else [];
      var section := SectionOf(e.kind);
      RowPlaced(facts, order, rows, i, ids, Experiences);
      RowPlaced(facts, order, rows, i, ids, Projects);
      RowPlaced(facts, order, rows, i, ids, Education);
      if ids == [] && section == Experiences {
        continue;
      }
      var entry := Entry(e.id, e.title, e.org, e.start, e.end, Quoted(facts, ids), None);
      match section
      case Experiences => experiences := experiences + [entry];
      case Projects => projects := projects + [entry];
      case Education => education := education + [entry];
    }
    assert rows[..|rows|] == rows;
  }

  method BuildVerbatimModel(ctx: Context, order: seq<string>, at: string) returns (cv: Cv, dropped: seq<string>)
    requires Visits(order, ViewOf(ctx).facts)
    ensures cv == Verbatim(ctx, order, at) && dropped == ["summary"]
  {
    var facts := ViewOf(ctx).facts;
    var experiences, projects, education := BuildSections(ctx.experiences, facts, order);
    experiences := SortDescending(experiences, EntryRank);
    cv := Cv(BuildHeader(ctx), BuildHeadline(ctx), "", SkillsFor(Covered(ctx.selections)),
      experiences, projects, education, Meta(ctx.family, ctx.strategyVersion, at, SECTION_ORDER));
    dropped := ["summary"];
  }

  // ----- the fallback is grounded -----

  lemma {:induction false} JoinTokens(lex: Lexicon, parts: seq<string>, k: nat, i: nat)
    requires FoldsAlong(lex) && k < |parts| && i < |lex.tokenize(parts[k])|
    ensures exists j ::
      0 <= j < |lex.tokenize(JoinLines(parts))| && lex.tokenize(JoinLines(parts))[j] == lex.tokenize(parts[k])[i]
  {
    var n := |parts| - 1;
    if n == 0 {
      assert JoinLines(parts) == parts[k];
      assert lex.tokenize(JoinLines(parts))[i] == lex.tokenize(parts[k])[i];
    } else {
      var init := JoinLines(parts[..n]);
      assert lex.tokenize(init + "\n" + parts[n]) == lex.tokenize(init) + lex.tokenize(parts[n]);
      if k < n {
        JoinTokens(lex, parts[..n], k, i);
        var j :| 0 <= j < |lex.tokenize(init)| && lex.tokenize(init)[j] == lex.tokenize(parts[k])[i];
        assert lex.tokenize(JoinLines(parts))[j] == lex.tokenize(parts[k])[i];
      } else {
        assert lex.tokenize(JoinLines(parts))[|lex.tokenize(init)| + i] == lex.tokenize(parts[k])[i];
      }
    }
  }

  /** Every name in a corpus text is in the allowlist built from the corpus. */
  lemma CorpusTextAllowed(g: Ground, text: string)
    requires FoldsAlong(g.lex) && text in g.corpus
    ensures EntitiesGrounded(g, text)
  {
    var lex := g.lex;
    var k :| 0 <= k < |g.corpus| && g.corpus[k] == text;
    forall i | 0 <= i < |lex.tokens(text)| ensures EntityAllowed(g, lex.tokens(text)[i]) {
      JoinTokens(lex, g.corpus, k, i);
      var j :| 0 <= j < |lex.tokenize(Corpus(g))| && lex.tokenize(Corpus(g))[j] == lex.tokenize(text)[i];
      assert lex.lemmaOf(lex.tokenize(Corpus(g))[j]) in lex.LemmaSet(Corpus(g));
    }
  }

  /** A bullet that quotes one attached fact satisfies every rule, that on names exactly when the names of the
      fact are known to the corpus. */
  lemma QuotationSatisfies(g: Ground, entry: Entry, id: string, r: Rule)
    requires IsGround(g) && entry.experience in g.view.experiences && Attached(g, entry, id)
    ensures BulletSatisfies(g, entry, Bullet(g.view.facts[id].statement, [id]), r)
      <==> (r == Entities ==> EntitiesGrounded(g, g.view.facts[id].statement))
  {
    var text := g.view.facts[id].statement;
    assert Sources(g, entry, [id]) == [text] by {
      assert [id][..0] == [];
      assert Sources(g, entry, []) == [];
    }
    assert JoinLines([text]) == text;
  }

  lemma {:induction false} BulletsQuote(facts: map<string, Fact>, order: seq<string>, x: string, k: nat)
    requires forall id :: id in order ==> id in facts
    requires k < |BulletsFor(facts, order, x)|
    ensures exists id ::
      id in facts && HangsOff(facts[id], x) && BulletsFor(facts, order, x)[k] == Bullet(facts[id].statement, [id])
  {
    var n := |order| - 1;
    if k < |BulletsFor(facts, order[..n], x)| {
      BulletsQuote(facts, order[..n], x, k);
    } else {
      assert order[n] in order;
    }
  }

  lemma {:induction false} BulletsCover(facts: map<string, Fact>, order: seq<string>, x: string, id: string)
    requires forall i :: i in order ==> i in facts
    requires id in order && HangsOff(facts[id], x)
    ensures exists k :: 0 <= k < |BulletsFor(facts, order, x)| && BulletsFor(facts, order, x)[k].facts == [id]
  {
    var n := |order| - 1;
    if order[n] == id {
      assert BulletsFor(facts, order, x)[|BulletsFor(facts, order[..n], x)|].facts == [id];
    } else {
      assert order == order[..n] + [order[n]];
      BulletsCover(facts, order[..n], x, id);
      var k :| 0 <= k < |BulletsFor(facts, order[..n], x)| && BulletsFor(facts, order[..n], x)[k].facts == [id];
      assert BulletsFor(facts, order, x)[k].facts == [id];
    }
  }

  /** The names in the facts of this experience are known to the corpus. */
  predicate NamesKeptUnder(g: Ground, experience: string) {
    forall id :: id in g.view.facts && HangsOff(g.view.facts[id], experience) ==>
      EntitiesGrounded(g, g.view.facts[id].statement)
  }

  /** An entry built from its own row satisfies every rule of its section, that on names exactly when the
      names in its facts are known. */
  lemma EntryOfRowSatisfies(g: Ground, order: seq<string>, e: Experience, s: Section, r: Rule)
    requires IsGround(g) && Visits(order, g.view.facts)
    requires e.id in g.view.experiences && g.view.experiences[e.id] == e
    requires Rendered(g.view.facts, order, e, s)
    ensures EntrySatisfies(g, s, EntryFor(g.view.facts, order, e), r) <==> (r == Entities ==> NamesKeptUnder(g, e.id))
  {
    var entry := EntryFor(g.view.facts, order, e);
    forall k | 0 <= k < |entry.bullets| && (r == Entities ==> NamesKeptUnder(g, e.id))
      ensures BulletSatisfies(g, entry, entry.bullets[k], r)
    {
      BulletsQuote(g.view.facts, order, e.id, k);
      var id :| id in g.view.facts && HangsOff(g.view.facts[id], e.id)
        && entry.bullets[k] == Bullet(g.view.facts[id].statement, [id]);
      QuotationSatisfies(g, entry, id, r);
    }
    if EntrySatisfies(g, s, entry, Entities) {
      forall id | id in g.view.facts && HangsOff(g.view.facts[id], e.id)
        ensures EntitiesGrounded(g, g.view.facts[id].statement)
      {
        QuotedIsKnown(g, order, e, s, id);
      }
    }
  }

  lemma QuotedIsKnown(g: Ground, order: seq<string>, e: Experience, s: Section, id: string)
    requires IsGround(g) && Visits(order, g.view.facts) && e.id in g.view.experiences
    requires EntrySatisfies(g, s, EntryFor(g.view.facts, order, e), Entities)
    requires id in g.view.facts && HangsOff(g.view.facts[id], e.id)
    ensures EntitiesGrounded(g, g.view.facts[id].statement)
  {
    var entry := EntryFor(g.view.facts, order, e);
    BulletsCover(g.view.facts, order, e.id, id);
    var k :| 0 <= k < |entry.bullets| && entry.bullets[k].facts == [id];
    BulletsQuote(g.view.facts, order, e.id, k);
    assert entry.bullets[k] == Bullet(g.view.facts[id].statement, [id]);
    QuotationSatisfies(g, entry, id, Entities);
  }

  /** Each entry of a section comes from a row rendered there, and each such row gives an entry. */
  lemma {:induction false} SectionEntries(facts: map<string, Fact>, order: seq<string>, rows: seq<Experience>,
                                          s: Section)
    requires forall id :: id in order ==> id in facts
    ensures forall x :: x in SectionFor(facts, order, rows, s) <==>
      exists e :: e in rows && Rendered(facts, order, e, s) && x == EntryFor(facts, order, e)
  {
    if rows != [] {
      var n := |rows| - 1;
      SectionEntries(facts, order, rows[..n], s);
      assert rows == rows[..n] + [rows[n]];
    }
  }

  lemma InsertMembers(xs: seq<Entry>, x: Entry)
    ensures forall y :: y in InsertDescending(xs, x, EntryRank) <==> y in xs || y == x
  {
    if xs != [] {
      var n := |xs| - 1;
      assert xs == xs[..n] + [xs[n]];
    }
  }

  lemma RenderOnceOn(xs: seq<Entry>, x: Entry)
    requires RenderOnce(xs) && forall y :: y in xs ==> y.experience != x.experience
    ensures RenderOnce(xs + [x])
  {
  }

  lemma {:induction false} InsertRendersOnce(xs: seq<Entry>, x: Entry)
    requires RenderOnce(xs) && forall y :: y in xs ==> y.experience != x.experience
    ensures RenderOnce(InsertDescending(xs, x, EntryRank))
  {
    if xs == [] || KeyLeq(EntryRank(x), EntryRank(xs[|xs| - 1])) {
      RenderOnceOn(xs, x);
    } else {
      var n := |xs| - 1;
      InsertRendersOnce(xs[..n], x);
      InsertMembers(xs[..n], x);
      var ys := InsertDescending(xs[..n], x, EntryRank);
      forall y | y in ys ensures y.experience != xs[n].experience {
        if y in xs[..n] {
          var k :| 0 <= k < n && xs[k] == y;
        }
      }
      RenderOnceOn(ys, xs[n]);
    }
  }

  lemma {:induction false} SortMembers(xs: seq<Entry>)
    ensures forall y :: y in SortDescending(xs, EntryRank) <==> y in xs
    ensures RenderOnce(xs) ==> RenderOnce(SortDescending(xs, EntryRank))
  {
    if xs != [] {
      var n := |xs| - 1;
      assert xs == xs[..n] + [xs[n]];
      SortMembers(xs[..n]);
      InsertMembers(SortDescending(xs[..n], EntryRank), xs[n]);
      if RenderOnce(xs) {
        forall y | y in SortDescending(xs[..n], EntryRank) ensures y.experience != xs[n].experience {
          var k :| 0 <= k < n && xs[k] == y;
        }
        InsertRendersOnce(SortDescending(xs[..n], EntryRank), xs[n]);
      }
    }
  }

  lemma {:induction false} SectionRendersOnce(facts: map<string, Fact>, order: seq<string>, rows: seq<Experience>,
                                              s: Section)
    requires DistinctRows(rows) && forall id :: id in order ==> id in facts
    ensures RenderOnce(SectionFor(facts, order, rows, s))
  {
    if rows != [] {
      var n := |rows| - 1;
      SectionRendersOnce(facts, order, rows[..n], s);
      SectionEntries(facts, order, rows[..n], s);
      forall x | x in SectionFor(facts, order, rows[..n], s) ensures x.experience != rows[n].id {
        var e :| e in rows[..n] && Rendered(facts, order, e, s) && x == EntryFor(facts, order, e);
        var k :| 0 <= k < n && rows[k] == e;
      }
    }
  }

  /** Two sections never show the same row. */
  lemma SectionsDisjoint(facts: map<string, Fact>, order: seq<string>, rows: seq<Experience>, s: Section, t: Section,
                         x: Entry, y: Entry)
    requires DistinctRows(rows) && s != t && forall id :: id in order ==> id in facts
    requires x in SectionFor(facts, order, rows, s) && y in SectionFor(facts, order, rows, t)
    ensures x.experience != y.experience
  {
    SectionEntries(facts, order, rows, s);
    SectionEntries(facts, order, rows, t);
    var e :| e in rows && Rendered(facts, order, e, s) && x == EntryFor(facts, order, e);
    var d :| d in rows && Rendered(facts, order, d, t) && y == EntryFor(facts, order, d);
    RowFound(rows, e);
    RowFound(rows, d);
  }

  lemma JoinRendersOnce(a: seq<Entry>, b: seq<Entry>)
    requires RenderOnce(a) && RenderOnce(b) && forall x, y :: x in a && y in b ==> x.experience != y.experience
    ensures RenderOnce(a + b)
  {
    forall i, j | 0 <= i < j < |a + b| ensures (a + b)[i].experience != (a + b)[j].experience {
      if i < |a| <= j {
        assert a[i] in a && b[j - |a|] in b;
      }
    }
  }

  lemma VerbatimRendersOnce(ctx: Context, order: seq<string>, at: string)
    requires Visits(order, ViewOf(ctx).facts) && DistinctRows(ctx.experiences)
    ensures RenderOnce(Verbatim(ctx, order, at).AllEntries())
  {
    var facts, rows := ViewOf(ctx).facts, ctx.experiences;
    var a, b := SectionFor(facts, order, rows, Experiences), SectionFor(facts, order, rows, Projects);
    var c := SectionFor(facts, order, rows, Education);
    SectionRendersOnce(facts, order, rows, Experiences);
    SectionRendersOnce(facts, order, rows, Projects);
    SectionRendersOnce(facts, order, rows, Education);
    SortMembers(a);
    var sorted := SortDescending(a, EntryRank);
    forall x, y | x in sorted && y in b ensures x.experience != y.experience {
      SectionsDisjoint(facts, order, rows, Experiences, Projects, x, y);
    }
    JoinRendersOnce(sorted, b);
    forall x, y | x in sorted + b && y in c ensures x.experience != y.experience {
      if x in sorted {
        SectionsDisjoint(facts, order, rows, Experiences, Education, x, y);
      } else {
        SectionsDisjoint(facts, order, rows, Projects, Education, x, y);
      }
    }
    JoinRendersOnce(sorted + b, c);
  }

  /** An entry of the section its row belongs to. */
  lemma RowHasEntry(g: Ground, order: seq<string>, at: string, e: Experience)
    requires IsGround(g) && Visits(order, g.view.facts) && e in g.ctx.experiences
    requires Rendered(g.view.facts, order, e, SectionOf(e.kind))
    ensures EntryFor(g.view.facts, order, e) in EntriesOf(Verbatim(g.ctx, order, at), SectionOf(e.kind))
    ensures EntryFor(g.view.facts, order, e) in Verbatim(g.ctx, order, at).AllEntries()
  {
    var s := SectionOf(e.kind);
    SectionEntries(g.view.facts, order, g.ctx.experiences, s);
    SortMembers(SectionFor(g.view.facts, order, g.ctx.experiences, Experiences));
    assert EntryFor(g.view.facts, order, e) in SectionFor(g.view.facts, order, g.ctx.experiences, s);
  }

  /** Some fact that hangs off an experience hangs off one the context holds, or none does. */
  predicate Reachable(g: Ground) {
    HasBackedFact(g) ==> exists id :: id in g.view.facts && Reached(g, g.view.facts[id])
  }

  predicate Reached(g: Ground, f: Fact) {
    Backed(f) && f.experience.value in g.view.experiences
  }

  lemma ReachedIsRendered(g: Ground, order: seq<string>, at: string, id: string)
    requires IsGround(g) && Visits(order, g.view.facts) && DistinctRows(g.ctx.experiences)
    requires id in g.view.facts && Reached(g, g.view.facts[id])
    ensures var entries := Verbatim(g.ctx, order, at).AllEntries();
      exists k :: 0 <= k < |entries| && RendersFact(g, entries[k])
  {
    var f := g.view.facts[id];
    RowsHaveTheirIds(g.ctx.experiences);
    var e := g.view.experiences[f.experience.value];
    BulletsCover(g.view.facts, order, e.id, id);
    var entry := EntryFor(g.view.facts, order, e);
    RowHasEntry(g, order, at, e);
    var b :| 0 <= b < |entry.bullets| && entry.bullets[b].facts == [id];
    assert id in entry.bullets[b].facts && Attached(g, entry, id);
    var all := Verbatim(g.ctx, order, at).AllEntries();
    var k :| 0 <= k < |all| && all[k] == entry;
    assert RendersFact(g, all[k]);
  }

  lemma EntriesComeFromRows(g: Ground, order: seq<string>, at: string, x: Entry)
    requires IsGround(g) && Visits(order, g.view.facts)
    requires x in Verbatim(g.ctx, order, at).AllEntries()
    ensures exists e :: e in g.ctx.experiences && x == EntryFor(g.view.facts, order, e)
  {
    var facts, rows := g.view.facts, g.ctx.experiences;
    SectionEntries(facts, order, rows, Experiences);
    SectionEntries(facts, order, rows, Projects);
    SectionEntries(facts, order, rows, Education);
    SortMembers(SectionFor(facts, order, rows, Experiences));
  }

  lemma RenderedIsReached(g: Ground, order: seq<string>, at: string, k: nat)
    requires IsGround(g) && Visits(order, g.view.facts)
    requires k < |Verbatim(g.ctx, order, at).AllEntries()| && RendersFact(g, Verbatim(g.ctx, order, at).AllEntries()[k])
    ensures exists id :: id in g.view.facts && Reached(g, g.view.facts[id])
  {
    var x := Verbatim(g.ctx, order, at).AllEntries()[k];
    EntriesComeFromRows(g, order, at, x);
    var e :| e in g.ctx.experiences && x == EntryFor(g.view.facts, order, e);
    var b, id :| 0 <= b < |x.bullets| && id in x.bullets[b].facts && Attached(g, x, id);
    BulletsQuote(g.view.facts, order, e.id, b);
    RowsHaveTheirIds(g.ctx.experiences);
    assert Reached(g, g.view.facts[id]);
  }

  lemma VerbatimShowsRow(g: Ground, order: seq<string>, at: string, id: string)
    requires IsGround(g) && Visits(order, g.view.facts) && id in g.view.experiences
    ensures RowRendered(g, Verbatim(g.ctx, order, at), id)
  {
    RowsHaveTheirIds(g.ctx.experiences);
    var e := g.view.experiences[id];
    if SectionOf(e.kind) != Experiences {
      RowHasEntry(g, order, at, e);
      var entries := EntriesOf(Verbatim(g.ctx, order, at), SectionOf(e.kind));
      var k :| 0 <= k < |entries| && entries[k] == EntryFor(g.view.facts, order, e);
    }
  }

  predicate RendersSome(g: Ground, entries: seq<Entry>) {
    exists k :: 0 <= k < |entries| && RendersFact(g, entries[k])
  }

  lemma RendersWhatIsReached(g: Ground, order: seq<string>, at: string)
    requires IsGround(g) && Visits(order, g.view.facts) && DistinctRows(g.ctx.experiences)
    ensures RendersSome(g, Verbatim(g.ctx, order, at).AllEntries()) <==>
      exists id :: id in g.view.facts && Reached(g, g.view.facts[id])
  {
    if id :| id in g.view.facts && Reached(g, g.view.facts[id]) {
      ReachedIsRendered(g, order, at, id);
    }
    var entries := Verbatim(g.ctx, order, at).AllEntries();
    if k :| 0 <= k < |entries| && RendersFact(g, entries[k]) {
      RenderedIsReached(g, order, at, k);
    }
  }

  lemma VerbatimCompleteness(g: Ground, order: seq<string>, at: string)
    requires IsGround(g) && Visits(order, g.view.facts) && DistinctRows(g.ctx.experiences)
    ensures CompletenessSatisfies(g, Verbatim(g.ctx, order, at)) <==> Reachable(g)
  {
    VerbatimRendersOnce(g.ctx, order, at);
    forall id | id in g.view.experiences ensures RowRendered(g, Verbatim(g.ctx, order, at), id) {
      VerbatimShowsRow(g, order, at, id);
    }
    RendersWhatIsReached(g, order, at);
    assert CompletenessSatisfies(g, Verbatim(g.ctx, order, at)) <==>
      (HasBackedFact(g) ==> RendersSome(g, Verbatim(g.ctx, order, at).AllEntries()));
  }

  /** A capability row has one name. */
  ghost predicate OneName(selections: seq<Selection>) {
    forall s, t :: s in selections && t in selections && s.capability == t.capability ==> s.name == t.name
  }

  lemma {:induction false} CoveredAre(selections: seq<Selection>)
    ensures forall s :: s in Covered(selections) <==> s in selections && s.facts != []
  {
    if selections != [] {
      var n := |selections| - 1;
      CoveredAre(selections[..n]);
      assert selections == selections[..n] + [selections[n]];
    }
  }

  lemma {:induction false} NamesAre(selections: seq<Selection>)
    ensures forall s :: s in selections ==> s.capability in NamesById(selections)
    ensures forall id :: id in NamesById(selections) ==>
      exists s :: s in selections && s.capability == id && s.name == NamesById(selections)[id]
  {
    if selections != [] {
      var n := |selections| - 1;
      NamesAre(selections[..n]);
      assert selections == selections[..n] + [selections[n]];
      forall id | id in NamesById(selections)
        ensures exists s :: s in selections && s.capability == id && s.name == NamesById(selections)[id]
      {
        if id == selections[n].capability {
          assert selections[n] in selections;
        } else {
          assert id in NamesById(selections[..n]) && NamesById(selections)[id] == NamesById(selections[..n])[id];
          var s :| s in selections[..n] && s.capability == id && s.name == NamesById(selections[..n])[id];
          assert s in selections;
        }
      }
    }
  }

  lemma {:induction false} SkillsAre(covered: seq<Selection>)
    ensures |SkillsFor(covered)| == |covered|
    ensures forall k :: 0 <= k < |covered| ==> SkillsFor(covered)[k] == Skill(covered[k].name, [covered[k].capability])
  {
    if covered != [] {
      SkillsAre(covered[..|covered| - 1]);
    }
  }

  /** Each covered capability shows the name it is known by, up to normalization. */
  ghost predicate NamedAlike(g: Ground) {
    forall s :: s in Covered(g.ctx.selections) ==> ShowsName(g, s)
  }

  predicate ShowsName(g: Ground, s: Selection) {
    s.capability in g.view.capabilities && g.lex.Normalize(s.name) == g.lex.Normalize(g.view.capabilities[s.capability])
  }

  lemma OneNameIsAlike(g: Ground)
    requires IsGround(g) && OneName(g.ctx.selections)
    ensures NamedAlike(g)
  {
    var covered := Covered(g.ctx.selections);
    CoveredAre(g.ctx.selections);
    NamesAre(covered);
    forall s | s in covered ensures ShowsName(g, s) {
      var t :| t in covered && t.capability == s.capability && t.name == NamesById(covered)[s.capability];
    }
  }

  lemma OneSkill(g: Ground, s: Selection)
    requires IsGround(g) && s in Covered(g.ctx.selections)
    ensures SkillSatisfies(g, Skill(s.name, [s.capability])) <==> ShowsName(g, s)
  {
    CoveredAre(g.ctx.selections);
    NamesAre(Covered(g.ctx.selections));
    assert s.capability in [s.capability] && CapabilityCovered(g, s.capability);
  }

  lemma VerbatimSkills(g: Ground)
    requires IsGround(g)
    ensures SkillsSatisfy(g, SkillsFor(Covered(g.ctx.selections))) <==> NamedAlike(g)
  {
    var covered := Covered(g.ctx.selections);
    SkillsAre(covered);
    forall k | 0 <= k < |covered| ensures SkillSatisfies(g, SkillsFor(covered)[k]) <==> ShowsName(g, covered[k]) {
      OneSkill(g, covered[k]);
    }
    assert forall s :: s in covered <==> exists k :: 0 <= k < |covered| && covered[k] == s;
  }

  lemma RenderedMore(g: Ground, links: seq<string>, value: string)
    ensures RenderedLinks(g, links + [value]) == RenderedLinks(g, links) + {g.lex.normalizeChars(value)}
  {
    var more := links + [value];
    forall x | x in RenderedLinks(g, links) ensures x in RenderedLinks(g, more) {
      var k :| 0 <= k < |links| && g.lex.normalizeChars(links[k]) == x;
      assert more[k] == links[k];
    }
    assert more[|links|] == value;
  }

  lemma FieldsMore(g: Ground, fields: seq<string>)
    requires fields != []
    ensures var n := |fields| - 1; var value := Lookup(g.view.profile, fields[n]);
      FieldValues(g, fields) == FieldValues(g, fields[..n]) + if value != "" then {g.lex.normalizeChars(value)} else {}
  {
    var n := |fields| - 1;
    forall x | x in FieldValues(g, fields[..n]) ensures x in FieldValues(g, fields) {
      var k :| 0 <= k < n && Lookup(g.view.profile, fields[..n][k]) != ""
        && g.lex.normalizeChars(Lookup(g.view.profile, fields[..n][k])) == x;
      assert fields[..n][k] == fields[k];
    }
    var value := Lookup(g.view.profile, fields[n]);
    forall x | x in FieldValues(g, fields)
      ensures x in FieldValues(g, fields[..n]) || (value != "" && x == g.lex.normalizeChars(value))
    {
      var k :| 0 <= k < |fields| && Lookup(g.view.profile, fields[k]) != ""
        && g.lex.normalizeChars(Lookup(g.view.profile, fields[k])) == x;
      if k < n {
        assert fields[..n][k] == fields[k];
      }
    }
  }

  lemma {:induction false} PresentLinks(g: Ground, fields: seq<string>)
    ensures RenderedLinks(g, PresentValues(g.view.profile, fields)) == FieldValues(g, fields)
  {
    if fields != [] {
      var n := |fields| - 1;
      PresentLinks(g, fields[..n]);
      FieldsMore(g, fields);
      var before := PresentValues(g.view.profile, fields[..n]);
      assert before + [] == before;
      RenderedMore(g, before, Lookup(g.view.profile, fields[n]));
    } else {
      assert RenderedLinks(g, []) == {} == FieldValues(g, fields);
    }
  }

  /** Header, headline and identity are stamped in code and always pass, whatever else the model says. */
  lemma StampedSatisfies(g: Ground, cv: Cv, r: Rule)
    requires Lawful(g.lex) && IsGround(g)
    requires cv.header == BuildHeader(g.ctx) && cv.headline == BuildHeadline(g.ctx)
    requires cv.meta.family == g.ctx.family && cv.meta.strategyVersion == g.ctx.strategyVersion
    requires cv.meta.sectionOrder == SECTION_ORDER
    ensures MetaSatisfies(g, cv, r) && HeaderSatisfies(g, cv) && HeadlineSatisfies(g, cv)
  {
    PresentLinks(g, LINK_FIELDS);
  }

  /** The entry shows the dates of its row. */
  predicate DatedAsRow(g: Ground, x: Entry) {
    x.experience in g.view.experiences
    && g.view.experiences[x.experience].start == x.start && g.view.experiences[x.experience].end == x.end
  }

  lemma {:induction false} KeysOfRows(g: Ground, entries: seq<Entry>)
    requires forall x :: x in entries ==> DatedAsRow(g, x)
    ensures |CanonicalKeys(g, entries)| == |entries|
    ensures forall i :: 0 <= i < |entries| ==> CanonicalKeys(g, entries)[i] == EntryRank(entries[i])
  {
    if entries != [] {
      var n := |entries| - 1;
      assert entries == entries[..n] + [entries[n]];
      assert DatedAsRow(g, entries[n]);
      KeysOfRows(g, entries[..n]);
    }
  }

  lemma KeysDescend(xs: seq<Entry>, keys: seq<Key>)
    requires Descending(xs, EntryRank) && |keys| == |xs| && forall i :: 0 <= i < |xs| ==> keys[i] == EntryRank(xs[i])
    ensures Descending(keys, (k: Key) => k)
  {
    forall i, j | 0 <= i < j < |keys| ensures KeyLeq(keys[j], keys[i]) {
      assert KeyLeq(EntryRank(xs[j]), EntryRank(xs[i]));
    }
  }

  lemma SectionDatedAsRows(g: Ground, order: seq<string>)
    requires IsGround(g) && Visits(order, g.view.facts) && DistinctRows(g.ctx.experiences)
    ensures forall x :: x in SectionFor(g.view.facts, order, g.ctx.experiences, Experiences) ==> DatedAsRow(g, x)
  {
    var facts, rows := g.view.facts, g.ctx.experiences;
    SectionEntries(facts, order, rows, Experiences);
    forall x | x in SectionFor(facts, order, rows, Experiences) ensures DatedAsRow(g, x) {
      var e :| e in rows && Rendered(facts, order, e, Experiences) && x == EntryFor(facts, order, e);
      RowFound(rows, e);
      assert EntryFor(facts, order, e).experience == e.id;
    }
  }

  lemma VerbatimOrder(g: Ground, order: seq<string>, at: string)
    requires IsGround(g) && Visits(order, g.view.facts) && DistinctRows(g.ctx.experiences)
    ensures OrderSatisfies(g, Verbatim(g.ctx, order, at))
  {
    var section := SectionFor(g.view.facts, order, g.ctx.experiences, Experiences);
    var sorted := SortDescending(section, EntryRank);
    SortSorts(section, EntryRank);
    SortMembers(section);
    SectionDatedAsRows(g, order);
    KeysOfRows(g, sorted);
    KeysDescend(sorted, CanonicalKeys(g, sorted));
  }

  /** The names in every fact the fallback quotes are known to the corpus, folded as the verifier folds them. */
  predicate NamesKept(g: Ground) {
    forall id :: id in g.view.facts && Reached(g, g.view.facts[id]) ==> EntitiesGrounded(g, g.view.facts[id].statement)
  }

  lemma SectionSatisfies(g: Ground, order: seq<string>, s: Section, entries: seq<Entry>, r: Rule)
    requires IsGround(g) && Visits(order, g.view.facts) && DistinctRows(g.ctx.experiences)
    requires forall x :: x in entries ==> x in SectionFor(g.view.facts, order, g.ctx.experiences, s)
    ensures (r == Entities ==> NamesKept(g)) ==> EntriesSatisfy(g, s, entries, r)
  {
    SectionEntries(g.view.facts, order, g.ctx.experiences, s);
    forall k | 0 <= k < |entries| && (r == Entities ==> NamesKept(g)) ensures EntrySatisfies(g, s, entries[k], r) {
      assert entries[k] in entries;
      var e :| e in g.ctx.experiences && Rendered(g.view.facts, order, e, s)
            && entries[k] == EntryFor(g.view.facts, order, e);
      RowFound(g.ctx.experiences, e);
      if r == Entities {
        assert NamesKeptUnder(g, e.id);
      }
      EntryOfRowSatisfies(g, order, e, s, r);
    }
  }

  lemma SectionEntrySatisfies(g: Ground, cv: Cv, s: Section, entry: Entry, r: Rule)
    requires Satisfies(g, cv, r) && entry in EntriesOf(cv, s)
    ensures EntrySatisfies(g, s, entry, r)
  {
  }

  /** Conversely, a fact reached is quoted somewhere, and the rule on names is put to it there. */
  lemma ReachedIsKnown(g: Ground, order: seq<string>, at: string, id: string)
    requires IsGround(g) && Visits(order, g.view.facts) && DistinctRows(g.ctx.experiences)
    requires id in g.view.facts && Reached(g, g.view.facts[id]) && Satisfies(g, Verbatim(g.ctx, order, at), Entities)
    ensures EntitiesGrounded(g, g.view.facts[id].statement)
  {
    var e := ReachedHasEntry(g, order, at, id);
    SectionEntrySatisfies(g, Verbatim(g.ctx, order, at), SectionOf(e.kind), EntryFor(g.view.facts, order, e), Entities);
    QuotedIsKnown(g, order, e, SectionOf(e.kind), id);
  }

  lemma ReachedHasEntry(g: Ground, order: seq<string>, at: string, id: string) returns (e: Experience)
    requires IsGround(g) && Visits(order, g.view.facts) && DistinctRows(g.ctx.experiences)
    requires id in g.view.facts && Reached(g, g.view.facts[id])
    ensures e.id in g.view.experiences && HangsOff(g.view.facts[id], e.id)
    ensures EntryFor(g.view.facts, order, e) in EntriesOf(Verbatim(g.ctx, order, at), SectionOf(e.kind))
  {
    RowsHaveTheirIds(g.ctx.experiences);
    e := g.view.experiences[g.view.facts[id].experience.value];
    BulletsCover(g.view.facts, order, e.id, id);
    RowHasEntry(g, order, at, e);
  }

  /** The fallback satisfies every rule but three: coverage exactly when some backed fact is reachable
      through an experience of the context (or no fact is backed), skills exactly when each covered
      capability shows the name it is known by, and names exactly when those of the quoted facts are known. */
  lemma VerbatimSatisfies(g: Ground, order: seq<string>, at: string, r: Rule)
    requires Lawful(g.lex) && IsGround(g) && Visits(order, g.view.facts) && DistinctRows(g.ctx.experiences)
    ensures Satisfies(g, Verbatim(g.ctx, order, at), r) <==>
      (r == Coverage ==> Reachable(g)) && (r == SkillsRule ==> NamedAlike(g)) && (r == Entities ==> NamesKept(g))
  {
    var cv := Verbatim(g.ctx, order, at);
    StampedSatisfies(g, cv, r);
    VerbatimSkills(g);
    SectionsSatisfy(g, order, at, r);
    VerbatimOrder(g, order, at);
    VerbatimCompleteness(g, order, at);
    RulesApart(g, cv, r);
    if r == Entities && Satisfies(g, cv, r) {
      AllAreKnown(g, order, at);
    }
  }

  /** What is left of a rule for a model without a summary whose header, headline, identity and order hold. */
  lemma RulesApart(g: Ground, cv: Cv, r: Rule)
    requires Lawful(g.lex) && cv.summary == ""
    requires MetaSatisfies(g, cv, r) && HeaderSatisfies(g, cv) && HeadlineSatisfies(g, cv) && OrderSatisfies(g, cv)
    ensures Satisfies(g, cv, r) <==>
      && (r == SkillsRule ==> SkillsSatisfy(g, cv.skills)) && SectionsHold(g, cv, r)
      && (r == Coverage ==> CompletenessSatisfies(g, cv))
  {
    assert SummarySatisfies(g, cv, r);
  }

  predicate SectionsHold(g: Ground, cv: Cv, r: Rule) {
    && EntriesSatisfy(g, Experiences, cv.experiences, r)
    && EntriesSatisfy(g, Projects, cv.projects, r)
    && EntriesSatisfy(g, Education, cv.education, r)
  }

  lemma SectionsSatisfy(g: Ground, order: seq<string>, at: string, r: Rule)
    requires IsGround(g) && Visits(order, g.view.facts) && DistinctRows(g.ctx.experiences)
    ensures (r == Entities ==> NamesKept(g)) ==> SectionsHold(g, Verbatim(g.ctx, order, at), r)
  {
    var cv := Verbatim(g.ctx, order, at);
    SortMembers(SectionFor(g.view.facts, order, g.ctx.experiences, Experiences));
    SectionSatisfies(g, order, Experiences, cv.experiences, r);
    SectionSatisfies(g, order, Projects, cv.projects, r);
    SectionSatisfies(g, order, Education, cv.education, r);
  }

  lemma AllAreKnown(g: Ground, order: seq<string>, at: string)
    requires IsGround(g) && Visits(order, g.view.facts) && DistinctRows(g.ctx.experiences)
    requires Satisfies(g, Verbatim(g.ctx, order, at), Entities)
    ensures NamesKept(g)
  {
    forall id | id in g.view.facts && Reached(g, g.view.facts[id])
      ensures EntitiesGrounded(g, g.view.facts[id].statement)
    {
      ReachedIsKnown(g, order, at, id);
    }
  }

  /** The fallback is grounded exactly on these three conditions, each on the context alone. */
  lemma VerbatimGrounded(g: Ground, order: seq<string>, at: string)
    requires Lawful(g.lex) && IsGround(g) && Visits(order, g.view.facts) && DistinctRows(g.ctx.experiences)
    ensures Grounded(g, Verbatim(g.ctx, order, at)) <==> Reachable(g) && NamedAlike(g) && NamesKept(g)
  {
    var cv := Verbatim(g.ctx, order, at);
    forall r ensures Satisfies(g, cv, r) <==>
      (r == Coverage ==> Reachable(g)) && (r == SkillsRule ==> NamedAlike(g)) && (r == Entities ==> NamesKept(g))
    {
      VerbatimSatisfies(g, order, at, r);
    }
    assert Satisfies(g, cv, Coverage) <==> Reachable(g);
    assert Satisfies(g, cv, SkillsRule) <==> NamedAlike(g);
    assert Satisfies(g, cv, Entities) <==> NamesKept(g);
  }

  lemma UnknownNameFails(g: Ground, order: seq<string>, at: string, id: string)
    requires IsGround(g) && Visits(order, g.view.facts) && DistinctRows(g.ctx.experiences)
    requires id in g.view.facts && Reached(g, g.view.facts[id]) && !EntitiesGrounded(g, g.view.facts[id].statement)
    ensures !Grounded(g, Verbatim(g.ctx, order, at))
  {
    if Satisfies(g, Verbatim(g.ctx, order, at), Entities) {
      ReachedIsKnown(g, order, at, id);
    }
  }

  /** Where case folding commutes with tokenizing, every quoted name is known. */
  lemma FoldingKeepsNames(g: Ground)
    requires FoldsAlong(g.lex) && IsGround(g)
    ensures NamesKept(g)
  {
    forall id | id in g.view.facts && Reached(g, g.view.facts[id])
      ensures EntitiesGrounded(g, g.view.facts[id].statement)
    {
      assert Renderable(g.view, g.view.facts[id].statement);
      CorpusTextAllowed(g, g.view.facts[id].statement);
    }
  }

  /** In particular, when every backed fact's experience is in the context. */
  lemma VerbatimAlwaysGrounded(g: Ground, order: seq<string>, at: string)
    requires Lawful(g.lex) && FoldsAlong(g.lex) && IsGround(g) && Visits(order, g.view.facts)
    requires DistinctRows(g.ctx.experiences) && OneName(g.ctx.selections)
    requires forall id :: id in g.view.facts && Backed(g.view.facts[id]) ==>
      g.view.facts[id].experience.value in g.view.experiences
    ensures Grounded(g, Verbatim(g.ctx, order, at))
  {
    VerbatimGrounded(g, order, at);
    OneNameIsAlike(g);
    FoldingKeepsNames(g);
    if HasBackedFact(g) {
      var id :| id in g.view.facts && Backed(g.view.facts[id]);
      assert Reached(g, g.view.facts[id]);
    }
  }

  /** A context that targets one capability whose only fact hangs off an experience the context lacks. */
  function Stranded(lex: Lexicon, fact: Fact): Ground {
    var ctx := Context("", "", 1, [Selection("c", "skill", [fact])], map[], []);
    Ground(lex, ctx, ViewOf(ctx), [fact.statement, "skill"], [])
  }

  lemma StrandedView(lex: Lexicon, fact: Fact)
    ensures Stranded(lex, fact).view == View(map[fact.id := fact], map[], map[], map["c" := "skill"])
    ensures IsGround(Stranded(lex, fact))
  {
    var g := Stranded(lex, fact);
    var s := Selection("c", "skill", [fact]);
    assert [s][..0] == [] && [fact][..0] == [];
    assert AllFacts([s]) == AllFacts([]) + [fact] == [fact];
    assert FactsById([fact]) == FactsById([])[fact.id := fact] == map[fact.id := fact];
    assert Covered([s]) == Covered([]) + [s] == [s];
    assert NamesById([s]) == NamesById([])["c" := "skill"] == map["c" := "skill"];
    assert g.view.facts[fact.id].statement == fact.statement;
    assert g.view.capabilities["c"] in g.view.capabilities.Values;
  }

  lemma UnreachedFails(g: Ground, order: seq<string>, at: string)
    requires IsGround(g) && Visits(order, g.view.facts) && DistinctRows(g.ctx.experiences) && !Reachable(g)
    ensures !Grounded(g, Verbatim(g.ctx, order, at))
  {
    VerbatimCompleteness(g, order, at);
    assert !Satisfies(g, Verbatim(g.ctx, order, at), Coverage);
  }

  /** The fallback of such a context renders no fact, and the verifier rejects it, whatever the text functions. */
  lemma StrandedFails(lex: Lexicon, fact: Fact, at: string)
    requires Backed(fact)
    ensures var g := Stranded(lex, fact);
      && IsGround(g) && DistinctRows(g.ctx.experiences) && Visits([fact.id], g.view.facts)
      && !Grounded(g, Verbatim(g.ctx, [fact.id], at))
  {
    StrandedView(lex, fact);
    assert Backed(Stranded(lex, fact).view.facts[fact.id]);
    UnreachedFails(Stranded(lex, fact), [fact.id], at);
  }

  // ----- the drafting loop -----

  datatype Draft = Draft(cv: Cv, findings: seq<Finding>, attempts: nat, fallback: bool, dropped: seq<string>)

  /** What the code stamps over a parsed model output. */
  function Stamped(ctx: Context, cv: Cv, at: string): Cv {
    cv.(header := BuildHeader(ctx), headline := BuildHeadline(ctx),
        meta := cv.meta.(family := ctx.family, strategyVersion := ctx.strategyVersion, generatedAt := at))
  }

  function StampedOutput(ctx: Context, output: Option<Cv>, at: string): Option<Cv> {
    if output.Some? then Some(Stamped(ctx, output.value, at)) else None
  }

  ghost predicate Acceptable(g: Ground, output: Option<Cv>, at: string) {
    output.Some? && Grounded(g, Stamped(g.ctx, output.value, at))
  }

  /** Up to three drafts: the first the verifier passes, stamped, and how many were asked for. */
  method TryDrafts(v: GroundingVerifier, outputs: seq<Option<Cv>>, at: string) returns (cv: Option<Cv>, attempts: nat)
    requires v.Valid() && |outputs| == MAX_DRAFT_ATTEMPTS
    ensures attempts <= |outputs| && (cv.None? ==> attempts == |outputs|)
    ensures cv.Some? ==> attempts > 0 && Acceptable(v.g, outputs[attempts - 1], at)
    ensures cv.Some? ==> cv.value == Stamped(v.g.ctx, outputs[attempts - 1].value, at)
    ensures forall k :: 0 <= k < (if cv.Some? then attempts - 1 else attempts) ==> !Acceptable(v.g, outputs[k], at)
  {
    attempts := 0;
    while attempts < MAX_DRAFT_ATTEMPTS
      invariant 0 <= attempts <= MAX_DRAFT_ATTEMPTS
      invariant forall k :: 0 <= k < attempts ==> !Acceptable(v.g, outputs[k], at)
    {
      attempts := attempts + 1;
      if outputs[attempts - 1].None? {
        continue;
      }
      var draft := Stamped(v.g.ctx, outputs[attempts - 1].value, at);
      var findings := v.Verify(draft);
      if findings == [] {
        return Some(draft), attempts;
      }
    }
    cv := None;
  }

  /** The context is one the fallback is bound to succeed on. */
  ghost predicate FallbackHolds(g: Ground) {
    Lawful(g.lex) && DistinctRows(g.ctx.experiences) && NamedAlike(g) && Reachable(g) && NamesKept(g)
  }

  /** The verbatim model, verified like any draft. */
  method FallBack(v: GroundingVerifier, order: seq<string>, at: string)
    returns (cv: Cv, findings: seq<Finding>, dropped: seq<string>)
    requires v.Valid() && Visits(order, v.g.view.facts)
    ensures cv == Verbatim(v.g.ctx, order, at) && dropped == ["summary"]
    ensures findings == [] <==> Grounded(v.g, cv)
    ensures FallbackHolds(v.g) ==> findings == []
  {
    cv, dropped := BuildVerbatimModel(v.g.ctx, order, at);
    findings := v.Verify(cv);
    if FallbackHolds(v.g) {
      VerbatimGrounded(v.g, order, at);
    }
  }

  /** Draft with bounded retries, then fall back. `outputs` is what parsing each model call yields;
      `named` are the named failures handed in, all of which must say something. */
  method DraftCv(v: GroundingVerifier, outputs: seq<Option<Cv>>, named: seq<string>, order: seq<string>, at: string)
    returns (r: Result<Draft, ()>)
    requires v.Valid() && |outputs| == MAX_DRAFT_ATTEMPTS && Visits(order, v.g.view.facts)
    ensures r.Err? <==> exists f :: f in named && Blank(f)
    ensures r.Ok? ==> (r.value.findings == [] <==> Grounded(v.g, r.value.cv))
    ensures r.Ok? ==> (r.value.fallback <==> forall k :: 0 <= k < |outputs| ==> !Acceptable(v.g, outputs[k], at))
    ensures r.Ok? && !r.value.fallback ==> 1 <= r.value.attempts <= |outputs| && r.value.findings == []
    ensures r.Ok? && !r.value.fallback ==>
      Some(r.value.cv) == StampedOutput(v.g.ctx, outputs[r.value.attempts - 1], at)
    ensures r.Ok? && r.value.fallback ==> r.value.cv == Verbatim(v.g.ctx, order, at) && r.value.dropped == ["summary"]
    ensures r.Ok? && FallbackHolds(v.g) ==> r.value.findings == []
  {
    if exists f :: f in named && Blank(f) {
      return Err(());
    }
    var accepted, attempts := TryDrafts(v, outputs, at);
    if accepted.Some? {
      return Ok(Draft(accepted.value, [], attempts, false, []));
    }
    var cv, findings, dropped := FallBack(v, order, at);
    return Ok(Draft(cv, findings, attempts, true, dropped));
  }
}
