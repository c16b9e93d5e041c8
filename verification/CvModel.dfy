/** The generation context, its renderable view, and the CV content model
    (packages/domain/context.py, cv_model.py, selection.py). An absent optional text is "". */
module CvModel {
  import opened Basics
  import Dates

  datatype Kind = Role | Venture | OtherKind | Project | EducationKind

  datatype Experience = Experience(id: string, kind: Kind, title: string, org: string, start: string, end: string)

  datatype Fact = Fact(id: string, statement: string, experience: Option<string>)

  /** A targeted capability with the facts its evidence chains end in. */
  datatype Selection = Selection(capability: string, name: string, facts: seq<Fact>)

  datatype Context = Context(
    family: string, familyName: string, strategyVersion: int,
    selections: seq<Selection>, profile: map<string, string>, experiences: seq<Experience>)

  datatype Header = Header(name: string, email: string, phone: string, location: string, links: seq<string>)

  datatype Skill = Skill(name: string, capabilities: seq<string>)

  datatype Bullet = Bullet(text: string, facts: seq<string>)

  datatype Entry = Entry(
    experience: string, title: string, org: string, start: string, end: string,
    bullets: seq<Bullet>, location: Option<string>)

  datatype Meta = Meta(family: string, strategyVersion: int, generatedAt: string, sectionOrder: seq<string>)

  datatype Cv = Cv(
    header: Header, headline: Option<string>, summary: string, skills: seq<Skill>,
    experiences: seq<Entry>, projects: seq<Entry>, education: seq<Entry>, meta: Meta)
  {
    function AllEntries(): seq<Entry> { experiences + projects + education }
  }

  datatype Section = Experiences | Projects | Education

  const SECTION_ORDER := ["contact", "summary", "skills", "experience", "projects", "education"]
  const LINK_FIELDS := ["linkedin_url", "github_url", "portfolio_url", "website_url"]

  function EntriesOf(cv: Cv, s: Section): seq<Entry> {
    match s
    case Experiences => cv.experiences
    case Projects => cv.projects
    case Education => cv.education
  }

  /** The section a kind of experience belongs in. */
  function SectionOf(k: Kind): Section {
    match k
    case Project => Projects
    case EducationKind => Education
    case _ => Experiences
  }

  function Lookup(profile: map<string, string>, key: string): string {
    if key in profile then profile[key] else ""
  }

  // ----- the renderable view -----

  function AllFacts(selections: seq<Selection>): seq<Fact> {
    if selections == [] then []
    else AllFacts(selections[..|selections| - 1]) + selections[|selections| - 1].facts
  }

  /** A dictionary filled in order: a later value replaces an earlier one under the same key. */
  function FactsById(facts: seq<Fact>): map<string, Fact> {
    if facts == [] then map[]
    else FactsById(facts[..|facts| - 1])[facts[|facts| - 1].id := facts[|facts| - 1]]
  }

  function RowsById(rows: seq<Experience>): map<string, Experience> {
    if rows == [] then map[]
    else RowsById(rows[..|rows| - 1])[rows[|rows| - 1].id := rows[|rows| - 1]]
  }

  function Covered(selections: seq<Selection>): seq<Selection> {
    if selections == [] then []
    else
      var last := selections[|selections| - 1];
      Covered(selections[..|selections| - 1]) + if last.facts != [] then [last] else []
  }

  function NamesById(selections: seq<Selection>): map<string, string> {
    if selections == [] then map[]
    else
      var last := selections[|selections| - 1];
      NamesById(selections[..|selections| - 1])[last.capability := last.name]
  }

  datatype View = View(
    facts: map<string, Fact>, experiences: map<string, Experience>, profile: map<string, string>,
    capabilities: map<string, string>)

  function ViewOf(ctx: Context): View {
    View(FactsById(AllFacts(ctx.selections)), RowsById(ctx.experiences), ctx.profile,
      NamesById(Covered(ctx.selections)))
  }

  /** facts_for_capability is not empty. */
  predicate HasFacts(selections: seq<Selection>, capability: string) {
    exists s :: s in selections && s.capability == capability && s.facts != []
  }

  lemma {:induction false} FactsHaveTheirIds(facts: seq<Fact>)
    ensures forall id :: id in FactsById(facts) ==> FactsById(facts)[id].id == id && FactsById(facts)[id] in facts
    ensures forall f :: f in facts ==> f.id in FactsById(facts)
  {
    if facts != [] {
      var n := |facts| - 1;
      FactsHaveTheirIds(facts[..n]);
      assert facts == facts[..n] + [facts[n]];
    }
  }

  lemma {:induction false} RowsHaveTheirIds(rows: seq<Experience>)
    ensures forall id :: id in RowsById(rows) ==> RowsById(rows)[id].id == id && RowsById(rows)[id] in rows
    ensures forall e :: e in rows ==> e.id in RowsById(rows)
  {
    if rows != [] {
      var n := |rows| - 1;
      RowsHaveTheirIds(rows[..n]);
      assert rows == rows[..n] + [rows[n]];
    }
  }

  ghost predicate DistinctRows(rows: seq<Experience>) {
    forall i, j :: 0 <= i < j < |rows| ==> rows[i].id != rows[j].id
  }

  /** With one row per id, a row is found under its own id. */
  lemma RowFound(rows: seq<Experience>, e: Experience)
    requires DistinctRows(rows) && e in rows
    ensures e.id in RowsById(rows) && RowsById(rows)[e.id] == e
  {
    RowsHaveTheirIds(rows);
    var i :| 0 <= i < |rows| && rows[i] == e;
    var j :| 0 <= j < |rows| && rows[j] == RowsById(rows)[e.id];
    assert rows[i].id == rows[j].id;
    assert i == j;
  }

  // ----- reverse-chronological order -----

  type Key = (Dates.Rank, Dates.Rank)

  function ChronRank(start: string, end: string): Key {
    (Dates.EndRank(end), Dates.StartRank(start))
  }

  predicate KeyLeq(a: Key, b: Key) {
    if a.0 == b.0 then Dates.RankLeq(a.1, b.1) else Dates.RankLeq(a.0, b.0)
  }

  predicate Descending<T>(xs: seq<T>, key: T -> Key) {
    forall i, j :: 0 <= i < j < |xs| ==> KeyLeq(key(xs[j]), key(xs[i]))
  }

  /** Stable: x goes behind everything that does not rank below it. */
  function InsertDescending<T>(xs: seq<T>, x: T, key: T -> Key): seq<T> {
    if xs == [] then [x]
    else
      var last := xs[|xs| - 1];
      if KeyLeq(key(x), key(last)) then xs + [x] else InsertDescending(xs[..|xs| - 1], x, key) + [last]
  }

  /** sort(key, reverse=True) */
  function SortDescending<T>(xs: seq<T>, key: T -> Key): seq<T> {
    if xs == [] then [] else InsertDescending(SortDescending(xs[..|xs| - 1], key), xs[|xs| - 1], key)
  }

  lemma LastCounts<T>(xs: seq<T>)
    requires xs != []
    ensures multiset(xs) == multiset(xs[..|xs| - 1]) + multiset{xs[|xs| - 1]}
  {
    assert xs == xs[..|xs| - 1] + [xs[|xs| - 1]];
  }

  lemma {:induction false} InsertAdds<T>(xs: seq<T>, x: T, key: T -> Key)
    ensures multiset(InsertDescending(xs, x, key)) == multiset(xs) + multiset{x}
  {
    if xs != [] {
      var n := |xs| - 1;
      LastCounts(xs);
      if !KeyLeq(key(x), key(xs[n])) {
        InsertAdds(xs[..n], x, key);
      }
    }
  }

  lemma KeyTotal(a: Key, b: Key)
    ensures KeyLeq(a, b) || KeyLeq(b, a)
  {
  }

  lemma KeyChain(a: Key, b: Key, c: Key)
    requires KeyLeq(a, b) && KeyLeq(b, c)
    ensures KeyLeq(a, c)
  {
  }

  lemma DescendingOn<T>(xs: seq<T>, x: T, key: T -> Key)
    requires Descending(xs, key) && forall i :: 0 <= i < |xs| ==> KeyLeq(key(x), key(xs[i]))
    ensures Descending(xs + [x], key)
  {
  }

  lemma {:induction false} InsertDescends<T>(xs: seq<T>, x: T, key: T -> Key)
    requires Descending(xs, key)
    ensures Descending(InsertDescending(xs, x, key), key)
  {
    if xs != [] {
      var n := |xs| - 1;
      if KeyLeq(key(x), key(xs[n])) {
        forall i | 0 <= i < |xs| ensures KeyLeq(key(x), key(xs[i])) {
          if i < n {
            KeyChain(key(x), key(xs[n]), key(xs[i]));
          }
        }
        DescendingOn(xs, x, key);
      } else {
        InsertDescends(xs[..n], x, key);
        var ys := InsertDescending(xs[..n], x, key);
        InsertAdds(xs[..n], x, key);
        KeyTotal(key(x), key(xs[n]));
        forall i | 0 <= i < |ys| ensures KeyLeq(key(xs[n]), key(ys[i])) {
          assert ys[i] in multiset(ys);
          assert ys[i] in xs[..n] || ys[i] == x;
        }
        DescendingOn(ys, xs[n], key);
      }
    }
  }

  lemma {:induction false} SortAdds<T>(xs: seq<T>, key: T -> Key)
    ensures multiset(SortDescending(xs, key)) == multiset(xs)
  {
    if xs != [] {
      var n := |xs| - 1;
      SortAdds(xs[..n], key);
      InsertAdds(SortDescending(xs[..n], key), xs[n], key);
      LastCounts(xs);
    }
  }

  lemma {:induction false} SortDescends<T>(xs: seq<T>, key: T -> Key)
    ensures Descending(SortDescending(xs, key), key)
  {
    if xs != [] {
      var n := |xs| - 1;
      SortDescends(xs[..n], key);
      InsertDescends(SortDescending(xs[..n], key), xs[n], key);
    }
  }

  /** Sorting yields the same entries in descending order. */
  lemma SortSorts<T>(xs: seq<T>, key: T -> Key)
    ensures Descending(SortDescending(xs, key), key)
    ensures multiset(SortDescending(xs, key)) == multiset(xs)
  {
    SortDescends(xs, key);
    SortAdds(xs, key);
  }

  lemma {:induction false} SortedStays<T>(xs: seq<T>, key: T -> Key)
    requires Descending(xs, key)
    ensures SortDescending(xs, key) == xs
  {
    if xs != [] {
      var n := |xs| - 1;
      SortedStays(xs[..n], key);
      assert xs == xs[..n] + [xs[n]];
    }
  }

  /** A list equals its own sort exactly when it already descends. */
  lemma SortFixpoint<T>(xs: seq<T>, key: T -> Key)
    ensures SortDescending(xs, key) == xs <==> Descending(xs, key)
  {
    SortSorts(xs, key);
    if Descending(xs, key) {
      SortedStays(xs, key);
    }
  }
}
