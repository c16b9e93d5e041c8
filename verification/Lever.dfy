/** Paginated polling with per-snapshot deduplication, and replay from the stored pages
    (adapters/sources/lever.py:27-53, adapters/sources/base.py:66-90). */
module Lever {
  import opened Basics

  const PAGE_SIZE := 100

  /** A posting record of the right shape; `body` is everything else in it. */
  datatype Posting = Posting(id: string, body: string)

  /** One page as fetched: the fetch failed, it is no array, or its records, None for one of the wrong shape. */
  datatype Page = FetchFailed | NotAnArray | Records(records: seq<Option<Posting>>)

  datatype PollError = Fetch | Degraded | Oversized | Collision

  datatype Payload = Payload(pages: seq<seq<Posting>>, jobs: seq<Posting>)

  /** Canonical JSON of a record and its material fields. */
  datatype Reading = Reading(canonical: Posting -> string, material: Posting -> string)

  /** Records with the same canonical JSON are the same record to every reader. */
  ghost predicate Consistent(r: Reading) {
    forall a, b :: r.canonical(a) == r.canonical(b) ==> r.material(a) == r.material(b)
  }

  // ----- deduplication -----

  predicate HasId(raws: seq<Posting>, id: string) {
    exists k :: 0 <= k < |raws| && raws[k].id == id
  }

  /** The first record of each id, in order. */
  function Firsts(raws: seq<Posting>): seq<Posting> {
    if raws == [] then []
    else
      var n := |raws| - 1;
      Firsts(raws[..n]) + if HasId(raws[..n], raws[n].id) then [] else [raws[n]]
  }

  /** The first record of an id. */
  function FirstOf(raws: seq<Posting>, id: string): Option<Posting> {
    if raws == [] then None
    else if raws[0].id == id then Some(raws[0])
    else FirstOf(raws[1..], id)
  }

  predicate OnceEach(raws: seq<Posting>) {
    forall i, j :: 0 <= i < j < |raws| ==> raws[i].id != raws[j].id
  }

  /** One id appears with materially different records. */
  ghost predicate Collides(raws: seq<Posting>, r: Reading) {
    exists i, j :: 0 <= i < j < |raws| && Differ(raws[i], raws[j], r)
  }

  predicate Differ(a: Posting, b: Posting, r: Reading) {
    a.id == b.id && r.material(a) != r.material(b)
  }

  /** Comparing with the first record of an id alone detects every material collision. */
  method DedupeJobs(raws: seq<Posting>, r: Reading) returns (jobs: Option<seq<Posting>>)
    requires Consistent(r)
    ensures jobs.None? <==> Collides(raws, r)
    ensures jobs.Some? ==> jobs.value == Firsts(raws)
  {
    var seen: map<string, Posting> := map[];
    var out := [];
    for i := 0 to |raws|
      invariant out == Firsts(raws[..i]) && !Collides(raws[..i], r)
      invariant forall id :: FirstOf(raws[..i], id) == if id in seen then Some(seen[id]) else None
    {
      var raw := raws[i];
      ghost var before := raws[..i];
      assert raws[..i + 1] == before + [raw];
      FirstOfIs(before, raw.id);
      CollidesOn(before, raw, r);
      forall id { FirstOfLast(before, raw, id); }
      FirstsOn(before, raw);
      if raw.id !in seen {
        seen := seen[raw.id := raw];
        out := out + [raw];
        continue;
      }
      var prior := seen[raw.id];
      if r.canonical(raw) == r.canonical(prior) {
        continue;
      }
      if r.material(raw) != r.material(prior) {
        CollidesWhole(raws, i + 1, r);
        return None;
      }
    }
    assert raws[..|raws|] == raws;
    return Some(out);
  }

  lemma FirstsOn(raws: seq<Posting>, p: Posting)
    ensures Firsts(raws + [p]) == Firsts(raws) + if HasId(raws, p.id) then [] else [p]
  {
    assert (raws + [p])[..|raws|] == raws;
  }

  lemma {:induction false} FirstOfIs(raws: seq<Posting>, id: string)
    ensures FirstOf(raws, id).Some? <==> HasId(raws, id)
    ensures FirstOf(raws, id).Some? ==> FirstOf(raws, id).value in raws && FirstOf(raws, id).value.id == id
  {
    if raws != [] {
      FirstOfIs(raws[1..], id);
      if raws[0].id != id && HasId(raws, id) {
        var k :| 0 <= k < |raws| && raws[k].id == id;
        assert raws[1..][k - 1].id == id;
      }
      if HasId(raws[1..], id) {
        var k :| 0 <= k < |raws| - 1 && raws[1..][k].id == id;
        assert raws[k + 1].id == id;
      }
    }
  }

  /** A record collides with the ones before it exactly when it differs from the first of its id. */
  lemma CollidesOn(raws: seq<Posting>, p: Posting, r: Reading)
    requires !Collides(raws, r)
    ensures Collides(raws + [p], r) <==>
      FirstOf(raws, p.id).Some? && r.material(FirstOf(raws, p.id).value) != r.material(p)
  {
    var more := raws + [p];
    FirstOfIs(raws, p.id);
    if FirstOf(raws, p.id).Some? {
      var first := FirstOf(raws, p.id).value;
      var f :| 0 <= f < |raws| && raws[f] == first;
      assert Differ(more[f], more[|raws|], r) <==> r.material(first) != r.material(p);
      forall k | 0 <= k < |raws| && raws[k].id == p.id ensures r.material(raws[k]) == r.material(first) {
        assert !Differ(raws[k], raws[f], r) && !Differ(raws[f], raws[k], r) by {
          if k < f { assert !Differ(raws[k], raws[f], r); }
          if f < k { assert !Differ(raws[f], raws[k], r); }
        }
      }
    }
    CollidesLast(raws, p, r);
    if k :| 0 <= k < |raws| && Differ(raws[k], p, r) {
      assert HasId(raws, p.id);
    }
  }

  lemma CollidesLast(raws: seq<Posting>, p: Posting, r: Reading)
    ensures Collides(raws + [p], r) ==> Collides(raws, r) || exists k :: 0 <= k < |raws| && Differ(raws[k], p, r)
  {
    var more := raws + [p];
    if Collides(more, r) {
      var i, j :| 0 <= i < j < |more| && Differ(more[i], more[j], r);
      if j < |raws| {
        assert Differ(raws[i], raws[j], r);
      } else {
        assert Differ(raws[i], p, r);
      }
    }
  }

  lemma CollidesWhole(raws: seq<Posting>, n: nat, r: Reading)
    requires n <= |raws| && Collides(raws[..n], r)
    ensures Collides(raws, r)
  {
    var i, j :| 0 <= i < j < n && Differ(raws[..n][i], raws[..n][j], r);
    assert Differ(raws[i], raws[j], r);
  }

  lemma {:induction false} FirstOfLast(raws: seq<Posting>, last: Posting, id: string)
    ensures FirstOf(raws + [last], id)
      == if FirstOf(raws, id).Some? then FirstOf(raws, id) else if last.id == id then Some(last) else None
  {
    if raws == [] {
      assert [] + [last] == [last];
    } else {
      assert (raws + [last])[1..] == raws[1..] + [last];
      FirstOfLast(raws[1..], last, id);
    }
  }

  /** Deduplication keeps exactly the first record of each id. */
  lemma {:induction false} FirstsAreFirst(raws: seq<Posting>, id: string)
    ensures FirstOf(Firsts(raws), id) == FirstOf(raws, id)
  {
    if raws != [] {
      var n := |raws| - 1;
      FirstsAreFirst(raws[..n], id);
      FirstsAreFirst(raws[..n], raws[n].id);
      assert raws == raws[..n] + [raws[n]];
      FirstOfLast(raws[..n], raws[n], id);
      FirstOfLast(Firsts(raws[..n]), raws[n], id);
      FirstOfIs(raws[..n], raws[n].id);
      assert Firsts(raws[..n]) + [] == Firsts(raws[..n]);
    }
  }

  /** Nothing is dropped exactly when no id repeats. */
  lemma {:induction false} FirstsAllOnlyOnce(raws: seq<Posting>)
    ensures Firsts(raws) == raws <==> OnceEach(raws)
    ensures |Firsts(raws)| <= |raws| && OnceEach(Firsts(raws))
  {
    if raws != [] {
      var n := |raws| - 1;
      FirstsAllOnlyOnce(raws[..n]);
      assert raws == raws[..n] + [raws[n]];
      if HasId(raws[..n], raws[n].id) {
        var k :| 0 <= k < n && raws[..n][k].id == raws[n].id;
        assert raws[k].id == raws[n].id;
      } else {
        FirstsAreFirst(raws[..n], raws[n].id);
        FirstOfIs(raws[..n], raws[n].id);
        FirstOfIs(Firsts(raws[..n]), raws[n].id);
        NewIdOnce(Firsts(raws[..n]), raws[n]);
        NewIdOnce(raws[..n], raws[n]);
        if Firsts(raws) == raws {
          assert Firsts(raws[..n]) == Firsts(raws)[..n];
        }
        if OnceEach(raws) {
          OnceEachPrefix(raws, n);
        }
      }
    }
  }

  lemma OnceEachPrefix(raws: seq<Posting>, n: nat)
    requires OnceEach(raws) && n <= |raws|
    ensures OnceEach(raws[..n])
  {
  }

  lemma NewIdOnce(raws: seq<Posting>, p: Posting)
    requires !HasId(raws, p.id)
    ensures OnceEach(raws) ==> OnceEach(raws + [p])
  {
  }

  // ----- pagination -----

  /** The records of a page, if it is an array of well-shaped ones. */
  function ReadPage(p: Page): Result<seq<Posting>, PollError> {
    if p.FetchFailed? then Err(Fetch)
    else if p.NotAnArray? || (exists k :: 0 <= k < |p.records| && p.records[k].None?) then Err(Degraded)
    else Ok(seq(|p.records|, k requires 0 <= k < |p.records| => p.records[k].value))
  }

  /** The pages from number k on, up to the first short one or the limit. */
  function Scan(page: nat -> Page, k: nat, maxPages: nat): Result<seq<seq<Posting>>, PollError>
    decreases maxPages - k
  {
    if k >= maxPages then Err(Oversized)
    else
      var p := ReadPage(page(k));
      if p.Err? then Err(p.error)
      else if |p.value| < PAGE_SIZE then Ok([p.value])
      else
        var rest := Scan(page, k + 1, maxPages);
        if rest.Err? then rest else Ok([p.value] + rest.value)
  }

  function Concat(pages: seq<seq<Posting>>): seq<Posting> {
    if pages == [] then [] else Concat(pages[..|pages| - 1]) + pages[|pages| - 1]
  }

  /** The page is an array of well-shaped records, namely these. */
  predicate Holds(p: Page, records: seq<Posting>) {
    p.Records? && |p.records| == |records| && forall i :: 0 <= i < |records| ==> p.records[i] == Some(records[i])
  }

  /** The page that fails a poll: it could not be fetched, or it is no array of well-shaped records. */
  predicate Fails(p: Page, e: PollError) {
    match e
    case Fetch => p == FetchFailed
    case Degraded => p == NotAnArray || (p.Records? && None in p.records)
    case _ => false
  }

  predicate Full(p: Page) {
    p.Records? && |p.records| >= 100 && None !in p.records
  }

  /** From page k on: full pages up to a short one, or up to one that fails, or as many as are allowed. */
  ghost predicate ScannedFrom(page: nat -> Page, k: nat, maxPages: nat, scan: Result<seq<seq<Posting>>, PollError>) {
    match scan
    case Ok(pages) =>
      && 1 <= |pages| && k + |pages| <= maxPages && |pages[|pages| - 1]| < 100
      && (forall i :: 0 <= i < |pages| ==> Holds(page(k + i), pages[i]))
      && forall i :: 0 <= i < |pages| - 1 ==> |pages[i]| >= 100
    case Err(e) => exists n: nat :: StopsAt(page, k, maxPages, n, e)
  }

  ghost predicate StopsAt(page: nat -> Page, k: nat, maxPages: nat, n: nat, e: PollError) {
    && (forall i: nat :: k <= i < n ==> Full(page(i)))
    && if e == Oversized then n >= maxPages else k <= n < maxPages && Fails(page(n), e)
  }

  lemma ReadMeans(p: Page)
    ensures match ReadPage(p)
      case Ok(records) => Holds(p, records) && (|records| >= 100 ==> Full(p))
      case Err(e) => Fails(p, e)
  {
    if p.Records? && ReadPage(p).Ok? {
      assert forall k :: 0 <= k < |p.records| ==> p.records[k].Some?;
    }
  }

  lemma {:induction false} ScanMeans(page: nat -> Page, k: nat, maxPages: nat)
    ensures ScannedFrom(page, k, maxPages, Scan(page, k, maxPages))
    decreases maxPages - k
  {
    if k >= maxPages {
      assert StopsAt(page, k, maxPages, k, Oversized);
    } else {
      ReadMeans(page(k));
      var p := ReadPage(page(k));
      if p.Err? {
        assert StopsAt(page, k, maxPages, k, p.error);
      } else if |p.value| >= PAGE_SIZE {
        ScanMeans(page, k + 1, maxPages);
        ScanOn(page, k, maxPages, p.value, Scan(page, k + 1, maxPages));
      }
    }
  }

  lemma ScanOn(page: nat -> Page, k: nat, maxPages: nat, first: seq<Posting>,
               rest: Result<seq<seq<Posting>>, PollError>)
    requires k < maxPages && ScannedFrom(page, k + 1, maxPages, rest)
    requires Holds(page(k), first) && |first| >= 100 && Full(page(k))
    ensures ScannedFrom(page, k, maxPages, if rest.Err? then rest else Ok([first] + rest.value))
  {
    if rest.Err? {
      var n: nat :| StopsAt(page, k + 1, maxPages, n, rest.error);
      assert StopsAt(page, k, maxPages, n, rest.error);
    } else {
      var pages := [first] + rest.value;
      forall i | 0 <= i < |pages| ensures Holds(page(k + i), pages[i]) {
        if i > 0 {
          assert Holds(page(k + 1 + (i - 1)), rest.value[i - 1]);
        }
      }
    }
  }

  /** What a poll comes to, from the pages as they were fetched. */
  ghost predicate Polled(page: nat -> Page, maxPages: nat, r: Reading, result: Result<Payload, PollError>) {
    if result.Ok? then
      && ScannedFrom(page, 0, maxPages, Ok(result.value.pages))
      && !Collides(Concat(result.value.pages), r) && result.value.jobs == Firsts(Concat(result.value.pages))
    else if result.error == Collision then
      exists pages :: ScannedFrom(page, 0, maxPages, Ok(pages)) && Collides(Concat(pages), r)
    else ScannedFrom(page, 0, maxPages, Err(result.error))
  }

  method Poll(page: nat -> Page, maxPages: nat, r: Reading) returns (result: Result<Payload, PollError>)
    requires Consistent(r)
    ensures var scan := Scan(page, 0, maxPages);
      && (scan.Err? ==> result == Err(scan.error))
      && (scan.Ok? ==> result == if Collides(Concat(scan.value), r) then Err(Collision)
                                 else Ok(Payload(scan.value, Firsts(Concat(scan.value)))))
    ensures Polled(page, maxPages, r, result)
  {
    result := PollPages(page, maxPages, r);
    ScanMeans(page, 0, maxPages);
  }

  /** The pages one after the other, and their jobs once each. */
  method PollPages(page: nat -> Page, maxPages: nat, r: Reading) returns (result: Result<Payload, PollError>)
    requires Consistent(r)
    ensures var scan := Scan(page, 0, maxPages);
      && (scan.Err? ==> result == Err(scan.error))
      && (scan.Ok? ==> result == if Collides(Concat(scan.value), r) then Err(Collision)
                                 else Ok(Payload(scan.value, Firsts(Concat(scan.value)))))
  {
    var pages: seq<seq<Posting>>, jobs: seq<Posting> := [], [];
    assert Scan(page, 0, maxPages).Ok? ==> [] + Scan(page, 0, maxPages).value == Scan(page, 0, maxPages).value;
    while true
      invariant |pages| <= maxPages && jobs == Concat(pages)
      invariant Scan(page, 0, maxPages) == Prefixed(pages, Scan(page, |pages|, maxPages))
      decreases maxPages - |pages|
    {
      if |pages| >= maxPages {
        return Err(Oversized);
      }
      var read := ReadPage(page(|pages|));
      if read.Err? {
        return Err(read.error);
      }
      PrefixedOn(pages, read.value, Scan(page, |pages| + 1, maxPages));
      pages, jobs := pages + [read.value], jobs + read.value;
      assert pages[..|pages| - 1] + [read.value] == pages;
      if |read.value| < PAGE_SIZE {
        break;
      }
    }
    var unique := DedupeJobs(jobs, r);
    if unique.None? {
      return Err(Collision);
    }
    return Ok(Payload(pages, unique.value));
  }

  function Prefixed(pages: seq<seq<Posting>>,
                    rest: Result<seq<seq<Posting>>, PollError>): Result<seq<seq<Posting>>, PollError> {
    if rest.Err? then rest else Ok(pages + rest.value)
  }

  lemma PrefixedOn(pages: seq<seq<Posting>>, p: seq<Posting>, rest: Result<seq<seq<Posting>>, PollError>)
    ensures rest.Ok? ==> pages + ([p] + rest.value) == (pages + [p]) + rest.value
    ensures Prefixed(pages, Prefixed([p], rest)) == Prefixed(pages + [p], rest)
  {
  }

  // ----- a static feed -----

  function Min(a: nat, b: nat): nat { if a < b then a else b }

  /** What a feed that does not change answers for page k. */
  function FeedPage(feed: seq<Posting>, k: nat): Page {
    Records(Wrapped(Slice(feed, k)))
  }

  function FeedPages(feed: seq<Posting>): nat -> Page {
    (k: nat) => FeedPage(feed, k)
  }

  function Slice(feed: seq<Posting>, k: nat): seq<Posting> {
    feed[Min(k * PAGE_SIZE, |feed|)..Min(k * PAGE_SIZE + PAGE_SIZE, |feed|)]
  }

  function Wrapped(records: seq<Posting>): seq<Option<Posting>> {
    seq(|records|, i requires 0 <= i < |records| => Some(records[i]))
  }

  lemma FeedPageReads(feed: seq<Posting>, k: nat)
    ensures ReadPage(FeedPages(feed)(k)) == Ok(Slice(feed, k))
  {
    var records, slice := Wrapped(Slice(feed, k)), Slice(feed, k);
    assert forall i :: 0 <= i < |records| ==> records[i].Some?;
    assert seq(|records|, i requires 0 <= i < |records| => records[i].value) == slice;
  }

  /** Reading a feed of n postings takes n / 100 + 1 pages, and yields all of it, or fails on the limit. */
  lemma {:induction false} FeedScan(feed: seq<Posting>, k: nat, maxPages: nat)
    requires k <= |feed| / PAGE_SIZE
    ensures var scan := Scan(FeedPages(feed), k, maxPages);
      if |feed| / PAGE_SIZE + 1 <= maxPages
      then scan.Ok? && |scan.value| == |feed| / PAGE_SIZE + 1 - k && Concat(scan.value) == feed[k * PAGE_SIZE..]
      else scan == Err(Oversized)
    decreases maxPages - k
  {
    var page := FeedPages(feed);
    if k < maxPages {
      FeedPageReads(feed, k);
      if |Slice(feed, k)| < PAGE_SIZE {
        assert Concat([Slice(feed, k)]) == Slice(feed, k);
      } else {
        FeedScan(feed, k + 1, maxPages);
        var rest := Scan(page, k + 1, maxPages);
        if rest.Ok? {
          ConcatFirst(Slice(feed, k), rest.value);
          assert feed[k * PAGE_SIZE..] == Slice(feed, k) + feed[(k + 1) * PAGE_SIZE..];
        }
      }
    }
  }

  lemma {:induction false} ConcatFirst(p: seq<Posting>, pages: seq<seq<Posting>>)
    ensures Concat([p] + pages) == p + Concat(pages)
  {
    if pages == [] {
      assert [p] + pages == [p] && Concat([p][..0]) == [];
    } else {
      var n := |pages| - 1;
      assert ([p] + pages)[..n + 1] == [p] + pages[..n];
      ConcatFirst(p, pages[..n]);
    }
  }

  /** Polling a static feed: oversized exactly when n / 100 + 1 pages are more than the limit, refused
      exactly when an id collides, and otherwise the first occurrence of each id of the whole feed, in
      order; the stored pages hold the whole feed. */
  method PollFeed(feed: seq<Posting>, maxPages: nat, r: Reading) returns (result: Result<Payload, PollError>)
    requires Consistent(r)
    ensures result == Err(Oversized) <==> |feed| / PAGE_SIZE + 1 > maxPages
    ensures result == Err(Collision) <==> |feed| / PAGE_SIZE + 1 <= maxPages && Collides(feed, r)
    ensures result.Ok? <==> |feed| / PAGE_SIZE + 1 <= maxPages && !Collides(feed, r)
    ensures result.Ok? ==> result.value.jobs == Firsts(feed) && Concat(result.value.pages) == feed
    ensures result.Ok? ==> |result.value.pages| == |feed| / PAGE_SIZE + 1
  {
    FeedScan(feed, 0, maxPages);
    assert feed[0..] == feed;
    result := Poll(FeedPages(feed), maxPages, r);
  }

  /** jobs_from_pages: replay from the stored pages. */
  function JobsFromPages(pages: seq<seq<Posting>>): seq<Posting> {
    Concat(pages)
  }

  /** Replay yields the polled jobs exactly when no id repeats in the snapshot; for a given id the record
      found first is in any case the polled one. */
  lemma ReplayAgrees(pages: seq<seq<Posting>>, id: string)
    ensures JobsFromPages(pages) == Firsts(JobsFromPages(pages)) <==> OnceEach(JobsFromPages(pages))
    ensures FirstOf(JobsFromPages(pages), id) == FirstOf(Firsts(JobsFromPages(pages)), id)
  {
    FirstsAllOnlyOnce(JobsFromPages(pages));
    FirstsAreFirst(JobsFromPages(pages), id);
  }

  /** A posting listed twice without a difference is polled once and replayed twice. */
  lemma ReplayRepeats(p: Posting)
    ensures JobsFromPages([[p, p]]) == [p, p] && Firsts([p, p]) == [p]
    ensures forall r: Reading :: !Collides([p, p], r)
  {
    ConcatFirst([p, p], []);
    assert [[p, p]] + [] == [[p, p]];
    assert [p, p] == [p] + [p];
    FirstsOn([], p);
    FirstsOn([p], p);
  }
}
