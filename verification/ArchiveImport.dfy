/** The archive restore as a whole: verification of the bundle, the read-only preflight, staging, and
    what a caller can rely on afterwards (adapters/storage/portability.py:251-372). */
module ArchiveImport {
  import opened Basics
  import opened FileSystem
  import opened Portability

  type Locator = string

  /** The files the dump references, in order, each with the hash its row records; and the files bundled. */
  datatype Archive = Archive(refs: seq<(Locator, Option<string>)>, bundled: map<Locator, Bytes>)

  /** The instance directory, how locators resolve in it, the directories it has, and the digest. */
  datatype Place = Place(root: Path, resolve: Locator -> Path, directories: set<Path>, hash: Bytes -> string)

  function Keys(refs: seq<(Locator, Option<string>)>): set<Locator> {
    set r | r in refs :: r.0
  }

  /** The archive carries exactly the referenced files, each with the recorded hash. */
  predicate Verified(a: Archive, hash: Bytes -> string) {
    && Keys(a.refs) == a.bundled.Keys
    && forall r :: r in a.refs ==> Attested(r, a.bundled, hash)
  }

  predicate Attested(r: (Locator, Option<string>), bundled: map<Locator, Bytes>, hash: Bytes -> string) {
    r.0 in bundled && r.1 == Some(hash(bundled[r.0]))
  }

  method ReadFiles(a: Archive, hash: Bytes -> string) returns (files: Option<seq<(Locator, Bytes)>>)
    ensures files.Some? <==> Verified(a, hash)
    ensures files.Some? ==>
      && |files.value| == |a.refs|
      && forall i :: 0 <= i < |a.refs| ==> files.value[i] == (a.refs[i].0, a.bundled[a.refs[i].0])
  {
    if Keys(a.refs) != a.bundled.Keys {
      return None;
    }
    var read := [];
    for i := 0 to |a.refs|
      invariant |read| == i
      invariant forall k :: 0 <= k < i ==> Attested(a.refs[k], a.bundled, hash)
      invariant forall k :: 0 <= k < i ==> read[k] == (a.refs[k].0, a.bundled[a.refs[k].0])
    {
      var (locator, expected) := a.refs[i];
      assert a.refs[i] in a.refs && locator in Keys(a.refs);
      var data := a.bundled[locator];
      if expected != Some(hash(data)) {
        assert !Attested(a.refs[i], a.bundled, hash);
        return None;
      }
      read := read + [(locator, data)];
    }
    return Some(read);
  }

  function Parent(p: Path): Path {
    if p == [] then [] else p[..|p| - 1]
  }

  /** The nearest existing ancestor, or the root if none below it exists. */
  function Nearest(place: Place, f: Files, p: Path): Path {
    if p in f || p in place.directories || p == place.root || p == [] then p else Nearest(place, f, p[..|p| - 1])
  }

  predicate Installable(place: Place, f: Files, dest: Path) {
    && place.root <= dest
    && dest !in place.directories
    && !(Nearest(place, f, Parent(dest)) in f && Nearest(place, f, Parent(dest)) !in place.directories)
  }

  method NearestAncestor(place: Place, f: Files, dest: Path) returns (ancestor: Path)
    ensures ancestor == Nearest(place, f, Parent(dest))
  {
    ancestor := Parent(dest);
    while ancestor !in f && ancestor !in place.directories && ancestor != place.root && ancestor != []
      invariant Nearest(place, f, ancestor) == Nearest(place, f, Parent(dest))
      decreases |ancestor|
    {
      ancestor := ancestor[..|ancestor| - 1];
    }
  }

  function JobsOf(a: Archive, place: Place): seq<Job>
    requires forall r :: r in a.refs ==> r.0 in a.bundled
  {
    seq(|a.refs|, i requires 0 <= i < |a.refs| => Job(place.resolve(a.refs[i].0), a.bundled[a.refs[i].0]))
  }

  /** Every destination can be installed, and no two are the same. */
  predicate Fits(place: Place, f: Files, jobs: seq<Job>) {
    && (forall i :: 0 <= i < |jobs| ==> Installable(place, f, jobs[i].dest))
    && (forall i, k :: 0 <= i < k < |jobs| ==> jobs[i].dest != jobs[k].dest)
  }

  method CheckDestinations(place: Place, f: Files, jobs: seq<Job>) returns (ok: bool)
    ensures ok <==> Fits(place, f, jobs)
  {
    var seen := {};
    for i := 0 to |jobs|
      invariant seen == set k | 0 <= k < i :: jobs[k].dest
      invariant Fits(place, f, jobs[..i])
    {
      var dest := jobs[i].dest;
      assert jobs[..i + 1] == jobs[..i] + [jobs[i]];
      if !(place.root <= dest) || dest in seen || dest in place.directories {
        return false;
      }
      var ancestor := NearestAncestor(place, f, dest);
      if ancestor in f && ancestor !in place.directories {
        return false;
      }
      seen := seen + {dest};
    }
    assert jobs[..|jobs|] == jobs;
    return true;
  }

  /** Everything proved before anything is written. */
  ghost predicate Sound(a: Archive, place: Place, f: Files) {
    Verified(a, place.hash) && Fits(place, f, JobsOf(a, place))
  }

  method Preflight(disk: Disk, a: Archive, place: Place) returns (jobs: Option<seq<Job>>)
    ensures jobs.Some? <==> Sound(a, place, disk.files)
    ensures jobs.Some? ==> jobs.value == JobsOf(a, place)
  {
    var files := ReadFiles(a, place.hash);
    if files.None? {
      return None;
    }
    var planned := seq(|files.value|, i requires 0 <= i < |files.value| =>
      Job(place.resolve(files.value[i].0), files.value[i].1));
    assert planned == JobsOf(a, place);
    var ok := CheckDestinations(place, disk.files, planned);
    return if ok then Some(planned) else None;
  }

  // ----- what the preflight accepts -----

  /** Where the walk up from a destination may stop. */
  predicate Known(place: Place, f: Files, p: Path) {
    p in f || p in place.directories || p == place.root
  }

  /** The nearest ancestor known is a file. */
  ghost predicate UnderFile(place: Place, f: Files, dest: Path) {
    exists n :: 0 <= n < |dest| && dest[..n] in f && dest[..n] !in place.directories && NearestAt(place, f, dest, n)
  }

  predicate NearestAt(place: Place, f: Files, dest: Path, n: nat)
    requires n <= |dest|
  {
    forall k :: n < k < |dest| ==> !Known(place, f, dest[..k])
  }

  ghost predicate StopsAt(place: Place, f: Files, dest: Path, m: nat, n: nat)
    requires n <= m < |dest|
  {
    && Nearest(place, f, dest[..m]) == dest[..n] && NearestAt(place, f, dest, n)
    && (n == 0 || Known(place, f, dest[..n]))
  }

  lemma {:induction false} NearestIs(place: Place, f: Files, dest: Path, m: nat)
    requires m < |dest| && forall k :: m < k < |dest| ==> !Known(place, f, dest[..k])
    ensures exists n :: 0 <= n <= m && StopsAt(place, f, dest, m, n)
  {
    if m > 0 && !Known(place, f, dest[..m]) {
      assert dest[..m][..m - 1] == dest[..m - 1];
      NearestIs(place, f, dest, m - 1);
      var n :| 0 <= n <= m - 1 && StopsAt(place, f, dest, m - 1, n);
      assert StopsAt(place, f, dest, m, n);
    } else {
      assert StopsAt(place, f, dest, m, m);
    }
  }

  lemma InstallableMeans(place: Place, f: Files, dest: Path)
    ensures Installable(place, f, dest) <==>
      place.root <= dest && dest !in place.directories && (dest == [] ==> [] !in f) && !UnderFile(place, f, dest)
  {
    if dest != [] {
      NearestIs(place, f, dest, |dest| - 1);
      var n :| 0 <= n < |dest| && StopsAt(place, f, dest, |dest| - 1, n);
      if UnderFile(place, f, dest) {
        var k :| 0 <= k < |dest| && dest[..k] in f && dest[..k] !in place.directories && NearestAt(place, f, dest, k);
        assert k == n;
      }
    }
  }

  /** The bundle is exactly what the dump references, each file with the hash recorded; every locator resolves
      into the instance, not to a directory and not below a file; and no two resolve to the same path. */
  ghost predicate Accepted(a: Archive, place: Place, f: Files) {
    && (forall l :: l in a.bundled <==> exists i :: 0 <= i < |a.refs| && a.refs[i].0 == l)
    && (forall i :: 0 <= i < |a.refs| && a.refs[i].0 in a.bundled ==>
          a.refs[i].1 == Some(place.hash(a.bundled[a.refs[i].0])))
    && (forall i :: 0 <= i < |a.refs| ==> InstallablePath(place, f, place.resolve(a.refs[i].0)))
    && (forall i, k :: 0 <= i < k < |a.refs| ==> place.resolve(a.refs[i].0) != place.resolve(a.refs[k].0))
  }

  ghost predicate InstallablePath(place: Place, f: Files, p: Path) {
    place.root <= p && p !in place.directories && (p == [] ==> [] !in f) && !UnderFile(place, f, p)
  }

  lemma SoundMeans(a: Archive, place: Place, f: Files)
    ensures Sound(a, place, f) <==> Accepted(a, place, f)
  {
    VerifiedMeans(a, place.hash);
    if Verified(a, place.hash) {
      var jobs := JobsOf(a, place);
      forall i | 0 <= i < |jobs|
        ensures Installable(place, f, jobs[i].dest) <==> InstallablePath(place, f, place.resolve(a.refs[i].0))
      {
        InstallableMeans(place, f, jobs[i].dest);
      }
      if Accepted(a, place, f) {
        forall i, k | 0 <= i < k < |jobs| ensures jobs[i].dest != jobs[k].dest {
        }
      }
      if Sound(a, place, f) {
        forall i, k | 0 <= i < k < |a.refs| ensures place.resolve(a.refs[i].0) != place.resolve(a.refs[k].0) {
          assert jobs[i].dest != jobs[k].dest;
        }
        forall i | 0 <= i < |a.refs| ensures InstallablePath(place, f, place.resolve(a.refs[i].0)) {
          assert Installable(place, f, jobs[i].dest);
        }
      }
    }
  }

  lemma VerifiedMeans(a: Archive, hash: Bytes -> string)
    ensures Verified(a, hash) <==>
      && (forall l :: l in a.bundled <==> exists i :: 0 <= i < |a.refs| && a.refs[i].0 == l)
      && (forall i :: 0 <= i < |a.refs| && a.refs[i].0 in a.bundled ==>
            a.refs[i].1 == Some(hash(a.bundled[a.refs[i].0])))
  {
    forall l ensures l in Keys(a.refs) <==> exists i :: 0 <= i < |a.refs| && a.refs[i].0 == l {
      if l in Keys(a.refs) {
        var r :| r in a.refs && r.0 == l;
        var i :| 0 <= i < |a.refs| && a.refs[i] == r;
      }
    }
    if Verified(a, hash) {
      forall i | 0 <= i < |a.refs| ensures a.refs[i].1 == Some(hash(a.bundled[a.refs[i].0])) {
        assert Attested(a.refs[i], a.bundled, hash);
      }
    } else if Keys(a.refs) == a.bundled.Keys {
      var r :| r in a.refs && !Attested(r, a.bundled, hash);
      var i :| 0 <= i < |a.refs| && a.refs[i] == r;
      assert a.refs[i].0 in Keys(a.refs);
    }
  }

  // ----- staging -----

  predicate Fresh(f: Files, staging: Path) {
    forall q :: q in f ==> !(staging <= q)
  }

  ghost predicate StagedUpTo(f0: Files, f: Files, jobs: seq<Job>, staging: Path, i: nat) {
    && Outside(f, staging) == f0
    && (forall k :: 0 <= k < i <= |jobs| ==> StagedPath(staging, k) in f && f[StagedPath(staging, k)] == jobs[k].data)
    && (forall q :: q in f && staging <= q ==> exists k :: 0 <= k < i && q == StagedPath(staging, k))
  }

  /** Stage every file and the loaded database below a fresh directory. */
  method Stage(disk: Disk, jobs: seq<Job>, staging: Path, data: Bytes)
    requires Fresh(disk.files, staging)
    modifies disk
    ensures Staged(disk.files, jobs, staging, 0, data)
    ensures Outside(disk.files, staging) == old(disk.files)
  {
    for i := 0 to |jobs|
      invariant StagedUpTo(old(disk.files), disk.files, jobs, staging, i)
    {
      ghost var f := disk.files;
      InStaging(staging, i);
      disk.Write(StagedPath(staging, i), jobs[i].data);
      StagedMore(old(disk.files), f, jobs, staging, i);
    }
    ghost var f := disk.files;
    InStaging(staging, 0);
    disk.Write(StagedDb(staging), data);
    StagedAll(old(disk.files), f, jobs, staging, data);
  }

  lemma StagedMore(f0: Files, f: Files, jobs: seq<Job>, staging: Path, i: nat)
    requires i < |jobs| && StagedUpTo(f0, f, jobs, staging, i)
    ensures StagedUpTo(f0, f[StagedPath(staging, i) := jobs[i].data], jobs, staging, i + 1)
  {
    InStaging(staging, i);
    forall k | 0 <= k < i ensures StagedPath(staging, k) != StagedPath(staging, i) {
      StagingApart(staging, k, i);
    }
  }

  lemma StagedAll(f0: Files, f: Files, jobs: seq<Job>, staging: Path, data: Bytes)
    requires StagedUpTo(f0, f, jobs, staging, |jobs|)
    ensures Staged(f[StagedDb(staging) := data], jobs, staging, 0, data)
    ensures Outside(f[StagedDb(staging) := data], staging) == f0
  {
    InStaging(staging, 0);
    CopiesStaged(f0, f, jobs, staging, data);
    JournalUntouched(f0, f, jobs, staging, data);
  }

  lemma CopiesStaged(f0: Files, f: Files, jobs: seq<Job>, staging: Path, data: Bytes)
    requires StagedUpTo(f0, f, jobs, staging, |jobs|)
    ensures var n := f[StagedDb(staging) := data];
      && (forall k :: 0 <= k < |jobs| ==> Holds(n, StagedPath(staging, k), jobs[k].data))
      && Holds(n, StagedDb(staging), data)
  {
    var n := f[StagedDb(staging) := data];
    assert forall q :: q in n && staging <= q ==> |q| == |staging| + 1;
    forall k | 0 <= k < |jobs| ensures Holds(n, StagedPath(staging, k), jobs[k].data) {
      InStaging(staging, k);
      StagingApart(staging, k, k);
      OnlyOneDeep(n, staging, StagedPath(staging, k));
    }
    InStaging(staging, 0);
    OnlyOneDeep(n, staging, StagedDb(staging));
  }

  lemma JournalUntouched(f0: Files, f: Files, jobs: seq<Job>, staging: Path, data: Bytes)
    requires StagedUpTo(f0, f, jobs, staging, |jobs|)
    ensures var n := f[StagedDb(staging) := data];
      && (forall k, q :: 0 <= k < |jobs| && q in n ==> !(JournalPath(staging, k) <= q))
      && staging !in n && staging + ["journal"] !in n
  {
    var n := f[StagedDb(staging) := data];
    InStaging(staging, 0);
    forall k, q | 0 <= k < |jobs| && q in n ensures !(JournalPath(staging, k) <= q) {
      InStaging(staging, k);
      PrefixChain(staging, JournalPath(staging, k), q);
    }
    forall k | 0 <= k < |jobs| ensures StagedPath(staging, k) != staging + ["journal"] {
      DirectoriesApart(staging, k);
    }
    assert (staging + ["journal"])[|staging|] == "journal" && StagedDb(staging)[|staging|] == "staged.sqlite3";
  }

  lemma OnlyOneDeep(f: Files, staging: Path, p: Path)
    requires forall q :: q in f && staging <= q ==> |q| == |staging| + 1
    requires staging <= p && |p| == |staging| + 1
    ensures forall q :: q in f ==> !(p < q)
  {
    forall q | q in f ensures !(p < q) {
      PrefixChain(staging, p, q);
    }
  }

  // ----- the import -----

  /** No file lies at the path of a directory the restore needs, or the other way round; destinations
      are apart from one another, from the staging area and from the database. */
  ghost predicate Clearable(f: Files, jobs: seq<Job>, staging: Path, db: Path) {
    && (forall k :: 0 <= k < |jobs| ==>
          !Blocked(f, jobs[k].dest) && Apart(jobs[k].dest, staging) && Apart(jobs[k].dest, db))
    && (forall j, k :: 0 <= j < k < |jobs| ==> Apart(jobs[j].dest, jobs[k].dest))
    && !Blocked(f, staging) && !Blocked(f, db) && !IsDirectory(f, db) && Apart(staging, db)
  }

  /** The same of the paths an archive's locators resolve to. */
  ghost predicate ClearPaths(f: Files, a: Archive, place: Place, staging: Path, db: Path) {
    && (forall k :: 0 <= k < |a.refs| ==> ClearPath(f, place.resolve(a.refs[k].0), staging, db))
    && (forall j, k :: 0 <= j < k < |a.refs| ==> Apart(place.resolve(a.refs[j].0), place.resolve(a.refs[k].0)))
    && !Blocked(f, staging) && !Blocked(f, db) && !IsDirectory(f, db) && Apart(staging, db)
  }

  ghost predicate ClearPath(f: Files, p: Path, staging: Path, db: Path) {
    !Blocked(f, p) && Apart(p, staging) && Apart(p, db)
  }

  lemma AcceptedAreClear(f: Files, a: Archive, place: Place, staging: Path, db: Path)
    ensures Sound(a, place, f) <==> Accepted(a, place, f)
    ensures Sound(a, place, f) && ClearPaths(f, a, place, staging, db) ==> Clearable(f, JobsOf(a, place), staging, db)
  {
    SoundMeans(a, place, f);
    if Sound(a, place, f) && ClearPaths(f, a, place, staging, db) {
      var jobs := JobsOf(a, place);
      forall k | 0 <= k < |jobs|
        ensures !Blocked(f, jobs[k].dest) && Apart(jobs[k].dest, staging) && Apart(jobs[k].dest, db)
      {
        assert ClearPath(f, place.resolve(a.refs[k].0), staging, db);
      }
    }
  }

  lemma StagedUnobstructed(f0: Files, f: Files, jobs: seq<Job>, staging: Path, db: Path, data: Bytes)
    requires Clearable(f0, jobs, staging, db) && Outside(f, staging) == f0 && Staged(f, jobs, staging, 0, data)
    ensures Unobstructed(f, jobs, staging, db)
  {
    forall k | 0 <= k < |jobs| ensures Reachable(f, staging, jobs[k].dest) {
      StagingUnseen(f0, f, staging, jobs[k].dest);
      StagingUnseen(f0, f, staging, staging);
    }
    StagingUnseen(f0, f, staging, db);
    OutsideApart(staging, db, staging, StagedDb(staging));
  }

  /** The staging area does not get in the way of anything outside it. */
  lemma StagingUnseen(f0: Files, f: Files, staging: Path, p: Path)
    requires Outside(f, staging) == f0 && !(staging < p)
    ensures Blocked(f, p) ==> Blocked(f0, p)
    ensures Apart(staging, p) && IsDirectory(f, p) ==> IsDirectory(f0, p)
  {
    if Blocked(f, p) {
      var q :| q in f && q < p;
      PrefixChain(staging, q, p);
      assert q in f0;
    }
    if Apart(staging, p) && IsDirectory(f, p) {
      var q :| q in f && p < q;
      BelowApart(p, staging, q);
      assert q in f0;
    }
  }

  /** What a path holds after a restore: the staging area is gone, the database is the loaded one, and
      everything else is as the installations left it. */
  function After(f: Files, jobs: seq<Job>, staging: Path, db: Path, loaded: Bytes, p: Path): Option<Bytes> {
    if staging <= p then None else if p == db then Some(loaded) else Expected(f, jobs, p)
  }

  ghost predicate RestoredTo(f: Files, g: Files, jobs: seq<Job>, staging: Path, db: Path, loaded: Bytes) {
    forall p :: Get(g, p) == After(f, jobs, staging, db, loaded, p)
  }

  /** Stage everything, install it, promote the database, and drop the staging area either way. */
  method StageAndInstall(disk: Disk, jobs: seq<Job>, staging: Path, db: Path, loaded: Bytes, fault: nat -> bool)
    returns (ok: bool)
    requires Fresh(disk.files, staging) && !(staging <= db) && Destinations(jobs, staging)
    modifies disk
    ensures !ok ==> disk.files == old(disk.files)
    ensures ok ==> RestoredTo(old(disk.files), disk.files, jobs, staging, db, loaded)
    ensures NoFaults(fault, 3 * |jobs| + 1) && Clearable(old(disk.files), jobs, staging, db) ==> ok
  {
    ghost var f0 := disk.files;
    Stage(disk, jobs, staging, loaded);
    ghost var f := disk.files;
    if Clearable(f0, jobs, staging, db) {
      StagedUnobstructed(f0, f, jobs, staging, db, loaded);
    }
    ok := Restore(disk, jobs, staging, db, loaded, fault);
    disk.RemoveTree(staging);
    if ok {
      forall p ensures Get(disk.files, p) == After(f0, jobs, staging, db, loaded, p) {
        StagingForgotten(f0, f, jobs, staging, p);
      }
    }
  }

  /** Restore an archive: `loaded` is the staged database once the dump is imported into it, if that
      succeeded; a staging fault is any failure before files are installed. */
  method ImportArchive(disk: Disk, a: Archive, place: Place, staging: Path, db: Path, loaded: Option<Bytes>,
                       stagingFault: bool, fault: nat -> bool)
    returns (ok: bool)
    requires Fresh(disk.files, staging) && !(staging <= db)
    requires forall r :: r in a.refs ==> !(staging <= place.resolve(r.0))
    modifies disk
    ensures !ok ==> disk.files == old(disk.files)
    ensures ok ==> Accepted(a, place, old(disk.files)) && loaded.Some?
    ensures ok ==> Restored(old(disk.files), disk.files, a, place, staging, db, loaded.value)
    ensures loaded.Some? && !stagingFault && NoFaults(fault, 3 * |a.refs| + 1) ==>
      Accepted(a, place, old(disk.files)) ==> ClearPaths(old(disk.files), a, place, staging, db) ==> ok
  {
    AcceptedAreClear(disk.files, a, place, staging, db);
    var jobs := Preflight(disk, a, place);
    if jobs.None? || stagingFault || loaded.None? {
      return false;
    }
    ghost var f := disk.files;
    ok := StageAndInstall(disk, jobs.value, staging, db, loaded.value, fault);
    if ok {
      RestoredMeans(f, disk.files, a, place, staging, db, loaded.value);
    }
  }

  /** What the disk holds afterwards: the database is the loaded one and nothing is left of the staging area. At
      or below destinations the last one counts: it holds the bytes bundled under its own locator, and
      there is nothing below it. Everything else is as it was. */
  ghost predicate Restored(f: Files, g: Files, a: Archive, place: Place, staging: Path, db: Path, loaded: Bytes) {
    && Get(g, db) == Some(loaded)
    && (forall p :: staging <= p ==> Get(g, p) == None)
    && (forall p, i: nat :: LastAbove(a, place, p, i) && a.refs[i].0 in a.bundled && p != db && !(staging <= p) ==>
          Get(g, p) == if p == place.resolve(a.refs[i].0) then Some(a.bundled[a.refs[i].0]) else None)
    && (forall p :: !(staging <= p) && p != db && (forall i: nat :: !LastAbove(a, place, p, i)) ==>
          Get(g, p) == Get(f, p))
  }

  /** The path is at or below the destination of this reference and of none after it. */
  predicate LastAbove(a: Archive, place: Place, p: Path, i: nat) {
    && i < |a.refs| && place.resolve(a.refs[i].0) <= p
    && forall k :: i < k < |a.refs| ==> !(place.resolve(a.refs[k].0) <= p)
  }

  lemma {:induction false} LastCounts(f: Files, jobs: seq<Job>, p: Path, i: nat)
    requires i < |jobs| && jobs[i].dest <= p && forall k :: i < k < |jobs| ==> !(jobs[k].dest <= p)
    ensures Expected(f, jobs, p) == if p == jobs[i].dest then Some(jobs[i].data) else None
  {
    if i < |jobs| - 1 {
      LastCounts(f, jobs[..|jobs| - 1], p, i);
    }
  }

  lemma {:induction false} SomeLast(a: Archive, place: Place, p: Path, n: nat)
    requires n <= |a.refs| && forall k :: n <= k < |a.refs| ==> !(place.resolve(a.refs[k].0) <= p)
    requires forall i: nat :: !LastAbove(a, place, p, i)
    ensures forall k :: 0 <= k < |a.refs| ==> !(place.resolve(a.refs[k].0) <= p)
  {
    if n > 0 {
      assert !LastAbove(a, place, p, n - 1);
      SomeLast(a, place, p, n - 1);
    }
  }

  lemma RestoredMeans(f: Files, g: Files, a: Archive, place: Place, staging: Path, db: Path, loaded: Bytes)
    requires Sound(a, place, f) && !(staging <= db)
    requires RestoredTo(f, g, JobsOf(a, place), staging, db, loaded)
    ensures Restored(f, g, a, place, staging, db, loaded)
  {
    var jobs := JobsOf(a, place);
    forall p ensures Get(g, p) == After(f, jobs, staging, db, loaded, p) {
    }
    forall p, i: nat | LastAbove(a, place, p, i) && a.refs[i].0 in a.bundled
      ensures Expected(f, jobs, p) == if p == place.resolve(a.refs[i].0) then Some(a.bundled[a.refs[i].0]) else None
    {
      LastCounts(f, jobs, p, i);
    }
    forall p | forall i: nat :: !LastAbove(a, place, p, i) ensures Expected(f, jobs, p) == Get(f, p) {
      SomeLast(a, place, p, |a.refs|);
      ElsewhereUntouched(f, jobs, p);
    }
  }

  lemma {:induction false} StagingForgotten(f0: Files, f: Files, jobs: seq<Job>, staging: Path, p: Path)
    requires Outside(f, staging) == f0
    ensures !(staging <= p) ==> Expected(f, jobs, p) == Expected(f0, jobs, p)
  {
    if jobs != [] {
      StagingForgotten(f0, f, jobs[..|jobs| - 1], staging, p);
    } else {
      assert !(staging <= p) ==> Get(f, p) == Get(f0, p);
    }
  }

  // ----- what a successful restore leaves -----

  predicate Buried(jobs: seq<Job>, i: nat) {
    exists k :: i < k < |jobs| && jobs[k].dest < jobs[i].dest
  }

  /** A destination holds its bundled bytes, unless a later destination is a directory above it. */
  lemma {:induction false} InstalledUnlessBuried(f: Files, jobs: seq<Job>, i: nat)
    requires i < |jobs|
    requires forall j, k :: 0 <= j < k < |jobs| ==> jobs[j].dest != jobs[k].dest
    ensures Expected(f, jobs, jobs[i].dest) == if Buried(jobs, i) then None else Some(jobs[i].data)
  {
    var n := |jobs| - 1;
    if i < n {
      InstalledUnlessBuried(f, jobs[..n], i);
      if jobs[n].dest <= jobs[i].dest {
        assert jobs[n].dest < jobs[i].dest;
      } else {
        assert Buried(jobs, i) <==> Buried(jobs[..n], i) by {
          if Buried(jobs, i) {
            var k :| i < k < |jobs| && jobs[k].dest < jobs[i].dest;
            assert jobs[..n][k].dest < jobs[i].dest;
          }
          if Buried(jobs[..n], i) {
            var k :| i < k < n && jobs[..n][k].dest < jobs[..n][i].dest;
            assert jobs[k].dest < jobs[i].dest;
          }
        }
      }
    }
  }

  /** Everything that is not at or below a destination is as it was. */
  lemma {:induction false} ElsewhereUntouched(f: Files, jobs: seq<Job>, p: Path)
    requires forall k :: 0 <= k < |jobs| ==> !(jobs[k].dest <= p)
    ensures Expected(f, jobs, p) == Get(f, p)
  {
    if jobs != [] {
      ElsewhereUntouched(f, jobs[..|jobs| - 1], p);
    }
  }

  /** A later locator resolves to a directory above this one. */
  predicate TakenOver(a: Archive, place: Place, i: nat)
    requires i < |a.refs|
  {
    exists k :: i < k < |a.refs| && place.resolve(a.refs[k].0) < place.resolve(a.refs[i].0)
  }

  /** After a restore that succeeded, a locator's path holds the bytes bundled under that locator exactly when
      no later one took a directory above it and it is not the path of the database itself. */
  lemma RestoredExactly(f: Files, g: Files, a: Archive, place: Place, staging: Path, db: Path, loaded: Bytes, i: nat)
    requires Accepted(a, place, f) && i < |a.refs| && a.refs[i].0 in a.bundled
    requires forall r :: r in a.refs ==> !(staging <= place.resolve(r.0))
    requires Restored(f, g, a, place, staging, db, loaded)
    ensures Get(g, place.resolve(a.refs[i].0)) ==
      if place.resolve(a.refs[i].0) == db then Some(loaded)
      else if TakenOver(a, place, i) then None
      else Some(a.bundled[a.refs[i].0])
  {
    var p := place.resolve(a.refs[i].0);
    assert a.refs[i] in a.refs;
    if TakenOver(a, place, i) {
      var k :| i < k < |a.refs| && place.resolve(a.refs[k].0) < p;
      var last := LastOne(a, place, p, k, k);
    } else {
      assert LastAbove(a, place, p, i);
    }
  }

  /** The last reference at or above a path, given one. */
  lemma {:induction false} LastOne(a: Archive, place: Place, p: Path, i: nat, n: nat) returns (last: nat)
    requires i <= n < |a.refs| && place.resolve(a.refs[i].0) <= p
    requires forall k :: i < k <= n ==> !(place.resolve(a.refs[k].0) <= p)
    ensures i <= last < |a.refs| && LastAbove(a, place, p, last)
    decreases |a.refs| - n
  {
    if n + 1 == |a.refs| {
      last := i;
    } else if place.resolve(a.refs[n + 1].0) <= p {
      last := LastOne(a, place, p, n + 1, n + 1);
    } else {
      last := LastOne(a, place, p, i, n + 1);
    }
  }

  /** An archive with a file below a path that a later file takes. */
  function Nested(hash: Bytes -> string, outer: Bytes, inner: Bytes): Archive {
    Archive([("a/b", Some(hash(inner))), ("a", Some(hash(outer)))], map["a/b" := inner, "a" := outer])
  }

  /** The two locators resolve one below the other, and nothing is in the way of either. */
  ghost predicate Nestable(place: Place, f: Files) {
    && place.root !in f && place.root in place.directories && place.root + ["a"] !in f
    && place.resolve("a") == place.root + ["a"] && place.resolve("a/b") == place.root + ["a", "b"]
    && place.root + ["a"] !in place.directories && place.root + ["a", "b"] !in place.directories
  }

  /** It passes every check before the restore. */
  lemma NestedIsAccepted(f: Files, place: Place, outer: Bytes, inner: Bytes)
    requires Nestable(place, f)
    ensures Accepted(Nested(place.hash, outer, inner), place, f)
  {
    NestedIsSound(f, place, outer, inner);
    SoundMeans(Nested(place.hash, outer, inner), place, f);
  }

  lemma NestedIsSound(f: Files, place: Place, outer: Bytes, inner: Bytes)
    requires Nestable(place, f)
    ensures Sound(Nested(place.hash, outer, inner), place, f)
  {
    var a := Nested(place.hash, outer, inner);
    var jobs := JobsOf(a, place);
    var ab, pa := place.root + ["a", "b"], place.root + ["a"];
    assert Keys(a.refs) == a.bundled.Keys;
    assert jobs == [Job(ab, inner), Job(pa, outer)];
    assert Parent(ab) == pa && Parent(pa) == place.root;
    assert Nearest(place, f, place.root) == place.root;
    assert pa[..|pa| - 1] == place.root;
  }

  /** And a restore that succeeds has dropped its first file. */
  lemma NestedIsBuried(f: Files, g: Files, place: Place, staging: Path, db: Path, loaded: Bytes, outer: Bytes,
                       inner: Bytes)
    requires Nestable(place, f) && Restored(f, g, Nested(place.hash, outer, inner), place, staging, db, loaded)
    requires !(staging <= place.resolve("a/b")) && db != place.resolve("a/b")
    ensures Get(g, place.resolve("a/b")) == None
  {
    assert place.resolve("a") <= place.resolve("a/b");
    assert LastAbove(Nested(place.hash, outer, inner), place, place.resolve("a/b"), 1);
  }
}
