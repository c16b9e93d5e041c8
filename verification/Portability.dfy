/** Restoring an archive: proof before anything durable changes, then journaled installation with an
    ordered undo log, and the staged database promoted last (adapters/storage/portability.py). */
module Portability {
  import opened Basics
  import opened FileSystem
  import Packages

  /** A bundled file: its bytes and where they go. */
  datatype Job = Job(dest: Path, data: Bytes)

  datatype Undo = Undo(dest: Path, backup: Option<Path>)

  function StagedPath(staging: Path, n: nat): Path {
    staging + ["f" + Packages.Decimal(n)]
  }

  function JournalPath(staging: Path, n: nat): Path {
    staging + ["journal", "j" + Packages.Decimal(n)]
  }

  function StagedDb(staging: Path): Path {
    staging + ["staged.sqlite3"]
  }

  /** The temporary paths do not get in each other's way. */
  lemma StagingApart(staging: Path, i: nat, k: nat)
    ensures Apart(StagedPath(staging, i), JournalPath(staging, k))
    ensures Apart(StagedDb(staging), JournalPath(staging, k)) && Apart(StagedDb(staging), StagedPath(staging, i))
    ensures i != k ==> Apart(StagedPath(staging, i), StagedPath(staging, k))
    ensures i != k ==> Apart(JournalPath(staging, i), JournalPath(staging, k))
  {
    var n := |staging|;
    var fi, fk := "f" + Packages.Decimal(i), "f" + Packages.Decimal(k);
    var ji, jk := "j" + Packages.Decimal(i), "j" + Packages.Decimal(k);
    assert StagedPath(staging, i)[n] == fi && StagedPath(staging, k)[n] == fk;
    assert StagedDb(staging)[n] == "staged.sqlite3";
    assert JournalPath(staging, i)[n + 1] == ji && JournalPath(staging, k)[n + 1] == jk;
    assert JournalPath(staging, k)[n] == "journal";
    assert fi[0] == 'f' && "journal"[0] == 'j' && "staged.sqlite3"[0] == 's';
    if i != k {
      assert fi[1..] == Packages.Decimal(i) && fk[1..] == Packages.Decimal(k);
      assert ji[1..] == Packages.Decimal(i) && jk[1..] == Packages.Decimal(k);
      if Packages.Decimal(i) == Packages.Decimal(k) {
        Packages.DecimalInjective(i, k);
      }
    }
  }

  // ----- one installation and its inverse -----

  function BackedUp(f: Files, dest: Path, journal: Path): Files
    requires Exists(f, dest) ==> Apart(dest, journal)
  {
    if Exists(f, dest) then Rename(f, dest, journal) else f
  }

  function UndoOne(f: Files, u: Undo): Files
    requires u.backup.Some? ==> Apart(u.backup.value, u.dest)
  {
    if u.backup.None? then f - {u.dest} else Rename(f - {u.dest}, u.backup.value, u.dest)
  }

  function EntryOf(f: Files, dest: Path, journal: Path): Undo {
    Undo(dest, if Exists(f, dest) then Some(journal) else None)
  }

  predicate Clear(journal: Path, dest: Path, q: Path) {
    !(journal <= q) && !(dest <= q)
  }

  lemma BackAt(f: Files, dest: Path, journal: Path, gone: set<Path>, q: Path)
    requires Apart(dest, journal)
    requires forall p :: p in f ==> !(journal <= p)
    requires forall p :: p in gone ==> Clear(journal, dest, p)
    ensures Get(Rename(Rename(f, dest, journal) - gone, journal, dest), q) == Get(f - gone, q)
  {
    var o := Origin(q, journal, dest);
    if dest <= q {
      assert journal <= o && o[|journal|..] == q[|dest|..];
      assert Origin(o, dest, journal) == q;
      assert o !in gone && q !in gone;
      assert Get(Rename(f, dest, journal), o) == Get(f, q);
    } else if journal <= q {
      assert q !in f;
    } else {
      assert Get(Rename(f, dest, journal), q) == Get(f, q);
    }
  }

  lemma SameFiles(f: Files, g: Files)
    requires forall q :: Get(f, q) == Get(g, q)
    ensures f == g
  {
    assert forall q :: q in f <==> Get(f, q).Some?;
    assert forall q :: q in g <==> Get(g, q).Some?;
    forall q | q in f ensures f[q] == g[q] {
      assert Get(f, q) == Get(g, q);
    }
  }

  /** Two renames that cancel, leaving aside files neither of them touches. */
  lemma RenameBack(f: Files, dest: Path, journal: Path, gone: set<Path>)
    requires Apart(dest, journal)
    requires forall q :: q in f ==> !(journal <= q)
    requires forall q :: q in gone ==> Clear(journal, dest, q)
    ensures Rename(Rename(f, dest, journal) - gone, journal, dest) == f - gone
  {
    var back := Rename(Rename(f, dest, journal) - gone, journal, dest);
    forall q ensures Get(back, q) == Get(f - gone, q) {
      BackAt(f, dest, journal, gone, q);
    }
    SameFiles(back, f - gone);
  }

  /** A file moved onto a free path changes nothing else. */
  lemma InstalledAt(b: Files, staged: Path, dest: Path, q: Path)
    requires Apart(staged, dest) && staged in b
    requires forall p :: p in b ==> !(staged < p) && !(dest <= p)
    ensures Get(Rename(b, staged, dest), q) == if q == dest then Some(b[staged]) else Get(b - {staged}, q)
  {
    var o := Origin(q, staged, dest);
    if q == dest {
      assert o == staged;
    } else if dest <= q {
      assert staged < o;
    } else if staged <= q {
      assert q == staged || staged < q;
    } else {
      assert o == q;
    }
  }

  lemma PrefixesMeet(a: Path, b: Path, p: Path)
    requires a <= p && b <= p
    ensures !Apart(a, b)
  {
    assert a == p[..|a|] && b == p[..|b|];
    if |a| <= |b| {
      assert a == b[..|a|];
    } else {
      assert b == a[..|b|];
    }
  }

  lemma MinusNothing(f: Files)
    ensures f - {} == f
  {
  }

  lemma MinusAbsent(f: Files, p: Path)
    requires p !in f
    ensures f - {p} == f
  {
  }

  lemma MinusTwice(f: Files, gone: set<Path>, p: Path)
    ensures (f - gone) - {p} == (f - {p}) - gone
    ensures (f - {p}) - gone == f - (gone + {p})
  {
  }

  /** The undo entry takes back a backup whose installation never happened. */
  lemma UndoBackup(f: Files, dest: Path, journal: Path, gone: set<Path>)
    requires Exists(f, dest) ==> Apart(dest, journal)
    requires forall q :: q in f ==> !(journal <= q)
    requires forall q :: q in gone ==> Clear(journal, dest, q)
    ensures UndoOne(BackedUp(f, dest, journal) - gone, EntryOf(f, dest, journal)) == f - gone
  {
    var b := BackedUp(f, dest, journal);
    assert dest <= dest;
    assert dest !in b;
    MinusAbsent(b - gone, dest);
    if Exists(f, dest) {
      RenameBack(f, dest, journal, gone);
    }
  }

  /** The undo entry takes back a whole installation; only the staged copy stays consumed. */
  lemma UndoInstall(f: Files, dest: Path, journal: Path, staged: Path, gone: set<Path>)
    requires Exists(f, dest) ==> Apart(dest, journal)
    requires Apart(staged, dest) && Apart(staged, journal)
    requires staged in f && forall q :: q in f ==> !(staged < q)
    requires forall q :: q in f ==> !(journal <= q)
    requires forall q :: q in gone ==> Clear(journal, dest, q)
    ensures (Rename(BackedUp(f, dest, journal), staged, dest) - gone) - {dest}
         == BackedUp(f, dest, journal) - (gone + {staged})
    ensures UndoOne(Rename(BackedUp(f, dest, journal), staged, dest) - gone, EntryOf(f, dest, journal))
         == f - (gone + {staged})
  {
    var b := BackedUp(f, dest, journal);
    var after := Rename(b, staged, dest);
    BackedUpFree(f, dest, journal, staged);
    forall q ensures Get(after - {dest}, q) == Get(b - {staged}, q) {
      InstalledAt(b, staged, dest, q);
    }
    SameFiles(after - {dest}, b - {staged});
    MinusTwice(after, gone, dest);
    MinusTwice(b, gone, staged);
    assert dest <= dest;
    assert dest !in b;
    MinusAbsent(b - (gone + {staged}), dest);
    UndoBackup(f, dest, journal, gone + {staged});
  }

  /** After the backup the destination is free, and the staged copy is still there. */
  lemma BackedUpFree(f: Files, dest: Path, journal: Path, staged: Path)
    requires Exists(f, dest) ==> Apart(dest, journal)
    requires Apart(staged, dest) && Apart(staged, journal)
    requires staged in f && forall q :: q in f ==> !(staged < q)
    ensures var b := BackedUp(f, dest, journal);
      staged in b && b[staged] == f[staged] && forall p :: p in b ==> !(staged < p) && !(dest <= p)
  {
    var b := BackedUp(f, dest, journal);
    forall p | p in b ensures !(staged < p) && !(dest <= p) {
      if Exists(f, dest) && journal <= p && staged < p {
        PrefixesMeet(staged, journal, p);
        assert false;
      }
    }
  }

  // ----- the history of an installation run -----

  /** Before operation k: its staged copy is ready, its journal slot free, its destination reachable. */
  ghost predicate Ready(f: Files, staging: Path, k: nat, dest: Path) {
    && !(staging <= dest)
    && StagedPath(staging, k) in f
    && (forall q :: q in f ==> !(StagedPath(staging, k) < q) && !(JournalPath(staging, k) <= q))
    && (Exists(f, dest) ==> Apart(dest, JournalPath(staging, k)))
    && !Blocked(f, dest)
  }

  ghost function Installed(f: Files, staging: Path, k: nat, dest: Path): Files
    requires Ready(f, staging, k, dest) && Apart(StagedPath(staging, k), dest)
  {
    Rename(BackedUp(f, dest, JournalPath(staging, k)), StagedPath(staging, k), dest)
  }

  /** states[k] is the disk before operation k, jobs[k] what that operation installs. */
  ghost predicate History(states: seq<Files>, jobs: seq<Job>, staging: Path, n: nat) {
    && n <= |jobs| && n < |states|
    && forall k :: 0 <= k < n ==> Step(states, jobs, staging, k)
  }

  ghost predicate Step(states: seq<Files>, jobs: seq<Job>, staging: Path, k: nat)
    requires k < |jobs| && k + 1 < |states|
  {
    && Ready(states[k], staging, k, jobs[k].dest) && Apart(StagedPath(staging, k), jobs[k].dest)
    && states[k + 1] == Installed(states[k], staging, k, jobs[k].dest)
  }

  ghost predicate Logged(undo: seq<Undo>, states: seq<Files>, jobs: seq<Job>, staging: Path) {
    && |undo| <= |states| && |undo| <= |jobs|
    && forall k :: 0 <= k < |undo| ==> undo[k] == EntryOf(states[k], jobs[k].dest, JournalPath(staging, k))
  }

  /** The staged copies operations i to n consumed. */
  ghost function Consumed(staging: Path, i: nat, n: nat): set<Path> {
    set k | i <= k < n :: StagedPath(staging, k)
  }

  lemma PrefixChain(a: Path, b: Path, c: Path)
    ensures a <= b && b <= c ==> a <= c
  {
  }

  /** What lies above one path of the staging area from outside lies above all of them. */
  lemma AboveStaging(staging: Path, dest: Path, p: Path, q: Path)
    requires !(staging <= dest) && staging <= p && staging <= q
    ensures dest <= q ==> dest <= p
    ensures !(q <= dest)
  {
    if dest <= q {
      PrefixesMeet(staging, dest, q);
    }
    PrefixChain(dest, staging, p);
    PrefixChain(staging, q, dest);
  }

  /** A destination outside the staging area and not above it is apart from everything in it. */
  lemma OutsideApart(staging: Path, dest: Path, p: Path, q: Path)
    requires !(staging <= dest) && staging <= p && staging <= q && Apart(p, dest)
    ensures Apart(q, dest)
  {
    AboveStaging(staging, dest, p, q);
  }

  lemma InStaging(staging: Path, k: nat)
    ensures staging <= StagedPath(staging, k) && staging <= JournalPath(staging, k) && staging <= StagedDb(staging)
  {
  }

  lemma ConsumedApart(staging: Path, i: nat, n: nat, dest: Path)
    requires !(staging <= dest) && Apart(StagedPath(staging, i), dest)
    ensures forall q :: q in Consumed(staging, i + 1, n) ==> Clear(JournalPath(staging, i), dest, q)
  {
    forall k | i + 1 <= k < n
      ensures Clear(JournalPath(staging, i), dest, StagedPath(staging, k))
    {
      StagingApart(staging, k, i);
      InStaging(staging, i);
      InStaging(staging, k);
      OutsideApart(staging, dest, StagedPath(staging, i), StagedPath(staging, k));
    }
  }

  /** Undoing a whole operation, later ones having been undone already. */
  lemma UndoWhole(f: Files, staging: Path, i: nat, n: nat, dest: Path)
    requires Ready(f, staging, i, dest) && Apart(StagedPath(staging, i), dest) && i < n
    ensures UndoOne(Installed(f, staging, i, dest) - Consumed(staging, i + 1, n),
                    EntryOf(f, dest, JournalPath(staging, i)))
         == f - Consumed(staging, i, n)
  {
    StagingApart(staging, i, i);
    ConsumedApart(staging, i, n, dest);
    UndoInstall(f, dest, JournalPath(staging, i), StagedPath(staging, i), Consumed(staging, i + 1, n));
    assert Consumed(staging, i, n) == Consumed(staging, i + 1, n) + {StagedPath(staging, i)};
  }

  /** Undoing an operation whose backup happened but whose installation did not. */
  lemma UndoHalf(f: Files, staging: Path, i: nat, dest: Path)
    requires Ready(f, staging, i, dest)
    ensures UndoOne(BackedUp(f, dest, JournalPath(staging, i)), EntryOf(f, dest, JournalPath(staging, i))) == f
  {
    UndoBackup(f, dest, JournalPath(staging, i), {});
    MinusNothing(BackedUp(f, dest, JournalPath(staging, i)));
    MinusNothing(f);
  }

  /** The backup can always be moved back, by the rules of os.replace itself. */
  lemma BackupMovable(f: Files, dest: Path, journal: Path, gone: set<Path>)
    requires Exists(f, dest) && Apart(dest, journal) && !Blocked(f, dest)
    requires forall q :: q in gone ==> Clear(journal, dest, q)
    ensures Movable(Rename(f, dest, journal) - gone, journal, dest)
  {
    var b := Rename(f, dest, journal) - gone;
    var q :| q in f && dest <= q;
    MovedBack(q, dest, journal);
    assert Moved(q, dest, journal) in b && journal <= Moved(q, dest, journal);
    if Blocked(b, dest) {
      var p :| p in b && p < dest;
      StillThere(f, dest, journal, p);
      assert false;
    }
  }

  lemma WholeMovable(f: Files, staging: Path, i: nat, n: nat, dest: Path)
    requires Ready(f, staging, i, dest) && Apart(StagedPath(staging, i), dest) && i < n && Exists(f, dest)
    ensures Movable((Installed(f, staging, i, dest) - Consumed(staging, i + 1, n)) - {dest},
                    JournalPath(staging, i), dest)
  {
    StagingApart(staging, i, i);
    ConsumedApart(staging, i, n, dest);
    UndoInstall(f, dest, JournalPath(staging, i), StagedPath(staging, i), Consumed(staging, i + 1, n));
    BackupMovable(f, dest, JournalPath(staging, i), Consumed(staging, i + 1, n) + {StagedPath(staging, i)});
  }

  lemma HalfMovable(f: Files, staging: Path, i: nat, dest: Path)
    requires Ready(f, staging, i, dest) && Exists(f, dest)
    ensures Movable(BackedUp(f, dest, JournalPath(staging, i)) - {dest}, JournalPath(staging, i), dest)
  {
    var b := Rename(f, dest, JournalPath(staging, i));
    BackupMovable(f, dest, JournalPath(staging, i), {});
    assert dest <= dest;
    MinusAbsent(b, dest);
    MinusNothing(b);
  }

  lemma StillThere(f: Files, dest: Path, journal: Path, p: Path)
    requires Apart(dest, journal)
    requires p in Rename(f, dest, journal) && p < dest
    ensures p in f
  {
    PrefixChain(journal, p, dest);
  }

  // ----- what an installation leaves elsewhere -----

  lemma ElsewhereInStaging(f: Files, staging: Path, k: nat, dest: Path, q: Path)
    requires Ready(f, staging, k, dest) && Apart(StagedPath(staging, k), dest)
    requires staging <= q && !(StagedPath(staging, k) <= q) && !(JournalPath(staging, k) <= q)
    ensures Get(Installed(f, staging, k, dest), q) == Get(f, q)
  {
    StagingApart(staging, k, k);
    InStaging(staging, k);
    AboveStaging(staging, dest, StagedPath(staging, k), q);
    BackedUpFree(f, dest, JournalPath(staging, k), StagedPath(staging, k));
    var b := BackedUp(f, dest, JournalPath(staging, k));
    InstalledAt(b, StagedPath(staging, k), dest, q);
    assert Get(b, q) == Get(f, q);
  }

  lemma ElsewhereOutside(f: Files, staging: Path, k: nat, dest: Path, q: Path)
    requires Ready(f, staging, k, dest) && Apart(StagedPath(staging, k), dest)
    requires !(staging <= q)
    ensures Get(Installed(f, staging, k, dest), q)
         == if q == dest then Some(f[StagedPath(staging, k)]) else if dest <= q then None else Get(f, q)
  {
    StagingApart(staging, k, k);
    InStaging(staging, k);
    BackedUpFree(f, dest, JournalPath(staging, k), StagedPath(staging, k));
    var b := BackedUp(f, dest, JournalPath(staging, k));
    InstalledAt(b, StagedPath(staging, k), dest, q);
    PrefixChain(staging, StagedPath(staging, k), q);
    PrefixChain(staging, JournalPath(staging, k), q);
    assert !(dest <= q) ==> Get(b, q) == Get(f, q);
  }

  /** A staged file, alone at its path. */
  predicate Holds(f: Files, p: Path, data: Bytes) {
    p in f && f[p] == data && forall q :: q in f ==> !(p < q)
  }

  /** The staging area from operation i on: staged copies, free journal slots, the staged database. */
  ghost predicate Staged(f: Files, jobs: seq<Job>, staging: Path, i: nat, db: Bytes) {
    && (forall k :: i <= k < |jobs| ==> Holds(f, StagedPath(staging, k), jobs[k].data))
    && (forall k, q :: i <= k < |jobs| && q in f ==> !(JournalPath(staging, k) <= q))
    && Holds(f, StagedDb(staging), db)
    && staging !in f && staging + ["journal"] !in f
  }

  lemma HoldsOn(f: Files, staging: Path, k: nat, dest: Path, p: Path, data: Bytes)
    requires Ready(f, staging, k, dest) && Apart(StagedPath(staging, k), dest)
    requires staging <= p && Apart(p, StagedPath(staging, k)) && Apart(p, JournalPath(staging, k))
    requires Holds(f, p, data)
    ensures Holds(Installed(f, staging, k, dest), p, data)
  {
    var n := Installed(f, staging, k, dest);
    ElsewhereInStaging(f, staging, k, dest, p);
    assert p in n by { assert Get(n, p).Some?; }
    forall q | q in n ensures !(p < q) {
      if p < q {
        PrefixChain(staging, p, q);
        BelowApart(p, StagedPath(staging, k), q);
        BelowApart(p, JournalPath(staging, k), q);
        ElsewhereInStaging(f, staging, k, dest, q);
        assert false;
      }
    }
  }

  lemma BelowApart(p: Path, a: Path, q: Path)
    requires Apart(p, a) && p <= q
    ensures !(a <= q)
  {
    if a <= q {
      PrefixesMeet(p, a, q);
    }
  }

  lemma InstallKeepsStaged(f: Files, jobs: seq<Job>, staging: Path, i: nat, db: Bytes)
    requires i < |jobs| && Staged(f, jobs, staging, i, db)
    requires Ready(f, staging, i, jobs[i].dest) && Apart(StagedPath(staging, i), jobs[i].dest)
    ensures Staged(Installed(f, staging, i, jobs[i].dest), jobs, staging, i + 1, db)
  {
    var n := Installed(f, staging, i, jobs[i].dest);
    forall k | i + 1 <= k < |jobs| ensures Holds(n, StagedPath(staging, k), jobs[k].data) {
      StagingApart(staging, k, i);
      InStaging(staging, k);
      HoldsOn(f, staging, i, jobs[i].dest, StagedPath(staging, k), jobs[k].data);
    }
    forall k, q | i + 1 <= k < |jobs| && q in n ensures !(JournalPath(staging, k) <= q) {
      if JournalPath(staging, k) <= q {
        StagingApart(staging, k, i);
        StagingApart(staging, i, k);
        InStaging(staging, k);
        PrefixChain(staging, JournalPath(staging, k), q);
        BelowApart(JournalPath(staging, k), StagedPath(staging, i), q);
        BelowApart(JournalPath(staging, k), JournalPath(staging, i), q);
        ElsewhereInStaging(f, staging, i, jobs[i].dest, q);
        assert false;
      }
    }
    StagingApart(staging, i, i);
    InStaging(staging, i);
    HoldsOn(f, staging, i, jobs[i].dest, StagedDb(staging), db);
    DirectoriesApart(staging, i);
    ElsewhereInStaging(f, staging, i, jobs[i].dest, staging);
    ElsewhereInStaging(f, staging, i, jobs[i].dest, staging + ["journal"]);
    assert Get(n, staging).None? && Get(n, staging + ["journal"]).None?;
  }

  lemma DirectoriesApart(staging: Path, i: nat)
    ensures !(StagedPath(staging, i) <= staging) && !(JournalPath(staging, i) <= staging)
    ensures !(StagedPath(staging, i) <= staging + ["journal"]) && !(JournalPath(staging, i) <= staging + ["journal"])
  {
    var p, q := StagedPath(staging, i), staging + ["journal"];
    assert p[|staging|][0] == 'f' && q[|staging|][0] == 'j';
  }

  /** What a path outside the staging area holds once these jobs are installed in order. */
  function Expected(f: Files, jobs: seq<Job>, p: Path): Option<Bytes> {
    if jobs == [] then Get(f, p)
    else
      var last := jobs[|jobs| - 1];
      if p == last.dest then Some(last.data)
      else if last.dest <= p then None
      else Expected(f, jobs[..|jobs| - 1], p)
  }

  // ----- the methods -----

  /** Nothing but an operating-system failure can stop the installation of this destination. */
  ghost predicate Reachable(f: Files, staging: Path, dest: Path) {
    && !Blocked(f, dest) && Apart(dest, staging)
    && !(staging in f) && !(staging + ["journal"] in f) && !Blocked(f, staging)
  }

  lemma ReachableMoves(f: Files, staging: Path, n: nat, dest: Path)
    requires forall q :: q in f ==> !(JournalPath(staging, n) <= q)
    ensures Reachable(f, staging, dest) ==>
      && Apart(StagedPath(staging, n), dest) && Apart(dest, JournalPath(staging, n))
      && (Exists(f, dest) ==> Movable(f, dest, JournalPath(staging, n)))
  {
    if Reachable(f, staging, dest) {
      InStaging(staging, n);
      OutsideApart(staging, dest, staging, StagedPath(staging, n));
      OutsideApart(staging, dest, staging, JournalPath(staging, n));
      if Blocked(f, JournalPath(staging, n)) {
        var q :| q in f && q < JournalPath(staging, n);
        AboveJournal(staging, n, q);
        assert false;
      }
    }
  }

  lemma AboveJournal(staging: Path, n: nat, q: Path)
    requires q < JournalPath(staging, n)
    ensures q == staging || q == staging + ["journal"] || q < staging
  {
    var j := JournalPath(staging, n);
    assert q == j[..|q|];
    assert j[..|staging|] == staging && j[..|staging| + 1] == staging + ["journal"];
    if |q| < |staging| {
      assert q == staging[..|q|];
    }
  }

  /** The backup leaves no file in the way of the destination. */
  lemma NotInTheWay(f: Files, dest: Path, journal: Path)
    requires Exists(f, dest) ==> Apart(dest, journal)
    ensures Blocked(BackedUp(f, dest, journal), dest) ==> Blocked(f, dest)
  {
    var b := BackedUp(f, dest, journal);
    if Exists(f, dest) && Blocked(b, dest) {
      var p :| p in b && p < dest;
      StillThere(f, dest, journal, p);
    }
  }

  /** Once the way is clear, the staged copy can be moved in. */
  lemma BackedUpMoves(f: Files, staging: Path, n: nat, dest: Path)
    requires Ready(f, staging, n, dest)
    ensures Movable(BackedUp(f, dest, JournalPath(staging, n)), StagedPath(staging, n), dest) <==>
      Apart(StagedPath(staging, n), dest)
  {
    if Apart(StagedPath(staging, n), dest) {
      StagingApart(staging, n, n);
      BackedUpFree(f, dest, JournalPath(staging, n), StagedPath(staging, n));
      NotInTheWay(f, dest, JournalPath(staging, n));
      assert StagedPath(staging, n) <= StagedPath(staging, n);
    }
  }

  /** One file: make way, back up what is there, log, install. Faults are asked for in that order. */
  method InstallOne(disk: Disk, job: Job, staging: Path, n: nat, fault: nat -> bool)
    returns (ok: bool, entry: Option<Undo>)
    requires !(staging <= job.dest) && Holds(disk.files, StagedPath(staging, n), job.data)
    requires forall q :: q in disk.files ==> !(JournalPath(staging, n) <= q)
    modifies disk
    ensures ok ==>
      && Ready(old(disk.files), staging, n, job.dest) && Apart(StagedPath(staging, n), job.dest)
      && disk.files == Installed(old(disk.files), staging, n, job.dest)
      && entry == Some(EntryOf(old(disk.files), job.dest, JournalPath(staging, n)))
    ensures !fault(3 * n) && !fault(3 * n + 1) && !fault(3 * n + 2) && Reachable(old(disk.files), staging, job.dest) ==>
      ok
    ensures !ok && entry.None? ==> disk.files == old(disk.files)
    ensures !ok && entry.Some? ==>
      && Ready(old(disk.files), staging, n, job.dest)
      && disk.files == BackedUp(old(disk.files), job.dest, JournalPath(staging, n))
      && entry == Some(EntryOf(old(disk.files), job.dest, JournalPath(staging, n)))
  {
    ReachableMoves(disk.files, staging, n, job.dest);
    if fault(3 * n) || Blocked(disk.files, job.dest) {
      return false, None;
    }
    var backup := None;
    if Exists(disk.files, job.dest) {
      var saved := disk.Replace(job.dest, JournalPath(staging, n), fault(3 * n + 1));
      if !saved {
        return false, None;
      }
      backup := Some(JournalPath(staging, n));
    }
    entry := Some(Undo(job.dest, backup));
    BackedUpMoves(old(disk.files), staging, n, job.dest);
    ok := disk.Replace(StagedPath(staging, n), job.dest, fault(3 * n + 2));
  }

  method UndoEntry(disk: Disk, u: Undo)
    requires u.backup.Some? ==> Apart(u.backup.value, u.dest) && Movable(disk.files - {u.dest}, u.backup.value, u.dest)
    modifies disk
    ensures disk.files == UndoOne(old(disk.files), u)
  {
    disk.Unlink(u.dest);
    if u.backup.Some? {
      var _ := disk.Replace(u.backup.value, u.dest, false);
    }
  }

  ghost predicate HalfDone(f: Files, states: seq<Files>, jobs: seq<Job>, staging: Path, i: nat) {
    && i < |states| && i < |jobs|
    && Ready(states[i], staging, i, jobs[i].dest)
    && f == BackedUp(states[i], jobs[i].dest, JournalPath(staging, i))
  }

  /** The entry can be undone, and that leads to g. */
  ghost predicate UndoesTo(f: Files, u: Undo, g: Files) {
    && (u.backup.Some? ==> Apart(u.backup.value, u.dest) && Movable(f - {u.dest}, u.backup.value, u.dest))
    && UndoOne(f, u) == g
  }

  lemma WholeUndone(f: Files, staging: Path, i: nat, n: nat, dest: Path)
    requires Ready(f, staging, i, dest) && Apart(StagedPath(staging, i), dest) && i < n
    ensures UndoesTo(Installed(f, staging, i, dest) - Consumed(staging, i + 1, n),
                     EntryOf(f, dest, JournalPath(staging, i)), f - Consumed(staging, i, n))
  {
    if Exists(f, dest) {
      WholeMovable(f, staging, i, n, dest);
    }
    UndoWhole(f, staging, i, n, dest);
  }

  lemma HalfUndone(f: Files, staging: Path, i: nat, dest: Path)
    requires Ready(f, staging, i, dest)
    ensures UndoesTo(BackedUp(f, dest, JournalPath(staging, i)), EntryOf(f, dest, JournalPath(staging, i)), f)
  {
    if Exists(f, dest) {
      HalfMovable(f, staging, i, dest);
    }
    UndoHalf(f, staging, i, dest);
  }

  /** Undoing entry i is possible, and leads back to the disk before operation i. */
  lemma EntryUndone(f: Files, undo: seq<Undo>, states: seq<Files>, jobs: seq<Job>, staging: Path, whole: nat, i: nat)
    requires Logged(undo, states, jobs, staging) && History(states, jobs, staging, whole)
    requires i < |undo| && i <= whole
    requires if i == whole then HalfDone(f, states, jobs, staging, i)
             else f == states[i + 1] - Consumed(staging, i + 1, whole)
    ensures UndoesTo(f, undo[i], states[i] - Consumed(staging, i, whole))
  {
    if i == whole {
      HalfUndone(states[i], staging, i, jobs[i].dest);
      assert states[i] - Consumed(staging, i, whole) == states[i];
    } else {
      assert Step(states, jobs, staging, i);
      WholeUndone(states[i], staging, i, whole, jobs[i].dest);
    }
  }

  /** The disk the rollback starts from: all operations whole, or one more half done. */
  ghost predicate Interrupted(f: Files, undo: seq<Undo>, states: seq<Files>, jobs: seq<Job>, staging: Path,
                              whole: nat) {
    && Logged(undo, states, jobs, staging) && History(states, jobs, staging, whole)
    && whole <= |undo| <= whole + 1
    && if |undo| == whole then f == states[whole] else HalfDone(f, states, jobs, staging, whole)
  }

  /** Replay the undo log in reverse. */
  method Rollback(disk: Disk, undo: seq<Undo>, ghost states: seq<Files>, ghost jobs: seq<Job>, ghost staging: Path,
                  ghost whole: nat)
    requires Interrupted(disk.files, undo, states, jobs, staging, whole)
    modifies disk
    ensures Outside(disk.files, staging) == Outside(states[0], staging)
  {
    var i := |undo|;
    assert states[whole] - Consumed(staging, whole, whole) == states[whole];
    while i > 0
      invariant 0 <= i <= |undo|
      invariant if i > whole then HalfDone(disk.files, states, jobs, staging, whole)
                else disk.files == states[i] - Consumed(staging, i, whole)
    {
      i := i - 1;
      EntryUndone(disk.files, undo, states, jobs, staging, whole, i);
      UndoEntry(disk, undo[i]);
    }
    NothingLost(states[0], staging, whole);
  }

  lemma NothingLost(f: Files, staging: Path, n: nat)
    ensures Outside(f - Consumed(staging, 0, n), staging) == Outside(f, staging)
  {
    forall k | 0 <= k < n ensures staging <= StagedPath(staging, k) {
      InStaging(staging, k);
    }
  }

  // ----- the whole restore -----

  ghost predicate Destinations(jobs: seq<Job>, staging: Path) {
    forall k :: 0 <= k < |jobs| ==> !(staging <= jobs[k].dest)
  }

  ghost predicate Matches(f0: Files, f: Files, jobs: seq<Job>, staging: Path) {
    forall p :: !(staging <= p) ==> Get(f, p) == Expected(f0, jobs, p)
  }

  lemma MatchesOn(f0: Files, f: Files, jobs: seq<Job>, staging: Path, i: nat)
    requires i < |jobs| && Matches(f0, f, jobs[..i], staging)
    requires Ready(f, staging, i, jobs[i].dest) && Apart(StagedPath(staging, i), jobs[i].dest)
    requires f[StagedPath(staging, i)] == jobs[i].data
    ensures Matches(f0, Installed(f, staging, i, jobs[i].dest), jobs[..i + 1], staging)
  {
    var n := Installed(f, staging, i, jobs[i].dest);
    assert jobs[..i + 1][..i] == jobs[..i];
    forall p | !(staging <= p) ensures Get(n, p) == Expected(f0, jobs[..i + 1], p) {
      ElsewhereOutside(f, staging, i, jobs[i].dest, p);
    }
  }

  /** Nothing stands in the way: no destination lies within another, the staging area or the database,
      and no file or directory of the instance is in the wrong place. */
  ghost predicate Unobstructed(f: Files, jobs: seq<Job>, staging: Path, db: Path) {
    && (forall k :: 0 <= k < |jobs| ==> Reachable(f, staging, jobs[k].dest) && Apart(jobs[k].dest, db))
    && (forall j, k :: 0 <= j < k < |jobs| ==> Apart(jobs[j].dest, jobs[k].dest))
    && !Blocked(f, db) && !IsDirectory(f, db) && Apart(StagedDb(staging), db)
  }

  /** What is there after some installations was there before, or is one of them. */
  lemma {:induction false} ExpectedFrom(f: Files, jobs: seq<Job>, p: Path)
    requires Expected(f, jobs, p).Some?
    ensures p in f || exists j :: 0 <= j < |jobs| && jobs[j].dest == p
  {
    if jobs != [] {
      var n := |jobs| - 1;
      if p != jobs[n].dest {
        ExpectedFrom(f, jobs[..n], p);
        if p !in f {
          var j :| 0 <= j < n && jobs[..n][j].dest == p;
          assert jobs[j].dest == p;
        }
      }
    }
  }

  /** A file outside the staging area is an old one or an installed one. */
  lemma FileFrom(f0: Files, f: Files, jobs: seq<Job>, i: nat, staging: Path, p: Path)
    requires i <= |jobs| && Matches(f0, f, jobs[..i], staging)
    requires p in f && !(staging <= p)
    ensures p in f0 || exists j :: 0 <= j < i && jobs[j].dest == p
  {
    assert Get(f, p).Some?;
    ExpectedFrom(f0, jobs[..i], p);
    if p !in f0 {
      var j :| 0 <= j < i && jobs[..i][j].dest == p;
      assert jobs[j].dest == p;
    }
  }

  lemma StillReachable(f0: Files, f: Files, jobs: seq<Job>, i: nat, staging: Path, db: Path, p: Path)
    requires i <= |jobs| && Matches(f0, f, jobs[..i], staging) && Unobstructed(f0, jobs, staging, db)
    requires !(staging <= p)
    requires !Blocked(f0, p) && forall j :: 0 <= j < i ==> Apart(jobs[j].dest, p)
    ensures !Blocked(f, p)
    ensures !IsDirectory(f0, p) && !(p < staging) ==> !IsDirectory(f, p)
  {
    if Blocked(f, p) {
      var q :| q in f && q < p;
      PrefixChain(staging, q, p);
      FileFrom(f0, f, jobs, i, staging, q);
      assert false;
    }
    if !IsDirectory(f0, p) && !(p < staging) && IsDirectory(f, p) {
      var q :| q in f && p < q;
      if staging <= q {
        PrefixesMeet(staging, p, q);
      } else {
        FileFrom(f0, f, jobs, i, staging, q);
      }
      assert false;
    }
  }

  lemma StillOpen(f0: Files, f: Files, jobs: seq<Job>, i: nat, staging: Path, db: Path)
    requires i < |jobs| && Matches(f0, f, jobs[..i], staging) && Unobstructed(f0, jobs, staging, db)
    ensures !Blocked(f, staging)
  {
    assert Reachable(f0, staging, jobs[i].dest);
    if Blocked(f, staging) {
      var q :| q in f && q < staging;
      FileFrom(f0, f, jobs, i, staging, q);
      assert false;
    }
  }

  lemma ReachableOn(f0: Files, f: Files, jobs: seq<Job>, i: nat, staging: Path, db: Path, data: Bytes)
    requires i < |jobs| && Matches(f0, f, jobs[..i], staging) && Unobstructed(f0, jobs, staging, db)
    requires Staged(f, jobs, staging, i, data)
    ensures Reachable(f, staging, jobs[i].dest)
  {
    assert Reachable(f0, staging, jobs[i].dest);
    StillOpen(f0, f, jobs, i, staging, db);
    StillReachable(f0, f, jobs, i, staging, db, jobs[i].dest);
  }

  /** The ghost record of a run so far: every disk state, and what each operation did. */
  ghost predicate Progress(f: Files, undo: seq<Undo>, states: seq<Files>, jobs: seq<Job>, staging: Path, i: nat,
                           data: Bytes) {
    && i <= |jobs| && |states| == i + 1 && |undo| == i && f == states[i]
    && History(states, jobs, staging, i) && Logged(undo, states, jobs, staging)
    && Staged(f, jobs, staging, i, data) && Matches(states[0], f, jobs[..i], staging)
  }

  lemma Progressed(f: Files, undo: seq<Undo>, states: seq<Files>, jobs: seq<Job>, staging: Path, i: nat, data: Bytes)
    requires Progress(f, undo, states, jobs, staging, i, data) && i < |jobs|
    requires Ready(f, staging, i, jobs[i].dest) && Apart(StagedPath(staging, i), jobs[i].dest)
    ensures var n := Installed(f, staging, i, jobs[i].dest);
      Progress(n, undo + [EntryOf(f, jobs[i].dest, JournalPath(staging, i))], states + [n], jobs, staging, i + 1, data)
  {
    var n, entry := Installed(f, staging, i, jobs[i].dest), EntryOf(f, jobs[i].dest, JournalPath(staging, i));
    InstallKeepsStaged(f, jobs, staging, i, data);
    MatchesOn(states[0], f, jobs, staging, i);
    HistoryOn(states, jobs, staging, i);
    LogOn(undo, states, jobs, staging, n, entry);
  }

  lemma HistoryOn(states: seq<Files>, jobs: seq<Job>, staging: Path, i: nat)
    requires i < |jobs| && |states| == i + 1 && History(states, jobs, staging, i)
    requires Ready(states[i], staging, i, jobs[i].dest) && Apart(StagedPath(staging, i), jobs[i].dest)
    ensures History(states + [Installed(states[i], staging, i, jobs[i].dest)], jobs, staging, i + 1)
  {
    var more := states + [Installed(states[i], staging, i, jobs[i].dest)];
    forall k | 0 <= k < i + 1 ensures Step(more, jobs, staging, k) {
      assert more[k] == states[k];
      if k < i {
        assert Step(states, jobs, staging, k);
      }
    }
  }

  lemma LogOn(undo: seq<Undo>, states: seq<Files>, jobs: seq<Job>, staging: Path, n: Files, entry: Undo)
    requires |undo| < |jobs| && |states| == |undo| + 1 && Logged(undo, states, jobs, staging)
    requires entry == EntryOf(states[|undo|], jobs[|undo|].dest, JournalPath(staging, |undo|))
    ensures Logged(undo + [entry], states + [n], jobs, staging)
  {
  }

  predicate NoFaults(fault: nat -> bool, n: nat) {
    forall k :: 0 <= k < n ==> !fault(k)
  }

  /** Install every file, or undo all of it. */
  method InstallAll(disk: Disk, jobs: seq<Job>, staging: Path, ghost db: Path, ghost data: Bytes, fault: nat -> bool)
    returns (ok: bool, undo: seq<Undo>, ghost states: seq<Files>)
    requires Staged(disk.files, jobs, staging, 0, data) && Destinations(jobs, staging)
    modifies disk
    ensures !ok ==> Outside(disk.files, staging) == Outside(old(disk.files), staging)
    ensures ok ==> Progress(disk.files, undo, states, jobs, staging, |jobs|, data) && states[0] == old(disk.files)
    ensures NoFaults(fault, 3 * |jobs|) && Unobstructed(old(disk.files), jobs, staging, db) ==> ok
  {
    undo, states := [], [disk.files];
    assert jobs[..0] == [];
    for i := 0 to |jobs|
      invariant Progress(disk.files, undo, states, jobs, staging, i, data)
      invariant states[0] == old(disk.files)
    {
      ghost var f := disk.files;
      if Unobstructed(states[0], jobs, staging, db) {
        ReachableOn(states[0], f, jobs, i, staging, db, data);
      }
      var installed, entry := InstallOne(disk, jobs[i], staging, i, fault);
      if installed {
        Progressed(f, undo, states, jobs, staging, i, data);
      } else {
        StoppedAt(f, disk.files, undo, states, jobs, staging, i, data, entry);
      }
      if entry.Some? {
        undo := undo + [entry.value];
      }
      if !installed {
        Rollback(disk, undo, states, jobs, staging, i);
        return false, undo, states;
      }
      states := states + [disk.files];
    }
    return true, undo, states;
  }

  /** An operation that stopped, before or after its backup, can be rolled back. */
  lemma StoppedAt(f: Files, g: Files, undo: seq<Undo>, states: seq<Files>, jobs: seq<Job>, staging: Path, i: nat,
                  data: Bytes, entry: Option<Undo>)
    requires i < |jobs| && Progress(f, undo, states, jobs, staging, i, data)
    requires entry.None? ==> g == f
    requires entry.Some? ==> HalfDone(g, states, jobs, staging, i)
    requires entry.Some? ==> entry.value == EntryOf(f, jobs[i].dest, JournalPath(staging, i))
    ensures Interrupted(g, if entry.Some? then undo + [entry.value] else undo, states, jobs, staging, i)
  {
    if entry.Some? {
      LogMore(undo, states, jobs, staging, entry.value);
    }
  }

  lemma LogMore(undo: seq<Undo>, states: seq<Files>, jobs: seq<Job>, staging: Path, entry: Undo)
    requires |undo| < |jobs| && |undo| < |states| && Logged(undo, states, jobs, staging)
    requires entry == EntryOf(states[|undo|], jobs[|undo|].dest, JournalPath(staging, |undo|))
    ensures Logged(undo + [entry], states, jobs, staging)
  {
  }

  /** Install every file, then promote the staged database; undo everything when anything fails. */
  method Restore(disk: Disk, jobs: seq<Job>, staging: Path, db: Path, ghost data: Bytes, fault: nat -> bool)
    returns (ok: bool)
    requires Staged(disk.files, jobs, staging, 0, data) && Destinations(jobs, staging) && !(staging <= db)
    modifies disk
    ensures !ok ==> Outside(disk.files, staging) == Outside(old(disk.files), staging)
    ensures ok ==> forall p :: !(staging <= p) ==>
      Get(disk.files, p) == if p == db then Some(data) else Expected(old(disk.files), jobs, p)
    ensures NoFaults(fault, 3 * |jobs| + 1) && Unobstructed(old(disk.files), jobs, staging, db) ==> ok
  {
    var undo;
    ghost var states;
    ok, undo, states := InstallAll(disk, jobs, staging, db, data, fault);
    if !ok {
      return;
    }
    assert jobs[..|jobs|] == jobs;
    ghost var f := disk.files;
    if Unobstructed(states[0], jobs, staging, db) {
      StillReachable(states[0], f, jobs, |jobs|, staging, db, db);
    }
    ok := disk.Replace(StagedDb(staging), db, fault(3 * |jobs|));
    if !ok {
      Rollback(disk, undo, states, jobs, staging, |jobs|);
    } else {
      Promoted(f, staging, db, data);
    }
  }

  /** Promotion replaces the database file and nothing else outside the staging area. */
  lemma Promoted(f: Files, staging: Path, db: Path, data: Bytes)
    requires Holds(f, StagedDb(staging), data) && !(staging <= db) && Movable(f, StagedDb(staging), db)
    ensures forall p :: !(staging <= p) ==>
      Get(Rename(f, StagedDb(staging), db), p) == if p == db then Some(data) else Get(f, p)
  {
    var s := StagedDb(staging);
    forall p | !(staging <= p)
      ensures Get(Rename(f, s, db), p) == if p == db then Some(data) else Get(f, p)
    {
      PrefixChain(staging, s, p);
      if p == db {
        assert Origin(p, s, db) == s;
      } else if db <= p {
        assert s < Origin(p, s, db);
      } else {
        assert Origin(p, s, db) == p;
      }
    }
  }
}
