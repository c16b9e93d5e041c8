/** Files and directories as the archive restore uses them: a path is its list of components, and
    moving a directory moves everything below it. */
module FileSystem {
  import opened Basics

  type Path = seq<string>
  type Bytes = string
  type Files = map<Path, Bytes>

  /** Neither path lies at or below the other. */
  predicate Apart(p: Path, q: Path) {
    !(p <= q) && !(q <= p)
  }

  /** Something is there: a file, or a directory that holds one. */
  predicate Exists(f: Files, p: Path) {
    exists q :: q in f && p <= q
  }

  predicate IsDirectory(f: Files, p: Path) {
    exists q :: q in f && p < q
  }

  /** A component of the way to the path is a file. */
  predicate Blocked(f: Files, p: Path) {
    exists q :: q in f && q < p
  }

  function Get(f: Files, p: Path): Option<Bytes> {
    if p in f then Some(f[p]) else None
  }

  /** Where the content now at q was before src moved to dst. */
  function Origin(q: Path, src: Path, dst: Path): Path {
    if dst <= q then src + q[|dst|..] else q
  }

  function Moved(p: Path, src: Path, dst: Path): Path {
    if src <= p then dst + p[|src|..] else p
  }

  lemma MovedBack(p: Path, src: Path, dst: Path)
    requires src <= p
    ensures Moved(p, src, dst) == dst + p[|src|..] && Origin(Moved(p, src, dst), src, dst) == p
  {
    assert (dst + p[|src|..])[|dst|..] == p[|src|..];
    assert src + p[|src|..] == p;
  }

  /** src, and whatever lies below it, now at dst; what was at dst is gone. */
  function Rename(f: Files, src: Path, dst: Path): (r: Files)
    requires Apart(src, dst)
    ensures forall q :: q in r <==> if dst <= q then Origin(q, src, dst) in f else q in f && !(src <= q)
    ensures forall q :: q in r ==> r[q] == f[Origin(q, src, dst)]
  {
    RenameKeys(f, src, dst);
    map q | q in RenamedKeys(f, src, dst) :: f[Origin(q, src, dst)]
  }

  function RenamedKeys(f: Files, src: Path, dst: Path): set<Path> {
    (set p | p in f && !(src <= p) && !(dst <= p)) + (set p | p in f && src <= p :: Moved(p, src, dst))
  }

  lemma RenameKeys(f: Files, src: Path, dst: Path)
    requires Apart(src, dst)
    ensures forall q :: q in RenamedKeys(f, src, dst) <==>
      if dst <= q then Origin(q, src, dst) in f else q in f && !(src <= q)
  {
    forall q | dst <= q && Origin(q, src, dst) in f ensures q in RenamedKeys(f, src, dst) {
      var p := Origin(q, src, dst);
      assert p[|src|..] == q[|dst|..];
      assert Moved(p, src, dst) == q;
    }
    forall p | p in f && src <= p ensures dst <= Moved(p, src, dst) && Origin(Moved(p, src, dst), src, dst) == p {
      MovedBack(p, src, dst);
    }
  }

  /** os.replace, as far as its own rules go: it refuses to move a path into itself, through a file, or
      onto a directory. */
  predicate Movable(f: Files, src: Path, dst: Path) {
    Exists(f, src) && Apart(src, dst) && !Blocked(f, dst) && !IsDirectory(f, dst)
  }

  class Disk {
    var files: Files

    constructor (files: Files)
      ensures this.files == files
    {
      this.files := files;
    }

    /** os.replace; `fault` is a failure of the operating system, before anything moved. */
    method Replace(src: Path, dst: Path, fault: bool) returns (ok: bool)
      modifies this
      ensures ok <==> !fault && Movable(old(files), src, dst)
      ensures files == if ok then Rename(old(files), src, dst) else old(files)
    {
      ok := !fault && Movable(files, src, dst);
      if ok {
        files := Rename(files, src, dst);
      }
    }

    /** unlink(missing_ok=True) */
    method Unlink(p: Path)
      modifies this
      ensures files == old(files) - {p}
    {
      files := files - {p};
    }

    method Write(p: Path, data: Bytes)
      modifies this
      ensures files == old(files)[p := data]
    {
      files := files[p := data];
    }

    /** rmtree */
    method RemoveTree(dir: Path)
      modifies this
      ensures files == Outside(old(files), dir)
    {
      files := Outside(files, dir);
    }
  }

  /** The files that do not lie at or below a directory. */
  function Outside(f: Files, dir: Path): Files {
    map p | p in f && !(dir <= p) :: f[p]
  }
}
