/**
 A small abstract file system: the part of fs-extra that the screenshot
 service relies on (`pathExists`/`exists`, `stat`, `ensureDir`, `remove`)
 and the file write done by the renderer.

 A path is the list of its components below the root, so `path.join` is
 list concatenation and "p lies inside directory d" is "d is a prefix of p".
 The file system maps each existing path to what is there: a file or a
 directory, each with its last-modification time.
 */
module FileSystem {
  import opened Wrappers

  type Path = seq<string>

  /** A path other than the root itself. */
  type NonRootPath = p: Path | p != [] witness ["tmp"]

  datatype Entry = File(mtime: int) | Dir(mtime: int)

  type Entries = map<Path, Entry>

  /** `p` is `dir` itself or lies somewhere below it. */
  predicate IsUnder(p: Path, dir: Path) {
    |dir| <= |p| && p[..|dir|] == dir
  }

  /** The directories `mkdir -p p` has to see: every non-empty prefix of `p`, `p` included. */
  function Ancestors(p: Path): (a: set<Path>)
    ensures p != [] ==> p in a
    ensures forall q :: q in a ==> q != [] && IsUnder(p, q)
  {
    assert p != [] ==> p[..|p|] == p;
    set k | 1 <= k <= |p| :: p[..k]
  }

  /** No prefix of `p` is occupied by a file, so `mkdir -p p` can succeed. */
  predicate CanMakeDirs(e: Entries, p: Path) {
    forall q :: q in Ancestors(p) && q in e ==> e[q].Dir?
  }

  /**
   `ensureDir(p)` at time `now`: creates `p` and every missing parent as
   directories. It fails, changing nothing, when a prefix of `p` is a file.
   */
  function MakeDirs(e: Entries, p: Path, now: int): (r: Option<Entries>)
    ensures r.Some? <==> CanMakeDirs(e, p)
    ensures r.Some? ==> forall q :: q in Ancestors(p) ==> q in r.value && r.value[q].Dir?
    ensures r.Some? ==> forall q :: q in e ==> q in r.value && r.value[q] == e[q]
    ensures r.Some? ==> forall q :: q in r.value && q !in e ==> q in Ancestors(p) && r.value[q] == Dir(now)
  {
    if CanMakeDirs(e, p) then
      Some(e + map q | q in Ancestors(p) && q !in e :: Dir(now))
    else
      None
  }

  /** `remove(p)`: deletes `p` and everything below it, and nothing else. */
  function RemoveTree(e: Entries, p: Path): (r: Entries)
    ensures forall q :: q in r <==> q in e && !IsUnder(q, p)
    ensures forall q :: q in r ==> r[q] == e[q]
  {
    map q | q in e && !IsUnder(q, p) :: e[q]
  }

  /** The mutable file system shared by every service instance of one process. */
  class Disk {
    var entries: Entries

    constructor (initial: Entries)
      ensures entries == initial
    {
      entries := initial;
    }

    /** `pathExists(p)` and `exists(p)`: true for files and directories alike. */
    method PathExists(p: Path) returns (b: bool)
      ensures b <==> p in entries
    {
      b := p in entries;
    }

    /** `stat(p)`, called only on a path just found to exist. */
    method Stat(p: Path) returns (entry: Entry)
      requires p in entries
      ensures entry == entries[p]
    {
      entry := entries[p];
    }

    /** `ensureDir(p)`; `ok` is false when it throws. */
    method EnsureDir(p: Path, now: int) returns (ok: bool)
      modifies this
      ensures ok <==> CanMakeDirs(old(entries), p)
      ensures entries == if ok then MakeDirs(old(entries), p, now).value else old(entries)
    {
      var made := MakeDirs(entries, p, now);
      ok := made.Some?;
      if ok {
        entries := made.value;
      }
    }

    /** `remove(p)`. */
    method Remove(p: Path)
      modifies this
      ensures entries == RemoveTree(old(entries), p)
    {
      entries := RemoveTree(entries, p);
    }

    /** Writes (or overwrites) the file at `p`, stamping it with `now`. */
    method WriteFile(p: Path, now: int)
      modifies this
      ensures entries == old(entries)[p := File(now)]
    {
      entries := entries[p := File(now)];
    }
  }
}
