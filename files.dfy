/**
  The filesystem as the Provisioner sees it: a set of existing paths, and a
  log of the calls made on it (existence probes, recursive removals,
  directory creation, archive extraction), in the order they were made.
 */
module Files {

  type Path = string

  /** `name` placed under `dir`: the two joined by one separator. */
  function Join(dir: Path, name: string): Path {
    dir + "/" + name
  }

  /** `p` is `root` itself or lies somewhere below it. */
  predicate Covers(root: Path, p: Path) {
    p == root || (|p| > |root| && p[..|root|] == root && p[|root|] == '/')
  }

  /** A joined path splits back into its directory and its name, and lies below the directory. */
  lemma JoinSplits(dir: Path, name: string)
    ensures Join(dir, name)[..|dir|] == dir
    ensures Join(dir, name)[|dir| + 1..] == name
    ensures Covers(dir, Join(dir, name)) && Join(dir, name) != dir
  {
  }

  /** Being below is transitive: what lies below `b` lies below anything `b` lies below. */
  lemma CoversTransitive(a: Path, b: Path, c: Path)
    requires Covers(a, b) && Covers(b, c)
    ensures Covers(a, c)
  {
  }

  /** One observed call on the filesystem. A probe records what it answered. */
  datatype Call =
    | Probe(path: Path, found: bool)
    | Remove(path: Path)
    | MakeDirs(path: Path)
    | Extract(archive: Path, target: Path)

  /** The filesystem's state: which paths exist, and the calls made so far. */
  datatype Disk = Disk(existing: set<Path>, calls: seq<Call>)

  /** `s` without `root` and everything below it. */
  function Pruned(s: set<Path>, root: Path): set<Path> {
    set p | p in s && !Covers(root, p)
  }

  /** The paths an archive with the given entry names occupies once unpacked into `dir`. */
  function Unpacked(dir: Path, entries: seq<string>): set<Path> {
    set e | e in entries :: Join(dir, e)
  }

  // The effect of each filesystem call on a Disk.

  function AfterProbe(d: Disk, p: Path): Disk {
    Disk(d.existing, d.calls + [Probe(p, p in d.existing)])
  }

  function AfterRemove(d: Disk, p: Path): Disk {
    Disk(Pruned(d.existing, p), d.calls + [Remove(p)])
  }

  function AfterMakeDirs(d: Disk, p: Path): Disk {
    Disk(d.existing + {p}, d.calls + [MakeDirs(p)])
  }

  function AfterExtract(d: Disk, archive: Path, dir: Path, entries: seq<string>): Disk {
    Disk(d.existing + Unpacked(dir, entries), d.calls + [Extract(archive, dir)])
  }

  /** The paths probed, in order. */
  function Probed(calls: seq<Call>): seq<Path> {
    if calls == [] then []
    else Probed(calls[..|calls| - 1]) + (if calls[|calls| - 1].Probe? then [calls[|calls| - 1].path] else [])
  }

  /** The paths removed, in order. */
  function Removed(calls: seq<Call>): seq<Path> {
    if calls == [] then []
    else Removed(calls[..|calls| - 1]) + (if calls[|calls| - 1].Remove? then [calls[|calls| - 1].path] else [])
  }

  /**
    Every removal comes right after a probe of the same path that found it,
    and every probe that found its path is followed right away by its removal.
   */
  ghost predicate ProbeGuardsRemoval(calls: seq<Call>) {
    && (forall i :: 0 <= i < |calls| && calls[i].Remove? ==>
          0 < i && calls[i - 1] == Probe(calls[i].path, true))
    && (forall i :: 0 <= i < |calls| && calls[i].Probe? && calls[i].found ==>
          i + 1 < |calls| && calls[i + 1] == Remove(calls[i].path))
  }

  /** The operating system's filesystem, as a mutable object. */
  class FileSystem {
    var existing: set<Path>
    var calls: seq<Call>

    function State(): Disk
      reads this
    {
      Disk(existing, calls)
    }

    constructor (existing: set<Path>)
      ensures State() == Disk(existing, [])
    {
      this.existing := existing;
      calls := [];
    }

    /** Does `p` exist? */
    method Exists(p: Path) returns (found: bool)
      modifies this
      ensures found <==> p in old(existing)
      ensures State() == AfterProbe(old(State()), p)
    {
      found := p in existing;
      calls := calls + [Probe(p, found)];
    }

    /** Removes `p` and everything below it; `p` must exist. */
    method RemoveTree(p: Path)
      requires p in existing
      modifies this
      ensures State() == AfterRemove(old(State()), p)
    {
      existing := Pruned(existing, p);
      calls := calls + [Remove(p)];
    }

    /** Creates `p` unless it already exists; never an error. */
    method EnsureDir(p: Path)
      modifies this
      ensures State() == AfterMakeDirs(old(State()), p)
    {
      existing := existing + {p};
      calls := calls + [MakeDirs(p)];
    }

    /** Unpacks `archive`, whose entries are `entries`, into `dir`. */
    method Unzip(archive: Path, dir: Path, entries: seq<string>)
      modifies this
      ensures State() == AfterExtract(old(State()), archive, dir, entries)
      ensures forall p :: p in existing - old(existing) ==> Covers(dir, p) && p != dir
    {
      existing := existing + Unpacked(dir, entries);
      calls := calls + [Extract(archive, dir)];
    }
  }
}
