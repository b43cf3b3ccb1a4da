/**
 * The part of `java.io.File` that `to(downloadDir)` uses, over an abstract filesystem:
 * a map from path to entry. Whether `mkdirs()` or `delete()` succeeds depends on more
 * than the map holds (permissions of parents, open handles), so each is an oracle: the
 * set of paths where it would succeed.
 */
module FileSystems {
  import opened Naming

  datatype Entry = Dir(writable: bool) | File(size: nat, writable: bool)

  /** The length `File.length()` reports: 0 for a missing path; a directory's is unspecified, 0 here. */
  function LengthIn(entries: map<Path, Entry>, p: Path): nat {
    if p in entries && entries[p].File? then entries[p].size else 0
  }

  /** Whether `p` is absent from both maps or present in both with the same entry. */
  predicate SameAt(m: map<Path, Entry>, m': map<Path, Entry>, p: Path) {
    (p in m <==> p in m') && (p in m ==> m[p] == m'[p])
  }

  class FileSystem {
    var entries: map<Path, Entry>
    /** Paths where `mkdirs()` would create the directory. */
    const creatable: set<Path>
    /** Paths where `delete()` would remove the entry. */
    const deletable: set<Path>

    constructor (entries: map<Path, Entry>, creatable: set<Path>, deletable: set<Path>)
      ensures this.entries == entries && this.creatable == creatable && this.deletable == deletable
    {
      this.entries := entries;
      this.creatable := creatable;
      this.deletable := deletable;
    }

    predicate Exists(p: Path)
      reads this
    {
      p in entries
    }

    predicate IsDirectory(p: Path)
      reads this
    {
      p in entries && entries[p].Dir?
    }

    predicate CanWrite(p: Path)
      reads this
    {
      p in entries && entries[p].writable
    }

    function Length(p: Path): nat
      reads this
    {
      LengthIn(entries, p)
    }

    /** Creates a writable directory at a missing path, if the oracle lets it. */
    method Mkdirs(p: Path) returns (created: bool)
      modifies this
      ensures created <==> p !in old(entries) && p in creatable
      ensures entries == if created then old(entries)[p := Dir(true)] else old(entries)
    {
      created := p !in entries && p in creatable;
      if created {
        entries := entries[p := Dir(true)];
      }
    }

    /** Removes an existing entry, if the oracle lets it. */
    method Delete(p: Path) returns (deleted: bool)
      modifies this
      ensures deleted <==> p in old(entries) && p in deletable
      ensures entries == if deleted then old(entries) - {p} else old(entries)
    {
      deleted := p in entries && p in deletable;
      if deleted {
        entries := entries - {p};
      }
    }
  }
}
