/**
 * The slice of a local filesystem that the storage service touches: a tree
 * of directories and regular files, and the three operating-system calls the
 * service makes on it (`File.mkdir`, `File.delete`, `FileUtils.copyFile`).
 */
module FileSystem {
  import opened Wrappers

  /** A path is the sequence of its segments from the filesystem root; `[]` is `/`. */
  type Path = seq<string>

  type Bytes = seq<bv8>

  datatype Node = Dir | File(content: Bytes)

  /** Every existing path and what lives there. */
  type FileTree = map<Path, Node>

  function Parent(p: Path): Path
    requires p != []
  {
    p[..|p| - 1]
  }

  /** `Path.resolve(segment)` for a name that is one segment. */
  function Child(p: Path, segment: string): Path
  {
    p + [segment]
  }

  /** `File.getName()` / `Path.getFileName()`: the last segment. */
  function BaseName(p: Path): string
  {
    if p == [] then "" else p[|p| - 1]
  }

  /** `q` is an immediate entry of directory `p`. */
  predicate IsChild(q: Path, p: Path)
  {
    |q| == |p| + 1 && q[..|p|] == p
  }

  predicate IsDirectory(fs: FileTree, p: Path)
  {
    p in fs && fs[p].Dir?
  }

  predicate IsRegularFile(fs: FileTree, p: Path)
  {
    p in fs && fs[p].File?
  }

  predicate HasChildren(fs: FileTree, p: Path)
  {
    exists q :: q in fs && IsChild(q, p)
  }

  /** A hierarchical filesystem: `/` is a directory and every other node hangs off a directory. */
  ghost predicate WellFormed(fs: FileTree)
  {
    && IsDirectory(fs, [])
    && forall p :: p in fs && p != [] ==> IsDirectory(fs, Parent(p))
  }

  /**
   * `File.mkdir()`: creates exactly the directory `p`, and only when `p` does
   * not exist yet and its parent is a directory. `permitted` is the operating
   * system's own verdict (permissions, space, races) on a call that could succeed.
   */
  function Mkdir(fs: FileTree, p: Path, permitted: bool): Option<FileTree>
  {
    if permitted && p != [] && p !in fs && IsDirectory(fs, Parent(p)) then Some(fs[p := Dir]) else None
  }

  /**
   * `File.delete()`: removes a regular file or an empty directory and fails
   * on anything else (a missing node, a non-empty directory, the root).
   */
  function Delete(fs: FileTree, p: Path, permitted: bool): Option<FileTree>
  {
    if permitted && p != [] && p in fs && (fs[p].File? || !HasChildren(fs, p)) then Some(fs - {p}) else None
  }

  /**
   * `FileUtils.copyFile(source, destination)`: the destination becomes a regular
   * file holding the source's bytes, replacing a file already there. It fails
   * when the source is not a regular file, when source and destination are the
   * same file, when the destination is a directory or has no directory above
   * it, or when the operating system refuses.
   */
  function CopyFile(fs: FileTree, source: Path, destination: Path, permitted: bool): Option<FileTree>
  {
    if permitted && IsRegularFile(fs, source) && source != destination
       && destination != [] && !IsDirectory(fs, destination)
       && IsDirectory(fs, Parent(destination))
    then Some(fs[destination := File(fs[source].content)])
    else None
  }

  lemma MkdirKeepsWellFormed(fs: FileTree, p: Path, permitted: bool)
    requires WellFormed(fs)
    ensures var r := Mkdir(fs, p, permitted);
            r.Some? ==> WellFormed(r.value) && r.value.Keys == fs.Keys + {p} && IsDirectory(r.value, p)
                        && forall q :: q in fs ==> r.value[q] == fs[q]
  {
  }

  lemma DeleteKeepsWellFormed(fs: FileTree, p: Path, permitted: bool)
    requires WellFormed(fs)
    ensures var r := Delete(fs, p, permitted);
            r.Some? ==> WellFormed(r.value) && r.value.Keys == fs.Keys - {p}
                        && forall q :: q in r.value ==> r.value[q] == fs[q]
  {
  }

  lemma CopyFileKeepsWellFormed(fs: FileTree, source: Path, destination: Path, permitted: bool)
    requires WellFormed(fs)
    ensures var r := CopyFile(fs, source, destination, permitted);
            r.Some? ==> WellFormed(r.value) && r.value.Keys == fs.Keys + {destination}
                        && r.value[destination] == fs[source]
                        && forall q :: q in fs && q != destination ==> r.value[q] == fs[q]
  {
  }
}
