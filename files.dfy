/** The filesystem as create_AD_json sees it: paths that exist or not, regular files
    with text content, the `cp` it shells out to, and a file handle opened with "r+". */
module Files {
  import opened Wrappers

  /** A `pathlib.Path`, split into its parent directory and its final component. */
  datatype Path = Path(dir: string, name: string)

  /** What a path names: a regular file, a directory, or anything else that exists
      but is not a regular file (a device, a socket, a FIFO). */
  datatype Node = RegularFile(content: string) | Directory | Special

  type Tree = map<Path, Node>

  predicate Exists(tree: Tree, p: Path) {
    p in tree
  }

  predicate IsFile(tree: Tree, p: Path) {
    p in tree && tree[p].RegularFile?
  }

  /** check_path_exists_is_file: the path itself for an existing regular file,
      `None` (Python's `False`) otherwise. */
  function CheckPathExistsIsFile(tree: Tree, p: Path): (r: Option<Path>)
    ensures r.Some? ==> r.value == p && IsFile(tree, p)
    ensures IsFile(tree, p) ==> r == Some(p)
    ensures !Exists(tree, p) ==> r == None
    ensures p in tree && tree[p].Directory? ==> r == None
  {
    if Exists(tree, p) then
      if IsFile(tree, p) then Some(p) else None
    else None
  }

  /** The content after writing `data` at offset `pos` of `c`: bytes under the write are
      replaced, the file grows if the write runs past its end, nothing else moves. */
  function Overwrite(c: string, pos: nat, data: string): (r: string)
    requires pos <= |c|
    ensures |r| == if pos + |data| < |c| then |c| else pos + |data|
    ensures r[..pos] == c[..pos]
    ensures r[pos..pos + |data|] == data
    ensures forall i :: pos + |data| <= i < |c| ==> r[i] == c[i]
  {
    c[..pos] + data + (if pos + |data| < |c| then c[pos + |data|..] else [])
  }

  /** A write at the end of the content appends. */
  lemma WriteAtEndAppends(c: string, data: string)
    ensures Overwrite(c, |c|, data) == c + data
  {
    var r := Overwrite(c, |c|, data);
    assert r[..|c|] == c;
    assert r[|c|..] == data;
    assert r == r[..|c|] + r[|c|..];
  }

  /** A write into emptied content leaves exactly what was written. */
  lemma WriteIntoEmpty(data: string)
    ensures Overwrite([], 0, data) == data
  {
    var r := Overwrite([], 0, data);
    assert r[0..|data|] == data;
  }

  class FileSystem {
    var tree: Tree

    constructor (tree: Tree)
      ensures this.tree == tree
    {
      this.tree := tree;
    }

    /** `os.system("cp src dst")`: `dst` becomes a regular file holding the content of
        `src`; every other path is untouched. */
    method Copy(src: Path, dst: Path)
      requires IsFile(tree, src)
      modifies this
      ensures tree == old(tree)[dst := RegularFile(old(tree)[src].content)]
    {
      tree := tree[dst := RegularFile(tree[src].content)];
    }
  }

  /** A text file opened with `open(path, "r+")`: reads and writes go through one
      position, which starts at 0. */
  class Handle {
    const fs: FileSystem
    const path: Path
    var pos: nat

    ghost predicate Valid()
      reads this, fs
    {
      IsFile(fs.tree, path) && pos <= |fs.tree[path].content|
    }

    /** The current content of the open file. */
    ghost function Content(): string
      reads this, fs
      requires IsFile(fs.tree, path)
    {
      fs.tree[path].content
    }

    constructor Open(fs: FileSystem, path: Path)
      requires IsFile(fs.tree, path)
      ensures this.fs == fs && this.path == path && pos == 0
      ensures Valid()
    {
      this.fs := fs;
      this.path := path;
      pos := 0;
    }

    /** `f.read()`: everything from the position to the end; the position ends at the end. */
    method Read() returns (s: string)
      requires Valid()
      modifies this
      ensures Valid()
      ensures s == Content()[old(pos)..] && pos == |Content()|
    {
      s := fs.tree[path].content[pos..];
      pos := |fs.tree[path].content|;
    }

    /** `f.write(data)` at the current position; the position moves past what was written. */
    method Write(data: string)
      requires Valid()
      modifies this, fs
      ensures Valid()
      ensures fs.tree == old(fs.tree)[path := RegularFile(Overwrite(old(Content()), old(pos), data))]
      ensures pos == old(pos) + |data|
    {
      var c := fs.tree[path].content;
      fs.tree := fs.tree[path := RegularFile(Overwrite(c, pos, data))];
      pos := pos + |data|;
    }

    /** `f.seek(offset)`. */
    method Seek(offset: nat)
      requires Valid() && offset <= |Content()|
      modifies this
      ensures Valid() && pos == offset
    {
      pos := offset;
    }

    /** `f.truncate()`: the content is cut at the current position. */
    method Truncate()
      requires Valid()
      modifies fs
      ensures Valid()
      ensures fs.tree == old(fs.tree)[path := RegularFile(old(Content())[..pos])]
    {
      fs.tree := fs.tree[path := RegularFile(fs.tree[path].content[..pos])];
    }
  }
}
