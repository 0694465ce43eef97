/**
 * The part of `pathlib` and `shutil` the testbench relies on, over a
 * filesystem modelled as a map from path to text content plus a set of
 * directories. Paths are `/`-separated strings; pathlib's normalisation
 * (collapsing `//` and `.` components) is not modelled.
 */
module Fs {
  import opened Common

  type Path = string

  predicate IsAbsolute(p: Path) {
    |p| > 0 && p[0] == '/'
  }

  /** `base / rel`: an absolute `rel` replaces `base`. */
  function Join(base: Path, rel: string): (r: Path)
    ensures !IsAbsolute(rel) ==> r == base + "/" + rel
    ensures IsAbsolute(rel) ==> r == rel
  {
    if IsAbsolute(rel) then rel else base + "/" + rel
  }

  /** `Path(p).absolute()` relative to the working directory `cwd`. */
  function Absolute(cwd: Path, p: string): Path {
    if IsAbsolute(p) then p else Join(cwd, p)
  }

  /** The directory part (up to and including the last `/`) and the final name. */
  function SplitName(p: Path): (r: (Path, string))
    ensures r.0 + r.1 == p
    ensures '/' !in r.1
    ensures r.0 == [] || r.0[|r.0| - 1] == '/'
    decreases |p|
  {
    if p == [] then ([], [])
    else if p[|p| - 1] == '/' then (p, [])
    else
      var (d, n) := SplitName(p[..|p| - 1]);
      assert p == p[..|p| - 1] + [p[|p| - 1]];
      (d, n + [p[|p| - 1]])
  }

  /** `Path.name` */
  function Name(p: Path): string {
    SplitName(p).1
  }

  function DirPart(p: Path): Path {
    SplitName(p).0
  }

  /** A name without `/` appended to a directory part is that directory's entry. */
  lemma {:induction false} SplitNameOfEntry(d: Path, n: string)
    requires d == [] || d[|d| - 1] == '/'
    requires '/' !in n
    ensures SplitName(d + n) == (d, n)
    decreases |n|
  {
    if n == [] {
      assert d + n == d;
      if d != [] {
        assert (d + n)[|d + n| - 1] == '/';
      }
    } else {
      var p := d + n;
      assert p[|p| - 1] == n[|n| - 1];
      assert p[..|p| - 1] == d + n[..|n| - 1];
      SplitNameOfEntry(d, n[..|n| - 1]);
      assert n == n[..|n| - 1] + [n[|n| - 1]];
    }
  }

  /** The name of `base / n` is `n` when `n` is a plain name. */
  lemma NameOfJoin(base: Path, n: string)
    requires '/' !in n && n != []
    ensures Name(Join(base, n)) == n
    ensures DirPart(Join(base, n)) == base + "/"
  {
    assert !IsAbsolute(n);
    assert Join(base, n) == (base + "/") + n;
    SplitNameOfEntry(base + "/", n);
  }

  /** The position of the last `.` in `n`, if any (`str.rfind`). */
  function LastDot(n: string): (r: Option<nat>)
    ensures r.Some? ==> r.value < |n| && n[r.value] == '.'
    ensures r.None? ==> '.' !in n
    decreases |n|
  {
    if n == [] then None
    else if n[|n| - 1] == '.' then Some(|n| - 1)
    else
      assert n == n[..|n| - 1] + [n[|n| - 1]];
      LastDot(n[..|n| - 1])
  }

  /** Where `PurePath.suffix` starts: a last dot that is neither first nor last. */
  function SuffixStart(n: string): Option<nat> {
    match LastDot(n)
    case Some(i) => if 0 < i < |n| - 1 then Some(i) else None
    case None => None
  }

  /** `PurePath.stem` of a name. */
  function Stem(n: string): (r: string)
    ensures |r| <= |n| && r == n[..|r|]
  {
    match SuffixStart(n)
    case Some(i) => n[..i]
    case None => n
  }

  /** `PurePath.suffix` of a name. */
  function Suffix(n: string): (r: string)
    ensures Stem(n) + r == n
  {
    match SuffixStart(n)
    case Some(i) => assert n == n[..i] + n[i..]; n[i..]
    case None => []
  }

  /**
   * `p.with_suffix(suf)`: the final suffix of the name replaced by `suf`;
   * pathlib refuses a path with an empty name.
   */
  function WithSuffix(p: Path, suf: string): Option<Path> {
    if Name(p) == [] then None else Some(DirPart(p) + Stem(Name(p)) + suf)
  }

  /** The name of `p.with_suffix(suf)` is the stem followed by `suf`. */
  lemma {:induction false} NameWithSuffix(p: Path, suf: string)
    requires Name(p) != [] && '/' !in suf
    ensures Name(WithSuffix(p, suf).value) == Stem(Name(p)) + suf
    ensures DirPart(WithSuffix(p, suf).value) == DirPart(p)
  {
    var n := Stem(Name(p)) + suf;
    assert '/' !in Stem(Name(p)) by {
      assert Stem(Name(p)) == Name(p)[..|Stem(Name(p))|];
    }
    assert '/' !in n;
    assert WithSuffix(p, suf).value == DirPart(p) + n;
    SplitNameOfEntry(DirPart(p), n);
  }

  /** Two paths with the same directory part and the same name are the same path. */
  lemma SameDirSameName(p: Path, q: Path)
    requires DirPart(p) == DirPart(q) && Name(p) == Name(q)
    ensures p == q
  {
  }

  // ---------------------------------------------------------------------
  // The filesystem
  // ---------------------------------------------------------------------

  datatype FsError = NotFound(path: Path) | SameFile(path: Path)

  /** One entry of a directory listing (`Path.iterdir()`): a directory or a file, by name. */
  datatype DirEntry = Directory(name: string, children: seq<DirEntry>) | RegularFile(name: string)

  /** Why a plugin registry could not be built. */
  datatype RegistryError = NotADirectory(root: Path) | ImportFailed(path: Path)

  /**
   * Importing the Python module at a path: the classes `inspect.getmembers`
   * lists for it, in that order (by class name), or `None` when loading it
   * raises.
   */
  type Loader = Path -> Option<seq<ClassInfo>>

  /** The names of a listing's entries, in listing order. */
  function EntryNames(entries: seq<DirEntry>): (r: seq<string>)
    ensures |r| == |entries| && forall i :: 0 <= i < |r| ==> r[i] == entries[i].name
  {
    seq(|entries|, i requires 0 <= i < |entries| => entries[i].name)
  }

  lemma EntryNamesMembers(entries: seq<DirEntry>)
    ensures forall f :: f in EntryNames(entries) <==> exists i :: 0 <= i < |entries| && entries[i].name == f
  {
    var names := EntryNames(entries);
    forall f | f in names ensures exists i :: 0 <= i < |entries| && entries[i].name == f {
      var i :| 0 <= i < |names| && names[i] == f;
    }
  }

  /** `shutil.copyfile(src, dst)` on a map of file contents. */
  function CopyFile(files: map<Path, string>, src: Path, dst: Path): Result<map<Path, string>, FsError> {
    if src == dst then Err(SameFile(src))
    else if src !in files then Err(NotFound(src))
    else Ok(files[dst := files[src]])
  }

  /** `src.replace(dst)`: `src` is renamed to `dst`, overwriting it. */
  function MoveFile(files: map<Path, string>, src: Path, dst: Path): Result<map<Path, string>, FsError> {
    if src !in files then Err(NotFound(src))
    else Ok((files - {src})[dst := files[src]])
  }

  /**
   * The part of the file system the engine touches: `files` maps a path to
   * its content and `dirs` is the set of directories. Writes, copies and
   * moves consult `files` only and do not check that the parent directory
   * is in `dirs`. For the audit copies the engine creates the directory
   * first (`MakeDirs`, src/testbench/file.py:35), so no copy of the model
   * lands in a directory the source would lack.
   */
  class FileSystem {
    var files: map<Path, string>
    var dirs: set<Path>

    constructor (files: map<Path, string>, dirs: set<Path>)
      ensures this.files == files && this.dirs == dirs
    {
      this.files := files;
      this.dirs := dirs;
    }

    method Copy(src: Path, dst: Path) returns (r: Outcome<FsError>)
      modifies this
      ensures dirs == old(dirs)
      ensures (match CopyFile(old(files), src, dst)
               case Ok(f) => r == Pass && files == f
               case Err(e) => r == Fail(e) && files == old(files))
    {
      if src == dst {
        r := Fail(SameFile(src));
      } else if src !in files {
        r := Fail(NotFound(src));
      } else {
        files := files[dst := files[src]];
        r := Pass;
      }
    }

    method Move(src: Path, dst: Path) returns (r: Outcome<FsError>)
      modifies this
      ensures dirs == old(dirs)
      ensures (match MoveFile(old(files), src, dst)
               case Ok(f) => r == Pass && files == f
               case Err(e) => r == Fail(e) && files == old(files))
    {
      if src !in files {
        r := Fail(NotFound(src));
      } else {
        files := (files - {src})[dst := files[src]];
        r := Pass;
      }
    }

    /** `open(p, "w").write(text)` */
    method Write(p: Path, text: string)
      modifies this
      ensures files == old(files)[p := text] && dirs == old(dirs)
    {
      files := files[p := text];
    }

    /** `open(p, "a").write(text)` */
    method Append(p: Path, text: string)
      modifies this
      ensures files == old(files)[p := (if p in old(files) then old(files)[p] else []) + text]
      ensures dirs == old(dirs)
    {
      var before := if p in files then files[p] else [];
      files := files[p := before + text];
    }

    /** `p.mkdir(parents=True, exist_ok=True)` */
    method MakeDirs(p: Path)
      modifies this
      ensures dirs == old(dirs) + {p} && files == old(files)
    {
      dirs := dirs + {p};
    }
  }
}
