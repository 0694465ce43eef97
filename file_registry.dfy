/**
 * Discovery of file plugins (`TestbenchFiles`, files.py): every
 * `file_<type>.py` module directly under the registry root that defines a
 * class with a `parse` member registers the file type `<type>`.
 */
module FileRegistry {
  import opened Common
  import opened Fs

  /** A registry entry: `{"cls", "path", "type"}`. */
  datatype FileEntry = FileEntry(cls: ClassInfo, path: Path, fileType: string)

  /** file type -> entry */
  type FileTable = Dict<string, FileEntry>

  /** A class `__load_class` accepts in the module named `stem`: it has `parse` and is defined there. */
  predicate IsFileClass(c: ClassInfo, stem: string) {
    "parse" in c.members && c.moduleName == stem
  }

  /** The first class of a module that `__load_class` accepts. */
  function FirstFileClass(classes: seq<ClassInfo>, stem: string): (r: Option<ClassInfo>)
    ensures r.Some? ==> exists i :: 0 <= i < |classes| && classes[i] == r.value && IsFileClass(r.value, stem)
                          && forall j :: 0 <= j < i ==> !IsFileClass(classes[j], stem)
    ensures r.None? ==> forall i :: 0 <= i < |classes| ==> !IsFileClass(classes[i], stem)
    decreases |classes|
  {
    if classes == [] then None
    else if IsFileClass(classes[0], stem) then Some(classes[0])
    else
      var r := FirstFileClass(classes[1..], stem);
      assert forall i :: 1 <= i < |classes| ==> classes[i] == classes[1..][i - 1];
      r
  }

  function LoadFileClass(load: Loader, py: Path, stem: string): Result<Option<ClassInfo>, RegistryError> {
    match load(py)
    case None => Err(ImportFailed(py))
    case Some(classes) => Ok(FirstFileClass(classes, stem))
  }

  /** The names `root.glob("file_*.py")` matches. */
  predicate IsPluginName(n: string) {
    |n| >= 8 && "file_" <= n && EndsWith(n, ".py")
  }

  /** The file type a name gives: its stem after the first `_`. */
  function FileType(n: string): string {
    AfterFirst(Stem(n), '_')
  }

  /** The matching names in listing order. */
  function Matching(names: seq<string>): (r: seq<string>)
    ensures forall f :: f in r <==> f in names && IsPluginName(f)
    decreases |names|
  {
    if names == [] then []
    else (if IsPluginName(names[0]) then [names[0]] else []) + Matching(names[1..])
  }

  /** The names `sorted(root.glob("file_*.py"))` yields. */
  function PluginFiles(entries: seq<DirEntry>): (r: seq<string>)
    ensures Sorted(r)
    ensures forall f :: f in r <==> exists i :: 0 <= i < |entries| && entries[i].name == f && IsPluginName(f)
  {
    var names := EntryNames(entries);
    SortNamesMembers(Matching(names));
    EntryNamesMembers(entries);
    SortNames(Matching(names))
  }

  /** One iteration of `__discover`. */
  function AddFile(table: FileTable, root: Path, n: string, load: Loader): Result<FileTable, RegistryError> {
    var py := Join(root, n);
    match LoadFileClass(load, py, Stem(n))
    case Err(e) => Err(e)
    case Ok(None) => Ok(table)
    case Ok(Some(cls)) =>
      if cls.isBase then Ok(table) else Ok(table.Put(FileType(n), FileEntry(cls, py, FileType(n))))
  }

  /** `__discover` from the `k`-th sorted name on. */
  function FilesFrom(table: FileTable, root: Path, names: seq<string>, k: nat, load: Loader): Result<FileTable, RegistryError>
    requires k <= |names|
    decreases |names| - k
  {
    if k == |names| then Ok(table)
    else
      match AddFile(table, root, names[k], load)
      case Err(e) => Err(e)
      case Ok(next) => FilesFrom(next, root, names, k + 1, load)
  }

  /**
   * `TestbenchFiles(root).get()`: `listing` is the content of the resolved
   * root, or `None` when it is not a directory.
   */
  function DiscoverFiles(root: Path, listing: Option<seq<DirEntry>>, load: Loader): Result<FileTable, RegistryError> {
    match listing
    case None => Err(NotADirectory(root))
    case Some(entries) => FilesFrom(EmptyDict(), root, PluginFiles(entries), 0, load)
  }

  /** The constructor's root check and `__discover`. */
  method Discover(root: Path, listing: Option<seq<DirEntry>>, load: Loader) returns (r: Result<FileTable, RegistryError>)
    ensures r == DiscoverFiles(root, listing, load)
  {
    if listing.None? {
      return Err(NotADirectory(root));
    }
    var names := PluginFiles(listing.value);
    ghost var target := FilesFrom(EmptyDict(), root, names, 0, load);
    assert target == DiscoverFiles(root, listing, load);
    var table: FileTable := EmptyDict();
    var k := 0;
    while k < |names|
      invariant 0 <= k <= |names|
      invariant FilesFrom(table, root, names, k, load) == target
    {
      var py := Join(root, names[k]);
      var fileType := FileType(names[k]);
      var loaded := LoadFileClass(load, py, Stem(names[k]));
      if loaded.Err? {
        assert AddFile(table, root, names[k], load) == Err(loaded.error);
        return Err(loaded.error);
      }
      var cls := loaded.value;
      ghost var before := table;
      if !(cls.Some? && cls.value.isBase) && cls.Some? {
        table := table.Put(fileType, FileEntry(cls.value, py, fileType));
      }
      assert AddFile(before, root, names[k], load) == Ok(table);
      k := k + 1;
    }
    r := Ok(table);
  }

  // ---------------------------------------------------------------------
  // What the registry holds
  // ---------------------------------------------------------------------

  /** The type of `file_<t>.py` is `<t>`. */
  lemma {:induction false} FileTypeOfName(n: string)
    requires IsPluginName(n)
    ensures FileType(n) == n[5..|n| - 3]
  {
    var m := |n|;
    assert n[m - 3..] == ".py";
    assert n[m - 1] == 'y' && n[m - 2] == 'p' && n[m - 3] == '.';
    assert n[..m - 1][..m - 2] == n[..m - 2];
    assert n[..m - 2][m - 3] == '.';
    assert LastDot(n[..m - 2]) == Some(m - 3);
    assert LastDot(n[..m - 1]) == Some(m - 3);
    assert LastDot(n) == Some(m - 3);
    assert Stem(n) == n[..m - 3];
    var s := n[..m - 3];
    assert s[..5] == "file_";
    assert s[4] == s[..5][4] == '_';
    assert s[..4] == "file";
    var i := IndexOf(s, '_');
    assert i == 4 by {
      assert i >= 4 by { assert s[..4] == s[..i] + s[i..4] || i > 4; }
    }
    assert FileType(n) == s[5..];
  }

  /** Two different matching names never give the same file type. */
  lemma FileTypesDistinct(n1: string, n2: string)
    requires IsPluginName(n1) && IsPluginName(n2) && n1 != n2
    ensures FileType(n1) != FileType(n2)
  {
    FileTypeOfName(n1);
    FileTypeOfName(n2);
    PluginNameParts(n1);
    PluginNameParts(n2);
  }

  /** A matching name is `file_`, its type and `.py`. */
  lemma PluginNameParts(n: string)
    requires IsPluginName(n)
    ensures n == "file_" + n[5..|n| - 3] + ".py"
  {
    assert n[..5] == "file_" && n[|n| - 3..] == ".py";
    assert n == n[..5] + n[5..|n| - 3] + n[|n| - 3..];
  }

  /** A name that registers an entry when the loop reaches it. */
  predicate Registers(root: Path, n: string, load: Loader) {
    && load(Join(root, n)).Some?
    && var c := FirstFileClass(load(Join(root, n)).value, Stem(n));
       c.Some? && !c.value.isBase
  }

  /** The entry a registering name makes. */
  function EntryOf(root: Path, n: string, load: Loader): FileEntry
    requires Registers(root, n, load)
  {
    FileEntry(FirstFileClass(load(Join(root, n)).value, Stem(n)).value, Join(root, n), FileType(n))
  }

  /** Every entry of the table is the one its own name makes, under its own type. */
  ghost predicate EntriesMade(table: FileTable, root: Path, names: seq<string>, load: Loader) {
    && table.Valid()
    && forall t :: t in table.items ==>
         exists p :: 0 <= p < |names| && IsPluginName(names[p]) && Registers(root, names[p], load)
                     && FileType(names[p]) == t && table.items[t] == EntryOf(root, names[p], load)
  }

  /**
   * One name's effect: an entry either stays or is the one this name makes,
   * and a registering name always enters.
   */
  lemma AddFileStep(table: FileTable, root: Path, n: string, load: Loader)
    ensures var step := AddFile(table, root, n, load);
      && (step.Ok? ==> table.Valid() ==> step.value.Valid())
      && (step.Ok? ==> forall t :: t in table.items ==> t in step.value.items)
      && (step.Ok? ==> forall t :: t in step.value.items ==>
            (t in table.items && step.value.items[t] == table.items[t])
            || (Registers(root, n, load) && t == FileType(n) && step.value.items[t] == EntryOf(root, n, load)))
      && (step.Ok? && Registers(root, n, load) ==>
            FileType(n) in step.value.items && step.value.items[FileType(n)] == EntryOf(root, n, load))
      && (step.Ok? && !Registers(root, n, load) ==> step.value == table)
  {
  }

  lemma {:induction false} FilesFromSound(table: FileTable, root: Path, names: seq<string>, k: nat, load: Loader)
    requires k <= |names| && (forall p :: 0 <= p < |names| ==> IsPluginName(names[p]))
    requires EntriesMade(table, root, names, load)
    ensures var r := FilesFrom(table, root, names, k, load);
      r.Ok? ==> EntriesMade(r.value, root, names, load)
    decreases |names| - k
  {
    if k < |names| {
      var step := AddFile(table, root, names[k], load);
      AddFileStep(table, root, names[k], load);
      if step.Ok? {
        var next := step.value;
        forall t | t in next.items
          ensures exists p :: 0 <= p < |names| && IsPluginName(names[p]) && Registers(root, names[p], load)
                              && FileType(names[p]) == t && next.items[t] == EntryOf(root, names[p], load)
        {
          if !(t in table.items && next.items[t] == table.items[t]) {
            assert FileType(names[k]) == t && next.items[t] == EntryOf(root, names[k], load);
          }
        }
        FilesFromSound(next, root, names, k + 1, load);
      }
    }
  }

  /** What the first `k` names registered. */
  ghost predicate RegisteredUpTo(table: FileTable, root: Path, names: seq<string>, k: int, load: Loader)
    requires k <= |names|
  {
    forall p :: 0 <= p < k && Registers(root, names[p], load) ==>
      FileType(names[p]) in table.items && table.items[FileType(names[p])] == EntryOf(root, names[p], load)
  }

  /** A registered name keeps its entry when a further name is processed. */
  lemma EntryKeptByStep(table: FileTable, root: Path, n: string, m: string, load: Loader)
    requires IsPluginName(n) && IsPluginName(m) && Registers(root, n, load)
    requires FileType(n) in table.items && table.items[FileType(n)] == EntryOf(root, n, load)
    requires AddFile(table, root, m, load).Ok?
    ensures var next := AddFile(table, root, m, load).value;
      FileType(n) in next.items && next.items[FileType(n)] == EntryOf(root, n, load)
  {
    AddFileStep(table, root, m, load);
    if n != m {
      FileTypesDistinct(n, m);
    }
  }

  lemma {:induction false} FilesFromComplete(table: FileTable, root: Path, names: seq<string>, k: nat, load: Loader)
    requires k <= |names| && (forall p :: 0 <= p < |names| ==> IsPluginName(names[p]))
    requires RegisteredUpTo(table, root, names, k, load)
    ensures var r := FilesFrom(table, root, names, k, load);
      r.Ok? ==> RegisteredUpTo(r.value, root, names, |names|, load)
    decreases |names| - k
  {
    if k < |names| {
      var step := AddFile(table, root, names[k], load);
      if step.Ok? {
        var next := step.value;
        assert RegisteredUpTo(next, root, names, k + 1, load) by {
          forall p | 0 <= p < k + 1 && Registers(root, names[p], load)
            ensures FileType(names[p]) in next.items && next.items[FileType(names[p])] == EntryOf(root, names[p], load)
          {
            if p < k {
              EntryKeptByStep(table, root, names[p], names[k], load);
            } else {
              AddFileStep(table, root, names[k], load);
            }
          }
        }
        FilesFromComplete(next, root, names, k + 1, load);
      }
    }
  }

  /**
   * A root that is not a directory is refused. After a successful
   * discovery every matching module whose loader finds a class other than
   * the base registers exactly the entry it makes, under its own type, with
   * that module as path; and nothing else is registered.
   */
  lemma DiscoveredFiles(root: Path, entries: seq<DirEntry>, load: Loader)
    ensures DiscoverFiles(root, None, load) == Err(NotADirectory(root))
    ensures var r := DiscoverFiles(root, Some(entries), load);
      r.Ok? ==> (
        && r.value.Valid()
        && (forall i :: 0 <= i < |entries| && IsPluginName(entries[i].name) && Registers(root, entries[i].name, load) ==>
              FileType(entries[i].name) in r.value.items
              && r.value.items[FileType(entries[i].name)] == EntryOf(root, entries[i].name, load))
        && forall t :: t in r.value.items ==>
             exists i :: 0 <= i < |entries| && IsPluginName(entries[i].name) && Registers(root, entries[i].name, load)
                         && FileType(entries[i].name) == t && r.value.items[t] == EntryOf(root, entries[i].name, load))
  {
    var names := PluginFiles(entries);
    FilesFromSound(EmptyDict(), root, names, 0, load);
    FilesFromComplete(EmptyDict(), root, names, 0, load);
    var r := DiscoverFiles(root, Some(entries), load);
    if r.Ok? {
      forall i | 0 <= i < |entries| && IsPluginName(entries[i].name) && Registers(root, entries[i].name, load)
        ensures FileType(entries[i].name) in r.value.items
                && r.value.items[FileType(entries[i].name)] == EntryOf(root, entries[i].name, load)
      {
        assert entries[i].name in names;
      }
      forall t | t in r.value.items
        ensures exists i :: 0 <= i < |entries| && IsPluginName(entries[i].name) && Registers(root, entries[i].name, load)
                            && FileType(entries[i].name) == t && r.value.items[t] == EntryOf(root, entries[i].name, load)
      {
        var p :| 0 <= p < |names| && IsPluginName(names[p]) && Registers(root, names[p], load)
                 && FileType(names[p]) == t && r.value.items[t] == EntryOf(root, names[p], load);
        assert names[p] in names;
        var i :| 0 <= i < |entries| && entries[i].name == names[p] && IsPluginName(names[p]);
      }
    }
  }
}
