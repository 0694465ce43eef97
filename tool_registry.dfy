/**
 * Discovery of tool plugins (`TestbenchTools`, tools.py): every directory
 * of the registry root is a tool type, and every `.py` file in it that
 * defines a `Tool` subclass is a tool of that type, named after the part
 * of its stem following the first `_` (`build_gcc.py` is the tool `gcc`).
 * Importing a module is an oracle from its path to the classes it defines.
 */
module ToolRegistry {
  import opened Common
  import opened Fs

  /** A registry entry: `{"cls", "path", "type", "name"}`. */
  datatype ToolEntry = ToolEntry(cls: ClassInfo, path: Path, toolType: string, name: string)

  /** tool type -> tool name -> entry */
  type ToolTable = Dict<string, Dict<string, ToolEntry>>

  /** A class `__load_class` accepts for `base = Tool` in the module named `stem`. */
  predicate IsToolClass(c: ClassInfo, stem: string) {
    !c.isBase && c.subclassesBase && c.moduleName == stem
  }

  /** The first class of a module that `__load_class` accepts. */
  function FirstToolClass(classes: seq<ClassInfo>, stem: string): (r: Option<ClassInfo>)
    ensures r.Some? ==> exists i :: 0 <= i < |classes| && classes[i] == r.value && IsToolClass(r.value, stem)
                          && forall j :: 0 <= j < i ==> !IsToolClass(classes[j], stem)
    ensures r.None? ==> forall i :: 0 <= i < |classes| ==> !IsToolClass(classes[i], stem)
    decreases |classes|
  {
    if classes == [] then None
    else if IsToolClass(classes[0], stem) then Some(classes[0])
    else
      var r := FirstToolClass(classes[1..], stem);
      assert forall i :: 1 <= i < |classes| ==> classes[i] == classes[1..][i - 1];
      r
  }

  /** `__load_class(py, Tool)` for the file `py` whose stem is `stem`. */
  function LoadToolClass(load: Loader, py: Path, stem: string): Result<Option<ClassInfo>, RegistryError> {
    match load(py)
    case None => Err(ImportFailed(py))
    case Some(classes) => Ok(FirstToolClass(classes, stem))
  }

  /** The tool name a file name gives: its stem after the first `_`, or the whole stem. */
  function ToolName(fileName: string): string {
    AfterFirst(Stem(fileName), '_')
  }

  /** The names `type_dir.glob("*.py")` matches, in `sorted` order. */
  function PyFiles(children: seq<DirEntry>): (r: seq<string>)
    ensures Sorted(r)
    ensures forall f :: f in r <==> exists i :: 0 <= i < |children| && children[i].name == f && EndsWith(f, ".py")
  {
    var names := EntryNames(children);
    SortNamesMembers(Matching(names));
    EntryNamesMembers(children);
    SortNames(Matching(names))
  }

  /** The names ending with `.py`, in listing order. */
  function Matching(names: seq<string>): (r: seq<string>)
    ensures forall f :: f in r <==> f in names && EndsWith(f, ".py")
    decreases |names|
  {
    if names == [] then []
    else (if EndsWith(names[0], ".py") then [names[0]] else []) + Matching(names[1..])
  }

  /** A file skipped before loading: a dunder file, or one named after its own type. */
  predicate Skipped(toolType: string, file: string) {
    "__" <= file || ToolName(file) == toolType
  }

  /** One iteration of the inner loop of `__discover`. */
  function AddTool(reg: Dict<string, ToolEntry>, toolType: string, typeDir: Path, file: string, load: Loader)
    : Result<Dict<string, ToolEntry>, RegistryError>
  {
    if Skipped(toolType, file) then Ok(reg)
    else
      var py := Join(typeDir, file);
      match LoadToolClass(load, py, Stem(file))
      case Err(e) => Err(e)
      case Ok(None) => Ok(reg)
      case Ok(Some(cls)) => Ok(reg.Put(ToolName(file), ToolEntry(cls, py, toolType, ToolName(file))))
  }

  /** The inner loop of `__discover` from the `k`-th sorted file on. */
  function ToolsFrom(reg: Dict<string, ToolEntry>, toolType: string, typeDir: Path, files: seq<string>, k: nat, load: Loader)
    : Result<Dict<string, ToolEntry>, RegistryError>
    requires k <= |files|
    decreases |files| - k
  {
    if k == |files| then Ok(reg)
    else
      match AddTool(reg, toolType, typeDir, files[k], load)
      case Err(e) => Err(e)
      case Ok(next) => ToolsFrom(next, toolType, typeDir, files, k + 1, load)
  }

  /** One iteration of the outer loop of `__discover`. */
  function AddType(table: ToolTable, root: Path, e: DirEntry, load: Loader): Result<ToolTable, RegistryError> {
    if !e.Directory? || "__" <= e.name then Ok(table)
    else
      match ToolsFrom(EmptyDict(), e.name, Join(root, e.name), PyFiles(e.children), 0, load)
      case Err(err) => Err(err)
      case Ok(tools) => Ok(table.Put(e.name, tools))
  }

  /** The outer loop of `__discover` from the `i`-th listed entry on. */
  function TypesFrom(table: ToolTable, root: Path, entries: seq<DirEntry>, i: nat, load: Loader): Result<ToolTable, RegistryError>
    requires i <= |entries|
    decreases |entries| - i
  {
    if i == |entries| then Ok(table)
    else
      match AddType(table, root, entries[i], load)
      case Err(err) => Err(err)
      case Ok(next) => TypesFrom(next, root, entries, i + 1, load)
  }

  /**
   * `TestbenchTools(root).get()`: `listing` is `root.iterdir()`, or `None`
   * when the root is not a directory.
   */
  function DiscoverTools(root: Path, listing: Option<seq<DirEntry>>, load: Loader): Result<ToolTable, RegistryError> {
    match listing
    case None => Err(NotADirectory(root))
    case Some(entries) => TypesFrom(EmptyDict(), root, entries, 0, load)
  }

  /** The constructor's root check and `__discover`, loop by loop. */
  method Discover(root: Path, listing: Option<seq<DirEntry>>, load: Loader) returns (r: Result<ToolTable, RegistryError>)
    ensures r == DiscoverTools(root, listing, load)
  {
    if listing.None? {
      return Err(NotADirectory(root));
    }
    var entries := listing.value;
    var table: ToolTable := EmptyDict();
    var i := 0;
    while i < |entries|
      invariant 0 <= i <= |entries|
      invariant TypesFrom(table, root, entries, i, load) == DiscoverTools(root, listing, load)
    {
      var e := entries[i];
      if e.Directory? && !("__" <= e.name) {
        var typeDir := Join(root, e.name);
        var files := PyFiles(e.children);
        var tools: Dict<string, ToolEntry> := EmptyDict();
        var j := 0;
        while j < |files|
          invariant 0 <= j <= |files|
          invariant ToolsFrom(tools, e.name, typeDir, files, j, load) == ToolsFrom(EmptyDict(), e.name, typeDir, files, 0, load)
        {
          var file := files[j];
          if !("__" <= file) {
            var toolName := ToolName(file);
            if toolName != e.name {
              var py := Join(typeDir, file);
              var loaded := LoadToolClass(load, py, Stem(file));
              if loaded.Err? {
                return Err(loaded.error);
              }
              if loaded.value.Some? {
                tools := tools.Put(toolName, ToolEntry(loaded.value.value, py, e.name, toolName));
              }
            }
          }
          j := j + 1;
        }
        table := table.Put(e.name, tools);
      }
      i := i + 1;
    }
    r := Ok(table);
  }

  // ---------------------------------------------------------------------
  // What the registry holds
  // ---------------------------------------------------------------------

  /** The entry was made from the `p`-th sorted file of its type directory. */
  predicate MadeFrom(entry: ToolEntry, toolType: string, typeDir: Path, files: seq<string>, p: int, load: Loader) {
    && 0 <= p < |files|
    && !Skipped(toolType, files[p])
    && entry.path == Join(typeDir, files[p])
    && entry.toolType == toolType
    && entry.name == ToolName(files[p])
    && load(entry.path).Some?
    && FirstToolClass(load(entry.path).value, Stem(files[p])) == Some(entry.cls)
  }

  /** Every entry sits under its own name and was made from one of the files. */
  ghost predicate EntriesMade(reg: Dict<string, ToolEntry>, toolType: string, typeDir: Path, files: seq<string>, load: Loader) {
    && reg.Valid()
    && forall n :: n in reg.items ==>
         reg.items[n].name == n && exists p :: MadeFrom(reg.items[n], toolType, typeDir, files, p, load)
  }

  /** A file that yields a tool called `n` when the loop reaches it. */
  predicate Contributes(toolType: string, typeDir: Path, file: string, n: string, load: Loader) {
    && !Skipped(toolType, file)
    && ToolName(file) == n
    && load(Join(typeDir, file)).Some?
    && FirstToolClass(load(Join(typeDir, file)).value, Stem(file)).Some?
  }

  /**
   * One file's effect: no name is lost, an entry either stays or is made
   * from this file, and a contributing file always succeeds and enters.
   */
  lemma AddToolStep(reg: Dict<string, ToolEntry>, toolType: string, typeDir: Path, files: seq<string>, k: nat, load: Loader)
    requires k < |files|
    ensures var step := AddTool(reg, toolType, typeDir, files[k], load);
      && (step.Ok? ==> reg.Valid() ==> step.value.Valid())
      && (step.Ok? ==> forall m :: m in reg.items ==> m in step.value.items)
      && (step.Ok? ==> forall m :: m in step.value.items ==>
            (m in reg.items && step.value.items[m] == reg.items[m])
            || (m == ToolName(files[k]) && step.value.items[m].name == m
                && MadeFrom(step.value.items[m], toolType, typeDir, files, k, load)))
      && (Contributes(toolType, typeDir, files[k], ToolName(files[k]), load) ==>
            step.Ok? && ToolName(files[k]) in step.value.items
            && MadeFrom(step.value.items[ToolName(files[k])], toolType, typeDir, files, k, load))
  {
  }

  lemma {:induction false} ToolsFromEntries(reg: Dict<string, ToolEntry>, toolType: string, typeDir: Path, files: seq<string>, k: nat, load: Loader)
    requires k <= |files| && EntriesMade(reg, toolType, typeDir, files, load)
    ensures ToolsFrom(reg, toolType, typeDir, files, k, load).Ok? ==>
              EntriesMade(ToolsFrom(reg, toolType, typeDir, files, k, load).value, toolType, typeDir, files, load)
    decreases |files| - k
  {
    if k < |files| {
      var step := AddTool(reg, toolType, typeDir, files[k], load);
      AddToolStep(reg, toolType, typeDir, files, k, load);
      if step.Ok? {
        var next := step.value;
        forall n | n in next.items
          ensures next.items[n].name == n && exists p :: MadeFrom(next.items[n], toolType, typeDir, files, p, load)
        {
          if !(n in reg.items && next.items[n] == reg.items[n]) {
            assert MadeFrom(next.items[n], toolType, typeDir, files, k, load);
          }
        }
        ToolsFromEntries(next, toolType, typeDir, files, k + 1, load);
      }
    }
  }

  /** The entry for `n` was made from a file at index `q` or later. */
  ghost predicate HeldFrom(reg: Dict<string, ToolEntry>, toolType: string, typeDir: Path, files: seq<string>, n: string, q: int, load: Loader) {
    n in reg.items && exists p :: q <= p && MadeFrom(reg.items[n], toolType, typeDir, files, p, load)
  }

  lemma {:induction false} HeldFromPersists(reg: Dict<string, ToolEntry>, toolType: string, typeDir: Path, files: seq<string>,
                                            k: nat, n: string, q: int, load: Loader)
    requires k <= |files| && q <= k && HeldFrom(reg, toolType, typeDir, files, n, q, load)
    ensures ToolsFrom(reg, toolType, typeDir, files, k, load).Ok? ==>
              HeldFrom(ToolsFrom(reg, toolType, typeDir, files, k, load).value, toolType, typeDir, files, n, q, load)
    decreases |files| - k
  {
    if k < |files| {
      var step := AddTool(reg, toolType, typeDir, files[k], load);
      AddToolStep(reg, toolType, typeDir, files, k, load);
      if step.Ok? {
        var next := step.value;
        if next.items[n] == reg.items[n] {
          var p :| q <= p && MadeFrom(reg.items[n], toolType, typeDir, files, p, load);
          assert MadeFrom(next.items[n], toolType, typeDir, files, p, load);
        } else {
          assert MadeFrom(next.items[n], toolType, typeDir, files, k, load);
        }
        HeldFromPersists(next, toolType, typeDir, files, k + 1, n, q, load);
      }
    }
  }

  /**
   * Later files win: once the file at index `q` yields the tool `n`, the
   * registry holds `n`, made from that file or from a later one that
   * derives the same name.
   */
  lemma {:induction false} LaterFileOverwrites(reg: Dict<string, ToolEntry>, toolType: string, typeDir: Path, files: seq<string>,
                                               k: nat, q: nat, n: string, load: Loader)
    requires k <= q < |files| && Contributes(toolType, typeDir, files[q], n, load)
    ensures ToolsFrom(reg, toolType, typeDir, files, k, load).Ok? ==>
              HeldFrom(ToolsFrom(reg, toolType, typeDir, files, k, load).value, toolType, typeDir, files, n, q, load)
    decreases |files| - k
  {
    var step := AddTool(reg, toolType, typeDir, files[k], load);
    AddToolStep(reg, toolType, typeDir, files, k, load);
    if step.Ok? {
      var next := step.value;
      if k < q {
        LaterFileOverwrites(next, toolType, typeDir, files, k + 1, q, n, load);
      } else {
        assert MadeFrom(next.items[n], toolType, typeDir, files, k, load);
        HeldFromPersists(next, toolType, typeDir, files, k + 1, n, q, load);
      }
    }
  }

  /** A listed entry that `__discover` turns into a tool type. */
  predicate IsTypeDir(e: DirEntry) {
    e.Directory? && !("__" <= e.name)
  }

  /** The tools a type directory yields on its own. */
  function ToolsOfDir(root: Path, e: DirEntry, load: Loader): Result<Dict<string, ToolEntry>, RegistryError>
    requires e.Directory?
  {
    ToolsFrom(EmptyDict(), e.name, Join(root, e.name), PyFiles(e.children), 0, load)
  }

  /** `t` is the name of a listed type directory whose tools are `tools`. */
  ghost predicate ListedAs(root: Path, entries: seq<DirEntry>, load: Loader, t: string, tools: Dict<string, ToolEntry>) {
    exists i :: 0 <= i < |entries| && IsTypeDir(entries[i]) && entries[i].name == t
                && ToolsOfDir(root, entries[i], load) == Ok(tools)
  }

  /** Every type is one of the listed type directories, with that directory's tools. */
  ghost predicate TypesListed(table: ToolTable, root: Path, entries: seq<DirEntry>, load: Loader) {
    && table.Valid()
    && forall t :: t in table.items ==> ListedAs(root, entries, load, t, table.items[t])
  }

  /** One listed entry keeps every type listed. */
  lemma TypesListedStep(table: ToolTable, root: Path, entries: seq<DirEntry>, i: nat, load: Loader)
    requires i < |entries| && TypesListed(table, root, entries, load) && AddType(table, root, entries[i], load).Ok?
    ensures TypesListed(AddType(table, root, entries[i], load).value, root, entries, load)
  {
    var e := entries[i];
    if IsTypeDir(e) {
      var tools := ToolsOfDir(root, e, load).value;
      var next := table.Put(e.name, tools);
      assert AddType(table, root, e, load) == Ok(next);
      assert ListedAs(root, entries, load, e.name, tools);
      forall t | t in next.items ensures ListedAs(root, entries, load, t, next.items[t]) {
        if t != e.name {
          assert next.items[t] == table.items[t];
        }
      }
    }
  }

  lemma {:induction false} TypesFromListed(table: ToolTable, root: Path, entries: seq<DirEntry>, i: nat, load: Loader)
    requires i <= |entries| && TypesListed(table, root, entries, load)
    requires forall j :: 0 <= j < i && IsTypeDir(entries[j]) ==> entries[j].name in table.items
    ensures var r := TypesFrom(table, root, entries, i, load);
      r.Ok? ==> (&& TypesListed(r.value, root, entries, load)
                 && forall j :: 0 <= j < |entries| && IsTypeDir(entries[j]) ==> entries[j].name in r.value.items)
    decreases |entries| - i
  {
    if i < |entries| {
      var step := AddType(table, root, entries[i], load);
      if step.Ok? {
        TypesListedStep(table, root, entries, i, load);
        TypesFromListed(step.value, root, entries, i + 1, load);
      }
    }
  }

  /**
   * A root that is not a directory is refused. A successful discovery has
   * exactly one type per listed directory whose name does not start with
   * `__` (possibly with no tools), and each type's tools are keyed by name,
   * carry their own type and name, and come from a loaded `.py` file of
   * that directory.
   */
  lemma DiscoveredTable(root: Path, entries: seq<DirEntry>, load: Loader)
    ensures DiscoverTools(root, None, load) == Err(NotADirectory(root))
    ensures var r := DiscoverTools(root, Some(entries), load);
      r.Ok? ==>
        && r.value.Valid()
        && (forall t :: t in r.value.items <==> exists i :: 0 <= i < |entries| && IsTypeDir(entries[i]) && entries[i].name == t)
        && forall t :: t in r.value.items ==>
             exists i :: 0 <= i < |entries| && IsTypeDir(entries[i]) && entries[i].name == t
                         && EntriesMade(r.value.items[t], t, Join(root, t), PyFiles(entries[i].children), load)
  {
    TypesFromListed(EmptyDict(), root, entries, 0, load);
    var r := DiscoverTools(root, Some(entries), load);
    if r.Ok? {
      forall t | t in r.value.items
        ensures exists i :: 0 <= i < |entries| && IsTypeDir(entries[i]) && entries[i].name == t
                            && EntriesMade(r.value.items[t], t, Join(root, t), PyFiles(entries[i].children), load)
      {
        var i :| 0 <= i < |entries| && IsTypeDir(entries[i]) && entries[i].name == t
                 && ToolsOfDir(root, entries[i], load) == Ok(r.value.items[t]);
        ToolsFromEntries(EmptyDict(), t, Join(root, t), PyFiles(entries[i].children), 0, load);
      }
    }
  }
}
