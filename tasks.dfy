/**
 * The task binder (`TestbenchTasks`, tasks.py): checks every configured
 * task against the plugin registries and builds its unresolved record:
 * path, output directory, tool table and file table. Path existence and
 * the working directory are inputs.
 */
module Tasks {
  import opened Common
  import opened Fs
  import opened FileSession
  import opened ToolRuntime
  import ToolRegistry
  import FileRegistry

  // ---------------------------------------------------------------------
  // Task records
  // ---------------------------------------------------------------------

  /** `{"name": tool_name, "params": tool_params}` */
  datatype ToolConfig = ToolConfig(name: string, params: Dict<string, Value>)

  /** What `task["tools"][type]` holds. */
  datatype ToolSlot =
    | Nested(byName: Dict<string, ToolConfig>)   // built by the binder: tool name -> config
    | Flat(config: ToolConfig)                   // a single config for the type
    | Bound(tool: Tool)                          // the instance `initialize_tasks` put there

  /**
   * A schedule step `{"type", "tool", "func"}`; `bound` is its
   * `tool_instance` once `initialize_tasks` has set it (the bound
   * `func_instance` is that tool's member `func`).
   */
  datatype Step = Step(toolType: string, tool: string, func: string, bound: Option<Tool>)

  /**
   * A task record. `order`, `steps` and `cleanup` are written by the
   * schedule; before that `order` is `None` and the lists are empty.
   */
  datatype Task = Task(
    name: string,
    path: Path,
    output: Path,
    tools: Dict<string, ToolSlot>,
    files: Dict<string, FileSlot>,
    order: Option<int>,
    steps: seq<Step>,
    cleanup: seq<Step>)

  // ---------------------------------------------------------------------
  // Configuration
  // ---------------------------------------------------------------------

  /** The params under a tool name; `None` is a null entry. */
  type Params = Option<Dict<string, Value>>

  /** A file entry of a task: `path`, optional `configs`, optional `name`. */
  datatype FileConfig = FileConfig(path: Option<string>, configs: Option<Value>, name: Option<string>)

  /** A task entry; `None` marks a missing key. */
  datatype TaskConfig = TaskConfig(
    path: Option<string>,
    tools: Option<Dict<string, Dict<string, Params>>>,
    files: Option<Dict<string, FileConfig>>)

  /** What the binder is given besides the configuration. */
  datatype Binding = Binding(
    toolTable: ToolRegistry.ToolTable,
    fileTable: FileRegistry.FileTable,
    outputDir: Path,
    cwd: Path,
    existing: set<Path>)

  datatype TaskError =
    | MissingPath(task: string)
    | MissingTools(task: string)
    | PathNotFound(task: string, path: Path)
    | UnknownToolType(toolType: string)
    | UnknownTool(toolType: string, tool: string)
    | UnknownFileType(fileType: string)
    | MissingFilePath(task: string, fileType: string)

  /** The configuration's dicts are dicts (distinct keys, keys and items agree). */
  ghost predicate ToolsConfigValid(tools: Dict<string, Dict<string, Params>>) {
    tools.Valid() && forall t :: t in tools.items ==> tools.items[t].Valid()
  }

  ghost predicate TaskConfigValid(c: TaskConfig) {
    && (c.tools.Some? ==> ToolsConfigValid(c.tools.value))
    && (c.files.Some? ==> c.files.value.Valid())
  }

  ghost predicate ConfigValid(config: Dict<string, TaskConfig>) {
    config.Valid() && forall n :: n in config.items ==> TaskConfigValid(config.items[n])
  }

  // ---------------------------------------------------------------------
  // `__parse_tasks`, loop by loop
  // ---------------------------------------------------------------------

  /** `None` params become `{}`. */
  function ParamsOf(p: Params): Dict<string, Value> {
    if p.Some? then p.value else EmptyDict()
  }

  /** `configs` defaults to `[]`. */
  function ConfigsOf(c: Option<Value>): Value {
    if c.Some? then c.value else List([])
  }

  /** The loop over the tool names of one type, from the `k`-th on. */
  function BindNames(acc: Dict<string, ToolConfig>, toolType: string, names: Dict<string, Params>, k: nat,
                     b: Binding): Result<Dict<string, ToolConfig>, TaskError>
    requires names.Valid() && k <= |names.keys| && toolType in b.toolTable.items
    decreases |names.keys| - k
  {
    if k == |names.keys| then Ok(acc)
    else
      var n := names.keys[k];
      if n !in b.toolTable.items[toolType].items then Err(UnknownTool(toolType, n))
      else BindNames(acc.Put(n, ToolConfig(n, ParamsOf(names.items[n]))), toolType, names, k + 1, b)
  }

  /**
   * The loop over tool types, from the `i`-th on. A type enters the table
   * with its first name, so a type listing no names gets no entry.
   */
  function BindTypes(acc: Dict<string, ToolSlot>, tools: Dict<string, Dict<string, Params>>, i: nat,
                     b: Binding): Result<Dict<string, ToolSlot>, TaskError>
    requires ToolsConfigValid(tools) && i <= |tools.keys|
    decreases |tools.keys| - i
  {
    if i == |tools.keys| then Ok(acc)
    else
      var t := tools.keys[i];
      if t !in b.toolTable.items then Err(UnknownToolType(t))
      else
        match BindNames(EmptyDict(), t, tools.items[t], 0, b)
        case Err(e) => Err(e)
        case Ok(byName) => BindTypes(if byName.keys == [] then acc else acc.Put(t, Nested(byName)), tools, i + 1, b)
  }

  /** The file entry the binder stores. */
  function DeclaredFile(c: FileConfig, taskPath: Path): FileSlot
    requires c.path.Some?
  {
    Declared(Join(taskPath, c.path.value), ConfigsOf(c.configs), c.name)
  }

  /** The loop over file types, from the `i`-th on. */
  function BindFiles(acc: Dict<string, FileSlot>, taskName: string, taskPath: Path, files: Dict<string, FileConfig>, i: nat,
                     b: Binding): Result<Dict<string, FileSlot>, TaskError>
    requires files.Valid() && i <= |files.keys|
    decreases |files.keys| - i
  {
    if i == |files.keys| then Ok(acc)
    else
      var f := files.keys[i];
      if f !in b.fileTable.items then Err(UnknownFileType(f))
      else if files.items[f].path.None? then Err(MissingFilePath(taskName, f))
      else BindFiles(acc.Put(f, DeclaredFile(files.items[f], taskPath)), taskName, taskPath, files, i + 1, b)
  }

  /** One task: the key checks, the path check, the tool loop, the file loop. */
  function BindTask(name: string, c: TaskConfig, b: Binding): Result<Task, TaskError>
    requires TaskConfigValid(c)
  {
    if c.path.None? then Err(MissingPath(name))
    else if c.tools.None? then Err(MissingTools(name))
    else
      var path := Absolute(b.cwd, c.path.value);
      if path !in b.existing then Err(PathNotFound(name, path))
      else
        match BindTypes(EmptyDict(), c.tools.value, 0, b)
        case Err(e) => Err(e)
        case Ok(tools) =>
          match (if c.files.Some? then BindFiles(EmptyDict(), name, path, c.files.value, 0, b) else Ok(EmptyDict()))
          case Err(e) => Err(e)
          case Ok(files) => Ok(Task(name, path, Join(b.outputDir, name), tools, files, None, [], []))
  }

  /** The loop over tasks, from the `i`-th on. */
  function BindTasks(acc: Dict<string, Task>, config: Dict<string, TaskConfig>, i: nat, b: Binding): Result<Dict<string, Task>, TaskError>
    requires ConfigValid(config) && i <= |config.keys|
    decreases |config.keys| - i
  {
    if i == |config.keys| then Ok(acc)
    else
      var n := config.keys[i];
      match BindTask(n, config.items[n], b)
      case Err(e) => Err(e)
      case Ok(t) => BindTasks(acc.Put(n, t), config, i + 1, b)
  }

  /** `TestbenchTasks(config, tools, files, output_dir).get()`; a null config binds nothing. */
  function ParseTasksSpec(config: Option<Dict<string, TaskConfig>>, b: Binding): Result<Dict<string, Task>, TaskError>
    requires config.Some? ==> ConfigValid(config.value)
  {
    if config.None? then Ok(EmptyDict()) else BindTasks(EmptyDict(), config.value, 0, b)
  }

  /** `__parse_tasks`, outer loop: one record per configured task, in order. */
  method ParseTasks(config: Option<Dict<string, TaskConfig>>, b: Binding) returns (r: Result<Dict<string, Task>, TaskError>)
    requires config.Some? ==> ConfigValid(config.value)
    ensures r == ParseTasksSpec(config, b)
  {
    if config.None? {
      return Ok(EmptyDict());
    }
    var cfg := config.value;
    var tasks: Dict<string, Task> := EmptyDict();
    var i := 0;
    while i < |cfg.keys|
      invariant 0 <= i <= |cfg.keys|
      invariant BindTasks(tasks, cfg, i, b) == ParseTasksSpec(config, b)
    {
      var name := cfg.keys[i];
      var t := ParseTask(name, cfg.items[name], b);
      if t.Err? {
        return Err(t.error);
      }
      tasks := tasks.Put(name, t.value);
      i := i + 1;
    }
    r := Ok(tasks);
  }

  /** `__parse_tasks`, the body of the outer loop: one task's key checks, path check and tables. */
  method ParseTask(name: string, c: TaskConfig, b: Binding) returns (r: Result<Task, TaskError>)
    requires TaskConfigValid(c)
    ensures r == BindTask(name, c, b)
  {
    if c.path.None? {
      return Err(MissingPath(name));
    }
    if c.tools.None? {
      return Err(MissingTools(name));
    }
    var path := Absolute(b.cwd, c.path.value);
    if path !in b.existing {
      return Err(PathNotFound(name, path));
    }
    var taskTools := BindToolTable(c.tools.value, b);
    if taskTools.Err? {
      return Err(taskTools.error);
    }
    var taskFiles: Result<Dict<string, FileSlot>, TaskError> := Ok(EmptyDict());
    if c.files.Some? {
      taskFiles := BindFileTable(name, path, c.files.value, b);
      if taskFiles.Err? {
        return Err(taskFiles.error);
      }
    }
    r := Ok(Task(name, path, Join(b.outputDir, name), taskTools.value, taskFiles.value, None, [], []));
  }

  /** `__parse_tasks`, the loops over a task's tool types and their names. */
  method BindToolTable(tools: Dict<string, Dict<string, Params>>, b: Binding) returns (r: Result<Dict<string, ToolSlot>, TaskError>)
    requires ToolsConfigValid(tools)
    ensures r == BindTypes(EmptyDict(), tools, 0, b)
  {
    var taskTools: Dict<string, ToolSlot> := EmptyDict();
    var j := 0;
    while j < |tools.keys|
      invariant 0 <= j <= |tools.keys|
      invariant BindTypes(taskTools, tools, j, b) == BindTypes(EmptyDict(), tools, 0, b)
    {
      var toolType := tools.keys[j];
      if toolType !in b.toolTable.items {
        return Err(UnknownToolType(toolType));
      }
      var names := tools.items[toolType];
      var byName: Dict<string, ToolConfig> := EmptyDict();
      var k := 0;
      while k < |names.keys|
        invariant 0 <= k <= |names.keys|
        invariant BindNames(byName, toolType, names, k, b) == BindNames(EmptyDict(), toolType, names, 0, b)
      {
        var toolName := names.keys[k];
        if toolName !in b.toolTable.items[toolType].items {
          return Err(UnknownTool(toolType, toolName));
        }
        byName := byName.Put(toolName, ToolConfig(toolName, ParamsOf(names.items[toolName])));
        k := k + 1;
      }
      if byName.keys != [] {
        taskTools := taskTools.Put(toolType, Nested(byName));
      }
      j := j + 1;
    }
    r := Ok(taskTools);
  }

  /** `__parse_tasks`, the loop over a task's file types. */
  method BindFileTable(name: string, path: Path, files: Dict<string, FileConfig>, b: Binding) returns (r: Result<Dict<string, FileSlot>, TaskError>)
    requires files.Valid()
    ensures r == BindFiles(EmptyDict(), name, path, files, 0, b)
  {
    var taskFiles: Dict<string, FileSlot> := EmptyDict();
    var m := 0;
    while m < |files.keys|
      invariant 0 <= m <= |files.keys|
      invariant BindFiles(taskFiles, name, path, files, m, b) == BindFiles(EmptyDict(), name, path, files, 0, b)
    {
      var fileType := files.keys[m];
      if fileType !in b.fileTable.items {
        return Err(UnknownFileType(fileType));
      }
      var fc := files.items[fileType];
      if fc.path.None? {
        return Err(MissingFilePath(name, fileType));
      }
      taskFiles := taskFiles.Put(fileType, DeclaredFile(fc, path));
      m := m + 1;
    }
    r := Ok(taskFiles);
  }

  // ---------------------------------------------------------------------
  // When binding succeeds, and what it builds
  // ---------------------------------------------------------------------

  /** Every tool type of a task is registered, and so is every tool name under it. */
  ghost predicate ToolsRegistered(tools: Dict<string, Dict<string, Params>>, b: Binding) {
    forall t :: t in tools.items ==> TypeRegistered(tools.items[t], t, b)
  }

  /** The tool type is registered, and so is every name listed under it. */
  ghost predicate TypeRegistered(names: Dict<string, Params>, toolType: string, b: Binding) {
    toolType in b.toolTable.items && forall n :: n in names.items ==> n in b.toolTable.items[toolType].items
  }

  /** Every file type of a task is registered and has a `path`. */
  ghost predicate FilesAcceptable(files: Dict<string, FileConfig>, b: Binding) {
    forall f :: f in files.items ==> f in b.fileTable.items && files.items[f].path.Some?
  }

  /** A task entry the binder accepts. */
  ghost predicate TaskAcceptable(c: TaskConfig, b: Binding) {
    && c.path.Some?
    && c.tools.Some?
    && Absolute(b.cwd, c.path.value) in b.existing
    && ToolsRegistered(c.tools.value, b)
    && (c.files.Some? ==> FilesAcceptable(c.files.value, b))
  }

  /** `acc` is the name table of the first `k` names of a type. */
  ghost predicate NamesBound(acc: Dict<string, ToolConfig>, names: Dict<string, Params>, k: int)
    requires names.Valid() && 0 <= k <= |names.keys|
  {
    && acc.keys == names.keys[..k]
    && (forall n :: n in acc.items <==> n in names.keys[..k])
    && forall n :: n in acc.items ==> n in names.items && acc.items[n] == ToolConfig(n, ParamsOf(names.items[n]))
  }

  lemma NamesBoundStep(acc: Dict<string, ToolConfig>, names: Dict<string, Params>, k: nat)
    requires names.Valid() && k < |names.keys| && NamesBound(acc, names, k)
    ensures NamesBound(acc.Put(names.keys[k], ToolConfig(names.keys[k], ParamsOf(names.items[names.keys[k]]))), names, k + 1)
  {
    var n := names.keys[k];
    var next := acc.Put(n, ToolConfig(n, ParamsOf(names.items[n])));
    PrefixGrows(names.keys, k);
    assert n !in names.keys[..k];
    assert names.keys[..k + 1] == names.keys[..k] + [n];
    forall m | m in next.items ensures m in names.items && next.items[m] == ToolConfig(m, ParamsOf(names.items[m])) {
      if m != n {
        assert m in acc.items;
      }
    }
  }

  lemma {:induction false} BindNamesResult(acc: Dict<string, ToolConfig>, toolType: string, names: Dict<string, Params>, k: nat, b: Binding)
    requires names.Valid() && k <= |names.keys| && toolType in b.toolTable.items
    ensures BindNames(acc, toolType, names, k, b).Ok? <==>
              forall j :: k <= j < |names.keys| ==> names.keys[j] in b.toolTable.items[toolType].items
    decreases |names.keys| - k
  {
    if k < |names.keys| {
      var n := names.keys[k];
      if n in b.toolTable.items[toolType].items {
        BindNamesResult(acc.Put(n, ToolConfig(n, ParamsOf(names.items[n]))), toolType, names, k + 1, b);
      }
    }
  }

  /** A successful binding maps every name of the type, in declared order, to its config with params. */
  lemma {:induction false} BindNamesBound(acc: Dict<string, ToolConfig>, toolType: string, names: Dict<string, Params>, k: nat, b: Binding)
    requires names.Valid() && k <= |names.keys| && toolType in b.toolTable.items && NamesBound(acc, names, k)
    requires BindNames(acc, toolType, names, k, b).Ok?
    ensures NamesBound(BindNames(acc, toolType, names, k, b).value, names, |names.keys|)
    decreases |names.keys| - k
  {
    if k < |names.keys| {
      var n := names.keys[k];
      NamesBoundStep(acc, names, k);
      BindNamesBound(acc.Put(n, ToolConfig(n, ParamsOf(names.items[n]))), toolType, names, k + 1, b);
    } else {
      assert names.keys[..k] == names.keys;
    }
  }

  /** A failed binding names the first tool name, from the `k`-th on, missing under the type. */
  lemma {:induction false} BindNamesError(acc: Dict<string, ToolConfig>, toolType: string, names: Dict<string, Params>, k: nat, b: Binding)
    requires names.Valid() && k <= |names.keys| && toolType in b.toolTable.items
    requires BindNames(acc, toolType, names, k, b).Err?
    ensures exists j :: k <= j < |names.keys| && names.keys[j] !in b.toolTable.items[toolType].items
                        && (forall i :: k <= i < j ==> names.keys[i] in b.toolTable.items[toolType].items)
                        && BindNames(acc, toolType, names, k, b).error == UnknownTool(toolType, names.keys[j])
    decreases |names.keys| - k
  {
    var n := names.keys[k];
    if n in b.toolTable.items[toolType].items {
      BindNamesError(acc.Put(n, ToolConfig(n, ParamsOf(names.items[n]))), toolType, names, k + 1, b);
    }
  }

  /** `r` is the tool table of the first `i` types: each type with names, nested by name. */
  ghost predicate TypesBound(r: Dict<string, ToolSlot>, tools: Dict<string, Dict<string, Params>>, i: int)
    requires ToolsConfigValid(tools) && 0 <= i <= |tools.keys|
  {
    && r.Valid()
    && (forall t :: t in r.items <==> t in tools.keys[..i] && tools.items[t].keys != [])
    && forall t :: t in r.items ==>
         r.items[t].Nested? && NamesBound(r.items[t].byName, tools.items[t], |tools.items[t].keys|)
  }

  lemma TypesBoundStep(acc: Dict<string, ToolSlot>, tools: Dict<string, Dict<string, Params>>, i: nat, byName: Dict<string, ToolConfig>)
    requires ToolsConfigValid(tools) && i < |tools.keys| && TypesBound(acc, tools, i)
    requires NamesBound(byName, tools.items[tools.keys[i]], |tools.items[tools.keys[i]].keys|)
    ensures TypesBound(if byName.keys == [] then acc else acc.Put(tools.keys[i], Nested(byName)), tools, i + 1)
  {
    var t := tools.keys[i];
    var next := if byName.keys == [] then acc else acc.Put(t, Nested(byName));
    PrefixGrows(tools.keys, i);
    assert t !in tools.keys[..i];
    assert byName.keys == tools.items[t].keys by {
      assert tools.items[t].keys[..|tools.items[t].keys|] == tools.items[t].keys;
    }
    forall u
      ensures u in next.items <==> u in tools.keys[..i + 1] && tools.items[u].keys != []
    {
    }
    forall u | u in next.items
      ensures next.items[u].Nested? && NamesBound(next.items[u].byName, tools.items[u], |tools.items[u].keys|)
    {
      if u != t {
        assert next.items[u] == acc.items[u];
      }
    }
  }

  /** Binding one type's names succeeds exactly when the type and all its names are registered. */
  lemma BindNamesRegistered(toolType: string, names: Dict<string, Params>, b: Binding)
    requires names.Valid() && toolType in b.toolTable.items
    ensures BindNames(EmptyDict(), toolType, names, 0, b).Ok? <==> TypeRegistered(names, toolType, b)
  {
    BindNamesResult(EmptyDict(), toolType, names, 0, b);
    if BindNames(EmptyDict(), toolType, names, 0, b).Ok? {
      forall n | n in names.items ensures n in b.toolTable.items[toolType].items {
        var j :| 0 <= j < |names.keys| && names.keys[j] == n;
      }
    } else {
      var j :| 0 <= j < |names.keys| && names.keys[j] !in b.toolTable.items[toolType].items;
      assert names.keys[j] in names.items;
    }
  }

  lemma {:induction false} BindTypesResult(acc: Dict<string, ToolSlot>, tools: Dict<string, Dict<string, Params>>, i: nat, b: Binding)
    requires ToolsConfigValid(tools) && i <= |tools.keys|
    ensures BindTypes(acc, tools, i, b).Ok? <==>
              forall j :: i <= j < |tools.keys| ==> TypeRegistered(tools.items[tools.keys[j]], tools.keys[j], b)
    decreases |tools.keys| - i
  {
    if i < |tools.keys| {
      var t := tools.keys[i];
      if t in b.toolTable.items {
        var names := tools.items[t];
        BindNamesRegistered(t, names, b);
        var byName := BindNames(EmptyDict(), t, names, 0, b);
        if byName.Ok? {
          BindTypesResult(if byName.value.keys == [] then acc else acc.Put(t, Nested(byName.value)), tools, i + 1, b);
        }
      }
    }
  }

  lemma {:induction false} BindTypesBound(acc: Dict<string, ToolSlot>, tools: Dict<string, Dict<string, Params>>, i: nat, b: Binding)
    requires ToolsConfigValid(tools) && i <= |tools.keys| && TypesBound(acc, tools, i)
    requires BindTypes(acc, tools, i, b).Ok?
    ensures TypesBound(BindTypes(acc, tools, i, b).value, tools, |tools.keys|)
    decreases |tools.keys| - i
  {
    if i < |tools.keys| {
      var t := tools.keys[i];
      var names := tools.items[t];
      BindNamesBound(EmptyDict(), t, names, 0, b);
      var byName := BindNames(EmptyDict(), t, names, 0, b).value;
      TypesBoundStep(acc, tools, i, byName);
      BindTypesBound(if byName.keys == [] then acc else acc.Put(t, Nested(byName)), tools, i + 1, b);
    }
  }

  /** Binding a task's tool table succeeds exactly when all its tools are registered. */
  lemma BoundTools(tools: Dict<string, Dict<string, Params>>, b: Binding)
    requires ToolsConfigValid(tools)
    ensures BindTypes(EmptyDict(), tools, 0, b).Ok? <==> ToolsRegistered(tools, b)
    ensures BindTypes(EmptyDict(), tools, 0, b).Ok? ==> TypesBound(BindTypes(EmptyDict(), tools, 0, b).value, tools, |tools.keys|)
  {
    BindTypesResult(EmptyDict(), tools, 0, b);
    if BindTypes(EmptyDict(), tools, 0, b).Ok? {
      BindTypesBound(EmptyDict(), tools, 0, b);
    }
    if ToolsRegistered(tools, b) {
      forall j | 0 <= j < |tools.keys| ensures TypeRegistered(tools.items[tools.keys[j]], tools.keys[j], b) {
        assert tools.keys[j] in tools.items;
      }
    } else {
      var t :| t in tools.items && !TypeRegistered(tools.items[t], t, b);
      var j :| 0 <= j < |tools.keys| && tools.keys[j] == t;
    }
  }

  /** `r` is the file table of the first `i` file types. */
  ghost predicate FilesBound(r: Dict<string, FileSlot>, files: Dict<string, FileConfig>, taskPath: Path, i: int)
    requires files.Valid() && 0 <= i <= |files.keys|
  {
    && r.keys == files.keys[..i]
    && (forall f :: f in r.items <==> f in files.keys[..i])
    && forall f :: f in r.items ==> f in files.items && files.items[f].path.Some?
                                    && r.items[f] == DeclaredFile(files.items[f], taskPath)
  }

  lemma {:induction false} BindFilesResult(acc: Dict<string, FileSlot>, taskName: string, taskPath: Path,
                                           files: Dict<string, FileConfig>, i: nat, b: Binding)
    requires files.Valid() && i <= |files.keys|
    ensures BindFiles(acc, taskName, taskPath, files, i, b).Ok? <==>
              forall j :: i <= j < |files.keys| ==> files.keys[j] in b.fileTable.items && files.items[files.keys[j]].path.Some?
    decreases |files.keys| - i
  {
    if i < |files.keys| {
      var f := files.keys[i];
      if f in b.fileTable.items && files.items[f].path.Some? {
        BindFilesResult(acc.Put(f, DeclaredFile(files.items[f], taskPath)), taskName, taskPath, files, i + 1, b);
      }
    }
  }

  lemma {:induction false} BindFilesBound(acc: Dict<string, FileSlot>, taskName: string, taskPath: Path,
                                          files: Dict<string, FileConfig>, i: nat, b: Binding)
    requires files.Valid() && i <= |files.keys| && FilesBound(acc, files, taskPath, i)
    requires BindFiles(acc, taskName, taskPath, files, i, b).Ok?
    ensures FilesBound(BindFiles(acc, taskName, taskPath, files, i, b).value, files, taskPath, |files.keys|)
    decreases |files.keys| - i
  {
    if i < |files.keys| {
      var f := files.keys[i];
      PrefixGrows(files.keys, i);
      assert f !in files.keys[..i];
      BindFilesBound(acc.Put(f, DeclaredFile(files.items[f], taskPath)), taskName, taskPath, files, i + 1, b);
    } else {
      assert files.keys[..i] == files.keys;
    }
  }

  /** Binding a task's files succeeds exactly when every file type is registered and has a path. */
  lemma BoundFiles(taskName: string, taskPath: Path, files: Dict<string, FileConfig>, b: Binding)
    requires files.Valid()
    ensures BindFiles(EmptyDict(), taskName, taskPath, files, 0, b).Ok? <==> FilesAcceptable(files, b)
  {
    BindFilesResult(EmptyDict(), taskName, taskPath, files, 0, b);
    if BindFiles(EmptyDict(), taskName, taskPath, files, 0, b).Ok? {
      forall f | f in files.items ensures f in b.fileTable.items && files.items[f].path.Some? {
        var j :| 0 <= j < |files.keys| && files.keys[j] == f;
      }
    } else {
      var j :| 0 <= j < |files.keys| && !(files.keys[j] in b.fileTable.items && files.items[files.keys[j]].path.Some?);
      assert files.keys[j] in files.items;
    }
  }

  /**
   * A task binds exactly when its entry has `path` and `tools`, its
   * absolute path exists, and every tool type, tool name and file type it
   * names is registered with every file entry having a `path`. Its record
   * then carries its own name, the absolute path, `output_dir / name`, the
   * tool table nested as type -> name -> {name, params} (null params as
   * `{}`, types without names left out), the file entries in declared order
   * with their paths joined onto the task path, and no schedule yet.
   */
  lemma BoundTask(name: string, c: TaskConfig, b: Binding)
    requires TaskConfigValid(c)
    ensures BindTask(name, c, b).Ok? <==> TaskAcceptable(c, b)
    ensures c.path.None? ==> BindTask(name, c, b) == Err(MissingPath(name))
    ensures c.path.Some? && c.tools.None? ==> BindTask(name, c, b) == Err(MissingTools(name))
    ensures c.path.Some? && c.tools.Some? && Absolute(b.cwd, c.path.value) !in b.existing ==>
              BindTask(name, c, b) == Err(PathNotFound(name, Absolute(b.cwd, c.path.value)))
    ensures BindTask(name, c, b).Ok? ==>
      var t := BindTask(name, c, b).value;
      && t.name == name
      && t.path == Absolute(b.cwd, c.path.value)
      && t.output == Join(b.outputDir, name)
      && TypesBound(t.tools, c.tools.value, |c.tools.value.keys|)
      && (c.files.None? ==> t.files == EmptyDict())
      && (c.files.Some? ==> FilesBound(t.files, c.files.value, t.path, |c.files.value.keys|))
      && t.order.None? && t.steps == [] && t.cleanup == []
  {
    if c.path.Some? && c.tools.Some? && Absolute(b.cwd, c.path.value) in b.existing {
      var path := Absolute(b.cwd, c.path.value);
      BoundTools(c.tools.value, b);
      if c.files.Some? {
        BoundFiles(name, path, c.files.value, b);
        if BindFiles(EmptyDict(), name, path, c.files.value, 0, b).Ok? {
          assert c.files.value.keys[..0] == [];
          BindFilesBound(EmptyDict(), name, path, c.files.value, 0, b);
        }
      }
    }
  }

  /** `acc` holds the records of the first `i` tasks. */
  ghost predicate TasksBound(acc: Dict<string, Task>, config: Dict<string, TaskConfig>, i: int, b: Binding)
    requires ConfigValid(config) && 0 <= i <= |config.keys|
  {
    && acc.keys == config.keys[..i]
    && (forall n :: n in acc.items <==> n in config.keys[..i])
    && forall n :: n in acc.items ==> n in config.items && BindTask(n, config.items[n], b) == Ok(acc.items[n])
  }

  lemma TasksBoundStep(acc: Dict<string, Task>, config: Dict<string, TaskConfig>, i: nat, b: Binding, t: Task)
    requires ConfigValid(config) && i < |config.keys| && TasksBound(acc, config, i, b)
    requires BindTask(config.keys[i], config.items[config.keys[i]], b) == Ok(t)
    ensures TasksBound(acc.Put(config.keys[i], t), config, i + 1, b)
  {
    var n := config.keys[i];
    var next := acc.Put(n, t);
    PrefixGrows(config.keys, i);
    assert n !in config.keys[..i];
    forall m | m in next.items
      ensures m in config.items && BindTask(m, config.items[m], b) == Ok(next.items[m])
    {
      if m != n {
        assert m in acc.items;
      }
    }
  }

  lemma {:induction false} BindTasksResult(acc: Dict<string, Task>, config: Dict<string, TaskConfig>, i: nat, b: Binding)
    requires ConfigValid(config) && i <= |config.keys|
    ensures BindTasks(acc, config, i, b).Ok? <==>
              forall j :: i <= j < |config.keys| ==> BindTask(config.keys[j], config.items[config.keys[j]], b).Ok?
    decreases |config.keys| - i
  {
    if i < |config.keys| {
      var n := config.keys[i];
      var t := BindTask(n, config.items[n], b);
      if t.Ok? {
        assert BindTasks(acc, config, i, b) == BindTasks(acc.Put(n, t.value), config, i + 1, b);
        BindTasksResult(acc.Put(n, t.value), config, i + 1, b);
      }
    }
  }

  lemma {:induction false} BindTasksBound(acc: Dict<string, Task>, config: Dict<string, TaskConfig>, i: nat, b: Binding)
    requires ConfigValid(config) && i <= |config.keys| && TasksBound(acc, config, i, b)
    requires BindTasks(acc, config, i, b).Ok?
    ensures TasksBound(BindTasks(acc, config, i, b).value, config, |config.keys|, b)
    decreases |config.keys| - i
  {
    if i < |config.keys| {
      var n := config.keys[i];
      TasksBoundStep(acc, config, i, b, BindTask(n, config.items[n], b).value);
      BindTasksBound(acc.Put(n, BindTask(n, config.items[n], b).value), config, i + 1, b);
    }
  }

  /**
   * A null configuration binds no task. Otherwise binding succeeds exactly
   * when every task entry is acceptable, and then yields one record per
   * configured task, in configuration order, each as `BoundTask` describes;
   * any failure yields no task map at all.
   */
  lemma ParsedTasks(config: Option<Dict<string, TaskConfig>>, b: Binding)
    requires config.Some? ==> ConfigValid(config.value)
    ensures config.None? ==> ParseTasksSpec(config, b) == Ok(EmptyDict())
    ensures ParseTasksSpec(config, b).Ok? ==> ParseTasksSpec(config, b).value.Valid()
    ensures config.Some? ==>
      var r := ParseTasksSpec(config, b);
      && (r.Ok? <==> forall n :: n in config.value.items ==> TaskAcceptable(config.value.items[n], b))
      && (r.Ok? ==> && r.value.keys == config.value.keys
                    && (forall n :: n in r.value.items <==> n in config.value.items)
                    && forall n :: n in r.value.items ==> BindTask(n, config.value.items[n], b) == Ok(r.value.items[n]))
  {
    if config.Some? {
      TasksAccepted(config.value, b);
      if BindTasks(EmptyDict(), config.value, 0, b).Ok? {
        TasksBoundAll(config.value, b);
      }
    }
  }

  /** Binding every task succeeds exactly when every entry is acceptable. */
  lemma TasksAccepted(cfg: Dict<string, TaskConfig>, b: Binding)
    requires ConfigValid(cfg)
    ensures BindTasks(EmptyDict(), cfg, 0, b).Ok? <==> forall n :: n in cfg.items ==> TaskAcceptable(cfg.items[n], b)
  {
    BindTasksResult(EmptyDict(), cfg, 0, b);
    if !BindTasks(EmptyDict(), cfg, 0, b).Ok? {
      var j :| 0 <= j < |cfg.keys| && !BindTask(cfg.keys[j], cfg.items[cfg.keys[j]], b).Ok?;
      assert cfg.keys[j] in cfg.items;
      TaskBinds(cfg.keys[j], cfg.items[cfg.keys[j]], b);
    } else {
      forall n | n in cfg.items
        ensures TaskAcceptable(cfg.items[n], b)
      {
        var j :| 0 <= j < |cfg.keys| && cfg.keys[j] == n;
        TaskBinds(n, cfg.items[n], b);
      }
    }
  }

  /** A successful binding holds one record per configured task, in configuration order. */
  lemma TasksBoundAll(cfg: Dict<string, TaskConfig>, b: Binding)
    requires ConfigValid(cfg) && BindTasks(EmptyDict(), cfg, 0, b).Ok?
    ensures var r := BindTasks(EmptyDict(), cfg, 0, b).value;
      && r.Valid() && r.keys == cfg.keys
      && (forall n :: n in r.items <==> n in cfg.items)
      && forall n :: n in r.items ==> BindTask(n, cfg.items[n], b) == Ok(r.items[n])
  {
    BindTasksBound(EmptyDict(), cfg, 0, b);
    assert cfg.keys[..|cfg.keys|] == cfg.keys;
  }

  lemma TaskBinds(name: string, c: TaskConfig, b: Binding)
    requires TaskConfigValid(c)
    ensures BindTask(name, c, b).Ok? <==> TaskAcceptable(c, b)
  {
    BoundTask(name, c, b);
  }

  // ---------------------------------------------------------------------
  // The tool table the rest of the testbench reads
  // ---------------------------------------------------------------------

  /** The last tool name listed under a type. */
  function LastName(names: Dict<string, ToolConfig>): (n: string)
    requires names.keys != []
    ensures n in names.keys
  {
    names.keys[|names.keys| - 1]
  }

  /**
   * The schedule and `initialize_tasks` read `task["tools"][type]` as a
   * single `{name, params}`. A bound name table becomes the entry of its
   * last name, as assigning the entry inside the name loop would leave it.
   */
  function FlatSlot(slot: ToolSlot): ToolSlot {
    if slot.Nested? && slot.byName.keys != [] && LastName(slot.byName) in slot.byName.items
    then Flat(slot.byName.items[LastName(slot.byName)])
    else slot
  }

  function FlatTools(tools: Dict<string, ToolSlot>): Dict<string, ToolSlot> {
    Dict(tools.keys, map t | t in tools.items :: FlatSlot(tools.items[t]))
  }

  /** The corrected binder: the same checks, one `{name, params}` per tool type. */
  function BindTaskFlat(name: string, c: TaskConfig, b: Binding): Result<Task, TaskError>
    requires TaskConfigValid(c)
  {
    match BindTask(name, c, b)
    case Err(e) => Err(e)
    case Ok(t) => Ok(t.(tools := FlatTools(t.tools)))
  }

  function ParseTasksFlat(config: Option<Dict<string, TaskConfig>>, b: Binding): Result<Dict<string, Task>, TaskError>
    requires config.Some? ==> ConfigValid(config.value)
  {
    match ParseTasksSpec(config, b)
    case Err(e) => Err(e)
    case Ok(ts) => Ok(Dict(ts.keys, map n | n in ts.items :: ts.items[n].(tools := FlatTools(ts.items[n].tools))))
  }

  /**
   * The corrected binder accepts the same configurations, and its tool
   * table has, for each configured type listing at least one name, exactly
   * one entry: that name with its params (null params as `{}`).
   */
  lemma BoundTaskFlat(name: string, c: TaskConfig, b: Binding)
    requires TaskConfigValid(c)
    ensures BindTaskFlat(name, c, b).Ok? <==> TaskAcceptable(c, b)
    ensures BindTaskFlat(name, c, b).Ok? ==>
      var tools := BindTaskFlat(name, c, b).value.tools;
      && tools.Valid()
      && (forall t :: t in tools.items <==> t in c.tools.value.items && c.tools.value.items[t].keys != [])
      && (forall t :: t in tools.items ==>
            var names := c.tools.value.items[t];
            var last := names.keys[|names.keys| - 1];
            tools.items[t] == Flat(ToolConfig(last, ParamsOf(names.items[last]))))
  {
    BoundTask(name, c, b);
    if BindTask(name, c, b).Ok? {
      var nested := BindTask(name, c, b).value.tools;
      var tools := FlatTools(nested);
      var cfg := c.tools.value;
      assert tools.Valid();
      forall t | t in tools.items
        ensures var names := cfg.items[t];
                var last := names.keys[|names.keys| - 1];
                tools.items[t] == Flat(ToolConfig(last, ParamsOf(names.items[last])))
      {
        var names := cfg.items[t];
        var byName := nested.items[t].byName;
        assert names.keys[..|names.keys|] == names.keys;
        assert byName.keys == names.keys;
        assert LastName(byName) in byName.items;
      }
    }
  }

  /** Both binders give the same tasks in the same order; only the tool tables differ. */
  lemma ParsedTasksFlat(config: Option<Dict<string, TaskConfig>>, b: Binding)
    requires config.Some? ==> ConfigValid(config.value)
    ensures ParseTasksFlat(config, b).Ok? <==> ParseTasksSpec(config, b).Ok?
    ensures ParseTasksFlat(config, b).Ok? ==>
      var ts := ParseTasksFlat(config, b).value;
      && ts.keys == ParseTasksSpec(config, b).value.keys
      && forall n :: n in ts.items ==> config.Some? && n in config.value.items && BindTaskFlat(n, config.value.items[n], b) == Ok(ts.items[n])
  {
    ParsedTasks(config, b);
  }
}
