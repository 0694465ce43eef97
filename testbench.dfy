/**
 * The testbench (`Testbench`, testbench.py): look sections up in the
 * configuration tree, substitute environment placeholders, build the two
 * plugin registries, the task table and the schedule, instantiate the
 * file sessions and tool instances a task needs, and hand `iterate` and
 * `is_done` to the schedule.
 */
module Testbench {
  import opened Common
  import opened Fs
  import opened FileSession
  import opened ToolRuntime
  import opened Tasks
  import opened Schedule
  import ToolRegistry
  import FileRegistry

  // ---------------------------------------------------------------------
  // Configuration lookup: `__get`
  // ---------------------------------------------------------------------

  datatype GetError =
    | KeyMissing(key: string)      // `KeyError`: the test `k not in temp` held
    | NotIndexable(key: string)    // `TypeError`: `k in temp` or `temp[k]` is not defined for the value

  /**
   * One level of `__get`: the test `k not in temp`, then `temp[k]`. A
   * string answers `in` by substring and a list by membership, and neither
   * can then be indexed by a string; other scalars cannot answer `in`.
   */
  function Index(v: Value, k: string): (r: Result<Value, GetError>)
    ensures r.Ok? <==> v.Mapping? && HasKey(v.fields, k)
    ensures r.Ok? ==> v.Mapping? && Lookup(v.fields, k) == Some(r.value)
    ensures r.Err? && r.error.KeyMissing? <==>
      || (v.Mapping? && !HasKey(v.fields, k))
      || (v.Str? && !Contains(v.s, k))
      || (v.List? && Str(k) !in v.items)
  {
    match v
    case Mapping(fields) => if HasKey(fields, k) then Ok(Lookup(fields, k).value) else Err(KeyMissing(k))
    case Str(s) => if Contains(s, k) then Err(NotIndexable(k)) else Err(KeyMissing(k))
    case List(items) => if Str(k) in items then Err(NotIndexable(k)) else Err(KeyMissing(k))
    case _ => Err(NotIndexable(k))
  }

  /** Following `keys` down the tree, one `Index` per key; the first failure ends the walk. */
  function Walk(v: Value, keys: seq<string>): Result<Value, GetError>
    decreases |keys|
  {
    if keys == [] then Ok(v)
    else
      match Index(v, keys[0])
      case Err(e) => Err(e)
      case Ok(child) => Walk(child, keys[1..])
  }

  /** `__get(key)`: split the key at `/` and walk the configuration tree. */
  method Get(config: Value, key: string) returns (r: Result<Value, GetError>)
    ensures r == Walk(config, Split(key, '/'))
  {
    if '/' !in key {
      r := Index(config, key);
      assert Split(key, '/') == [key];
      assert Split(key, '/')[1..] == [];
      return;
    }
    var keys := Split(key, '/');
    var temp := config;
    var i := 0;
    while i < |keys| - 1
      invariant 0 <= i <= |keys| - 1
      invariant Walk(temp, keys[i..]) == Walk(config, keys)
    {
      assert keys[i..][0] == keys[i] && keys[i..][1..] == keys[i + 1..];
      var next := Index(temp, keys[i]);
      if next.Err? {
        return Err(next.error);
      }
      temp := next.value;
      i := i + 1;
    }
    assert keys[i..] == [keys[i]] && keys[i..][1..] == [];
    r := Index(temp, keys[i]);
  }

  /** Walking `a + b` is walking `a`, then `b` from where `a` ended. */
  lemma {:induction false} WalkAppend(v: Value, a: seq<string>, b: seq<string>)
    ensures Walk(v, a).Err? ==> Walk(v, a + b) == Walk(v, a)
    ensures Walk(v, a).Ok? ==> Walk(v, a + b) == Walk(Walk(v, a).value, b)
    decreases |a|
  {
    if a != [] {
      assert (a + b)[0] == a[0] && (a + b)[1..] == a[1..] + b;
      match Index(v, a[0])
      case Err(e) =>
      case Ok(child) => WalkAppend(child, a[1..], b);
    } else {
      assert a + b == b;
    }
  }

  /**
   * A key written as path segments free of `/` walks exactly those
   * segments, in order: `__get("registry/tools")` is `config["registry"]["tools"]`.
   */
  lemma GetFollowsSegments(config: Value, segments: seq<string>)
    requires |segments| >= 1 && forall i :: 0 <= i < |segments| ==> '/' !in segments[i]
    ensures Walk(config, Split(JoinWith(segments, '/'), '/')) == Walk(config, segments)
  {
    JoinThenSplit(segments, '/');
  }

  // ---------------------------------------------------------------------
  // Environment placeholders: `replace_env`
  // ---------------------------------------------------------------------

  /** The text `replace_env` looks for: the key lower-cased, in angle brackets. */
  function Placeholder(key: string): string {
    "<" + Lower(key) + ">"
  }

  /** A string with the environment entries from the `k`-th on substituted, in environment order. */
  function SubstituteFrom(s: string, env: Dict<string, string>, k: nat): string
    requires env.Valid() && k <= |env.keys|
    decreases |env.keys| - k
  {
    if k == |env.keys| then s
    else SubstituteFrom(Replace(s, Placeholder(env.keys[k]), env.items[env.keys[k]]), env, k + 1)
  }

  /** The configuration tree with every string substituted; keys and other scalars stay. */
  function Substituted(v: Value, env: Dict<string, string>): Value
    requires env.Valid()
    decreases v
  {
    match v
    case Str(s) => Str(SubstituteFrom(s, env, 0))
    case List(items) => List(seq(|items|, i requires 0 <= i < |items| => Substituted(items[i], env)))
    case Mapping(fields) =>
      Mapping(seq(|fields|, i requires 0 <= i < |fields| => Field(fields[i].key, Substituted(fields[i].val, env))))
    case _ => v
  }

  /** `replace_env(obj, env)`, by recursion over the tree and a loop over the environment. */
  method ReplaceEnv(v: Value, env: Dict<string, string>) returns (r: Value)
    requires env.Valid()
    ensures r == Substituted(v, env)
    decreases v
  {
    match v
    case Mapping(fields) =>
      var out: seq<Field> := [];
      var i := 0;
      while i < |fields|
        invariant 0 <= i <= |fields| && |out| == i
        invariant forall j :: 0 <= j < i ==> out[j] == Field(fields[j].key, Substituted(fields[j].val, env))
      {
        assert fields[i] in fields;
        var val := ReplaceEnv(fields[i].val, env);
        out := out + [Field(fields[i].key, val)];
        i := i + 1;
      }
      r := Mapping(out);
    case List(items) =>
      var out: seq<Value> := [];
      var i := 0;
      while i < |items|
        invariant 0 <= i <= |items| && |out| == i
        invariant forall j :: 0 <= j < i ==> out[j] == Substituted(items[j], env)
      {
        var val := ReplaceEnv(items[i], env);
        out := out + [val];
        i := i + 1;
      }
      r := List(out);
    case Str(s) =>
      var t := s;
      var k := 0;
      while k < |env.keys|
        invariant 0 <= k <= |env.keys|
        invariant SubstituteFrom(t, env, k) == SubstituteFrom(s, env, 0)
      {
        t := Replace(t, Placeholder(env.keys[k]), env.items[env.keys[k]]);
        k := k + 1;
      }
      r := Str(t);
    case _ =>
      r := v;
  }

  /** Two trees with the same structure: the same keys in the same order, the same list lengths, strings where strings were. */
  ghost predicate SameShape(a: Value, b: Value)
    decreases a
  {
    match a
    case Str(_) => b.Str?
    case List(xs) => b.List? && |b.items| == |xs| && forall i :: 0 <= i < |xs| ==> SameShape(xs[i], b.items[i])
    case Mapping(fs) =>
      && b.Mapping? && |b.fields| == |fs|
      && forall i :: 0 <= i < |fs| ==> b.fields[i].key == fs[i].key && SameShape(fs[i].val, b.fields[i].val)
    case _ => b == a
  }

  /** Substitution changes strings only: every key, list length and other scalar stays. */
  lemma {:induction false} SubstitutionKeepsShape(v: Value, env: Dict<string, string>)
    requires env.Valid()
    ensures SameShape(v, Substituted(v, env))
    decreases v
  {
    match v
    case List(xs) =>
      forall i | 0 <= i < |xs| ensures SameShape(xs[i], Substituted(v, env).items[i]) {
        SubstitutionKeepsShape(xs[i], env);
      }
    case Mapping(fs) =>
      forall i | 0 <= i < |fs| ensures SameShape(fs[i].val, Substituted(v, env).fields[i].val) {
        assert fs[i] in fs;
        SubstitutionKeepsShape(fs[i].val, env);
      }
    case _ =>
  }

  /** A string without `<` holds no placeholder and is left as it is. */
  lemma {:induction false} NoPlaceholderUnchanged(s: string, env: Dict<string, string>, k: nat)
    requires env.Valid() && k <= |env.keys| && '<' !in s
    ensures SubstituteFrom(s, env, k) == s
    decreases |env.keys| - k
  {
    if k < |env.keys| {
      var p := Placeholder(env.keys[k]);
      assert !Contains(s, p) by {
        assert p[0] == '<';
        forall i | 0 <= i <= |s| && i + |p| <= |s| ensures s[i..i + |p|][0] == s[i] {
        }
      }
      ReplaceAbsent(s, p, env.items[env.keys[k]]);
      NoPlaceholderUnchanged(s, env, k + 1);
    }
  }

  /** No string of the tree contains `<`. */
  ghost predicate FreeOfPlaceholders(v: Value)
    decreases v
  {
    match v
    case Str(s) => '<' !in s
    case List(xs) => forall i :: 0 <= i < |xs| ==> FreeOfPlaceholders(xs[i])
    case Mapping(fs) => forall i :: 0 <= i < |fs| ==> FreeOfPlaceholders(fs[i].val)
    case _ => true
  }

  /** A configuration without any `<` comes out of `replace_env` unchanged. */
  lemma {:induction false} NoPlaceholderTreeUnchanged(v: Value, env: Dict<string, string>)
    requires env.Valid() && FreeOfPlaceholders(v)
    ensures Substituted(v, env) == v
    decreases v
  {
    match v
    case Str(s) =>
      NoPlaceholderUnchanged(s, env, 0);
    case List(xs) =>
      forall i | 0 <= i < |xs| ensures Substituted(xs[i], env) == xs[i] {
        NoPlaceholderTreeUnchanged(xs[i], env);
      }
      assert Substituted(v, env).items == xs;
    case Mapping(fs) =>
      forall i | 0 <= i < |fs| ensures Substituted(fs[i].val, env) == fs[i].val {
        assert fs[i] in fs;
        NoPlaceholderTreeUnchanged(fs[i].val, env);
      }
      assert Substituted(v, env).fields == fs;
    case _ =>
  }

  /** A pattern opening with `<` occurs nowhere in a string without `<`. */
  lemma OpenAbsent(t: string, p: string)
    requires p != [] && p[0] == '<' && '<' !in t
    ensures !Contains(t, p)
  {
    forall i | 0 <= i <= |t| && i + |p| <= |t| ensures t[i..i + |p|][0] == t[i] {
    }
  }

  /** Replacing a pattern that opens with the only `<` of the string replaces that one occurrence. */
  lemma {:induction false} ReplaceAtOpen(a: string, p: string, b: string, v: string)
    requires p != [] && p[0] == '<' && '<' !in a && '<' !in b
    ensures Replace(a + p + b, p, v) == a + v + b
    decreases |a|
  {
    var s := a + p + b;
    if a == [] {
      assert s[..|p|] == p && s[|p|..] == b;
      OpenAbsent(b, p);
      ReplaceAbsent(b, p, v);
    } else {
      assert s[..|p|][0] == a[0];
      assert s[1..] == a[1..] + p + b;
      ReplaceAtOpen(a[1..], p, b, v);
      assert a + v + b == [a[0]] + (a[1..] + v + b);
    }
  }

  /**
   * The placeholder of a key without `>` whose lower-cased form differs does
   * not occur around another key's placeholder.
   */
  lemma OtherPlaceholderAbsent(a: string, b: string, key: string, other: string)
    requires '<' !in a && '<' !in b && '<' !in key && '>' !in key && '>' !in other
    requires Lower(other) != Lower(key)
    ensures !Contains(a + Placeholder(key) + b, Placeholder(other))
  {
    var s := a + Placeholder(key) + b;
    var p, q := Placeholder(key), Placeholder(other);
    assert '<' !in Lower(key) && '>' !in Lower(key) && '>' !in Lower(other);
    forall i | 0 <= i <= |s| ensures !OccursAt(s, q, i) {
      if i + |q| <= |s| {
        if i != |a| {
          assert s[i] != '<';
          assert s[i..i + |q|][0] == s[i];
        } else if |q| < |p| {
          assert s[i + |q| - 1] == Lower(key)[|q| - 2];
          assert s[i..i + |q|][|q| - 1] != q[|q| - 1];
        } else if |q| > |p| {
          assert s[i + |p| - 1] == '>';
          assert q[|p| - 1] == Lower(other)[|p| - 2];
          assert s[i..i + |q|][|p| - 1] != q[|p| - 1];
        } else {
          assert s[i..i + |q|] == p;
          assert p[1..|p| - 1] == Lower(key) && q[1..|q| - 1] == Lower(other);
        }
      }
    }
  }

  /** Entries whose placeholders do not occur leave the string as it is. */
  lemma {:induction false} AbsentEntriesSkipped(s: string, env: Dict<string, string>, j: nat, k: nat)
    requires env.Valid() && j <= k <= |env.keys|
    requires forall i :: j <= i < k ==> !Contains(s, Placeholder(env.keys[i]))
    ensures SubstituteFrom(s, env, j) == SubstituteFrom(s, env, k)
    decreases k - j
  {
    if j < k {
      ReplaceAbsent(s, Placeholder(env.keys[j]), env.items[env.keys[j]]);
      AbsentEntriesSkipped(s, env, j + 1, k);
    }
  }

  /**
   * A string whose only `<` opens the placeholder of the `k`-th variable
   * gets that variable's value in its place, for keys without `>` and an
   * earlier key that does not lower-case to the same placeholder (the
   * earlier one would win), and a value without `<`.
   */
  lemma PlaceholderReplaced(env: Dict<string, string>, k: nat, a: string, b: string)
    requires env.Valid() && k < |env.keys|
    requires '<' !in a && '<' !in b
    requires '<' !in env.keys[k] && '<' !in env.items[env.keys[k]]
    requires forall j :: 0 <= j <= k ==> '>' !in env.keys[j]
    requires forall j :: 0 <= j < k ==> Lower(env.keys[j]) != Lower(env.keys[k])
    ensures SubstituteFrom(a + Placeholder(env.keys[k]) + b, env, 0) == a + env.items[env.keys[k]] + b
  {
    var key := env.keys[k];
    var v := env.items[key];
    var s := a + Placeholder(key) + b;
    forall j | 0 <= j < k ensures !Contains(s, Placeholder(env.keys[j])) {
      OtherPlaceholderAbsent(a, b, key, env.keys[j]);
    }
    AbsentEntriesSkipped(s, env, 0, k);
    ReplaceAtOpen(a, Placeholder(key), b, v);
    assert '<' !in a + v + b;
    NoPlaceholderUnchanged(a + v + b, env, k + 1);
  }

  /** The `.env` copy in the output directory: one `key=value` line per entry, in order. */
  function EnvLines(env: Dict<string, string>): (ls: seq<string>)
    requires env.Valid()
  {
    seq(|env.keys|, i requires 0 <= i < |env.keys| => env.keys[i] + "=" + env.items[env.keys[i]] + "\n")
  }

  /** Read back line by line, the `.env` copy gives one line per entry (for keys and values without a newline). */
  lemma EnvFileLines(env: Dict<string, string>)
    requires env.Valid()
    requires forall k :: k in env.items ==> '\n' !in k && '\n' !in env.items[k]
    ensures |Lines(Concat(EnvLines(env)))| == |env.keys|
    ensures forall i :: 0 <= i < |env.keys| ==> Lines(Concat(EnvLines(env)))[i] == env.keys[i] + "=" + env.items[env.keys[i]] + "\n"
  {
    var ls := EnvLines(env);
    forall i | 0 <= i < |ls|
      ensures IsLine(ls[i]) && ls[i][|ls[i]| - 1] == '\n'
    {
      var k := env.keys[i];
      assert ls[i][..|ls[i]| - 1] == k + "=" + env.items[k];
    }
    LinesOfConcat(ls);
  }

  // ---------------------------------------------------------------------
  // Registry roots
  // ---------------------------------------------------------------------

  /**
   * The tools registry's root as written: `TestbenchTools` receives the
   * configuration value itself and calls `is_dir()` on it, which no loaded
   * value (string, number, list, mapping or null) has.
   */
  function ToolsRootAsWritten(v: Value): (r: Result<Path, string>)
    ensures r.Err?
  {
    Err("registry/tools")
  }

  /** A registry root read from the configuration: `Path(root)` needs a string. */
  function RegistryRoot(v: Value, section: string): (r: Result<Path, string>)
    ensures r.Ok? <==> v.Str?
    ensures r.Ok? ==> r.value == v.s
    ensures r.Err? ==> r.error == section
  {
    if v.Str? then Ok(v.s) else Err(section)
  }

  /** A string root, which `TestbenchFiles` accepts, is refused by `TestbenchTools` as written. */
  lemma StringToolsRootRefused(root: string)
    ensures ToolsRootAsWritten(Str(root)).Err?
    ensures RegistryRoot(Str(root), "registry/tools") == Ok(root)
  {
  }

  // ---------------------------------------------------------------------
  // Which tool types a task instantiates
  // ---------------------------------------------------------------------

  /** The tool types of `steps`, each once, in order of first appearance. */
  function DistinctTypes(steps: seq<Step>): (types: seq<string>)
    ensures forall i, j :: 0 <= i < j < |types| ==> types[i] != types[j]
    ensures forall t :: t in types <==> exists j :: 0 <= j < |steps| && steps[j].toolType == t
    decreases |steps|
  {
    if steps == [] then []
    else
      var d := DistinctTypes(steps[..|steps| - 1]);
      var t := steps[|steps| - 1].toolType;
      assert forall j :: 0 <= j < |steps| - 1 ==> steps[..|steps| - 1][j] == steps[j];
      if t in d then d else d + [t]
  }

  /** As written: the types of the main steps only (`task.get("steps", [])`). */
  function NeededToolTypesAsWritten(task: Task): seq<string> {
    DistinctTypes(task.steps)
  }

  /** The types of the main steps and of the cleanup steps, since cleanup calls go through the same slots. */
  function NeededToolTypes(task: Task): (types: seq<string>)
    ensures forall j :: 0 <= j < |task.steps| ==> task.steps[j].toolType in types
    ensures forall j :: 0 <= j < |task.cleanup| ==> task.cleanup[j].toolType in types
  {
    var all := task.steps + task.cleanup;
    assert forall j :: 0 <= j < |task.steps| ==> all[j] == task.steps[j];
    assert forall j :: 0 <= j < |task.cleanup| ==> all[|task.steps| + j] == task.cleanup[j];
    DistinctTypes(all)
  }

  /**
   * A task whose cleanup uses a tool type no main step uses: as written
   * that type's slot is never instantiated, so its cleanup call fails
   * whatever the tool member would do; the corrected set includes it.
   */
  lemma CleanupOnlyTypeLeftUnbound()
    ensures var task := Task("t", "/t", "/out/t", Dict(["sim"], map["sim" := Flat(ToolConfig("x", EmptyDict()))]),
                             EmptyDict(), Some(0), [], [Step("sim", "x", "clean", None)]);
      && "sim" !in NeededToolTypesAsWritten(task)
      && !CallOk(task, task.cleanup[0], true)
      && "sim" in NeededToolTypes(task)
  {
  }

  // ---------------------------------------------------------------------
  // Instantiating the file entries of a task
  // ---------------------------------------------------------------------

  /**
   * How a file plugin behaves for one file entry: where `get_from_dir`
   * finds the live file, if anywhere, and what its `parse()` does.
   */
  datatype FilePlugin = FilePlugin(located: Option<Path>, parser: Parser)

  /** The file plugins' behaviour, by task name and file type. */
  type FilePlugins = (string, string) -> FilePlugin

  ghost predicate PluginsValid(plugins: FilePlugins) {
    forall t, f :: ParserValid(plugins(t, f).parser)
  }

  datatype InitError =
    | FileTypeNotRegistered(task: string, fileType: string)   // `self.__files[file]`
    | FileEntryNotDeclared(task: string, fileType: string)    // the entry already holds a `File`: `["path"]` on it fails
    | FileNotLocated(task: string, fileType: string)          // `get_from_dir` raised
    | FileFailed(task: string, fileType: string, phase: Phase)  // the `File` constructor raised at this phase
    | ToolTypeNotConfigured(task: string, toolType: string)   // `not tool_info`
    | ToolConfigNotFlat(task: string, toolType: string)       // `tool_info["name"]` on something other than one config
    | ToolNotInRegistry(toolType: string, tool: string)       // `self.__tools[type][name]`
    | NoSuchAttribute(task: string, toolType: string, func: string)  // `getattr(tool_instance, func)`

  /** The filesystem contents, and the error if any, after a task's file entries from the `k`-th on are opened. */
  datatype FilesOpened = FilesOpened(files: map<Path, string>, error: Option<InitError>)

  /**
   * Opening a task's file entries in table order: each builds a `File`
   * session on its located file in the task's output directory; the first
   * failure ends the walk, after the half-built session was torn down.
   * (The file contents `Open` produces do not depend on the directories.)
   */
  function OpenFilesFrom(files: map<Path, string>, name: string, task: Task, out: Path,
                         table: FileRegistry.FileTable, plugins: FilePlugins, k: nat): FilesOpened
    requires PluginsValid(plugins) && task.files.Valid() && k <= |task.files.keys|
    decreases |task.files.keys| - k
  {
    if k == |task.files.keys| then FilesOpened(files, None)
    else
      var f := task.files.keys[k];
      var plugin := plugins(name, f);
      if f !in table.items then FilesOpened(files, Some(FileTypeNotRegistered(name, f)))
      else if task.files.items[f].Instance? then FilesOpened(files, Some(FileEntryNotDeclared(name, f)))
      else if plugin.located.None? then FilesOpened(files, Some(FileNotLocated(name, f)))
      else
        var located := plugin.located.value;
        var o := Open(files, {}, located, plugin.parser, out);
        if o.phase != Ready then FilesOpened(Restore(o.files, BackupOf(located), located), Some(FileFailed(name, f, o.phase)))
        else OpenFilesFrom(o.files, name, task, out, table, plugins, k + 1)
  }

  /** The entry holds a session built from the declared entry `decl` by `plugin`. */
  ghost predicate SessionFor(slot: FileSlot, decl: FileSlot, plugin: FilePlugin, out: Path, fs: FileSystem) {
    && slot.Instance? && decl.Declared? && plugin.located.Some?
    && slot.session.fs == fs
    && slot.session.file == plugin.located.value
    && slot.session.backup == BackupOf(plugin.located.value)
    && slot.session.configs == decl.configs
    && slot.session.name == decl.name
    && slot.session.outputDir == AuditDir(out)
  }

  lemma OpenIgnoresDirs(files: map<Path, string>, dirs: set<Path>, located: Path, parser: Parser, out: Path)
    requires ParserValid(parser)
    ensures Open(files, dirs, located, parser, out).files == Open(files, {}, located, parser, out).files
    ensures Open(files, dirs, located, parser, out).phase == Open(files, {}, located, parser, out).phase
    ensures Open(files, dirs, located, parser, out).dirs <= dirs + {AuditDir(out)}
  {
    match BackupOf(located)
    case None =>
    case Some(backup) =>
      match CopyFile(files, located, backup)
      case Err(_) =>
      case Ok(f1) =>
        match Parse(parser)
        case Err(_) =>
        case Ok(repl) =>
          AuditCopiesIgnoreDirs(f1[located := Concat(Patched(ReadLines(f1[located]), repl))], dirs, located, backup, repl, AuditDir(out));
  }

  lemma AuditCopiesIgnoreDirs(files: map<Path, string>, dirs: set<Path>, file: Path, backup: Path, repl: Replacements, out: Path)
    ensures AuditCopies(files, dirs, file, backup, repl, out).files == AuditCopies(files, {}, file, backup, repl, out).files
    ensures AuditCopies(files, dirs, file, backup, repl, out).phase == AuditCopies(files, {}, file, backup, repl, out).phase
    ensures AuditCopies(files, dirs, file, backup, repl, out).dirs == dirs + {out}
  {
  }

  /** The entries before the `k`-th are sessions, the others as declared. */
  ghost predicate FilesSoFar(slots: Dict<string, FileSlot>, name: string, task: Task, out: Path, plugins: FilePlugins, fs: FileSystem, k: int)
    requires task.files.Valid() && 0 <= k <= |task.files.keys|
  {
    && slots.Valid() && slots.keys == task.files.keys
    && (forall f :: f in slots.items <==> f in task.files.items)
    && (forall j :: 0 <= j < k ==>
          SessionFor(slots.items[task.files.keys[j]], task.files.items[task.files.keys[j]], plugins(name, task.files.keys[j]), out, fs))
    && forall j :: k <= j < |task.files.keys| ==> slots.items[task.files.keys[j]] == task.files.items[task.files.keys[j]]
  }

  /** One more session keeps the entries so far. */
  lemma FilesSoFarStep(slots: Dict<string, FileSlot>, name: string, task: Task, out: Path, plugins: FilePlugins, fs: FileSystem, k: nat, session: Session)
    requires task.files.Valid() && k < |task.files.keys| && FilesSoFar(slots, name, task, out, plugins, fs, k)
    requires SessionFor(Instance(session), task.files.items[task.files.keys[k]], plugins(name, task.files.keys[k]), out, fs)
    ensures FilesSoFar(slots.Put(task.files.keys[k], Instance(session)), name, task, out, plugins, fs, k + 1)
  {
    var f := task.files.keys[k];
    var next := slots.Put(f, Instance(session));
    forall j | 0 <= j < |task.files.keys| && j != k ensures next.items[task.files.keys[j]] == slots.items[task.files.keys[j]] {
    }
  }

  /** Each entry is as declared or a session built from it. */
  lemma FilesSoFarEach(slots: Dict<string, FileSlot>, name: string, task: Task, out: Path, plugins: FilePlugins, fs: FileSystem, k: nat)
    requires task.files.Valid() && k <= |task.files.keys| && FilesSoFar(slots, name, task, out, plugins, fs, k)
    ensures forall f :: f in slots.items ==>
      slots.items[f] == task.files.items[f] || SessionFor(slots.items[f], task.files.items[f], plugins(name, f), out, fs)
    ensures k == |task.files.keys| ==>
      forall f :: f in slots.items ==> SessionFor(slots.items[f], task.files.items[f], plugins(name, f), out, fs)
  {
    forall f | f in slots.items
      ensures slots.items[f] == task.files.items[f] || SessionFor(slots.items[f], task.files.items[f], plugins(name, f), out, fs)
      ensures k == |task.files.keys| ==> SessionFor(slots.items[f], task.files.items[f], plugins(name, f), out, fs)
    {
      var j :| 0 <= j < |task.files.keys| && task.files.keys[j] == f;
    }
  }

  /** Builds one `File` session; its effect does not depend on the directories already there. */
  method OpenEntry(fs: FileSystem, located: Path, parser: Parser, decl: FileSlot, out: Path) returns (session: Session)
    requires ParserValid(parser) && decl.Declared?
    modifies fs
    ensures session.fs == fs && session.file == located && session.backup == BackupOf(located)
    ensures session.configs == decl.configs && session.name == decl.name && session.outputDir == AuditDir(out)
    ensures var o := Open(old(fs.files), {}, located, parser, out);
      fs.files == o.files && session.phase == o.phase
    ensures old(fs.dirs) <= fs.dirs <= old(fs.dirs) + {AuditDir(out)}
  {
    OpenIgnoresDirs(fs.files, fs.dirs, located, parser, out);
    session := new Session(fs, located, parser, decl.configs, out, decl.name);
  }

  /** The `k`-th entry's session fails: the walk ends with its backup restored. */
  lemma OpenFilesFailed(files: map<Path, string>, name: string, task: Task, out: Path,
                        table: FileRegistry.FileTable, plugins: FilePlugins, k: nat)
    requires PluginsValid(plugins) && task.files.Valid() && k < |task.files.keys|
    requires task.files.keys[k] in table.items && task.files.items[task.files.keys[k]].Declared?
    requires plugins(name, task.files.keys[k]).located.Some?
    requires var p := plugins(name, task.files.keys[k]);
      Open(files, {}, p.located.value, p.parser, out).phase != Ready
    ensures var f := task.files.keys[k];
      var p := plugins(name, f);
      var o := Open(files, {}, p.located.value, p.parser, out);
      OpenFilesFrom(files, name, task, out, table, plugins, k)
        == FilesOpened(Restore(o.files, BackupOf(p.located.value), p.located.value), Some(FileFailed(name, f, o.phase)))
  {
  }

  /** The `k`-th entry's session is ready: the walk goes on from the files it left. */
  lemma OpenFilesOpened(files: map<Path, string>, name: string, task: Task, out: Path,
                        table: FileRegistry.FileTable, plugins: FilePlugins, k: nat)
    requires PluginsValid(plugins) && task.files.Valid() && k < |task.files.keys|
    requires task.files.keys[k] in table.items && task.files.items[task.files.keys[k]].Declared?
    requires plugins(name, task.files.keys[k]).located.Some?
    requires var p := plugins(name, task.files.keys[k]);
      Open(files, {}, p.located.value, p.parser, out).phase == Ready
    ensures var p := plugins(name, task.files.keys[k]);
      OpenFilesFrom(files, name, task, out, table, plugins, k)
        == OpenFilesFrom(Open(files, {}, p.located.value, p.parser, out).files, name, task, out, table, plugins, k + 1)
  {
  }

  /**
   * The file loop of `initialize_tasks` for one task: every entry becomes
   * a session, or the first failure is reported, the entries before it
   * already replaced.
   */
  method InstantiateFiles(fs: FileSystem, name: string, task: Task, out: Path,
                          table: FileRegistry.FileTable, plugins: FilePlugins)
    returns (slots: Dict<string, FileSlot>, err: Option<InitError>)
    requires PluginsValid(plugins) && task.files.Valid()
    modifies fs
    ensures var o := OpenFilesFrom(old(fs.files), name, task, out, table, plugins, 0);
      fs.files == o.files && err == o.error
    ensures old(fs.dirs) <= fs.dirs <= old(fs.dirs) + {AuditDir(out)}
    ensures slots.Valid() && slots.keys == task.files.keys
    ensures forall f :: f in slots.items <==> f in task.files.items
    ensures forall f :: f in slots.items ==>
      slots.items[f] == task.files.items[f] || SessionFor(slots.items[f], task.files.items[f], plugins(name, f), out, fs)
    ensures err.None? ==> forall f :: f in slots.items ==> SessionFor(slots.items[f], task.files.items[f], plugins(name, f), out, fs)
  {
    slots := task.files;
    err := None;
    var k := 0;
    while k < |task.files.keys|
      invariant 0 <= k <= |task.files.keys|
      invariant OpenFilesFrom(fs.files, name, task, out, table, plugins, k) == OpenFilesFrom(old(fs.files), name, task, out, table, plugins, 0)
      invariant old(fs.dirs) <= fs.dirs <= old(fs.dirs) + {AuditDir(out)}
      invariant FilesSoFar(slots, name, task, out, plugins, fs, k)
    {
      var f := task.files.keys[k];
      var plugin := plugins(name, f);
      ghost var before := fs.files;
      if f !in table.items {
        err := Some(FileTypeNotRegistered(name, f));
        assert OpenFilesFrom(fs.files, name, task, out, table, plugins, k) == FilesOpened(fs.files, err);
        FilesSoFarEach(slots, name, task, out, plugins, fs, k);
        return;
      }
      var decl := task.files.items[f];
      if decl.Instance? {
        err := Some(FileEntryNotDeclared(name, f));
        assert OpenFilesFrom(fs.files, name, task, out, table, plugins, k) == FilesOpened(fs.files, err);
        FilesSoFarEach(slots, name, task, out, plugins, fs, k);
        return;
      }
      if plugin.located.None? {
        err := Some(FileNotLocated(name, f));
        assert OpenFilesFrom(fs.files, name, task, out, table, plugins, k) == FilesOpened(fs.files, err);
        FilesSoFarEach(slots, name, task, out, plugins, fs, k);
        return;
      }
      var located := plugin.located.value;
      var session := OpenEntry(fs, located, plugin.parser, decl, out);
      if session.phase != Ready {
        // the half-built object is collected: `__del__` moves any backup back
        var _ := session.Teardown();
        err := Some(FileFailed(name, f, session.phase));
        assert OpenFilesFrom(before, name, task, out, table, plugins, k) == FilesOpened(fs.files, err) by {
          OpenFilesFailed(before, name, task, out, table, plugins, k);
        }
        FilesSoFarEach(slots, name, task, out, plugins, fs, k);
        return;
      }
      assert OpenFilesFrom(before, name, task, out, table, plugins, k) == OpenFilesFrom(fs.files, name, task, out, table, plugins, k + 1) by {
        OpenFilesOpened(before, name, task, out, table, plugins, k);
      }
      FilesSoFarStep(slots, name, task, out, plugins, fs, k, session);
      slots := slots.Put(f, Instance(session));
      k := k + 1;
    }
    FilesSoFarEach(slots, name, task, out, plugins, fs, k);
  }

  // ---------------------------------------------------------------------
  // Instantiating the tools of a task
  // ---------------------------------------------------------------------

  /** Python truthiness of `task["tools"].get(type)`: an empty dict is false. */
  predicate Configured(tools: Dict<string, ToolSlot>, t: string) {
    t in tools.items && !(tools.items[t].Nested? && tools.items[t].byName.items == map[])
  }

  /** The first main step, from the `j`-th on, bound to `(t, tool)` whose `func` the instance lacks. */
  function MissingFunc(steps: seq<Step>, t: string, tool: string, attributes: set<string>, j: nat): Option<string>
    requires j <= |steps|
    decreases |steps| - j
  {
    if j == |steps| then None
    else if steps[j].toolType == t && steps[j].tool == tool && steps[j].func !in attributes then Some(steps[j].func)
    else MissingFunc(steps, t, tool, attributes, j + 1)
  }

  /** `MissingFunc` names a missing member of a step bound to `(t, tool)` exactly when there is one. */
  lemma {:induction false} MissingFuncFinds(steps: seq<Step>, t: string, tool: string, attributes: set<string>, j: nat)
    requires j <= |steps|
    ensures var r := MissingFunc(steps, t, tool, attributes, j);
      && (r.None? <==> forall m :: j <= m < |steps| && steps[m].toolType == t && steps[m].tool == tool ==> steps[m].func in attributes)
      && (r.Some? ==> exists m :: j <= m < |steps| && steps[m].toolType == t && steps[m].tool == tool
                                 && steps[m].func == r.value && r.value !in attributes)
    decreases |steps| - j
  {
    if j < |steps| {
      MissingFuncFinds(steps, t, tool, attributes, j + 1);
    }
  }

  /**
   * The tool loop of `initialize_tasks` from the `i`-th needed type on, as
   * far as its outcome goes: the type must be configured, its entry must be
   * one `{name, params}`, the name must be registered under the type, and
   * every main step bound to it must name a member of the plugin class.
   */
  function ToolsErrorFrom(name: string, tools: Dict<string, ToolSlot>, steps: seq<Step>, types: seq<string>,
                          reg: ToolRegistry.ToolTable, i: nat): Option<InitError>
    requires i <= |types|
    decreases |types| - i
  {
    if i == |types| then None
    else
      var t := types[i];
      if !Configured(tools, t) then Some(ToolTypeNotConfigured(name, t))
      else if !tools.items[t].Flat? then Some(ToolConfigNotFlat(name, t))
      else
        var cfg := tools.items[t].config;
        if t !in reg.items || cfg.name !in reg.items[t].items then Some(ToolNotInRegistry(t, cfg.name))
        else match MissingFunc(steps, t, cfg.name, reg.items[t].items[cfg.name].cls.members, 0)
          case Some(f) => Some(NoSuchAttribute(name, t, f))
          case None => ToolsErrorFrom(name, tools, steps, types, reg, i + 1)
  }

  /** The type is configured as one registered tool, and every main step bound to it names a member of its class. */
  predicate ToolUsable(tools: Dict<string, ToolSlot>, steps: seq<Step>, t: string, reg: ToolRegistry.ToolTable) {
    && Configured(tools, t) && tools.items[t].Flat?
    && t in reg.items && tools.items[t].config.name in reg.items[t].items
    && forall m :: 0 <= m < |steps| && steps[m].toolType == t && steps[m].tool == tools.items[t].config.name ==>
         steps[m].func in reg.items[t].items[tools.items[t].config.name].cls.members
  }

  /** The tool loop succeeds exactly when every needed type is usable. */
  lemma {:induction false} ToolsErrorNone(name: string, tools: Dict<string, ToolSlot>, steps: seq<Step>, types: seq<string>,
                                          reg: ToolRegistry.ToolTable, i: nat)
    requires i <= |types|
    ensures ToolsErrorFrom(name, tools, steps, types, reg, i).None? <==>
      forall m :: i <= m < |types| ==> ToolUsable(tools, steps, types[m], reg)
    decreases |types| - i
  {
    if i < |types| {
      ToolsErrorNone(name, tools, steps, types, reg, i + 1);
      var t := types[i];
      if Configured(tools, t) && tools.items[t].Flat? && t in reg.items && tools.items[t].config.name in reg.items[t].items {
        var cfg := tools.items[t].config;
        var members := reg.items[t].items[cfg.name].cls.members;
        MissingFuncFinds(steps, t, cfg.name, members, 0);
        assert MissingFunc(steps, t, cfg.name, members, 0).None? <==> ToolUsable(tools, steps, t, reg);
      }
    }
  }

  /** A usable type passes its checks: the walk goes on with the next. */
  lemma ToolsErrorStep(name: string, tools: Dict<string, ToolSlot>, steps: seq<Step>, types: seq<string>,
                       reg: ToolRegistry.ToolTable, i: nat)
    requires i < |types| && ToolUsable(tools, steps, types[i], reg)
    ensures ToolsErrorFrom(name, tools, steps, types, reg, i) == ToolsErrorFrom(name, tools, steps, types, reg, i + 1)
  {
    var t := types[i];
    var cfg := tools.items[t].config;
    MissingFuncFinds(steps, t, cfg.name, reg.items[t].items[cfg.name].cls.members, 0);
  }

  /** `tool_cls(task, tool_params, env)` for type `t`, the configuration `cfg` and the plugin's members. */
  predicate ToolMade(tool: Tool, fs: FileSystem, t: string, cfg: ToolConfig, task: Task,
                     files: Dict<string, FileSlot>, env: Dict<string, string>, members: set<string>) {
    && tool.fs == fs && tool.toolType == t && tool.name == cfg.name
    && tool.taskName == task.name && tool.taskPath == task.path && tool.taskOutput == task.output
    && tool.taskFiles == files && tool.params == cfg.params && tool.env == env
    && tool.attributes == members
    && tool.outputDir == OutputDirOf(task.output, t, cfg.name)
  }

  /** The entry for type `u` holds the instance made from the task's configuration for `u`. */
  predicate ToolBound(slot: ToolSlot, fs: FileSystem, u: string, task: Task, files: Dict<string, FileSlot>,
                      env: Dict<string, string>, reg: ToolRegistry.ToolTable) {
    && slot.Bound?
    && u in task.tools.items && task.tools.items[u].Flat?
    && var cfg := task.tools.items[u].config;
       && u in reg.items && cfg.name in reg.items[u].items
       && ToolMade(slot.tool, fs, u, cfg, task, files, env, reg.items[u].items[cfg.name].cls.members)
  }

  /** The output directories of the tools configured for `types`. */
  function ToolDirs(tools: Dict<string, ToolSlot>, taskOutput: Path, types: seq<string>): set<Path> {
    set u | u in types && u in tools.items && tools.items[u].Flat? :: OutputDirOf(taskOutput, u, tools.items[u].config.name)
  }

  lemma ToolDirsStep(tools: Dict<string, ToolSlot>, taskOutput: Path, types: seq<string>, i: nat)
    requires i < |types| && types[i] in tools.items && tools.items[types[i]].Flat?
    ensures ToolDirs(tools, taskOutput, types[..i + 1])
         == ToolDirs(tools, taskOutput, types[..i]) + {OutputDirOf(taskOutput, types[i], tools.items[types[i]].config.name)}
  {
    PrefixGrows(types, i);
  }

  lemma ToolDirsPrefix(tools: Dict<string, ToolSlot>, taskOutput: Path, types: seq<string>, i: nat)
    requires i <= |types|
    ensures ToolDirs(tools, taskOutput, types[..i]) <= ToolDirs(tools, taskOutput, types)
  {
    forall d | d in ToolDirs(tools, taskOutput, types[..i])
      ensures d in ToolDirs(tools, taskOutput, types)
    {
      var u :| u in types[..i] && u in tools.items && tools.items[u].Flat? && d == OutputDirOf(taskOutput, u, tools.items[u].config.name);
    }
  }

  /** A main step `step_cfg` the loop over `types` binds: its type is among them and it names the configured tool. */
  predicate Matches(tools: Dict<string, ToolSlot>, types: seq<string>, s: Step) {
    s.toolType in types && s.toolType in tools.items && tools.items[s.toolType].Flat?
    && s.tool == tools.items[s.toolType].config.name
  }

  /**
   * The inner step loop for one instance: every main step of its type and
   * name gets it as `tool_instance`, and `getattr` must find its `func`;
   * the first miss ends the loop, the steps before it already bound.
   */
  method BindSteps(steps: seq<Step>, t: string, tool: Tool) returns (bound: seq<Step>, missing: Option<string>)
    ensures missing == MissingFunc(steps, t, tool.name, tool.attributes, 0)
    ensures |bound| == |steps|
    ensures forall j :: 0 <= j < |steps| ==>
      bound[j] == steps[j] || (steps[j].toolType == t && steps[j].tool == tool.name && bound[j] == steps[j].(bound := Some(tool)))
    ensures missing.None? ==> forall j :: 0 <= j < |steps| ==>
      bound[j] == if steps[j].toolType == t && steps[j].tool == tool.name then steps[j].(bound := Some(tool)) else steps[j]
  {
    bound := steps;
    missing := None;
    var j := 0;
    while j < |steps|
      invariant 0 <= j <= |steps| && |bound| == |steps|
      invariant MissingFunc(steps, t, tool.name, tool.attributes, j) == MissingFunc(steps, t, tool.name, tool.attributes, 0)
      invariant forall m :: 0 <= m < j ==>
        bound[m] == if steps[m].toolType == t && steps[m].tool == tool.name then steps[m].(bound := Some(tool)) else steps[m]
      invariant forall m :: j <= m < |steps| ==> bound[m] == steps[m]
    {
      var s := steps[j];
      if s.toolType == t && s.tool == tool.name {
        bound := bound[j := s.(bound := Some(tool))];
        if s.func !in tool.attributes {
          missing := Some(s.func);
          return;
        }
      }
      j := j + 1;
    }
  }

  /** The steps bound so far: those matching the first types carry their instance. */
  ghost predicate StepsSoFar(steps: seq<Step>, task: Task, tools: Dict<string, ToolSlot>, done: seq<string>) {
    && |steps| == |task.steps|
    && forall j :: 0 <= j < |steps| ==>
         if Matches(task.tools, done, task.steps[j])
         then task.steps[j].toolType in tools.items && tools.items[task.steps[j].toolType].Bound?
              && steps[j] == task.steps[j].(bound := Some(tools.items[task.steps[j].toolType].tool))
         else steps[j] == task.steps[j]
  }

  /** Each step as before or bound to its type's current instance. */
  ghost predicate StepsBoundOrKept(steps: seq<Step>, task: Task, tools: Dict<string, ToolSlot>) {
    && |steps| == |task.steps|
    && forall j :: 0 <= j < |steps| ==>
         || steps[j] == task.steps[j]
         || (task.steps[j].toolType in tools.items && tools.items[task.steps[j].toolType].Bound?
             && steps[j] == task.steps[j].(bound := Some(tools.items[task.steps[j].toolType].tool)))
  }

  /** Binding instances changes no step's type, tool or member. */
  predicate SameCalls(a: seq<Step>, b: seq<Step>) {
    |a| == |b| && forall m :: 0 <= m < |a| ==> a[m].toolType == b[m].toolType && a[m].tool == b[m].tool && a[m].func == b[m].func
  }

  lemma {:induction false} MissingFuncSameCalls(a: seq<Step>, b: seq<Step>, t: string, tool: string, attributes: set<string>, j: nat)
    requires SameCalls(a, b) && j <= |a|
    ensures MissingFunc(a, t, tool, attributes, j) == MissingFunc(b, t, tool, attributes, j)
    decreases |a| - j
  {
    if j < |a| {
      MissingFuncSameCalls(a, b, t, tool, attributes, j + 1);
    }
  }

  lemma StepsSoFarSameCalls(steps: seq<Step>, task: Task, tools: Dict<string, ToolSlot>, done: seq<string>)
    requires StepsSoFar(steps, task, tools, done)
    ensures SameCalls(steps, task.steps)
  {
    forall m | 0 <= m < |steps|
      ensures steps[m].toolType == task.steps[m].toolType && steps[m].tool == task.steps[m].tool && steps[m].func == task.steps[m].func
    {
    }
  }

  /** Binding the instance for the `i`-th type extends the steps bound so far by that type. */
  lemma StepsSoFarStep(steps: seq<Step>, bound: seq<Step>, task: Task, tools: Dict<string, ToolSlot>,
                       types: seq<string>, i: nat, tool: Tool)
    requires i < |types| && types[i] !in types[..i]
    requires StepsSoFar(steps, task, tools, types[..i])
    requires types[i] in task.tools.items && task.tools.items[types[i]].Flat? && tool.name == task.tools.items[types[i]].config.name
    requires |bound| == |steps|
    requires forall j :: 0 <= j < |steps| ==>
      bound[j] == if steps[j].toolType == types[i] && steps[j].tool == tool.name then steps[j].(bound := Some(tool)) else steps[j]
    ensures StepsSoFar(bound, task, tools.Put(types[i], Bound(tool)), types[..i + 1])
  {
    var t := types[i];
    var next := tools.Put(t, Bound(tool));
    PrefixGrows(types, i);
    forall j | 0 <= j < |bound|
      ensures if Matches(task.tools, types[..i + 1], task.steps[j])
              then task.steps[j].toolType in next.items && next.items[task.steps[j].toolType].Bound?
                   && bound[j] == task.steps[j].(bound := Some(next.items[task.steps[j].toolType].tool))
              else bound[j] == task.steps[j]
    {
      if Matches(task.tools, types[..i], task.steps[j]) {
        assert task.steps[j].toolType != t;
      }
    }
  }

  /** A partial binding for the `i`-th type leaves each step as before or bound to its type's instance. */
  lemma StepsPartlyBound(steps: seq<Step>, bound: seq<Step>, task: Task, tools: Dict<string, ToolSlot>,
                         types: seq<string>, i: nat, tool: Tool)
    requires i < |types| && types[i] !in types[..i]
    requires StepsSoFar(steps, task, tools, types[..i])
    requires |bound| == |steps|
    requires forall j :: 0 <= j < |steps| ==>
      bound[j] == steps[j] || (steps[j].toolType == types[i] && steps[j].tool == tool.name && bound[j] == steps[j].(bound := Some(tool)))
    ensures StepsBoundOrKept(bound, task, tools.Put(types[i], Bound(tool)))
  {
    var next := tools.Put(types[i], Bound(tool));
    forall j | 0 <= j < |bound|
      ensures || bound[j] == task.steps[j]
              || (task.steps[j].toolType in next.items && next.items[task.steps[j].toolType].Bound?
                  && bound[j] == task.steps[j].(bound := Some(next.items[task.steps[j].toolType].tool)))
    {
      if Matches(task.tools, types[..i], task.steps[j]) {
        assert task.steps[j].toolType != types[i];
      }
    }
  }

  lemma StepsSoFarKept(steps: seq<Step>, task: Task, tools: Dict<string, ToolSlot>, done: seq<string>)
    requires StepsSoFar(steps, task, tools, done)
    ensures StepsBoundOrKept(steps, task, tools)
  {
  }

  /** The tool table after the first types: those hold their instances, the other entries are as configured. */
  ghost predicate ToolsSoFar(tools: Dict<string, ToolSlot>, fs: FileSystem, task: Task, files: Dict<string, FileSlot>,
                             env: Dict<string, string>, reg: ToolRegistry.ToolTable, types: seq<string>, done: seq<string>) {
    && tools.Valid() && tools.keys == task.tools.keys
    && (forall u :: u in tools.items <==> u in task.tools.items)
    && (forall u :: u in tools.items && u !in done ==> tools.items[u] == task.tools.items[u])
    && (forall u :: u in done ==> u in tools.items && ToolBound(tools.items[u], fs, u, task, files, env, reg))
  }

  /** Storing the instance for the `i`-th type extends the table so far by that type. */
  lemma ToolsSoFarStep(tools: Dict<string, ToolSlot>, fs: FileSystem, task: Task, files: Dict<string, FileSlot>,
                       env: Dict<string, string>, reg: ToolRegistry.ToolTable, types: seq<string>, i: nat, tool: Tool)
    requires i < |types| && ToolsSoFar(tools, fs, task, files, env, reg, types, types[..i])
    requires ToolBound(Bound(tool), fs, types[i], task, files, env, reg)
    ensures ToolsSoFar(tools.Put(types[i], Bound(tool)), fs, task, files, env, reg, types, types[..i + 1])
  {
    var next := tools.Put(types[i], Bound(tool));
    PrefixGrows(types, i);
    forall u | u in types[..i + 1] ensures u in next.items && ToolBound(next.items[u], fs, u, task, files, env, reg) {
      if u != types[i] {
        assert u in types[..i] && next.items[u] == tools.items[u];
      }
    }
  }

  /** Each entry as configured or holding its instance. */
  lemma ToolsSoFarEach(tools: Dict<string, ToolSlot>, fs: FileSystem, task: Task, files: Dict<string, FileSlot>,
                       env: Dict<string, string>, reg: ToolRegistry.ToolTable, types: seq<string>, i: nat)
    requires i <= |types| && ToolsSoFar(tools, fs, task, files, env, reg, types, types[..i])
    ensures forall u :: u in tools.items && u !in types ==> tools.items[u] == task.tools.items[u]
    ensures forall u :: u in tools.items ==> tools.items[u] == task.tools.items[u] || ToolBound(tools.items[u], fs, u, task, files, env, reg)
  {
    forall u | u in tools.items && u !in types
      ensures tools.items[u] == task.tools.items[u]
    {
      assert u !in types[..i];
    }
  }

  /** `tool_cls(task, tool_params, env)` */
  method MakeTool(fs: FileSystem, t: string, cfg: ToolConfig, task: Task, files: Dict<string, FileSlot>,
                  env: Dict<string, string>, members: set<string>) returns (tool: Tool)
    modifies fs
    ensures ToolMade(tool, fs, t, cfg, task, files, env, members)
    ensures fs.files == old(fs.files) && fs.dirs == old(fs.dirs) + {OutputDirOf(task.output, t, cfg.name)}
  {
    tool := new Tool(fs, t, cfg.name, task.name, task.path, task.output, files, cfg.params, env, members);
  }

  /**
   * What the tool loop leaves, `dirs0` and `dirs` being the directories
   * before and after it: the first error `ToolsErrorFrom` names; only the
   * configured tools' output directories created, all of them on success;
   * the table's keys kept, each entry as configured or holding its
   * instance, every needed type's on success; the steps bound accordingly,
   * and on success every matching main step callable.
   */
  ghost predicate ToolsInstantiated(tools: Dict<string, ToolSlot>, steps: seq<Step>, err: Option<InitError>,
                                    dirs0: set<Path>, dirs: set<Path>, fs: FileSystem, name: string, task: Task,
                                    files: Dict<string, FileSlot>, types: seq<string>, reg: ToolRegistry.ToolTable,
                                    env: Dict<string, string>) {
    && err == ToolsErrorFrom(name, task.tools, task.steps, types, reg, 0)
    && dirs0 <= dirs <= dirs0 + ToolDirs(task.tools, task.output, types)
    && (err.None? ==> dirs == dirs0 + ToolDirs(task.tools, task.output, types))
    && tools.Valid() && tools.keys == task.tools.keys
    && (forall u :: u in tools.items <==> u in task.tools.items)
    && (forall u :: u in tools.items && u !in types ==> tools.items[u] == task.tools.items[u])
    && (forall u :: u in tools.items ==> tools.items[u] == task.tools.items[u] || ToolBound(tools.items[u], fs, u, task, files, env, reg))
    && (err.None? ==> forall u :: u in types ==> u in tools.items && ToolBound(tools.items[u], fs, u, task, files, env, reg))
    && StepsBoundOrKept(steps, task, tools)
    && (err.None? ==> StepsSoFar(steps, task, tools, types))
    && (err.None? ==> forall j :: 0 <= j < |task.steps| && Matches(task.tools, types, task.steps[j]) ==>
         CallOk(task.(tools := tools), task.steps[j], true))
  }

  /** The loop stopped with an error after its first `k` types. */
  lemma ToolsStopped(tools: Dict<string, ToolSlot>, steps: seq<Step>, err: Option<InitError>,
                     dirs0: set<Path>, dirs: set<Path>, fs: FileSystem, name: string, task: Task,
                     files: Dict<string, FileSlot>, types: seq<string>, reg: ToolRegistry.ToolTable,
                     env: Dict<string, string>, k: nat)
    requires k <= |types| && ToolsSoFar(tools, fs, task, files, env, reg, types, types[..k])
    requires err.Some? && err == ToolsErrorFrom(name, task.tools, task.steps, types, reg, 0)
    requires dirs == dirs0 + ToolDirs(task.tools, task.output, types[..k])
    requires StepsBoundOrKept(steps, task, tools)
    ensures ToolsInstantiated(tools, steps, err, dirs0, dirs, fs, name, task, files, types, reg, env)
  {
    ToolsSoFarEach(tools, fs, task, files, env, reg, types, k);
    ToolDirsPrefix(task.tools, task.output, types, k);
  }

  /** The loop went through every type. */
  lemma ToolsFinished(tools: Dict<string, ToolSlot>, steps: seq<Step>, dirs0: set<Path>, dirs: set<Path>,
                      fs: FileSystem, name: string, task: Task, files: Dict<string, FileSlot>, types: seq<string>,
                      reg: ToolRegistry.ToolTable, env: Dict<string, string>)
    requires ToolsSoFar(tools, fs, task, files, env, reg, types, types[..|types|])
    requires dirs == dirs0 + ToolDirs(task.tools, task.output, types[..|types|])
    requires ToolsErrorFrom(name, task.tools, task.steps, types, reg, 0).None?
    requires forall m :: 0 <= m < |types| ==> ToolUsable(task.tools, task.steps, types[m], reg)
    requires StepsSoFar(steps, task, tools, types[..|types|])
    ensures ToolsInstantiated(tools, steps, None, dirs0, dirs, fs, name, task, files, types, reg, env)
  {
    assert types[..|types|] == types;
    ToolsSoFarEach(tools, fs, task, files, env, reg, types, |types|);
    StepsSoFarKept(steps, task, tools, types);
    forall j | 0 <= j < |task.steps| && Matches(task.tools, types, task.steps[j])
      ensures CallOk(task.(tools := tools), task.steps[j], true)
    {
      var m :| 0 <= m < |types| && types[m] == task.steps[j].toolType;
      assert ToolUsable(task.tools, task.steps, types[m], reg);
    }
  }

  /** Where the tool loop stands after its first `i` types all passed, `dirs0` being the directories before it. */
  ghost predicate ToolsLoop(tools: Dict<string, ToolSlot>, steps: seq<Step>, dirs0: set<Path>, dirs: set<Path>,
                            fs: FileSystem, name: string, task: Task, files: Dict<string, FileSlot>, types: seq<string>,
                            reg: ToolRegistry.ToolTable, env: Dict<string, string>, i: nat) {
    && i <= |types|
    && ToolsErrorFrom(name, task.tools, task.steps, types, reg, i) == ToolsErrorFrom(name, task.tools, task.steps, types, reg, 0)
    && dirs == dirs0 + ToolDirs(task.tools, task.output, types[..i])
    && ToolsSoFar(tools, fs, task, files, env, reg, types, types[..i])
    && (forall m :: 0 <= m < i ==> ToolUsable(task.tools, task.steps, types[m], reg))
    && StepsSoFar(steps, task, tools, types[..i])
  }

  /** The `i`-th type passed: its instance is stored and bound to its steps. */
  lemma ToolsLoopStep(tools: Dict<string, ToolSlot>, steps: seq<Step>, bound: seq<Step>, dirs0: set<Path>, dirs: set<Path>,
                      fs: FileSystem, name: string, task: Task, files: Dict<string, FileSlot>, types: seq<string>,
                      reg: ToolRegistry.ToolTable, env: Dict<string, string>, i: nat, tool: Tool)
    requires ToolsLoop(tools, steps, dirs0, dirs, fs, name, task, files, types, reg, env, i) && i < |types|
    requires types[i] !in types[..i]
    requires ToolBound(Bound(tool), fs, types[i], task, files, env, reg)
    requires MissingFunc(task.steps, types[i], tool.name, tool.attributes, 0).None?
    requires |bound| == |steps|
    requires forall j :: 0 <= j < |steps| ==>
      bound[j] == if steps[j].toolType == types[i] && steps[j].tool == tool.name then steps[j].(bound := Some(tool)) else steps[j]
    ensures ToolsLoop(tools.Put(types[i], Bound(tool)), bound, dirs0, dirs + {OutputDirOf(task.output, types[i], tool.name)},
                      fs, name, task, files, types, reg, env, i + 1)
  {
    var t := types[i];
    var next := tools.Put(t, Bound(tool));
    ToolTablesStep(tools, steps, bound, fs, task, files, types, reg, env, i, tool);
    ToolChecksStep(dirs0, dirs, name, task, types, reg, i, tool);
  }

  /** The tables half of `ToolsLoopStep`: the instance is stored and bound to its steps. */
  lemma ToolTablesStep(tools: Dict<string, ToolSlot>, steps: seq<Step>, bound: seq<Step>,
                       fs: FileSystem, task: Task, files: Dict<string, FileSlot>, types: seq<string>,
                       reg: ToolRegistry.ToolTable, env: Dict<string, string>, i: nat, tool: Tool)
    requires i < |types| && types[i] !in types[..i]
    requires ToolsSoFar(tools, fs, task, files, env, reg, types, types[..i]) && StepsSoFar(steps, task, tools, types[..i])
    requires ToolBound(Bound(tool), fs, types[i], task, files, env, reg)
    requires |bound| == |steps|
    requires forall j :: 0 <= j < |steps| ==>
      bound[j] == if steps[j].toolType == types[i] && steps[j].tool == tool.name then steps[j].(bound := Some(tool)) else steps[j]
    ensures ToolsSoFar(tools.Put(types[i], Bound(tool)), fs, task, files, env, reg, types, types[..i + 1])
    ensures StepsSoFar(bound, task, tools.Put(types[i], Bound(tool)), types[..i + 1])
  {
    ToolsSoFarStep(tools, fs, task, files, env, reg, types, i, tool);
    StepsSoFarStep(steps, bound, task, tools, types, i, tool);
  }

  /** The checks half of `ToolsLoopStep`: the type's directory is made and its steps all find their member. */
  lemma ToolChecksStep(dirs0: set<Path>, dirs: set<Path>, name: string, task: Task, types: seq<string>,
                       reg: ToolRegistry.ToolTable, i: nat, tool: Tool)
    requires i < |types|
    requires ToolsErrorFrom(name, task.tools, task.steps, types, reg, i) == ToolsErrorFrom(name, task.tools, task.steps, types, reg, 0)
    requires dirs == dirs0 + ToolDirs(task.tools, task.output, types[..i])
    requires forall m :: 0 <= m < i ==> ToolUsable(task.tools, task.steps, types[m], reg)
    requires types[i] in task.tools.items && task.tools.items[types[i]].Flat? && tool.name == task.tools.items[types[i]].config.name
    requires MissingFunc(task.steps, types[i], tool.name, tool.attributes, 0).None?
    requires types[i] in reg.items && tool.name in reg.items[types[i]].items
    requires tool.attributes == reg.items[types[i]].items[tool.name].cls.members
    ensures ToolsErrorFrom(name, task.tools, task.steps, types, reg, i + 1) == ToolsErrorFrom(name, task.tools, task.steps, types, reg, 0)
    ensures dirs + {OutputDirOf(task.output, types[i], tool.name)} == dirs0 + ToolDirs(task.tools, task.output, types[..i + 1])
    ensures forall m :: 0 <= m < i + 1 ==> ToolUsable(task.tools, task.steps, types[m], reg)
  {
    ToolDirsStep(task.tools, task.output, types, i);
    MissingFuncFinds(task.steps, types[i], tool.name, tool.attributes, 0);
    ToolsErrorStep(name, task.tools, task.steps, types, reg, i);
  }

  /** The checks on the configuration of type `t` before its instance is made, as the tool loop makes them. */
  function ConfigError(name: string, tools: Dict<string, ToolSlot>, t: string, reg: ToolRegistry.ToolTable): (e: Option<InitError>) {
    if !Configured(tools, t) then Some(ToolTypeNotConfigured(name, t))
    else if !tools.items[t].Flat? then Some(ToolConfigNotFlat(name, t))
    else if t !in reg.items || tools.items[t].config.name !in reg.items[t].items then Some(ToolNotInRegistry(t, tools.items[t].config.name))
    else None
  }

  /** The `i`-th type fails its configuration checks: the loop stops with that error. */
  lemma TypeRejected(tools: Dict<string, ToolSlot>, steps: seq<Step>, dirs0: set<Path>, dirs: set<Path>,
                     fs: FileSystem, name: string, task: Task, files: Dict<string, FileSlot>, types: seq<string>,
                     reg: ToolRegistry.ToolTable, env: Dict<string, string>, i: nat)
    requires ToolsLoop(tools, steps, dirs0, dirs, fs, name, task, files, types, reg, env, i) && i < |types|
    requires types[i] !in types[..i] && ConfigError(name, tools, types[i], reg).Some?
    ensures ToolsInstantiated(tools, steps, ConfigError(name, tools, types[i], reg), dirs0, dirs, fs, name, task, files, types, reg, env)
  {
    StepsSoFarKept(steps, task, tools, types[..i]);
    ToolsStopped(tools, steps, ConfigError(name, tools, types[i], reg), dirs0, dirs, fs, name, task, files, types, reg, env, i);
  }

  /** A main step of the `i`-th type names no member of its instance: the loop stops with that error. */
  lemma FuncMissing(tools: Dict<string, ToolSlot>, steps: seq<Step>, bound: seq<Step>, dirs0: set<Path>, dirs: set<Path>,
                    fs: FileSystem, name: string, task: Task, files: Dict<string, FileSlot>, types: seq<string>,
                    reg: ToolRegistry.ToolTable, env: Dict<string, string>, i: nat, tool: Tool)
    requires ToolsLoop(tools, steps, dirs0, dirs, fs, name, task, files, types, reg, env, i) && i < |types|
    requires types[i] !in types[..i]
    requires ToolBound(Bound(tool), fs, types[i], task, files, env, reg)
    requires MissingFunc(task.steps, types[i], tool.name, tool.attributes, 0).Some?
    requires |bound| == |steps|
    requires forall j :: 0 <= j < |steps| ==>
      bound[j] == steps[j] || (steps[j].toolType == types[i] && steps[j].tool == tool.name && bound[j] == steps[j].(bound := Some(tool)))
    ensures ToolsInstantiated(tools.Put(types[i], Bound(tool)), bound,
                              Some(NoSuchAttribute(name, types[i], MissingFunc(task.steps, types[i], tool.name, tool.attributes, 0).value)),
                              dirs0, dirs + {OutputDirOf(task.output, types[i], tool.name)}, fs, name, task, files, types, reg, env)
  {
    var t := types[i];
    var next := tools.Put(t, Bound(tool));
    var err := Some(NoSuchAttribute(name, t, MissingFunc(task.steps, t, tool.name, tool.attributes, 0).value));
    assert dirs + {OutputDirOf(task.output, t, tool.name)} == dirs0 + ToolDirs(task.tools, task.output, types[..i + 1]) by {
      ToolDirsStep(task.tools, task.output, types, i);
    }
    assert ToolsSoFar(next, fs, task, files, env, reg, types, types[..i + 1]) by {
      ToolsSoFarStep(tools, fs, task, files, env, reg, types, i, tool);
    }
    assert StepsBoundOrKept(bound, task, next) by {
      StepsPartlyBound(steps, bound, task, tools, types, i, tool);
    }
    assert err == ToolsErrorFrom(name, task.tools, task.steps, types, reg, i);
    ToolsStopped(next, bound, err, dirs0, dirs + {OutputDirOf(task.output, t, tool.name)}, fs, name, task, files, types, reg, env, i + 1);
  }

  /**
   * The rest of one turn of the tool loop, for the `i`-th type whose
   * configuration passed its checks: the instance is made and stored, and
   * handed to its steps.
   */
  method BindType(fs: FileSystem, name: string, task: Task, files: Dict<string, FileSlot>, types: seq<string>,
                  reg: ToolRegistry.ToolTable, env: Dict<string, string>, ghost dirs0: set<Path>,
                  tools: Dict<string, ToolSlot>, steps: seq<Step>, i: nat)
    returns (tools': Dict<string, ToolSlot>, steps': seq<Step>, err: Option<InitError>)
    requires ToolsLoop(tools, steps, dirs0, fs.dirs, fs, name, task, files, types, reg, env, i) && i < |types|
    requires types[i] !in types[..i] && ConfigError(name, tools, types[i], reg).None?
    modifies fs
    ensures fs.files == old(fs.files)
    ensures err.None? ==> ToolsLoop(tools', steps', dirs0, fs.dirs, fs, name, task, files, types, reg, env, i + 1)
    ensures err.Some? ==> ToolsInstantiated(tools', steps', err, dirs0, fs.dirs, fs, name, task, files, types, reg, env)
  {
    var t := types[i];
    var cfg := tools.items[t].config;
    var entry := reg.items[t].items[cfg.name];
    var tool := MakeTool(fs, t, cfg, task, files, env, entry.cls.members);
    tools' := tools.Put(t, Bound(tool));
    var missing;
    steps', missing := BindSteps(steps, t, tool);
    assert missing == MissingFunc(task.steps, t, cfg.name, entry.cls.members, 0) by {
      StepsSoFarSameCalls(steps, task, tools, types[..i]);
      MissingFuncSameCalls(steps, task.steps, t, cfg.name, entry.cls.members, 0);
    }
    if missing.Some? {
      err := Some(NoSuchAttribute(name, t, missing.value));
      FuncMissing(tools, steps, steps', dirs0, old(fs.dirs), fs, name, task, files, types, reg, env, i, tool);
    } else {
      err := None;
      ToolsLoopStep(tools, steps, steps', dirs0, old(fs.dirs), fs, name, task, files, types, reg, env, i, tool);
    }
  }

  /** The `i`-th of distinct names is not among the first `i`. */
  lemma NotYetVisitedIn(names: seq<string>, i: nat)
    requires i < |names| && forall a, b :: 0 <= a < b < |names| ==> names[a] != names[b]
    ensures names[i] !in names[..i]
  {
    forall m | 0 <= m < i ensures names[..i][m] != names[i] { }
  }

  /**
   * The tool loop of `initialize_tasks` for one task, over the needed
   * types `types` (distinct, as a set's elements are): each configured
   * tool is instantiated with the task's file table `files`, put in the
   * task's tool table, and handed to the main steps that name it.
   */
  method InstantiateTools(fs: FileSystem, name: string, task: Task, files: Dict<string, FileSlot>, types: seq<string>,
                          reg: ToolRegistry.ToolTable, env: Dict<string, string>)
    returns (tools: Dict<string, ToolSlot>, steps: seq<Step>, err: Option<InitError>)
    requires task.tools.Valid()
    requires forall a, b :: 0 <= a < b < |types| ==> types[a] != types[b]
    modifies fs
    ensures fs.files == old(fs.files)
    ensures ToolsInstantiated(tools, steps, err, old(fs.dirs), fs.dirs, fs, name, task, files, types, reg, env)
  {
    tools := task.tools;
    steps := task.steps;
    var i := 0;
    assert types[..0] == [];
    while i < |types|
      invariant fs.files == old(fs.files)
      invariant ToolsLoop(tools, steps, old(fs.dirs), fs.dirs, fs, name, task, files, types, reg, env, i)
    {
      NotYetVisitedIn(types, i);
      err := ConfigError(name, tools, types[i], reg);
      if err.Some? {
        TypeRejected(tools, steps, old(fs.dirs), fs.dirs, fs, name, task, files, types, reg, env, i);
        return;
      }
      tools, steps, err := BindType(fs, name, task, files, types, reg, env, old(fs.dirs), tools, steps, i);
      if err.Some? {
        return;
      }
      i := i + 1;
    }
    err := None;
    ToolsErrorNone(name, task.tools, task.steps, types, reg, i);
    ToolsFinished(tools, steps, old(fs.dirs), fs.dirs, fs, name, task, files, types, reg, env);
  }

  // ---------------------------------------------------------------------
  // `initialize_tasks`, one task at a time
  // ---------------------------------------------------------------------

  /**
   * One task's turn in `initialize_tasks`: its file entries are opened in
   * its output directory, then the tools of the types its steps need are
   * instantiated; the filesystem contents after it and the first error.
   */
  function TaskInit(files: map<Path, string>, name: string, task: Task, out: Path,
                    fileTable: FileRegistry.FileTable, toolTable: ToolRegistry.ToolTable, plugins: FilePlugins): FilesOpened
    requires PluginsValid(plugins) && task.files.Valid()
  {
    var o := OpenFilesFrom(files, name, task, out, fileTable, plugins, 0);
    if o.error.Some? then o
    else FilesOpened(o.files, ToolsErrorFrom(name, task.tools, task.steps, NeededToolTypes(task), toolTable, 0))
  }

  /**
   * `t` is the task `task` after a successful turn: every file entry holds
   * its session, every needed type its instance, and every main step naming
   * an instantiated tool is bound to it and calls a member it has.
   */
  ghost predicate TaskReady(t: Task, task: Task, fs: FileSystem, name: string, out: Path, plugins: FilePlugins,
                            toolTable: ToolRegistry.ToolTable, env: Dict<string, string>) {
    var types := NeededToolTypes(task);
    && t.name == task.name && t.path == task.path && t.output == task.output
    && t.order == task.order && t.cleanup == task.cleanup
    && t.files.keys == task.files.keys && (forall f :: f in t.files.items <==> f in task.files.items)
    && (forall f :: f in t.files.items ==> SessionFor(t.files.items[f], task.files.items[f], plugins(name, f), out, fs))
    && t.tools.keys == task.tools.keys && (forall u :: u in t.tools.items <==> u in task.tools.items)
    && (forall u :: u in types ==> u in t.tools.items && ToolBound(t.tools.items[u], fs, u, task, t.files, env, toolTable))
    && StepsSoFar(t.steps, task, t.tools, types)
    && forall j :: 0 <= j < |task.steps| && Matches(task.tools, types, task.steps[j]) ==> CallOk(t, task.steps[j], true)
  }

  /**
   * After a successful turn, every main step naming an instantiated tool
   * carries that instance as `tool_instance`, and the schedule's call of it
   * finds its member.
   */
  lemma ReadyStepsCallable(t: Task, task: Task, fs: FileSystem, name: string, out: Path, plugins: FilePlugins,
                           toolTable: ToolRegistry.ToolTable, env: Dict<string, string>)
    requires TaskReady(t, task, fs, name, out, plugins, toolTable, env)
    ensures |t.steps| == |task.steps|
    ensures forall j :: 0 <= j < |t.steps| && Matches(task.tools, NeededToolTypes(task), task.steps[j]) ==>
      && CallOk(t, t.steps[j], true)
      && t.steps[j] == task.steps[j].(bound := Some(t.tools.items[task.steps[j].toolType].tool))
    ensures forall j :: 0 <= j < |t.steps| && !Matches(task.tools, NeededToolTypes(task), task.steps[j]) ==>
      t.steps[j] == task.steps[j]
  {
    var types := NeededToolTypes(task);
    forall j | 0 <= j < |t.steps| && Matches(task.tools, types, task.steps[j])
      ensures CallOk(t, t.steps[j], true)
      ensures t.steps[j] == task.steps[j].(bound := Some(t.tools.items[task.steps[j].toolType].tool))
    {
      assert CallOk(t, task.steps[j], true);
      assert t.steps[j].toolType == task.steps[j].toolType && t.steps[j].func == task.steps[j].func;
    }
  }

  /** Every file entry is declared or a session on `fs`. */
  ghost predicate FilesOn(files: Dict<string, FileSlot>, fs: FileSystem) {
    forall f :: f in files.items ==> files.items[f].Declared? || files.items[f].session.fs == fs
  }

  /** The task after a turn that failed: only its tables changed, and they stay tables. */
  ghost predicate TaskTouched(t: Task, task: Task, fs: FileSystem) {
    && t == task.(files := t.files, tools := t.tools, steps := t.steps)
    && t.files.Valid() && t.tools.Valid() && FilesOn(t.files, fs)
    && |t.steps| == |task.steps|
  }

  /**
   * The body of the task loop of `initialize_tasks`: the file entries, then
   * the tools of the types the task's main and cleanup steps use.
   */
  method InitializeTask(fs: FileSystem, name: string, task: Task, out: Path, fileTable: FileRegistry.FileTable,
                        toolTable: ToolRegistry.ToolTable, env: Dict<string, string>, plugins: FilePlugins)
    returns (t: Task, err: Option<InitError>)
    requires PluginsValid(plugins) && task.files.Valid() && task.tools.Valid() && FilesOn(task.files, fs)
    modifies fs
    ensures var o := TaskInit(old(fs.files), name, task, out, fileTable, toolTable, plugins);
      fs.files == o.files && err == o.error
    ensures TaskTouched(t, task, fs) && old(fs.dirs) <= fs.dirs
    ensures err.None? ==> TaskReady(t, task, fs, name, out, plugins, toolTable, env)
  {
    var slots, e := InstantiateFiles(fs, name, task, out, fileTable, plugins);
    t := task.(files := slots);
    if e.Some? {
      err := e;
      return;
    }
    var types := NeededToolTypes(task);
    var tools, steps, e2 := InstantiateTools(fs, name, task, slots, types, toolTable, env);
    t := t.(tools := tools, steps := steps);
    err := e2;
    if e2.None? {
      forall j | 0 <= j < |task.steps| && Matches(task.tools, types, task.steps[j])
        ensures CallOk(t, task.steps[j], true)
      {
        assert CallOk(task.(tools := tools), task.steps[j], true);
      }
    }
  }

  // ---------------------------------------------------------------------
  // The task loop of `initialize_tasks`, and teardown
  // ---------------------------------------------------------------------

  /** Every task's tables are dicts, and its file entries are declared or sessions on `fs`. */
  ghost predicate TablesOn(tasks: Dict<string, Task>, fs: FileSystem) {
    forall n :: n in tasks.items ==>
      tasks.items[n].files.Valid() && tasks.items[n].tools.Valid() && FilesOn(tasks.items[n].files, fs)
  }

  /**
   * `initialize_tasks` from the `i`-th task on, in table order, each in its
   * directory `output_dir / task_name`: the filesystem contents after it and
   * the first error, which ends the loop.
   */
  function InitFrom(files: map<Path, string>, tasks: Dict<string, Task>, i: nat, outputDir: Path,
                    fileTable: FileRegistry.FileTable, toolTable: ToolRegistry.ToolTable, plugins: FilePlugins): FilesOpened
    requires PluginsValid(plugins) && tasks.Valid() && i <= |tasks.keys|
    requires forall n :: n in tasks.items ==> tasks.items[n].files.Valid()
    decreases |tasks.keys| - i
  {
    if i == |tasks.keys| then FilesOpened(files, None)
    else
      var n := tasks.keys[i];
      var o := TaskInit(files, n, tasks.items[n], Join(outputDir, n), fileTable, toolTable, plugins);
      if o.error.Some? then o
      else InitFrom(o.files, tasks, i + 1, outputDir, fileTable, toolTable, plugins)
  }

  /** One turn of `InitFrom`: the `i`-th task's `TaskInit`, then the rest unless it failed. */
  lemma InitFromStep(files: map<Path, string>, tasks: Dict<string, Task>, i: nat, outputDir: Path,
                     fileTable: FileRegistry.FileTable, toolTable: ToolRegistry.ToolTable, plugins: FilePlugins,
                     o: FilesOpened)
    requires PluginsValid(plugins) && tasks.Valid() && i < |tasks.keys|
    requires forall n :: n in tasks.items ==> tasks.items[n].files.Valid()
    requires o == TaskInit(files, tasks.keys[i], tasks.items[tasks.keys[i]], Join(outputDir, tasks.keys[i]), fileTable, toolTable, plugins)
    ensures InitFrom(files, tasks, i, outputDir, fileTable, toolTable, plugins)
         == if o.error.Some? then o else InitFrom(o.files, tasks, i + 1, outputDir, fileTable, toolTable, plugins)
  {
  }

  /** The tasks named in `done` are ready. */
  ghost predicate ReadyOn(ts: map<string, Task>, tasks: map<string, Task>, done: seq<string>, fs: FileSystem, outputDir: Path,
                          plugins: FilePlugins, toolTable: ToolRegistry.ToolTable, env: Dict<string, string>) {
    forall n :: n in done ==>
      n in ts && n in tasks && TaskReady(ts[n], tasks[n], fs, n, Join(outputDir, n), plugins, toolTable, env)
  }

  /** The tasks not named in `done` are as configured. */
  ghost predicate UntouchedOutside(ts: map<string, Task>, tasks: map<string, Task>, done: seq<string>) {
    forall n :: n in ts && n !in done ==> n in tasks && ts[n] == tasks[n]
  }

  /** Every task is touched at most. */
  ghost predicate TouchedOn(ts: map<string, Task>, tasks: map<string, Task>, fs: FileSystem) {
    forall n :: n in ts ==> n in tasks && TaskTouched(ts[n], tasks[n], fs)
  }

  /** Where the loop of `InitializeTasks` stands after its first `i` tasks all succeeded. */
  ghost predicate InitSoFar(ts: Dict<string, Task>, tasks: Dict<string, Task>, i: nat, fs: FileSystem, outputDir: Path,
                            plugins: FilePlugins, toolTable: ToolRegistry.ToolTable, env: Dict<string, string>) {
    && i <= |tasks.keys|
    && ts.Valid() && ts.keys == tasks.keys && (forall n :: n in ts.items <==> n in tasks.items)
    && UntouchedOutside(ts.items, tasks.items, tasks.keys[..i])
    && ReadyOn(ts.items, tasks.items, tasks.keys[..i], fs, outputDir, plugins, toolTable, env)
    && TouchedOn(ts.items, tasks.items, fs)
  }

  /** The `i`-th task has not been visited by the first `i` turns. */
  lemma NotYetVisited(tasks: Dict<string, Task>, i: nat)
    requires tasks.Valid() && i < |tasks.keys|
    ensures tasks.keys[i] !in tasks.keys[..i]
  {
    forall m | 0 <= m < i ensures tasks.keys[..i][m] != tasks.keys[i] { }
  }

  /** Recording the `i`-th task, ready, keeps the tasks before it ready. */
  lemma ReadyKept(ts: map<string, Task>, tasks: map<string, Task>, keys: seq<string>, i: nat, t: Task, fs: FileSystem,
                  outputDir: Path, plugins: FilePlugins, toolTable: ToolRegistry.ToolTable, env: Dict<string, string>)
    requires i < |keys| && ReadyOn(ts, tasks, keys[..i], fs, outputDir, plugins, toolTable, env)
    requires keys[i] in tasks && TaskReady(t, tasks[keys[i]], fs, keys[i], Join(outputDir, keys[i]), plugins, toolTable, env)
    ensures ReadyOn(ts[keys[i] := t], tasks, keys[..i + 1], fs, outputDir, plugins, toolTable, env)
  {
    var n := keys[i];
    PrefixGrows(keys, i);
    forall x | x in keys[..i + 1]
      ensures x in ts[n := t] && x in tasks && TaskReady(ts[n := t][x], tasks[x], fs, x, Join(outputDir, x), plugins, toolTable, env)
    {
      if x != n {
        assert ts[n := t][x] == ts[x];
      }
    }
  }

  /** Recording the `i`-th task leaves the tasks after it as configured. */
  lemma UntouchedKept(ts: map<string, Task>, tasks: map<string, Task>, keys: seq<string>, i: nat, t: Task)
    requires i < |keys| && UntouchedOutside(ts, tasks, keys[..i])
    ensures UntouchedOutside(ts[keys[i] := t], tasks, keys[..i + 1])
  {
    PrefixGrows(keys, i);
  }

  /** Recording a touched task keeps every task touched. */
  lemma TouchedKept(ts: map<string, Task>, tasks: map<string, Task>, n: string, t: Task, fs: FileSystem)
    requires TouchedOn(ts, tasks, fs) && n in tasks && TaskTouched(t, tasks[n], fs)
    ensures TouchedOn(ts[n := t], tasks, fs)
  {
    forall x | x in ts[n := t] ensures x in tasks && TaskTouched(ts[n := t][x], tasks[x], fs) {
      if x != n {
        assert ts[n := t][x] == ts[x];
      }
    }
  }

  lemma InitSoFarStep(ts: Dict<string, Task>, tasks: Dict<string, Task>, i: nat, fs: FileSystem, outputDir: Path,
                      plugins: FilePlugins, toolTable: ToolRegistry.ToolTable, env: Dict<string, string>, t: Task)
    requires tasks.Valid() && InitSoFar(ts, tasks, i, fs, outputDir, plugins, toolTable, env) && i < |tasks.keys|
    requires TaskTouched(t, tasks.items[tasks.keys[i]], fs)
    requires TaskReady(t, tasks.items[tasks.keys[i]], fs, tasks.keys[i], Join(outputDir, tasks.keys[i]), plugins, toolTable, env)
    ensures InitSoFar(ts.Put(tasks.keys[i], t), tasks, i + 1, fs, outputDir, plugins, toolTable, env)
  {
    var n := tasks.keys[i];
    UntouchedKept(ts.items, tasks.items, tasks.keys, i, t);
    ReadyKept(ts.items, tasks.items, tasks.keys, i, t, fs, outputDir, plugins, toolTable, env);
    TouchedKept(ts.items, tasks.items, n, t, fs);
  }

  lemma InitSoFarFailed(ts: Dict<string, Task>, tasks: Dict<string, Task>, i: nat, fs: FileSystem, outputDir: Path,
                        plugins: FilePlugins, toolTable: ToolRegistry.ToolTable, env: Dict<string, string>, t: Task)
    requires tasks.Valid() && InitSoFar(ts, tasks, i, fs, outputDir, plugins, toolTable, env) && i < |tasks.keys|
    requires TaskTouched(t, tasks.items[tasks.keys[i]], fs)
    ensures var ts' := ts.Put(tasks.keys[i], t);
      ts'.keys == tasks.keys && (forall n :: n in ts'.items <==> n in tasks.items) && TouchedOn(ts'.items, tasks.items, fs)
  {
    TouchedKept(ts.items, tasks.items, tasks.keys[i], t, fs);
  }

  lemma InitSoFarDone(ts: Dict<string, Task>, tasks: Dict<string, Task>, fs: FileSystem, outputDir: Path,
                      plugins: FilePlugins, toolTable: ToolRegistry.ToolTable, env: Dict<string, string>)
    requires tasks.Valid() && InitSoFar(ts, tasks, |tasks.keys|, fs, outputDir, plugins, toolTable, env)
    ensures forall n :: n in ts.items ==> TaskReady(ts.items[n], tasks.items[n], fs, n, Join(outputDir, n), plugins, toolTable, env)
  {
    assert tasks.keys[..|tasks.keys|] == tasks.keys;
  }

  /** The loop of `InitializeTasks`: every task in table order, until the first error. */
  method InitializeTable(fs: FileSystem, tasks: Dict<string, Task>, outputDir: Path, fileTable: FileRegistry.FileTable,
                         toolTable: ToolRegistry.ToolTable, env: Dict<string, string>, plugins: FilePlugins)
    returns (ts: Dict<string, Task>, err: Option<InitError>)
    requires tasks.Valid() && TablesOn(tasks, fs) && PluginsValid(plugins) && env.Valid()
    modifies fs
    ensures var o := InitFrom(old(fs.files), tasks, 0, outputDir, fileTable, toolTable, plugins);
      fs.files == o.files && err == o.error
    ensures old(fs.dirs) <= fs.dirs
    ensures ts.keys == tasks.keys && (forall n :: n in ts.items <==> n in tasks.items)
    ensures forall n :: n in ts.items ==> TaskTouched(ts.items[n], tasks.items[n], fs)
    ensures err.None? ==> forall n :: n in ts.items ==>
      TaskReady(ts.items[n], tasks.items[n], fs, n, Join(outputDir, n), plugins, toolTable, env)
  {
    ts := tasks;
    err := None;
    var i := 0;
    while i < |ts.keys|
      modifies fs
      invariant InitSoFar(ts, tasks, i, fs, outputDir, plugins, toolTable, env)
      invariant InitFrom(fs.files, tasks, i, outputDir, fileTable, toolTable, plugins)
             == InitFrom(old(fs.files), tasks, 0, outputDir, fileTable, toolTable, plugins)
      invariant err.None?
      invariant old(fs.dirs) <= fs.dirs
    {
      var n := ts.keys[i];
      var task := ts.items[n];
      NotYetVisited(tasks, i);
      ghost var before := fs.files;
      var t, e := InitializeTask(fs, n, task, Join(outputDir, n), fileTable, toolTable, env, plugins);
      InitFromStep(before, tasks, i, outputDir, fileTable, toolTable, plugins, FilesOpened(fs.files, e));
      if e.Some? {
        InitSoFarFailed(ts, tasks, i, fs, outputDir, plugins, toolTable, env, t);
        ts := ts.Put(n, t);
        err := e;
        return;
      }
      InitSoFarStep(ts, tasks, i, fs, outputDir, plugins, toolTable, env, t);
      ts := ts.Put(n, t);
      i := i + 1;
    }
    InitSoFarDone(ts, tasks, fs, outputDir, plugins, toolTable, env);
  }

  /** Touching every task keeps the orders the schedule reads and leaves tables on `fs`. */
  lemma AllTouched(orig: Dict<string, Task>, ts: Dict<string, Task>, fs: FileSystem)
    requires ts.keys == orig.keys && (forall n :: n in ts.items <==> n in orig.items)
    requires forall n :: n in ts.items ==> TaskTouched(ts.items[n], orig.items[n], fs)
    ensures SameOrders(orig, ts) && TablesOn(ts, fs)
  {
  }

  /** The sessions held by a file table from its `k`-th entry on, in table order. */
  function SessionsOf(files: Dict<string, FileSlot>, k: nat): seq<Session>
    requires files.Valid() && k <= |files.keys|
    decreases |files.keys| - k
  {
    if k == |files.keys| then []
    else
      var slot := files.items[files.keys[k]];
      (if slot.Instance? then [slot.session] else []) + SessionsOf(files, k + 1)
  }

  /** The sessions of every task from the `i`-th on, task by task. */
  function AllSessions(tasks: Dict<string, Task>, i: nat): seq<Session>
    requires tasks.Valid() && i <= |tasks.keys|
    requires forall n :: n in tasks.items ==> tasks.items[n].files.Valid()
    decreases |tasks.keys| - i
  {
    if i == |tasks.keys| then []
    else SessionsOf(tasks.items[tasks.keys[i]].files, 0) + AllSessions(tasks, i + 1)
  }

  /** The filesystem contents after the sessions `ss` are torn down, first to last. */
  function RestoreAll(files: map<Path, string>, ss: seq<Session>): map<Path, string>
    decreases |ss|
  {
    if ss == [] then files else RestoreAll(Restore(files, ss[0].backup, ss[0].file), ss[1..])
  }

  lemma {:induction false} RestoreAllAppend(files: map<Path, string>, a: seq<Session>, b: seq<Session>)
    ensures RestoreAll(files, a + b) == RestoreAll(RestoreAll(files, a), b)
    decreases |a|
  {
    if a != [] {
      assert (a + b)[0] == a[0] && (a + b)[1..] == a[1..] + b;
      RestoreAllAppend(Restore(files, a[0].backup, a[0].file), a[1..], b);
    } else {
      assert a + b == b;
    }
  }

  /** The path is neither a live file nor a backup of any of the sessions. */
  predicate Untouched(p: Path, ss: seq<Session>) {
    forall i :: 0 <= i < |ss| ==> p != ss[i].file && (ss[i].backup.None? || p != ss[i].backup.value)
  }

  /** Teardown leaves every path that is no session's live file or backup as it was. */
  lemma {:induction false} RestoreAllElsewhere(files: map<Path, string>, ss: seq<Session>, p: Path)
    requires Untouched(p, ss)
    ensures p in RestoreAll(files, ss) <==> p in files
    ensures p in files ==> RestoreAll(files, ss)[p] == files[p]
    decreases |ss|
  {
    if ss != [] {
      var next := Restore(files, ss[0].backup, ss[0].file);
      assert p in next <==> p in files;
      assert p in files ==> next[p] == files[p];
      assert Untouched(p, ss[1..]) by {
        forall i | 0 <= i < |ss| - 1 ensures ss[1..][i] == ss[i + 1] { }
      }
      RestoreAllElsewhere(next, ss[1..], p);
    }
  }

  /** `del task["files"][file]` for every entry: each session is torn down, in table order. */
  method ReleaseTaskFiles(fs: FileSystem, files: Dict<string, FileSlot>)
    requires files.Valid() && FilesOn(files, fs)
    modifies fs
    ensures fs.files == RestoreAll(old(fs.files), SessionsOf(files, 0)) && fs.dirs == old(fs.dirs)
  {
    var k := 0;
    while k < |files.keys|
      invariant 0 <= k <= |files.keys|
      invariant RestoreAll(fs.files, SessionsOf(files, k)) == RestoreAll(old(fs.files), SessionsOf(files, 0))
      invariant fs.dirs == old(fs.dirs)
    {
      var slot := files.items[files.keys[k]];
      if slot.Instance? {
        assert SessionsOf(files, k) == [slot.session] + SessionsOf(files, k + 1);
        assert SessionsOf(files, k)[1..] == SessionsOf(files, k + 1);
        var _ := slot.session.Teardown();
      } else {
        assert SessionsOf(files, k) == SessionsOf(files, k + 1);
      }
      k := k + 1;
    }
  }

  /** The task without its file entries. */
  function Released(task: Task): Task {
    task.(files := EmptyDict())
  }

  /** `ts` is `tasks` with the first `i` tasks released. */
  ghost predicate ReleasedUpTo(ts: Dict<string, Task>, tasks: Dict<string, Task>, i: int) {
    && ts.Valid() && ts.keys == tasks.keys && (forall n :: n in ts.items <==> n in tasks.items)
    && 0 <= i <= |tasks.keys|
    && (forall m :: i <= m < |tasks.keys| ==> ts.items[tasks.keys[m]] == tasks.items[tasks.keys[m]])
    && (forall m :: 0 <= m < i ==> ts.items[tasks.keys[m]] == Released(tasks.items[tasks.keys[m]]))
  }

  lemma ReleasedStep(ts: Dict<string, Task>, tasks: Dict<string, Task>, i: nat)
    requires ReleasedUpTo(ts, tasks, i) && i < |tasks.keys|
    ensures ReleasedUpTo(ts.Put(tasks.keys[i], Released(ts.items[tasks.keys[i]])), tasks, i + 1)
  {
    var n := tasks.keys[i];
    var next := ts.Put(n, Released(ts.items[n]));
    forall m | 0 <= m < |tasks.keys| && m != i
      ensures next.items[tasks.keys[m]] == ts.items[tasks.keys[m]]
    {
      assert tasks.keys[m] != n;
    }
  }

  /** The loop of `ReleaseFiles`: every task's sessions torn down, in table order. */
  method ReleaseTable(fs: FileSystem, tasks: Dict<string, Task>) returns (ts: Dict<string, Task>)
    requires tasks.Valid() && TablesOn(tasks, fs)
    modifies fs
    ensures fs.files == RestoreAll(old(fs.files), AllSessions(tasks, 0)) && fs.dirs == old(fs.dirs)
    ensures ts.keys == tasks.keys && (forall n :: n in ts.items <==> n in tasks.items)
    ensures forall m :: 0 <= m < |tasks.keys| ==> ts.items[tasks.keys[m]] == Released(tasks.items[tasks.keys[m]])
  {
    ts := tasks;
    var i := 0;
    while i < |ts.keys|
      modifies fs
      invariant ReleasedUpTo(ts, tasks, i)
      invariant RestoreAll(fs.files, AllSessions(tasks, i)) == RestoreAll(old(fs.files), AllSessions(tasks, 0))
      invariant fs.dirs == old(fs.dirs)
    {
      var n := ts.keys[i];
      ghost var rest := AllSessions(tasks, i + 1);
      assert ts.items[n] == tasks.items[n];
      RestoreAllAppend(fs.files, SessionsOf(tasks.items[n].files, 0), rest);
      ReleaseTaskFiles(fs, ts.items[n].files);
      ReleasedStep(ts, tasks, i);
      ts := ts.Put(n, Released(ts.items[n]));
      i := i + 1;
    }
    assert AllSessions(tasks, i) == [];
  }

  /** Releasing every task keeps the orders the schedule reads and leaves tables on `fs`. */
  lemma AllReleased(orig: Dict<string, Task>, ts: Dict<string, Task>, fs: FileSystem)
    requires orig.Valid() && TablesOn(orig, fs)
    requires ts.keys == orig.keys && (forall n :: n in ts.items <==> n in orig.items)
    requires forall m :: 0 <= m < |orig.keys| ==> ts.items[orig.keys[m]] == Released(orig.items[orig.keys[m]])
    ensures forall n :: n in ts.items ==> ts.items[n] == Released(orig.items[n])
    ensures SameOrders(orig, ts) && TablesOn(ts, fs)
  {
    forall n | n in ts.items ensures ts.items[n] == Released(orig.items[n]) {
      var m :| 0 <= m < |orig.keys| && orig.keys[m] == n;
    }
  }

  // ---------------------------------------------------------------------
  // `__del__` as written
  // ---------------------------------------------------------------------

  /** `__x` assigned inside `class Testbench` is stored under `_Testbench__x`. */
  function Mangled(attr: string): string {
    "_Testbench" + attr
  }

  /** The attribute names `__init__` gives the instance, once it returned. */
  function InstanceAttributes(): set<string> {
    {"log"} + set a | a in ["__config_path", "__config", "__output_base_dir", "__output_dir",
                           "__env", "__tools", "__files", "__tasks", "__schedule"] :: Mangled(a)
  }

  /** As written: `__del__` cleans up only when `hasattr(self, "__tasks")`, a literal name mangling leaves alone. */
  predicate DelGuardAsWritten(attributes: set<string>) {
    "__tasks" in attributes
  }

  /**
   * Whatever part of `__init__` ran, the guard of `__del__` is false: the
   * task table lives under the mangled name, so the files are never released
   * by it.
   */
  lemma DelGuardNeverHolds(attributes: set<string>)
    requires attributes <= InstanceAttributes()
    ensures !DelGuardAsWritten(attributes)
    ensures Mangled("__tasks") in InstanceAttributes()
  {
  }

  // ---------------------------------------------------------------------
  // Building the testbench: `__init__`
  // ---------------------------------------------------------------------

  /** Why `__init__` raised, by the block whose `ValueError` wraps it. */
  datatype SetupError =
    | SectionMissing(key: string, why: GetError)     // `__get(key)` raised
    | RootNotAString(key: string)                    // a registry root that is not a path string
    | ToolsFailed(registry: RegistryError)           // "Error setting up tools"
    | FilesFailed(registry: RegistryError)           // "Error setting up files"
    | TasksFailed(task: TaskError)                   // "Error setting up tasks"
    | ScheduleFailed(schedule: ScheduleError)        // "Error setting up schedule"

  /**
   * What `__init__` reads besides the configuration tree and the
   * environment: each registry directory's listing and what importing its
   * modules gives, the `tasks` and `schedule` sections as the binders read
   * them, the working directory and the paths that exist.
   */
  datatype SetupInputs = SetupInputs(
    toolListing: Option<seq<DirEntry>>, toolLoad: Loader,
    fileListing: Option<seq<DirEntry>>, fileLoad: Loader,
    tasks: Option<Dict<string, TaskConfig>>, schedule: Option<Dict<string, ScheduleEntry>>,
    cwd: Path, existing: set<Path>)

  ghost predicate SetupInputsValid(inputs: SetupInputs) {
    && (inputs.tasks.Some? ==> ConfigValid(inputs.tasks.value))
    && (inputs.schedule.Some? ==> ScheduleValid(inputs.schedule.value))
  }

  /** The registries and the scheduled task table `__init__` ends with. */
  datatype Built = Built(toolTable: ToolRegistry.ToolTable, fileTable: FileRegistry.FileTable, tasks: Dict<string, Task>)

  /** One registry root: `__get(key)`, then a path string. */
  function RootAt(config: Value, key: string): Result<Path, SetupError> {
    match Walk(config, Split(key, '/'))
    case Err(e) => Err(SectionMissing(key, e))
    case Ok(v) => if RegistryRoot(v, key).Ok? then Ok(RegistryRoot(v, key).value) else Err(RootNotAString(key))
  }

  /** The two registries: `TestbenchTools(__get("registry/tools"))`, then `TestbenchFiles(__get("registry/files"))`. */
  function Registries(config: Value, inputs: SetupInputs): Result<(ToolRegistry.ToolTable, FileRegistry.FileTable), SetupError> {
    match RootAt(config, "registry/tools")
    case Err(e) => Err(e)
    case Ok(toolRoot) =>
      match ToolRegistry.DiscoverTools(toolRoot, inputs.toolListing, inputs.toolLoad)
      case Err(e) => Err(ToolsFailed(e))
      case Ok(tools) =>
        match RootAt(config, "registry/files")
        case Err(e) => Err(e)
        case Ok(fileRoot) =>
          match FileRegistry.DiscoverFiles(fileRoot, inputs.fileListing, inputs.fileLoad)
          case Err(e) => Err(FilesFailed(e))
          case Ok(files) => Ok((tools, files))
  }

  /** A task as the binder leaves it: tables that are dicts, every file entry still declared. */
  ghost predicate AsBound(task: Task) {
    && task.files.Valid() && task.tools.Valid()
    && forall f :: f in task.files.items ==> task.files.items[f].Declared?
  }

  /** Every task the corrected binder yields is as bound. */
  lemma ParsedTasksAsBound(config: Option<Dict<string, TaskConfig>>, b: Binding)
    requires config.Some? ==> ConfigValid(config.value)
    ensures ParseTasksFlat(config, b).Ok? ==>
      && ParseTasksFlat(config, b).value.Valid()
      && forall n :: n in ParseTasksFlat(config, b).value.items ==> AsBound(ParseTasksFlat(config, b).value.items[n])
  {
    ParsedTasks(config, b);
    ParsedTasksFlat(config, b);
    if ParseTasksFlat(config, b).Ok? {
      var ts := ParseTasksFlat(config, b).value;
      forall n | n in ts.items ensures AsBound(ts.items[n]) {
        TaskAsBound(n, config.value.items[n], b);
      }
    }
  }

  lemma TaskAsBound(name: string, c: TaskConfig, b: Binding)
    requires TaskConfigValid(c) && BindTaskFlat(name, c, b).Ok?
    ensures AsBound(BindTaskFlat(name, c, b).value)
  {
    BoundTask(name, c, b);
    BoundTaskFlat(name, c, b);
    if c.files.Some? {
      var fc := c.files.value;
      assert fc.keys[..|fc.keys|] == fc.keys;
    }
  }

  /** The task step: `__get("tasks")`, then the corrected binder; its tasks are as bound. */
  function TasksStep(config: Value, inputs: SetupInputs, tools: ToolRegistry.ToolTable, files: FileRegistry.FileTable,
                     outputDir: Path): (r: Result<Dict<string, Task>, SetupError>)
    requires SetupInputsValid(inputs)
    ensures Walk(config, Split("tasks", '/')).Err? ==> r == Err(SectionMissing("tasks", Walk(config, Split("tasks", '/')).error))
    ensures r.Ok? ==> r.value.Valid() && forall n :: n in r.value.items ==> AsBound(r.value.items[n])
  {
    match Walk(config, Split("tasks", '/'))
    case Err(e) => Err(SectionMissing("tasks", e))
    case Ok(_) =>
      var b := Binding(tools, files, outputDir, inputs.cwd, inputs.existing);
      ParsedTasksAsBound(inputs.tasks, b);
      match ParseTasksFlat(inputs.tasks, b)
      case Err(e) => Err(TasksFailed(e))
      case Ok(tasks) => Ok(tasks)
  }

  /** Applying schedule entries keeps every task as bound: an entry sets only the order and the steps. */
  lemma ScheduledTasksAsBound(config: Option<Dict<string, ScheduleEntry>>, tasks: Dict<string, Task>, reg: ToolRegistry.ToolTable)
    requires config.Some? ==> ScheduleValid(config.value)
    requires tasks.Valid() && forall n :: n in tasks.items ==> AsBound(tasks.items[n])
    ensures ParseScheduleSpec(config, tasks, reg).Ok? ==>
      && ParseScheduleSpec(config, tasks, reg).value.Valid()
      && forall n :: n in ParseScheduleSpec(config, tasks, reg).value.items ==> AsBound(ParseScheduleSpec(config, tasks, reg).value.items[n])
  {
    ParsedSchedule(config, tasks, reg);
    if config.Some? && ParseScheduleSpec(config, tasks, reg).Ok? {
      var ts := ParseScheduleSpec(config, tasks, reg).value;
      forall n | n in ts.items ensures AsBound(ts.items[n]) {
        if n in config.value.items {
          EntryKeepsBinding(n, tasks.items[n], config.value.items[n], reg);
        }
      }
    }
  }

  lemma EntryKeepsBinding(n: string, t: Task, e: ScheduleEntry, reg: ToolRegistry.ToolTable)
    requires EntryValid(e) && ParseEntry(n, t, e, reg).Ok?
    ensures ParseEntry(n, t, e, reg).value.files == t.files && ParseEntry(n, t, e, reg).value.tools == t.tools
  {
  }

  /**
   * The schedule step: `__get("schedule")`, then `TestbenchSchedule`, whose
   * cursor needs an order on every task; the tasks stay as bound.
   */
  function ScheduleStep(config: Value, inputs: SetupInputs, tools: ToolRegistry.ToolTable, tasks: Dict<string, Task>)
    : (r: Result<Dict<string, Task>, SetupError>)
    requires SetupInputsValid(inputs) && tasks.Valid() && forall n :: n in tasks.items ==> AsBound(tasks.items[n])
    ensures Walk(config, Split("schedule", '/')).Err? ==> r == Err(SectionMissing("schedule", Walk(config, Split("schedule", '/')).error))
    ensures r.Ok? ==> && r.value.Valid() && FirstUnordered(r.value, 0).None?
                      && r.value.keys == tasks.keys
                      && forall n :: n in r.value.items ==> AsBound(r.value.items[n])
  {
    match Walk(config, Split("schedule", '/'))
    case Err(e) => Err(SectionMissing("schedule", e))
    case Ok(_) =>
      ScheduledTasksAsBound(inputs.schedule, tasks, tools);
      ParsedSchedule(inputs.schedule, tasks, tools);
      match ParseScheduleSpec(inputs.schedule, tasks, tools)
      case Err(e) => Err(ScheduleFailed(e))
      case Ok(ts) => if FirstUnordered(ts, 0).Some? then Err(ScheduleFailed(MissingOrder(FirstUnordered(ts, 0).value))) else Ok(ts)
  }

  /**
   * `__init__` after the environment is read: the configuration with the
   * environment substituted, then the two registries, the task table and
   * the schedule, each from its section; the first failure ends it. What
   * it ends with is a table of tasks as bound, each with an order.
   */
  function Setup(config: Value, env: Dict<string, string>, outputDir: Path, inputs: SetupInputs): (r: Result<Built, SetupError>)
    requires env.Valid() && SetupInputsValid(inputs)
    ensures r.Ok? ==> && r.value.tasks.Valid() && FirstUnordered(r.value.tasks, 0).None?
                      && forall n :: n in r.value.tasks.items ==> AsBound(r.value.tasks.items[n])
  {
    var c := Substituted(config, env);
    match Registries(c, inputs)
    case Err(e) => Err(e)
    case Ok(regs) => Assemble(c, inputs, regs.0, regs.1, outputDir)
  }

  /** The task step, then the schedule step, over the two registries. */
  function Assemble(config: Value, inputs: SetupInputs, tools: ToolRegistry.ToolTable, files: FileRegistry.FileTable,
                    outputDir: Path): (r: Result<Built, SetupError>)
    requires SetupInputsValid(inputs)
    ensures r.Ok? ==> && r.value.tasks.Valid() && FirstUnordered(r.value.tasks, 0).None?
                      && forall n :: n in r.value.tasks.items ==> AsBound(r.value.tasks.items[n])
  {
    match TasksStep(config, inputs, tools, files, outputDir)
    case Err(e) => Err(e)
    case Ok(tasks) =>
      match ScheduleStep(config, inputs, tools, tasks)
      case Err(e) => Err(e)
      case Ok(ts) => Ok(Built(tools, files, ts))
  }

  /** `TestbenchTools(...).get()` and `TestbenchFiles(...).get()`, each from its section. */
  method LoadRegistries(config: Value, inputs: SetupInputs)
    returns (r: Result<(ToolRegistry.ToolTable, FileRegistry.FileTable), SetupError>)
    ensures r == Registries(config, inputs)
  {
    var tv := Get(config, "registry/tools");
    if tv.Err? {
      return Err(SectionMissing("registry/tools", tv.error));
    }
    var toolRoot := RegistryRoot(tv.value, "registry/tools");
    if toolRoot.Err? {
      return Err(RootNotAString("registry/tools"));
    }
    var tools := ToolRegistry.Discover(toolRoot.value, inputs.toolListing, inputs.toolLoad);
    if tools.Err? {
      return Err(ToolsFailed(tools.error));
    }
    var fv := Get(config, "registry/files");
    if fv.Err? {
      return Err(SectionMissing("registry/files", fv.error));
    }
    var fileRoot := RegistryRoot(fv.value, "registry/files");
    if fileRoot.Err? {
      return Err(RootNotAString("registry/files"));
    }
    var files := FileRegistry.Discover(fileRoot.value, inputs.fileListing, inputs.fileLoad);
    if files.Err? {
      return Err(FilesFailed(files.error));
    }
    r := Ok((tools.value, files.value));
  }

  /** `TestbenchTasks(__get("tasks"), tools, files, output_dir).get()`, with one `{name, params}` per tool type. */
  method BindTaskTable(config: Value, inputs: SetupInputs, tools: ToolRegistry.ToolTable, files: FileRegistry.FileTable,
                       outputDir: Path) returns (r: Result<Dict<string, Task>, SetupError>)
    requires SetupInputsValid(inputs)
    ensures r == TasksStep(config, inputs, tools, files, outputDir)
  {
    var section := Get(config, "tasks");
    if section.Err? {
      return Err(SectionMissing("tasks", section.error));
    }
    var b := Binding(tools, files, outputDir, inputs.cwd, inputs.existing);
    var parsed := ParseTasks(inputs.tasks, b);
    if parsed.Err? {
      return Err(TasksFailed(parsed.error));
    }
    var ts := parsed.value;
    r := Ok(Dict(ts.keys, map n | n in ts.items :: ts.items[n].(tools := FlatTools(ts.items[n].tools))));
  }

  /** Tasks as bound hold no session, so their tables sit on any filesystem. */
  lemma AsBoundTablesOn(ts: Dict<string, Task>, fs: FileSystem)
    requires forall n :: n in ts.items ==> AsBound(ts.items[n])
    ensures TablesOn(ts, fs)
  {
  }

  // ---------------------------------------------------------------------
  // The testbench object
  // ---------------------------------------------------------------------

  class Testbench {
    const fs: FileSystem
    /** `__output_dir` */
    const outputDir: Path
    /** `__env` */
    const env: Dict<string, string>
    /** `__tools` */
    const toolTable: ToolRegistry.ToolTable
    /** `__files` */
    const fileTable: FileRegistry.FileTable
    /** `__schedule`; its task table is `__tasks`, which the two share. */
    const schedule: Scheduler

    ghost predicate Valid()
      reads this, schedule
    {
      schedule.Valid() && env.Valid() && TablesOn(schedule.tasks, fs)
    }

    constructor (fs: FileSystem, outputDir: Path, env: Dict<string, string>, toolTable: ToolRegistry.ToolTable,
                 fileTable: FileRegistry.FileTable, schedule: Scheduler)
      requires schedule.Valid() && env.Valid() && TablesOn(schedule.tasks, fs)
      ensures Valid()
      ensures this.fs == fs && this.outputDir == outputDir && this.env == env
      ensures this.toolTable == toolTable && this.fileTable == fileTable && this.schedule == schedule
    {
      this.fs := fs;
      this.outputDir := outputDir;
      this.env := env;
      this.toolTable := toolTable;
      this.fileTable := fileTable;
      this.schedule := schedule;
    }

    /**
     * `Testbench(config_path, output_dir)` once the configuration is loaded
     * and the timestamped output directory chosen: the environment is
     * written to `.env` there, then `Setup` decides the outcome.
     */
    static method Create(fs: FileSystem, config: Value, env: Dict<string, string>, outputDir: Path, inputs: SetupInputs)
      returns (r: Result<Testbench, SetupError>)
      requires env.Valid() && SetupInputsValid(inputs)
      modifies fs
      ensures fs.files == old(fs.files)[Join(outputDir, ".env") := Concat(EnvLines(env))] && fs.dirs == old(fs.dirs)
      ensures Setup(config, env, outputDir, inputs).Err? ==> r == Err(Setup(config, env, outputDir, inputs).error)
      ensures Setup(config, env, outputDir, inputs).Ok? ==>
        var b := Setup(config, env, outputDir, inputs).value;
        && r.Ok? && fresh(r.value) && fresh(r.value.schedule) && r.value.Valid()
        && r.value.fs == fs && r.value.outputDir == outputDir && r.value.env == env
        && r.value.toolTable == b.toolTable && r.value.fileTable == b.fileTable
        && r.value.schedule.tasks == b.tasks && r.value.schedule.current == Lowest(b.tasks, 0, 0, None)
        && r.value.schedule.log == [] && r.value.schedule.ran == []
    {
      fs.Write(Join(outputDir, ".env"), Concat(EnvLines(env)));
      r := Build(fs, config, env, outputDir, inputs);
    }

    /** The part of `__init__` after `.env` is written: `Setup` and a fresh scheduler over its tasks. */
    static method Build(fs: FileSystem, config: Value, env: Dict<string, string>, outputDir: Path, inputs: SetupInputs)
      returns (r: Result<Testbench, SetupError>)
      requires env.Valid() && SetupInputsValid(inputs)
      ensures Setup(config, env, outputDir, inputs).Err? ==> r == Err(Setup(config, env, outputDir, inputs).error)
      ensures Setup(config, env, outputDir, inputs).Ok? ==>
        var b := Setup(config, env, outputDir, inputs).value;
        && r.Ok? && fresh(r.value) && fresh(r.value.schedule) && r.value.Valid()
        && r.value.fs == fs && r.value.outputDir == outputDir && r.value.env == env
        && r.value.toolTable == b.toolTable && r.value.fileTable == b.fileTable
        && r.value.schedule.tasks == b.tasks && r.value.schedule.current == Lowest(b.tasks, 0, 0, None)
        && r.value.schedule.log == [] && r.value.schedule.ran == []
    {
      var c := ReplaceEnv(config, env);
      var regs := LoadRegistries(c, inputs);
      if regs.Err? {
        return Err(regs.error);
      }
      var tasks := BindTaskTable(c, inputs, regs.value.0, regs.value.1, outputDir);
      if tasks.Err? {
        return Err(tasks.error);
      }
      var section := Get(c, "schedule");
      if section.Err? {
        return Err(SectionMissing("schedule", section.error));
      }
      ScheduledTasksAsBound(inputs.schedule, tasks.value, regs.value.0);
      var sched := Scheduler.Create(inputs.schedule, tasks.value, regs.value.0);
      if sched.Err? {
        return Err(ScheduleFailed(sched.error));
      }
      AsBoundTablesOn(sched.value.tasks, fs);
      var t := new Testbench(fs, outputDir, env, regs.value.0, regs.value.1, sched.value);
      r := Ok(t);
    }

    /**
     * `initialize_tasks()`, with each file plugin's `get_from_dir` answer and
     * `parse()` behaviour given: every task in table order gets its file
     * sessions and tool instances; the first error ends the loop.
     */
    method InitializeTasks(plugins: FilePlugins) returns (err: Option<InitError>)
      requires Valid() && PluginsValid(plugins)
      modifies fs, schedule
      ensures Valid()
      ensures schedule.current == old(schedule.current) && schedule.log == old(schedule.log) && schedule.ran == old(schedule.ran)
      ensures var o := InitFrom(old(fs.files), old(schedule.tasks), 0, outputDir, fileTable, toolTable, plugins);
        fs.files == o.files && err == o.error
      ensures old(fs.dirs) <= fs.dirs
      ensures schedule.tasks.keys == old(schedule.tasks.keys)
      ensures forall n :: n in schedule.tasks.items <==> n in old(schedule.tasks.items)
      ensures forall n :: n in schedule.tasks.items ==> TaskTouched(schedule.tasks.items[n], old(schedule.tasks.items[n]), fs)
      ensures err.None? ==> forall n :: n in schedule.tasks.items ==>
        TaskReady(schedule.tasks.items[n], old(schedule.tasks.items[n]), fs, n, Join(outputDir, n), plugins, toolTable, env)
    {
      var tasks := schedule.tasks;
      var ts;
      ts, err := InitializeTable(fs, tasks, outputDir, fileTable, toolTable, env, plugins);
      AllTouched(tasks, ts, fs);
      schedule.SetTasks(ts);
    }

    /** `iterate()`: handed to the schedule. */
    method Iterate(out: Outcomes) returns (r: Option<int>)
      requires Valid()
      modifies schedule
      ensures Valid() && schedule.tasks == old(schedule.tasks) && r == old(schedule.current)
      ensures r.None? ==> schedule.log == old(schedule.log) && schedule.ran == old(schedule.ran)
      ensures r.Some? ==>
        && GroupFrom(EmptyDict(), schedule.tasks, r.value, 0).Valid()
        && schedule.ran == old(schedule.ran) + [r.value]
        && schedule.log == old(schedule.log) + GroupEvents(GroupFrom(EmptyDict(), schedule.tasks, r.value, 0), |GroupFrom(EmptyDict(), schedule.tasks, r.value, 0).keys|, out)
        && |schedule.Pending()| < |old(schedule.Pending())|
    {
      r := schedule.Iterate(out);
    }

    /** `is_done()`: handed to the schedule. */
    function IsDone(): (done: bool)
      requires Valid()
      reads this, schedule
      ensures done <==> forall n :: n in schedule.tasks.items && schedule.tasks.items[n].order.value >= 0 ==>
                          schedule.tasks.items[n].order.value in schedule.ran
    {
      schedule.IsDone()
    }

    /**
     * What `__del__` evidently means to do: drop every task's file entries,
     * so that each session's teardown moves its backup over its live file,
     * task by task in table order.
     */
    method ReleaseFiles()
      requires Valid()
      modifies fs, schedule
      ensures Valid()
      ensures fs.files == RestoreAll(old(fs.files), AllSessions(old(schedule.tasks), 0)) && fs.dirs == old(fs.dirs)
      ensures schedule.current == old(schedule.current) && schedule.log == old(schedule.log) && schedule.ran == old(schedule.ran)
      ensures schedule.tasks.keys == old(schedule.tasks.keys)
      ensures forall n :: n in schedule.tasks.items <==> n in old(schedule.tasks.items)
      ensures forall n :: n in schedule.tasks.items ==> schedule.tasks.items[n] == Released(old(schedule.tasks.items[n]))
    {
      var ts := ReleaseTable(fs, schedule.tasks);
      AllReleased(schedule.tasks, ts, fs);
      schedule.SetTasks(ts);
    }
  }
}
