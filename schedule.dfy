/**
 * The schedule (`TestbenchSchedule`, schedule.py): checks every schedule
 * entry against its bound task and the tool registry, writes the order
 * and the step lists into the task records, and then walks the orders
 * from the lowest up, running each order's group of tasks: main steps
 * until the first failure, then every cleanup step.
 */
module Schedule {
  import opened Common
  import opened Fs
  import opened ToolRuntime
  import opened Tasks
  import ToolRegistry

  // ---------------------------------------------------------------------
  // Schedule configuration
  // ---------------------------------------------------------------------

  /**
   * A schedule entry; `None` marks a missing key. `steps` and `cleanup`
   * map a function name to `"<tool type>;<tool name>"`.
   */
  datatype ScheduleEntry = ScheduleEntry(order: Option<int>, steps: Option<Dict<string, string>>, cleanup: Option<Dict<string, string>>)

  ghost predicate EntryValid(e: ScheduleEntry) {
    && (e.steps.Some? ==> e.steps.value.Valid())
    && (e.cleanup.Some? ==> e.cleanup.value.Valid())
  }

  ghost predicate ScheduleValid(config: Dict<string, ScheduleEntry>) {
    config.Valid() && forall n :: n in config.items ==> EntryValid(config.items[n])
  }

  datatype ScheduleError =
    | UnknownTask(task: string)
    | NoOrder(task: string)
    | NoSteps(task: string)
    | BadStepSpec(task: string, spec: string)              // not exactly one `;`
    | ToolTypeNotInTask(task: string, toolType: string)
    | NoToolName(task: string, toolType: string)           // the entry has no single `name`
    | ToolNameMismatch(task: string, toolType: string, tool: string)
    | ToolNotRegistered(toolType: string, tool: string)
    | NoSuchFunction(toolType: string, tool: string, func: string)
    | MissingOrder(task: string)                           // a task the schedule never mentions

  // ---------------------------------------------------------------------
  // `__parse_schedule`
  // ---------------------------------------------------------------------

  /**
   * `task["tools"][type]["name"]`: only a single `{name, params}` entry has
   * one; a table keyed by tool name, or a tool instance, has none.
   */
  function ConfiguredName(slot: ToolSlot): Option<string> {
    if slot.Flat? then Some(slot.config.name) else None
  }

  /** The checks on one step `func: spec` of a task. */
  function CheckStep(taskName: string, task: Task, func: string, spec: string, reg: ToolRegistry.ToolTable): Result<Step, ScheduleError> {
    var parts := Split(spec, ';');
    if |parts| != 2 then Err(BadStepSpec(taskName, spec))
    else
      var toolType := parts[0];
      var tool := parts[1];
      if toolType !in task.tools.items then Err(ToolTypeNotInTask(taskName, toolType))
      else
        var name := ConfiguredName(task.tools.items[toolType]);
        if name.None? then Err(NoToolName(taskName, toolType))
        else if tool != name.value then Err(ToolNameMismatch(taskName, toolType, tool))
        else if toolType !in reg.items || tool !in reg.items[toolType].items then Err(ToolNotRegistered(toolType, tool))
        else if func !in reg.items[toolType].items[tool].cls.ownMembers then Err(NoSuchFunction(toolType, tool, func))
        else Ok(Step(toolType, tool, func, None))
  }

  /** The loop over one step map, from the `k`-th step on. */
  function StepsFrom(acc: seq<Step>, taskName: string, task: Task, steps: Dict<string, string>, k: nat,
                     reg: ToolRegistry.ToolTable): Result<seq<Step>, ScheduleError>
    requires steps.Valid() && k <= |steps.keys|
    decreases |steps.keys| - k
  {
    if k == |steps.keys| then Ok(acc)
    else
      var func := steps.keys[k];
      match CheckStep(taskName, task, func, steps.items[func], reg)
      case Err(e) => Err(e)
      case Ok(s) => StepsFrom(acc + [s], taskName, task, steps, k + 1, reg)
  }

  /** One entry: `order` and `steps` are required, a missing `cleanup` is empty. */
  function ParseEntry(taskName: string, task: Task, e: ScheduleEntry, reg: ToolRegistry.ToolTable): Result<Task, ScheduleError>
    requires EntryValid(e)
  {
    if e.order.None? then Err(NoOrder(taskName))
    else if e.steps.None? then Err(NoSteps(taskName))
    else
      match StepsFrom([], taskName, task, e.steps.value, 0, reg)
      case Err(err) => Err(err)
      case Ok(main) =>
        match (if e.cleanup.Some? then StepsFrom([], taskName, task, e.cleanup.value, 0, reg) else Ok([]))
        case Err(err) => Err(err)
        case Ok(cleanup) => Ok(task.(order := Some(e.order.value), steps := main, cleanup := cleanup))
  }

  /** The loop over schedule entries, from the `i`-th on. */
  function EntriesFrom(tasks: Dict<string, Task>, config: Dict<string, ScheduleEntry>, i: nat,
                       reg: ToolRegistry.ToolTable): Result<Dict<string, Task>, ScheduleError>
    requires ScheduleValid(config) && i <= |config.keys|
    decreases |config.keys| - i
  {
    if i == |config.keys| then Ok(tasks)
    else
      var name := config.keys[i];
      if name !in tasks.items then Err(UnknownTask(name))
      else
        match ParseEntry(name, tasks.items[name], config.items[name], reg)
        case Err(e) => Err(e)
        case Ok(t) => EntriesFrom(tasks.Put(name, t), config, i + 1, reg)
  }

  /** `__parse_schedule`: a null schedule changes nothing. */
  function ParseScheduleSpec(config: Option<Dict<string, ScheduleEntry>>, tasks: Dict<string, Task>,
                             reg: ToolRegistry.ToolTable): Result<Dict<string, Task>, ScheduleError>
    requires config.Some? ==> ScheduleValid(config.value)
  {
    if config.None? then Ok(tasks) else EntriesFrom(tasks, config.value, 0, reg)
  }

  /** `__parse_schedule`, the loop over entries. */
  method ParseSchedule(config: Option<Dict<string, ScheduleEntry>>, tasks: Dict<string, Task>, reg: ToolRegistry.ToolTable)
    returns (r: Result<Dict<string, Task>, ScheduleError>)
    requires config.Some? ==> ScheduleValid(config.value)
    ensures r == ParseScheduleSpec(config, tasks, reg)
  {
    if config.None? {
      return Ok(tasks);
    }
    var cfg := config.value;
    var current := tasks;
    var i := 0;
    while i < |cfg.keys|
      invariant 0 <= i <= |cfg.keys|
      invariant EntriesFrom(current, cfg, i, reg) == ParseScheduleSpec(config, tasks, reg)
    {
      var name := cfg.keys[i];
      if name !in current.items {
        return Err(UnknownTask(name));
      }
      var t := ApplyEntry(name, current.items[name], cfg.items[name], reg);
      if t.Err? {
        return Err(t.error);
      }
      current := current.Put(name, t.value);
      i := i + 1;
    }
    r := Ok(current);
  }

  /** `__parse_schedule`, the body of the loop over entries: one task's order, steps and cleanup. */
  method ApplyEntry(name: string, task: Task, entry: ScheduleEntry, reg: ToolRegistry.ToolTable)
    returns (r: Result<Task, ScheduleError>)
    requires EntryValid(entry)
    ensures r == ParseEntry(name, task, entry, reg)
  {
    if entry.order.None? {
      return Err(NoOrder(name));
    }
    if entry.steps.None? {
      return Err(NoSteps(name));
    }
    var main := CheckSteps(name, task, entry.steps.value, reg);
    if main.Err? {
      return Err(main.error);
    }
    var cleanup: Result<seq<Step>, ScheduleError> := Ok([]);
    if entry.cleanup.Some? {
      cleanup := CheckSteps(name, task, entry.cleanup.value, reg);
      if cleanup.Err? {
        return Err(cleanup.error);
      }
    }
    r := Ok(task.(order := Some(entry.order.value), steps := main.value, cleanup := cleanup.value));
  }

  /** `__parse_schedule`, the loop over one step map, appending checked steps. */
  method CheckSteps(taskName: string, task: Task, steps: Dict<string, string>, reg: ToolRegistry.ToolTable)
    returns (r: Result<seq<Step>, ScheduleError>)
    requires steps.Valid()
    ensures r == StepsFrom([], taskName, task, steps, 0, reg)
  {
    var list: seq<Step> := [];
    var k := 0;
    while k < |steps.keys|
      invariant 0 <= k <= |steps.keys|
      invariant StepsFrom(list, taskName, task, steps, k, reg) == StepsFrom([], taskName, task, steps, 0, reg)
    {
      var func := steps.keys[k];
      var s := CheckStep(taskName, task, func, steps.items[func], reg);
      if s.Err? {
        return Err(s.error);
      }
      list := list + [s.value];
      k := k + 1;
    }
    r := Ok(list);
  }

  // ---------------------------------------------------------------------
  // What parsing accepts and what it writes
  // ---------------------------------------------------------------------

  /**
   * A step the schedule accepts: its spec is `type;tool` with neither part
   * holding a `;`, the type is configured on the task with exactly that
   * tool name, the tool is registered, and the function is defined by the
   * plugin class itself (an inherited member does not count).
   */
  ghost predicate StepAcceptable(task: Task, func: string, spec: string, reg: ToolRegistry.ToolTable) {
    exists toolType, tool ::
      && spec == toolType + ";" + tool
      && ';' !in toolType && ';' !in tool
      && toolType in task.tools.items
      && ConfiguredName(task.tools.items[toolType]) == Some(tool)
      && toolType in reg.items && tool in reg.items[toolType].items
      && func in reg.items[toolType].items[tool].cls.ownMembers
  }

  lemma JoinTwo(a: string, b: string)
    ensures JoinWith([a, b], ';') == a + ";" + b
  {
    assert [a, b][1..] == [b];
  }

  /**
   * A step is accepted exactly when `StepAcceptable` holds, and the
   * accepted step reassembles into its spec string, carries its function
   * name and is not yet bound to a tool instance.
   */
  lemma AcceptedStep(taskName: string, task: Task, func: string, spec: string, reg: ToolRegistry.ToolTable)
    ensures CheckStep(taskName, task, func, spec, reg).Ok? <==> StepAcceptable(task, func, spec, reg)
    ensures CheckStep(taskName, task, func, spec, reg).Ok? ==>
      var st := CheckStep(taskName, task, func, spec, reg).value;
      spec == st.toolType + ";" + st.tool && st.func == func && st.bound.None?
  {
    var parts := Split(spec, ';');
    SplitThenJoin(spec, ';');
    if |parts| == 2 {
      JoinTwo(parts[0], parts[1]);
    }
    if StepAcceptable(task, func, spec, reg) {
      var toolType, tool :| && spec == toolType + ";" + tool && ';' !in toolType && ';' !in tool
                            && toolType in task.tools.items
                            && ConfiguredName(task.tools.items[toolType]) == Some(tool)
                            && toolType in reg.items && tool in reg.items[toolType].items
                            && func in reg.items[toolType].items[tool].cls.ownMembers;
      JoinTwo(toolType, tool);
      JoinThenSplit([toolType, tool], ';');
    }
  }

  /** The `j`-th step of a step map passes its checks. */
  predicate StepChecks(taskName: string, task: Task, steps: Dict<string, string>, j: int, reg: ToolRegistry.ToolTable)
    requires steps.Valid() && 0 <= j < |steps.keys|
  {
    CheckStep(taskName, task, steps.keys[j], steps.items[steps.keys[j]], reg).Ok?
  }

  lemma {:induction false} StepsFromOk(acc: seq<Step>, taskName: string, task: Task, steps: Dict<string, string>, k: nat,
                                       reg: ToolRegistry.ToolTable)
    requires steps.Valid() && k <= |steps.keys|
    ensures var r := StepsFrom(acc, taskName, task, steps, k, reg);
      (r.Ok? <==> forall j :: k <= j < |steps.keys| ==> StepChecks(taskName, task, steps, j, reg))
    decreases |steps.keys| - k
  {
    if k < |steps.keys| {
      var c := CheckStep(taskName, task, steps.keys[k], steps.items[steps.keys[k]], reg);
      assert c.Ok? == StepChecks(taskName, task, steps, k, reg);
      if c.Ok? {
        StepsFromOk(acc + [c.value], taskName, task, steps, k + 1, reg);
      }
    }
  }

  lemma {:induction false} StepsFromValue(acc: seq<Step>, taskName: string, task: Task, steps: Dict<string, string>, k: nat,
                                          reg: ToolRegistry.ToolTable)
    requires steps.Valid() && k <= |steps.keys|
    requires forall j :: k <= j < |steps.keys| ==> StepChecks(taskName, task, steps, j, reg)
    ensures StepsFrom(acc, taskName, task, steps, k, reg).Ok?
    ensures var r := StepsFrom(acc, taskName, task, steps, k, reg).value;
      && |r| == |acc| + |steps.keys| - k
      && (forall j :: 0 <= j < |acc| ==> r[j] == acc[j])
      && forall j :: k <= j < |steps.keys| ==>
           CheckStep(taskName, task, steps.keys[j], steps.items[steps.keys[j]], reg) == Ok(r[|acc| + j - k])
    decreases |steps.keys| - k
  {
    if k < |steps.keys| {
      var c := CheckStep(taskName, task, steps.keys[k], steps.items[steps.keys[k]], reg);
      assert StepChecks(taskName, task, steps, k, reg);
      var acc' := acc + [c.value];
      StepsFromValue(acc', taskName, task, steps, k + 1, reg);
      var r := StepsFrom(acc', taskName, task, steps, k + 1, reg).value;
      assert StepsFrom(acc, taskName, task, steps, k, reg).value == r;
      assert r[|acc|] == acc'[|acc|] == c.value;
      forall j | 0 <= j < |acc| ensures r[j] == acc[j] {
        assert r[j] == acc'[j];
      }
      forall j | k < j < |steps.keys|
        ensures CheckStep(taskName, task, steps.keys[j], steps.items[steps.keys[j]], reg) == Ok(r[|acc| + j - k])
      {
        assert |acc'| + j - (k + 1) == |acc| + j - k;
      }
    }
  }

  lemma {:induction false} StepsFromErr(acc: seq<Step>, taskName: string, task: Task, steps: Dict<string, string>, k: nat,
                                        reg: ToolRegistry.ToolTable)
    requires steps.Valid() && k <= |steps.keys|
    requires StepsFrom(acc, taskName, task, steps, k, reg).Err?
    ensures exists j :: (k <= j < |steps.keys| &&
                         CheckStep(taskName, task, steps.keys[j], steps.items[steps.keys[j]], reg) == Err(StepsFrom(acc, taskName, task, steps, k, reg).error))
    decreases |steps.keys| - k
  {
    var c := CheckStep(taskName, task, steps.keys[k], steps.items[steps.keys[k]], reg);
    if c.Ok? {
      StepsFromErr(acc + [c.value], taskName, task, steps, k + 1, reg);
    }
  }

  /** A step map is accepted exactly when each of its steps is. */
  lemma CheckedSteps(taskName: string, task: Task, steps: Dict<string, string>, reg: ToolRegistry.ToolTable)
    requires steps.Valid()
    ensures StepsFrom([], taskName, task, steps, 0, reg).Ok? <==>
              forall func :: func in steps.items ==> CheckStep(taskName, task, func, steps.items[func], reg).Ok?
  {
    StepsFromOk([], taskName, task, steps, 0, reg);
    if StepsFrom([], taskName, task, steps, 0, reg).Ok? {
      forall func | func in steps.items ensures CheckStep(taskName, task, func, steps.items[func], reg).Ok? {
        var j :| 0 <= j < |steps.keys| && steps.keys[j] == func;
        assert StepChecks(taskName, task, steps, j, reg);
      }
    } else {
      var j :| 0 <= j < |steps.keys| && !StepChecks(taskName, task, steps, j, reg);
      assert steps.keys[j] in steps.items;
    }
  }

  /** The checked steps keep the step map's declared order. */
  lemma CheckedStepsInOrder(taskName: string, task: Task, steps: Dict<string, string>, reg: ToolRegistry.ToolTable)
    requires steps.Valid() && StepsFrom([], taskName, task, steps, 0, reg).Ok?
    ensures var r := StepsFrom([], taskName, task, steps, 0, reg).value;
      && |r| == |steps.keys|
      && forall j :: 0 <= j < |steps.keys| ==>
           CheckStep(taskName, task, steps.keys[j], steps.items[steps.keys[j]], reg) == Ok(r[j])
  {
    StepsFromOk([], taskName, task, steps, 0, reg);
    StepsFromValue([], taskName, task, steps, 0, reg);
  }

  /** A rejected step map reports the error of one of its steps. */
  lemma CheckedStepsError(taskName: string, task: Task, steps: Dict<string, string>, reg: ToolRegistry.ToolTable)
    requires steps.Valid() && StepsFrom([], taskName, task, steps, 0, reg).Err?
    ensures exists func :: (func in steps.items &&
                            CheckStep(taskName, task, func, steps.items[func], reg) == Err(StepsFrom([], taskName, task, steps, 0, reg).error))
  {
    StepsFromErr([], taskName, task, steps, 0, reg);
    var j :| 0 <= j < |steps.keys| &&
      CheckStep(taskName, task, steps.keys[j], steps.items[steps.keys[j]], reg) == Err(StepsFrom([], taskName, task, steps, 0, reg).error);
    assert steps.keys[j] in steps.items;
  }

  /**
   * An entry is accepted exactly when it has `order` and `steps` and all of
   * its steps and cleanup steps are accepted; the task then records the
   * order and both step lists and keeps everything else.
   */
  lemma ParsedEntry(taskName: string, task: Task, e: ScheduleEntry, reg: ToolRegistry.ToolTable)
    requires EntryValid(e)
    ensures e.order.None? ==> ParseEntry(taskName, task, e, reg) == Err(NoOrder(taskName))
    ensures e.order.Some? && e.steps.None? ==> ParseEntry(taskName, task, e, reg) == Err(NoSteps(taskName))
    ensures ParseEntry(taskName, task, e, reg).Ok? <==>
      && e.order.Some? && e.steps.Some?
      && (forall func :: func in e.steps.value.items ==> CheckStep(taskName, task, func, e.steps.value.items[func], reg).Ok?)
      && (e.cleanup.Some? ==> forall func :: func in e.cleanup.value.items ==> CheckStep(taskName, task, func, e.cleanup.value.items[func], reg).Ok?)
  {
    if e.steps.Some? {
      CheckedSteps(taskName, task, e.steps.value, reg);
    }
    if e.cleanup.Some? {
      CheckedSteps(taskName, task, e.cleanup.value, reg);
    }
  }

  /** An accepted entry gives the task its order, and its steps and cleanup in declared order, and keeps the rest. */
  lemma ParsedEntryValue(taskName: string, task: Task, e: ScheduleEntry, reg: ToolRegistry.ToolTable)
    requires EntryValid(e) && ParseEntry(taskName, task, e, reg).Ok?
    ensures
      var t := ParseEntry(taskName, task, e, reg).value;
      && t.order == Some(e.order.value)
      && |t.steps| == |e.steps.value.keys|
      && (forall j :: 0 <= j < |t.steps| ==> CheckStep(taskName, task, e.steps.value.keys[j], e.steps.value.items[e.steps.value.keys[j]], reg) == Ok(t.steps[j]))
      && (e.cleanup.None? ==> t.cleanup == [])
      && (e.cleanup.Some? ==>
            && |t.cleanup| == |e.cleanup.value.keys|
            && forall j :: 0 <= j < |t.cleanup| ==> CheckStep(taskName, task, e.cleanup.value.keys[j], e.cleanup.value.items[e.cleanup.value.keys[j]], reg) == Ok(t.cleanup[j]))
      && t.name == task.name && t.path == task.path && t.output == task.output && t.tools == task.tools && t.files == task.files
  {
    CheckedStepsInOrder(taskName, task, e.steps.value, reg);
    if e.cleanup.Some? {
      CheckedStepsInOrder(taskName, task, e.cleanup.value, reg);
    }
  }

  /** `acc` is the task map after the first `i` schedule entries. */
  ghost predicate EntriesApplied(acc: Dict<string, Task>, tasks: Dict<string, Task>, config: Dict<string, ScheduleEntry>, i: int,
                                 reg: ToolRegistry.ToolTable)
    requires ScheduleValid(config) && 0 <= i <= |config.keys|
  {
    && EntriesKept(acc, tasks, config, i)
    && (forall n :: n in acc.items && n in config.keys[..i] ==> ParseEntry(n, tasks.items[n], config.items[n], reg) == Ok(acc.items[n]))
  }

  /** `acc` has the tasks' names, and the tasks the first `i` schedule entries do not name unchanged. */
  ghost predicate EntriesKept(acc: Dict<string, Task>, tasks: Dict<string, Task>, config: Dict<string, ScheduleEntry>, i: int)
    requires ScheduleValid(config) && 0 <= i <= |config.keys|
  {
    && acc.keys == tasks.keys
    && (forall n :: n in acc.items <==> n in tasks.items)
    && (forall n :: n in acc.items && n !in config.keys[..i] ==> acc.items[n] == tasks.items[n])
  }

  lemma EntriesKeptStep(acc: Dict<string, Task>, tasks: Dict<string, Task>, config: Dict<string, ScheduleEntry>, i: nat, t: Task)
    requires ScheduleValid(config) && i < |config.keys| && EntriesKept(acc, tasks, config, i)
    requires config.keys[i] in acc.items
    ensures EntriesKept(acc.Put(config.keys[i], t), tasks, config, i + 1)
  {
    var n := config.keys[i];
    var next := acc.Put(n, t);
    PrefixGrows(config.keys, i);
    forall m | m in next.items && m !in config.keys[..i + 1]
      ensures next.items[m] == tasks.items[m]
    {
      assert m !in config.keys[..i];
    }
  }

  lemma EntriesAppliedStep(acc: Dict<string, Task>, tasks: Dict<string, Task>, config: Dict<string, ScheduleEntry>, i: nat,
                           reg: ToolRegistry.ToolTable)
    requires ScheduleValid(config) && i < |config.keys| && EntriesApplied(acc, tasks, config, i, reg)
    requires config.keys[i] in acc.items
    requires ParseEntry(config.keys[i], acc.items[config.keys[i]], config.items[config.keys[i]], reg).Ok?
    ensures var n := config.keys[i];
      EntriesApplied(acc.Put(n, ParseEntry(n, acc.items[n], config.items[n], reg).value), tasks, config, i + 1, reg)
  {
    var n := config.keys[i];
    var t := ParseEntry(n, acc.items[n], config.items[n], reg).value;
    var next := acc.Put(n, t);
    EntriesKeptStep(acc, tasks, config, i, t);
    UnparsedEntryUntouched(acc, tasks, config, i, reg);
    PrefixGrows(config.keys, i);
    forall m | m in next.items && m in config.keys[..i + 1]
      ensures ParseEntry(m, tasks.items[m], config.items[m], reg) == Ok(next.items[m])
    {
      if m != n {
        assert m in config.keys[..i];
      }
    }
  }

  /** The `j`-th schedule entry names a bound task and is accepted for it. */
  predicate EntryAccepted(tasks: Dict<string, Task>, config: Dict<string, ScheduleEntry>, j: int, reg: ToolRegistry.ToolTable)
    requires ScheduleValid(config) && 0 <= j < |config.keys|
  {
    config.keys[j] in tasks.items && ParseEntry(config.keys[j], tasks.items[config.keys[j]], config.items[config.keys[j]], reg).Ok?
  }

  /** Every schedule entry from the `i`-th on is accepted. */
  ghost predicate AcceptedFrom(tasks: Dict<string, Task>, config: Dict<string, ScheduleEntry>, i: int, reg: ToolRegistry.ToolTable)
    requires ScheduleValid(config) && 0 <= i <= |config.keys|
    decreases |config.keys| - i
  {
    i == |config.keys| || (EntryAccepted(tasks, config, i, reg) && AcceptedFrom(tasks, config, i + 1, reg))
  }

  lemma {:induction false} AcceptedFromAll(tasks: Dict<string, Task>, config: Dict<string, ScheduleEntry>, i: nat, reg: ToolRegistry.ToolTable)
    requires ScheduleValid(config) && i <= |config.keys|
    ensures AcceptedFrom(tasks, config, i, reg) <==> forall j :: i <= j < |config.keys| ==> EntryAccepted(tasks, config, j, reg)
    decreases |config.keys| - i
  {
    if i < |config.keys| {
      AcceptedFromAll(tasks, config, i + 1, reg);
    }
  }

  lemma {:induction false} EntriesFromOk(acc: Dict<string, Task>, tasks: Dict<string, Task>, config: Dict<string, ScheduleEntry>, i: nat,
                                         reg: ToolRegistry.ToolTable)
    requires ScheduleValid(config) && i <= |config.keys| && EntriesKept(acc, tasks, config, i)
    ensures EntriesFrom(acc, config, i, reg).Ok? <==> AcceptedFrom(tasks, config, i, reg)
    decreases |config.keys| - i
  {
    if i < |config.keys| {
      var n := config.keys[i];
      if n in acc.items {
        UnparsedEntryUntouched(acc, tasks, config, i, reg);
        var pe := ParseEntry(n, acc.items[n], config.items[n], reg);
        if pe.Ok? {
          EntriesKeptStep(acc, tasks, config, i, pe.value);
          EntriesFromOk(acc.Put(n, pe.value), tasks, config, i + 1, reg);
        } else {
          assert EntriesFrom(acc, config, i, reg) == Err(pe.error);
          assert !EntryAccepted(tasks, config, i, reg);
        }
      } else {
        assert !EntryAccepted(tasks, config, i, reg);
      }
    }
  }

  lemma {:induction false} EntriesFromApplied(acc: Dict<string, Task>, tasks: Dict<string, Task>, config: Dict<string, ScheduleEntry>, i: nat,
                                              reg: ToolRegistry.ToolTable)
    requires ScheduleValid(config) && i <= |config.keys| && EntriesApplied(acc, tasks, config, i, reg)
    requires EntriesFrom(acc, config, i, reg).Ok?
    ensures EntriesApplied(EntriesFrom(acc, config, i, reg).value, tasks, config, |config.keys|, reg)
    decreases |config.keys| - i
  {
    if i < |config.keys| {
      var n := config.keys[i];
      var pe := ParseEntry(n, acc.items[n], config.items[n], reg);
      EntriesAppliedStep(acc, tasks, config, i, reg);
      EntriesFromApplied(acc.Put(n, pe.value), tasks, config, i + 1, reg);
    }
  }

  lemma UnparsedEntryUntouched(acc: Dict<string, Task>, tasks: Dict<string, Task>, config: Dict<string, ScheduleEntry>, i: nat,
                               reg: ToolRegistry.ToolTable)
    requires ScheduleValid(config) && i < |config.keys| && EntriesKept(acc, tasks, config, i)
    requires config.keys[i] in acc.items
    ensures acc.items[config.keys[i]] == tasks.items[config.keys[i]]
  {
  }

  /**
   * A null schedule leaves the tasks as they are. Otherwise the schedule is
   * accepted exactly when every entry names a bound task and is accepted
   * for it; then the tasks keep their names and order, every scheduled
   * task holds what `ParsedEntry` describes, and every other task is
   * unchanged. A rejection yields no task map at all.
   */
  lemma ParsedSchedule(config: Option<Dict<string, ScheduleEntry>>, tasks: Dict<string, Task>, reg: ToolRegistry.ToolTable)
    requires config.Some? ==> ScheduleValid(config.value)
    requires tasks.Valid()
    ensures config.None? ==> ParseScheduleSpec(config, tasks, reg) == Ok(tasks)
    ensures config.Some? ==>
      var r := ParseScheduleSpec(config, tasks, reg);
      && (r.Ok? <==> forall n :: n in config.value.items ==>
            n in tasks.items && ParseEntry(n, tasks.items[n], config.value.items[n], reg).Ok?)
      && (r.Ok? ==> && r.value.keys == tasks.keys
                    && (forall n :: n in r.value.items <==> n in tasks.items)
                    && (forall n :: n in tasks.items && n !in config.value.items ==> r.value.items[n] == tasks.items[n])
                    && (forall n :: n in config.value.items ==> ParseEntry(n, tasks.items[n], config.value.items[n], reg) == Ok(r.value.items[n])))
  {
    if config.Some? {
      var cfg := config.value;
      assert cfg.keys[..0] == [];
      EntriesFromOk(tasks, tasks, cfg, 0, reg);
      AcceptedFromAll(tasks, cfg, 0, reg);
      assert cfg.keys[..|cfg.keys|] == cfg.keys;
      var r := ParseScheduleSpec(config, tasks, reg);
      if r.Ok? {
        EntriesFromApplied(tasks, tasks, cfg, 0, reg);
        forall n | n in cfg.items
          ensures n in tasks.items && ParseEntry(n, tasks.items[n], cfg.items[n], reg).Ok?
        {
          var j :| 0 <= j < |cfg.keys| && cfg.keys[j] == n;
          assert EntryAccepted(tasks, cfg, j, reg);
        }
      } else {
        var j :| 0 <= j < |cfg.keys| && !EntryAccepted(tasks, cfg, j, reg);
        assert cfg.keys[j] in cfg.items;
      }
    }
  }

  // ---------------------------------------------------------------------
  // The tool-table shape: as the binder writes it, and corrected
  // ---------------------------------------------------------------------

  /** No step of a task whose tool entries are all tables keyed by tool name passes. */
  lemma NestedTableRejectsStep(taskName: string, task: Task, func: string, spec: string, reg: ToolRegistry.ToolTable)
    requires forall t :: t in task.tools.items ==> task.tools.items[t].Nested?
    ensures CheckStep(taskName, task, func, spec, reg).Err?
  {
  }

  /** Tasks whose tool entries are all tables keyed by tool name, with no steps yet. */
  ghost predicate AllNested(tasks: Dict<string, Task>) {
    forall n :: n in tasks.items ==>
      && (forall t :: t in tasks.items[n].tools.items ==> tasks.items[n].tools.items[t].Nested?)
      && tasks.items[n].steps == [] && tasks.items[n].cleanup == []
  }

  /** The binder's records are of that shape. */
  lemma BoundTasksNested(config: Option<Dict<string, TaskConfig>>, b: Binding)
    requires config.Some? ==> ConfigValid(config.value)
    requires ParseTasksSpec(config, b).Ok?
    ensures AllNested(ParseTasksSpec(config, b).value)
  {
    var tasks := ParseTasksSpec(config, b).value;
    ParsedTasks(config, b);
    forall n | n in tasks.items
      ensures (forall t :: t in tasks.items[n].tools.items ==> tasks.items[n].tools.items[t].Nested?)
      ensures tasks.items[n].steps == [] && tasks.items[n].cleanup == []
    {
      BoundTask(n, config.value.items[n], b);
    }
  }

  /** For such tasks, an accepted entry lists no step and no cleanup step. */
  lemma NestedEntryListsNothing(n: string, task: Task, e: ScheduleEntry, reg: ToolRegistry.ToolTable)
    requires EntryValid(e) && ParseEntry(n, task, e, reg).Ok?
    requires forall t :: t in task.tools.items ==> task.tools.items[t].Nested?
    ensures e.steps.Some? && e.steps.value.keys == []
    ensures e.cleanup.Some? ==> e.cleanup.value.keys == []
    ensures ParseEntry(n, task, e, reg).value.steps == [] && ParseEntry(n, task, e, reg).value.cleanup == []
  {
    ParsedEntry(n, task, e, reg);
    ParsedEntryValue(n, task, e, reg);
    var steps := e.steps.value;
    if steps.keys != [] {
      assert steps.keys[0] in steps.items;
      NestedTableRejectsStep(n, task, steps.keys[0], steps.items[steps.keys[0]], reg);
    }
    if e.cleanup.Some? && e.cleanup.value.keys != [] {
      var cl := e.cleanup.value;
      assert cl.keys[0] in cl.items;
      NestedTableRejectsStep(n, task, cl.keys[0], cl.items[cl.keys[0]], reg);
    }
  }

  /**
   * With the records the binder builds (tool tables keyed by tool name),
   * a schedule is accepted only if none of its entries lists a step or a
   * cleanup step: every task then runs nothing.
   */
  lemma AsBoundScheduleRunsNothing(config: Option<Dict<string, TaskConfig>>, b: Binding, sched: Option<Dict<string, ScheduleEntry>>)
    requires config.Some? ==> ConfigValid(config.value)
    requires sched.Some? ==> ScheduleValid(sched.value)
    requires ParseTasksSpec(config, b).Ok?
    ensures var tasks := ParseTasksSpec(config, b).value;
      var r := ParseScheduleSpec(sched, tasks, b.toolTable);
      r.Ok? ==> && (forall n :: n in r.value.items ==> r.value.items[n].steps == [] && r.value.items[n].cleanup == [])
                && (sched.Some? ==> forall n :: n in sched.value.items ==>
                      sched.value.items[n].steps.Some? && sched.value.items[n].steps.value.keys == [])
  {
    var tasks := ParseTasksSpec(config, b).value;
    BoundTasksNested(config, b);
    ParsedTasks(config, b);
    ParsedSchedule(sched, tasks, b.toolTable);
    var r := ParseScheduleSpec(sched, tasks, b.toolTable);
    if r.Ok? && sched.Some? {
      forall n | n in sched.value.items
        ensures r.value.items[n].steps == [] && r.value.items[n].cleanup == []
        ensures sched.value.items[n].steps.Some? && sched.value.items[n].steps.value.keys == []
      {
        NestedEntryListsNothing(n, tasks.items[n], sched.value.items[n], b.toolTable);
      }
    }
  }

  /**
   * With the corrected records (one `{name, params}` per type), a step
   * `type;tool` is accepted exactly when the task configures that type,
   * the tool is the name configured for it, and the registered class
   * defines the function itself.
   */
  lemma FlatTableAcceptsConfiguredStep(name: string, c: TaskConfig, b: Binding, func: string, toolType: string, tool: string)
    requires TaskConfigValid(c) && BindTaskFlat(name, c, b).Ok?
    requires ';' !in toolType && ';' !in tool
    ensures var t := BindTaskFlat(name, c, b).value;
      CheckStep(name, t, func, toolType + ";" + tool, b.toolTable).Ok? <==>
        && toolType in c.tools.value.items
        && c.tools.value.items[toolType].keys != []
        && tool == c.tools.value.items[toolType].keys[|c.tools.value.items[toolType].keys| - 1]
        && toolType in b.toolTable.items && tool in b.toolTable.items[toolType].items
        && func in b.toolTable.items[toolType].items[tool].cls.ownMembers
  {
    var t := BindTaskFlat(name, c, b).value;
    BoundTaskFlat(name, c, b);
    JoinTwo(toolType, tool);
    JoinThenSplit([toolType, tool], ';');
    if toolType in c.tools.value.items && c.tools.value.items[toolType].keys != [] {
      var names := c.tools.value.items[toolType];
      assert names.keys[|names.keys| - 1] in names.items;
    }
  }

  // ---------------------------------------------------------------------
  // The cursor: `__get_lowest` and `__get_tasks`
  // ---------------------------------------------------------------------

  /** Every task has an order: the schedule listed them all. */
  ghost predicate Ordered(tasks: Dict<string, Task>) {
    tasks.Valid() && forall n :: n in tasks.items ==> tasks.items[n].order.Some?
  }

  function OrderAt(tasks: Dict<string, Task>, k: int): int
    requires Ordered(tasks) && 0 <= k < |tasks.keys|
  {
    tasks.items[tasks.keys[k]].order.value
  }

  /** Some task has order `o`. */
  ghost predicate IsOrder(tasks: Dict<string, Task>, o: int) {
    exists n :: n in tasks.items && tasks.items[n].order == Some(o)
  }

  /**
   * `__get_lowest(min)` as written, from the `k`-th task on: the test
   * `not lowest` holds for a running minimum of 0 as well as for none.
   */
  function LowestAsWritten(tasks: Dict<string, Task>, min: int, k: nat, lowest: Option<int>): Option<int>
    requires Ordered(tasks) && k <= |tasks.keys|
    decreases |tasks.keys| - k
  {
    if k == |tasks.keys| then lowest
    else
      var o := OrderAt(tasks, k);
      if o < min then LowestAsWritten(tasks, min, k + 1, lowest)
      else if lowest.None? || lowest.value == 0 || o < lowest.value then LowestAsWritten(tasks, min, k + 1, Some(o))
      else LowestAsWritten(tasks, min, k + 1, lowest)
  }

  /** `__get_lowest(min)` with the running minimum tested against `None` only. */
  function Lowest(tasks: Dict<string, Task>, min: int, k: nat, lowest: Option<int>): Option<int>
    requires Ordered(tasks) && k <= |tasks.keys|
    decreases |tasks.keys| - k
  {
    if k == |tasks.keys| then lowest
    else
      var o := OrderAt(tasks, k);
      if o < min then Lowest(tasks, min, k + 1, lowest)
      else if lowest.None? || o < lowest.value then Lowest(tasks, min, k + 1, Some(o))
      else Lowest(tasks, min, k + 1, lowest)
  }

  /** `lowest` is the least order at or above `min` among the first `k` tasks. */
  ghost predicate LeastSoFar(tasks: Dict<string, Task>, min: int, k: int, lowest: Option<int>)
    requires Ordered(tasks) && 0 <= k <= |tasks.keys|
  {
    && (lowest.None? ==> forall j :: 0 <= j < k ==> OrderAt(tasks, j) < min)
    && (lowest.Some? ==> && lowest.value >= min
                         && (exists j :: 0 <= j < k && OrderAt(tasks, j) == lowest.value)
                         && forall j :: 0 <= j < k && OrderAt(tasks, j) >= min ==> OrderAt(tasks, j) >= lowest.value)
  }

  lemma {:induction false} LowestFromIsLeast(tasks: Dict<string, Task>, min: int, k: nat, lowest: Option<int>)
    requires Ordered(tasks) && k <= |tasks.keys| && LeastSoFar(tasks, min, k, lowest)
    ensures LeastSoFar(tasks, min, |tasks.keys|, Lowest(tasks, min, k, lowest))
    decreases |tasks.keys| - k
  {
    if k < |tasks.keys| {
      var o := OrderAt(tasks, k);
      var next := if o < min then lowest else if lowest.None? || o < lowest.value then Some(o) else lowest;
      assert LeastSoFar(tasks, min, k + 1, next);
      LowestFromIsLeast(tasks, min, k + 1, next);
    }
  }

  /**
   * The cursor's next value: `None` exactly when no task has an order at or
   * above `min`, and otherwise the least such order, which is the order of
   * some task.
   */
  lemma LowestIsLeast(tasks: Dict<string, Task>, min: int)
    requires Ordered(tasks)
    ensures var r := Lowest(tasks, min, 0, None);
      && (r.None? <==> forall n :: n in tasks.items ==> tasks.items[n].order.value < min)
      && (r.Some? ==> && r.value >= min && IsOrder(tasks, r.value)
                      && forall n :: n in tasks.items && tasks.items[n].order.value >= min ==> tasks.items[n].order.value >= r.value)
  {
    LowestFromIsLeast(tasks, min, 0, None);
    var r := Lowest(tasks, min, 0, None);
    forall n | n in tasks.items
      ensures r.None? ==> tasks.items[n].order.value < min
      ensures r.Some? && tasks.items[n].order.value >= min ==> tasks.items[n].order.value >= r.value
    {
      var j :| 0 <= j < |tasks.keys| && tasks.keys[j] == n;
      assert OrderAt(tasks, j) == tasks.items[n].order.value;
    }
    if r.Some? {
      var j :| 0 <= j < |tasks.keys| && OrderAt(tasks, j) == r.value;
      assert tasks.keys[j] in tasks.items;
    } else {
      assert forall n :: n in tasks.items ==> tasks.items[n].order.value < min;
    }
  }

  /** What the code as written still guarantees: `None`, or some task's order at or above `min`. */
  ghost predicate SoundSoFar(tasks: Dict<string, Task>, min: int, k: int, lowest: Option<int>)
    requires Ordered(tasks) && 0 <= k <= |tasks.keys|
  {
    && (lowest.None? ==> forall j :: 0 <= j < k ==> OrderAt(tasks, j) < min)
    && (lowest.Some? ==> lowest.value >= min && exists j :: 0 <= j < k && OrderAt(tasks, j) == lowest.value)
  }

  lemma {:induction false} AsWrittenFromSound(tasks: Dict<string, Task>, min: int, k: nat, lowest: Option<int>)
    requires Ordered(tasks) && k <= |tasks.keys| && SoundSoFar(tasks, min, k, lowest)
    ensures SoundSoFar(tasks, min, |tasks.keys|, LowestAsWritten(tasks, min, k, lowest))
    decreases |tasks.keys| - k
  {
    if k < |tasks.keys| {
      var o := OrderAt(tasks, k);
      var next := if o < min then lowest else if lowest.None? || lowest.value == 0 || o < lowest.value then Some(o) else lowest;
      assert SoundSoFar(tasks, min, k + 1, next);
      AsWrittenFromSound(tasks, min, k + 1, next);
    }
  }

  /**
   * As written, `__get_lowest(min)` still gives `None` exactly when no
   * order reaches `min`, and otherwise an order of some task at or above
   * `min` (not necessarily the least).
   */
  lemma AsWrittenSound(tasks: Dict<string, Task>, min: int)
    requires Ordered(tasks)
    ensures var r := LowestAsWritten(tasks, min, 0, None);
      && (r.None? <==> forall n :: n in tasks.items ==> tasks.items[n].order.value < min)
      && (r.Some? ==> r.value >= min && IsOrder(tasks, r.value))
  {
    AsWrittenFromSound(tasks, min, 0, None);
    var r := LowestAsWritten(tasks, min, 0, None);
    if r.Some? {
      var j :| 0 <= j < |tasks.keys| && OrderAt(tasks, j) == r.value;
      assert tasks.keys[j] in tasks.items;
    } else {
      forall n | n in tasks.items ensures tasks.items[n].order.value < min {
        var j :| 0 <= j < |tasks.keys| && tasks.keys[j] == n;
        assert OrderAt(tasks, j) == tasks.items[n].order.value;
      }
    }
  }

  lemma {:induction false} AsWrittenFromAgrees(tasks: Dict<string, Task>, min: int, k: nat, lowest: Option<int>)
    requires Ordered(tasks) && k <= |tasks.keys|
    requires forall j :: k <= j < |tasks.keys| && OrderAt(tasks, j) >= min ==> OrderAt(tasks, j) != 0
    requires lowest.Some? ==> lowest.value != 0
    ensures LowestAsWritten(tasks, min, k, lowest) == Lowest(tasks, min, k, lowest)
    decreases |tasks.keys| - k
  {
    if k < |tasks.keys| {
      var o := OrderAt(tasks, k);
      var next := if o < min then lowest else if lowest.None? || o < lowest.value then Some(o) else lowest;
      AsWrittenFromAgrees(tasks, min, k + 1, next);
    }
  }

  /**
   * The code as written finds the least order whenever no candidate order
   * is 0: on every call with `min > 0`, which is every call after the
   * first, and on every schedule without an order 0.
   */
  lemma AsWrittenAgrees(tasks: Dict<string, Task>, min: int)
    requires Ordered(tasks)
    requires min > 0 || forall n :: n in tasks.items ==> tasks.items[n].order != Some(0)
    ensures LowestAsWritten(tasks, min, 0, None) == Lowest(tasks, min, 0, None)
  {
    forall j | 0 <= j < |tasks.keys| && OrderAt(tasks, j) >= min
      ensures OrderAt(tasks, j) != 0
    {
      assert tasks.keys[j] in tasks.items;
    }
    AsWrittenFromAgrees(tasks, min, 0, None);
  }

  /** A task record carrying only a name and an order. */
  function OrderedTask(name: string, order: int): Task {
    Task(name, "/" + name, "/out/" + name, EmptyDict(), EmptyDict(), Some(order), [], [])
  }

  /**
   * Orders 0, 0 and 1 in that iteration order: as written the first cursor
   * is 1, so the two tasks of order 0 never run; the least order is 0.
   */
  lemma ZeroOrderSkipped()
    ensures var tasks := Dict(["a", "b", "c"], map["a" := OrderedTask("a", 0), "b" := OrderedTask("b", 0), "c" := OrderedTask("c", 1)]);
      && Ordered(tasks)
      && LowestAsWritten(tasks, 0, 0, None) == Some(1)
      && Lowest(tasks, 0, 0, None) == Some(0)
  {
    var tasks := Dict(["a", "b", "c"], map["a" := OrderedTask("a", 0), "b" := OrderedTask("b", 0), "c" := OrderedTask("c", 1)]);
    assert OrderAt(tasks, 0) == 0 && OrderAt(tasks, 1) == 0 && OrderAt(tasks, 2) == 1;
    assert LowestAsWritten(tasks, 0, 2, Some(0)) == Some(1);
    assert Lowest(tasks, 0, 1, Some(0)) == Some(0);
  }

  /** `__get_tasks(order)`, from the `k`-th task on. */
  function GroupFrom(acc: Dict<string, Task>, tasks: Dict<string, Task>, order: int, k: nat): Dict<string, Task>
    requires Ordered(tasks) && k <= |tasks.keys|
    decreases |tasks.keys| - k
  {
    if k == |tasks.keys| then acc
    else
      var n := tasks.keys[k];
      if OrderAt(tasks, k) == order then GroupFrom(acc.Put(n, tasks.items[n]), tasks, order, k + 1)
      else GroupFrom(acc, tasks, order, k + 1)
  }

  /** The names among the first `k` tasks whose order is `order`, in table order. */
  function GroupKeys(tasks: Dict<string, Task>, order: int, k: nat): seq<string>
    requires k <= |tasks.keys|
  {
    if k == 0 then []
    else
      var n := tasks.keys[k - 1];
      GroupKeys(tasks, order, k - 1) + (if n in tasks.items && tasks.items[n].order == Some(order) then [n] else [])
  }

  /** `acc` is the group of order `order` among the first `k` tasks. */
  ghost predicate GroupSoFar(acc: Dict<string, Task>, tasks: Dict<string, Task>, order: int, k: int)
    requires 0 <= k <= |tasks.keys|
  {
    && acc.Valid()
    && acc.keys == GroupKeys(tasks, order, k)
    && (forall n :: n in acc.items <==> n in tasks.keys[..k] && n in tasks.items && tasks.items[n].order == Some(order))
    && forall n :: n in acc.items ==> n in tasks.items && acc.items[n] == tasks.items[n]
  }

  /** Adding the `k`-th task, when it has the order, keeps the group so far. */
  lemma GroupSoFarStep(acc: Dict<string, Task>, tasks: Dict<string, Task>, order: int, k: nat)
    requires Ordered(tasks) && k < |tasks.keys| && GroupSoFar(acc, tasks, order, k)
    ensures var n := tasks.keys[k];
      GroupSoFar(if OrderAt(tasks, k) == order then acc.Put(n, tasks.items[n]) else acc, tasks, order, k + 1)
  {
    var n := tasks.keys[k];
    assert n in tasks.items;
    PrefixGrows(tasks.keys, k);
    if OrderAt(tasks, k) == order {
      assert n !in tasks.keys[..k] by {
        forall m | 0 <= m < k ensures tasks.keys[..k][m] != n { }
      }
      GroupSoFarAdd(acc, tasks, order, k);
    } else {
      GroupSoFarSkip(acc, tasks, order, k);
    }
  }

  lemma GroupSoFarSkip(acc: Dict<string, Task>, tasks: Dict<string, Task>, order: int, k: nat)
    requires k < |tasks.keys| && GroupSoFar(acc, tasks, order, k)
    requires tasks.keys[k] in tasks.items && tasks.items[tasks.keys[k]].order != Some(order)
    requires forall x :: x in tasks.keys[..k + 1] <==> x in tasks.keys[..k] || x == tasks.keys[k]
    ensures GroupSoFar(acc, tasks, order, k + 1)
  {
  }

  lemma GroupSoFarAdd(acc: Dict<string, Task>, tasks: Dict<string, Task>, order: int, k: nat)
    requires k < |tasks.keys| && GroupSoFar(acc, tasks, order, k)
    requires tasks.keys[k] in tasks.items && tasks.items[tasks.keys[k]].order == Some(order) && tasks.keys[k] !in tasks.keys[..k]
    requires forall x :: x in tasks.keys[..k + 1] <==> x in tasks.keys[..k] || x == tasks.keys[k]
    ensures GroupSoFar(acc.Put(tasks.keys[k], tasks.items[tasks.keys[k]]), tasks, order, k + 1)
  {
  }

  lemma {:induction false} GroupFromMembers(acc: Dict<string, Task>, tasks: Dict<string, Task>, order: int, k: nat)
    requires Ordered(tasks) && k <= |tasks.keys| && GroupSoFar(acc, tasks, order, k)
    ensures GroupSoFar(GroupFrom(acc, tasks, order, k), tasks, order, |tasks.keys|)
    decreases |tasks.keys| - k
  {
    if k < |tasks.keys| {
      var n := tasks.keys[k];
      GroupSoFarStep(acc, tasks, order, k);
      var next := if OrderAt(tasks, k) == order then acc.Put(n, tasks.items[n]) else acc;
      assert GroupFrom(acc, tasks, order, k) == GroupFrom(next, tasks, order, k + 1);
      GroupFromMembers(next, tasks, order, k + 1);
    }
  }

  /**
   * The group of an order holds exactly the tasks of that order, each with
   * its own record, in task order.
   */
  lemma GroupMembers(tasks: Dict<string, Task>, order: int)
    requires Ordered(tasks)
    ensures var g := GroupFrom(EmptyDict(), tasks, order, 0);
      && g.Valid()
      && g.keys == GroupKeys(tasks, order, |tasks.keys|)
      && (forall n :: n in g.items <==> n in tasks.items && tasks.items[n].order == Some(order))
      && forall n :: n in g.items ==> g.items[n] == tasks.items[n]
  {
    assert tasks.keys[..0] == [];
    GroupFromMembers(EmptyDict(), tasks, order, 0);
    assert tasks.keys[..|tasks.keys|] == tasks.keys;
  }

  /** The group at the cursor is never empty, so the loop that skips empty groups never runs. */
  lemma GroupNeverEmpty(tasks: Dict<string, Task>, min: int)
    requires Ordered(tasks) && Lowest(tasks, min, 0, None).Some?
    ensures GroupFrom(EmptyDict(), tasks, Lowest(tasks, min, 0, None).value, 0).keys != []
  {
    var o := Lowest(tasks, min, 0, None).value;
    LowestIsLeast(tasks, min);
    GroupMembers(tasks, o);
    var n :| n in tasks.items && tasks.items[n].order == Some(o);
    assert n in GroupFrom(EmptyDict(), tasks, o, 0).items;
  }

  // ---------------------------------------------------------------------
  // Running a task: `__run_task`
  // ---------------------------------------------------------------------

  datatype StepPhase = MainPhase | CleanupPhase

  /** One step call: its task, phase, tool type and function, and whether it returned normally. */
  datatype Event = Event(task: string, phase: StepPhase, toolType: string, func: string, ok: bool)

  /**
   * How each tool member returns when called (true: normally), by task
   * name, phase and the step's index in its list. What the members do is
   * not part of this model.
   */
  type Outcomes = (string, StepPhase, nat) -> bool

  /**
   * `getattr(task["tools"][type], func)()` returns normally: the type's
   * slot holds a tool instance, that instance has the attribute, and the
   * member itself returns.
   */
  predicate CallOk(task: Task, s: Step, normal: bool) {
    && s.toolType in task.tools.items
    && task.tools.items[s.toolType].Bound?
    && s.func in task.tools.items[s.toolType].tool.attributes
    && normal
  }

  function StepsOf(task: Task, phase: StepPhase): seq<Step> {
    if phase == MainPhase then task.steps else task.cleanup
  }

  /** The log entry for the `i`-th step of `phase`. */
  function StepEvent(name: string, task: Task, phase: StepPhase, i: nat, out: Outcomes): Event
    requires i < |StepsOf(task, phase)|
  {
    var s := StepsOf(task, phase)[i];
    Event(name, phase, s.toolType, s.func, CallOk(task, s, out(name, phase, i)))
  }

  /** The main steps from the `k`-th on, stopping after the first that fails. */
  function MainEvents(name: string, task: Task, out: Outcomes, k: nat): seq<Event>
    requires k <= |task.steps|
    decreases |task.steps| - k
  {
    if k == |task.steps| then []
    else
      var e := StepEvent(name, task, MainPhase, k, out);
      if e.ok then [e] + MainEvents(name, task, out, k + 1) else [e]
  }

  /** The cleanup steps from the `k`-th on, every one of them. */
  function CleanupEvents(name: string, task: Task, out: Outcomes, k: nat): seq<Event>
    requires k <= |task.cleanup|
    decreases |task.cleanup| - k
  {
    if k == |task.cleanup| then []
    else [StepEvent(name, task, CleanupPhase, k, out)] + CleanupEvents(name, task, out, k + 1)
  }

  /** What running one task logs: its main steps, then its cleanup steps. */
  function RunEvents(name: string, task: Task, out: Outcomes): seq<Event> {
    MainEvents(name, task, out, 0) + CleanupEvents(name, task, out, 0)
  }

  /** `__run_task(name, task)` */
  method RunTask(name: string, task: Task, out: Outcomes) returns (events: seq<Event>)
    ensures events == RunEvents(name, task, out)
  {
    var main := RunMain(name, task, out);
    var cleanup := RunCleanup(name, task, out);
    events := main + cleanup;
  }

  /** The first loop of `__run_task`: the main steps, up to and including the first that fails. */
  method RunMain(name: string, task: Task, out: Outcomes) returns (events: seq<Event>)
    ensures events == MainEvents(name, task, out, 0)
  {
    events := [];
    var i := 0;
    while i < |task.steps|
      invariant 0 <= i <= |task.steps|
      invariant events + MainEvents(name, task, out, i) == MainEvents(name, task, out, 0)
    {
      var s := task.steps[i];
      var ok := CallOk(task, s, out(name, MainPhase, i));
      var e := Event(name, MainPhase, s.toolType, s.func, ok);
      assert e == StepEvent(name, task, MainPhase, i, out);
      if !ok {
        assert MainEvents(name, task, out, i) == [e];
        events := events + [e];
        break;
      }
      assert MainEvents(name, task, out, i) == [e] + MainEvents(name, task, out, i + 1);
      assert (events + [e]) + MainEvents(name, task, out, i + 1) == events + ([e] + MainEvents(name, task, out, i + 1));
      events := events + [e];
      i := i + 1;
    }
  }

  /** The second loop of `__run_task`: every cleanup step. */
  method RunCleanup(name: string, task: Task, out: Outcomes) returns (events: seq<Event>)
    ensures events == CleanupEvents(name, task, out, 0)
  {
    events := [];
    var j := 0;
    while j < |task.cleanup|
      invariant 0 <= j <= |task.cleanup|
      invariant events + CleanupEvents(name, task, out, j) == CleanupEvents(name, task, out, 0)
    {
      var s := task.cleanup[j];
      var e := Event(name, CleanupPhase, s.toolType, s.func, CallOk(task, s, out(name, CleanupPhase, j)));
      assert CleanupEvents(name, task, out, j) == [e] + CleanupEvents(name, task, out, j + 1);
      assert (events + [e]) + CleanupEvents(name, task, out, j + 1) == events + ([e] + CleanupEvents(name, task, out, j + 1));
      events := events + [e];
      j := j + 1;
    }
  }

  /**
   * The main steps run in list order until the first one that fails: every
   * logged call but the last returned normally, and the log stops short of
   * the list only after a failure.
   */
  lemma {:induction false} MainStopsAtFirstFailure(name: string, task: Task, out: Outcomes, k: nat)
    requires k <= |task.steps|
    ensures var m := MainEvents(name, task, out, k);
      && |m| <= |task.steps| - k
      && (k < |task.steps| ==> |m| > 0)
      && (forall i :: 0 <= i < |m| ==> m[i] == StepEvent(name, task, MainPhase, k + i, out))
      && (forall i :: 0 <= i < |m| - 1 ==> m[i].ok)
      && (|m| < |task.steps| - k ==> !m[|m| - 1].ok)
    decreases |task.steps| - k
  {
    if k < |task.steps| && StepEvent(name, task, MainPhase, k, out).ok {
      MainStopsAtFirstFailure(name, task, out, k + 1);
      var rest := MainEvents(name, task, out, k + 1);
      var m := MainEvents(name, task, out, k);
      assert m == [StepEvent(name, task, MainPhase, k, out)] + rest;
      forall i | 0 <= i < |m|
        ensures m[i] == StepEvent(name, task, MainPhase, k + i, out)
      {
        if i > 0 {
          assert m[i] == rest[i - 1];
        }
      }
    }
  }

  /** Every cleanup step runs, in list order, whatever happened before. */
  lemma {:induction false} CleanupRunsEveryStep(name: string, task: Task, out: Outcomes, k: nat)
    requires k <= |task.cleanup|
    ensures var c := CleanupEvents(name, task, out, k);
      && |c| == |task.cleanup| - k
      && forall i :: 0 <= i < |c| ==> c[i] == StepEvent(name, task, CleanupPhase, k + i, out)
    decreases |task.cleanup| - k
  {
    if k < |task.cleanup| {
      CleanupRunsEveryStep(name, task, out, k + 1);
      var c := CleanupEvents(name, task, out, k);
      forall i | 0 <= i < |c|
        ensures c[i] == StepEvent(name, task, CleanupPhase, k + i, out)
      {
        if i > 0 {
          assert c[i] == CleanupEvents(name, task, out, k + 1)[i - 1];
        }
      }
    }
  }

  /** The log of running the first `k` tasks of `group` one after the other. */
  function GroupEvents(group: Dict<string, Task>, k: nat, out: Outcomes): seq<Event>
    requires group.Valid() && k <= |group.keys|
  {
    if k == 0 then []
    else
      var n := group.keys[k - 1];
      GroupEvents(group, k - 1, out) + RunEvents(n, group.items[n], out)
  }

  lemma GroupEventsStep(group: Dict<string, Task>, i: nat, out: Outcomes, events: seq<Event>, taskEvents: seq<Event>)
    requires group.Valid() && i < |group.keys| && group.keys[i] in group.items
    requires events == GroupEvents(group, i, out)
    requires taskEvents == RunEvents(group.keys[i], group.items[group.keys[i]], out)
    ensures events + taskEvents == GroupEvents(group, i + 1, out)
  {
  }

  /** The tasks of one order run one after the other, in table order. */
  method RunGroup(group: Dict<string, Task>, out: Outcomes) returns (events: seq<Event>)
    requires group.Valid()
    ensures events == GroupEvents(group, |group.keys|, out)
  {
    events := [];
    var i := 0;
    while i < |group.keys|
      invariant 0 <= i <= |group.keys|
      invariant events == GroupEvents(group, i, out)
    {
      var name := group.keys[i];
      assert name in group.items;
      var taskEvents := RunTask(name, group.items[name], out);
      GroupEventsStep(group, i, out, events, taskEvents);
      events := events + taskEvents;
      i := i + 1;
    }
  }

  // ---------------------------------------------------------------------
  // The schedule object
  // ---------------------------------------------------------------------

  /** The least order the cursor may take after the orders `ran`: 0 at first, then one above the last. */
  function NextMin(ran: seq<int>): int {
    if ran == [] then 0 else ran[|ran| - 1] + 1
  }

  /** The orders that ran rose strictly from 0 up. */
  ghost predicate Rising(ran: seq<int>) {
    && (forall i, j :: 0 <= i < j < |ran| ==> ran[i] < ran[j])
    && (forall i :: 0 <= i < |ran| ==> ran[i] >= 0)
  }

  /**
   * The cursor after the orders `ran` have run, oldest first: they rose
   * strictly, each was some task's order and at least 0, every order
   * between 0 and the last of them ran, and `current` is the least order
   * above the last.
   */
  ghost predicate CursorValid(tasks: Dict<string, Task>, current: Option<int>, ran: seq<int>) {
    && Ordered(tasks)
    && current == Lowest(tasks, NextMin(ran), 0, None)
    && Rising(ran)
    && (forall i :: 0 <= i < |ran| ==> IsOrder(tasks, ran[i]))
    && (forall n :: n in tasks.items && 0 <= tasks.items[n].order.value < NextMin(ran) ==> tasks.items[n].order.value in ran)
  }

  /** The tasks whose order the cursor has not yet passed. */
  ghost function PendingOf(tasks: Dict<string, Task>, ran: seq<int>): set<string> {
    set n | n in tasks.items && tasks.items[n].order.Some? && tasks.items[n].order.value >= NextMin(ran)
  }

  lemma NextMinAboveRan(ran: seq<int>)
    requires Rising(ran)
    ensures NextMin(ran) >= 0
    ensures forall i :: 0 <= i < |ran| ==> ran[i] < NextMin(ran)
  {
  }

  lemma RisingGrows(ran: seq<int>, c: int)
    requires Rising(ran) && c >= NextMin(ran)
    ensures Rising(ran + [c]) && NextMin(ran + [c]) == c + 1
  {
    NextMinAboveRan(ran);
  }

  lemma ProperSubsetSmaller(a: set<string>, b: set<string>, x: string)
    requires a <= b && x in b && x !in a
    ensures |a| < |b|
  {
    assert b == a + (b - a);
    assert x in b - a;
  }

  /** Moving the cursor past an order some task has leaves fewer tasks pending. */
  lemma PendingShrinks(tasks: Dict<string, Task>, c: int, ran: seq<int>)
    requires Ordered(tasks) && IsOrder(tasks, c) && c >= NextMin(ran) && NextMin(ran + [c]) == c + 1
    ensures PendingOf(tasks, ran + [c]) < PendingOf(tasks, ran)
    ensures |PendingOf(tasks, ran + [c])| < |PendingOf(tasks, ran)|
  {
    var w :| w in tasks.items && tasks.items[w].order == Some(c);
    assert w in PendingOf(tasks, ran) && w !in PendingOf(tasks, ran + [c]);
    ProperSubsetSmaller(PendingOf(tasks, ran + [c]), PendingOf(tasks, ran), w);
  }

  /**
   * Running the order at the cursor keeps the cursor consistent, moves it
   * strictly up, and leaves fewer tasks pending: the walk over the orders
   * ends.
   */
  /** The group at the cursor is never empty: the loop in `iterate()` skipping empty groups never runs. */
  lemma GroupAtCursor(tasks: Dict<string, Task>, c: int, ran: seq<int>)
    requires CursorValid(tasks, Some(c), ran)
    ensures GroupFrom(EmptyDict(), tasks, c, 0).Valid() && GroupFrom(EmptyDict(), tasks, c, 0).keys != []
  {
    GroupMembers(tasks, c);
    GroupNeverEmpty(tasks, NextMin(ran));
  }

  lemma AdvanceCursor(tasks: Dict<string, Task>, c: int, ran: seq<int>)
    requires CursorValid(tasks, Some(c), ran)
    ensures CursorValid(tasks, Lowest(tasks, c + 1, 0, None), ran + [c])
    ensures Lowest(tasks, c + 1, 0, None).Some? ==> Lowest(tasks, c + 1, 0, None).value > c
    ensures PendingOf(tasks, ran + [c]) < PendingOf(tasks, ran)
    ensures |PendingOf(tasks, ran + [c])| < |PendingOf(tasks, ran)|
  {
    CursorStep(tasks, c, ran);
    PendingShrinks(tasks, c, ran);
  }

  lemma CursorStep(tasks: Dict<string, Task>, c: int, ran: seq<int>)
    requires CursorValid(tasks, Some(c), ran)
    ensures CursorValid(tasks, Lowest(tasks, c + 1, 0, None), ran + [c])
    ensures Lowest(tasks, c + 1, 0, None).Some? ==> Lowest(tasks, c + 1, 0, None).value > c
    ensures IsOrder(tasks, c) && c >= NextMin(ran) && NextMin(ran + [c]) == c + 1
  {
    LowestIsLeast(tasks, NextMin(ran));
    LowestIsLeast(tasks, c + 1);
    RisingGrows(ran, c);
    var ran' := ran + [c];
    forall i | 0 <= i < |ran'| ensures IsOrder(tasks, ran'[i]) {
      if i < |ran| {
        assert ran'[i] == ran[i];
      }
    }
    forall n | n in tasks.items && 0 <= tasks.items[n].order.value < c + 1
      ensures tasks.items[n].order.value in ran'
    {
      var o := tasks.items[n].order.value;
      if o >= NextMin(ran) {
        assert o == c;
      } else {
        assert o in ran;
      }
    }
  }

  /** The cursor is spent exactly when every order at or above 0 has run. */
  lemma CursorDone(tasks: Dict<string, Task>, current: Option<int>, ran: seq<int>)
    requires CursorValid(tasks, current, ran)
    ensures current.None? <==> forall n :: n in tasks.items && tasks.items[n].order.value >= 0 ==> tasks.items[n].order.value in ran
  {
    LowestIsLeast(tasks, NextMin(ran));
    NextMinAboveRan(ran);
    if current.Some? {
      var w :| w in tasks.items && tasks.items[w].order == current;
      assert tasks.items[w].order.value !in ran;
    }
  }

  /** Two task tables that list the same names in the same order with the same orders. */
  ghost predicate SameOrders(a: Dict<string, Task>, b: Dict<string, Task>) {
    && a.keys == b.keys
    && (forall n :: n in a.items <==> n in b.items)
    && forall n :: n in a.items ==> a.items[n].order == b.items[n].order
  }

  lemma {:induction false} LowestSameOrders(a: Dict<string, Task>, b: Dict<string, Task>, min: int, k: nat, lowest: Option<int>)
    requires Ordered(a) && Ordered(b) && SameOrders(a, b) && k <= |a.keys|
    ensures Lowest(a, min, k, lowest) == Lowest(b, min, k, lowest)
    decreases |a.keys| - k
  {
    if k < |a.keys| {
      assert OrderAt(a, k) == OrderAt(b, k);
      var o := OrderAt(a, k);
      LowestSameOrders(a, b, min, k + 1, if o < min then lowest else if lowest.None? || o < lowest.value then Some(o) else lowest);
    }
  }

  /**
   * Replacing task records by ones with the same names and orders (as
   * `initialize_tasks` does in the dict the schedule shares) keeps the
   * cursor consistent.
   */
  lemma CursorKeptBySameOrders(a: Dict<string, Task>, b: Dict<string, Task>, current: Option<int>, ran: seq<int>)
    requires CursorValid(a, current, ran) && b.Valid() && SameOrders(a, b)
    ensures CursorValid(b, current, ran)
  {
    assert Ordered(b);
    LowestSameOrders(a, b, NextMin(ran), 0, None);
    forall i | 0 <= i < |ran| ensures IsOrder(b, ran[i]) {
      var w :| w in a.items && a.items[w].order == Some(ran[i]);
      assert w in b.items && b.items[w].order == Some(ran[i]);
    }
  }

  /** The first task, from the `k`-th on, without an order: where `__get_lowest` raises `KeyError`. */
  function FirstUnordered(tasks: Dict<string, Task>, k: nat): (r: Option<string>)
    requires tasks.Valid() && k <= |tasks.keys|
    ensures r.None? <==> forall j :: k <= j < |tasks.keys| ==> tasks.items[tasks.keys[j]].order.Some?
    ensures r.Some? ==> r.value in tasks.items && tasks.items[r.value].order.None?
    ensures r.Some? ==> exists j :: k <= j < |tasks.keys| && tasks.keys[j] == r.value
                                    && forall i :: k <= i < j ==> tasks.items[tasks.keys[i]].order.Some?
    decreases |tasks.keys| - k
  {
    if k == |tasks.keys| then None
    else if tasks.items[tasks.keys[k]].order.None? then Some(tasks.keys[k])
    else FirstUnordered(tasks, k + 1)
  }

  class Scheduler {
    /** The task table, shared with the testbench. */
    var tasks: Dict<string, Task>
    /** `__current`: the order the next `iterate` runs. */
    var current: Option<int>
    /** The step calls made so far, in order. */
    var log: seq<Event>
    /** The orders run so far, oldest first. */
    ghost var ran: seq<int>

    ghost predicate Valid()
      reads this
    {
      CursorValid(tasks, current, ran)
    }

    /** The tasks whose order the cursor has not yet passed. */
    ghost function Pending(): set<string>
      reads this
    {
      PendingOf(tasks, ran)
    }

    /** The cursor set to the lowest order at or above 0, before anything ran. */
    constructor Init(tasks: Dict<string, Task>)
      requires Ordered(tasks)
      ensures Valid() && this.tasks == tasks && log == [] && ran == []
      ensures current == Lowest(tasks, 0, 0, None)
    {
      this.tasks := tasks;
      current := None;
      log := [];
      ran := [];
      new;
      current := GetLowest(0);
    }

    /**
     * `TestbenchSchedule(config, tools, tasks)`: the schedule's errors, then
     * `KeyError` for the first task without an order, else a schedule whose
     * cursor is the lowest order at or above 0.
     */
    static method Create(config: Option<Dict<string, ScheduleEntry>>, tasks: Dict<string, Task>, reg: ToolRegistry.ToolTable)
      returns (r: Result<Scheduler, ScheduleError>)
      requires config.Some? ==> ScheduleValid(config.value)
      requires tasks.Valid()
      ensures ParseScheduleSpec(config, tasks, reg).Err? ==> r == Err(ParseScheduleSpec(config, tasks, reg).error)
      ensures ParseScheduleSpec(config, tasks, reg).Ok? ==>
        var ts := ParseScheduleSpec(config, tasks, reg).value;
        && ts.Valid()
        && (FirstUnordered(ts, 0).Some? ==> r == Err(MissingOrder(FirstUnordered(ts, 0).value)))
        && (FirstUnordered(ts, 0).None? ==>
              && r.Ok? && fresh(r.value) && r.value.Valid() && r.value.tasks == ts
              && r.value.current == Lowest(ts, 0, 0, None) && r.value.log == [] && r.value.ran == [])
    {
      ParsedSchedule(config, tasks, reg);
      var parsed := ParseSchedule(config, tasks, reg);
      if parsed.Err? {
        return Err(parsed.error);
      }
      var ts := parsed.value;
      assert ts.Valid();
      var missing := FirstUnordered(ts, 0);
      if missing.Some? {
        return Err(MissingOrder(missing.value));
      }
      forall n | n in ts.items ensures ts.items[n].order.Some? {
        var j :| 0 <= j < |ts.keys| && ts.keys[j] == n;
      }
      var s := new Scheduler.Init(ts);
      r := Ok(s);
    }

    /** The testbench replaces the shared task table by one with the same orders; the cursor stays valid. */
    method SetTasks(ts: Dict<string, Task>)
      requires Valid() && ts.Valid() && SameOrders(tasks, ts)
      modifies this
      ensures Valid() && tasks == ts && current == old(current) && log == old(log) && ran == old(ran)
    {
      CursorKeptBySameOrders(tasks, ts, current, ran);
      tasks := ts;
    }

    /** `__get_lowest(min)`, with the running minimum tested against `None` only. */
    method GetLowest(min: int) returns (lowest: Option<int>)
      requires Ordered(tasks)
      ensures lowest == Lowest(tasks, min, 0, None)
    {
      lowest := None;
      var k := 0;
      while k < |tasks.keys|
        invariant 0 <= k <= |tasks.keys|
        invariant Lowest(tasks, min, k, lowest) == Lowest(tasks, min, 0, None)
      {
        var order := tasks.items[tasks.keys[k]].order.value;
        if order >= min && (lowest.None? || order < lowest.value) {
          lowest := Some(order);
        }
        k := k + 1;
      }
    }

    /** `__get_tasks(order)` */
    method GetTasks(order: int) returns (group: Dict<string, Task>)
      requires Ordered(tasks)
      ensures group == GroupFrom(EmptyDict(), tasks, order, 0)
    {
      group := EmptyDict();
      var k := 0;
      while k < |tasks.keys|
        invariant 0 <= k <= |tasks.keys|
        invariant GroupFrom(group, tasks, order, k) == GroupFrom(EmptyDict(), tasks, order, 0)
      {
        var name := tasks.keys[k];
        if tasks.items[name].order.value == order {
          group := group.Put(name, tasks.items[name]);
        }
        k := k + 1;
      }
    }

    /** `is_done()`: done exactly when every order at or above 0 has run. */
    function IsDone(): (done: bool)
      requires Valid()
      reads this
      ensures done <==> forall n :: n in tasks.items && tasks.items[n].order.value >= 0 ==> tasks.items[n].order.value in ran
    {
      CursorDone(tasks, current, ran);
      current.None?
    }

    /**
     * `iterate()`: run every task of the order at the cursor, one after the
     * other in table order, and move the cursor to the next order up;
     * answers the order that ran, or `None` when the schedule is done.
     */
    method Iterate(out: Outcomes) returns (r: Option<int>)
      requires Valid()
      modifies this
      ensures Valid() && tasks == old(tasks) && r == old(current)
      ensures r.None? ==> current == None && log == old(log) && ran == old(ran)
      ensures r.Some? ==>
        var group := GroupFrom(EmptyDict(), tasks, r.value, 0);
        && group.Valid() && group.keys != []
        && ran == old(ran) + [r.value]
        && current == Lowest(tasks, r.value + 1, 0, None)
        && log == old(log) + GroupEvents(group, |group.keys|, out)
        && |Pending()| < |old(Pending())|
    {
      r := current;
      if current.None? {
        return;
      }
      var c := current.value;
      var next := GetLowest(c + 1);
      var group := GetTasks(c);
      GroupAtCursor(tasks, c, ran);
      var events := RunGroup(group, out);
      Advance(c, next, events);
    }

    /** The end of `iterate()`: the order `c` ran with the log `events`, and the cursor moves on to `next`. */
    method Advance(c: int, next: Option<int>, events: seq<Event>)
      requires Valid() && current == Some(c) && next == Lowest(tasks, c + 1, 0, None)
      modifies this
      ensures Valid() && tasks == old(tasks) && current == next && ran == old(ran) + [c] && log == old(log) + events
      ensures |Pending()| < |old(Pending())|
    {
      AdvanceCursor(tasks, c, ran);
      current := next;
      log := log + events;
      ran := ran + [c];
    }
  }
}
