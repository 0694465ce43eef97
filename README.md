# WULPUS python testbench engine in Dafny

This project models the engine of the WULPUS python testbench, found in
`src/testbench/`. The testbench reads a configuration with four sections:
`registry` (where the tool and file plugins live), `tasks`, `schedule`
and the environment. From these it builds and runs a batch of hardware
and firmware tasks:

- **Tool registry** (`TestbenchTools`, `tools.py`, module `ToolRegistry`).
  Every directory under the tools root is a tool type, unless its name
  starts with `__`. Every sorted `*.py` file in that directory that
  defines a `Tool` subclass is a tool. The tool's name is the part of the
  file stem after the first `_`.
- **File registry** (`TestbenchFiles`, `files.py`, module `FileRegistry`).
  Every `file_<type>.py` module under the files root whose first class
  has a `parse` member, other than `File` itself, is a file type.
- **Task binder** (`TestbenchTasks`, `tasks.py`, module `Tasks`). Each
  configured task gets an absolute path and an output directory. Its
  tools and files are checked against both registries.
- **Schedule** (`TestbenchSchedule`, `schedule.py`, module `Schedule`).
  Each schedule entry gives a task an order, main steps and cleanup
  steps; each step is a `type;tool` string naming one of the task's
  tools and a function of that tool's class. The scheduler's cursor is
  the lowest order not yet run (the model counts an order of 0 as an
  order; see "## Findings"). Each `iterate` runs every task of that
  order: main steps up to the first failure, then every cleanup step.
- **File session** (`File`, `file.py`, module `FileSession`). A session
  backs the live file up to `.bak`, lets the plugin's `parse` produce
  line replacements, and rewrites the file with them. It copies both
  versions into the task's `files/` audit directory. On release it moves
  the backup back over the file.
- **Tool runtime** (`Tool`, `tool.py`, module `ToolRuntime`). A tool has
  its output directory under the task's. Each command's stdout and
  stderr go to capture files, each starting with a fixed header. A
  non-zero exit code fails the command. `ensure` looks a requirement up
  in the environment, the parameters or the task's files. `run`
  dispatches a command by name.
- **Testbench** (`Testbench`, `testbench.py`, module `Testbench`). The
  testbench looks configuration sections up by `/`-separated keys and
  writes the environment to `.env`. It replaces `<key>` placeholders
  throughout the configuration, then builds the registries, the tasks
  and the schedule. `initialize_tasks` opens every task's files and
  instantiates its tools, binding each step to its tool. The source
  instantiates only the tool types of main steps; the model also
  instantiates those of cleanup steps. `iterate` and `is_done` forward
  to the schedule. Teardown releases every file session.

Where the source is wrong ("## Findings"), the model holds two
members: one for the code as written, with a lemma that shows the
failure, and a corrected one. The members that assemble the engine
(`Schedule.Scheduler`, `Testbench.Setup`, `Testbench.Testbench` and
the task initializers) are built from the corrected members. They
describe the intended engine, not the code as written.

Two modules support the rest. `Common` holds an insertion-ordered
dictionary (`Dict`, standing for Python's `dict`) and the string
functions the source calls: `strip`, `split`, `replace`, `lower`,
`sorted` and line splitting. `Fs` holds a file system object (`files`
maps a path to its content, `dirs` is the set of directories) and the
path functions of `pathlib`: `/`, `name`, `stem` and `with_suffix`.

Objects whose fields the source updates in place are Dafny classes:
`Fs.FileSystem`, `FileSession.Session`, `ToolRuntime.Tool`,
`Schedule.Scheduler` and `Testbench.Testbench`. The loops of the source
are methods with loop invariants. Each is proved equal to a recursive
specification function, and the properties are lemmas about those
functions.

## Model

| member | source | states |
|---|---|---|
| Common.Dict.Put | src/testbench/tasks.py:102-108 | storing a key keeps the keys distinct; a key already present keeps its position, a new key is appended |
| Common.Strip | src/testbench/file.py:51 | the input is a whitespace-only prefix, the stripped string and a whitespace-only suffix; the stripped string neither starts nor ends with whitespace |
| Common.ReplaceAbsent | src/testbench/file.py:51 | `str.replace` of a pattern that does not occur returns the line unchanged |
| Common.ReplaceBySelf | src/testbench/file.py:51 | replacing a pattern by itself returns the line unchanged |
| Common.InsertEverywhereEmpty | src/testbench/file.py:51 | replacing the empty pattern by the empty string returns the line unchanged |
| Common.Lower | src/testbench/testbench.py:136 | lowering keeps the length and lowers every character |
| Common.Split | src/testbench/schedule.py:53 | `split` yields at least one part and no part contains the separator |
| Common.SplitThenJoin | src/testbench/testbench.py:106 | joining the parts of a split with the separator gives back the string |
| Common.JoinThenSplit | src/testbench/schedule.py:53 | splitting a join of separator-free parts gives back the parts |
| Common.AfterFirst | src/testbench/tools.py:35 | `split("_", 1)[-1]`: the part after the first separator, or the whole string when there is none |
| Common.LexLeTotal | src/testbench/tools.py:32 | the order `sorted` uses on names is total |
| Common.SortNames | src/testbench/tools.py:32 | `sorted` returns an ordered permutation of its input |
| Common.SortNamesMembers | src/testbench/tools.py:32 | sorting keeps exactly the same names |
| Common.Lines | src/testbench/file.py:46-47 | splitting a text at `\n` yields lines that concatenate back to it, each non-empty with a newline only at its end |
| Common.Universal | src/testbench/file.py:46 | text-mode reading translates `\r\n` and a lone `\r` to `\n`: no `\r` is left and the text does not grow |
| Common.UniversalKeepsPlainText | src/testbench/file.py:46 | a text without `\r` is read unchanged |
| Common.UniversalIdempotent | src/testbench/file.py:46 | translating newlines twice is the same as once |
| Common.ReadLines | src/testbench/file.py:46-47 | iterating a file opened in text mode yields lines that concatenate back to its newline-translated text, each a line ending only in `\n` and holding no `\r` |
| Common.LinesOfConcat | src/testbench/file.py:55-56 | reading back lines written with `writelines` yields the same lines |
| Common.Lookup | src/testbench/testbench.py:102-104 | a mapping lookup succeeds exactly when the key is present, and returns that key's value |
| Fs.Join | src/testbench/tasks.py:45-49 | `base / rel` appends a relative path under the base; an absolute `rel` replaces the base |
| Fs.SplitName | src/testbench/file.py:38 | a path splits into its directory part and a name without `/` that concatenate back to it |
| Fs.SplitNameOfEntry | src/testbench/file.py:38 | the name of `dir/n` is `n` and its directory part is `dir/` |
| Fs.NameOfJoin | src/testbench/file.py:35-38 | `(base / n).name` is `n`, placed directly under `base` |
| Fs.LastDot | src/testbench/file.py:28 | finds the last `.` of a name, or reports there is none |
| Fs.Stem | src/testbench/file.py:28 | the stem is a prefix of the name |
| Fs.Suffix | src/testbench/file.py:28 | stem followed by suffix is the name |
| Fs.NameWithSuffix | src/testbench/file.py:28 | `with_suffix(".bak")` keeps the directory and replaces the name's suffix |
| Fs.SameDirSameName | src/testbench/file.py:38-39 | two paths with the same directory part and the same name are equal |
| Fs.EntryNamesMembers | src/testbench/files.py:24 | the names of a directory listing are exactly the names of its entries |
| Fs.FileSystem.Copy | src/testbench/file.py:29 | `shutil.copyfile` copies the source's content to the destination, or fails when the source is missing or is the destination, changing nothing |
| Fs.FileSystem.Move | src/testbench/file.py:58-59 | `Path.replace` moves the content to the destination and removes the source, or fails on a missing source |
| Fs.FileSystem.Write | src/testbench/testbench.py:123-125 | opening with `"w"` and writing leaves exactly the written text |
| Fs.FileSystem.Append | src/testbench/tool.py:56-65 | opening with `"a"` appends to the existing content |
| Fs.FileSystem.MakeDirs | src/testbench/tool.py:28-29 | `mkdir(parents=True, exist_ok=True)` adds the directory and changes no file |
| FileSession.Patched | src/testbench/file.py:44-56 | rewriting keeps the number of lines |
| FileSession.ReplaceLines | src/testbench/file.py:44-56 | the nested loops over lines, keys and replacements compute `Patched` |
| FileSession.ApplyPairsElsewhere | src/testbench/file.py:49-51 | replacements for other line numbers leave a line unchanged |
| FileSession.PatchLineElsewhere | src/testbench/file.py:48-51 | a line that no key designates is unchanged by the key loop |
| FileSession.UndesignatedLineUnchanged | src/testbench/file.py:44-56 | every line that no replacement designates is kept as it was |
| FileSession.ApplyPairsOnLine | src/testbench/file.py:49-51 | only the replacements for the current line number matter |
| FileSession.OnLineInRange | src/testbench/file.py:47-51 | dropping replacements past the end of the file does not change those for a line inside it |
| FileSession.DropOutOfRange | src/testbench/file.py:49-50 | dropping out-of-range replacements keeps a valid table with the same keys |
| FileSession.PatchLineInRange | src/testbench/file.py:48-51 | a line in range is patched the same with or without the out-of-range replacements |
| FileSession.OutOfRangeIgnored | src/testbench/file.py:47-51 | replacements whose line number is past the end are ignored |
| FileSession.PatchLineSingle | src/testbench/file.py:48-51 | a line designated by exactly one key gets that key's stripped text replaced by the stripped value |
| FileSession.DesignatedLineApplied | src/testbench/file.py:44-56 | every line is written back with each pair designating it applied as `line.replace(key.strip(), value.strip())`, keys in dict order and each key's pairs in list order |
| FileSession.DesignationsListed | src/testbench/file.py:48-51 | the replacements applied to a line are exactly the `(key, value)` of the pairs naming that line's index |
| FileSession.KeyedValuesMembers | src/testbench/file.py:50-51 | one key contributes exactly its pairs naming the line |
| FileSession.ApplyAllConcat | src/testbench/file.py:48-51 | applying two runs of replacements in turn is applying their concatenation |
| FileSession.DesignatedLineReplaced | src/testbench/file.py:44-56 | a line designated by exactly one pair becomes `line.replace(key.strip(), value.strip())` |
| FileSession.NoReplacementsNoChange | src/testbench/file.py:44-56 | with no replacements the rewritten file is the original with its newlines translated to `\n`; a file without `\r` is unchanged |
| FileSession.Parse | src/testbench/file.py:41-42 | the base `parse` raises not-implemented; a plugin's parse yields a valid table |
| FileSession.AuditPathsApart | src/testbench/file.py:35-39 | the audit copies of the file and of its backup never land on the backup or on the file |
| FileSession.RestoreRoundTrip | src/testbench/file.py:10-59 | opening a session and releasing it gives the file back its original content and removes the backup |
| FileSession.Session.constructor | src/testbench/file.py:10-39 | the session locates the file, backs it up, parses, rewrites and copies to the audit directory as `Open` computes |
| FileSession.Session.CopyForAudit | src/testbench/file.py:35-39 | the audit directory is made and both copies are taken, or the first failed copy is reported; the files change exactly as `AuditCopies` computes |
| FileSession.Session.Rewrite | src/testbench/file.py:44-56 | the live file becomes the patched lines of its newline-translated text; nothing else changes |
| FileSession.Session.Teardown | src/testbench/file.py:58-59 | the backup is moved back over the file when it exists |
| FileSession.PatchAndRestore | src/testbench/file.py:10-59 | after a session's life cycle the file has its original content and no backup is left |
| ToolRuntime.OutputDirPlacement | src/testbench/tool.py:28-29 | the tool's output directory is `<type>_<name>` directly under the task output |
| ToolRuntime.CaptureNameInjective | src/testbench/tool.py:34-39 | capture files of different command kinds have different names |
| ToolRuntime.CapturePathsDistinct | src/testbench/tool.py:34-39 | stdout and stderr of one command go to different files |
| ToolRuntime.Dashes | src/testbench/tool.py:49 | the separator is 45 dashes |
| ToolRuntime.HeaderLines | src/testbench/tool.py:45-52 | the header is the stream name, the command, the time, the dashes and a blank line |
| ToolRuntime.CheckExit | src/testbench/tool.py:67-70 | a command passes exactly when its exit code is 0 and otherwise fails with that code |
| ToolRuntime.Tool.constructor | src/testbench/tool.py:8-29 | the tool keeps its type, name, task, params and env, and creates its output directory |
| ToolRuntime.Tool.RunCommand | src/testbench/tool.py:31-75 | both capture files hold the header followed by the process output; the outcome is `WaitOutcome` of how the wait ended |
| ToolRuntime.WaitOutcome | src/testbench/tool.py:65-75 | a command passes exactly when it exits with code 0; a non-zero code fails with that code; an expired wait fails as timed out |
| ToolRuntime.TimeoutHandlerUnreachable | src/testbench/tool.py:65-75 | with `communicate()` called without a timeout, no command reaches the timed-out failure |
| ToolRuntime.TimeoutReported | src/testbench/tool.py:65-75 | with a timeout, a command fails as timed out exactly when it outlives the limit, and otherwise as its exit code says |
| ToolRuntime.Tool.Ensure | src/testbench/tool.py:77-104 | a requirement is returned when present in env, params or files, a missing one is an error naming it, and an unknown location is an error |
| ToolRuntime.Tool.Run | src/testbench/tool.py:106-114 | a command the tool has is called once with its outcome; an unknown one calls nothing and fails |
| ToolRegistry.FirstToolClass | src/testbench/tools.py:51-65 | the first class that is a proper `Tool` subclass defined in the module, or none when there is none |
| ToolRegistry.PyFiles | src/testbench/tools.py:32 | the sorted names of exactly the `.py` entries of a type directory |
| ToolRegistry.Matching | src/testbench/tools.py:32 | keeps exactly the names ending in `.py` |
| ToolRegistry.Discover | src/testbench/tools.py:13-49 | the discovery loops compute `DiscoverTools` |
| ToolRegistry.AddToolStep | src/testbench/tools.py:33-45 | one file adds at most its own tool, keeps the other entries, and adds the tool whenever the file contributes one |
| ToolRegistry.ToolsFromEntries | src/testbench/tools.py:32-45 | every registered tool was made from one of the type directory's files |
| ToolRegistry.HeldFromPersists | src/testbench/tools.py:32-45 | a tool held from a file stays held when only earlier files follow |
| ToolRegistry.LaterFileOverwrites | src/testbench/tools.py:35-45 | when several files name the same tool, the last contributing file in sorted order wins |
| ToolRegistry.TypesFromListed | src/testbench/tools.py:26-30 | every non-dunder directory becomes a type, even when no tool is found in it |
| ToolRegistry.DiscoveredTable | src/testbench/tools.py:13-49 | a missing root is an error; otherwise the types are exactly the listed non-dunder directories and each holds tools made from its files |
| FileRegistry.FirstFileClass | src/testbench/files.py:37-49 | the first class with `parse` defined in the module, or none |
| FileRegistry.Matching | src/testbench/files.py:24 | keeps exactly the `file_*.py` names |
| FileRegistry.PluginFiles | src/testbench/files.py:24 | the sorted names of exactly the `file_*.py` entries |
| FileRegistry.Discover | src/testbench/files.py:13-35 | the discovery loop computes `DiscoverFiles` |
| FileRegistry.FileTypeOfName | src/testbench/files.py:25 | the type of `file_<t>.py` is `<t>` |
| FileRegistry.FileTypesDistinct | src/testbench/files.py:25 | different plugin files give different types |
| FileRegistry.AddFileStep | src/testbench/files.py:26-35 | one file registers its type with its class and path when its class is not `File`, and otherwise leaves the table as it was |
| FileRegistry.FilesFromSound | src/testbench/files.py:23-35 | every registered type comes from a plugin file that registers it |
| FileRegistry.FilesFromComplete | src/testbench/files.py:23-35 | every plugin file that registers is in the table |
| FileRegistry.DiscoveredFiles | src/testbench/files.py:13-35 | a missing root is an error; otherwise the table holds exactly the registering plugin files, by type |
| Tasks.ParseTasks | src/testbench/tasks.py:27-108 | the loop over tasks computes `ParseTasksSpec` |
| Tasks.ParseTask | src/testbench/tasks.py:38-108 | the checks and tables of one task compute `BindTask` |
| Tasks.BindToolTable | src/testbench/tasks.py:53-76 | the loop over tool types and names computes `BindTypes` |
| Tasks.BindFileTable | src/testbench/tasks.py:78-100 | the loop over files computes `BindFiles` |
| Tasks.BindNamesResult | src/testbench/tasks.py:60-76 | binding the remaining names of a type succeeds exactly when each of them is registered under that type |
| Tasks.BindNamesError | src/testbench/tasks.py:60-64 | a failed binding names an unknown tool, and every name before it is registered: the first unknown name is reported |
| Tasks.BindNamesBound | src/testbench/tasks.py:66-76 | on success the type's table lists the configured names in order, each as `{name, params}` with absent params read as empty |
| Tasks.BindNamesRegistered | src/testbench/tasks.py:60-64 | a type's tools bind exactly when every configured name is registered under that type |
| Tasks.BindTypesResult | src/testbench/tasks.py:53-76 | binding the tool table succeeds exactly when every configured type and name is registered |
| Tasks.BindTypesBound | src/testbench/tasks.py:53-76 | on success the tool table holds exactly the configured types that list a tool, each with its name table |
| Tasks.BoundTools | src/testbench/tasks.py:53-76 | the whole tool table binds exactly when every tool is registered, and then each type holds its named tools |
| Tasks.BindFilesResult | src/testbench/tasks.py:78-100 | binding the remaining files succeeds exactly when each file type is registered and has a path |
| Tasks.BindFilesBound | src/testbench/tasks.py:78-100 | on success the file table lists the configured types in order, each with its path joined to the task's path, its configs (default empty) and its name |
| Tasks.BoundFiles | src/testbench/tasks.py:78-89 | a task's files bind exactly when every file type is registered and has a path |
| Tasks.BoundTask | src/testbench/tasks.py:38-108 | a task binds exactly when it is acceptable; a missing path, missing tools or a non-existent path gives its error; a bound task has the absolute path, the output under the output directory, its tools and files, and no order or steps |
| Tasks.BindTasksResult | src/testbench/tasks.py:33-108 | the loop over the remaining tasks succeeds exactly when each of them binds |
| Tasks.BindTasksBound | src/testbench/tasks.py:33-108 | on success the table lists the configured task names in order, each with its bound task |
| Tasks.TaskBinds | src/testbench/tasks.py:38-100 | one task binds exactly when it is acceptable: path and tools present, the path exists, its tools and files registered |
| Tasks.TasksAccepted | src/testbench/tasks.py:33-108 | the task table binds exactly when every configured task is acceptable |
| Tasks.TasksBoundAll | src/testbench/tasks.py:33-108 | a bound table keeps the configured names in order and holds each task as `BindTask` binds it |
| Tasks.ParsedTasks | src/testbench/tasks.py:27-108 | no tasks section gives an empty table; otherwise parsing succeeds exactly when every task is acceptable, keeping the configured keys and binding each task |
| Tasks.LastName | src/testbench/tasks.py:70-76 | the tool kept for a type is one of its configured names |
| Tasks.BoundTaskFlat | src/testbench/tasks.py:53-76 | the corrected binding accepts exactly what the nested one accepts and keeps one `{name, params}` per type: the last configured tool |
| Tasks.ParsedTasksFlat | src/testbench/tasks.py:27-108 | corrected parsing succeeds exactly when the as-written parsing does, with the same keys and flat tool tables |
| Schedule.ParseSchedule | src/testbench/schedule.py:25-102 | the loop over schedule entries computes `ParseScheduleSpec` |
| Schedule.ApplyEntry | src/testbench/schedule.py:37-102 | the checks and step loops of one entry compute `ParseEntry` |
| Schedule.CheckSteps | src/testbench/schedule.py:50-73 | the loop over steps computes `StepsFrom` |
| Schedule.AcceptedStep | src/testbench/schedule.py:51-73 | a step is accepted exactly when its `type;tool` names a configured tool type, the task's tool of that type and a function of that tool's class; the step records them |
| Schedule.CheckedSteps | src/testbench/schedule.py:50-73 | a step list is accepted exactly when every step is |
| Schedule.CheckedStepsInOrder | src/testbench/schedule.py:50-73 | accepted steps are kept in configuration order |
| Schedule.CheckedStepsError | src/testbench/schedule.py:50-73 | a rejected step list reports the error of one of its steps |
| Schedule.ParsedEntry | src/testbench/schedule.py:37-98 | a missing order or missing steps is reported; an entry is accepted exactly when every step and every cleanup step is |
| Schedule.ParsedEntryValue | src/testbench/schedule.py:50-102 | an accepted entry gives the task its order, its steps and its cleanup as checked, in configuration order, and keeps everything else |
| Schedule.UnparsedEntryUntouched | src/testbench/schedule.py:31-102 | a task is not changed before its own entry is processed |
| Schedule.ParsedSchedule | src/testbench/schedule.py:25-102 | no schedule leaves the tasks as they are; otherwise it succeeds exactly when every entry names a task and is accepted, and changes only the scheduled tasks |
| Schedule.NestedTableRejectsStep | src/testbench/schedule.py:59-62 | with the nested tool table every step is rejected |
| Schedule.BoundTasksNested | src/testbench/tasks.py:70-76 | the as-written task binder leaves every tool slot nested |
| Schedule.NestedEntryListsNothing | src/testbench/schedule.py:50-98 | on a nested task, only an entry with no steps and no cleanup is accepted |
| Schedule.AsBoundScheduleRunsNothing | src/testbench/schedule.py:59-62 | as written, a schedule that is accepted contains no step at all |
| Schedule.FlatTableAcceptsConfiguredStep | src/testbench/schedule.py:55-69 | with the corrected table, a step is accepted exactly when it names a configured tool type, its kept tool, and a function of that tool's class |
| Schedule.LowestFromIsLeast | src/testbench/schedule.py:104-114 | the scan keeps the least order at or above `min` seen so far |
| Schedule.LowestIsLeast | src/testbench/schedule.py:104-114 | the lowest order is none exactly when no task is at or above `min`, and otherwise is a task's order and at most every order at or above `min` |
| Schedule.AsWrittenSound | src/testbench/schedule.py:104-114 | as written, the result is still none exactly when no order qualifies, and is an order at or above `min` |
| Schedule.AsWrittenAgrees | src/testbench/schedule.py:111 | as written and corrected agree whenever order 0 cannot be met |
| Schedule.ZeroOrderSkipped | src/testbench/schedule.py:111 | as written, tasks of order 0 and 1 make `__get_lowest(0)` return 1, skipping order 0 |
| Schedule.GroupMembers | src/testbench/schedule.py:116-123 | the group of an order holds exactly the tasks of that order, in table order and unchanged |
| Schedule.GroupNeverEmpty | src/testbench/schedule.py:138-145 | the group of the lowest order is never empty, so the retry loop never runs |
| Schedule.RunTask | src/testbench/schedule.py:168-200 | the step loops record the events `RunEvents` defines |
| Schedule.RunMain | src/testbench/schedule.py:171-185 | the main-step loop records the events `MainEvents` defines |
| Schedule.RunCleanup | src/testbench/schedule.py:187-200 | the cleanup loop records the events `CleanupEvents` defines |
| Schedule.MainStopsAtFirstFailure | src/testbench/schedule.py:171-185 | main steps run in order, every one but the last succeeded, and they stop early only after a failure |
| Schedule.CleanupRunsEveryStep | src/testbench/schedule.py:187-200 | every cleanup step runs, in order, whatever fails |
| Schedule.RunGroup | src/testbench/schedule.py:149-164 | the tasks of a group run one after the other in table order |
| Schedule.AdvanceCursor | src/testbench/schedule.py:135-136 | moving the cursor keeps it the lowest order not yet run, strictly increases it, and shrinks the set of pending tasks |
| Schedule.GroupAtCursor | src/testbench/schedule.py:138-145 | the group of a valid cursor's order is a non-empty table |
| Schedule.CursorDone | src/testbench/schedule.py:125-126 | the cursor is none exactly when every task with an order of 0 or more has run |
| Schedule.FirstUnordered | src/testbench/schedule.py:104-108 | finds the first task without an order, which `__get_lowest` cannot read, or reports that every task has one |
| Schedule.Scheduler.Init | src/testbench/schedule.py:8-23 | a new scheduler has an empty log and its cursor at the lowest order from 0 |
| Schedule.Scheduler.Create | src/testbench/schedule.py:8-23 | a schedule error is reported as is; a task left without an order is an error; otherwise the scheduler holds the parsed tasks with the cursor at the lowest order |
| Schedule.Scheduler.GetLowest | src/testbench/schedule.py:104-114 | the loop computes the corrected `Lowest` |
| Schedule.Scheduler.GetTasks | src/testbench/schedule.py:116-123 | the loop computes the group of the order |
| Schedule.Scheduler.IsDone | src/testbench/schedule.py:125-126 | done exactly when every task with an order of 0 or more has run |
| Schedule.Scheduler.Advance | src/testbench/schedule.py:135-136 | moving the cursor to the next lowest order keeps the scheduler valid, records the order as run, appends the group's events and shrinks the pending set |
| Schedule.Scheduler.SetTasks | src/testbench/testbench.py:90-94 | the schedule shares the testbench's task table: a table with the same names and orders keeps the cursor valid |
| Schedule.Scheduler.Iterate | src/testbench/schedule.py:128-166 | returns the old cursor; when there is one it runs that order's non-empty group, logs its events, records the order as run, moves the cursor past it, and the pending set shrinks |
| Testbench.Index | src/testbench/testbench.py:100-114 | indexing succeeds exactly on a mapping holding the key and returns its value; the missing-key error arises where Python's `in` is false |
| Testbench.Get | src/testbench/testbench.py:100-114 | `__get` walks the configuration along the `/`-separated segments of the key |
| Testbench.WalkAppend | src/testbench/testbench.py:106-114 | walking a path in two parts is walking the first part and then the second |
| Testbench.GetFollowsSegments | src/testbench/testbench.py:100-114 | looking up the joined segments walks exactly those segments |
| Testbench.ReplaceEnv | src/testbench/testbench.py:127-138 | the recursive replacement computes `Substituted` |
| Testbench.SubstitutionKeepsShape | src/testbench/testbench.py:127-138 | replacement keeps every mapping's keys, every list's length and every non-string leaf |
| Testbench.NoPlaceholderUnchanged | src/testbench/testbench.py:134-136 | a string without `<` is unchanged |
| Testbench.NoPlaceholderTreeUnchanged | src/testbench/testbench.py:127-138 | a configuration without `<` in any string is unchanged |
| Testbench.ReplaceAtOpen | src/testbench/testbench.py:136 | `str.replace` of a pattern that opens at the string's only `<` replaces exactly that occurrence |
| Testbench.OtherPlaceholderAbsent | src/testbench/testbench.py:136 | the placeholder of a key with a different lower-cased form does not occur around another key's placeholder (keys without angle brackets) |
| Testbench.AbsentEntriesSkipped | src/testbench/testbench.py:135-136 | variables whose placeholders do not occur leave the string unchanged |
| Testbench.PlaceholderReplaced | src/testbench/testbench.py:135-136 | in any environment, a string whose only `<` opens the placeholder `<key>` (the key lower-cased) gets that variable's value in its place, when no earlier key lower-cases to the same placeholder, keys hold no `>` and the value no `<` |
| Testbench.EnvFileLines | src/testbench/testbench.py:122-125 | `.env` has one `key=value` line per variable, in order |
| Testbench.ToolsRootAsWritten | src/testbench/testbench.py:72-75 | as written, a tools root read from the configuration is refused |
| Testbench.RegistryRoot | src/testbench/testbench.py:72-80 | the corrected root is accepted exactly when the section is a string, and is that string |
| Testbench.StringToolsRootRefused | src/testbench/tools.py:13-15 | a string root is refused as written and accepted as corrected |
| Testbench.DistinctTypes | src/testbench/testbench.py:168 | the set of step types: distinct, and exactly the types of the steps |
| Testbench.NeededToolTypes | src/testbench/testbench.py:168 | the corrected needed types cover every main and cleanup step |
| Testbench.CleanupOnlyTypeLeftUnbound | src/testbench/testbench.py:168 | as written, a type used only by cleanup is not instantiated and its cleanup call cannot succeed; the corrected set includes it |
| Testbench.OpenEntry | src/testbench/testbench.py:159-165 | opening one file instantiates a session as `Open` computes, with the declared configs and name |
| Testbench.InstantiateFiles | src/testbench/testbench.py:154-165 | the loop opens every declared file in order, stops at the first failure, keeps the table's keys, and on success every slot holds a session for its declaration |
| Testbench.MissingFuncFinds | src/testbench/testbench.py:181-187 | finds a step function the tool does not have, exactly when one exists |
| Testbench.ToolsErrorNone | src/testbench/testbench.py:169-187 | tool instantiation fails exactly when a needed type is not configured, its tool is not registered, or a matching step's function is missing |
| Testbench.BindSteps | src/testbench/testbench.py:181-187 | every step of this type and tool is bound to the instance, the others are untouched, and a missing function is reported |
| Testbench.MakeTool | src/testbench/testbench.py:175-179 | the tool is instantiated with the task, its params and the environment, and creates only its output directory |
| Testbench.InstantiateTools | src/testbench/testbench.py:167-187 | instantiates each needed type's tool, creating only their output directories; untouched types keep their configuration; on success every matching main step can be called |
| Testbench.ReadyStepsCallable | src/testbench/testbench.py:181-187 | after initialization each matching step is bound to its type's tool and can be called; the others are unchanged |
| Testbench.InitializeTask | src/testbench/testbench.py:147-187 | initializing one task opens its files and tools as `TaskInit` computes; on success the task is ready |
| Testbench.InitializeTable | src/testbench/testbench.py:144-191 | tasks are initialized in table order until the first failure; keys and orders are kept; on success every task is ready |
| Testbench.ReleaseTaskFiles | src/testbench/testbench.py:199-202 | deleting a task's files restores every session's backup in order |
| Testbench.ReleaseTable | src/testbench/testbench.py:196-202 | releasing every task restores all sessions in table order and leaves each task without sessions |
| Testbench.DelGuardNeverHolds | src/testbench/testbench.py:197 | the attribute `__tasks` is stored under its mangled name, so `hasattr(self, "__tasks")` never holds |
| Testbench.ParsedTasksAsBound | src/testbench/testbench.py:82-87 | every task the corrected binder produces has valid tool and file tables and declared files |
| Testbench.TasksStep | src/testbench/testbench.py:82-87 | a missing `tasks` section is an error; bound tasks have valid tables and declared files |
| Testbench.ScheduledTasksAsBound | src/testbench/testbench.py:89-96 | parsing the schedule keeps the tasks' tables and files as bound |
| Testbench.ScheduleStep | src/testbench/testbench.py:89-96 | a missing `schedule` section is an error; otherwise the scheduled tasks keep their keys and every one has an order |
| Testbench.Assemble | src/testbench/testbench.py:82-96 | after the task and schedule steps every task is ordered and bound |
| Testbench.Setup | src/testbench/testbench.py:66-96 | a successful setup leaves every task ordered and bound |
| Testbench.LoadRegistries | src/testbench/testbench.py:72-80 | looks both roots up and discovers both registries as `Registries` computes |
| Testbench.BindTaskTable | src/testbench/testbench.py:82-87 | looks `tasks` up and binds the tasks as `TasksStep` computes |
| Testbench.Testbench.Create | src/testbench/testbench.py:19-96 | writes `.env` and nothing else; any setup error is reported; otherwise the new testbench holds the registries and the scheduled tasks, with the cursor at the lowest order and an empty log |
| Testbench.Testbench.Build | src/testbench/testbench.py:71-96 | after `.env` is written and the environment substituted: any setup error is reported; otherwise a fresh testbench holds the registries and the scheduled tasks, with the cursor at the lowest order and an empty log |
| Testbench.Testbench.InitializeTasks | src/testbench/testbench.py:144-191 | the files change as `InitFrom` computes; the schedule's cursor and log are kept; on success every task is ready |
| Testbench.Testbench.Iterate | src/testbench/testbench.py:204-205 | forwards to the schedule: runs the cursor's group, records it as run, and shrinks the pending set |
| Testbench.Testbench.IsDone | src/testbench/testbench.py:207-208 | done exactly when every task with an order of 0 or more has run |
| Testbench.Testbench.ReleaseFiles | src/testbench/testbench.py:196-202 | restores every session's backup, drops every session, and keeps the schedule's cursor and log |

## Left out

- Threads: a group of several tasks runs its tasks one after the other, in table order (`Schedule.RunGroup`). Interleaving is not modelled.
- Set iteration order: the set of needed tool types is iterated in order of first appearance.
- Subprocesses: a command's output text and exit code are parameters of `ToolRuntime.Tool.RunCommand`, and the outcome of each step call is a parameter (`Outcomes`). How long a process runs is a parameter of the wait (`ToolRuntime.Communicate`); the kill itself is not modelled beyond the output written up to it.
- Writing in text mode (`"w"`) is modelled as on POSIX, where `\n` is written unchanged. The translation of `\n` on Windows is not modelled.
- Writes, copies and moves do not check that the parent directory exists: `Fs.FileSystem.dirs` is never consulted by them. The audit copies follow the `mkdir` the source makes first.
- The current time is a parameter of the capture header.
- Logging is not modelled.
- Plugin modules are not imported. A `Loader` parameter gives the classes each `.py` file defines, and each class's own members.
- The configuration loader is not part of this model: YAML parsing, `!inc` includes, and dotenv parsing, including variables with no value. The configuration is a `Value` tree and the environment is a `Dict`.
- Decoding the typed `tasks` and `schedule` sections is not modelled. The binder and the schedule take them as inputs. The lookups of those sections are still modelled.
- A `null` steps or cleanup value in a schedule entry is not modelled.
- The creation of the timestamped output directory and the copies of the configuration and its includes (src/testbench/testbench.py:29-64) are not modelled. The output directory is a parameter.
- `pathlib` normalisation and `resolve()`/`absolute()` are not modelled. A path is made absolute by joining it to a given working directory, and the set of existing paths is a parameter.
- `str.lower` is modelled on ASCII letters only.
- Garbage collection is not modelled. Teardown is explicit (`Testbench.Testbench.ReleaseFiles`, `FileSession.Session.Teardown`).
- Plugin classes are assumed to keep the type and name under which they are registered.
- Where a plugin locates its file (`get_from_dir`) is given per file as a parameter.
- Mutating the configuration in place is modelled as computing a new value.
- A tool holds a snapshot of its task's file table (`taskFiles`), not a reference to the live task.
- The requirement that a task's tool table be non-empty is not modelled, because the source accepts an empty table.
- A tool literally named `name` in a nested slot is not modelled. It would make Python's `["name"]` read find that tool.
- The getters `get_tasks`, `get_output_dir` and the registries' `get` are the objects' fields.
- Testbench.Testbench.InitializeTasks: after a failure, the partial state is stated only as each task being touched, not as which tasks were initialized.
- Testbench.Testbench.InitializeTasks: callability is stated only for main steps whose tool is the configured one. Cleanup steps are not stated.
- Schedule.Scheduler.Init: places the cursor with the corrected `Lowest`, not with the `not lowest` test as written (see "## Findings").
- Schedule.Scheduler.Create: places the cursor with the corrected `Lowest`, not with the `not lowest` test as written (see "## Findings").
- Testbench.Setup: wraps the tools root in a path (`RegistryRoot`) and binds one tool per type (`ParseTasksFlat`), the corrected versions named under "## Findings".
- Testbench.Testbench.Create: composes `Setup`, so it uses the corrected tools root and flat tool binding named under "## Findings".
- Testbench.Testbench.Build: composes `Setup`, so it uses the corrected tools root and flat tool binding named under "## Findings".
- Testbench.InitializeTask: instantiates the tool types of cleanup steps as well (the corrected `NeededToolTypes` under "## Findings").
- Testbench.InitializeTable: composes `InitializeTask`, so it uses the corrected `NeededToolTypes` named under "## Findings".
- Testbench.Testbench.InitializeTasks: composes `InitializeTable`, so it uses the corrected `NeededToolTypes` named under "## Findings".
- Testbench.Testbench.Iterate: returns the order that ran, whereas the source's `iterate` drops it.

## Findings

| source | as written | input that shows it | evidently intended | confidence | as-written member | corrected member |
|---|---|---|---|---|---|---|
| src/testbench/schedule.py:111 | `not lowest` treats an order of 0 as unset | tasks with orders 0, 0 and 1: `__get_lowest(0)` returns 1 and the order-0 tasks never run | `lowest is None or task_order < lowest` | high, not executed | Schedule.LowestAsWritten, Schedule.ZeroOrderSkipped, Schedule.AsWrittenAgrees | Schedule.Lowest, Schedule.LowestIsLeast, Schedule.Scheduler.GetLowest |
| src/testbench/schedule.py:59 | the binder stores a type's tools as a table by name (src/testbench/tasks.py:70-76), but the schedule reads `task["tools"][type]["name"]` | task tools `build: {gcc: ~}` with a step `build;gcc`: the read finds no `name` and the schedule is rejected; only schedules without steps are accepted | one `{name, params}` per tool type, as the schedule and src/testbench/testbench.py:175-176 read it | high, not executed | Schedule.NestedTableRejectsStep, Schedule.AsBoundScheduleRunsNothing | Tasks.BoundTaskFlat, Tasks.ParsedTasksFlat, Schedule.FlatTableAcceptsConfiguredStep |
| src/testbench/testbench.py:168 | only the types of main steps are instantiated | a cleanup step `sim;x` with no main step of type `sim`: the cleanup call runs on an uninstantiated tool and fails | include cleanup step types | medium, not executed | Testbench.NeededToolTypesAsWritten, Testbench.CleanupOnlyTypeLeftUnbound | Testbench.NeededToolTypes |
| src/testbench/tool.py:65 | `result.communicate()` is called without a timeout, so the `TimeoutExpired` handler at src/testbench/tool.py:71-75 never runs | any command that never exits: `run_command` blocks forever instead of failing as timed out | pass a timeout to `communicate()`, so a command that outlives it is killed and fails as timed out | medium, not executed | ToolRuntime.CommunicateAsWritten, ToolRuntime.TimeoutHandlerUnreachable | ToolRuntime.Communicate, ToolRuntime.TimeoutReported, ToolRuntime.Tool.RunCommand |
| src/testbench/testbench.py:197 | `hasattr(self, "__tasks")` tests the unmangled name, but the attribute is stored as `_Testbench__tasks` | any testbench: the guard is false, so `__del__` never releases the files | test the stored attribute and release every file | high, not executed | Testbench.DelGuardAsWritten, Testbench.DelGuardNeverHolds | Testbench.Testbench.ReleaseFiles, Testbench.ReleaseTable |
| src/testbench/testbench.py:73 | the tools root from the configuration, a string, is passed to `TestbenchTools`, which calls `.is_dir()` on it (src/testbench/tools.py:13-15) | `registry: {tools: "plugins/tools"}`: the call fails and setup reports an error setting up tools | wrap the root in `Path` as `TestbenchFiles` does | high, not executed | Testbench.ToolsRootAsWritten, Testbench.StringToolsRootRefused | Testbench.RegistryRoot, Testbench.LoadRegistries |
