/**
 * The file session of `File` (file.py): back the live file up, let the
 * plugin's `parse()` describe line-scoped replacements, rewrite the live
 * file, leave audit copies in the task's output directory, and move the
 * backup back over the live file at teardown.
 */
module FileSession {
  import opened Common
  import opened Fs

  /**
   * What `parse()` leaves in `self.replacements`: for each search key, in
   * dict order, the list of (0-based line index, replacement value) pairs.
   */
  type Replacements = Dict<string, seq<(int, string)>>

  // ---------------------------------------------------------------------
  // Line-scoped replacement (`__replace`)
  // ---------------------------------------------------------------------

  /** One key's pairs, applied in list order to the line with index `i`. */
  function ApplyPairs(line: string, i: int, key: string, pairs: seq<(int, string)>): string
    decreases |pairs|
  {
    if pairs == [] then line
    else
      var before := ApplyPairs(line, i, key, pairs[..|pairs| - 1]);
      var last := pairs[|pairs| - 1];
      if i == last.0 then Replace(before, Strip(key), Strip(last.1)) else before
  }

  /** The keys `ks`, in order, applied to the line with index `i`. */
  function PatchLine(line: string, i: int, repl: Replacements, ks: seq<string>): string
    requires forall k :: k in ks ==> k in repl.items
    decreases |ks|
  {
    if ks == [] then line
    else
      var k := ks[|ks| - 1];
      ApplyPairs(PatchLine(line, i, repl, ks[..|ks| - 1]), i, k, repl.items[k])
  }

  /** The lines `__replace` writes back for the lines it read. */
  function Patched(src: seq<string>, repl: Replacements): (r: seq<string>)
    requires repl.Valid()
    ensures |r| == |src|
  {
    seq(|src|, j requires 0 <= j < |src| => PatchLine(src[j], j, repl, repl.keys))
  }

  /**
   * The loop of `__replace`: every line read is rebound once per matching
   * (key, pair) and appended to the output.
   */
  method ReplaceLines(src: seq<string>, repl: Replacements) returns (lines: seq<string>)
    requires repl.Valid()
    ensures lines == Patched(src, repl)
  {
    lines := [];
    var i := 0;
    while i < |src|
      invariant 0 <= i <= |src|
      invariant |lines| == i
      invariant forall j :: 0 <= j < i ==> lines[j] == PatchLine(src[j], j, repl, repl.keys)
    {
      var line := src[i];
      var a := 0;
      while a < |repl.keys|
        invariant 0 <= a <= |repl.keys|
        invariant line == PatchLine(src[i], i, repl, repl.keys[..a])
      {
        var key := repl.keys[a];
        var pairs := repl.items[key];
        ghost var start := line;
        var b := 0;
        while b < |pairs|
          invariant 0 <= b <= |pairs|
          invariant line == ApplyPairs(start, i, key, pairs[..b])
        {
          var (lineNum, value) := pairs[b];
          assert pairs[..b + 1][..b] == pairs[..b];
          if i == lineNum {
            line := Replace(line, Strip(key), Strip(value));
          }
          b := b + 1;
        }
        assert pairs[..b] == pairs;
        assert repl.keys[..a + 1][..a] == repl.keys[..a];
        a := a + 1;
      }
      assert repl.keys[..a] == repl.keys;
      lines := lines + [line];
      i := i + 1;
    }
  }

  /** Some pair of some key designates line index `j`. */
  ghost predicate Designates(repl: Replacements, j: int) {
    exists k, n :: k in repl.items && 0 <= n < |repl.items[k]| && repl.items[k][n].0 == j
  }

  lemma {:induction false} ApplyPairsElsewhere(line: string, i: int, key: string, pairs: seq<(int, string)>)
    requires forall n :: 0 <= n < |pairs| ==> pairs[n].0 != i
    ensures ApplyPairs(line, i, key, pairs) == line
    decreases |pairs|
  {
    if pairs != [] {
      ApplyPairsElsewhere(line, i, key, pairs[..|pairs| - 1]);
    }
  }

  lemma {:induction false} PatchLineElsewhere(line: string, i: int, repl: Replacements, ks: seq<string>)
    requires forall k :: k in ks ==> k in repl.items
    requires !Designates(repl, i)
    ensures PatchLine(line, i, repl, ks) == line
    decreases |ks|
  {
    if ks != [] {
      var k := ks[|ks| - 1];
      PatchLineElsewhere(line, i, repl, ks[..|ks| - 1]);
      ApplyPairsElsewhere(line, i, k, repl.items[k]);
    }
  }

  /** A line whose index no pair designates is written back unchanged. */
  lemma UndesignatedLineUnchanged(src: seq<string>, repl: Replacements, j: int)
    requires repl.Valid() && 0 <= j < |src| && !Designates(repl, j)
    ensures Patched(src, repl)[j] == src[j]
  {
    PatchLineElsewhere(src[j], j, repl, repl.keys);
  }

  /** The pairs of a list that designate line index `i`, in order. */
  function OnLine(pairs: seq<(int, string)>, i: int): (r: seq<(int, string)>)
    decreases |pairs|
  {
    if pairs == [] then []
    else
      var rest := OnLine(pairs[..|pairs| - 1], i);
      if pairs[|pairs| - 1].0 == i then rest + [pairs[|pairs| - 1]] else rest
  }

  /** The pairs of a list whose line index lies inside a file of `n` lines. */
  function InRange(pairs: seq<(int, string)>, n: int): (r: seq<(int, string)>)
    decreases |pairs|
  {
    if pairs == [] then []
    else
      var rest := InRange(pairs[..|pairs| - 1], n);
      if 0 <= pairs[|pairs| - 1].0 < n then rest + [pairs[|pairs| - 1]] else rest
  }

  /** Only the pairs designating a line matter for that line. */
  lemma {:induction false} ApplyPairsOnLine(line: string, i: int, key: string, pairs: seq<(int, string)>)
    ensures ApplyPairs(line, i, key, pairs) == ApplyPairs(line, i, key, OnLine(pairs, i))
    decreases |pairs|
  {
    if pairs != [] {
      var init := pairs[..|pairs| - 1];
      ApplyPairsOnLine(line, i, key, init);
      var rest := OnLine(init, i);
      if pairs[|pairs| - 1].0 == i {
        assert (rest + [pairs[|pairs| - 1]])[..|rest|] == rest;
      }
    }
  }

  lemma {:induction false} OnLineInRange(pairs: seq<(int, string)>, i: int, n: int)
    requires 0 <= i < n
    ensures OnLine(InRange(pairs, n), i) == OnLine(pairs, i)
    decreases |pairs|
  {
    if pairs != [] {
      var init := pairs[..|pairs| - 1];
      OnLineInRange(init, i, n);
      var last := pairs[|pairs| - 1];
      var r := InRange(init, n);
      if 0 <= last.0 < n {
        assert (r + [last])[..|r|] == r;
      }
    }
  }

  /** Every key's pair list with the designations outside `[0, n)` dropped. */
  function DropOutOfRange(repl: Replacements, n: int): (r: Replacements)
    requires repl.Valid()
    ensures r.Valid() && r.keys == repl.keys
  {
    Dict(repl.keys, map k | k in repl.items :: InRange(repl.items[k], n))
  }

  lemma {:induction false} PatchLineInRange(line: string, i: int, repl: Replacements, ks: seq<string>, n: int)
    requires repl.Valid() && 0 <= i < n
    requires forall k :: k in ks ==> k in repl.items
    ensures PatchLine(line, i, repl, ks) == PatchLine(line, i, DropOutOfRange(repl, n), ks)
    decreases |ks|
  {
    if ks != [] {
      var k := ks[|ks| - 1];
      var d := DropOutOfRange(repl, n);
      PatchLineInRange(line, i, repl, ks[..|ks| - 1], n);
      var before := PatchLine(line, i, repl, ks[..|ks| - 1]);
      ApplyPairsOnLine(before, i, k, repl.items[k]);
      ApplyPairsOnLine(before, i, k, d.items[k]);
      OnLineInRange(repl.items[k], i, n);
    }
  }

  /** Designated line indices outside the file have no effect on what is written. */
  lemma OutOfRangeIgnored(src: seq<string>, repl: Replacements)
    requires repl.Valid()
    ensures Patched(src, repl) == Patched(src, DropOutOfRange(repl, |src|))
  {
    var d := DropOutOfRange(repl, |src|);
    forall j | 0 <= j < |src|
      ensures Patched(src, repl)[j] == Patched(src, d)[j]
    {
      PatchLineInRange(src[j], j, repl, repl.keys, |src|);
    }
  }

  lemma {:induction false} PatchLineSingle(line: string, i: int, repl: Replacements, ks: seq<string>, key: string, v: string)
    requires forall k :: k in ks ==> k in repl.items
    requires forall a, b :: 0 <= a < b < |ks| ==> ks[a] != ks[b]
    requires key in repl.items && OnLine(repl.items[key], i) == [(i, v)]
    requires forall k :: k in repl.items && k != key ==> OnLine(repl.items[k], i) == []
    ensures PatchLine(line, i, repl, ks) == if key in ks then Replace(line, Strip(key), Strip(v)) else line
    decreases |ks|
  {
    if ks != [] {
      var init := ks[..|ks| - 1];
      var k := ks[|ks| - 1];
      PatchLineSingle(line, i, repl, init, key, v);
      var before := PatchLine(line, i, repl, init);
      ApplyPairsOnLine(before, i, k, repl.items[k]);
      if k == key {
        assert key !in init;
        assert ApplyPairs(before, i, k, [(i, v)]) == Replace(before, Strip(key), Strip(v)) by {
          assert [(i, v)][..0] == [];
        }
      } else {
        assert key in ks <==> key in init;
      }
    }
  }

  /**
   * When exactly one pair designates a line, every occurrence of the
   * stripped key on that line is replaced by the stripped value.
   */
  lemma DesignatedLineReplaced(src: seq<string>, repl: Replacements, j: int, key: string, v: string)
    requires repl.Valid() && 0 <= j < |src|
    requires key in repl.items && OnLine(repl.items[key], j) == [(j, v)]
    requires forall k :: k in repl.items && k != key ==> OnLine(repl.items[k], j) == []
    ensures Patched(src, repl)[j] == Replace(src[j], Strip(key), Strip(v))
  {
    PatchLineSingle(src[j], j, repl, repl.keys, key, v);
  }

  /** `line.replace(key.strip(), value.strip())` for each `(key, value)` in turn. */
  function ApplyAll(line: string, ds: seq<(string, string)>): string
    decreases |ds|
  {
    if ds == [] then line
    else
      var last := ds[|ds| - 1];
      Replace(ApplyAll(line, ds[..|ds| - 1]), Strip(last.0), Strip(last.1))
  }

  /** One key's pairs designating line index `i`, as `(key, value)` in list order. */
  function KeyedValues(key: string, pairs: seq<(int, string)>, i: int): (ds: seq<(string, string)>)
    decreases |pairs|
  {
    if pairs == [] then []
    else
      var last := pairs[|pairs| - 1];
      KeyedValues(key, pairs[..|pairs| - 1], i) + if last.0 == i then [(key, last.1)] else []
  }

  /** Every pair designating line index `i`, in key order and then in list order. */
  function Designations(repl: Replacements, ks: seq<string>, i: int): seq<(string, string)>
    requires forall k :: k in ks ==> k in repl.items
    decreases |ks|
  {
    if ks == [] then []
    else
      var k := ks[|ks| - 1];
      Designations(repl, ks[..|ks| - 1], i) + KeyedValues(k, repl.items[k], i)
  }

  lemma {:induction false} ApplyAllConcat(line: string, d1: seq<(string, string)>, d2: seq<(string, string)>)
    ensures ApplyAll(line, d1 + d2) == ApplyAll(ApplyAll(line, d1), d2)
    decreases |d2|
  {
    if d2 == [] {
      assert d1 + d2 == d1;
    } else {
      assert (d1 + d2)[..|d1 + d2| - 1] == d1 + d2[..|d2| - 1];
      ApplyAllConcat(line, d1, d2[..|d2| - 1]);
    }
  }

  lemma {:induction false} ApplyPairsAsAll(line: string, i: int, key: string, pairs: seq<(int, string)>)
    ensures ApplyPairs(line, i, key, pairs) == ApplyAll(line, KeyedValues(key, pairs, i))
    decreases |pairs|
  {
    if pairs != [] {
      var init := pairs[..|pairs| - 1];
      var last := pairs[|pairs| - 1];
      ApplyPairsAsAll(line, i, key, init);
      var ds := KeyedValues(key, init, i);
      if last.0 == i {
        assert (ds + [(key, last.1)])[..|ds|] == ds;
      } else {
        assert ds + [] == ds;
      }
    }
  }

  lemma {:induction false} PatchLineAsAll(line: string, i: int, repl: Replacements, ks: seq<string>)
    requires forall k :: k in ks ==> k in repl.items
    ensures PatchLine(line, i, repl, ks) == ApplyAll(line, Designations(repl, ks, i))
    decreases |ks|
  {
    if ks != [] {
      var k := ks[|ks| - 1];
      PatchLineAsAll(line, i, repl, ks[..|ks| - 1]);
      ApplyPairsAsAll(PatchLine(line, i, repl, ks[..|ks| - 1]), i, k, repl.items[k]);
      ApplyAllConcat(line, Designations(repl, ks[..|ks| - 1], i), KeyedValues(k, repl.items[k], i));
    }
  }

  /**
   * Every line is written back with each pair designating it applied as
   * `line.replace(key.strip(), value.strip())`, keys in dict order and each
   * key's pairs in list order.
   */
  lemma DesignatedLineApplied(src: seq<string>, repl: Replacements, j: int)
    requires repl.Valid() && 0 <= j < |src|
    ensures Patched(src, repl)[j] == ApplyAll(src[j], Designations(repl, repl.keys, j))
  {
    PatchLineAsAll(src[j], j, repl, repl.keys);
  }

  lemma {:induction false} KeyedValuesMembers(key: string, pairs: seq<(int, string)>, i: int, k: string, v: string)
    ensures (k, v) in KeyedValues(key, pairs, i) <==> k == key && (i, v) in pairs
    decreases |pairs|
  {
    if pairs != [] {
      var init := pairs[..|pairs| - 1];
      KeyedValuesMembers(key, init, i, k, v);
      assert pairs == init + [pairs[|pairs| - 1]];
    }
  }

  /** The designations of a line are exactly the `(key, value)` of the pairs naming that line. */
  lemma {:induction false} DesignationsListed(repl: Replacements, ks: seq<string>, i: int, k: string, v: string)
    requires forall k :: k in ks ==> k in repl.items
    ensures (k, v) in Designations(repl, ks, i) <==> k in ks && (i, v) in repl.items[k]
    decreases |ks|
  {
    if ks != [] {
      var init := ks[..|ks| - 1];
      var last := ks[|ks| - 1];
      DesignationsListed(repl, init, i, k, v);
      KeyedValuesMembers(last, repl.items[last], i, k, v);
      assert ks == init + [last];
    }
  }

  /**
   * With no replacements the live file is rewritten with its own content,
   * its newlines translated by the text-mode read; a file without `\r`
   * comes back unchanged.
   */
  lemma NoReplacementsNoChange(text: string)
    ensures Concat(Patched(ReadLines(text), EmptyDict())) == Universal(text)
    ensures '\r' !in text ==> Concat(Patched(ReadLines(text), EmptyDict())) == text
  {
    if '\r' !in text {
      UniversalKeepsPlainText(text);
    }
    var src := ReadLines(text);
    forall j | 0 <= j < |src|
      ensures Patched(src, EmptyDict())[j] == src[j]
    {
      UndesignatedLineUnchanged(src, EmptyDict(), j);
    }
    assert Patched(src, EmptyDict()) == src;
  }

  // ---------------------------------------------------------------------
  // The session lifecycle as a function of the filesystem
  // ---------------------------------------------------------------------

  datatype ParseError = NotImplemented | PluginRaised

  /**
   * The `parse()` hook: the base class raises `NotImplementedError`; a
   * plugin either fills in the replacements or raises.
   */
  datatype Parser = BaseParser | PluginParser(result: Option<Replacements>)

  ghost predicate ParserValid(p: Parser) {
    p.PluginParser? && p.result.Some? ==> p.result.value.Valid()
  }

  function Parse(p: Parser): (r: Result<Replacements, ParseError>)
    requires ParserValid(p)
    ensures p.BaseParser? ==> r == Err(NotImplemented)
    ensures r.Ok? ==> r.value.Valid()
  {
    match p
    case BaseParser => Err(NotImplemented)
    case PluginParser(res) => if res.Some? then Ok(res.value) else Err(PluginRaised)
  }

  /** How far construction got. */
  datatype Phase =
    | NoName                  // `with_suffix` refused a path without a name
    | BackupFailed(e: FsError)
    | ParseFailed(p: ParseError)
    | AuditFailed(e: FsError)
    | Ready

  datatype Opened = Opened(files: map<Path, string>, dirs: set<Path>, phase: Phase, replacements: Replacements)

  function BackupOf(file: Path): Option<Path> {
    WithSuffix(file, ".bak")
  }

  /** `output_dir / "files"` */
  function AuditDir(taskOutput: Path): Path {
    Join(taskOutput, "files")
  }

  /** The filesystem, directories and phase after `File.__init__` on `file`. */
  function Open(files: map<Path, string>, dirs: set<Path>, file: Path, parser: Parser, taskOutput: Path): Opened
    requires ParserValid(parser)
  {
    match BackupOf(file)
    case None => Opened(files, dirs, NoName, EmptyDict())
    case Some(backup) =>
      match CopyFile(files, file, backup)
      case Err(e) => Opened(files, dirs, BackupFailed(e), EmptyDict())
      case Ok(f1) =>
        match Parse(parser)
        case Err(p) => Opened(f1, dirs, ParseFailed(p), EmptyDict())
        case Ok(repl) => AuditCopies(f1[file := Concat(Patched(ReadLines(f1[file]), repl))], dirs, file, backup, repl, AuditDir(taskOutput))
  }

  /** The end of `File.__init__`: the audit directory, then copies of the rewritten file and of its backup into it. */
  function AuditCopies(files: map<Path, string>, dirs: set<Path>, file: Path, backup: Path, repl: Replacements, out: Path): Opened {
    match CopyFile(files, file, Join(out, Name(file)))
    case Err(e) => Opened(files, dirs + {out}, AuditFailed(e), repl)
    case Ok(f3) =>
      match CopyFile(f3, backup, Join(out, Name(backup)))
      case Err(e) => Opened(f3, dirs + {out}, AuditFailed(e), repl)
      case Ok(f4) => Opened(f4, dirs + {out}, Ready, repl)
  }

  /** The filesystem after `__del__`: the backup moved over the live file, if there is one. */
  function Restore(files: map<Path, string>, backup: Option<Path>, file: Path): map<Path, string> {
    match backup
    case None => files
    case Some(backup) =>
      match MoveFile(files, backup, file)
      case Ok(f) => f
      case Err(_) => files
  }

  /** The audit copies never land on the live file or on its backup. */
  lemma {:induction false} AuditPathsApart(file: Path, taskOutput: Path)
    requires BackupOf(file).Some? && BackupOf(file).value != file
    ensures Join(AuditDir(taskOutput), Name(file)) != BackupOf(file).value
    ensures Join(AuditDir(taskOutput), Name(BackupOf(file).value)) != file
  {
    var backup := BackupOf(file).value;
    var out := AuditDir(taskOutput);
    assert Name(file) != [];
    assert '/' !in ".bak";
    NameWithSuffix(file, ".bak");
    assert Name(backup) != [] && '/' !in Name(backup);
    assert '/' !in Name(file) && '/' !in Name(backup);
    NameOfJoin(out, Name(file));
    NameOfJoin(out, Name(backup));
    if Name(file) == Name(backup) {
      SameDirSameName(file, backup);
    }
  }

  /**
   * Teardown after construction gives the live file its content from before
   * construction back, and leaves no backup behind, whatever step of the
   * construction failed.
   */
  lemma {:induction false} RestoreRoundTrip(files: map<Path, string>, dirs: set<Path>, file: Path, parser: Parser, taskOutput: Path)
    requires ParserValid(parser) && file in files
    ensures var after := Restore(Open(files, dirs, file, parser, taskOutput).files, BackupOf(file), file);
      && file in after && after[file] == files[file]
      && (BackupOf(file).Some? && BackupOf(file).value != file ==> BackupOf(file).value !in after)
  {
    var o := Open(files, dirs, file, parser, taskOutput);
    if BackupOf(file).Some? {
      var backup := BackupOf(file).value;
      if backup == file {
        assert o.files == files;
        assert (files - {file})[file := files[file]] == files;
      } else {
        OpenKeepsBackup(files, dirs, file, parser, taskOutput);
      }
    }
  }

  /** Whatever step of the construction failed after the backup, the backup holds the original content. */
  lemma OpenKeepsBackup(files: map<Path, string>, dirs: set<Path>, file: Path, parser: Parser, taskOutput: Path)
    requires ParserValid(parser) && file in files
    requires BackupOf(file).Some? && BackupOf(file).value != file
    ensures var o := Open(files, dirs, file, parser, taskOutput);
      BackupOf(file).value in o.files && o.files[BackupOf(file).value] == files[file]
  {
    var backup := BackupOf(file).value;
    var f1 := files[backup := files[file]];
    assert CopyFile(files, file, backup) == Ok(f1);
    match Parse(parser)
    case Err(_) =>
    case Ok(repl) =>
      var f2 := f1[file := Concat(Patched(ReadLines(f1[file]), repl))];
      var out := AuditDir(taskOutput);
      assert f2[backup] == files[file];
      AuditPathsApart(file, taskOutput);
      match CopyFile(f2, file, Join(out, Name(file)))
      case Err(_) =>
      case Ok(f3) =>
        assert f3[backup] == files[file];
  }

  // ---------------------------------------------------------------------
  // The session object
  // ---------------------------------------------------------------------

  /** A task's file entry: its configuration, or the session built from it. */
  datatype FileSlot = Declared(path: Path, configs: Value, name: Option<string>) | Instance(session: Session)

  class Session {
    const fs: FileSystem
    const file: Path
    const backup: Option<Path>
    const configs: Value
    const name: Option<string>
    const outputDir: Path
    var replacements: Replacements
    var phase: Phase

    /**
     * `File.__init__` with the located file (`get_from_dir`'s answer) and the
     * plugin's `parse()` behaviour given: backup, parse, rewrite, audit copies.
     */
    constructor (fs: FileSystem, located: Path, parser: Parser, configs: Value, taskOutput: Path, name: Option<string>)
      requires ParserValid(parser)
      modifies fs
      ensures this.fs == fs && file == located && backup == BackupOf(located)
      ensures this.configs == configs && this.name == name && outputDir == AuditDir(taskOutput)
      ensures var o := Open(old(fs.files), old(fs.dirs), located, parser, taskOutput);
        fs.files == o.files && fs.dirs == o.dirs && phase == o.phase && replacements == o.replacements
    {
      this.fs := fs;
      file := located;
      backup := BackupOf(located);
      this.configs := configs;
      this.name := name;
      outputDir := AuditDir(taskOutput);
      replacements := EmptyDict();
      phase := NoName;
      new;
      if backup.None? {
        return;
      }
      var r := fs.Copy(file, backup.value);
      if r.Fail? {
        phase := BackupFailed(r.error);
        return;
      }
      var parsed := Parse(parser);
      if parsed.Err? {
        phase := ParseFailed(parsed.error);
        return;
      }
      replacements := parsed.value;
      Rewrite();
      CopyForAudit();
    }

    /** The audit copies: make the audit directory, copy the live file and then its backup into it. */
    method CopyForAudit()
      requires backup.Some?
      modifies fs, this
      ensures var o := AuditCopies(old(fs.files), old(fs.dirs), file, backup.value, replacements, outputDir);
        fs.files == o.files && fs.dirs == o.dirs && phase == o.phase
      ensures replacements == old(replacements)
    {
      fs.MakeDirs(outputDir);
      var r := fs.Copy(file, Join(outputDir, Name(file)));
      if r.Fail? {
        phase := AuditFailed(r.error);
        return;
      }
      r := fs.Copy(backup.value, Join(outputDir, Name(backup.value)));
      if r.Fail? {
        phase := AuditFailed(r.error);
        return;
      }
      phase := Ready;
    }

    /** `__replace`: read the live file's lines, patch them, write them back. */
    method Rewrite()
      requires file in fs.files && replacements.Valid()
      modifies fs
      ensures fs.files == old(fs.files)[file := Concat(Patched(ReadLines(old(fs.files)[file]), replacements))]
      ensures fs.dirs == old(fs.dirs)
    {
      var lines := ReplaceLines(ReadLines(fs.files[file]), replacements);
      fs.Write(file, Concat(lines));
    }

    /** `__del__`, called explicitly: move the backup over the live file. */
    method Teardown() returns (restored: bool)
      modifies fs
      ensures fs.files == Restore(old(fs.files), backup, file) && fs.dirs == old(fs.dirs)
      ensures restored <==> backup.Some? && backup.value in old(fs.files)
    {
      if backup.None? {
        return false;
      }
      var r := fs.Move(backup.value, file);
      restored := r.Pass?;
    }
  }

  /**
   * A whole session, construction then teardown: the live file ends with
   * the content it had before.
   */
  method PatchAndRestore(fs: FileSystem, located: Path, parser: Parser, configs: Value, taskOutput: Path, name: Option<string>)
    returns (s: Session)
    requires ParserValid(parser) && located in fs.files
    modifies fs
    ensures located in fs.files && fs.files[located] == old(fs.files)[located]
    ensures s.backup.Some? && s.backup.value != located ==> s.backup.value !in fs.files
  {
    s := new Session(fs, located, parser, configs, taskOutput, name);
    var _ := s.Teardown();
    RestoreRoundTrip(old(fs.files), old(fs.dirs), located, parser, taskOutput);
  }
}
