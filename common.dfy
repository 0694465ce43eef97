/**
 * Python runtime values the testbench works with: optional values and
 * failures, insertion-ordered dictionaries, the string operations the
 * source calls (`str.replace`, `str.strip`, `str.split`, `str.lower`), the
 * YAML/JSON-like configuration tree, and what class introspection reports
 * about a loaded plugin module.
 */
module Common {

  datatype Option<+T> = None | Some(value: T)

  datatype Result<+T, +E> = Ok(value: T) | Err(error: E)

  /** The result of an action that returns nothing when it succeeds. */
  datatype Outcome<+E> = Pass | Fail(error: E)

  // ---------------------------------------------------------------------
  // Insertion-ordered dictionaries
  // ---------------------------------------------------------------------

  /**
   * A Python `dict`: `keys` is the iteration (insertion) order and `items`
   * the mapping. Assigning to an existing key keeps its position.
   */
  datatype Dict<K(==,!new), V> = Dict(keys: seq<K>, items: map<K, V>) {

    ghost predicate Valid() {
      && (forall i, j | 0 <= i < j < |keys| :: keys[i] != keys[j])
      && (forall k :: k in items <==> k in keys)
    }

    /** `d[k] = v` */
    function Put(k: K, v: V): (d: Dict<K, V>)
      ensures Valid() ==> d.Valid()
      ensures d.items == items[k := v]
      ensures k in items ==> d.keys == keys
      ensures k !in items ==> d.keys == keys + [k]
    {
      if k in items then Dict(keys, items[k := v]) else Dict(keys + [k], items[k := v])
    }
  }

  function EmptyDict<K(==,!new), V>(): (d: Dict<K, V>)
    ensures d.Valid() && d.keys == [] && d.items == map[]
  {
    Dict([], map[])
  }

  // ---------------------------------------------------------------------
  // Strings
  // ---------------------------------------------------------------------

  /** Python's `str.isspace` for one character. */
  predicate IsSpace(c: char) {
    var n := c as int;
    || (9 <= n <= 13) || (28 <= n <= 32) || n == 0x85 || n == 0xA0 || n == 0x1680
    || (0x2000 <= n <= 0x200A) || n == 0x2028 || n == 0x2029 || n == 0x202F
    || n == 0x205F || n == 0x3000
  }

  /** Every character of `s` is whitespace. */
  predicate AllSpace(s: string) {
    forall i :: 0 <= i < |s| ==> IsSpace(s[i])
  }

  function TrimStart(s: string): (r: string)
    ensures r == [] || !IsSpace(r[0])
    ensures |r| <= |s| && r == s[|s| - |r|..]
    ensures forall i :: 0 <= i < |s| - |r| ==> IsSpace(s[i])
    decreases |s|
  {
    if s != [] && IsSpace(s[0]) then TrimStart(s[1..]) else s
  }

  function TrimEnd(s: string): (r: string)
    ensures r == [] || !IsSpace(r[|r| - 1])
    ensures |r| <= |s| && r == s[..|r|]
    ensures forall i :: |r| <= i < |s| ==> IsSpace(s[i])
    decreases |s|
  {
    if s != [] && IsSpace(s[|s| - 1]) then TrimEnd(s[..|s| - 1]) else s
  }

  /** Python's `str.strip()`: leading and trailing whitespace removed. */
  function Strip(s: string): (r: string)
    ensures r == [] || (!IsSpace(r[0]) && !IsSpace(r[|r| - 1]))
    ensures exists a, b :: AllSpace(a) && AllSpace(b) && s == a + (r + b)
  {
    var t := TrimStart(s);
    var r := TrimEnd(t);
    var a, b := s[..|s| - |t|], t[|r|..];
    StripParts(s);
    assert AllSpace(a) && AllSpace(b) && s == a + (r + b);
    r
  }

  /** The characters `strip` removes surround what it keeps and are all whitespace. */
  lemma StripParts(s: string)
    ensures var t := TrimStart(s); var r := TrimEnd(t);
      && AllSpace(s[..|s| - |t|]) && AllSpace(t[|r|..])
      && s == s[..|s| - |t|] + (r + t[|r|..])
  {
    var t := TrimStart(s);
    var r := TrimEnd(t);
    TrimStartParts(s);
    TrimEndParts(t);
  }

  lemma TrimStartParts(s: string)
    ensures var t := TrimStart(s); AllSpace(s[..|s| - |t|]) && s == s[..|s| - |t|] + t
  {
    var t := TrimStart(s);
    assert s == s[..|s| - |t|] + s[|s| - |t|..];
  }

  lemma TrimEndParts(t: string)
    ensures var r := TrimEnd(t); AllSpace(t[|r|..]) && t == r + t[|r|..]
  {
    var r := TrimEnd(t);
    assert t == t[..|r|] + t[|r|..];
  }

  /** `s in t` for strings: `s` occurs in `t` as a contiguous block. */
  predicate Contains(t: string, s: string) {
    exists i :: 0 <= i <= |t| && OccursAt(t, s, i)
  }

  /** `s` occurs in `t` starting at position `i`. */
  predicate OccursAt(t: string, s: string, i: int) {
    0 <= i && i + |s| <= |t| && t[i..i + |s|] == s
  }

  /** `"abc".replace("", x)` inserts `x` before, between and after the characters. */
  function InsertEverywhere(s: string, rep: string): string
    decreases |s|
  {
    if s == [] then rep else rep + [s[0]] + InsertEverywhere(s[1..], rep)
  }

  /**
   * Python's `s.replace(pat, rep)`: every occurrence of `pat`, scanned left
   * to right without overlaps, is replaced by `rep`.
   */
  function Replace(s: string, pat: string, rep: string): string
    decreases |s|
  {
    if pat == [] then InsertEverywhere(s, rep)
    else if |s| < |pat| then s
    else if s[..|pat|] == pat then rep + Replace(s[|pat|..], pat, rep)
    else [s[0]] + Replace(s[1..], pat, rep)
  }

  /** A string in which the pattern does not occur is returned unchanged. */
  lemma {:induction false} ReplaceAbsent(s: string, pat: string, rep: string)
    requires pat != [] && !Contains(s, pat)
    ensures Replace(s, pat, rep) == s
    decreases |s|
  {
    if |s| >= |pat| {
      assert s[0..0 + |pat|] == s[..|pat|];
      assert !OccursAt(s, pat, 0);
      assert !Contains(s[1..], pat) by {
        forall i | OccursAt(s[1..], pat, i) ensures OccursAt(s, pat, i + 1) {
          assert s[i + 1..i + 1 + |pat|] == s[1..][i..i + |pat|];
        }
      }
      ReplaceAbsent(s[1..], pat, rep);
    }
  }

  /** Replacing a pattern by itself changes nothing. */
  lemma {:induction false} ReplaceBySelf(s: string, pat: string)
    ensures Replace(s, pat, pat) == s
    decreases |s|
  {
    if pat == [] {
      InsertEverywhereEmpty(s);
    } else if |s| < |pat| {
    } else if s[..|pat|] == pat {
      ReplaceBySelf(s[|pat|..], pat);
      assert s == s[..|pat|] + s[|pat|..];
    } else {
      ReplaceBySelf(s[1..], pat);
      assert s == [s[0]] + s[1..];
    }
  }

  lemma {:induction false} InsertEverywhereEmpty(s: string)
    ensures InsertEverywhere(s, []) == s
    decreases |s|
  {
    if s != [] {
      InsertEverywhereEmpty(s[1..]);
      assert s == [s[0]] + s[1..];
    }
  }

  /** ASCII part of Python's `str.lower()`. */
  function LowerChar(c: char): char {
    if 'A' <= c <= 'Z' then (c as int + 32) as char else c
  }

  function Lower(s: string): (r: string)
    ensures |r| == |s| && forall i :: 0 <= i < |s| ==> r[i] == LowerChar(s[i])
  {
    seq(|s|, i requires 0 <= i < |s| => LowerChar(s[i]))
  }

  /** The position of the first `c` in `s`. */
  function IndexOf(s: string, c: char): (i: nat)
    requires c in s
    ensures i < |s| && s[i] == c && c !in s[..i]
  {
    if s[0] == c then 0
    else
      var j := IndexOf(s[1..], c);
      assert s[1..][..j] == s[1..j + 1];
      assert s[..j + 1] == [s[0]] + s[1..j + 1];
      j + 1
  }

  /** The first `i + 1` elements are the first `i` and the `i`-th. */
  lemma PrefixGrows<T>(s: seq<T>, i: nat)
    requires i < |s|
    ensures forall x :: x in s[..i + 1] <==> x in s[..i] || x == s[i]
  {
    assert s[..i + 1] == s[..i] + [s[i]];
  }

  /** Python's `s.split(c)` for a one-character separator. */
  function Split(s: string, c: char): (parts: seq<string>)
    ensures |parts| >= 1
    ensures forall i :: 0 <= i < |parts| ==> c !in parts[i]
    decreases |s|
  {
    if c !in s then [s]
    else
      var i := IndexOf(s, c);
      [s[..i]] + Split(s[i + 1..], c)
  }

  /** `c.join(parts)` */
  function JoinWith(parts: seq<string>, c: char): string
    requires |parts| >= 1
    decreases |parts|
  {
    if |parts| == 1 then parts[0] else parts[0] + [c] + JoinWith(parts[1..], c)
  }

  /** Splitting and re-joining gives back the string. */
  lemma {:induction false} SplitThenJoin(s: string, c: char)
    ensures JoinWith(Split(s, c), c) == s
    decreases |s|
  {
    if c in s {
      var i := IndexOf(s, c);
      var rest := Split(s[i + 1..], c);
      SplitThenJoin(s[i + 1..], c);
      assert Split(s, c) == [s[..i]] + rest;
      assert ([s[..i]] + rest)[1..] == rest;
      assert JoinWith(Split(s, c), c) == s[..i] + [c] + JoinWith(rest, c);
      assert s == s[..i] + [c] + s[i + 1..];
    }
  }

  /** Joining parts free of the separator and splitting again gives back the parts. */
  lemma {:induction false} JoinThenSplit(parts: seq<string>, c: char)
    requires |parts| >= 1
    requires forall i :: 0 <= i < |parts| ==> c !in parts[i]
    ensures Split(JoinWith(parts, c), c) == parts
    decreases |parts|
  {
    if |parts| > 1 {
      var s := JoinWith(parts, c);
      var rest := JoinWith(parts[1..], c);
      assert s == parts[0] + [c] + rest;
      assert s[|parts[0]|] == c;
      assert s[..|parts[0]|] == parts[0];
      assert c in s;
      var i := IndexOf(s, c);
      assert i == |parts[0]|;
      assert s[|parts[0]| + 1..] == rest;
      JoinThenSplit(parts[1..], c);
    }
  }

  /** `s.split(c, 1)[-1]`: what follows the first `c`, or all of `s`. */
  function AfterFirst(s: string, c: char): (r: string)
    ensures c in s ==> s == s[..IndexOf(s, c)] + [c] + r
    ensures c !in s ==> r == s
  {
    if c in s then s[IndexOf(s, c) + 1..] else s
  }

  /** `s.endswith(suf)` */
  predicate EndsWith(s: string, suf: string) {
    |suf| <= |s| && s[|s| - |suf|..] == suf
  }

  /** Python's ordering of strings: lexicographic by code point. */
  predicate LexLe(a: string, b: string)
    decreases |a|
  {
    a == [] || (b != [] && (a[0] < b[0] || (a[0] == b[0] && LexLe(a[1..], b[1..]))))
  }

  lemma {:induction false} LexLeTotal(a: string, b: string)
    ensures LexLe(a, b) || LexLe(b, a)
    decreases |a|
  {
    if a != [] && b != [] && a[0] == b[0] {
      LexLeTotal(a[1..], b[1..]);
    }
  }

  predicate Sorted(s: seq<string>) {
    forall i | 0 <= i < |s| - 1 :: LexLe(s[i], s[i + 1])
  }

  function InsertSorted(x: string, s: seq<string>): (r: seq<string>)
    requires Sorted(s)
    ensures Sorted(r) && multiset(r) == multiset(s) + multiset{x}
    ensures |r| > 0 && (r[0] == x || (|s| > 0 && r[0] == s[0]))
    decreases |s|
  {
    if s == [] || LexLe(x, s[0]) then [x] + s
    else
      LexLeTotal(x, s[0]);
      var rest := InsertSorted(x, s[1..]);
      assert s == [s[0]] + s[1..];
      [s[0]] + rest
  }

  /** `sorted(names)` */
  function SortNames(s: seq<string>): (r: seq<string>)
    ensures Sorted(r) && multiset(r) == multiset(s)
    decreases |s|
  {
    if s == [] then []
    else
      assert s == [s[0]] + s[1..];
      InsertSorted(s[0], SortNames(s[1..]))
  }

  /** Sorting keeps exactly the names it was given. */
  lemma SortNamesMembers(s: seq<string>)
    ensures forall f :: f in SortNames(s) <==> f in s
  {
    forall f ensures f in SortNames(s) <==> f in s {
      assert f in SortNames(s) <==> f in multiset(SortNames(s));
      assert f in s <==> f in multiset(s);
    }
  }

  /** `"".join(lines)` / `f.writelines(lines)` */
  function Concat(ls: seq<string>): string
    decreases |ls|
  {
    if ls == [] then [] else ls[0] + Concat(ls[1..])
  }

  /** A line as iterating a text file yields it: non-empty, `\n` only at its end. */
  ghost predicate IsLine(l: string) {
    l != [] && '\n' !in l[..|l| - 1]
  }

  /** The lines of a text, each keeping its `\n` (iteration over an open file). */
  function Lines(t: string): (ls: seq<string>)
    ensures Concat(ls) == t
    ensures forall i :: 0 <= i < |ls| ==> IsLine(ls[i])
    decreases |t|
  {
    if t == [] then []
    else if '\n' !in t then
      assert t[..|t| - 1] <= t;
      [t]
    else
      var i := IndexOf(t, '\n');
      var rest := Lines(t[i + 1..]);
      assert t[..i + 1][..i] == t[..i];
      assert t == t[..i + 1] + t[i + 1..];
      [t[..i + 1]] + rest
  }

  /**
   * The newline translation of a text-mode read: `\r\n` and a lone `\r`
   * both become `\n`; every other character is kept.
   */
  function Universal(t: string): (u: string)
    ensures '\r' !in u
    ensures |u| <= |t|
    decreases |t|
  {
    if t == [] then []
    else if t[0] == '\r' then
      if |t| > 1 && t[1] == '\n' then "\n" + Universal(t[2..]) else "\n" + Universal(t[1..])
    else [t[0]] + Universal(t[1..])
  }

  /** A text without `\r` reads back as it is. */
  lemma {:induction false} UniversalKeepsPlainText(t: string)
    requires '\r' !in t
    ensures Universal(t) == t
    decreases |t|
  {
    if t != [] {
      assert '\r' !in t[1..] by {
        forall j | 0 <= j < |t[1..]| ensures t[1..][j] != '\r' {
          assert t[1..][j] == t[j + 1];
        }
      }
      UniversalKeepsPlainText(t[1..]);
      assert t == [t[0]] + t[1..];
    }
  }

  /** Translating twice is translating once. */
  lemma UniversalIdempotent(t: string)
    ensures Universal(Universal(t)) == Universal(t)
  {
    UniversalKeepsPlainText(Universal(t));
  }

  /**
   * The lines that iterating a file opened with `"r"` yields: the text
   * with its newlines translated, cut after each `\n`.
   */
  function ReadLines(t: string): (ls: seq<string>)
    ensures Concat(ls) == Universal(t)
    ensures forall i :: 0 <= i < |ls| ==> IsLine(ls[i]) && '\r' !in ls[i]
  {
    var u := Universal(t);
    var ls := Lines(u);
    forall i | 0 <= i < |ls| ensures '\r' !in ls[i] {
      ConcatHolds(ls, i);
    }
    ls
  }

  /** Each line of a concatenation occurs in it. */
  lemma {:induction false} ConcatHolds(ls: seq<string>, i: nat)
    requires i < |ls|
    ensures forall c :: c in ls[i] ==> c in Concat(ls)
    decreases |ls|
  {
    assert Concat(ls) == ls[0] + Concat(ls[1..]);
    if i > 0 {
      ConcatHolds(ls[1..], i - 1);
      assert ls[1..][i - 1] == ls[i];
    }
  }

  /** Lines that each end with `\n` are recovered from their concatenation. */
  lemma {:induction false} LinesOfConcat(ls: seq<string>)
    requires forall i :: 0 <= i < |ls| ==> IsLine(ls[i]) && ls[i][|ls[i]| - 1] == '\n'
    ensures Lines(Concat(ls)) == ls
    decreases |ls|
  {
    if ls != [] {
      var t := Concat(ls);
      var l := ls[0];
      assert t == l + Concat(ls[1..]);
      assert t[|l| - 1] == '\n';
      var i := IndexOf(t, '\n');
      assert i == |l| - 1 by {
        assert t[..|l| - 1] == l[..|l| - 1];
      }
      assert t[..i + 1] == l;
      assert t[i + 1..] == Concat(ls[1..]);
      LinesOfConcat(ls[1..]);
    }
  }

  // ---------------------------------------------------------------------
  // Configuration trees (what YAML loading produces)
  // ---------------------------------------------------------------------

  datatype Field = Field(key: string, val: Value)

  /** A YAML/JSON-like value: `Mapping` is a dict in insertion order. */
  datatype Value =
    | Null
    | Bool(b: bool)
    | Int(i: int)
    | Str(s: string)
    | List(items: seq<Value>)
    | Mapping(fields: seq<Field>)

  /** `k in d` for a mapping's field list. */
  predicate HasKey(fields: seq<Field>, k: string) {
    exists i :: 0 <= i < |fields| && fields[i].key == k
  }

  /** `d[k]`: the value of the first field named `k`. */
  function Lookup(fields: seq<Field>, k: string): (r: Option<Value>)
    ensures r.Some? <==> HasKey(fields, k)
    ensures r.Some? ==> exists i :: 0 <= i < |fields| && fields[i] == Field(k, r.value)
    decreases |fields|
  {
    if fields == [] then None
    else if fields[0].key == k then Some(fields[0].val)
    else
      var r := Lookup(fields[1..], k);
      assert HasKey(fields, k) ==> fields[0].key == k || HasKey(fields[1..], k) by {
        if HasKey(fields, k) {
          var i :| 0 <= i < |fields| && fields[i].key == k;
          if i > 0 { assert fields[1..][i - 1].key == k; }
        }
      }
      assert r.Some? ==> HasKey(fields, k) by {
        if r.Some? {
          var i :| 0 <= i < |fields[1..]| && fields[1..][i].key == k;
          assert fields[i + 1].key == k;
        }
      }
      assert r.Some? ==> exists i :: 0 <= i < |fields| && fields[i] == Field(k, r.value) by {
        if r.Some? {
          var i :| 0 <= i < |fields[1..]| && fields[1..][i] == Field(k, r.value);
          assert fields[i + 1] == Field(k, r.value);
        }
      }
      r
  }

  // ---------------------------------------------------------------------
  // Loaded plugin classes
  // ---------------------------------------------------------------------

  /**
   * What `inspect.getmembers(module, inspect.isclass)` reports about one
   * class of a loaded plugin module: its name, its `__module__`, whether it
   * is the category's base class itself (`Tool` or `File`), whether it is a
   * subclass of that base, the names in its own `__dict__`, and every
   * attribute an instance of it has (own, inherited and instance fields).
   */
  datatype ClassInfo = ClassInfo(
    name: string,
    moduleName: string,
    isBase: bool,
    subclassesBase: bool,
    ownMembers: set<string>,
    members: set<string>)
}
