/** The two string helpers of `RunPythonTestsCommand` in python_test_plier.py:
    `_get_module`, which turns a source file name into the dotted module name
    relative to a base directory, and `_format_placeholder`, which fills the
    command template and tidies each part. */
module PythonTestPlier {
  import opened Wrappers
  import opened PyStr

  /** `os.path.sep` on a POSIX system. */
  const PathSep: char := '/'

  // ---------------------------------------------------------------------------
  // _get_module

  /** `_get_module(filename, base)` once `base` is resolved: the working
      directory given to the build, or else the project path joined with the
      project base name. `None` is a view without a file. The answer is `''`
      for anything that is not a Python source file or does not lie under
      `base`; otherwise it names a module, so it holds no path separator and
      neither starts nor ends with a dot. */
  function GetModule(filename: Option<string>, base: string): (m: string)
    ensures filename.None? || !EndsWith(filename.value, ".py") ==> m == ""
    ensures filename.Some? && !StartsWith(filename.value, base) ==> m == ""
    ensures PathSep !in m
    ensures m != [] ==> m[0] != '.' && m[|m| - 1] != '.'
  {
    if filename.None? || !EndsWith(filename.value, ".py") then ""
    else if !StartsWith(filename.value, base) then ""
    else
      var dotted := ReplaceChar(RemoveAll(filename.value, base), PathSep, '.');
      var m := Strip(DropLast(dotted, 3), {'.'});
      assert PathSep !in DropLast(dotted, 3) by {
        assert forall k :: 0 <= k < |dotted| ==> dotted[k] != PathSep;
      }
      StripAbsent(DropLast(dotted, 3), {'.'}, PathSep);
      m
  }

  /** A file `base + rel` where `base` occurs nowhere in `rel`: its module is
      `rel` without the `.py` suffix, separators turned into dots, and the
      leading and trailing dots removed. */
  lemma GetModuleUnderBase(base: string, rel: string)
    requires base != []
    requires EndsWith(rel, ".py")
    requires !Occurs(rel, base)
    ensures GetModule(Some(base + rel), base) == Strip(ReplaceChar(rel[..|rel| - 3], PathSep, '.'), {'.'})
  {
    var f := base + rel;
    assert EndsWith(f, ".py") by { assert f[|f| - 3..] == rel[|rel| - 3..]; }
    assert StartsWith(f, base) by { assert f[..|base|] == base; }
    assert RemoveAll(f, base) == rel by { RemoveAllLeading(base, rel); }
    assert DropLast(ReplaceChar(rel, PathSep, '.'), 3) == ReplaceChar(rel[..|rel| - 3], PathSep, '.');
  }

  /** A Python file directly under `base` is the module of its own name. */
  lemma ModuleOfTopLevelFile(base: string, name: string, rel: string)
    requires base != []
    requires name != [] && PathSep !in name && name[0] != '.' && name[|name| - 1] != '.'
    requires rel == name + ".py" && !Occurs(rel, base)
    ensures GetModule(Some(base + rel), base) == name
  {
    assert rel[..|rel| - 3] == name;
    assert EndsWith(rel, ".py") by { assert rel[|rel| - 3..] == ".py"; }
    GetModuleUnderBase(base, rel);
    ReplaceCharAbsent(name, PathSep, '.');
    StripKeeps(name, {'.'});
  }

  /** A Python file one directory below `base` is the module `dir.name`. */
  lemma ModuleOfFileInDirectory(base: string, dir: string, name: string, rel: string, m: string)
    requires base != []
    requires dir != [] && PathSep !in dir && dir[0] != '.'
    requires name != [] && PathSep !in name && name[|name| - 1] != '.'
    requires rel == [PathSep] + dir + [PathSep] + name + ".py" && !Occurs(rel, base)
    requires m == dir + "." + name
    ensures GetModule(Some(base + rel), base) == m
  {
    var path := [PathSep] + dir + [PathSep] + name;
    assert GetModule(Some(base + rel), base) == Strip(ReplaceChar(path, PathSep, '.'), {'.'}) by {
      assert rel[..|rel| - 3] == path;
      assert EndsWith(rel, ".py") by { assert rel[|rel| - 3..] == ".py"; }
      GetModuleUnderBase(base, rel);
    }
    assert Strip(ReplaceChar(path, PathSep, '.'), {'.'}) == dir + "." + name by {
      DottedModule(dir, name);
      ReplaceCharAbsent(dir, PathSep, '.');
    }
  }

  /** The file of tests/test_command.py taken relative to the build's working
      directory `/SublimeTestPlier/tests/` is the module `file`. */
  lemma GetModuleRelativeToWorkingDir(filename: string, base: string)
    requires filename == "/SublimeTestPlier/tests/file.py" && base == "/SublimeTestPlier/tests/"
    ensures GetModule(Some(filename), base) == "file"
  {
    var name, rel := "file", "file.py";
    assert filename == base + rel;
    assert !Occurs(rel, base) by { NotOccursMissingChar(rel, base, 0); }
    ModuleOfTopLevelFile(base, name, rel);
  }

  /** The same file relative to the project, `/` joined with `SublimeTestPlier`,
      is the module `tests.file`. */
  lemma GetModuleRelativeToProject(base: string, rel: string)
    requires base == "/SublimeTestPlier" && rel == "/tests/file.py"
    ensures GetModule(Some(base + rel), base) == "tests.file"
  {
    var dir, name, m := "tests", "file", "tests.file";
    assert rel == [PathSep] + dir + [PathSep] + name + ".py";
    assert m == dir + "." + name;
    assert PathSep !in dir && PathSep !in name;
    ProjectPathMissesBase(base, rel);
    ModuleOfFileInDirectory(base, dir, name, rel, m);
  }

  /** `/SublimeTestPlier` does not occur in `/tests/file.py`: there is no `S` in it. */
  lemma ProjectPathMissesBase(base: string, rel: string)
    requires base == "/SublimeTestPlier" && rel == "/tests/file.py"
    ensures !Occurs(rel, base)
  {
    assert base[1] !in rel;
    NotOccursMissingChar(rel, base, 1);
  }

  /** The test that the file lies under `base` is a plain string prefix test,
      not a directory test: `/project/x.py` passes it for the base `/proj`, and
      the rest of the directory name becomes part of the module. */
  lemma GetModuleSiblingPrefix(base: string, filename: string)
    requires base == "/proj" && filename == "/project/x.py"
    ensures GetModule(Some(filename), base) == "ect.x"
  {
    var rel := "ect/x.py";
    assert filename == base + rel;
    assert !Occurs(rel, base) by { SiblingRestMissesBase(base, rel); }
    SiblingRestModule(base, rel, "ect", "x");
  }

  /** `/proj` does not occur in `ect/x.py`: there is no `r` in it. */
  lemma SiblingRestMissesBase(base: string, rel: string)
    requires base == "/proj" && rel == "ect/x.py"
    ensures !Occurs(rel, base)
  {
    assert base[2] !in rel;
    NotOccursMissingChar(rel, base, 2);
  }

  lemma SiblingRestModule(base: string, rel: string, dir: string, name: string)
    requires base == "/proj" && rel == "ect/x.py" && dir == "ect" && name == "x"
    requires !Occurs(rel, base)
    ensures GetModule(Some(base + rel), base) == "ect.x"
  {
    var path := dir + [PathSep] + name;
    assert rel[..|rel| - 3] == path;
    assert EndsWith(rel, ".py") by { assert rel[|rel| - 3..] == ".py"; }
    GetModuleUnderBase(base, rel);
    ReplaceCharJoin(dir, name, PathSep, '.');
    ReplaceCharAbsent(name, PathSep, '.');
    assert dir + "." + name == "ect.x";
    StripKeeps("ect.x", {'.'});
  }

  /** `_get_module` with the evident intent: `base` is removed once, as the
      prefix it was checked to be, instead of everywhere it occurs. */
  function GetModuleRelative(filename: Option<string>, base: string): (m: string)
    ensures filename.None? || !EndsWith(filename.value, ".py") ==> m == ""
    ensures filename.Some? && !StartsWith(filename.value, base) ==> m == ""
    ensures PathSep !in m
    ensures m != [] ==> m[0] != '.' && m[|m| - 1] != '.'
  {
    if filename.None? || !EndsWith(filename.value, ".py") then ""
    else if !StartsWith(filename.value, base) then ""
    else
      var dotted := ReplaceChar(filename.value[|base|..], PathSep, '.');
      var m := Strip(DropLast(dotted, 3), {'.'});
      assert PathSep !in DropLast(dotted, 3) by {
        assert forall k :: 0 <= k < |dotted| ==> dotted[k] != PathSep;
      }
      StripAbsent(DropLast(dotted, 3), {'.'}, PathSep);
      m
  }

  /** Every Python file under `base` gets the module of its own relative path,
      whatever that path contains. */
  lemma GetModuleRelativeUnderBase(base: string, rel: string)
    requires EndsWith(rel, ".py")
    ensures GetModuleRelative(Some(base + rel), base) == Strip(ReplaceChar(rel[..|rel| - 3], PathSep, '.'), {'.'})
  {
    var f := base + rel;
    assert f[|f| - 3..] == rel[|rel| - 3..];
    assert f[..|base|] == base;
    assert f[|base|..] == rel;
    assert DropLast(ReplaceChar(rel, PathSep, '.'), 3) == ReplaceChar(rel[..|rel| - 3], PathSep, '.');
  }

  /** Once `filename` passes both checks, its module is what is left after the
      deletions of `base`, without the suffix, dotted and stripped. */
  lemma GetModuleOfRemoved(filename: string, base: string, removed: string)
    requires EndsWith(filename, ".py") && StartsWith(filename, base)
    requires removed == RemoveAll(filename, base) && |removed| >= 3
    ensures GetModule(Some(filename), base) == Strip(ReplaceChar(removed[..|removed| - 3], PathSep, '.'), {'.'})
  {
    assert DropLast(ReplaceChar(removed, PathSep, '.'), 3) == ReplaceChar(removed[..|removed| - 3], PathSep, '.');
  }

  /** The code as written and the corrected conversion differ only where
      `base` comes back after the prefix: when it does not, deleting every
      occurrence of `base` is deleting the prefix, and both give the same
      module. */
  lemma GetModuleAgreesUnlessRepeated(filename: string, base: string)
    requires base != [] && StartsWith(filename, base) && EndsWith(filename, ".py")
    requires !Occurs(filename[|base|..], base)
    ensures GetModule(Some(filename), base) == GetModuleRelative(Some(filename), base)
  {
    var rel := filename[|base|..];
    assert filename == base + rel;
    RemoveAllLeading(base, rel);
  }

  /** Where the directory name `base` comes back deeper in the path, the code
      as written deletes that occurrence too: `/a/b/a/m.py` under `/a` becomes
      `b.m`, although its path relative to `/a` is `b/a/m.py`. */
  lemma GetModuleDropsRepeatedBase(base: string, rel: string)
    requires base == "/a" && rel == "/b/a/m.py"
    ensures GetModule(Some(base + rel), base) == "b.m"
  {
    var removed := "/b/m.py";
    RepeatedBaseChecks(base, rel);
    RemoveAllRepeatedBase(base, rel, removed);
    GetModuleOfRemoved(base + rel, base, removed);
    DottedRemoved(removed);
  }

  /** `/a/b/a/m.py` passes both checks of `_get_module` for the base `/a`. */
  lemma RepeatedBaseChecks(base: string, rel: string)
    requires base == "/a" && rel == "/b/a/m.py"
    ensures EndsWith(base + rel, ".py") && StartsWith(base + rel, base)
  {
    assert (base + rel)[|base + rel| - 3..] == rel[|rel| - 3..];
    assert (base + rel)[..|base|] == base;
  }

  /** `replace` deletes both occurrences of `/a` in `/a/b/a/m.py`. */
  lemma RemoveAllRepeatedBase(base: string, rel: string, removed: string)
    requires base == "/a" && rel == "/b/a/m.py" && removed == "/b/m.py"
    ensures RemoveAll(base + rel, base) == removed
  {
    var tail := "/m.py";
    assert removed == [PathSep] + ("b" + tail);
    RemoveAllPrefix(base, rel);
    RemoveAllSecondBase(base, rel, tail);
    RemoveAllLastBase(base, tail);
  }

  /** `replace` deletes the `/a` of `/a/m.py` and keeps the rest. */
  lemma RemoveAllLastBase(base: string, tail: string)
    requires base == "/a" && tail == "/m.py"
    ensures RemoveAll(base + tail, base) == tail
  {
    RemoveAllPrefix(base, tail);
    assert !Occurs(tail, base) by { NotOccursMissingChar(tail, base, 1); }
    RemoveAllAbsent(tail, base);
  }

  /** `replace` keeps the `/b` in front of the second `/a` of `/b/a/m.py`. */
  lemma RemoveAllSecondBase(base: string, rel: string, tail: string)
    requires base == "/a" && rel == "/b/a/m.py" && tail == "/m.py"
    ensures RemoveAll(rel, base) == [PathSep] + ("b" + RemoveAll(base + tail, base))
  {
    assert rel == [PathSep] + ("b" + (base + tail));
    assert !StartsWith(rel, base) by { assert rel[1] != base[1]; }
    RemoveAllKeepsHead(PathSep, "b" + (base + tail), base);
    assert !StartsWith("b" + (base + tail), base) by { assert ("b" + (base + tail))[0] != base[0]; }
    RemoveAllKeepsHead('b', base + tail, base);
  }

  /** `/b/m.py` without its suffix, dotted and stripped, is `b.m`. */
  lemma DottedRemoved(removed: string)
    requires removed == "/b/m.py"
    ensures Strip(ReplaceChar(removed[..|removed| - 3], PathSep, '.'), {'.'}) == "b.m"
  {
    var dir, name := "b", "m";
    assert removed[..|removed| - 3] == [PathSep] + dir + [PathSep] + name;
    DottedModule(dir, name);
    ReplaceCharAbsent(dir, PathSep, '.');
    assert "b.m" == dir + "." + name;
  }

  /** The corrected conversion gives the same file the module `b.a.m`. */
  lemma GetModuleRelativeKeepsRepeatedBase(base: string, rel: string)
    requires base == "/a" && rel == "/b/a/m.py"
    ensures GetModuleRelative(Some(base + rel), base) == "b.a.m"
  {
    var dir, name := "b/a", "m";
    RepeatedPath(rel, dir, name);
    GetModuleRelativeUnderBase(base, rel);
    DottedRepeated(dir, name);
  }

  /** `/b/a/m.py` is the directory `b/a` and the file `m.py`. */
  lemma RepeatedPath(rel: string, dir: string, name: string)
    requires rel == "/b/a/m.py" && dir == "b/a" && name == "m"
    ensures EndsWith(rel, ".py") && rel[..|rel| - 3] == [PathSep] + dir + [PathSep] + name
  {
    assert rel[|rel| - 3..] == ".py";
  }

  /** `/b/a/m`, dotted and stripped, is `b.a.m`. */
  lemma DottedRepeated(dir: string, name: string)
    requires dir == "b/a" && name == "m"
    ensures Strip(ReplaceChar([PathSep] + dir + [PathSep] + name, PathSep, '.'), {'.'}) == "b.a.m"
  {
    DottedModule(dir, name);
    assert dir == "b" + [PathSep] + "a";
    ReplaceCharJoin("b", "a", PathSep, '.');
    ReplaceCharAbsent("a", PathSep, '.');
  }

  /** The module of `/dir/name` once separators become dots and the outer dots
      are stripped: the directory, a dot, and the name, provided the directory
      starts with a plain character and the name holds no separator. */
  lemma DottedModule(dir: string, name: string)
    requires dir != [] && dir[0] != PathSep && dir[0] != '.'
    requires name != [] && PathSep !in name && name[|name| - 1] != '.'
    ensures Strip(ReplaceChar([PathSep] + dir + [PathSep] + name, PathSep, '.'), {'.'})
         == ReplaceChar(dir, PathSep, '.') + "." + name
  {
    DottedPath(dir, name);
    StripLeadingDot(ReplaceChar(dir, PathSep, '.'), name);
  }

  lemma DottedPath(dir: string, name: string)
    requires PathSep !in name
    ensures ReplaceChar([PathSep] + dir + [PathSep] + name, PathSep, '.')
         == "." + ReplaceChar(dir, PathSep, '.') + "." + name
  {
    var path := [PathSep] + dir + [PathSep] + name;
    assert path == [] + [PathSep] + (dir + [PathSep] + name);
    ReplaceCharJoin([], dir + [PathSep] + name, PathSep, '.');
    ReplaceCharAppend(dir, [PathSep] + name, PathSep, '.');
    ReplaceCharJoin([], name, PathSep, '.');
    ReplaceCharAbsent(name, PathSep, '.');
  }

  lemma StripLeadingDot(x: string, name: string)
    requires x != [] && x[0] != '.'
    requires name != [] && name[|name| - 1] != '.'
    ensures Strip("." + x + "." + name, {'.'}) == x + "." + name
  {
    var d := "." + x + "." + name;
    assert d[1] == x[0];
    assert d[|d| - 1] == name[|name| - 1];
    StripFirst(d, {'.'});
    assert d[1..] == x + "." + name;
  }

  // ---------------------------------------------------------------------------
  // _format_placeholder

  /** A command part as the cleanup leaves it: not empty, and neither starting
      nor ending with a character of `sep`. */
  predicate Tidy(part: string, sep: string) {
    part != [] && part[0] !in sep && part[|part| - 1] !in sep
  }

  /** One formatted command part, tidied: `sep` and then `.` stripped from the
      ends, runs of `sep` collapsed by `re.sub(sep + '+', sep, ...)`, and `sep`
      stripped once more. Stripping treats `sep` as a set of characters. */
  function CleanPart(formatted: string, sep: string): (c: string)
    requires sep != []
    ensures c == [] || Tidy(c, sep)
  {
    Strip(SubRuns(Strip(Strip(formatted, Chars(sep)), {'.'}), sep), Chars(sep))
  }

  /** What one template part contributes to the command: nothing when
      formatting it misses a key or when it is empty once tidied. */
  function PartResult(part: string, sep: string, format: string -> Option<string>): seq<string>
    requires sep != []
  {
    match format(part)
    case None => []
    case Some(t) => if CleanPart(t, sep) == [] then [] else [CleanPart(t, sep)]
  }

  /** The command `_format_placeholder(cmd, sep, **kwargs)` builds, part by
      part in order, where `format` is `str.format` with those keyword
      arguments and `None` is its `KeyError`. There are no more parts in the
      result than in the template. */
  function Cleaned(cmd: seq<string>, sep: string, format: string -> Option<string>): (r: seq<string>)
    requires sep != []
    ensures |r| <= |cmd|
    decreases |cmd|
  {
    if cmd == [] then []
    else Cleaned(cmd[..|cmd| - 1], sep, format) + PartResult(cmd[|cmd| - 1], sep, format)
  }

  /** Every part of the command is tidy: none is empty, and none starts or
      ends with a character of `sep`. */
  lemma {:induction false} CleanedTidy(cmd: seq<string>, sep: string, format: string -> Option<string>)
    requires sep != []
    ensures forall k :: 0 <= k < |Cleaned(cmd, sep, format)| ==> Tidy(Cleaned(cmd, sep, format)[k], sep)
    decreases |cmd|
  {
    if cmd != [] {
      CleanedTidy(cmd[..|cmd| - 1], sep, format);
    }
  }

  /** `_format_placeholder`: the loop over `cmd` that appends each tidied,
      non-empty part and skips a part whose formatting raises `KeyError`. */
  method FormatPlaceholder(cmd: seq<string>, sep: string, format: string -> Option<string>) returns (result: seq<string>)
    requires sep != [] && PlainPattern(sep)
    ensures result == Cleaned(cmd, sep, format)
  {
    result := [];
    var i := 0;
    while i < |cmd|
      invariant 0 <= i <= |cmd|
      invariant result == Cleaned(cmd[..i], sep, format)
    {
      assert cmd[..i + 1][..i] == cmd[..i];
      match format(cmd[i]) {
        case None =>
        case Some(part) =>
          var cleanedPart := CleanPart(part, sep);
          if cleanedPart != [] {
            result := result + [cleanedPart];
          }
      }
      i := i + 1;
    }
    assert cmd[..|cmd|] == cmd;
  }

  /** Parts are handled independently and in order: the command built from
      two template pieces is the two commands one after the other. */
  lemma {:induction false} CleanedAppend(a: seq<string>, b: seq<string>, sep: string, format: string -> Option<string>)
    requires sep != []
    ensures Cleaned(a + b, sep, format) == Cleaned(a, sep, format) + Cleaned(b, sep, format)
    decreases |b|
  {
    if b == [] {
      assert a + b == a;
    } else {
      var b', last := b[..|b| - 1], b[|b| - 1];
      assert (a + b)[..|a + b| - 1] == a + b';
      assert (a + b)[|a + b| - 1] == last;
      calc {
        Cleaned(a + b, sep, format);
        Cleaned(a + b', sep, format) + PartResult(last, sep, format);
        { CleanedAppend(a, b', sep, format); }
        (Cleaned(a, sep, format) + Cleaned(b', sep, format)) + PartResult(last, sep, format);
        Cleaned(a, sep, format) + (Cleaned(b', sep, format) + PartResult(last, sep, format));
        Cleaned(a, sep, format) + Cleaned(b, sep, format);
      }
    }
  }

  /** The part at `i` contributes exactly its own result, between what the
      parts before it and the parts after it contribute. */
  lemma CleanedAt(cmd: seq<string>, i: int, sep: string, format: string -> Option<string>)
    requires sep != [] && 0 <= i < |cmd|
    ensures Cleaned(cmd, sep, format)
         == Cleaned(cmd[..i], sep, format) + PartResult(cmd[i], sep, format) + Cleaned(cmd[i + 1..], sep, format)
  {
    assert cmd == cmd[..i] + [cmd[i]] + cmd[i + 1..];
    CleanedAppend(cmd[..i] + [cmd[i]], cmd[i + 1..], sep, format);
    CleanedAppend(cmd[..i], [cmd[i]], sep, format);
    assert [cmd[i]][..0] == [];
  }

  /** A part whose formatting misses a key is dropped, and the parts after it
      are still formatted. */
  lemma CleanedDropsMissingKey(cmd: seq<string>, i: int, sep: string, format: string -> Option<string>)
    requires sep != [] && 0 <= i < |cmd| && format(cmd[i]).None?
    ensures Cleaned(cmd, sep, format) == Cleaned(cmd[..i], sep, format) + Cleaned(cmd[i + 1..], sep, format)
  {
    CleanedAt(cmd, i, sep, format);
  }

  /** A part that formats to something non-empty once tidied is kept, in its
      place. */
  lemma CleanedKeepsPart(cmd: seq<string>, i: int, sep: string, format: string -> Option<string>)
    requires sep != [] && 0 <= i < |cmd| && format(cmd[i]).Some?
    requires CleanPart(format(cmd[i]).value, sep) != []
    ensures Cleaned(cmd, sep, format)
         == Cleaned(cmd[..i], sep, format) + [CleanPart(format(cmd[i]).value, sep)] + Cleaned(cmd[i + 1..], sep, format)
  {
    CleanedAt(cmd, i, sep, format);
  }

  /** For a one-character separator no tidied part holds two separators side
      by side. */
  lemma CleanPartCollapses(formatted: string, c: char)
    ensures NoRuns(CleanPart(formatted, [c]), c)
  {
    assert Chars([c]) == {c};
    var inner := Strip(Strip(formatted, {c}), {'.'});
    SubRunsCollapses(inner, c);
    StripNoRuns(SubRuns(inner, [c]), {c}, c);
  }

  /** A part that is already tidy for a one-character separator `c`, one that
      neither starts nor ends with `c` or `.` and holds no two `c` side by
      side, is kept as it is. */
  lemma CleanPartKeeps(t: string, c: char)
    requires Tidy(t, [c]) && t[0] != '.' && t[|t| - 1] != '.' && NoRuns(t, c)
    ensures CleanPart(t, [c]) == t
  {
    assert Chars([c]) == {c};
    StripKeeps(t, {c});
    StripKeeps(t, {'.'});
    SubRunsNoRuns(t, c);
  }

  /** The custom command of tests/test_command.py, with `:` as separator. */
  const CustomCmd: seq<string> := ["nosetests", "-k {filename}:{test_class}.{test_func}"]

  /** The custom command is its option part after the program part, for any
      program name that the cleanup keeps as it is. */
  lemma CustomCommandParts(format: string -> Option<string>, program: string)
    requires format(CustomCmd[0]) == Some(program) && Tidy(program, ":") && program[0] != '.'
    requires program[|program| - 1] != '.' && NoRuns(program, ':')
    ensures Cleaned(CustomCmd, ":", format) == [program] + PartResult(CustomCmd[1], ":", format)
  {
    CleanPartKeeps(program, ':');
    assert CustomCmd[..1][..0] == [];
  }

  /** With `nosetests` as the program, the command is `nosetests` and then what
      the option part gives. */
  lemma NosetestsCommand(format: string -> Option<string>, program: string, sep: string)
    requires program == "nosetests" && sep == ":" && format(CustomCmd[0]) == Some(program)
    ensures Cleaned(CustomCmd, sep, format) == [program] + PartResult(CustomCmd[1], sep, format)
  {
    NoRunsAbsent(program, ':');
    CustomCommandParts(format, program);
  }

  /** With an empty file name and no test found, the template formats to
      `-k :.` and only the option and its space survive the cleanup. */
  lemma CustomCommandWithoutFile(format: string -> Option<string>, program: string, part: string)
    requires program == "nosetests" && part == "-k :."
    requires format(CustomCmd[0]) == Some(program) && format(CustomCmd[1]) == Some(part)
    ensures Cleaned(CustomCmd, ":", format) == ["nosetests", "-k "]
  {
    NosetestsCommand(format, program, ":");
    EmptyFieldsPart(format, part, ":");
  }

  lemma EmptyFieldsPart(format: string -> Option<string>, part: string, sep: string)
    requires part == "-k :." && sep == ":" && format(CustomCmd[1]) == Some(part)
    ensures PartResult(CustomCmd[1], sep, format) == ["-k "]
  {
    EmptyFieldsCleanup(part, "-k ");
  }

  /** `-k :.` tidies to `-k `: the first strip of `:` finds nothing at the
      ends, the dot goes, no run of `:` is left to collapse, and the colon now
      at the end is stripped. */
  lemma EmptyFieldsCleanup(t: string, option: string)
    requires t == "-k :." && option == "-k "
    ensures CleanPart(t, ":") == option
  {
    assert Chars(":") == {':'};
    assert Strip(Strip(t, {':'}), {'.'}) == option + ":" by { EmptyFieldsEnds(t, option); }
    assert SubRuns(option + ":", ":") == option + ":" by { EmptyFieldsRuns(option); }
    StripLast(option + ":", {':'});
    assert (option + ":")[..|option|] == option;
  }

  lemma EmptyFieldsEnds(t: string, option: string)
    requires t == "-k :." && option == "-k "
    ensures Strip(Strip(t, {':'}), {'.'}) == option + ":"
  {
    StripKeeps(t, {':'});
    StripLast(t, {'.'});
    assert t[..|t| - 1] == option + ":";
  }

  lemma EmptyFieldsRuns(option: string)
    requires option == "-k "
    ensures SubRuns(option + ":", ":") == option + ":"
  {
    assert ':' !in option;
    NoRunsJoin(option, [], ':');
    assert option + [':'] + [] == option + ":";
    SubRunsNoRuns(option + ":", ':');
  }

  /** With the cursor on `TestCase.test_fail` of `file.py`, the formatted part
      is already tidy and is kept whole. */
  lemma CustomCommandWithCursor(format: string -> Option<string>, program: string, part: string)
    requires program == "nosetests" && part == "-k file.py:TestCase.test_fail"
    requires format(CustomCmd[0]) == Some(program) && format(CustomCmd[1]) == Some(part)
    ensures Cleaned(CustomCmd, ":", format) == ["nosetests", "-k file.py:TestCase.test_fail"]
  {
    assert [program] + [part] == ["nosetests", "-k file.py:TestCase.test_fail"];
    NosetestsCommand(format, program, ":");
    CursorPart(format, part, ":");
  }

  lemma CursorPart(format: string -> Option<string>, part: string, sep: string)
    requires part == "-k file.py:TestCase.test_fail" && sep == ":" && format(CustomCmd[1]) == Some(part)
    ensures PartResult(CustomCmd[1], sep, format) == [part]
  {
    CursorPartTidy(part, "-k file.py", "TestCase.test_fail");
    CleanPartKeeps(part, ':');
  }

  /** `-k file.py:TestCase.test_fail` is already tidy for `:`. */
  lemma CursorPartTidy(t: string, option: string, test: string)
    requires t == "-k file.py:TestCase.test_fail" && option == "-k file.py" && test == "TestCase.test_fail"
    ensures Tidy(t, ":") && t[0] != '.' && t[|t| - 1] != '.' && NoRuns(t, ':')
  {
    assert t == option + [':'] + test;
    NoRunsJoin(option, test, ':');
  }
}
