/** The "run last valid test" memory of `RunPythonTestsCommand` in test_plier.py:
    the command keeps the class and function names found at the cursor and
    remembers the last names that made a valid test, so that running with the
    cursor outside any test repeats the last one. Also the `sublimeansi` flag
    taken out of the command's keyword arguments. */
module TestPlier {
  import opened Wrappers
  import PyStr

  /** Python truthiness of an optional name: present and not empty. */
  predicate Truthy(name: Option<string>) {
    name.Some? && name.value != []
  }

  /** `name.lower()` for ASCII letters. */
  function LowerAll(name: string): (r: string)
    ensures |r| == |name|
    ensures forall k :: 0 <= k < |name| ==> r[k] == PyStr.Lower(name[k])
  {
    seq(|name|, k requires 0 <= k < |name| => PyStr.Lower(name[k]))
  }

  /** `name.lower().startswith('test_')`: the name of a test function in any
      letter case. */
  predicate IsTestName(name: string) {
    PyStr.StartsWith(LowerAll(name), "test_")
  }

  /** The names the command holds: the class and function found last, which
      may be `None`, and the remembered class and function, which are strings. */
  datatype Names = Names(cls: Option<string>, func: Option<string>, oldCls: string, oldFunc: string)

  /** What the memory is for: a remembered function is empty or a test. */
  predicate Remembered(n: Names) {
    n.oldFunc == "" || IsTestName(n.oldFunc)
  }

  /** The found function is not a test: missing, empty, or not named `test_...`. */
  predicate NotATest(func: Option<string>) {
    !Truthy(func) || !IsTestName(func.value)
  }

  /** The names after `get_last_test`: a found function that is not a test is
      replaced, together with its class, by the remembered names, and then each
      name that is set is remembered. */
  function LastTest(n: Names): Names {
    var cls := if NotATest(n.func) then Some(n.oldCls) else n.cls;
    var func := if NotATest(n.func) then Some(n.oldFunc) else n.func;
    Names(cls, func,
          if Truthy(cls) then cls.value else n.oldCls,
          if Truthy(func) then func.value else n.oldFunc)
  }

  /** The names after `get_pattern` with `found` at the cursor: with nothing
      found and nothing remembered both names become `None`; otherwise the
      found names stay, passed through `get_last_test` when `runLast` is set. */
  function Pattern(n: Names, found: (Option<string>, Option<string>), runLast: bool): Names {
    var n1 := n.(cls := found.0, func := found.1);
    if !Truthy(found.0) && !Truthy(found.1) && n.oldFunc == "" && n.oldCls == "" then
      n1.(cls := None, func := None)
    else if runLast then LastTest(n1)
    else n1
  }

  /** A found function that is not a test gives way to the remembered class
      and function. */
  lemma LastTestReplaces(n: Names)
    requires NotATest(n.func)
    ensures LastTest(n).cls == Some(n.oldCls) && LastTest(n).func == Some(n.oldFunc)
    ensures LastTest(n).oldCls == n.oldCls && LastTest(n).oldFunc == n.oldFunc
  {
  }

  /** A found test function, in any letter case, is kept with its class, and
      both become the remembered names where set. */
  lemma LastTestKeeps(n: Names)
    requires Truthy(n.func) && IsTestName(n.func.value)
    ensures LastTest(n).cls == n.cls && LastTest(n).func == n.func
    ensures LastTest(n).oldFunc == n.func.value
    ensures LastTest(n).oldCls == if Truthy(n.cls) then n.cls.value else n.oldCls
  {
  }

  /** `get_last_test` keeps the memory sound: only a test function is ever
      remembered. */
  lemma LastTestRemembered(n: Names)
    requires Remembered(n)
    ensures Remembered(LastTest(n))
  {
  }

  /** Calling `get_last_test` twice is calling it once. */
  lemma LastTestIdempotent(n: Names)
    ensures LastTest(LastTest(n)) == LastTest(n)
  {
  }

  /** With nothing found and nothing remembered both names become `None`, and
      `get_last_test` is not reached, whatever `runLast` says. */
  lemma PatternNothing(n: Names, found: (Option<string>, Option<string>), runLast: bool)
    requires !Truthy(found.0) && !Truthy(found.1) && n.oldFunc == "" && n.oldCls == ""
    ensures Pattern(n, found, runLast) == Names(None, None, "", "")
  {
  }

  /** Without `run_last_valid_test` the memory is never touched, and the found
      names are kept unless both are missing with nothing remembered. */
  lemma PatternWithoutRunLast(n: Names, found: (Option<string>, Option<string>))
    ensures Pattern(n, found, false).oldCls == n.oldCls && Pattern(n, found, false).oldFunc == n.oldFunc
    ensures Truthy(found.0) || Truthy(found.1) || n.oldFunc != "" || n.oldCls != "" ==>
              Pattern(n, found, false).cls == found.0 && Pattern(n, found, false).func == found.1
  {
  }

  /** With `run_last_valid_test` and something to work with, the found names go
      through `get_last_test`. */
  lemma PatternRunLast(n: Names, found: (Option<string>, Option<string>))
    requires Truthy(found.0) || Truthy(found.1) || n.oldFunc != "" || n.oldCls != ""
    ensures Pattern(n, found, true) == LastTest(n.(cls := found.0, func := found.1))
  {
  }

  /** `get_pattern` keeps the memory sound. */
  lemma PatternRemembered(n: Names, found: (Option<string>, Option<string>), runLast: bool)
    requires Remembered(n)
    ensures Remembered(Pattern(n, found, runLast))
  {
    if runLast {
      LastTestRemembered(n.(cls := found.0, func := found.1));
    }
  }

  /** A keyword-argument dictionary that the command updates in place. */
  class Kwargs<V> {
    var entries: map<string, V>

    constructor (entries: map<string, V>)
      ensures this.entries == entries
    {
      this.entries := entries;
    }

    /** `dict.pop(key)`: the value under `key`, now removed; `None` stands for
        the `KeyError` of a missing key. */
    method Pop(key: string) returns (value: Option<V>)
      modifies this
      ensures value == if key in old(entries) then Some(old(entries)[key]) else None
      ensures entries == old(entries) - {key}
    {
      if key in entries {
        value := Some(entries[key]);
        entries := entries - {key};
      } else {
        value := None;
      }
    }
  }

  /** The key that asks for ANSI escape handling of the output. */
  const SublimeAnsi: string := "sublimeansi"

  /** The part of the command's state that the test memory and the ANSI flag
      are about. */
  class RunPythonTestsCommand {
    const runLastValidTest: bool
    var className: Option<string>
    var funcName: Option<string>
    var oldClassName: string
    var oldFuncName: string
    var isToUseAnsiescape: bool

    /** `__init__`: the `run_last_valid_test` setting is read once, and the
        remembered names start empty. */
    constructor (runLastValidTest: bool)
      ensures this.runLastValidTest == runLastValidTest
      ensures oldClassName == "" && oldFuncName == ""
      ensures className == None && funcName == None && !isToUseAnsiescape
      ensures Remembered(Snapshot())
    {
      this.runLastValidTest := runLastValidTest;
      className, funcName := None, None;
      oldFuncName, oldClassName := "", "";
      isToUseAnsiescape := false;
    }

    function Snapshot(): Names
      reads this
    {
      Names(className, funcName, oldClassName, oldFuncName)
    }

    /** `get_last_test` */
    method GetLastTest()
      modifies this
      ensures Snapshot() == LastTest(old(Snapshot()))
      ensures isToUseAnsiescape == old(isToUseAnsiescape)
    {
      if funcName.None? || funcName.value == [] || !IsTestName(funcName.value) {
        funcName := Some(oldFuncName);
        className := Some(oldClassName);
      }
      if funcName.Some? && funcName.value != [] {
        oldFuncName := funcName.value;
      }
      if className.Some? && className.value != [] {
        oldClassName := className.value;
      }
    }

    /** `get_pattern`, given the names `found` at the cursor. */
    method GetPattern(found: (Option<string>, Option<string>))
      modifies this
      ensures Snapshot() == Pattern(old(Snapshot()), found, runLastValidTest)
      ensures isToUseAnsiescape == old(isToUseAnsiescape)
    {
      className, funcName := found.0, found.1;
      if !Truthy(className) && !Truthy(funcName) {
        if oldFuncName == "" && oldClassName == "" {
          className, funcName := None, None;
          return;
        }
      }
      if runLastValidTest {
        GetLastTest();
      }
    }

    /** `setup_ansiescape`: the flag is set exactly when the command's keyword
        arguments ask for it, and that key is taken out of them. */
    method SetupAnsiescape<V>(commandKwargs: Kwargs<V>)
      modifies this, commandKwargs
      ensures isToUseAnsiescape <==> SublimeAnsi in old(commandKwargs.entries)
      ensures commandKwargs.entries == old(commandKwargs.entries) - {SublimeAnsi}
      ensures Snapshot() == old(Snapshot())
    {
      if SublimeAnsi in commandKwargs.entries {
        var _ := commandKwargs.Pop(SublimeAnsi);
        isToUseAnsiescape := true;
      } else {
        isToUseAnsiescape := false;
      }
    }
  }
}
