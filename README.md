# SublimeTestPlier test locator and command helpers, in Dafny

This project models the logic at the heart of the SublimeTestPlier editor plugin:

- **The test-scope locator** `TestParser` of test_parser.py (module `Parser`,
  file test_parser.dfy). It is given a Python module as a syntax tree and a
  1-based target line. It walks the class and function definitions in document
  order and reports the names of the enclosing test class and test function. The
  rules are:
  - the stop rule: a definition that starts after the target line is skipped
    with all it contains;
  - ignored bases: a class with a base in the ignore list is excluded;
  - nesting is judged by column offsets;
  - a method must take `self` first.

  The walk is stated as pure functions over the four fields the visitor updates
  (`WalkNode`, `WalkBody`). The visitor itself is the class `TestParser`, whose
  methods update those fields in place and are proved to follow the pure walk.
  The lemmas about the walk cover:
  - the stop rule;
  - stability between definition lines;
  - which nodes can be reported;
  - the irrelevance of a `nested_class` left over from an earlier call.
- **The doctests of `TestParser`** over tests/_fixture.py (module
  `ParserFixture`). Each doctest becomes a lemma over the whole run of lines it
  samples.
- **`_get_module` and `_format_placeholder`** of python_test_plier.py (module
  `PythonTestPlier`). These are the file-name-to-dotted-module conversion and
  the clean-up of a formatted command. The module also holds the examples that
  tests/test_command.py checks.
- **The "run last valid test" memory** of test_plier.py (module `TestPlier`):
  `__init__`, `get_pattern`, `get_last_test` and `setup_ansiescape`, as a class
  whose methods update its fields in place.

The string operations Python provides are written out in module `PyStr`:
`startswith`, `endswith`, `replace(x, '')`, `[:-3]`, `strip(chars)`, ASCII
`lower` and `re.sub(sep + '+', sep, s)`. `Option` and `Result` are in module
`Wrappers`.

The model follows the code, including these behaviours:

- An unreadable class base (neither a bare name nor an attribute) raises and
  aborts `parse` (test_parser.py:130). `any` stops at the first listed base, so
  a later unreadable base is never reached.
- A function inside a tracked class that is not one of its methods changes
  nothing. It does not clear the class (test_parser.py:194-201).
- `inside_class` evaluates `ignore_class` first. A class with an unreadable base
  therefore raises even when no class is tracked (test_parser.py:141).
- `parse` never resets `nested_class` (a class attribute, test_parser.py:85).
  `Parser.LocateIgnoresStaleMarker` proves that the leftover value never changes
  the answer.
- Whether a function is a method of the tracked class is judged by column
  offsets alone (test_parser.py:139-148). A `def test(self)` indented under an
  `if` that follows `class C: pass` is reported as a method of `C`
  (`Parser.MethodByIndentationOnly`).
- A class nested in an ignored class is not inside any tracked class, so it
  becomes the tracked class and ends the ignored one (test_parser.py:179-186).
  A `self` method of the ignored class that follows it, at the nested class's
  indentation, is then reported as a free function
  (`Parser.IgnoredClassMethodReported`). Excluding a class does not always
  exclude all its members.
- An ignored class is never inside the tracked class (test_parser.py:141).
  One nested in a test class therefore ends the tracking of that class, and
  the test class's later methods are not reported
  (`Parser.IgnoredNestedClassEndsClass`).
- `_get_module` checks that the file lies under `base` with a plain string
  prefix test (python_test_plier.py:59). For the base `/proj`, the file
  `/project/x.py` passes the test and becomes the module `ect.x`
  (`PythonTestPlier.GetModuleSiblingPrefix`).

## Model

| member | source | states |
|---|---|---|
| Parser.ShouldStop | test_parser.py:111-116 | fails (the `assert self.lineno`) exactly when the target line is 0; otherwise stops exactly the definitions that start after the line |
| Parser.AnyIgnored | test_parser.py:125-131 | `Ok(true)` iff some base has a listed name and every base before it is readable; `Ok(false)` iff every base is readable and none is listed; the only error is an unreadable base |
| Parser.IgnoreClass | test_parser.py:118-131 | a node without bases (a function) is never ignored; a class is decided by its bases as `AnyIgnored` states |
| Parser.InsideClass | test_parser.py:133-148 | raises exactly when `ignore_class` raises; true iff the node is not ignored, a class is tracked, the node is indented deeper than it, and no ignored class is active |
| Parser.EnterClassDef | test_parser.py:169-188 | line 0 raises; a class after the line is skipped; a class nested in the tracked one only becomes the nested marker; any other class clears the marker and the function and becomes exactly one of the tracked class (no ignored base) and the ignored class (an ignored base) |
| Parser.EnterFunctionDef | test_parser.py:190-202 | raises iff the line is 0; a function after the line is skipped; a method of the tracked class becomes the function and ends the ignored class; a function outside any class, with no ignored class, replaces class and function; any other function changes nothing |
| Parser.CliOutput | test_parser.py:215 | the printed line is the class name, a comma and the function name, with `''` for a missing name |
| Parser.CliOutputRoundTrip | test_parser.py:215 | for a class name without a comma, splitting the printed line at its first comma gives both names back |
| Parser.WalkBodyAppend | test_parser.py:177 | walking two runs of siblings is walking the first and then the second from where it ended; an exception in the first ends the walk |
| Parser.WalkBodySkipsLater | test_parser.py:111-116 | siblings that all start after the target line leave the state unchanged |
| Parser.LocatePrune | test_parser.py:111-116 | deleting every definition that starts after the line, with all it contains, does not change the outcome of `parse` |
| Parser.LocateLineStable | test_parser.py:99-116 | `parse` gives the same answer for all lines between two lines where a definition starts |
| Parser.LocateSound | test_parser.py:99-109 | a reported class is a node of the tree that opens by the line and has no ignored base; a reported function is a node of the tree that opens by the line and, reported with a class, takes `self` first and is indented deeper than the class; an ignored class and a tracked class never coexist |
| Parser.MethodByIndentationOnly | test_parser.py:139-148 | a `self` function indented under an `if` after `class C: pass` is reported as a method of `C`: only column offsets are compared |
| Parser.IgnoredClassMethodReported | test_parser.py:179-201 | with `['object']`, in `class A(object)` holding `class B` and then `def test_y(self)`, every line from `test_y` on gives `(None, 'test_y')` |
| Parser.IgnoredNestedClassEndsClass | test_parser.py:139-148 | with `['object']`, in `class P(TestCase)` holding `class Meta(object)` and then `def test_a(self)`, every line from `test_a` on gives `(None, None)` |
| Parser.LocateIgnoresStaleMarker | test_parser.py:85-109 | whatever `nested_class` an earlier call left, `parse` raises the same exception or reports the same names as a fresh parser |
| Parser.TestParser.constructor | test_parser.py:87-92 | a missing ignore list is the empty list |
| Parser.TestParser.Parse | test_parser.py:99-109 | clears the class, function and ignored class, walks the tree and returns exactly `Locate(tree, ignore, line)`: the two names or the exception; on success the fields are left as the walk from the leftover `nested_class` ends |
| Parser.TestParser.Visit | test_parser.py:169-202 | visiting a node updates the fields exactly as the pure walk does, or reports the exception it raises |
| Parser.TestParser.GenericVisit | test_parser.py:177 | visiting the children in order updates the fields as the pure walk of the body does; an exception stops the loop |
| Parser.TestParser.VisitClassDef | test_parser.py:169-188 | `visit_ClassDef` updates the fields as the pure walk does |
| Parser.TestParser.VisitFunctionDef | test_parser.py:190-202 | `visit_FunctionDef` updates the fields as the pure walk does |
| Parser.ParseTwice | test_parser.py:99-109 | two `parse` calls with the same line on one parser give the same answer |
| ParserFixture.DoctestIgnoredClass | test_parser.py:35-37 | with `ignore_bases=['object']`, line 4 gives `(None, None)` |
| ParserFixture.DoctestIgnoredMethod | test_parser.py:39-40 | with `['object']`, every line from 5 to 10 gives `(None, None)` |
| ParserFixture.DoctestSecondIgnoredClass | test_parser.py:42-43 | with `['object']`, line 36 gives `(None, None)` |
| ParserFixture.DoctestSecondIgnoredMethod | test_parser.py:42-43 | with `['object']`, every line from 37 to 40 gives `(None, None)` |
| ParserFixture.DoctestBeforeEverything | test_parser.py:45-47 | line 1 gives `(None, None)` |
| ParserFixture.DoctestClassLine | test_parser.py:49-50 | line 4 gives `('AnotherClass', None)` |
| ParserFixture.DoctestMethod | test_parser.py:52-53 | every line from 5 to 10 gives `('AnotherClass', 'test_method')` |
| ParserFixture.DoctestClassBody | test_parser.py:55-56 | every line from 11 to 13 gives `('SomeTest', None)` |
| ParserFixture.DoctestMethodLine | test_parser.py:58-59 | line 14 gives `('SomeTest', 'test_addition')` |
| ParserFixture.DoctestMethodBody | test_parser.py:58-59 | every line from 15 to 20 gives `('SomeTest', 'test_addition')`: the nested `helper(a)` changes nothing |
| ParserFixture.DoctestModuleFunction | test_parser.py:61-62 | every line from 21 to 24 gives `(None, 'func_test')` |
| ParserFixture.DoctestOuterClassLine | test_parser.py:64-65 | line 25 gives `('ParentClass', None)` |
| ParserFixture.DoctestNestedClass | test_parser.py:64-65 | every line from 26 to 28 gives `('ParentClass', None)` |
| ParserFixture.DoctestNestedClassMethod | test_parser.py:64-68 | every line from 29 to 31 gives `('ParentClass', None)`: a method of the nested class is not reported |
| ParserFixture.DoctestOuterMethod | test_parser.py:70-71 | every line from 32 to 35 gives `('ParentClass', 'parent_method')` |
| ParserFixture.DoctestDecoratedClass | test_parser.py:73-75 | every line from 41 to 43 gives `('DecoratedTestClass', None)` |
| ParserFixture.DoctestDecoratedMethod | test_parser.py:77-78 | every line from 44 to 48 gives `('DecoratedTestClass', 'test_me')` |
| ParserFixture.DoctestFirstIsFunction | test_parser.py:80-83 | lines 2 and 3 give `(None, 'test_first')` |
| PythonTestPlier.GetModule | python_test_plier.py:50-62 | `''` for a missing file name, a name not ending in `.py`, or a name that does not start with `base`; otherwise a module with no path separator and no `.` at either end |
| PythonTestPlier.GetModuleUnderBase | python_test_plier.py:59-62 | a `.py` path below `base` in which `base` does not occur again becomes the path without its suffix, with separators as dots, stripped of dots |
| PythonTestPlier.ModuleOfTopLevelFile | python_test_plier.py:59-62 | a file directly in `base` is the module named as the file |
| PythonTestPlier.ModuleOfFileInDirectory | python_test_plier.py:59-62 | a file one directory below `base` is the module `dir.name` |
| PythonTestPlier.DottedModule | python_test_plier.py:62 | `/dir/name` becomes `dir.name`, with the separators inside `dir` turned into dots |
| PythonTestPlier.GetModuleSiblingPrefix | python_test_plier.py:59-62 | the prefix test is on strings, not directories: `/project/x.py` under the base `/proj` is the module `ect.x` |
| PythonTestPlier.GetModuleRelativeToWorkingDir | tests/test_command.py:192-216 | `/SublimeTestPlier/tests/file.py` under the working directory `/SublimeTestPlier/tests/` is the module `file` |
| PythonTestPlier.GetModuleRelativeToProject | tests/test_command.py:169-190 | the same file under `/SublimeTestPlier`, the project path joined with the project name, is the module `tests.file` |
| PythonTestPlier.GetModuleAgreesUnlessRepeated | python_test_plier.py:59-62 | for a `.py` file under a non-empty `base` that does not occur again after the prefix, the code as written and the corrected conversion give the same module |
| PythonTestPlier.GetModuleDropsRepeatedBase | python_test_plier.py:62 | as written, `/a/b/a/m.py` under `/a` is the module `b.m` |
| PythonTestPlier.GetModuleRelative | python_test_plier.py:50-62 | the corrected conversion keeps every promise of `GetModule`: `''` for a missing, non-`.py` or outside name, and otherwise no separator and no dot at either end |
| PythonTestPlier.GetModuleRelativeUnderBase | python_test_plier.py:59-62 | corrected: any `.py` path below `base` is its path relative to `base`, without the suffix, dotted and stripped, whatever it contains |
| PythonTestPlier.GetModuleRelativeKeepsRepeatedBase | python_test_plier.py:59-62 | corrected: `/a/b/a/m.py` under `/a` is the module `b.a.m` |
| PythonTestPlier.CleanPart | python_test_plier.py:78-79 | a cleaned part is empty or neither starts nor ends with a character of `sep` |
| PythonTestPlier.CleanPartCollapses | python_test_plier.py:79 | for a one-character separator, no two separators are adjacent in a cleaned part |
| PythonTestPlier.CleanPartKeeps | python_test_plier.py:78-79 | for a one-character separator, a part that is already tidy (no separator or dot at either end, no two separators side by side) is kept as it is |
| PythonTestPlier.Cleaned | python_test_plier.py:74-85 | the result has at most one part per command part |
| PythonTestPlier.CleanedTidy | python_test_plier.py:76-81 | every part of the result is non-empty and starts and ends with no character of `sep` |
| PythonTestPlier.FormatPlaceholder | python_test_plier.py:74-85 | the loop appends exactly the parts that `Cleaned` lists, in order |
| PythonTestPlier.CleanedAppend | python_test_plier.py:76-84 | parts are cleaned independently and in input order: cleaning a concatenation is concatenating the cleanings |
| PythonTestPlier.CleanedAt | python_test_plier.py:76-84 | the result is the cleaning of the parts before position `i`, then what part `i` gives, then the cleaning of the parts after it |
| PythonTestPlier.CleanedDropsMissingKey | python_test_plier.py:82-84 | a part whose formatting hits a missing key is dropped and the parts after it are still processed |
| PythonTestPlier.CleanedKeepsPart | python_test_plier.py:78-81 | a part whose cleaning is non-empty appears in the result at its place |
| PythonTestPlier.CustomCommandWithoutFile | tests/test_command.py:162-167 | `nosetests` with `-k {filename}:{test_class}.{test_func}` and sep `:`, with every field empty formats to `-k :.` and gives `['nosetests', '-k ']` |
| PythonTestPlier.CustomCommandWithCursor | tests/test_command.py:148-160 | the same command with the cursor on `TestCase.test_fail` of `file.py` gives `['nosetests', '-k file.py:TestCase.test_fail']` |
| PyStr.StripMiddle | python_test_plier.py:78 | `strip(chars)` keeps a middle slice and removes only characters of `chars` before and after it |
| PyStr.SubRunsCollapses | python_test_plier.py:79 | after `re.sub(c + '+', c, s)` no two `c` are adjacent |
| PyStr.SubRunsKeepsOtherCharacters | python_test_plier.py:79 | `re.sub(c + '+', c, s)` removes only copies of `c` |
| PyStr.SubRunsIsCollapseRuns | python_test_plier.py:79 | for a one-character separator `c`, `re.sub(c + '+', c, s)` equals the local reference `CollapseRuns`, which drops a `c` exactly when the next character is `c` |
| PyStr.SubRunsOneRun | python_test_plier.py:79 | a run of `n >= 1` copies of `c` between text without `c` becomes exactly one `c` |
| PyStr.SubRunsNoRuns | python_test_plier.py:79 | a string without adjacent `c` is left as it is, so collapsing twice is collapsing once |
| TestPlier.RunPythonTestsCommand.constructor | test_plier.py:15-27 | the setting is read once, both remembered names start as `''`, and the memory starts sound |
| TestPlier.RunPythonTestsCommand.GetLastTest | test_plier.py:99-109 | the names become `LastTest` of the old names; the ANSI flag is untouched |
| TestPlier.RunPythonTestsCommand.GetPattern | test_plier.py:84-97 | the names become `Pattern` of the old names, the found pair and the setting |
| TestPlier.RunPythonTestsCommand.SetupAnsiescape | test_plier.py:187-196 | the flag is set iff `sublimeansi` was a key; that key alone is removed from the keyword arguments; the names are untouched |
| TestPlier.Kwargs.Pop | test_plier.py:191 | returns the value under the key, if any, and removes that key alone |
| TestPlier.LowerAll | test_plier.py:101 | `lower()` keeps the length and lowers each character |
| TestPlier.LastTestReplaces | test_plier.py:101-103 | a missing, empty or non-`test_` function is replaced, with its class, by the remembered names, and the memory is unchanged |
| TestPlier.LastTestKeeps | test_plier.py:101-109 | a `test_` function, in any letter case, is kept with its class; it becomes the remembered function, and a non-empty class becomes the remembered class |
| TestPlier.LastTestRemembered | test_plier.py:99-109 | only an empty name or a test name is ever remembered as the function |
| TestPlier.LastTestIdempotent | test_plier.py:99-109 | calling `get_last_test` twice is calling it once |
| TestPlier.PatternNothing | test_plier.py:88-94 | with nothing found and nothing remembered, both names become `None` and the memory stays empty |
| TestPlier.PatternWithoutRunLast | test_plier.py:88-97 | without the setting the memory is never touched, and the found names are kept unless nothing was found and nothing remembered |
| TestPlier.PatternRunLast | test_plier.py:96-97 | with the setting, and anything found or remembered, the found names pass through `get_last_test` |
| TestPlier.PatternRemembered | test_plier.py:84-109 | `get_pattern` keeps the memory sound |

## Left out

- `ast.parse` is taken as given: a syntax tree is the input, and a `SyntaxError` is not modelled. Start lines and column offsets are inputs. The fixture puts a decorated class or method on its decorator line, as the doctests assume; this depends on the Python version.
- `async def` and `lambda` are walked only as plain children, as `generic_visit` does. Positional-only parameters are not distinguished: `firstArg` is the first entry of `args.args`.
- Logging (`_log`, the `debug` flag), reading the module file, `sys.exit` and `print` in `cli`: input and output. Only the joined line (test_parser.py:215) is modelled.
- The editor glue needs the Sublime API: `setup_runner`, `get_command_kwargs`, `run`, `ansi_installed`, the view access in `get_pattern`, the `utils` helpers and python_test_runner.py.
- Filesystem and process work is out: `find_venv_root`, `PATH` merging, `get_default_command`, `get_external_command` and utils/run_externally.py.
- `os.path.abspath` in test_plier.py `_get_module` (lines 53-54) is a foreign call. The python_test_plier.py variant, with `base` as an explicit parameter, is modelled. Only `/` is a path separator.
- `str.format` is a partial function from the template to its text; `None` stands for a `KeyError`. Other exceptions of `format` are not modelled.
- PythonTestPlier.FormatPlaceholder: requires a non-empty separator without regular-expression metacharacters. The source passes `sep` to `re.sub` unescaped, so any other separator would be a regular expression whose meaning is not modelled.
- Python `lower()` is modelled for ASCII letters only.
- TestPlier.RunPythonTestsCommand.GetPattern: takes the pair the editor found. A `None` pattern fails the tuple unpacking with a `TypeError`, and that failure is not modelled.
- TestPlier.RunPythonTestsCommand.constructor: sets the found names to `None` and the ANSI flag to false. The source leaves them unset until `get_pattern` and `setup_ansiescape` run.
- TestPlier.Kwargs.Pop: a missing key returns `None` instead of raising `KeyError`. `setup_ansiescape` only pops a key it has checked.
- Parser.TestParser.constructor: `source` is held as its syntax tree, and `debug` is not modelled.
- PythonTestPlier.Cleaned: its own contract bounds only the length. What the parts are is stated by CleanedTidy, CleanedAt, CleanedDropsMissingKey and CleanedKeepsPart.

## Findings

| source | as written | input that shows it | evidently intended | confidence | as-written member | corrected member |
|---|---|---|---|---|---|---|
| python_test_plier.py:62 | `filename.replace(base, '')` deletes every occurrence of `base`, not only the prefix checked at line 59 | `/a/b/a/m.py` with base `/a` gives the module `b.m` | the path relative to `base`, `b/a/m.py`, giving `b.a.m` | not executed | PythonTestPlier.GetModuleDropsRepeatedBase | PythonTestPlier.GetModuleRelativeKeepsRepeatedBase |
