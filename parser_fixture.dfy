/** The module tests/_fixture.py as the locator sees it, and the answers that the
    doctests of test_parser.py expect for it. The decorated class and method start
    on the line of their decorator, as those doctests assume. */
module ParserFixture {
  import opened Wrappers
  import opened Parser

  function TestFirst(): FunctionNode { FunctionDef(2, 0, "test_first", None, [Other([])]) }

  function AnotherTestMethod(): FunctionNode { FunctionDef(5, 4, "test_method", Some("self"), [Other([])]) }

  function AnotherClass(): ClassNode { ClassDef(4, 0, "AnotherClass", [Name("object")], [AnotherTestMethod()]) }

  function Helper(): FunctionNode { FunctionDef(15, 8, "helper", Some("a"), [Other([])]) }

  function TestAddition(): FunctionNode { FunctionDef(14, 4, "test_addition", Some("self"), [Helper(), Other([])]) }

  function SomeTest(): ClassNode { ClassDef(11, 0, "SomeTest", [Name("TestClass")], [Other([]), TestAddition()]) }

  function FuncTest(): FunctionNode { FunctionDef(21, 0, "func_test", None, [Other([])]) }

  function ChildMethod(): FunctionNode { FunctionDef(29, 8, "child_method", Some("self"), [Other([])]) }

  function ChildClass(): ClassNode { ClassDef(26, 4, "ChildClass", [], [Other([]), ChildMethod()]) }

  function ParentMethod(): FunctionNode { FunctionDef(32, 4, "parent_method", Some("self"), [Other([])]) }

  function ParentClass(): ClassNode { ClassDef(25, 0, "ParentClass", [Name("AnotherClass")], [ChildClass(), ParentMethod()]) }

  function IgnoredTestMethod(): FunctionNode { FunctionDef(37, 4, "test_method", Some("self"), [Other([])]) }

  function AnotherIgnoredClass(): ClassNode { ClassDef(36, 0, "AnotherIgnoredClass", [Name("object")], [IgnoredTestMethod()]) }

  function TestMe(): FunctionNode { FunctionDef(44, 4, "test_me", Some("self"), [Other([])]) }

  function DecoratedTestClass(): ClassNode { ClassDef(41, 0, "DecoratedTestClass", [Name("TestClass")], [TestMe()]) }

  function ModuleTestMe(): FunctionNode { FunctionDef(50, 4, "test_me", Some("self"), [Other([])]) }

  function ParentInModuleClass(): ClassNode {
    ClassDef(49, 0, "ParentInModuleClass", [Attribute("TestClass")], [ModuleTestMe()])
  }

  /** The statements of tests/_fixture.py from the `k`-th definition on, for
      `From1` to `From8`. */
  function From8(): seq<Node> { [ParentInModuleClass()] }
  function From7(): seq<Node> { [DecoratedTestClass()] + From8() }
  function From6(): seq<Node> { [AnotherIgnoredClass()] + From7() }
  function From5(): seq<Node> { [ParentClass()] + From6() }
  function From4(): seq<Node> { [FuncTest()] + From5() }
  function From3(): seq<Node> { [SomeTest()] + From4() }
  function From2(): seq<Node> { [AnotherClass()] + From3() }
  function From1(): seq<Node> { [TestFirst()] + From2() }

  /** tests/_fixture.py: an import, then the definitions above in source order. */
  function Top(): seq<Node> { [Other([])] + From1() }

  function Fixture(): Node { Other(Top()) }

  function Found(cls: Option<string>, func: Option<string>): Result<(Option<string>, Option<string>), Error> {
    Ok((cls, func))
  }

  /** The states the walk is in once a definition has been walked in full. */
  function State0(): ParserState { StartState(None) }
  function State1(): ParserState { ParserState(None, Some(TestFirst()), None, None) }
  function State2(): ParserState { ParserState(Some(AnotherClass()), Some(AnotherTestMethod()), None, None) }
  function State3(): ParserState { ParserState(Some(SomeTest()), Some(TestAddition()), None, None) }
  function State4(): ParserState { ParserState(None, Some(FuncTest()), None, None) }
  function State5(): ParserState { ParserState(Some(ParentClass()), Some(ParentMethod()), None, Some(ChildClass())) }
  function State6(): ParserState { ParserState(Some(AnotherIgnoredClass()), Some(IgnoredTestMethod()), None, None) }
  function State7(): ParserState { ParserState(Some(DecoratedTestClass()), Some(TestMe()), None, None) }
  function IgnoredState2(): ParserState { ParserState(None, None, Some(AnotherClass()), None) }
  function IgnoredState6(): ParserState { ParserState(None, None, Some(AnotherIgnoredClass()), None) }

  // ---------------------------------------------------------------------------
  // The walk over the module, one statement at a time

  /** Walking a statement and then the rest. */
  lemma Step(s: ParserState, node: Node, rest: seq<Node>, cfg: Config, t: ParserState)
    requires WalkNode(s, node, cfg) == Ok(t)
    ensures WalkBody(s, [node] + rest, cfg) == WalkBody(t, rest, cfg)
  {
    assert ([node] + rest)[0] == node;
    assert ([node] + rest)[1..] == rest;
  }

  /** The import changes nothing. */
  lemma PastImport(ignore: seq<string>, line: int)
    ensures WalkBody(State0(), Top(), Config(ignore, line)) == WalkBody(State0(), From1(), Config(ignore, line))
  {
    Step(State0(), Other([]), From1(), Config(ignore, line), State0());
  }

  /** The definitions from the 1-th on all start after any earlier line. */
  lemma Later1(ignore: seq<string>, line: int, t: ParserState)
    requires 0 < line < 2
    ensures WalkBody(t, From1(), Config(ignore, line)) == Ok(t)
  {
    assert OpenAfter(From1(), 1);
    OpenAfterBelow(From1(), line, 1);
    WalkBodySkipsLater(t, From1(), Config(ignore, line));
  }

  /** The definitions from the 2-th on all start after any earlier line. */
  lemma Later2(ignore: seq<string>, line: int, t: ParserState)
    requires 0 < line < 4
    ensures WalkBody(t, From2(), Config(ignore, line)) == Ok(t)
  {
    assert OpenAfter(From2(), 3);
    OpenAfterBelow(From2(), line, 3);
    WalkBodySkipsLater(t, From2(), Config(ignore, line));
  }

  /** The definitions from the 3-th on all start after any earlier line. */
  lemma Later3(ignore: seq<string>, line: int, t: ParserState)
    requires 0 < line < 11
    ensures WalkBody(t, From3(), Config(ignore, line)) == Ok(t)
  {
    assert OpenAfter(From3(), 10);
    OpenAfterBelow(From3(), line, 10);
    WalkBodySkipsLater(t, From3(), Config(ignore, line));
  }

  /** The definitions from the 4-th on all start after any earlier line. */
  lemma Later4(ignore: seq<string>, line: int, t: ParserState)
    requires 0 < line < 21
    ensures WalkBody(t, From4(), Config(ignore, line)) == Ok(t)
  {
    assert OpenAfter(From4(), 20);
    OpenAfterBelow(From4(), line, 20);
    WalkBodySkipsLater(t, From4(), Config(ignore, line));
  }

  /** The definitions from the 5-th on all start after any earlier line. */
  lemma Later5(ignore: seq<string>, line: int, t: ParserState)
    requires 0 < line < 25
    ensures WalkBody(t, From5(), Config(ignore, line)) == Ok(t)
  {
    assert OpenAfter(From5(), 24);
    OpenAfterBelow(From5(), line, 24);
    WalkBodySkipsLater(t, From5(), Config(ignore, line));
  }

  /** The definitions from the 6-th on all start after any earlier line. */
  lemma Later6(ignore: seq<string>, line: int, t: ParserState)
    requires 0 < line < 36
    ensures WalkBody(t, From6(), Config(ignore, line)) == Ok(t)
  {
    assert OpenAfter(From6(), 35);
    OpenAfterBelow(From6(), line, 35);
    WalkBodySkipsLater(t, From6(), Config(ignore, line));
  }

  /** The definitions from the 7-th on all start after any earlier line. */
  lemma Later7(ignore: seq<string>, line: int, t: ParserState)
    requires 0 < line < 41
    ensures WalkBody(t, From7(), Config(ignore, line)) == Ok(t)
  {
    assert OpenAfter(From7(), 40);
    OpenAfterBelow(From7(), line, 40);
    WalkBodySkipsLater(t, From7(), Config(ignore, line));
  }

  /** The definitions from the 8-th on all start after any earlier line. */
  lemma Later8(ignore: seq<string>, line: int, t: ParserState)
    requires 0 < line < 49
    ensures WalkBody(t, From8(), Config(ignore, line)) == Ok(t)
  {
    assert OpenAfter(From8(), 48);
    OpenAfterBelow(From8(), line, 48);
    WalkBodySkipsLater(t, From8(), Config(ignore, line));
  }

  /** TestFirst walked in full, at any line from 2 on. */
  lemma Walk1(line: int)
    requires line >= 2
    ensures WalkNode(State0(), TestFirst(), Config([], line)) == Ok(State1())
  {
    assert WalkNode(State0(), TestFirst(), Config([], 2)) == Ok(State1());
    assert OpensBy(TestFirst(), 2);
    OpensByNoDef(TestFirst(), 2, line);
    LineStableNode(State0(), TestFirst(), [], 2, line);
  }

  /** Every line from 2 on is past TestFirst. */
  lemma Past1(line: int)
    requires line >= 2
    ensures WalkBody(State0(), Top(), Config([], line)) == WalkBody(State1(), From2(), Config([], line))
  {
    PastImport([], line);
    Walk1(line);
    Step(State0(), TestFirst(), From2(), Config([], line), State1());
  }

  /** AnotherClass walked in full, at any line from 5 on. */
  lemma Walk2(line: int)
    requires line >= 5
    ensures WalkNode(State1(), AnotherClass(), Config([], line)) == Ok(State2())
  {
    assert WalkNode(State1(), AnotherClass(), Config([], 5)) == Ok(State2());
    assert OpensBy(AnotherClass(), 5);
    OpensByNoDef(AnotherClass(), 5, line);
    LineStableNode(State1(), AnotherClass(), [], 5, line);
  }

  /** Every line from 5 on is past AnotherClass. */
  lemma Past2(line: int)
    requires line >= 5
    ensures WalkBody(State0(), Top(), Config([], line)) == WalkBody(State2(), From3(), Config([], line))
  {
    Past1(line);
    Walk2(line);
    Step(State1(), AnotherClass(), From3(), Config([], line), State2());
  }

  /** SomeTest walked in full, at any line from 15 on. */
  lemma Walk3(line: int)
    requires line >= 15
    ensures WalkNode(State2(), SomeTest(), Config([], line)) == Ok(State3())
  {
    assert WalkNode(State2(), SomeTest(), Config([], 15)) == Ok(State3());
    assert OpensBy(SomeTest(), 15);
    OpensByNoDef(SomeTest(), 15, line);
    LineStableNode(State2(), SomeTest(), [], 15, line);
  }

  /** Every line from 15 on is past SomeTest. */
  lemma Past3(line: int)
    requires line >= 15
    ensures WalkBody(State0(), Top(), Config([], line)) == WalkBody(State3(), From4(), Config([], line))
  {
    Past2(line);
    Walk3(line);
    Step(State2(), SomeTest(), From4(), Config([], line), State3());
  }

  /** FuncTest walked in full, at any line from 21 on. */
  lemma Walk4(line: int)
    requires line >= 21
    ensures WalkNode(State3(), FuncTest(), Config([], line)) == Ok(State4())
  {
    assert WalkNode(State3(), FuncTest(), Config([], 21)) == Ok(State4());
    assert OpensBy(FuncTest(), 21);
    OpensByNoDef(FuncTest(), 21, line);
    LineStableNode(State3(), FuncTest(), [], 21, line);
  }

  /** Every line from 21 on is past FuncTest. */
  lemma Past4(line: int)
    requires line >= 21
    ensures WalkBody(State0(), Top(), Config([], line)) == WalkBody(State4(), From5(), Config([], line))
  {
    Past3(line);
    Walk4(line);
    Step(State3(), FuncTest(), From5(), Config([], line), State4());
  }

  /** ParentClass walked in full, at any line from 32 on. */
  lemma Walk5(line: int)
    requires line >= 32
    ensures WalkNode(State4(), ParentClass(), Config([], line)) == Ok(State5())
  {
    assert WalkNode(State4(), ParentClass(), Config([], 32)) == Ok(State5());
    assert OpensBy(ParentClass(), 32);
    OpensByNoDef(ParentClass(), 32, line);
    LineStableNode(State4(), ParentClass(), [], 32, line);
  }

  /** Every line from 32 on is past ParentClass. */
  lemma Past5(line: int)
    requires line >= 32
    ensures WalkBody(State0(), Top(), Config([], line)) == WalkBody(State5(), From6(), Config([], line))
  {
    Past4(line);
    Walk5(line);
    Step(State4(), ParentClass(), From6(), Config([], line), State5());
  }

  /** AnotherIgnoredClass walked in full, at any line from 37 on. */
  lemma Walk6(line: int)
    requires line >= 37
    ensures WalkNode(State5(), AnotherIgnoredClass(), Config([], line)) == Ok(State6())
  {
    assert WalkNode(State5(), AnotherIgnoredClass(), Config([], 37)) == Ok(State6());
    assert OpensBy(AnotherIgnoredClass(), 37);
    OpensByNoDef(AnotherIgnoredClass(), 37, line);
    LineStableNode(State5(), AnotherIgnoredClass(), [], 37, line);
  }

  /** Every line from 37 on is past AnotherIgnoredClass. */
  lemma Past6(line: int)
    requires line >= 37
    ensures WalkBody(State0(), Top(), Config([], line)) == WalkBody(State6(), From7(), Config([], line))
  {
    Past5(line);
    Walk6(line);
    Step(State5(), AnotherIgnoredClass(), From7(), Config([], line), State6());
  }

  /** TestFirst walked in full, at any line from 2 on. */
  lemma IgnoredWalk1(line: int)
    requires line >= 2
    ensures WalkNode(State0(), TestFirst(), Config(["object"], line)) == Ok(State1())
  {
    assert WalkNode(State0(), TestFirst(), Config(["object"], 2)) == Ok(State1());
    assert OpensBy(TestFirst(), 2);
    OpensByNoDef(TestFirst(), 2, line);
    LineStableNode(State0(), TestFirst(), ["object"], 2, line);
  }

  /** Every line from 2 on is past TestFirst. */
  lemma IgnoredPast1(line: int)
    requires line >= 2
    ensures WalkBody(State0(), Top(), Config(["object"], line)) == WalkBody(State1(), From2(), Config(["object"], line))
  {
    PastImport(["object"], line);
    IgnoredWalk1(line);
    Step(State0(), TestFirst(), From2(), Config(["object"], line), State1());
  }

  /** AnotherClass walked in full, at any line from 5 on. */
  lemma IgnoredWalk2(line: int)
    requires line >= 5
    ensures WalkNode(State1(), AnotherClass(), Config(["object"], line)) == Ok(IgnoredState2())
  {
    assert WalkNode(State1(), AnotherClass(), Config(["object"], 5)) == Ok(IgnoredState2());
    assert OpensBy(AnotherClass(), 5);
    OpensByNoDef(AnotherClass(), 5, line);
    LineStableNode(State1(), AnotherClass(), ["object"], 5, line);
  }

  /** Every line from 5 on is past AnotherClass. */
  lemma IgnoredPast2(line: int)
    requires line >= 5
    ensures WalkBody(State0(), Top(), Config(["object"], line)) == WalkBody(IgnoredState2(), From3(), Config(["object"], line))
  {
    IgnoredPast1(line);
    IgnoredWalk2(line);
    Step(State1(), AnotherClass(), From3(), Config(["object"], line), IgnoredState2());
  }

  /** SomeTest walked in full, at any line from 15 on. */
  lemma IgnoredWalk3(line: int)
    requires line >= 15
    ensures WalkNode(IgnoredState2(), SomeTest(), Config(["object"], line)) == Ok(State3())
  {
    assert WalkNode(IgnoredState2(), SomeTest(), Config(["object"], 15)) == Ok(State3());
    assert OpensBy(SomeTest(), 15);
    OpensByNoDef(SomeTest(), 15, line);
    LineStableNode(IgnoredState2(), SomeTest(), ["object"], 15, line);
  }

  /** Every line from 15 on is past SomeTest. */
  lemma IgnoredPast3(line: int)
    requires line >= 15
    ensures WalkBody(State0(), Top(), Config(["object"], line)) == WalkBody(State3(), From4(), Config(["object"], line))
  {
    IgnoredPast2(line);
    IgnoredWalk3(line);
    Step(IgnoredState2(), SomeTest(), From4(), Config(["object"], line), State3());
  }

  /** FuncTest walked in full, at any line from 21 on. */
  lemma IgnoredWalk4(line: int)
    requires line >= 21
    ensures WalkNode(State3(), FuncTest(), Config(["object"], line)) == Ok(State4())
  {
    assert WalkNode(State3(), FuncTest(), Config(["object"], 21)) == Ok(State4());
    assert OpensBy(FuncTest(), 21);
    OpensByNoDef(FuncTest(), 21, line);
    LineStableNode(State3(), FuncTest(), ["object"], 21, line);
  }

  /** Every line from 21 on is past FuncTest. */
  lemma IgnoredPast4(line: int)
    requires line >= 21
    ensures WalkBody(State0(), Top(), Config(["object"], line)) == WalkBody(State4(), From5(), Config(["object"], line))
  {
    IgnoredPast3(line);
    IgnoredWalk4(line);
    Step(State3(), FuncTest(), From5(), Config(["object"], line), State4());
  }

  /** ParentClass walked in full, at any line from 32 on. */
  lemma IgnoredWalk5(line: int)
    requires line >= 32
    ensures WalkNode(State4(), ParentClass(), Config(["object"], line)) == Ok(State5())
  {
    assert WalkNode(State4(), ParentClass(), Config(["object"], 32)) == Ok(State5());
    assert OpensBy(ParentClass(), 32);
    OpensByNoDef(ParentClass(), 32, line);
    LineStableNode(State4(), ParentClass(), ["object"], 32, line);
  }

  /** Every line from 32 on is past ParentClass. */
  lemma IgnoredPast5(line: int)
    requires line >= 32
    ensures WalkBody(State0(), Top(), Config(["object"], line)) == WalkBody(State5(), From6(), Config(["object"], line))
  {
    IgnoredPast4(line);
    IgnoredWalk5(line);
    Step(State4(), ParentClass(), From6(), Config(["object"], line), State5());
  }

  // ---------------------------------------------------------------------------
  // The doctests of TestParser, each over the run of lines it samples

  /** `parser.parse(line=1)`: nothing starts before line 2. */
  lemma DoctestBeforeEverything(line: int)
    requires 1 <= line < 2
    ensures Locate(Fixture(), [], line) == Found(None, None)
  {
    PastImport([], line);
    Later1([], line, State0());
  }

  lemma WalkFirstIsFunction(line: int)
    requires 2 <= line < 4
    ensures WalkNode(State0(), TestFirst(), Config([], line)) == Ok(State1())
  {
    assert WalkNode(State0(), TestFirst(), Config([], 2)) == Ok(State1());
    assert NoDefStartsIn(TestFirst(), 2, 3);
    NoDefStartsWithin(TestFirst(), 2, 3, line);
    LineStableNode(State0(), TestFirst(), [], 2, line);
  }

  /** `parser.parse(line=2)`: the first test is a module-level function. */
  lemma DoctestFirstIsFunction(line: int)
    requires 2 <= line < 4
    ensures Locate(Fixture(), [], line) == Found(None, Some("test_first"))
  {
    PastImport([], line);
    WalkFirstIsFunction(line);
    Step(State0(), TestFirst(), From2(), Config([], line), State1());
    Later2([], line, State1());
  }

  lemma WalkClassLine(line: int)
    requires 4 <= line < 5
    ensures WalkNode(State1(), AnotherClass(), Config([], line)) == Ok(ParserState(Some(AnotherClass()), None, None, None))
  {
    assert WalkNode(State1(), AnotherClass(), Config([], 4)) == Ok(ParserState(Some(AnotherClass()), None, None, None));
    assert NoDefStartsIn(AnotherClass(), 4, 4);
    NoDefStartsWithin(AnotherClass(), 4, 4, line);
    LineStableNode(State1(), AnotherClass(), [], 4, line);
  }

  /** `parser.parse(line=4)`: a class line names the class alone. */
  lemma DoctestClassLine(line: int)
    requires 4 <= line < 5
    ensures Locate(Fixture(), [], line) == Found(Some("AnotherClass"), None)
  {
    Past1(line);
    WalkClassLine(line);
    Step(State1(), AnotherClass(), From3(), Config([], line), ParserState(Some(AnotherClass()), None, None, None));
    Later3([], line, ParserState(Some(AnotherClass()), None, None, None));
  }

  lemma WalkMethod(line: int)
    requires 5 <= line < 11
    ensures WalkNode(State1(), AnotherClass(), Config([], line)) == Ok(State2())
  {
    assert WalkNode(State1(), AnotherClass(), Config([], 5)) == Ok(State2());
    assert NoDefStartsIn(AnotherClass(), 5, 10);
    NoDefStartsWithin(AnotherClass(), 5, 10, line);
    LineStableNode(State1(), AnotherClass(), [], 5, line);
  }

  /** Lines 5 and 7: a method and the lines after it. */
  lemma DoctestMethod(line: int)
    requires 5 <= line < 11
    ensures Locate(Fixture(), [], line) == Found(Some("AnotherClass"), Some("test_method"))
  {
    Past1(line);
    WalkMethod(line);
    Step(State1(), AnotherClass(), From3(), Config([], line), State2());
    Later3([], line, State2());
  }

  lemma WalkClassBody(line: int)
    requires 11 <= line < 14
    ensures WalkNode(State2(), SomeTest(), Config([], line)) == Ok(ParserState(Some(SomeTest()), None, None, None))
  {
    assert WalkNode(State2(), SomeTest(), Config([], 11)) == Ok(ParserState(Some(SomeTest()), None, None, None));
    assert NoDefStartsIn(SomeTest(), 11, 13);
    NoDefStartsWithin(SomeTest(), 11, 13, line);
    LineStableNode(State2(), SomeTest(), [], 11, line);
  }

  /** Lines 11 to 13: entering a class forgets the function before it. */
  lemma DoctestClassBody(line: int)
    requires 11 <= line < 14
    ensures Locate(Fixture(), [], line) == Found(Some("SomeTest"), None)
  {
    Past2(line);
    WalkClassBody(line);
    Step(State2(), SomeTest(), From4(), Config([], line), ParserState(Some(SomeTest()), None, None, None));
    Later4([], line, ParserState(Some(SomeTest()), None, None, None));
  }

  lemma WalkMethodLine(line: int)
    requires 14 <= line < 15
    ensures WalkNode(State2(), SomeTest(), Config([], line)) == Ok(State3())
  {
    assert WalkNode(State2(), SomeTest(), Config([], 14)) == Ok(State3());
    assert NoDefStartsIn(SomeTest(), 14, 14);
    NoDefStartsWithin(SomeTest(), 14, 14, line);
    LineStableNode(State2(), SomeTest(), [], 14, line);
  }

  /** Line 14: the method line. */
  lemma DoctestMethodLine(line: int)
    requires 14 <= line < 15
    ensures Locate(Fixture(), [], line) == Found(Some("SomeTest"), Some("test_addition"))
  {
    Past2(line);
    WalkMethodLine(line);
    Step(State2(), SomeTest(), From4(), Config([], line), State3());
    Later4([], line, State3());
  }

  lemma WalkMethodBody(line: int)
    requires 15 <= line < 21
    ensures WalkNode(State2(), SomeTest(), Config([], line)) == Ok(State3())
  {
    assert WalkNode(State2(), SomeTest(), Config([], 15)) == Ok(State3());
    assert NoDefStartsIn(SomeTest(), 15, 20);
    NoDefStartsWithin(SomeTest(), 15, 20, line);
    LineStableNode(State2(), SomeTest(), [], 15, line);
  }

  /** Lines 15 to 18: a nested function whose first argument is not `self` leaves
      the method in place. */
  lemma DoctestMethodBody(line: int)
    requires 15 <= line < 21
    ensures Locate(Fixture(), [], line) == Found(Some("SomeTest"), Some("test_addition"))
  {
    Past2(line);
    WalkMethodBody(line);
    Step(State2(), SomeTest(), From4(), Config([], line), State3());
    Later4([], line, State3());
  }

  lemma WalkModuleFunction(line: int)
    requires 21 <= line < 25
    ensures WalkNode(State3(), FuncTest(), Config([], line)) == Ok(State4())
  {
    assert WalkNode(State3(), FuncTest(), Config([], 21)) == Ok(State4());
    assert NoDefStartsIn(FuncTest(), 21, 24);
    NoDefStartsWithin(FuncTest(), 21, 24, line);
    LineStableNode(State3(), FuncTest(), [], 21, line);
  }

  /** Lines 21 and 22: a module-level function after a class forgets the class. */
  lemma DoctestModuleFunction(line: int)
    requires 21 <= line < 25
    ensures Locate(Fixture(), [], line) == Found(None, Some("func_test"))
  {
    Past3(line);
    WalkModuleFunction(line);
    Step(State3(), FuncTest(), From5(), Config([], line), State4());
    Later5([], line, State4());
  }

  lemma WalkOuterClassLine(line: int)
    requires 25 <= line < 26
    ensures WalkNode(State4(), ParentClass(), Config([], line)) == Ok(ParserState(Some(ParentClass()), None, None, None))
  {
    assert WalkNode(State4(), ParentClass(), Config([], 25)) == Ok(ParserState(Some(ParentClass()), None, None, None));
    assert NoDefStartsIn(ParentClass(), 25, 25);
    NoDefStartsWithin(ParentClass(), 25, 25, line);
    LineStableNode(State4(), ParentClass(), [], 25, line);
  }

  /** Line 25: the outer class line. */
  lemma DoctestOuterClassLine(line: int)
    requires 25 <= line < 26
    ensures Locate(Fixture(), [], line) == Found(Some("ParentClass"), None)
  {
    Past4(line);
    WalkOuterClassLine(line);
    Step(State4(), ParentClass(), From6(), Config([], line), ParserState(Some(ParentClass()), None, None, None));
    Later6([], line, ParserState(Some(ParentClass()), None, None, None));
  }

  lemma WalkNestedClass(line: int)
    requires 26 <= line < 29
    ensures WalkNode(State4(), ParentClass(), Config([], line)) == Ok(ParserState(Some(ParentClass()), None, None, Some(ChildClass())))
  {
    assert WalkNode(State4(), ParentClass(), Config([], 26)) == Ok(ParserState(Some(ParentClass()), None, None, Some(ChildClass())));
    assert NoDefStartsIn(ParentClass(), 26, 28);
    NoDefStartsWithin(ParentClass(), 26, 28, line);
    LineStableNode(State4(), ParentClass(), [], 26, line);
  }

  /** Lines 26 to 28: a nested class is reported as its outermost class. */
  lemma DoctestNestedClass(line: int)
    requires 26 <= line < 29
    ensures Locate(Fixture(), [], line) == Found(Some("ParentClass"), None)
  {
    Past4(line);
    WalkNestedClass(line);
    Step(State4(), ParentClass(), From6(), Config([], line), ParserState(Some(ParentClass()), None, None, Some(ChildClass())));
    Later6([], line, ParserState(Some(ParentClass()), None, None, Some(ChildClass())));
  }

  lemma WalkNestedClassMethod(line: int)
    requires 29 <= line < 32
    ensures WalkNode(State4(), ParentClass(), Config([], line)) == Ok(ParserState(Some(ParentClass()), None, None, Some(ChildClass())))
  {
    assert WalkNode(State4(), ParentClass(), Config([], 29)) == Ok(ParserState(Some(ParentClass()), None, None, Some(ChildClass())));
    assert NoDefStartsIn(ParentClass(), 29, 31);
    NoDefStartsWithin(ParentClass(), 29, 31, line);
    LineStableNode(State4(), ParentClass(), [], 29, line);
  }

  /** Lines 29 to 31: a method of a nested class is not reported. */
  lemma DoctestNestedClassMethod(line: int)
    requires 29 <= line < 32
    ensures Locate(Fixture(), [], line) == Found(Some("ParentClass"), None)
  {
    Past4(line);
    WalkNestedClassMethod(line);
    Step(State4(), ParentClass(), From6(), Config([], line), ParserState(Some(ParentClass()), None, None, Some(ChildClass())));
    Later6([], line, ParserState(Some(ParentClass()), None, None, Some(ChildClass())));
  }

  lemma WalkOuterMethod(line: int)
    requires 32 <= line < 36
    ensures WalkNode(State4(), ParentClass(), Config([], line)) == Ok(State5())
  {
    assert WalkNode(State4(), ParentClass(), Config([], 32)) == Ok(State5());
    assert NoDefStartsIn(ParentClass(), 32, 35);
    NoDefStartsWithin(ParentClass(), 32, 35, line);
    LineStableNode(State4(), ParentClass(), [], 32, line);
  }

  /** Lines 32 and 33: a method of the outer class after the nested class. */
  lemma DoctestOuterMethod(line: int)
    requires 32 <= line < 36
    ensures Locate(Fixture(), [], line) == Found(Some("ParentClass"), Some("parent_method"))
  {
    Past4(line);
    WalkOuterMethod(line);
    Step(State4(), ParentClass(), From6(), Config([], line), State5());
    Later6([], line, State5());
  }

  lemma WalkDecoratedClass(line: int)
    requires 41 <= line < 44
    ensures WalkNode(State6(), DecoratedTestClass(), Config([], line)) == Ok(ParserState(Some(DecoratedTestClass()), None, None, None))
  {
    assert WalkNode(State6(), DecoratedTestClass(), Config([], 41)) == Ok(ParserState(Some(DecoratedTestClass()), None, None, None));
    assert NoDefStartsIn(DecoratedTestClass(), 41, 43);
    NoDefStartsWithin(DecoratedTestClass(), 41, 43, line);
    LineStableNode(State6(), DecoratedTestClass(), [], 41, line);
  }

  /** `range(41, 44)`: a decorated class. */
  lemma DoctestDecoratedClass(line: int)
    requires 41 <= line < 44
    ensures Locate(Fixture(), [], line) == Found(Some("DecoratedTestClass"), None)
  {
    Past6(line);
    WalkDecoratedClass(line);
    Step(State6(), DecoratedTestClass(), From8(), Config([], line), ParserState(Some(DecoratedTestClass()), None, None, None));
    Later8([], line, ParserState(Some(DecoratedTestClass()), None, None, None));
  }

  lemma WalkDecoratedMethod(line: int)
    requires 44 <= line < 49
    ensures WalkNode(State6(), DecoratedTestClass(), Config([], line)) == Ok(State7())
  {
    assert WalkNode(State6(), DecoratedTestClass(), Config([], 44)) == Ok(State7());
    assert NoDefStartsIn(DecoratedTestClass(), 44, 48);
    NoDefStartsWithin(DecoratedTestClass(), 44, 48, line);
    LineStableNode(State6(), DecoratedTestClass(), [], 44, line);
  }

  /** `range(44, 47)`: a decorated method. */
  lemma DoctestDecoratedMethod(line: int)
    requires 44 <= line < 49
    ensures Locate(Fixture(), [], line) == Found(Some("DecoratedTestClass"), Some("test_me"))
  {
    Past6(line);
    WalkDecoratedMethod(line);
    Step(State6(), DecoratedTestClass(), From8(), Config([], line), State7());
    Later8([], line, State7());
  }

  lemma WalkIgnoredClass(line: int)
    requires 4 <= line < 5
    ensures WalkNode(State1(), AnotherClass(), Config(["object"], line)) == Ok(IgnoredState2())
  {
    assert WalkNode(State1(), AnotherClass(), Config(["object"], 4)) == Ok(IgnoredState2());
    assert NoDefStartsIn(AnotherClass(), 4, 4);
    NoDefStartsWithin(AnotherClass(), 4, 4, line);
    LineStableNode(State1(), AnotherClass(), ["object"], 4, line);
  }

  /** `parser.parse(line=4)` with `ignore_bases=['object']`: a class deriving from
      `object` is skipped. */
  lemma DoctestIgnoredClass(line: int)
    requires 4 <= line < 5
    ensures Locate(Fixture(), ["object"], line) == Found(None, None)
  {
    IgnoredPast1(line);
    WalkIgnoredClass(line);
    Step(State1(), AnotherClass(), From3(), Config(["object"], line), IgnoredState2());
    Later3(["object"], line, IgnoredState2());
  }

  lemma WalkIgnoredMethod(line: int)
    requires 5 <= line < 11
    ensures WalkNode(State1(), AnotherClass(), Config(["object"], line)) == Ok(IgnoredState2())
  {
    assert WalkNode(State1(), AnotherClass(), Config(["object"], 5)) == Ok(IgnoredState2());
    assert NoDefStartsIn(AnotherClass(), 5, 10);
    NoDefStartsWithin(AnotherClass(), 5, 10, line);
    LineStableNode(State1(), AnotherClass(), ["object"], 5, line);
  }

  /** Lines 5 and 7 with `ignore_bases=['object']`: so are its methods. */
  lemma DoctestIgnoredMethod(line: int)
    requires 5 <= line < 11
    ensures Locate(Fixture(), ["object"], line) == Found(None, None)
  {
    IgnoredPast1(line);
    WalkIgnoredMethod(line);
    Step(State1(), AnotherClass(), From3(), Config(["object"], line), IgnoredState2());
    Later3(["object"], line, IgnoredState2());
  }

  lemma WalkSecondIgnoredClass(line: int)
    requires 36 <= line < 37
    ensures WalkNode(State5(), AnotherIgnoredClass(), Config(["object"], line)) == Ok(IgnoredState6())
  {
    assert WalkNode(State5(), AnotherIgnoredClass(), Config(["object"], 36)) == Ok(IgnoredState6());
    assert NoDefStartsIn(AnotherIgnoredClass(), 36, 36);
    NoDefStartsWithin(AnotherIgnoredClass(), 36, 36, line);
    LineStableNode(State5(), AnotherIgnoredClass(), ["object"], 36, line);
  }

  /** Line 36 with `ignore_bases=['object']`: an ignored class after others. */
  lemma DoctestSecondIgnoredClass(line: int)
    requires 36 <= line < 37
    ensures Locate(Fixture(), ["object"], line) == Found(None, None)
  {
    IgnoredPast5(line);
    WalkSecondIgnoredClass(line);
    Step(State5(), AnotherIgnoredClass(), From7(), Config(["object"], line), IgnoredState6());
    Later7(["object"], line, IgnoredState6());
  }

  lemma WalkSecondIgnoredMethod(line: int)
    requires 37 <= line < 41
    ensures WalkNode(State5(), AnotherIgnoredClass(), Config(["object"], line)) == Ok(IgnoredState6())
  {
    assert WalkNode(State5(), AnotherIgnoredClass(), Config(["object"], 37)) == Ok(IgnoredState6());
    assert NoDefStartsIn(AnotherIgnoredClass(), 37, 40);
    NoDefStartsWithin(AnotherIgnoredClass(), 37, 40, line);
    LineStableNode(State5(), AnotherIgnoredClass(), ["object"], 37, line);
  }

  /** Lines 37 and 38 with `ignore_bases=['object']`: its method. */
  lemma DoctestSecondIgnoredMethod(line: int)
    requires 37 <= line < 41
    ensures Locate(Fixture(), ["object"], line) == Found(None, None)
  {
    IgnoredPast5(line);
    WalkSecondIgnoredMethod(line);
    Step(State5(), AnotherIgnoredClass(), From7(), Config(["object"], line), IgnoredState6());
    Later7(["object"], line, IgnoredState6());
  }
}
