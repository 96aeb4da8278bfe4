/** The checks of the inner `TestCase` of test/test_assertions.py, as
    step sequences, and the results the outer tests expect of them, each
    replayed by a lemma: running the modelled checks gives exactly the
    expected counters and check names, and the expected fault tuples up to
    the diff addendum of a detail and the location field. */
module Fixtures {
  import opened Options
  import opened PyValues
  import opened PyRepr
  import opened Patterns
  import opened Assertions
  import opened Results

  /** A fault the outer tests expect, without its location, which is
      always None there; `detail` is the expected text as the test spells it. */
  datatype ExpectedFault = Expected(mark: char, test: string, detail: string)

  /** The recorded detail is the expected one, or, after a failed equality,
      the expected one goes on with the diff pikzie appends (a newline,
      `diff:`, a newline, then the diff), which the model does not produce. */
  predicate DetailAgrees(recorded: string, expected: string) {
    recorded == expected || StartsWith(expected, recorded + "\ndiff:\n")
  }

  lemma DiffAddendum(recorded: string, diff: string, expected: string)
    requires expected == recorded + "\ndiff:\n" + diff
    ensures DetailAgrees(recorded, expected)
  {
    PrefixOfConcat(recorded + "\ndiff:\n", diff);
  }

  predicate FaultsAgree(fs: seq<Fault>, es: seq<ExpectedFault>) {
    |fs| == |es| &&
    forall i :: 0 <= i < |fs| ==>
      Mark(fs[i].code) == es[i].mark && fs[i].test == es[i].test && DetailAgrees(fs[i].detail, es[i].detail)
  }

  /** The comparison the outer tests make, with the arguments in the order
      success, run, assertions, failures, errors, pendings, notifications,
      faults, names. */
  predicate ResultIs(s: Summary, success: bool, run: nat, assertions: nat, failures: nat,
                     errors: nat, pendings: nat, notifications: nat,
                     faults: seq<ExpectedFault>, names: seq<string>)
  {
    && Succeeded(s) == success
    && s.run == run && s.assertions == assertions && s.failures == failures
    && s.errors == errors && s.pendings == pendings && s.notifications == notifications
    && FaultsAgree(s.faults, faults)
    && s.names == names
  }

  function Run(checks: seq<Check>): Summary {
    ExecRun(Initial, checks)
  }

  function Case(name: string, steps: seq<Step>): Check {
    Check("TestCase", name, steps)
  }

  /** The summary one check leaves when run from the initial summary. */
  function Alone(c: Check): Summary {
    ExecCheck(Initial, c)
  }

  /** The verdicts of a check body of one to four steps. */
  lemma VerdictsOf1(steps: seq<Step>, s0: Step, v0: Verdict)
    requires steps == [s0]
    requires Evaluate(s0) == v0
    ensures Verdicts(steps) == [v0]
  {
  }

  lemma VerdictsOf2(steps: seq<Step>, s0: Step, s1: Step, v0: Verdict, v1: Verdict)
    requires steps == [s0, s1]
    requires Evaluate(s0) == v0 && Evaluate(s1) == v1
    ensures Verdicts(steps) == [v0, v1]
  {
  }

  lemma VerdictsOf3(steps: seq<Step>, s0: Step, s1: Step, s2: Step, v0: Verdict, v1: Verdict, v2: Verdict)
    requires steps == [s0, s1, s2]
    requires Evaluate(s0) == v0 && Evaluate(s1) == v1 && Evaluate(s2) == v2
    ensures Verdicts(steps) == [v0, v1, v2]
  {
  }

  lemma VerdictsOf4(steps: seq<Step>, s0: Step, s1: Step, s2: Step, s3: Step, v0: Verdict, v1: Verdict, v2: Verdict, v3: Verdict)
    requires steps == [s0, s1, s2, s3]
    requires Evaluate(s0) == v0 && Evaluate(s1) == v1 && Evaluate(s2) == v2 && Evaluate(s3) == v3
    ensures Verdicts(steps) == [v0, v1, v2, v3]
  {
  }

  /** A step's verdict is its assertion's verdict. */
  lemma EvaluateValue(st: Step, v: Verdict)
    requires st.OnValue? && ValueVerdict(st.valueCheck) == v
    ensures Evaluate(st) == v
  {
  }

  lemma EvaluatePattern(st: Step, v: Verdict)
    requires st.OnPattern? && PatternVerdict(st.patternCheck) == v
    ensures Evaluate(st) == v
  {
  }

  lemma EvaluateObject(st: Step, v: Verdict)
    requires st.OnObject? && ObjectVerdict(st.objectCheck) == v
    ensures Evaluate(st) == v
  {
  }

  /** One check's summary, from the verdicts of its steps. */
  lemma AloneFrom(c: Check, name: string, test: string, vs: seq<Verdict>)
    requires c.name == name && QualifiedName(c) == test && Verdicts(c.steps) == vs
    ensures Alone(c) == RunVerdicts(Start(Initial, name), test, vs)
  {
  }

  lemma TotalOne(c: Check)
    ensures Total([c]) == Alone(c)
  {
    assert [c][1..] == [];
    assert Total([c]) == Combine(Alone(c), Total([]));
    CombineInitial(Alone(c));
  }

  lemma TotalCons(c: Check, cs: seq<Check>)
    ensures Total([c] + cs) == Combine(Alone(c), Total(cs))
  {
    assert ([c] + cs)[1..] == cs;
    assert ([c] + cs)[0] == c;
  }

  lemma Singletons2<T>(a: T, b: T)
    ensures [a] + [b] == [a, b]
  {
  }

  lemma Singletons3<T>(a: T, b: T, c: T)
    ensures [a] + ([b] + [c]) == [a, b, c]
  {
  }

  lemma Singletons4<T>(a: T, b: T, c: T, d: T)
    ensures [a] + ([b] + ([c] + [d])) == [a, b, c, d]
  {
  }

  lemma RunOf1(a: Check)
    ensures Run([a]) == Alone(a)
  {
    ExecRunIsTotal([a]);
    TotalOne(a);
  }

  lemma RunOf2(a: Check, b: Check)
    ensures Run([a, b]) == Combine(Alone(a), Alone(b))
  {
    ExecRunIsTotal([a, b]);
    assert [a, b] == [a] + [b];
    TotalCons(a, [b]);
    TotalOne(b);
  }

  lemma RunOf4(a: Check, b: Check, c: Check, d: Check)
    ensures Run([a, b, c, d]) == Combine(Alone(a), Combine(Alone(b), Combine(Alone(c), Alone(d))))
  {
    ExecRunIsTotal([a, b, c, d]);
    assert [a, b, c, d] == [a] + [b, c, d];
    TotalCons(a, [b, c, d]);
    assert [b, c, d] == [b] + [c, d];
    TotalCons(b, [c, d]);
    assert [c, d] == [c] + [d];
    TotalCons(c, [d]);
    TotalOne(d);
  }

  // ---------------------------------------------------------------------
  // The objects the checks pass around

  /** An instance of the check's `AlwaysEqual` class: its `__ne__` always
      returns False and its repr is the repr of the string it holds. */
  function AlwaysEqual(id: nat, text: string): Value {
    ObjV(id, StrRepr(text), ObjectAttributes + ["__dict__", "__module__", "__weakref__", "__ne__", "repr"], false, Some(false))
  }

  /** An instance of a class that defines `__call__`. */
  const CallableInstance: Value :=
    ObjV(3, "<test.test_assertions.Callable object>", ObjectAttributes + ["__dict__", "__module__", "__weakref__", "__call__"], true, None)

  /** A lambda. */
  const Lambda: Value :=
    ObjV(4, "<function <lambda>>", ObjectAttributes + ["__call__", "__name__", "func_code"], true, None)

  /** A bound method of the running check. */
  const BoundMethod: Value :=
    ObjV(5, "<bound method TestCase.test_assert_callable>", ObjectAttributes + ["__call__", "im_self", "im_func"], true, None)

  // ---------------------------------------------------------------------
  // The diagnostics of the pattern assertions

  /** A pattern assertion's diagnostic as the outer tests spell it: the
      call with its two arguments and its outcome, then the pattern as
      `/source/flags` and the target's repr, each on a line of its own. */
  function PatternMessage(call: string, argument: string, target: string, outcome: string, rendered: string): string {
    "expected: re." + call + "(" + argument + ", " + target + ") " + outcome + "\n"
      + " pattern: <" + rendered + ">\n"
      + "  target: <" + target + ">"
  }

  lemma PatternLines(first: string, rendered: string, target: string)
    ensures first + "\n" + Labeled(" pattern: ", rendered) + "\n" + Labeled("  target: ", target)
         == first + "\n" + " pattern: <" + rendered + ">\n" + "  target: <" + target + ">"
  {
    assert " pattern: " + "<" == " pattern: <";
    assert ">" + "\n" == ">\n";
    assert "  target: " + "<" == "  target: <";
  }

  /** The modelled diagnostic is the outer tests' message once the
      pattern argument, the target's repr and the rendered pattern are
      known. */
  lemma PatternDetailIs(call: string, p: Pattern, t: string, negated: bool,
                        argument: string, target: string, rendered: string)
    requires Argument(p) == argument && StrRepr(t) == target && Render(p) == rendered
    ensures PatternDetail(call, p, t, negated)
         == PatternMessage(call, argument, target, if negated then "returns None" else "doesn't return None", rendered)
  {
    PatternLines("expected: re." + call + "(" + argument + ", " + target + ") "
                   + (if negated then "returns None" else "doesn't return None"),
                 rendered, target);
  }

  // ---------------------------------------------------------------------
  // Attribute lookups on a str

  lemma StrHasMethod(name: string)
    requires name in StrMethodsCapitalizeToJoin || name in StrMethodsLjustToZfill
    ensures Listed(name, Attributes(StrV("string")))
  {
    ListedIsIn(name, StrAttributes);
  }

  /** `Strip` is none of the attribute names of a str: the lookup is
      case-sensitive. */
  lemma StrLacksStrip()
    ensures !Listed("Strip", Attributes(StrV("string")))
  {
    ListedIsIn("Strip", StrAttributes);
    StripIsNoObjectAttribute();
    StripIsNoStrSpecialAttribute();
    StripIsNoStrMethod();
  }

  lemma StripIsNoObjectAttribute()
    ensures "Strip" !in ObjectAttributes
  {
  }

  lemma StripIsNoStrSpecialAttribute()
    ensures "Strip" !in StrSpecialAttributes
  {
  }

  lemma StripIsNoStrMethod()
    ensures "Strip" !in StrMethodsCapitalizeToJoin
    ensures "Strip" !in StrMethodsLjustToZfill
  {
  }

  /** The failed `assert_not_equal` on the two `AlwaysEqual` objects names
      both operands: its two lines read back as their reprs. */
  lemma NotEqualDifferentReprNamesOperands()
    ensures ReadTwoLines(NotEqualDetail(AlwaysEqual(1, "abc"), AlwaysEqual(2, "aBc")), "not expected: ", "     but was: ")
         == Some(("'abc'", "'aBc'"))
  {
    PlainStrRepr("abc");
    PlainStrRepr("aBc");
    assert "'" + "abc" + "'" == "'abc'";
    assert "'" + "aBc" + "'" == "'aBc'";
    NotEqualDetailNamesOperands(AlwaysEqual(1, "abc"), AlwaysEqual(2, "aBc"));
  }


  // ---------------------------------------------------------------------
  // fail, pend, notify

  const CallFail_0: Step := Fail("Failed!!!")
  const TestFail: Check := Case("test_fail", [CallFail_0])

  const CallPend_0: Step := OnValue(AssertEqual(IntV(3), IntV(1 + 2)))
  const CallPend_1: Step := Pend("Pending!!!")
  const CallPend_2: Step := OnValue(AssertEqual(IntV(5), IntV(3 + 2)))
  const TestPend: Check := Case("test_pend", [CallPend_0, CallPend_1, CallPend_2])

  const CallNotify_0: Step := OnValue(AssertEqual(IntV(3), IntV(1 + 2)))
  const CallNotify_1: Step := Notify("Notification!!!")
  const CallNotify_2: Step := OnValue(AssertEqual(IntV(5), IntV(3 + 2)))
  const TestNotify: Check := Case("test_notify", [CallNotify_0, CallNotify_1, CallNotify_2])

  lemma StepFail_0()
    ensures Evaluate(CallFail_0) == Failure("Failed!!!")
  {
  }

  lemma NameTextFail()
    ensures "TestCase" + "." + "test_fail" == "TestCase.test_fail"
  {
  }

  lemma NameFail()
    ensures QualifiedName(TestFail) == "TestCase.test_fail"
  {
    NameTextFail();
  }

  lemma StepsFail()
    ensures Verdicts(TestFail.steps) == [Failure("Failed!!!")]
  {
    StepFail_0();
    VerdictsOf1(TestFail.steps, CallFail_0, Failure("Failed!!!"));
  }

  lemma OutcomeFail()
    ensures RunVerdicts(Start(Initial, "test_fail"), "TestCase.test_fail", [Failure("Failed!!!")])
         == Summary(1, 0, 1, 0, 0, 0,
            [Fault(FailureCode, "TestCase.test_fail", "Failed!!!")],
            ["test_fail"])
  {
  }

  lemma AloneFail()
    ensures Alone(TestFail) == Summary(1, 0, 1, 0, 0, 0,
      [Fault(FailureCode, "TestCase.test_fail", "Failed!!!")],
      ["test_fail"])
  {
    StepsFail();
    NameFail();
    AloneFrom(TestFail, "test_fail", "TestCase.test_fail", [Failure("Failed!!!")]);
    OutcomeFail();
  }

  lemma StepPend_0()
    ensures Evaluate(CallPend_0) == Pass
  {
  }

  lemma StepPend_1()
    ensures Evaluate(CallPend_1) == Pending("Pending!!!")
  {
  }

  lemma StepPend_2()
    ensures Evaluate(CallPend_2) == Pass
  {
  }

  lemma NameTextPend()
    ensures "TestCase" + "." + "test_pend" == "TestCase.test_pend"
  {
  }

  lemma NamePend()
    ensures QualifiedName(TestPend) == "TestCase.test_pend"
  {
    NameTextPend();
  }

  lemma StepsPend()
    ensures Verdicts(TestPend.steps) == [Pass, Pending("Pending!!!"), Pass]
  {
    StepPend_0();
    StepPend_1();
    StepPend_2();
    VerdictsOf3(TestPend.steps, CallPend_0, CallPend_1, CallPend_2, Pass, Pending("Pending!!!"), Pass);
  }

  lemma OutcomePend()
    ensures RunVerdicts(Start(Initial, "test_pend"), "TestCase.test_pend", [Pass, Pending("Pending!!!"), Pass])
         == Summary(1, 1, 0, 0, 1, 0,
            [Fault(PendingCode, "TestCase.test_pend", "Pending!!!")],
            ["test_pend"])
  {
  }

  lemma AlonePend()
    ensures Alone(TestPend) == Summary(1, 1, 0, 0, 1, 0,
      [Fault(PendingCode, "TestCase.test_pend", "Pending!!!")],
      ["test_pend"])
  {
    StepsPend();
    NamePend();
    AloneFrom(TestPend, "test_pend", "TestCase.test_pend", [Pass, Pending("Pending!!!"), Pass]);
    OutcomePend();
  }

  lemma StepNotify_0()
    ensures Evaluate(CallNotify_0) == Pass
  {
  }

  lemma StepNotify_1()
    ensures Evaluate(CallNotify_1) == Notification("Notification!!!")
  {
  }

  lemma StepNotify_2()
    ensures Evaluate(CallNotify_2) == Pass
  {
  }

  lemma NameTextNotify()
    ensures "TestCase" + "." + "test_notify" == "TestCase.test_notify"
  {
  }

  lemma NameNotify()
    ensures QualifiedName(TestNotify) == "TestCase.test_notify"
  {
    NameTextNotify();
  }

  lemma StepsNotify()
    ensures Verdicts(TestNotify.steps) == [Pass, Notification("Notification!!!"), Pass]
  {
    StepNotify_0();
    StepNotify_1();
    StepNotify_2();
    VerdictsOf3(TestNotify.steps, CallNotify_0, CallNotify_1, CallNotify_2, Pass, Notification("Notification!!!"), Pass);
  }

  lemma OutcomeNotify()
    ensures RunVerdicts(Start(Initial, "test_notify"), "TestCase.test_notify", [Pass, Notification("Notification!!!"), Pass])
         == Summary(1, 2, 0, 0, 0, 1,
            [Fault(NotificationCode, "TestCase.test_notify", "Notification!!!")],
            ["test_notify"])
  {
  }

  lemma AloneNotify()
    ensures Alone(TestNotify) == Summary(1, 2, 0, 0, 0, 1,
      [Fault(NotificationCode, "TestCase.test_notify", "Notification!!!")],
      ["test_notify"])
  {
    StepsNotify();
    NameNotify();
    AloneFrom(TestNotify, "test_notify", "TestCase.test_notify", [Pass, Notification("Notification!!!"), Pass]);
    OutcomeNotify();
  }

  // ---------------------------------------------------------------------
  // assert_none, assert_not_none

  const CallAssertNone_0: Step := OnValue(AssertNone(NoneV))
  const CallAssertNone_1: Step := OnValue(AssertNone(BoolV(false)))
  const TestAssertNone: Check := Case("test_assert_none", [CallAssertNone_0, CallAssertNone_1])

  const CallAssertNotNone_0: Step := OnValue(AssertNotNone(BoolV(false)))
  const CallAssertNotNone_1: Step := OnValue(AssertNotNone(NoneV))
  const TestAssertNotNone: Check := Case("test_assert_not_none", [CallAssertNotNone_0, CallAssertNotNone_1])

  lemma StepAssertNone_0()
    ensures Evaluate(CallAssertNone_0) == Pass
  {
  }

  lemma TextAssertNone_1()
    ensures "expected: <" + "False" + "> is None" == "expected: <False> is None"
  {
  }

  lemma VerdictAssertNone_1()
    ensures IsNone(BoolV(false)) == Failure("expected: <False> is None")
  {
    TextAssertNone_1();
  }

  lemma StepAssertNone_1()
    ensures Evaluate(CallAssertNone_1) == Failure("expected: <False> is None")
  {
    VerdictAssertNone_1();
    EvaluateValue(CallAssertNone_1, Failure("expected: <False> is None"));
  }

  lemma NameTextAssertNone()
    ensures "TestCase" + "." + "test_assert_none" == "TestCase.test_assert_none"
  {
  }

  lemma NameAssertNone()
    ensures QualifiedName(TestAssertNone) == "TestCase.test_assert_none"
  {
    NameTextAssertNone();
  }

  lemma StepsAssertNone()
    ensures Verdicts(TestAssertNone.steps) == [Pass, Failure("expected: <False> is None")]
  {
    StepAssertNone_0();
    StepAssertNone_1();
    VerdictsOf2(TestAssertNone.steps, CallAssertNone_0, CallAssertNone_1, Pass, Failure("expected: <False> is None"));
  }

  lemma OutcomeAssertNone()
    ensures RunVerdicts(Start(Initial, "test_assert_none"), "TestCase.test_assert_none", [Pass, Failure("expected: <False> is None")])
         == Summary(1, 1, 1, 0, 0, 0,
            [Fault(FailureCode, "TestCase.test_assert_none", "expected: <False> is None")],
            ["test_assert_none"])
  {
  }

  lemma AloneAssertNone()
    ensures Alone(TestAssertNone) == Summary(1, 1, 1, 0, 0, 0,
      [Fault(FailureCode, "TestCase.test_assert_none", "expected: <False> is None")],
      ["test_assert_none"])
  {
    StepsAssertNone();
    NameAssertNone();
    AloneFrom(TestAssertNone, "test_assert_none", "TestCase.test_assert_none", [Pass, Failure("expected: <False> is None")]);
    OutcomeAssertNone();
  }

  lemma StepAssertNotNone_0()
    ensures Evaluate(CallAssertNotNone_0) == Pass
  {
  }

  lemma VerdictAssertNotNone_1()
    ensures IsNotNone(NoneV) == Failure("expected: not None")
  {
  }

  lemma StepAssertNotNone_1()
    ensures Evaluate(CallAssertNotNone_1) == Failure("expected: not None")
  {
    VerdictAssertNotNone_1();
    EvaluateValue(CallAssertNotNone_1, Failure("expected: not None"));
  }

  lemma NameTextAssertNotNone()
    ensures "TestCase" + "." + "test_assert_not_none" == "TestCase.test_assert_not_none"
  {
  }

  lemma NameAssertNotNone()
    ensures QualifiedName(TestAssertNotNone) == "TestCase.test_assert_not_none"
  {
    NameTextAssertNotNone();
  }

  lemma StepsAssertNotNone()
    ensures Verdicts(TestAssertNotNone.steps) == [Pass, Failure("expected: not None")]
  {
    StepAssertNotNone_0();
    StepAssertNotNone_1();
    VerdictsOf2(TestAssertNotNone.steps, CallAssertNotNone_0, CallAssertNotNone_1, Pass, Failure("expected: not None"));
  }

  lemma OutcomeAssertNotNone()
    ensures RunVerdicts(Start(Initial, "test_assert_not_none"), "TestCase.test_assert_not_none", [Pass, Failure("expected: not None")])
         == Summary(1, 1, 1, 0, 0, 0,
            [Fault(FailureCode, "TestCase.test_assert_not_none", "expected: not None")],
            ["test_assert_not_none"])
  {
  }

  lemma AloneAssertNotNone()
    ensures Alone(TestAssertNotNone) == Summary(1, 1, 1, 0, 0, 0,
      [Fault(FailureCode, "TestCase.test_assert_not_none", "expected: not None")],
      ["test_assert_not_none"])
  {
    StepsAssertNotNone();
    NameAssertNotNone();
    AloneFrom(TestAssertNotNone, "test_assert_not_none", "TestCase.test_assert_not_none", [Pass, Failure("expected: not None")]);
    OutcomeAssertNotNone();
  }

  // ---------------------------------------------------------------------
  // assert_true, assert_false

  const CallTrueForNone_0: Step := OnValue(AssertTrue(NoneV))
  const TestTrueForNone: Check := Case("test_assert_true_for_none", [CallTrueForNone_0])

  const CallTrueForBoolean_0: Step := OnValue(AssertTrue(BoolV(true)))
  const CallTrueForBoolean_1: Step := OnValue(AssertTrue(BoolV(false)))
  const CallTrueForBoolean_2: Step := OnValue(AssertTrue(BoolV(true)))
  const TestTrueForBoolean: Check := Case("test_assert_true_for_boolean", [CallTrueForBoolean_0, CallTrueForBoolean_1, CallTrueForBoolean_2])

  const CallTrueForInteger_0: Step := OnValue(AssertTrue(IntV(10)))
  const CallTrueForInteger_1: Step := OnValue(AssertTrue(IntV(0)))
  const CallTrueForInteger_2: Step := OnValue(AssertTrue(IntV(-100)))
  const TestTrueForInteger: Check := Case("test_assert_true_for_integer", [CallTrueForInteger_0, CallTrueForInteger_1, CallTrueForInteger_2])

  const CallTrueForString_0: Step := OnValue(AssertTrue(StrV("String")))
  const CallTrueForString_1: Step := OnValue(AssertTrue(StrV("")))
  const CallTrueForString_2: Step := OnValue(AssertTrue(StrV("STRING")))
  const TestTrueForString: Check := Case("test_assert_true_for_string", [CallTrueForString_0, CallTrueForString_1, CallTrueForString_2])

  const CallFalseForNone_0: Step := OnValue(AssertFalse(NoneV))
  const TestFalseForNone: Check := Case("test_assert_false_for_none", [CallFalseForNone_0])

  const CallFalseForBoolean_0: Step := OnValue(AssertFalse(BoolV(false)))
  const CallFalseForBoolean_1: Step := OnValue(AssertFalse(BoolV(true)))
  const CallFalseForBoolean_2: Step := OnValue(AssertFalse(BoolV(false)))
  const TestFalseForBoolean: Check := Case("test_assert_false_for_boolean", [CallFalseForBoolean_0, CallFalseForBoolean_1, CallFalseForBoolean_2])

  const CallFalseForInteger_0: Step := OnValue(AssertFalse(IntV(0)))
  const CallFalseForInteger_1: Step := OnValue(AssertFalse(IntV(10)))
  const CallFalseForInteger_2: Step := OnValue(AssertFalse(IntV(0)))
  const TestFalseForInteger: Check := Case("test_assert_false_for_integer", [CallFalseForInteger_0, CallFalseForInteger_1, CallFalseForInteger_2])

  const CallFalseForString_0: Step := OnValue(AssertFalse(StrV("")))
  const CallFalseForString_1: Step := OnValue(AssertFalse(StrV("STRING")))
  const CallFalseForString_2: Step := OnValue(AssertFalse(StrV("")))
  const TestFalseForString: Check := Case("test_assert_false_for_string", [CallFalseForString_0, CallFalseForString_1, CallFalseForString_2])

  lemma TextTrueForNone_0()
    ensures "expected: <" + "None" + "> is a true value" == "expected: <None> is a true value"
  {
  }

  lemma VerdictTrueForNone_0()
    ensures IsTrue(NoneV) == Failure("expected: <None> is a true value")
  {
    TextTrueForNone_0();
  }

  lemma StepTrueForNone_0()
    ensures Evaluate(CallTrueForNone_0) == Failure("expected: <None> is a true value")
  {
    VerdictTrueForNone_0();
    EvaluateValue(CallTrueForNone_0, Failure("expected: <None> is a true value"));
  }

  lemma NameTextTrueForNone()
    ensures "TestCase" + "." + "test_assert_true_for_none" == "TestCase.test_assert_true_for_none"
  {
  }

  lemma NameTrueForNone()
    ensures QualifiedName(TestTrueForNone) == "TestCase.test_assert_true_for_none"
  {
    NameTextTrueForNone();
  }

  lemma StepsTrueForNone()
    ensures Verdicts(TestTrueForNone.steps) == [Failure("expected: <None> is a true value")]
  {
    StepTrueForNone_0();
    VerdictsOf1(TestTrueForNone.steps, CallTrueForNone_0, Failure("expected: <None> is a true value"));
  }

  lemma OutcomeTrueForNone()
    ensures RunVerdicts(Start(Initial, "test_assert_true_for_none"), "TestCase.test_assert_true_for_none", [Failure("expected: <None> is a true value")])
         == Summary(1, 0, 1, 0, 0, 0,
            [Fault(FailureCode, "TestCase.test_assert_true_for_none", "expected: <None> is a true value")],
            ["test_assert_true_for_none"])
  {
  }

  lemma AloneTrueForNone()
    ensures Alone(TestTrueForNone) == Summary(1, 0, 1, 0, 0, 0,
      [Fault(FailureCode, "TestCase.test_assert_true_for_none", "expected: <None> is a true value")],
      ["test_assert_true_for_none"])
  {
    StepsTrueForNone();
    NameTrueForNone();
    AloneFrom(TestTrueForNone, "test_assert_true_for_none", "TestCase.test_assert_true_for_none", [Failure("expected: <None> is a true value")]);
    OutcomeTrueForNone();
  }

  lemma StepTrueForBoolean_0()
    ensures Evaluate(CallTrueForBoolean_0) == Pass
  {
  }

  lemma TextTrueForBoolean_1()
    ensures "expected: <" + "False" + "> is a true value" == "expected: <False> is a true value"
  {
  }

  lemma VerdictTrueForBoolean_1()
    ensures IsTrue(BoolV(false)) == Failure("expected: <False> is a true value")
  {
    TextTrueForBoolean_1();
  }

  lemma StepTrueForBoolean_1()
    ensures Evaluate(CallTrueForBoolean_1) == Failure("expected: <False> is a true value")
  {
    VerdictTrueForBoolean_1();
    EvaluateValue(CallTrueForBoolean_1, Failure("expected: <False> is a true value"));
  }

  lemma StepTrueForBoolean_2()
    ensures Evaluate(CallTrueForBoolean_2) == Pass
  {
  }

  lemma NameTextTrueForBoolean()
    ensures "TestCase" + "." + "test_assert_true_for_boolean" == "TestCase.test_assert_true_for_boolean"
  {
  }

  lemma NameTrueForBoolean()
    ensures QualifiedName(TestTrueForBoolean) == "TestCase.test_assert_true_for_boolean"
  {
    NameTextTrueForBoolean();
  }

  lemma StepsTrueForBoolean()
    ensures Verdicts(TestTrueForBoolean.steps) == [Pass, Failure("expected: <False> is a true value"), Pass]
  {
    StepTrueForBoolean_0();
    StepTrueForBoolean_1();
    StepTrueForBoolean_2();
    VerdictsOf3(TestTrueForBoolean.steps, CallTrueForBoolean_0, CallTrueForBoolean_1, CallTrueForBoolean_2, Pass, Failure("expected: <False> is a true value"), Pass);
  }

  lemma OutcomeTrueForBoolean()
    ensures RunVerdicts(Start(Initial, "test_assert_true_for_boolean"), "TestCase.test_assert_true_for_boolean", [Pass, Failure("expected: <False> is a true value"), Pass])
         == Summary(1, 1, 1, 0, 0, 0,
            [Fault(FailureCode, "TestCase.test_assert_true_for_boolean", "expected: <False> is a true value")],
            ["test_assert_true_for_boolean"])
  {
  }

  lemma AloneTrueForBoolean()
    ensures Alone(TestTrueForBoolean) == Summary(1, 1, 1, 0, 0, 0,
      [Fault(FailureCode, "TestCase.test_assert_true_for_boolean", "expected: <False> is a true value")],
      ["test_assert_true_for_boolean"])
  {
    StepsTrueForBoolean();
    NameTrueForBoolean();
    AloneFrom(TestTrueForBoolean, "test_assert_true_for_boolean", "TestCase.test_assert_true_for_boolean", [Pass, Failure("expected: <False> is a true value"), Pass]);
    OutcomeTrueForBoolean();
  }

  lemma StepTrueForInteger_0()
    ensures Evaluate(CallTrueForInteger_0) == Pass
  {
  }

  lemma FactTrueForInteger_1_0()
    ensures Repr(IntV(0)) == "0"
  {
  }

  lemma TextTrueForInteger_1()
    ensures "expected: <" + "0" + "> is a true value" == "expected: <0> is a true value"
  {
  }

  lemma VerdictTrueForInteger_1()
    ensures IsTrue(IntV(0)) == Failure("expected: <0> is a true value")
  {
    FactTrueForInteger_1_0();
    TextTrueForInteger_1();
  }

  lemma StepTrueForInteger_1()
    ensures Evaluate(CallTrueForInteger_1) == Failure("expected: <0> is a true value")
  {
    VerdictTrueForInteger_1();
    EvaluateValue(CallTrueForInteger_1, Failure("expected: <0> is a true value"));
  }

  lemma StepTrueForInteger_2()
    ensures Evaluate(CallTrueForInteger_2) == Pass
  {
  }

  lemma NameTextTrueForInteger()
    ensures "TestCase" + "." + "test_assert_true_for_integer" == "TestCase.test_assert_true_for_integer"
  {
  }

  lemma NameTrueForInteger()
    ensures QualifiedName(TestTrueForInteger) == "TestCase.test_assert_true_for_integer"
  {
    NameTextTrueForInteger();
  }

  lemma StepsTrueForInteger()
    ensures Verdicts(TestTrueForInteger.steps) == [Pass, Failure("expected: <0> is a true value"), Pass]
  {
    StepTrueForInteger_0();
    StepTrueForInteger_1();
    StepTrueForInteger_2();
    VerdictsOf3(TestTrueForInteger.steps, CallTrueForInteger_0, CallTrueForInteger_1, CallTrueForInteger_2, Pass, Failure("expected: <0> is a true value"), Pass);
  }

  lemma OutcomeTrueForInteger()
    ensures RunVerdicts(Start(Initial, "test_assert_true_for_integer"), "TestCase.test_assert_true_for_integer", [Pass, Failure("expected: <0> is a true value"), Pass])
         == Summary(1, 1, 1, 0, 0, 0,
            [Fault(FailureCode, "TestCase.test_assert_true_for_integer", "expected: <0> is a true value")],
            ["test_assert_true_for_integer"])
  {
  }

  lemma AloneTrueForInteger()
    ensures Alone(TestTrueForInteger) == Summary(1, 1, 1, 0, 0, 0,
      [Fault(FailureCode, "TestCase.test_assert_true_for_integer", "expected: <0> is a true value")],
      ["test_assert_true_for_integer"])
  {
    StepsTrueForInteger();
    NameTrueForInteger();
    AloneFrom(TestTrueForInteger, "test_assert_true_for_integer", "TestCase.test_assert_true_for_integer", [Pass, Failure("expected: <0> is a true value"), Pass]);
    OutcomeTrueForInteger();
  }

  lemma StepTrueForString_0()
    ensures Evaluate(CallTrueForString_0) == Pass
  {
  }

  lemma FactTrueForString_1_0_0_0()
    ensures StrRepr("") == "'" + "" + "'"
  {
    PlainStrRepr("");
  }

  lemma FactTrueForString_1_0_0_1()
    ensures "'" + "" + "'" == "''"
  {
  }

  lemma FactTrueForString_1_0_0()
    ensures StrRepr("") == "''"
  {
    FactTrueForString_1_0_0_0();
    FactTrueForString_1_0_0_1();
  }

  lemma FactTrueForString_1_0()
    ensures Repr(StrV("")) == "''"
  {
    FactTrueForString_1_0_0();
  }

  lemma TextTrueForString_1()
    ensures "expected: <" + "''" + "> is a true value" == "expected: <''> is a true value"
  {
  }

  lemma VerdictTrueForString_1()
    ensures IsTrue(StrV("")) == Failure("expected: <''> is a true value")
  {
    FactTrueForString_1_0();
    TextTrueForString_1();
  }

  lemma StepTrueForString_1()
    ensures Evaluate(CallTrueForString_1) == Failure("expected: <''> is a true value")
  {
    VerdictTrueForString_1();
    EvaluateValue(CallTrueForString_1, Failure("expected: <''> is a true value"));
  }

  lemma StepTrueForString_2()
    ensures Evaluate(CallTrueForString_2) == Pass
  {
  }

  lemma NameTextTrueForString()
    ensures "TestCase" + "." + "test_assert_true_for_string" == "TestCase.test_assert_true_for_string"
  {
  }

  lemma NameTrueForString()
    ensures QualifiedName(TestTrueForString) == "TestCase.test_assert_true_for_string"
  {
    NameTextTrueForString();
  }

  lemma StepsTrueForString()
    ensures Verdicts(TestTrueForString.steps) == [Pass, Failure("expected: <''> is a true value"), Pass]
  {
    StepTrueForString_0();
    StepTrueForString_1();
    StepTrueForString_2();
    VerdictsOf3(TestTrueForString.steps, CallTrueForString_0, CallTrueForString_1, CallTrueForString_2, Pass, Failure("expected: <''> is a true value"), Pass);
  }

  lemma OutcomeTrueForString()
    ensures RunVerdicts(Start(Initial, "test_assert_true_for_string"), "TestCase.test_assert_true_for_string", [Pass, Failure("expected: <''> is a true value"), Pass])
         == Summary(1, 1, 1, 0, 0, 0,
            [Fault(FailureCode, "TestCase.test_assert_true_for_string", "expected: <''> is a true value")],
            ["test_assert_true_for_string"])
  {
  }

  lemma AloneTrueForString()
    ensures Alone(TestTrueForString) == Summary(1, 1, 1, 0, 0, 0,
      [Fault(FailureCode, "TestCase.test_assert_true_for_string", "expected: <''> is a true value")],
      ["test_assert_true_for_string"])
  {
    StepsTrueForString();
    NameTrueForString();
    AloneFrom(TestTrueForString, "test_assert_true_for_string", "TestCase.test_assert_true_for_string", [Pass, Failure("expected: <''> is a true value"), Pass]);
    OutcomeTrueForString();
  }

  lemma StepFalseForNone_0()
    ensures Evaluate(CallFalseForNone_0) == Pass
  {
  }

  lemma NameTextFalseForNone()
    ensures "TestCase" + "." + "test_assert_false_for_none" == "TestCase.test_assert_false_for_none"
  {
  }

  lemma NameFalseForNone()
    ensures QualifiedName(TestFalseForNone) == "TestCase.test_assert_false_for_none"
  {
    NameTextFalseForNone();
  }

  lemma StepsFalseForNone()
    ensures Verdicts(TestFalseForNone.steps) == [Pass]
  {
    StepFalseForNone_0();
    VerdictsOf1(TestFalseForNone.steps, CallFalseForNone_0, Pass);
  }

  lemma OutcomeFalseForNone()
    ensures RunVerdicts(Start(Initial, "test_assert_false_for_none"), "TestCase.test_assert_false_for_none", [Pass])
         == Summary(1, 1, 0, 0, 0, 0,
            [],
            ["test_assert_false_for_none"])
  {
  }

  lemma AloneFalseForNone()
    ensures Alone(TestFalseForNone) == Summary(1, 1, 0, 0, 0, 0,
      [],
      ["test_assert_false_for_none"])
  {
    StepsFalseForNone();
    NameFalseForNone();
    AloneFrom(TestFalseForNone, "test_assert_false_for_none", "TestCase.test_assert_false_for_none", [Pass]);
    OutcomeFalseForNone();
  }

  lemma StepFalseForBoolean_0()
    ensures Evaluate(CallFalseForBoolean_0) == Pass
  {
  }

  lemma TextFalseForBoolean_1()
    ensures "expected: <" + "True" + "> is a false value" == "expected: <True> is a false value"
  {
  }

  lemma VerdictFalseForBoolean_1()
    ensures IsFalse(BoolV(true)) == Failure("expected: <True> is a false value")
  {
    TextFalseForBoolean_1();
  }

  lemma StepFalseForBoolean_1()
    ensures Evaluate(CallFalseForBoolean_1) == Failure("expected: <True> is a false value")
  {
    VerdictFalseForBoolean_1();
    EvaluateValue(CallFalseForBoolean_1, Failure("expected: <True> is a false value"));
  }

  lemma StepFalseForBoolean_2()
    ensures Evaluate(CallFalseForBoolean_2) == Pass
  {
  }

  lemma NameTextFalseForBoolean()
    ensures "TestCase" + "." + "test_assert_false_for_boolean" == "TestCase.test_assert_false_for_boolean"
  {
  }

  lemma NameFalseForBoolean()
    ensures QualifiedName(TestFalseForBoolean) == "TestCase.test_assert_false_for_boolean"
  {
    NameTextFalseForBoolean();
  }

  lemma StepsFalseForBoolean()
    ensures Verdicts(TestFalseForBoolean.steps) == [Pass, Failure("expected: <True> is a false value"), Pass]
  {
    StepFalseForBoolean_0();
    StepFalseForBoolean_1();
    StepFalseForBoolean_2();
    VerdictsOf3(TestFalseForBoolean.steps, CallFalseForBoolean_0, CallFalseForBoolean_1, CallFalseForBoolean_2, Pass, Failure("expected: <True> is a false value"), Pass);
  }

  lemma OutcomeFalseForBoolean()
    ensures RunVerdicts(Start(Initial, "test_assert_false_for_boolean"), "TestCase.test_assert_false_for_boolean", [Pass, Failure("expected: <True> is a false value"), Pass])
         == Summary(1, 1, 1, 0, 0, 0,
            [Fault(FailureCode, "TestCase.test_assert_false_for_boolean", "expected: <True> is a false value")],
            ["test_assert_false_for_boolean"])
  {
  }

  lemma AloneFalseForBoolean()
    ensures Alone(TestFalseForBoolean) == Summary(1, 1, 1, 0, 0, 0,
      [Fault(FailureCode, "TestCase.test_assert_false_for_boolean", "expected: <True> is a false value")],
      ["test_assert_false_for_boolean"])
  {
    StepsFalseForBoolean();
    NameFalseForBoolean();
    AloneFrom(TestFalseForBoolean, "test_assert_false_for_boolean", "TestCase.test_assert_false_for_boolean", [Pass, Failure("expected: <True> is a false value"), Pass]);
    OutcomeFalseForBoolean();
  }

  lemma StepFalseForInteger_0()
    ensures Evaluate(CallFalseForInteger_0) == Pass
  {
  }

  lemma FactFalseForInteger_1_0()
    ensures Repr(IntV(10)) == "10"
  {
  }

  lemma TextFalseForInteger_1()
    ensures "expected: <" + "10" + "> is a false value" == "expected: <10> is a false value"
  {
  }

  lemma VerdictFalseForInteger_1()
    ensures IsFalse(IntV(10)) == Failure("expected: <10> is a false value")
  {
    FactFalseForInteger_1_0();
    TextFalseForInteger_1();
  }

  lemma StepFalseForInteger_1()
    ensures Evaluate(CallFalseForInteger_1) == Failure("expected: <10> is a false value")
  {
    VerdictFalseForInteger_1();
    EvaluateValue(CallFalseForInteger_1, Failure("expected: <10> is a false value"));
  }

  lemma StepFalseForInteger_2()
    ensures Evaluate(CallFalseForInteger_2) == Pass
  {
  }

  lemma NameTextFalseForInteger()
    ensures "TestCase" + "." + "test_assert_false_for_integer" == "TestCase.test_assert_false_for_integer"
  {
  }

  lemma NameFalseForInteger()
    ensures QualifiedName(TestFalseForInteger) == "TestCase.test_assert_false_for_integer"
  {
    NameTextFalseForInteger();
  }

  lemma StepsFalseForInteger()
    ensures Verdicts(TestFalseForInteger.steps) == [Pass, Failure("expected: <10> is a false value"), Pass]
  {
    StepFalseForInteger_0();
    StepFalseForInteger_1();
    StepFalseForInteger_2();
    VerdictsOf3(TestFalseForInteger.steps, CallFalseForInteger_0, CallFalseForInteger_1, CallFalseForInteger_2, Pass, Failure("expected: <10> is a false value"), Pass);
  }

  lemma OutcomeFalseForInteger()
    ensures RunVerdicts(Start(Initial, "test_assert_false_for_integer"), "TestCase.test_assert_false_for_integer", [Pass, Failure("expected: <10> is a false value"), Pass])
         == Summary(1, 1, 1, 0, 0, 0,
            [Fault(FailureCode, "TestCase.test_assert_false_for_integer", "expected: <10> is a false value")],
            ["test_assert_false_for_integer"])
  {
  }

  lemma AloneFalseForInteger()
    ensures Alone(TestFalseForInteger) == Summary(1, 1, 1, 0, 0, 0,
      [Fault(FailureCode, "TestCase.test_assert_false_for_integer", "expected: <10> is a false value")],
      ["test_assert_false_for_integer"])
  {
    StepsFalseForInteger();
    NameFalseForInteger();
    AloneFrom(TestFalseForInteger, "test_assert_false_for_integer", "TestCase.test_assert_false_for_integer", [Pass, Failure("expected: <10> is a false value"), Pass]);
    OutcomeFalseForInteger();
  }

  lemma StepFalseForString_0()
    ensures Evaluate(CallFalseForString_0) == Pass
  {
  }

  lemma FactFalseForString_1_0_0_0()
    ensures StrRepr("STRING") == "'" + "STRING" + "'"
  {
    PlainStrRepr("STRING");
  }

  lemma FactFalseForString_1_0_0_1()
    ensures "'" + "STRING" + "'" == "'STRING'"
  {
  }

  lemma FactFalseForString_1_0_0()
    ensures StrRepr("STRING") == "'STRING'"
  {
    FactFalseForString_1_0_0_0();
    FactFalseForString_1_0_0_1();
  }

  lemma FactFalseForString_1_0()
    ensures Repr(StrV("STRING")) == "'STRING'"
  {
    FactFalseForString_1_0_0();
  }

  lemma TextFalseForString_1()
    ensures "expected: <" + "'STRING'" + "> is a false value" == "expected: <'STRING'> is a false value"
  {
  }

  lemma VerdictFalseForString_1()
    ensures IsFalse(StrV("STRING")) == Failure("expected: <'STRING'> is a false value")
  {
    FactFalseForString_1_0();
    TextFalseForString_1();
  }

  lemma StepFalseForString_1()
    ensures Evaluate(CallFalseForString_1) == Failure("expected: <'STRING'> is a false value")
  {
    VerdictFalseForString_1();
    EvaluateValue(CallFalseForString_1, Failure("expected: <'STRING'> is a false value"));
  }

  lemma StepFalseForString_2()
    ensures Evaluate(CallFalseForString_2) == Pass
  {
  }

  lemma NameTextFalseForString()
    ensures "TestCase" + "." + "test_assert_false_for_string" == "TestCase.test_assert_false_for_string"
  {
  }

  lemma NameFalseForString()
    ensures QualifiedName(TestFalseForString) == "TestCase.test_assert_false_for_string"
  {
    NameTextFalseForString();
  }

  lemma StepsFalseForString()
    ensures Verdicts(TestFalseForString.steps) == [Pass, Failure("expected: <'STRING'> is a false value"), Pass]
  {
    StepFalseForString_0();
    StepFalseForString_1();
    StepFalseForString_2();
    VerdictsOf3(TestFalseForString.steps, CallFalseForString_0, CallFalseForString_1, CallFalseForString_2, Pass, Failure("expected: <'STRING'> is a false value"), Pass);
  }

  lemma OutcomeFalseForString()
    ensures RunVerdicts(Start(Initial, "test_assert_false_for_string"), "TestCase.test_assert_false_for_string", [Pass, Failure("expected: <'STRING'> is a false value"), Pass])
         == Summary(1, 1, 1, 0, 0, 0,
            [Fault(FailureCode, "TestCase.test_assert_false_for_string", "expected: <'STRING'> is a false value")],
            ["test_assert_false_for_string"])
  {
  }

  lemma AloneFalseForString()
    ensures Alone(TestFalseForString) == Summary(1, 1, 1, 0, 0, 0,
      [Fault(FailureCode, "TestCase.test_assert_false_for_string", "expected: <'STRING'> is a false value")],
      ["test_assert_false_for_string"])
  {
    StepsFalseForString();
    NameFalseForString();
    AloneFrom(TestFalseForString, "test_assert_false_for_string", "TestCase.test_assert_false_for_string", [Pass, Failure("expected: <'STRING'> is a false value"), Pass]);
    OutcomeFalseForString();
  }

  // ---------------------------------------------------------------------
  // assert_equal, assert_not_equal

  const CallAssertEqual_0: Step := OnValue(AssertEqual(IntV(1), IntV(1)))
  const CallAssertEqual_1: Step := OnValue(AssertEqual(IntV(2), IntV(3)))
  const CallAssertEqual_2: Step := OnValue(AssertEqual(IntV(5), IntV(5)))
  const TestAssertEqual: Check := Case("test_assert_equal", [CallAssertEqual_0, CallAssertEqual_1, CallAssertEqual_2])

  const CallAssertNotEqual_0: Step := OnValue(AssertNotEqual(IntV(2), IntV(3)))
  const CallAssertNotEqual_1: Step := OnValue(AssertNotEqual(IntV(2), IntV(2)))
  const CallAssertNotEqual_2: Step := OnValue(AssertNotEqual(IntV(5), IntV(1)))
  const TestAssertNotEqual: Check := Case("test_assert_not_equal", [CallAssertNotEqual_0, CallAssertNotEqual_1, CallAssertNotEqual_2])

  const CallNotEqualDifferentRepr_0: Step := OnValue(AssertNotEqual(AlwaysEqual(1, "abc"), AlwaysEqual(2, "aBc")))
  const TestNotEqualDifferentRepr: Check := Case("test_assert_not_equal_different_repr", [CallNotEqualDifferentRepr_0])

  lemma StepAssertEqual_0()
    ensures Evaluate(CallAssertEqual_0) == Pass
  {
  }

  lemma FactAssertEqual_1_0()
    ensures Repr(IntV(2)) == "2"
  {
  }

  lemma FactAssertEqual_1_1()
    ensures Repr(IntV(3)) == "3"
  {
  }

  lemma TextAssertEqual_1()
    ensures Labeled("expected: ", "2") + "\n" + Labeled(" but was: ", "3") == "expected: <2>\n but was: <3>"
  {
  }

  lemma VerdictAssertEqual_1()
    ensures Equal(IntV(2), IntV(3)) == Failure("expected: <2>\n but was: <3>")
  {
    FactAssertEqual_1_0();
    FactAssertEqual_1_1();
    TextAssertEqual_1();
  }

  lemma StepAssertEqual_1()
    ensures Evaluate(CallAssertEqual_1) == Failure("expected: <2>\n but was: <3>")
  {
    VerdictAssertEqual_1();
    EvaluateValue(CallAssertEqual_1, Failure("expected: <2>\n but was: <3>"));
  }

  lemma StepAssertEqual_2()
    ensures Evaluate(CallAssertEqual_2) == Pass
  {
  }

  lemma NameTextAssertEqual()
    ensures "TestCase" + "." + "test_assert_equal" == "TestCase.test_assert_equal"
  {
  }

  lemma NameAssertEqual()
    ensures QualifiedName(TestAssertEqual) == "TestCase.test_assert_equal"
  {
    NameTextAssertEqual();
  }

  lemma StepsAssertEqual()
    ensures Verdicts(TestAssertEqual.steps) == [Pass, Failure("expected: <2>\n but was: <3>"), Pass]
  {
    StepAssertEqual_0();
    StepAssertEqual_1();
    StepAssertEqual_2();
    VerdictsOf3(TestAssertEqual.steps, CallAssertEqual_0, CallAssertEqual_1, CallAssertEqual_2, Pass, Failure("expected: <2>\n but was: <3>"), Pass);
  }

  lemma OutcomeAssertEqual()
    ensures RunVerdicts(Start(Initial, "test_assert_equal"), "TestCase.test_assert_equal", [Pass, Failure("expected: <2>\n but was: <3>"), Pass])
         == Summary(1, 1, 1, 0, 0, 0,
            [Fault(FailureCode, "TestCase.test_assert_equal", "expected: <2>\n but was: <3>")],
            ["test_assert_equal"])
  {
  }

  lemma AloneAssertEqual()
    ensures Alone(TestAssertEqual) == Summary(1, 1, 1, 0, 0, 0,
      [Fault(FailureCode, "TestCase.test_assert_equal", "expected: <2>\n but was: <3>")],
      ["test_assert_equal"])
  {
    StepsAssertEqual();
    NameAssertEqual();
    AloneFrom(TestAssertEqual, "test_assert_equal", "TestCase.test_assert_equal", [Pass, Failure("expected: <2>\n but was: <3>"), Pass]);
    OutcomeAssertEqual();
  }

  lemma StepAssertNotEqual_0()
    ensures Evaluate(CallAssertNotEqual_0) == Pass
  {
  }

  lemma FactAssertNotEqual_1_0()
    ensures Repr(IntV(2)) == "2"
  {
  }

  lemma FactAssertNotEqual_1_1()
    ensures Repr(IntV(2)) == "2"
  {
  }

  lemma TextAssertNotEqual_1()
    ensures Labeled("not expected: ", "2") + "\n" + Labeled("     but was: ", "2") == "not expected: <2>\n     but was: <2>"
  {
  }

  lemma VerdictAssertNotEqual_1()
    ensures NotEqual(IntV(2), IntV(2)) == Failure("not expected: <2>\n     but was: <2>")
  {
    FactAssertNotEqual_1_0();
    FactAssertNotEqual_1_1();
    TextAssertNotEqual_1();
  }

  lemma StepAssertNotEqual_1()
    ensures Evaluate(CallAssertNotEqual_1) == Failure("not expected: <2>\n     but was: <2>")
  {
    VerdictAssertNotEqual_1();
    EvaluateValue(CallAssertNotEqual_1, Failure("not expected: <2>\n     but was: <2>"));
  }

  lemma StepAssertNotEqual_2()
    ensures Evaluate(CallAssertNotEqual_2) == Pass
  {
  }

  lemma NameTextAssertNotEqual()
    ensures "TestCase" + "." + "test_assert_not_equal" == "TestCase.test_assert_not_equal"
  {
  }

  lemma NameAssertNotEqual()
    ensures QualifiedName(TestAssertNotEqual) == "TestCase.test_assert_not_equal"
  {
    NameTextAssertNotEqual();
  }

  lemma StepsAssertNotEqual()
    ensures Verdicts(TestAssertNotEqual.steps) == [Pass, Failure("not expected: <2>\n     but was: <2>"), Pass]
  {
    StepAssertNotEqual_0();
    StepAssertNotEqual_1();
    StepAssertNotEqual_2();
    VerdictsOf3(TestAssertNotEqual.steps, CallAssertNotEqual_0, CallAssertNotEqual_1, CallAssertNotEqual_2, Pass, Failure("not expected: <2>\n     but was: <2>"), Pass);
  }

  lemma OutcomeAssertNotEqual()
    ensures RunVerdicts(Start(Initial, "test_assert_not_equal"), "TestCase.test_assert_not_equal", [Pass, Failure("not expected: <2>\n     but was: <2>"), Pass])
         == Summary(1, 1, 1, 0, 0, 0,
            [Fault(FailureCode, "TestCase.test_assert_not_equal", "not expected: <2>\n     but was: <2>")],
            ["test_assert_not_equal"])
  {
  }

  lemma AloneAssertNotEqual()
    ensures Alone(TestAssertNotEqual) == Summary(1, 1, 1, 0, 0, 0,
      [Fault(FailureCode, "TestCase.test_assert_not_equal", "not expected: <2>\n     but was: <2>")],
      ["test_assert_not_equal"])
  {
    StepsAssertNotEqual();
    NameAssertNotEqual();
    AloneFrom(TestAssertNotEqual, "test_assert_not_equal", "TestCase.test_assert_not_equal", [Pass, Failure("not expected: <2>\n     but was: <2>"), Pass]);
    OutcomeAssertNotEqual();
  }

  lemma FactNotEqualDifferentRepr_0_0_0_0()
    ensures StrRepr("abc") == "'" + "abc" + "'"
  {
    PlainStrRepr("abc");
  }

  lemma FactNotEqualDifferentRepr_0_0_0_1()
    ensures "'" + "abc" + "'" == "'abc'"
  {
  }

  lemma FactNotEqualDifferentRepr_0_0_0()
    ensures StrRepr("abc") == "'abc'"
  {
    FactNotEqualDifferentRepr_0_0_0_0();
    FactNotEqualDifferentRepr_0_0_0_1();
  }

  lemma FactNotEqualDifferentRepr_0_0()
    ensures Repr(AlwaysEqual(1, "abc")) == "'abc'"
  {
    FactNotEqualDifferentRepr_0_0_0();
  }

  lemma FactNotEqualDifferentRepr_0_1_0_0()
    ensures StrRepr("aBc") == "'" + "aBc" + "'"
  {
    PlainStrRepr("aBc");
  }

  lemma FactNotEqualDifferentRepr_0_1_0_1()
    ensures "'" + "aBc" + "'" == "'aBc'"
  {
  }

  lemma FactNotEqualDifferentRepr_0_1_0()
    ensures StrRepr("aBc") == "'aBc'"
  {
    FactNotEqualDifferentRepr_0_1_0_0();
    FactNotEqualDifferentRepr_0_1_0_1();
  }

  lemma FactNotEqualDifferentRepr_0_1()
    ensures Repr(AlwaysEqual(2, "aBc")) == "'aBc'"
  {
    FactNotEqualDifferentRepr_0_1_0();
  }

  lemma TextNotEqualDifferentRepr_0()
    ensures Labeled("not expected: ", "'abc'") + "\n" + Labeled("     but was: ", "'aBc'") == "not expected: <'abc'>\n" + "     but was: <'aBc'>"
  {
  }

  lemma VerdictNotEqualDifferentRepr_0()
    ensures NotEqual(AlwaysEqual(1, "abc"), AlwaysEqual(2, "aBc")) == Failure("not expected: <'abc'>\n" + "     but was: <'aBc'>")
  {
    FactNotEqualDifferentRepr_0_0();
    FactNotEqualDifferentRepr_0_1();
    TextNotEqualDifferentRepr_0();
  }

  lemma StepNotEqualDifferentRepr_0()
    ensures Evaluate(CallNotEqualDifferentRepr_0) == Failure("not expected: <'abc'>\n" + "     but was: <'aBc'>")
  {
    VerdictNotEqualDifferentRepr_0();
    EvaluateValue(CallNotEqualDifferentRepr_0, Failure("not expected: <'abc'>\n" + "     but was: <'aBc'>"));
  }

  lemma NameTextNotEqualDifferentRepr()
    ensures "TestCase" + "." + "test_assert_not_equal_different_repr" == "TestCase.test_assert_not_equal_different_repr"
  {
  }

  lemma NameNotEqualDifferentRepr()
    ensures QualifiedName(TestNotEqualDifferentRepr) == "TestCase.test_assert_not_equal_different_repr"
  {
    NameTextNotEqualDifferentRepr();
  }

  lemma StepsNotEqualDifferentRepr()
    ensures Verdicts(TestNotEqualDifferentRepr.steps) == [Failure("not expected: <'abc'>\n" + "     but was: <'aBc'>")]
  {
    StepNotEqualDifferentRepr_0();
    VerdictsOf1(TestNotEqualDifferentRepr.steps, CallNotEqualDifferentRepr_0, Failure("not expected: <'abc'>\n" + "     but was: <'aBc'>"));
  }

  lemma OutcomeNotEqualDifferentRepr()
    ensures RunVerdicts(Start(Initial, "test_assert_not_equal_different_repr"), "TestCase.test_assert_not_equal_different_repr", [Failure("not expected: <'abc'>\n" + "     but was: <'aBc'>")])
         == Summary(1, 0, 1, 0, 0, 0,
            [Fault(FailureCode, "TestCase.test_assert_not_equal_different_repr", "not expected: <'abc'>\n" + "     but was: <'aBc'>")],
            ["test_assert_not_equal_different_repr"])
  {
  }

  lemma AloneNotEqualDifferentRepr()
    ensures Alone(TestNotEqualDifferentRepr) == Summary(1, 0, 1, 0, 0, 0,
      [Fault(FailureCode, "TestCase.test_assert_not_equal_different_repr", "not expected: <'abc'>\n" + "     but was: <'aBc'>")],
      ["test_assert_not_equal_different_repr"])
  {
    StepsNotEqualDifferentRepr();
    NameNotEqualDifferentRepr();
    AloneFrom(TestNotEqualDifferentRepr, "test_assert_not_equal_different_repr", "TestCase.test_assert_not_equal_different_repr", [Failure("not expected: <'abc'>\n" + "     but was: <'aBc'>")]);
    OutcomeNotEqualDifferentRepr();
  }

  // ---------------------------------------------------------------------
  // assert_match, assert_not_match, assert_search, assert_not_found

  const CallAssertMatch_0: Step := OnPattern(AssertMatch(Literal("abc"), "abcde"))
  const CallAssertMatch_1: Step := OnPattern(AssertMatch(Literal("abc"), "Xabcde"))
  const TestAssertMatch: Check := Case("test_assert_match", [CallAssertMatch_0, CallAssertMatch_1])

  const CallAssertMatchRe_0: Step := OnPattern(AssertMatch(Compiled("xyz", NoFlags), "xyzabc"))
  const CallAssertMatchRe_1: Step := OnPattern(AssertMatch(Compiled("xyz", NoFlags), "abcxyz"))
  const TestAssertMatchRe: Check := Case("test_assert_match_re", [CallAssertMatchRe_0, CallAssertMatchRe_1])

  const CallAssertNotMatch_0: Step := OnPattern(AssertNotMatch(Literal("abc"), "Xabcde"))
  const CallAssertNotMatch_1: Step := OnPattern(AssertNotMatch(Literal("abc"), "abcde"))
  const TestAssertNotMatch: Check := Case("test_assert_not_match", [CallAssertNotMatch_0, CallAssertNotMatch_1])

  const CallAssertNotMatchRe_0: Step := OnPattern(AssertNotMatch(Compiled("xyz", Flags(true, false)), "abcXYZ"))
  const CallAssertNotMatchRe_1: Step := OnPattern(AssertNotMatch(Compiled("xyz", Flags(true, false)), "XYZabc"))
  const TestAssertNotMatchRe: Check := Case("test_assert_not_match_re", [CallAssertNotMatchRe_0, CallAssertNotMatchRe_1])

  const CallAssertSearch_0: Step := OnPattern(AssertSearch(Literal("bcd"), "abcde"))
  const CallAssertSearch_1: Step := OnPattern(AssertSearch(Literal("bcd"), "bcd"))
  const CallAssertSearch_2: Step := OnPattern(AssertSearch(Literal("bcd"), "abCde"))
  const TestAssertSearch: Check := Case("test_assert_search", [CallAssertSearch_0, CallAssertSearch_1, CallAssertSearch_2])

  const CallAssertSearchRe_0: Step := OnPattern(AssertSearch(Compiled("xyz", NoFlags), "AxyzA"))
  const CallAssertSearchRe_1: Step := OnPattern(AssertSearch(Compiled("xyz", NoFlags), "xyz"))
  const CallAssertSearchRe_2: Step := OnPattern(AssertSearch(Compiled("xyz", NoFlags), "AxYzA"))
  const TestAssertSearchRe: Check := Case("test_assert_search_re", [CallAssertSearchRe_0, CallAssertSearchRe_1, CallAssertSearchRe_2])

  const CallAssertNotFound_0: Step := OnPattern(AssertNotFound(Literal("bcd"), "abCde"))
  const CallAssertNotFound_1: Step := OnPattern(AssertNotFound(Compiled("bcd", NoFlags), "abCde"))
  const CallAssertNotFound_2: Step := OnPattern(AssertNotFound(Compiled("bcd", Flags(true, true)), "abCde"))
  const TestAssertNotFound: Check := Case("test_assert_not_found", [CallAssertNotFound_0, CallAssertNotFound_1, CallAssertNotFound_2])

  lemma FactAssertMatch_0_0()
    ensures IsMatch(Literal("abc"), "abcde")
  {
    assert "abcde"[..3] == "abc";
  }

  lemma VerdictAssertMatch_0()
    ensures Match(Literal("abc"), "abcde") == Pass
  {
    FactAssertMatch_0_0();
  }

  lemma StepAssertMatch_0()
    ensures Evaluate(CallAssertMatch_0) == Pass
  {
    VerdictAssertMatch_0();
    EvaluatePattern(CallAssertMatch_0, Pass);
  }

  lemma FactAssertMatch_1_0()
    ensures !IsMatch(Literal("abc"), "Xabcde")
  {
    assert "Xabcde"[..3][0] != "abc"[0];
  }

  lemma FactAssertMatch_1_1_0_0_0()
    ensures StrRepr("abc") == "'" + "abc" + "'"
  {
    PlainStrRepr("abc");
  }

  lemma FactAssertMatch_1_1_0_0_1()
    ensures "'" + "abc" + "'" == "'abc'"
  {
  }

  lemma FactAssertMatch_1_1_0_0()
    ensures StrRepr("abc") == "'abc'"
  {
    FactAssertMatch_1_1_0_0_0();
    FactAssertMatch_1_1_0_0_1();
  }

  lemma FactAssertMatch_1_1_0()
    ensures Argument(Literal("abc")) == "'abc'"
  {
    FactAssertMatch_1_1_0_0();
  }

  lemma FactAssertMatch_1_1_1_0()
    ensures StrRepr("Xabcde") == "'" + "Xabcde" + "'"
  {
    PlainStrRepr("Xabcde");
  }

  lemma FactAssertMatch_1_1_1_1()
    ensures "'" + "Xabcde" + "'" == "'Xabcde'"
  {
  }

  lemma FactAssertMatch_1_1_1()
    ensures StrRepr("Xabcde") == "'Xabcde'"
  {
    FactAssertMatch_1_1_1_0();
    FactAssertMatch_1_1_1_1();
  }

  lemma FactAssertMatch_1_1_2_0()
    ensures FlagLetters(NoFlags) == ""
  {
  }

  lemma FactAssertMatch_1_1_2_1()
    ensures "/" + "abc" + "/" + "" == "/abc/"
  {
  }

  lemma FactAssertMatch_1_1_2()
    ensures Render(Literal("abc")) == "/abc/"
  {
    FactAssertMatch_1_1_2_0();
    FactAssertMatch_1_1_2_1();
  }

  lemma FactAssertMatch_1_1()
    ensures PatternDetail("match", Literal("abc"), "Xabcde", false) == PatternMessage("match", "'abc'", "'Xabcde'", "doesn't return None", "/abc/")
  {
    FactAssertMatch_1_1_0();
    FactAssertMatch_1_1_1();
    FactAssertMatch_1_1_2();
    PatternDetailIs("match", Literal("abc"), "Xabcde", false, "'abc'", "'Xabcde'", "/abc/");
  }

  lemma VerdictAssertMatch_1()
    ensures Match(Literal("abc"), "Xabcde") == Failure(PatternMessage("match", "'abc'", "'Xabcde'", "doesn't return None", "/abc/"))
  {
    FactAssertMatch_1_0();
    FactAssertMatch_1_1();
  }

  lemma StepAssertMatch_1()
    ensures Evaluate(CallAssertMatch_1) == Failure(PatternMessage("match", "'abc'", "'Xabcde'", "doesn't return None", "/abc/"))
  {
    VerdictAssertMatch_1();
    EvaluatePattern(CallAssertMatch_1, Failure(PatternMessage("match", "'abc'", "'Xabcde'", "doesn't return None", "/abc/")));
  }

  lemma NameTextAssertMatch()
    ensures "TestCase" + "." + "test_assert_match" == "TestCase.test_assert_match"
  {
  }

  lemma NameAssertMatch()
    ensures QualifiedName(TestAssertMatch) == "TestCase.test_assert_match"
  {
    NameTextAssertMatch();
  }

  lemma StepsAssertMatch()
    ensures Verdicts(TestAssertMatch.steps) == [Pass, Failure(PatternMessage("match", "'abc'", "'Xabcde'", "doesn't return None", "/abc/"))]
  {
    StepAssertMatch_0();
    StepAssertMatch_1();
    VerdictsOf2(TestAssertMatch.steps, CallAssertMatch_0, CallAssertMatch_1, Pass, Failure(PatternMessage("match", "'abc'", "'Xabcde'", "doesn't return None", "/abc/")));
  }

  lemma OutcomeAssertMatch()
    ensures RunVerdicts(Start(Initial, "test_assert_match"), "TestCase.test_assert_match", [Pass, Failure(PatternMessage("match", "'abc'", "'Xabcde'", "doesn't return None", "/abc/"))])
         == Summary(1, 1, 1, 0, 0, 0,
            [Fault(FailureCode, "TestCase.test_assert_match", PatternMessage("match", "'abc'", "'Xabcde'", "doesn't return None", "/abc/"))],
            ["test_assert_match"])
  {
  }

  lemma AloneAssertMatch()
    ensures Alone(TestAssertMatch) == Summary(1, 1, 1, 0, 0, 0,
      [Fault(FailureCode, "TestCase.test_assert_match", PatternMessage("match", "'abc'", "'Xabcde'", "doesn't return None", "/abc/"))],
      ["test_assert_match"])
  {
    StepsAssertMatch();
    NameAssertMatch();
    AloneFrom(TestAssertMatch, "test_assert_match", "TestCase.test_assert_match", [Pass, Failure(PatternMessage("match", "'abc'", "'Xabcde'", "doesn't return None", "/abc/"))]);
    OutcomeAssertMatch();
  }

  lemma FactAssertMatchRe_0_0()
    ensures IsMatch(Compiled("xyz", NoFlags), "xyzabc")
  {
    assert "xyzabc"[..3] == "xyz";
  }

  lemma VerdictAssertMatchRe_0()
    ensures Match(Compiled("xyz", NoFlags), "xyzabc") == Pass
  {
    FactAssertMatchRe_0_0();
  }

  lemma StepAssertMatchRe_0()
    ensures Evaluate(CallAssertMatchRe_0) == Pass
  {
    VerdictAssertMatchRe_0();
    EvaluatePattern(CallAssertMatchRe_0, Pass);
  }

  lemma FactAssertMatchRe_1_0()
    ensures !IsMatch(Compiled("xyz", NoFlags), "abcxyz")
  {
    assert "abcxyz"[..3][0] != "xyz"[0];
  }

  lemma FactAssertMatchRe_1_1_0_0_0()
    ensures StrRepr("xyz") == "'" + "xyz" + "'"
  {
    PlainStrRepr("xyz");
  }

  lemma FactAssertMatchRe_1_1_0_0_1()
    ensures "'" + "xyz" + "'" == "'xyz'"
  {
  }

  lemma FactAssertMatchRe_1_1_0_0()
    ensures StrRepr("xyz") == "'xyz'"
  {
    FactAssertMatchRe_1_1_0_0_0();
    FactAssertMatchRe_1_1_0_0_1();
  }

  lemma FactAssertMatchRe_1_1_0()
    ensures Argument(Compiled("xyz", NoFlags)) == "'xyz'"
  {
    FactAssertMatchRe_1_1_0_0();
  }

  lemma FactAssertMatchRe_1_1_1_0()
    ensures StrRepr("abcxyz") == "'" + "abcxyz" + "'"
  {
    PlainStrRepr("abcxyz");
  }

  lemma FactAssertMatchRe_1_1_1_1()
    ensures "'" + "abcxyz" + "'" == "'abcxyz'"
  {
  }

  lemma FactAssertMatchRe_1_1_1()
    ensures StrRepr("abcxyz") == "'abcxyz'"
  {
    FactAssertMatchRe_1_1_1_0();
    FactAssertMatchRe_1_1_1_1();
  }

  lemma FactAssertMatchRe_1_1_2_0()
    ensures FlagLetters(NoFlags) == ""
  {
  }

  lemma FactAssertMatchRe_1_1_2_1()
    ensures "/" + "xyz" + "/" + "" == "/xyz/"
  {
  }

  lemma FactAssertMatchRe_1_1_2()
    ensures Render(Compiled("xyz", NoFlags)) == "/xyz/"
  {
    FactAssertMatchRe_1_1_2_0();
    FactAssertMatchRe_1_1_2_1();
  }

  lemma FactAssertMatchRe_1_1()
    ensures PatternDetail("match", Compiled("xyz", NoFlags), "abcxyz", false) == PatternMessage("match", "'xyz'", "'abcxyz'", "doesn't return None", "/xyz/")
  {
    FactAssertMatchRe_1_1_0();
    FactAssertMatchRe_1_1_1();
    FactAssertMatchRe_1_1_2();
    PatternDetailIs("match", Compiled("xyz", NoFlags), "abcxyz", false, "'xyz'", "'abcxyz'", "/xyz/");
  }

  lemma VerdictAssertMatchRe_1()
    ensures Match(Compiled("xyz", NoFlags), "abcxyz") == Failure(PatternMessage("match", "'xyz'", "'abcxyz'", "doesn't return None", "/xyz/"))
  {
    FactAssertMatchRe_1_0();
    FactAssertMatchRe_1_1();
  }

  lemma StepAssertMatchRe_1()
    ensures Evaluate(CallAssertMatchRe_1) == Failure(PatternMessage("match", "'xyz'", "'abcxyz'", "doesn't return None", "/xyz/"))
  {
    VerdictAssertMatchRe_1();
    EvaluatePattern(CallAssertMatchRe_1, Failure(PatternMessage("match", "'xyz'", "'abcxyz'", "doesn't return None", "/xyz/")));
  }

  lemma NameTextAssertMatchRe()
    ensures "TestCase" + "." + "test_assert_match_re" == "TestCase.test_assert_match_re"
  {
  }

  lemma NameAssertMatchRe()
    ensures QualifiedName(TestAssertMatchRe) == "TestCase.test_assert_match_re"
  {
    NameTextAssertMatchRe();
  }

  lemma StepsAssertMatchRe()
    ensures Verdicts(TestAssertMatchRe.steps) == [Pass, Failure(PatternMessage("match", "'xyz'", "'abcxyz'", "doesn't return None", "/xyz/"))]
  {
    StepAssertMatchRe_0();
    StepAssertMatchRe_1();
    VerdictsOf2(TestAssertMatchRe.steps, CallAssertMatchRe_0, CallAssertMatchRe_1, Pass, Failure(PatternMessage("match", "'xyz'", "'abcxyz'", "doesn't return None", "/xyz/")));
  }

  lemma OutcomeAssertMatchRe()
    ensures RunVerdicts(Start(Initial, "test_assert_match_re"), "TestCase.test_assert_match_re", [Pass, Failure(PatternMessage("match", "'xyz'", "'abcxyz'", "doesn't return None", "/xyz/"))])
         == Summary(1, 1, 1, 0, 0, 0,
            [Fault(FailureCode, "TestCase.test_assert_match_re", PatternMessage("match", "'xyz'", "'abcxyz'", "doesn't return None", "/xyz/"))],
            ["test_assert_match_re"])
  {
  }

  lemma AloneAssertMatchRe()
    ensures Alone(TestAssertMatchRe) == Summary(1, 1, 1, 0, 0, 0,
      [Fault(FailureCode, "TestCase.test_assert_match_re", PatternMessage("match", "'xyz'", "'abcxyz'", "doesn't return None", "/xyz/"))],
      ["test_assert_match_re"])
  {
    StepsAssertMatchRe();
    NameAssertMatchRe();
    AloneFrom(TestAssertMatchRe, "test_assert_match_re", "TestCase.test_assert_match_re", [Pass, Failure(PatternMessage("match", "'xyz'", "'abcxyz'", "doesn't return None", "/xyz/"))]);
    OutcomeAssertMatchRe();
  }

  lemma FactAssertNotMatch_0_0()
    ensures !IsMatch(Literal("abc"), "Xabcde")
  {
    assert "Xabcde"[..3][0] != "abc"[0];
  }

  lemma VerdictAssertNotMatch_0()
    ensures NotMatch(Literal("abc"), "Xabcde") == Pass
  {
    FactAssertNotMatch_0_0();
  }

  lemma StepAssertNotMatch_0()
    ensures Evaluate(CallAssertNotMatch_0) == Pass
  {
    VerdictAssertNotMatch_0();
    EvaluatePattern(CallAssertNotMatch_0, Pass);
  }

  lemma FactAssertNotMatch_1_0()
    ensures IsMatch(Literal("abc"), "abcde")
  {
    assert "abcde"[..3] == "abc";
  }

  lemma FactAssertNotMatch_1_1_0_0_0()
    ensures StrRepr("abc") == "'" + "abc" + "'"
  {
    PlainStrRepr("abc");
  }

  lemma FactAssertNotMatch_1_1_0_0_1()
    ensures "'" + "abc" + "'" == "'abc'"
  {
  }

  lemma FactAssertNotMatch_1_1_0_0()
    ensures StrRepr("abc") == "'abc'"
  {
    FactAssertNotMatch_1_1_0_0_0();
    FactAssertNotMatch_1_1_0_0_1();
  }

  lemma FactAssertNotMatch_1_1_0()
    ensures Argument(Literal("abc")) == "'abc'"
  {
    FactAssertNotMatch_1_1_0_0();
  }

  lemma FactAssertNotMatch_1_1_1_0()
    ensures StrRepr("abcde") == "'" + "abcde" + "'"
  {
    PlainStrRepr("abcde");
  }

  lemma FactAssertNotMatch_1_1_1_1()
    ensures "'" + "abcde" + "'" == "'abcde'"
  {
  }

  lemma FactAssertNotMatch_1_1_1()
    ensures StrRepr("abcde") == "'abcde'"
  {
    FactAssertNotMatch_1_1_1_0();
    FactAssertNotMatch_1_1_1_1();
  }

  lemma FactAssertNotMatch_1_1_2_0()
    ensures FlagLetters(NoFlags) == ""
  {
  }

  lemma FactAssertNotMatch_1_1_2_1()
    ensures "/" + "abc" + "/" + "" == "/abc/"
  {
  }

  lemma FactAssertNotMatch_1_1_2()
    ensures Render(Literal("abc")) == "/abc/"
  {
    FactAssertNotMatch_1_1_2_0();
    FactAssertNotMatch_1_1_2_1();
  }

  lemma FactAssertNotMatch_1_1()
    ensures PatternDetail("match", Literal("abc"), "abcde", true) == PatternMessage("match", "'abc'", "'abcde'", "returns None", "/abc/")
  {
    FactAssertNotMatch_1_1_0();
    FactAssertNotMatch_1_1_1();
    FactAssertNotMatch_1_1_2();
    PatternDetailIs("match", Literal("abc"), "abcde", true, "'abc'", "'abcde'", "/abc/");
  }

  lemma VerdictAssertNotMatch_1()
    ensures NotMatch(Literal("abc"), "abcde") == Failure(PatternMessage("match", "'abc'", "'abcde'", "returns None", "/abc/"))
  {
    FactAssertNotMatch_1_0();
    FactAssertNotMatch_1_1();
  }

  lemma StepAssertNotMatch_1()
    ensures Evaluate(CallAssertNotMatch_1) == Failure(PatternMessage("match", "'abc'", "'abcde'", "returns None", "/abc/"))
  {
    VerdictAssertNotMatch_1();
    EvaluatePattern(CallAssertNotMatch_1, Failure(PatternMessage("match", "'abc'", "'abcde'", "returns None", "/abc/")));
  }

  lemma NameTextAssertNotMatch()
    ensures "TestCase" + "." + "test_assert_not_match" == "TestCase.test_assert_not_match"
  {
  }

  lemma NameAssertNotMatch()
    ensures QualifiedName(TestAssertNotMatch) == "TestCase.test_assert_not_match"
  {
    NameTextAssertNotMatch();
  }

  lemma StepsAssertNotMatch()
    ensures Verdicts(TestAssertNotMatch.steps) == [Pass, Failure(PatternMessage("match", "'abc'", "'abcde'", "returns None", "/abc/"))]
  {
    StepAssertNotMatch_0();
    StepAssertNotMatch_1();
    VerdictsOf2(TestAssertNotMatch.steps, CallAssertNotMatch_0, CallAssertNotMatch_1, Pass, Failure(PatternMessage("match", "'abc'", "'abcde'", "returns None", "/abc/")));
  }

  lemma OutcomeAssertNotMatch()
    ensures RunVerdicts(Start(Initial, "test_assert_not_match"), "TestCase.test_assert_not_match", [Pass, Failure(PatternMessage("match", "'abc'", "'abcde'", "returns None", "/abc/"))])
         == Summary(1, 1, 1, 0, 0, 0,
            [Fault(FailureCode, "TestCase.test_assert_not_match", PatternMessage("match", "'abc'", "'abcde'", "returns None", "/abc/"))],
            ["test_assert_not_match"])
  {
  }

  lemma AloneAssertNotMatch()
    ensures Alone(TestAssertNotMatch) == Summary(1, 1, 1, 0, 0, 0,
      [Fault(FailureCode, "TestCase.test_assert_not_match", PatternMessage("match", "'abc'", "'abcde'", "returns None", "/abc/"))],
      ["test_assert_not_match"])
  {
    StepsAssertNotMatch();
    NameAssertNotMatch();
    AloneFrom(TestAssertNotMatch, "test_assert_not_match", "TestCase.test_assert_not_match", [Pass, Failure(PatternMessage("match", "'abc'", "'abcde'", "returns None", "/abc/"))]);
    OutcomeAssertNotMatch();
  }

  lemma FactAssertNotMatchRe_0_0()
    ensures !IsMatch(Compiled("xyz", Flags(true, false)), "abcXYZ")
  {
    assert Fold("abcXYZ")[..3][0] != Fold("xyz")[0];
  }

  lemma VerdictAssertNotMatchRe_0()
    ensures NotMatch(Compiled("xyz", Flags(true, false)), "abcXYZ") == Pass
  {
    FactAssertNotMatchRe_0_0();
  }

  lemma StepAssertNotMatchRe_0()
    ensures Evaluate(CallAssertNotMatchRe_0) == Pass
  {
    VerdictAssertNotMatchRe_0();
    EvaluatePattern(CallAssertNotMatchRe_0, Pass);
  }

  lemma FactAssertNotMatchRe_1_0()
    ensures IsMatch(Compiled("xyz", Flags(true, false)), "XYZabc")
  {
    assert Fold("XYZabc")[..3] == Fold("xyz");
  }

  lemma FactAssertNotMatchRe_1_1_0_0()
    ensures FlagNames(Flags(true, false)) == "re.IGNORECASE"
  {
  }

  lemma FactAssertNotMatchRe_1_1_0_1_0()
    ensures StrRepr("xyz") == "'" + "xyz" + "'"
  {
    PlainStrRepr("xyz");
  }

  lemma FactAssertNotMatchRe_1_1_0_1_1()
    ensures "'" + "xyz" + "'" == "'xyz'"
  {
  }

  lemma FactAssertNotMatchRe_1_1_0_1()
    ensures StrRepr("xyz") == "'xyz'"
  {
    FactAssertNotMatchRe_1_1_0_1_0();
    FactAssertNotMatchRe_1_1_0_1_1();
  }

  lemma FactAssertNotMatchRe_1_1_0_2()
    ensures "re.compile(" + "'xyz'" + ", " + "re.IGNORECASE" + ")" == "re.compile('xyz', re.IGNORECASE)"
  {
  }

  lemma FactAssertNotMatchRe_1_1_0()
    ensures Argument(Compiled("xyz", Flags(true, false))) == "re.compile('xyz', re.IGNORECASE)"
  {
    FactAssertNotMatchRe_1_1_0_0();
    FactAssertNotMatchRe_1_1_0_1();
    FactAssertNotMatchRe_1_1_0_2();
  }

  lemma FactAssertNotMatchRe_1_1_1_0()
    ensures StrRepr("XYZabc") == "'" + "XYZabc" + "'"
  {
    PlainStrRepr("XYZabc");
  }

  lemma FactAssertNotMatchRe_1_1_1_1()
    ensures "'" + "XYZabc" + "'" == "'XYZabc'"
  {
  }

  lemma FactAssertNotMatchRe_1_1_1()
    ensures StrRepr("XYZabc") == "'XYZabc'"
  {
    FactAssertNotMatchRe_1_1_1_0();
    FactAssertNotMatchRe_1_1_1_1();
  }

  lemma FactAssertNotMatchRe_1_1_2_0()
    ensures FlagLetters(Flags(true, false)) == "i"
  {
  }

  lemma FactAssertNotMatchRe_1_1_2_1()
    ensures "/" + "xyz" + "/" + "i" == "/xyz/i"
  {
  }

  lemma FactAssertNotMatchRe_1_1_2()
    ensures Render(Compiled("xyz", Flags(true, false))) == "/xyz/i"
  {
    FactAssertNotMatchRe_1_1_2_0();
    FactAssertNotMatchRe_1_1_2_1();
  }

  lemma FactAssertNotMatchRe_1_1()
    ensures PatternDetail("match", Compiled("xyz", Flags(true, false)), "XYZabc", true) == PatternMessage("match", "re.compile('xyz', re.IGNORECASE)", "'XYZabc'", "returns None", "/xyz/i")
  {
    FactAssertNotMatchRe_1_1_0();
    FactAssertNotMatchRe_1_1_1();
    FactAssertNotMatchRe_1_1_2();
    PatternDetailIs("match", Compiled("xyz", Flags(true, false)), "XYZabc", true, "re.compile('xyz', re.IGNORECASE)", "'XYZabc'", "/xyz/i");
  }

  lemma VerdictAssertNotMatchRe_1()
    ensures NotMatch(Compiled("xyz", Flags(true, false)), "XYZabc") == Failure(PatternMessage("match", "re.compile('xyz', re.IGNORECASE)", "'XYZabc'", "returns None", "/xyz/i"))
  {
    FactAssertNotMatchRe_1_0();
    FactAssertNotMatchRe_1_1();
  }

  lemma StepAssertNotMatchRe_1()
    ensures Evaluate(CallAssertNotMatchRe_1) == Failure(PatternMessage("match", "re.compile('xyz', re.IGNORECASE)", "'XYZabc'", "returns None", "/xyz/i"))
  {
    VerdictAssertNotMatchRe_1();
    EvaluatePattern(CallAssertNotMatchRe_1, Failure(PatternMessage("match", "re.compile('xyz', re.IGNORECASE)", "'XYZabc'", "returns None", "/xyz/i")));
  }

  lemma NameTextAssertNotMatchRe()
    ensures "TestCase" + "." + "test_assert_not_match_re" == "TestCase.test_assert_not_match_re"
  {
  }

  lemma NameAssertNotMatchRe()
    ensures QualifiedName(TestAssertNotMatchRe) == "TestCase.test_assert_not_match_re"
  {
    NameTextAssertNotMatchRe();
  }

  lemma StepsAssertNotMatchRe()
    ensures Verdicts(TestAssertNotMatchRe.steps) == [Pass, Failure(PatternMessage("match", "re.compile('xyz', re.IGNORECASE)", "'XYZabc'", "returns None", "/xyz/i"))]
  {
    StepAssertNotMatchRe_0();
    StepAssertNotMatchRe_1();
    VerdictsOf2(TestAssertNotMatchRe.steps, CallAssertNotMatchRe_0, CallAssertNotMatchRe_1, Pass, Failure(PatternMessage("match", "re.compile('xyz', re.IGNORECASE)", "'XYZabc'", "returns None", "/xyz/i")));
  }

  lemma OutcomeAssertNotMatchRe()
    ensures RunVerdicts(Start(Initial, "test_assert_not_match_re"), "TestCase.test_assert_not_match_re", [Pass, Failure(PatternMessage("match", "re.compile('xyz', re.IGNORECASE)", "'XYZabc'", "returns None", "/xyz/i"))])
         == Summary(1, 1, 1, 0, 0, 0,
            [Fault(FailureCode, "TestCase.test_assert_not_match_re", PatternMessage("match", "re.compile('xyz', re.IGNORECASE)", "'XYZabc'", "returns None", "/xyz/i"))],
            ["test_assert_not_match_re"])
  {
  }

  lemma AloneAssertNotMatchRe()
    ensures Alone(TestAssertNotMatchRe) == Summary(1, 1, 1, 0, 0, 0,
      [Fault(FailureCode, "TestCase.test_assert_not_match_re", PatternMessage("match", "re.compile('xyz', re.IGNORECASE)", "'XYZabc'", "returns None", "/xyz/i"))],
      ["test_assert_not_match_re"])
  {
    StepsAssertNotMatchRe();
    NameAssertNotMatchRe();
    AloneFrom(TestAssertNotMatchRe, "test_assert_not_match_re", "TestCase.test_assert_not_match_re", [Pass, Failure(PatternMessage("match", "re.compile('xyz', re.IGNORECASE)", "'XYZabc'", "returns None", "/xyz/i"))]);
    OutcomeAssertNotMatchRe();
  }

  lemma FactAssertSearch_0_0()
    ensures IsFound(Literal("bcd"), "abcde")
  {
    OccursAt("bcd", "abcde");
    assert OccursAtIndex("bcd", "abcde", 1);
  }

  lemma VerdictAssertSearch_0()
    ensures Search(Literal("bcd"), "abcde") == Pass
  {
    FactAssertSearch_0_0();
  }

  lemma StepAssertSearch_0()
    ensures Evaluate(CallAssertSearch_0) == Pass
  {
    VerdictAssertSearch_0();
    EvaluatePattern(CallAssertSearch_0, Pass);
  }

  lemma FactAssertSearch_1_0()
    ensures IsFound(Literal("bcd"), "bcd")
  {
    OccursAt("bcd", "bcd");
    assert OccursAtIndex("bcd", "bcd", 0);
  }

  lemma VerdictAssertSearch_1()
    ensures Search(Literal("bcd"), "bcd") == Pass
  {
    FactAssertSearch_1_0();
  }

  lemma StepAssertSearch_1()
    ensures Evaluate(CallAssertSearch_1) == Pass
  {
    VerdictAssertSearch_1();
    EvaluatePattern(CallAssertSearch_1, Pass);
  }

  lemma FactAssertSearch_2_0()
    ensures !IsFound(Literal("bcd"), "abCde")
  {
    OccursAt("bcd", "abCde");
    assert "abCde"[0..3][0] != "bcd"[0];
    assert "abCde"[1..4][1] != "bcd"[1];
    assert "abCde"[2..5][0] != "bcd"[0];
    assert forall i :: !OccursAtIndex("bcd", "abCde", i);
  }

  lemma FactAssertSearch_2_1_0_0_0()
    ensures StrRepr("bcd") == "'" + "bcd" + "'"
  {
    PlainStrRepr("bcd");
  }

  lemma FactAssertSearch_2_1_0_0_1()
    ensures "'" + "bcd" + "'" == "'bcd'"
  {
  }

  lemma FactAssertSearch_2_1_0_0()
    ensures StrRepr("bcd") == "'bcd'"
  {
    FactAssertSearch_2_1_0_0_0();
    FactAssertSearch_2_1_0_0_1();
  }

  lemma FactAssertSearch_2_1_0()
    ensures Argument(Literal("bcd")) == "'bcd'"
  {
    FactAssertSearch_2_1_0_0();
  }

  lemma FactAssertSearch_2_1_1_0()
    ensures StrRepr("abCde") == "'" + "abCde" + "'"
  {
    PlainStrRepr("abCde");
  }

  lemma FactAssertSearch_2_1_1_1()
    ensures "'" + "abCde" + "'" == "'abCde'"
  {
  }

  lemma FactAssertSearch_2_1_1()
    ensures StrRepr("abCde") == "'abCde'"
  {
    FactAssertSearch_2_1_1_0();
    FactAssertSearch_2_1_1_1();
  }

  lemma FactAssertSearch_2_1_2_0()
    ensures FlagLetters(NoFlags) == ""
  {
  }

  lemma FactAssertSearch_2_1_2_1()
    ensures "/" + "bcd" + "/" + "" == "/bcd/"
  {
  }

  lemma FactAssertSearch_2_1_2()
    ensures Render(Literal("bcd")) == "/bcd/"
  {
    FactAssertSearch_2_1_2_0();
    FactAssertSearch_2_1_2_1();
  }

  lemma FactAssertSearch_2_1()
    ensures PatternDetail("search", Literal("bcd"), "abCde", false) == PatternMessage("search", "'bcd'", "'abCde'", "doesn't return None", "/bcd/")
  {
    FactAssertSearch_2_1_0();
    FactAssertSearch_2_1_1();
    FactAssertSearch_2_1_2();
    PatternDetailIs("search", Literal("bcd"), "abCde", false, "'bcd'", "'abCde'", "/bcd/");
  }

  lemma VerdictAssertSearch_2()
    ensures Search(Literal("bcd"), "abCde") == Failure(PatternMessage("search", "'bcd'", "'abCde'", "doesn't return None", "/bcd/"))
  {
    FactAssertSearch_2_0();
    FactAssertSearch_2_1();
  }

  lemma StepAssertSearch_2()
    ensures Evaluate(CallAssertSearch_2) == Failure(PatternMessage("search", "'bcd'", "'abCde'", "doesn't return None", "/bcd/"))
  {
    VerdictAssertSearch_2();
    EvaluatePattern(CallAssertSearch_2, Failure(PatternMessage("search", "'bcd'", "'abCde'", "doesn't return None", "/bcd/")));
  }

  lemma NameTextAssertSearch()
    ensures "TestCase" + "." + "test_assert_search" == "TestCase.test_assert_search"
  {
  }

  lemma NameAssertSearch()
    ensures QualifiedName(TestAssertSearch) == "TestCase.test_assert_search"
  {
    NameTextAssertSearch();
  }

  lemma StepsAssertSearch()
    ensures Verdicts(TestAssertSearch.steps) == [Pass, Pass, Failure(PatternMessage("search", "'bcd'", "'abCde'", "doesn't return None", "/bcd/"))]
  {
    StepAssertSearch_0();
    StepAssertSearch_1();
    StepAssertSearch_2();
    VerdictsOf3(TestAssertSearch.steps, CallAssertSearch_0, CallAssertSearch_1, CallAssertSearch_2, Pass, Pass, Failure(PatternMessage("search", "'bcd'", "'abCde'", "doesn't return None", "/bcd/")));
  }

  lemma OutcomeAssertSearch()
    ensures RunVerdicts(Start(Initial, "test_assert_search"), "TestCase.test_assert_search", [Pass, Pass, Failure(PatternMessage("search", "'bcd'", "'abCde'", "doesn't return None", "/bcd/"))])
         == Summary(1, 2, 1, 0, 0, 0,
            [Fault(FailureCode, "TestCase.test_assert_search", PatternMessage("search", "'bcd'", "'abCde'", "doesn't return None", "/bcd/"))],
            ["test_assert_search"])
  {
  }

  lemma AloneAssertSearch()
    ensures Alone(TestAssertSearch) == Summary(1, 2, 1, 0, 0, 0,
      [Fault(FailureCode, "TestCase.test_assert_search", PatternMessage("search", "'bcd'", "'abCde'", "doesn't return None", "/bcd/"))],
      ["test_assert_search"])
  {
    StepsAssertSearch();
    NameAssertSearch();
    AloneFrom(TestAssertSearch, "test_assert_search", "TestCase.test_assert_search", [Pass, Pass, Failure(PatternMessage("search", "'bcd'", "'abCde'", "doesn't return None", "/bcd/"))]);
    OutcomeAssertSearch();
  }

  lemma FactAssertSearchRe_0_0()
    ensures IsFound(Compiled("xyz", NoFlags), "AxyzA")
  {
    OccursAt("xyz", "AxyzA");
    assert OccursAtIndex("xyz", "AxyzA", 1);
  }

  lemma VerdictAssertSearchRe_0()
    ensures Search(Compiled("xyz", NoFlags), "AxyzA") == Pass
  {
    FactAssertSearchRe_0_0();
  }

  lemma StepAssertSearchRe_0()
    ensures Evaluate(CallAssertSearchRe_0) == Pass
  {
    VerdictAssertSearchRe_0();
    EvaluatePattern(CallAssertSearchRe_0, Pass);
  }

  lemma FactAssertSearchRe_1_0()
    ensures IsFound(Compiled("xyz", NoFlags), "xyz")
  {
    OccursAt("xyz", "xyz");
    assert OccursAtIndex("xyz", "xyz", 0);
  }

  lemma VerdictAssertSearchRe_1()
    ensures Search(Compiled("xyz", NoFlags), "xyz") == Pass
  {
    FactAssertSearchRe_1_0();
  }

  lemma StepAssertSearchRe_1()
    ensures Evaluate(CallAssertSearchRe_1) == Pass
  {
    VerdictAssertSearchRe_1();
    EvaluatePattern(CallAssertSearchRe_1, Pass);
  }

  lemma FactAssertSearchRe_2_0()
    ensures !IsFound(Compiled("xyz", NoFlags), "AxYzA")
  {
    OccursAt("xyz", "AxYzA");
    assert "AxYzA"[0..3][0] != "xyz"[0];
    assert "AxYzA"[1..4][1] != "xyz"[1];
    assert "AxYzA"[2..5][0] != "xyz"[0];
    assert forall i :: !OccursAtIndex("xyz", "AxYzA", i);
  }

  lemma FactAssertSearchRe_2_1_0_0_0()
    ensures StrRepr("xyz") == "'" + "xyz" + "'"
  {
    PlainStrRepr("xyz");
  }

  lemma FactAssertSearchRe_2_1_0_0_1()
    ensures "'" + "xyz" + "'" == "'xyz'"
  {
  }

  lemma FactAssertSearchRe_2_1_0_0()
    ensures StrRepr("xyz") == "'xyz'"
  {
    FactAssertSearchRe_2_1_0_0_0();
    FactAssertSearchRe_2_1_0_0_1();
  }

  lemma FactAssertSearchRe_2_1_0()
    ensures Argument(Compiled("xyz", NoFlags)) == "'xyz'"
  {
    FactAssertSearchRe_2_1_0_0();
  }

  lemma FactAssertSearchRe_2_1_1_0()
    ensures StrRepr("AxYzA") == "'" + "AxYzA" + "'"
  {
    PlainStrRepr("AxYzA");
  }

  lemma FactAssertSearchRe_2_1_1_1()
    ensures "'" + "AxYzA" + "'" == "'AxYzA'"
  {
  }

  lemma FactAssertSearchRe_2_1_1()
    ensures StrRepr("AxYzA") == "'AxYzA'"
  {
    FactAssertSearchRe_2_1_1_0();
    FactAssertSearchRe_2_1_1_1();
  }

  lemma FactAssertSearchRe_2_1_2_0()
    ensures FlagLetters(NoFlags) == ""
  {
  }

  lemma FactAssertSearchRe_2_1_2_1()
    ensures "/" + "xyz" + "/" + "" == "/xyz/"
  {
  }

  lemma FactAssertSearchRe_2_1_2()
    ensures Render(Compiled("xyz", NoFlags)) == "/xyz/"
  {
    FactAssertSearchRe_2_1_2_0();
    FactAssertSearchRe_2_1_2_1();
  }

  lemma FactAssertSearchRe_2_1()
    ensures PatternDetail("search", Compiled("xyz", NoFlags), "AxYzA", false) == PatternMessage("search", "'xyz'", "'AxYzA'", "doesn't return None", "/xyz/")
  {
    FactAssertSearchRe_2_1_0();
    FactAssertSearchRe_2_1_1();
    FactAssertSearchRe_2_1_2();
    PatternDetailIs("search", Compiled("xyz", NoFlags), "AxYzA", false, "'xyz'", "'AxYzA'", "/xyz/");
  }

  lemma VerdictAssertSearchRe_2()
    ensures Search(Compiled("xyz", NoFlags), "AxYzA") == Failure(PatternMessage("search", "'xyz'", "'AxYzA'", "doesn't return None", "/xyz/"))
  {
    FactAssertSearchRe_2_0();
    FactAssertSearchRe_2_1();
  }

  lemma StepAssertSearchRe_2()
    ensures Evaluate(CallAssertSearchRe_2) == Failure(PatternMessage("search", "'xyz'", "'AxYzA'", "doesn't return None", "/xyz/"))
  {
    VerdictAssertSearchRe_2();
    EvaluatePattern(CallAssertSearchRe_2, Failure(PatternMessage("search", "'xyz'", "'AxYzA'", "doesn't return None", "/xyz/")));
  }

  lemma NameTextAssertSearchRe()
    ensures "TestCase" + "." + "test_assert_search_re" == "TestCase.test_assert_search_re"
  {
  }

  lemma NameAssertSearchRe()
    ensures QualifiedName(TestAssertSearchRe) == "TestCase.test_assert_search_re"
  {
    NameTextAssertSearchRe();
  }

  lemma StepsAssertSearchRe()
    ensures Verdicts(TestAssertSearchRe.steps) == [Pass, Pass, Failure(PatternMessage("search", "'xyz'", "'AxYzA'", "doesn't return None", "/xyz/"))]
  {
    StepAssertSearchRe_0();
    StepAssertSearchRe_1();
    StepAssertSearchRe_2();
    VerdictsOf3(TestAssertSearchRe.steps, CallAssertSearchRe_0, CallAssertSearchRe_1, CallAssertSearchRe_2, Pass, Pass, Failure(PatternMessage("search", "'xyz'", "'AxYzA'", "doesn't return None", "/xyz/")));
  }

  lemma OutcomeAssertSearchRe()
    ensures RunVerdicts(Start(Initial, "test_assert_search_re"), "TestCase.test_assert_search_re", [Pass, Pass, Failure(PatternMessage("search", "'xyz'", "'AxYzA'", "doesn't return None", "/xyz/"))])
         == Summary(1, 2, 1, 0, 0, 0,
            [Fault(FailureCode, "TestCase.test_assert_search_re", PatternMessage("search", "'xyz'", "'AxYzA'", "doesn't return None", "/xyz/"))],
            ["test_assert_search_re"])
  {
  }

  lemma AloneAssertSearchRe()
    ensures Alone(TestAssertSearchRe) == Summary(1, 2, 1, 0, 0, 0,
      [Fault(FailureCode, "TestCase.test_assert_search_re", PatternMessage("search", "'xyz'", "'AxYzA'", "doesn't return None", "/xyz/"))],
      ["test_assert_search_re"])
  {
    StepsAssertSearchRe();
    NameAssertSearchRe();
    AloneFrom(TestAssertSearchRe, "test_assert_search_re", "TestCase.test_assert_search_re", [Pass, Pass, Failure(PatternMessage("search", "'xyz'", "'AxYzA'", "doesn't return None", "/xyz/"))]);
    OutcomeAssertSearchRe();
  }

  lemma FactAssertNotFound_0_0()
    ensures !IsFound(Literal("bcd"), "abCde")
  {
    OccursAt("bcd", "abCde");
    assert "abCde"[0..3][0] != "bcd"[0];
    assert "abCde"[1..4][1] != "bcd"[1];
    assert "abCde"[2..5][0] != "bcd"[0];
    assert forall i :: !OccursAtIndex("bcd", "abCde", i);
  }

  lemma VerdictAssertNotFound_0()
    ensures NotFound(Literal("bcd"), "abCde") == Pass
  {
    FactAssertNotFound_0_0();
  }

  lemma StepAssertNotFound_0()
    ensures Evaluate(CallAssertNotFound_0) == Pass
  {
    VerdictAssertNotFound_0();
    EvaluatePattern(CallAssertNotFound_0, Pass);
  }

  lemma FactAssertNotFound_1_0()
    ensures !IsFound(Compiled("bcd", NoFlags), "abCde")
  {
    OccursAt("bcd", "abCde");
    assert "abCde"[0..3][0] != "bcd"[0];
    assert "abCde"[1..4][1] != "bcd"[1];
    assert "abCde"[2..5][0] != "bcd"[0];
    assert forall i :: !OccursAtIndex("bcd", "abCde", i);
  }

  lemma VerdictAssertNotFound_1()
    ensures NotFound(Compiled("bcd", NoFlags), "abCde") == Pass
  {
    FactAssertNotFound_1_0();
  }

  lemma StepAssertNotFound_1()
    ensures Evaluate(CallAssertNotFound_1) == Pass
  {
    VerdictAssertNotFound_1();
    EvaluatePattern(CallAssertNotFound_1, Pass);
  }

  lemma FactAssertNotFound_2_0()
    ensures IsFound(Compiled("bcd", Flags(true, true)), "abCde")
  {
    OccursAt(Fold("bcd"), Fold("abCde"));
    assert OccursAtIndex(Fold("bcd"), Fold("abCde"), 1);
  }

  lemma FactAssertNotFound_2_1_0_0()
    ensures FlagNames(Flags(true, true)) == "re.IGNORECASE | re.LOCALE"
  {
  }

  lemma FactAssertNotFound_2_1_0_1_0()
    ensures StrRepr("bcd") == "'" + "bcd" + "'"
  {
    PlainStrRepr("bcd");
  }

  lemma FactAssertNotFound_2_1_0_1_1()
    ensures "'" + "bcd" + "'" == "'bcd'"
  {
  }

  lemma FactAssertNotFound_2_1_0_1()
    ensures StrRepr("bcd") == "'bcd'"
  {
    FactAssertNotFound_2_1_0_1_0();
    FactAssertNotFound_2_1_0_1_1();
  }

  lemma FactAssertNotFound_2_1_0_2()
    ensures "re.compile(" + "'bcd'" + ", " + "re.IGNORECASE | re.LOCALE" + ")" == "re.compile('bcd', re.IGNORECASE | re.LOCALE)"
  {
  }

  lemma FactAssertNotFound_2_1_0()
    ensures Argument(Compiled("bcd", Flags(true, true))) == "re.compile('bcd', re.IGNORECASE | re.LOCALE)"
  {
    FactAssertNotFound_2_1_0_0();
    FactAssertNotFound_2_1_0_1();
    FactAssertNotFound_2_1_0_2();
  }

  lemma FactAssertNotFound_2_1_1_0()
    ensures StrRepr("abCde") == "'" + "abCde" + "'"
  {
    PlainStrRepr("abCde");
  }

  lemma FactAssertNotFound_2_1_1_1()
    ensures "'" + "abCde" + "'" == "'abCde'"
  {
  }

  lemma FactAssertNotFound_2_1_1()
    ensures StrRepr("abCde") == "'abCde'"
  {
    FactAssertNotFound_2_1_1_0();
    FactAssertNotFound_2_1_1_1();
  }

  lemma FactAssertNotFound_2_1_2_0()
    ensures FlagLetters(Flags(true, true)) == "il"
  {
  }

  lemma FactAssertNotFound_2_1_2_1()
    ensures "/" + "bcd" + "/" + "il" == "/bcd/il"
  {
  }

  lemma FactAssertNotFound_2_1_2()
    ensures Render(Compiled("bcd", Flags(true, true))) == "/bcd/il"
  {
    FactAssertNotFound_2_1_2_0();
    FactAssertNotFound_2_1_2_1();
  }

  lemma FactAssertNotFound_2_1()
    ensures PatternDetail("search", Compiled("bcd", Flags(true, true)), "abCde", true) == PatternMessage("search", "re.compile('bcd', re.IGNORECASE | re.LOCALE)", "'abCde'", "returns None", "/bcd/il")
  {
    FactAssertNotFound_2_1_0();
    FactAssertNotFound_2_1_1();
    FactAssertNotFound_2_1_2();
    PatternDetailIs("search", Compiled("bcd", Flags(true, true)), "abCde", true, "re.compile('bcd', re.IGNORECASE | re.LOCALE)", "'abCde'", "/bcd/il");
  }

  lemma VerdictAssertNotFound_2()
    ensures NotFound(Compiled("bcd", Flags(true, true)), "abCde") == Failure(PatternMessage("search", "re.compile('bcd', re.IGNORECASE | re.LOCALE)", "'abCde'", "returns None", "/bcd/il"))
  {
    FactAssertNotFound_2_0();
    FactAssertNotFound_2_1();
  }

  lemma StepAssertNotFound_2()
    ensures Evaluate(CallAssertNotFound_2) == Failure(PatternMessage("search", "re.compile('bcd', re.IGNORECASE | re.LOCALE)", "'abCde'", "returns None", "/bcd/il"))
  {
    VerdictAssertNotFound_2();
    EvaluatePattern(CallAssertNotFound_2, Failure(PatternMessage("search", "re.compile('bcd', re.IGNORECASE | re.LOCALE)", "'abCde'", "returns None", "/bcd/il")));
  }

  lemma NameTextAssertNotFound()
    ensures "TestCase" + "." + "test_assert_not_found" == "TestCase.test_assert_not_found"
  {
  }

  lemma NameAssertNotFound()
    ensures QualifiedName(TestAssertNotFound) == "TestCase.test_assert_not_found"
  {
    NameTextAssertNotFound();
  }

  lemma StepsAssertNotFound()
    ensures Verdicts(TestAssertNotFound.steps) == [Pass, Pass, Failure(PatternMessage("search", "re.compile('bcd', re.IGNORECASE | re.LOCALE)", "'abCde'", "returns None", "/bcd/il"))]
  {
    StepAssertNotFound_0();
    StepAssertNotFound_1();
    StepAssertNotFound_2();
    VerdictsOf3(TestAssertNotFound.steps, CallAssertNotFound_0, CallAssertNotFound_1, CallAssertNotFound_2, Pass, Pass, Failure(PatternMessage("search", "re.compile('bcd', re.IGNORECASE | re.LOCALE)", "'abCde'", "returns None", "/bcd/il")));
  }

  lemma OutcomeAssertNotFound()
    ensures RunVerdicts(Start(Initial, "test_assert_not_found"), "TestCase.test_assert_not_found", [Pass, Pass, Failure(PatternMessage("search", "re.compile('bcd', re.IGNORECASE | re.LOCALE)", "'abCde'", "returns None", "/bcd/il"))])
         == Summary(1, 2, 1, 0, 0, 0,
            [Fault(FailureCode, "TestCase.test_assert_not_found", PatternMessage("search", "re.compile('bcd', re.IGNORECASE | re.LOCALE)", "'abCde'", "returns None", "/bcd/il"))],
            ["test_assert_not_found"])
  {
  }

  lemma AloneAssertNotFound()
    ensures Alone(TestAssertNotFound) == Summary(1, 2, 1, 0, 0, 0,
      [Fault(FailureCode, "TestCase.test_assert_not_found", PatternMessage("search", "re.compile('bcd', re.IGNORECASE | re.LOCALE)", "'abCde'", "returns None", "/bcd/il"))],
      ["test_assert_not_found"])
  {
    StepsAssertNotFound();
    NameAssertNotFound();
    AloneFrom(TestAssertNotFound, "test_assert_not_found", "TestCase.test_assert_not_found", [Pass, Pass, Failure(PatternMessage("search", "re.compile('bcd', re.IGNORECASE | re.LOCALE)", "'abCde'", "returns None", "/bcd/il"))]);
    OutcomeAssertNotFound();
  }

  // ---------------------------------------------------------------------
  // assert_hasattr, assert_callable

  const CallAssertHasattr_0: Step := OnObject(AssertHasattr(StrV("string"), "ljust"))
  const CallAssertHasattr_1: Step := OnObject(AssertHasattr(StrV("string"), "strip"))
  const CallAssertHasattr_2: Step := OnObject(AssertHasattr(StrV("string"), "Strip"))
  const CallAssertHasattr_3: Step := OnObject(AssertHasattr(StrV("string"), "index"))
  const TestAssertHasattr: Check := Case("test_assert_hasattr", [CallAssertHasattr_0, CallAssertHasattr_1, CallAssertHasattr_2, CallAssertHasattr_3])

  const CallAssertCallable_0: Step := OnObject(AssertCallable(CallableInstance))
  const CallAssertCallable_1: Step := OnObject(AssertCallable(Lambda))
  const CallAssertCallable_2: Step := OnObject(AssertCallable(StrV("string")))
  const CallAssertCallable_3: Step := OnObject(AssertCallable(BoundMethod))
  const TestAssertCallable: Check := Case("test_assert_callable", [CallAssertCallable_0, CallAssertCallable_1, CallAssertCallable_2, CallAssertCallable_3])

  lemma FactAssertHasattr_0_0()
    ensures Listed("ljust", Attributes(StrV("string")))
  {
    StrHasMethod("ljust");
  }

  lemma VerdictAssertHasattr_0()
    ensures HasAttr(StrV("string"), "ljust") == Pass
  {
    FactAssertHasattr_0_0();
  }

  lemma StepAssertHasattr_0()
    ensures Evaluate(CallAssertHasattr_0) == Pass
  {
    VerdictAssertHasattr_0();
    EvaluateObject(CallAssertHasattr_0, Pass);
  }

  lemma FactAssertHasattr_1_0()
    ensures Listed("strip", Attributes(StrV("string")))
  {
    StrHasMethod("strip");
  }

  lemma VerdictAssertHasattr_1()
    ensures HasAttr(StrV("string"), "strip") == Pass
  {
    FactAssertHasattr_1_0();
  }

  lemma StepAssertHasattr_1()
    ensures Evaluate(CallAssertHasattr_1) == Pass
  {
    VerdictAssertHasattr_1();
    EvaluateObject(CallAssertHasattr_1, Pass);
  }

  lemma FactAssertHasattr_2_0()
    ensures !Listed("Strip", Attributes(StrV("string")))
  {
    StrLacksStrip();
  }

  lemma FactAssertHasattr_2_1_0_0()
    ensures StrRepr("string") == "'" + "string" + "'"
  {
    PlainStrRepr("string");
  }

  lemma FactAssertHasattr_2_1_0_1()
    ensures "'" + "string" + "'" == "'string'"
  {
  }

  lemma FactAssertHasattr_2_1_0()
    ensures StrRepr("string") == "'string'"
  {
    FactAssertHasattr_2_1_0_0();
    FactAssertHasattr_2_1_0_1();
  }

  lemma FactAssertHasattr_2_1()
    ensures Repr(StrV("string")) == "'string'"
  {
    FactAssertHasattr_2_1_0();
  }

  lemma FactAssertHasattr_2_2_0()
    ensures StrRepr("Strip") == "'" + "Strip" + "'"
  {
    PlainStrRepr("Strip");
  }

  lemma FactAssertHasattr_2_2_1()
    ensures "'" + "Strip" + "'" == "'Strip'"
  {
  }

  lemma FactAssertHasattr_2_2()
    ensures StrRepr("Strip") == "'Strip'"
  {
    FactAssertHasattr_2_2_0();
    FactAssertHasattr_2_2_1();
  }

  lemma TextAssertHasattr_2()
    ensures "expected: hasattr(" + "'string'" + ", " + "'Strip'" + ")" == "expected: hasattr('string', 'Strip')"
  {
  }

  lemma VerdictAssertHasattr_2()
    ensures HasAttr(StrV("string"), "Strip") == Failure("expected: hasattr('string', 'Strip')")
  {
    FactAssertHasattr_2_0();
    FactAssertHasattr_2_1();
    FactAssertHasattr_2_2();
    TextAssertHasattr_2();
  }

  lemma StepAssertHasattr_2()
    ensures Evaluate(CallAssertHasattr_2) == Failure("expected: hasattr('string', 'Strip')")
  {
    VerdictAssertHasattr_2();
    EvaluateObject(CallAssertHasattr_2, Failure("expected: hasattr('string', 'Strip')"));
  }

  lemma FactAssertHasattr_3_0()
    ensures Listed("index", Attributes(StrV("string")))
  {
    StrHasMethod("index");
  }

  lemma VerdictAssertHasattr_3()
    ensures HasAttr(StrV("string"), "index") == Pass
  {
    FactAssertHasattr_3_0();
  }

  lemma StepAssertHasattr_3()
    ensures Evaluate(CallAssertHasattr_3) == Pass
  {
    VerdictAssertHasattr_3();
    EvaluateObject(CallAssertHasattr_3, Pass);
  }

  lemma NameTextAssertHasattr()
    ensures "TestCase" + "." + "test_assert_hasattr" == "TestCase.test_assert_hasattr"
  {
  }

  lemma NameAssertHasattr()
    ensures QualifiedName(TestAssertHasattr) == "TestCase.test_assert_hasattr"
  {
    NameTextAssertHasattr();
  }

  lemma StepsAssertHasattr()
    ensures Verdicts(TestAssertHasattr.steps) == [Pass, Pass, Failure("expected: hasattr('string', 'Strip')"), Pass]
  {
    StepAssertHasattr_0();
    StepAssertHasattr_1();
    StepAssertHasattr_2();
    StepAssertHasattr_3();
    VerdictsOf4(TestAssertHasattr.steps, CallAssertHasattr_0, CallAssertHasattr_1, CallAssertHasattr_2, CallAssertHasattr_3, Pass, Pass, Failure("expected: hasattr('string', 'Strip')"), Pass);
  }

  lemma OutcomeAssertHasattr()
    ensures RunVerdicts(Start(Initial, "test_assert_hasattr"), "TestCase.test_assert_hasattr", [Pass, Pass, Failure("expected: hasattr('string', 'Strip')"), Pass])
         == Summary(1, 2, 1, 0, 0, 0,
            [Fault(FailureCode, "TestCase.test_assert_hasattr", "expected: hasattr('string', 'Strip')")],
            ["test_assert_hasattr"])
  {
  }

  lemma AloneAssertHasattr()
    ensures Alone(TestAssertHasattr) == Summary(1, 2, 1, 0, 0, 0,
      [Fault(FailureCode, "TestCase.test_assert_hasattr", "expected: hasattr('string', 'Strip')")],
      ["test_assert_hasattr"])
  {
    StepsAssertHasattr();
    NameAssertHasattr();
    AloneFrom(TestAssertHasattr, "test_assert_hasattr", "TestCase.test_assert_hasattr", [Pass, Pass, Failure("expected: hasattr('string', 'Strip')"), Pass]);
    OutcomeAssertHasattr();
  }

  lemma StepAssertCallable_0()
    ensures Evaluate(CallAssertCallable_0) == Pass
  {
  }

  lemma StepAssertCallable_1()
    ensures Evaluate(CallAssertCallable_1) == Pass
  {
  }

  lemma FactAssertCallable_2_0()
    ensures !IsCallable(StrV("string"))
  {
  }

  lemma FactAssertCallable_2_1_0_0()
    ensures StrRepr("string") == "'" + "string" + "'"
  {
    PlainStrRepr("string");
  }

  lemma FactAssertCallable_2_1_0_1()
    ensures "'" + "string" + "'" == "'string'"
  {
  }

  lemma FactAssertCallable_2_1_0()
    ensures StrRepr("string") == "'string'"
  {
    FactAssertCallable_2_1_0_0();
    FactAssertCallable_2_1_0_1();
  }

  lemma FactAssertCallable_2_1()
    ensures Repr(StrV("string")) == "'string'"
  {
    FactAssertCallable_2_1_0();
  }

  lemma TextAssertCallable_2()
    ensures "expected: callable(" + "'string'" + ")" == "expected: callable('string')"
  {
  }

  lemma VerdictAssertCallable_2()
    ensures Callable(StrV("string")) == Failure("expected: callable('string')")
  {
    FactAssertCallable_2_0();
    FactAssertCallable_2_1();
    TextAssertCallable_2();
  }

  lemma StepAssertCallable_2()
    ensures Evaluate(CallAssertCallable_2) == Failure("expected: callable('string')")
  {
    VerdictAssertCallable_2();
    EvaluateObject(CallAssertCallable_2, Failure("expected: callable('string')"));
  }

  lemma StepAssertCallable_3()
    ensures Evaluate(CallAssertCallable_3) == Pass
  {
  }

  lemma NameTextAssertCallable()
    ensures "TestCase" + "." + "test_assert_callable" == "TestCase.test_assert_callable"
  {
  }

  lemma NameAssertCallable()
    ensures QualifiedName(TestAssertCallable) == "TestCase.test_assert_callable"
  {
    NameTextAssertCallable();
  }

  lemma StepsAssertCallable()
    ensures Verdicts(TestAssertCallable.steps) == [Pass, Pass, Failure("expected: callable('string')"), Pass]
  {
    StepAssertCallable_0();
    StepAssertCallable_1();
    StepAssertCallable_2();
    StepAssertCallable_3();
    VerdictsOf4(TestAssertCallable.steps, CallAssertCallable_0, CallAssertCallable_1, CallAssertCallable_2, CallAssertCallable_3, Pass, Pass, Failure("expected: callable('string')"), Pass);
  }

  lemma OutcomeAssertCallable()
    ensures RunVerdicts(Start(Initial, "test_assert_callable"), "TestCase.test_assert_callable", [Pass, Pass, Failure("expected: callable('string')"), Pass])
         == Summary(1, 2, 1, 0, 0, 0,
            [Fault(FailureCode, "TestCase.test_assert_callable", "expected: callable('string')")],
            ["test_assert_callable"])
  {
  }

  lemma AloneAssertCallable()
    ensures Alone(TestAssertCallable) == Summary(1, 2, 1, 0, 0, 0,
      [Fault(FailureCode, "TestCase.test_assert_callable", "expected: callable('string')")],
      ["test_assert_callable"])
  {
    StepsAssertCallable();
    NameAssertCallable();
    AloneFrom(TestAssertCallable, "test_assert_callable", "TestCase.test_assert_callable", [Pass, Pass, Failure("expected: callable('string')"), Pass]);
    OutcomeAssertCallable();
  }

  // ---------------------------------------------------------------------
  // The outer tests

  lemma SummaryFail()
    ensures Run([TestFail]) == Summary(1, 0, 1, 0, 0, 0,
      [Fault(FailureCode, "TestCase.test_fail", "Failed!!!")],
      ["test_fail"])
  {
    AloneFail();
    RunOf1(TestFail);
  }

  lemma ReplayFail()
    ensures ResultIs(Run([TestFail]), false, 1, 0, 1, 0, 0, 0,
      [Expected('F', "TestCase.test_fail", "Failed!!!")],
      ["test_fail"])
  {
    SummaryFail();
  }

  lemma SummaryPend()
    ensures Run([TestPend]) == Summary(1, 1, 0, 0, 1, 0,
      [Fault(PendingCode, "TestCase.test_pend", "Pending!!!")],
      ["test_pend"])
  {
    AlonePend();
    RunOf1(TestPend);
  }

  lemma ReplayPend()
    ensures ResultIs(Run([TestPend]), true, 1, 1, 0, 0, 1, 0,
      [Expected('P', "TestCase.test_pend", "Pending!!!")],
      ["test_pend"])
  {
    SummaryPend();
  }

  lemma SummaryNotify()
    ensures Run([TestNotify]) == Summary(1, 2, 0, 0, 0, 1,
      [Fault(NotificationCode, "TestCase.test_notify", "Notification!!!")],
      ["test_notify"])
  {
    AloneNotify();
    RunOf1(TestNotify);
  }

  lemma ReplayNotify()
    ensures ResultIs(Run([TestNotify]), true, 1, 2, 0, 0, 0, 1,
      [Expected('N', "TestCase.test_notify", "Notification!!!")],
      ["test_notify"])
  {
    SummaryNotify();
  }

  lemma SummaryAssertNone()
    ensures Run([TestAssertNone]) == Summary(1, 1, 1, 0, 0, 0,
      [Fault(FailureCode, "TestCase.test_assert_none", "expected: <False> is None")],
      ["test_assert_none"])
  {
    AloneAssertNone();
    RunOf1(TestAssertNone);
  }

  lemma ReplayAssertNone()
    ensures ResultIs(Run([TestAssertNone]), false, 1, 1, 1, 0, 0, 0,
      [Expected('F', "TestCase.test_assert_none", "expected: <False> is None")],
      ["test_assert_none"])
  {
    SummaryAssertNone();
  }

  lemma SummaryAssertNotNone()
    ensures Run([TestAssertNotNone]) == Summary(1, 1, 1, 0, 0, 0,
      [Fault(FailureCode, "TestCase.test_assert_not_none", "expected: not None")],
      ["test_assert_not_none"])
  {
    AloneAssertNotNone();
    RunOf1(TestAssertNotNone);
  }

  lemma ReplayAssertNotNone()
    ensures ResultIs(Run([TestAssertNotNone]), false, 1, 1, 1, 0, 0, 0,
      [Expected('F', "TestCase.test_assert_not_none", "expected: not None")],
      ["test_assert_not_none"])
  {
    SummaryAssertNotNone();
  }

  lemma TotalAssertTrue(a: Summary, b: Summary, c: Summary, d: Summary)
    requires a == Summary(1, 0, 1, 0, 0, 0,
           [Fault(FailureCode, "TestCase.test_assert_true_for_none", "expected: <None> is a true value")],
           ["test_assert_true_for_none"])
          && b == Summary(1, 1, 1, 0, 0, 0,
           [Fault(FailureCode, "TestCase.test_assert_true_for_boolean", "expected: <False> is a true value")],
           ["test_assert_true_for_boolean"])
          && c == Summary(1, 1, 1, 0, 0, 0,
           [Fault(FailureCode, "TestCase.test_assert_true_for_integer", "expected: <0> is a true value")],
           ["test_assert_true_for_integer"])
          && d == Summary(1, 1, 1, 0, 0, 0,
           [Fault(FailureCode, "TestCase.test_assert_true_for_string", "expected: <''> is a true value")],
           ["test_assert_true_for_string"])
    ensures Combine(a, Combine(b, Combine(c, d)))
         == Summary(4, 3, 4, 0, 0, 0,
            [Fault(FailureCode, "TestCase.test_assert_true_for_none", "expected: <None> is a true value"),
             Fault(FailureCode, "TestCase.test_assert_true_for_boolean", "expected: <False> is a true value"),
             Fault(FailureCode, "TestCase.test_assert_true_for_integer", "expected: <0> is a true value"),
             Fault(FailureCode, "TestCase.test_assert_true_for_string", "expected: <''> is a true value")],
            ["test_assert_true_for_none", "test_assert_true_for_boolean", "test_assert_true_for_integer", "test_assert_true_for_string"])
  {
    Singletons4(Fault(FailureCode, "TestCase.test_assert_true_for_none", "expected: <None> is a true value"), Fault(FailureCode, "TestCase.test_assert_true_for_boolean", "expected: <False> is a true value"), Fault(FailureCode, "TestCase.test_assert_true_for_integer", "expected: <0> is a true value"), Fault(FailureCode, "TestCase.test_assert_true_for_string", "expected: <''> is a true value"));
    Singletons4("test_assert_true_for_none", "test_assert_true_for_boolean", "test_assert_true_for_integer", "test_assert_true_for_string");
  }

  lemma SummaryAssertTrue()
    ensures Run([TestTrueForNone, TestTrueForBoolean, TestTrueForInteger, TestTrueForString]) == Summary(4, 3, 4, 0, 0, 0,
      [Fault(FailureCode, "TestCase.test_assert_true_for_none", "expected: <None> is a true value"),
       Fault(FailureCode, "TestCase.test_assert_true_for_boolean", "expected: <False> is a true value"),
       Fault(FailureCode, "TestCase.test_assert_true_for_integer", "expected: <0> is a true value"),
       Fault(FailureCode, "TestCase.test_assert_true_for_string", "expected: <''> is a true value")],
      ["test_assert_true_for_none", "test_assert_true_for_boolean", "test_assert_true_for_integer", "test_assert_true_for_string"])
  {
    AloneTrueForNone();
    AloneTrueForBoolean();
    AloneTrueForInteger();
    AloneTrueForString();
    RunOf4(TestTrueForNone, TestTrueForBoolean, TestTrueForInteger, TestTrueForString);
    TotalAssertTrue(Alone(TestTrueForNone), Alone(TestTrueForBoolean), Alone(TestTrueForInteger), Alone(TestTrueForString));
  }

  lemma ReplayAssertTrue()
    ensures ResultIs(Run([TestTrueForNone, TestTrueForBoolean, TestTrueForInteger, TestTrueForString]), false, 4, 3, 4, 0, 0, 0,
      [Expected('F', "TestCase.test_assert_true_for_none", "expected: <None> is a true value"),
       Expected('F', "TestCase.test_assert_true_for_boolean", "expected: <False> is a true value"),
       Expected('F', "TestCase.test_assert_true_for_integer", "expected: <0> is a true value"),
       Expected('F', "TestCase.test_assert_true_for_string", "expected: <''> is a true value")],
      ["test_assert_true_for_none", "test_assert_true_for_boolean", "test_assert_true_for_integer", "test_assert_true_for_string"])
  {
    SummaryAssertTrue();
  }

  lemma TotalAssertFalse(a: Summary, b: Summary, c: Summary, d: Summary)
    requires a == Summary(1, 1, 0, 0, 0, 0,
           [],
           ["test_assert_false_for_none"])
          && b == Summary(1, 1, 1, 0, 0, 0,
           [Fault(FailureCode, "TestCase.test_assert_false_for_boolean", "expected: <True> is a false value")],
           ["test_assert_false_for_boolean"])
          && c == Summary(1, 1, 1, 0, 0, 0,
           [Fault(FailureCode, "TestCase.test_assert_false_for_integer", "expected: <10> is a false value")],
           ["test_assert_false_for_integer"])
          && d == Summary(1, 1, 1, 0, 0, 0,
           [Fault(FailureCode, "TestCase.test_assert_false_for_string", "expected: <'STRING'> is a false value")],
           ["test_assert_false_for_string"])
    ensures Combine(a, Combine(b, Combine(c, d)))
         == Summary(4, 4, 3, 0, 0, 0,
            [Fault(FailureCode, "TestCase.test_assert_false_for_boolean", "expected: <True> is a false value"),
             Fault(FailureCode, "TestCase.test_assert_false_for_integer", "expected: <10> is a false value"),
             Fault(FailureCode, "TestCase.test_assert_false_for_string", "expected: <'STRING'> is a false value")],
            ["test_assert_false_for_none", "test_assert_false_for_boolean", "test_assert_false_for_integer", "test_assert_false_for_string"])
  {
    Singletons3(Fault(FailureCode, "TestCase.test_assert_false_for_boolean", "expected: <True> is a false value"), Fault(FailureCode, "TestCase.test_assert_false_for_integer", "expected: <10> is a false value"), Fault(FailureCode, "TestCase.test_assert_false_for_string", "expected: <'STRING'> is a false value"));
    Singletons4("test_assert_false_for_none", "test_assert_false_for_boolean", "test_assert_false_for_integer", "test_assert_false_for_string");
  }

  lemma SummaryAssertFalse()
    ensures Run([TestFalseForNone, TestFalseForBoolean, TestFalseForInteger, TestFalseForString]) == Summary(4, 4, 3, 0, 0, 0,
      [Fault(FailureCode, "TestCase.test_assert_false_for_boolean", "expected: <True> is a false value"),
       Fault(FailureCode, "TestCase.test_assert_false_for_integer", "expected: <10> is a false value"),
       Fault(FailureCode, "TestCase.test_assert_false_for_string", "expected: <'STRING'> is a false value")],
      ["test_assert_false_for_none", "test_assert_false_for_boolean", "test_assert_false_for_integer", "test_assert_false_for_string"])
  {
    AloneFalseForNone();
    AloneFalseForBoolean();
    AloneFalseForInteger();
    AloneFalseForString();
    RunOf4(TestFalseForNone, TestFalseForBoolean, TestFalseForInteger, TestFalseForString);
    TotalAssertFalse(Alone(TestFalseForNone), Alone(TestFalseForBoolean), Alone(TestFalseForInteger), Alone(TestFalseForString));
  }

  lemma ReplayAssertFalse()
    ensures ResultIs(Run([TestFalseForNone, TestFalseForBoolean, TestFalseForInteger, TestFalseForString]), false, 4, 4, 3, 0, 0, 0,
      [Expected('F', "TestCase.test_assert_false_for_boolean", "expected: <True> is a false value"),
       Expected('F', "TestCase.test_assert_false_for_integer", "expected: <10> is a false value"),
       Expected('F', "TestCase.test_assert_false_for_string", "expected: <'STRING'> is a false value")],
      ["test_assert_false_for_none", "test_assert_false_for_boolean", "test_assert_false_for_integer", "test_assert_false_for_string"])
  {
    SummaryAssertFalse();
  }

  /** The recorded detail of test_assert_equal is the text the test expects, up to the diff addendum. */
  lemma DetailAssertEqual()
    ensures DetailAgrees("expected: <2>\n but was: <3>",
      "expected: <2>\n" + " but was: <3>\n" + "diff:\n" + "- 2\n" + "+ 3")
  {
    DiffAddendum("expected: <2>\n but was: <3>", "- 2\n" + "+ 3",
      "expected: <2>\n" + " but was: <3>\n" + "diff:\n" + "- 2\n" + "+ 3");
  }

  lemma SummaryAssertEqual()
    ensures Run([TestAssertEqual]) == Summary(1, 1, 1, 0, 0, 0,
      [Fault(FailureCode, "TestCase.test_assert_equal", "expected: <2>\n but was: <3>")],
      ["test_assert_equal"])
  {
    AloneAssertEqual();
    RunOf1(TestAssertEqual);
  }

  lemma ReplayAssertEqual()
    ensures ResultIs(Run([TestAssertEqual]), false, 1, 1, 1, 0, 0, 0,
      [Expected('F', "TestCase.test_assert_equal", "expected: <2>\n" + " but was: <3>\n" + "diff:\n" + "- 2\n" + "+ 3")],
      ["test_assert_equal"])
  {
    SummaryAssertEqual();
    DetailAssertEqual();
  }

  /** The recorded detail of test_assert_not_equal_different_repr is the text the test expects, up to the diff addendum. */
  lemma DetailAssertNotEqual()
    ensures DetailAgrees("not expected: <'abc'>\n" + "     but was: <'aBc'>",
      "not expected: <'abc'>\n" + "     but was: <'aBc'>\n" + "diff:\n" + "- 'abc'\n" + "?   ^\n" + "\n" + "+ 'aBc'\n" + "?   ^\n")
  {
    DiffAddendum("not expected: <'abc'>\n" + "     but was: <'aBc'>", "- 'abc'\n" + "?   ^\n" + "\n" + "+ 'aBc'\n" + "?   ^\n",
      "not expected: <'abc'>\n" + "     but was: <'aBc'>\n" + "diff:\n" + "- 'abc'\n" + "?   ^\n" + "\n" + "+ 'aBc'\n" + "?   ^\n");
  }

  lemma TotalAssertNotEqual(a: Summary, b: Summary)
    requires a == Summary(1, 1, 1, 0, 0, 0,
           [Fault(FailureCode, "TestCase.test_assert_not_equal", "not expected: <2>\n     but was: <2>")],
           ["test_assert_not_equal"])
          && b == Summary(1, 0, 1, 0, 0, 0,
           [Fault(FailureCode, "TestCase.test_assert_not_equal_different_repr", "not expected: <'abc'>\n" + "     but was: <'aBc'>")],
           ["test_assert_not_equal_different_repr"])
    ensures Combine(a, b)
         == Summary(2, 1, 2, 0, 0, 0,
            [Fault(FailureCode, "TestCase.test_assert_not_equal", "not expected: <2>\n     but was: <2>"),
             Fault(FailureCode, "TestCase.test_assert_not_equal_different_repr", "not expected: <'abc'>\n" + "     but was: <'aBc'>")],
            ["test_assert_not_equal", "test_assert_not_equal_different_repr"])
  {
    Singletons2(Fault(FailureCode, "TestCase.test_assert_not_equal", "not expected: <2>\n     but was: <2>"), Fault(FailureCode, "TestCase.test_assert_not_equal_different_repr", "not expected: <'abc'>\n" + "     but was: <'aBc'>"));
    Singletons2("test_assert_not_equal", "test_assert_not_equal_different_repr");
  }

  lemma SummaryAssertNotEqual()
    ensures Run([TestAssertNotEqual, TestNotEqualDifferentRepr]) == Summary(2, 1, 2, 0, 0, 0,
      [Fault(FailureCode, "TestCase.test_assert_not_equal", "not expected: <2>\n     but was: <2>"),
       Fault(FailureCode, "TestCase.test_assert_not_equal_different_repr", "not expected: <'abc'>\n" + "     but was: <'aBc'>")],
      ["test_assert_not_equal", "test_assert_not_equal_different_repr"])
  {
    AloneAssertNotEqual();
    AloneNotEqualDifferentRepr();
    RunOf2(TestAssertNotEqual, TestNotEqualDifferentRepr);
    TotalAssertNotEqual(Alone(TestAssertNotEqual), Alone(TestNotEqualDifferentRepr));
  }

  lemma ReplayAssertNotEqual()
    ensures ResultIs(Run([TestAssertNotEqual, TestNotEqualDifferentRepr]), false, 2, 1, 2, 0, 0, 0,
      [Expected('F', "TestCase.test_assert_not_equal", "not expected: <2>\n     but was: <2>"),
       Expected('F', "TestCase.test_assert_not_equal_different_repr", "not expected: <'abc'>\n" + "     but was: <'aBc'>\n" + "diff:\n" + "- 'abc'\n" + "?   ^\n" + "\n" + "+ 'aBc'\n" + "?   ^\n")],
      ["test_assert_not_equal", "test_assert_not_equal_different_repr"])
  {
    SummaryAssertNotEqual();
    DetailAssertNotEqual();
  }

  lemma TotalAssertMatch(a: Summary, b: Summary)
    requires a == Summary(1, 1, 1, 0, 0, 0,
           [Fault(FailureCode, "TestCase.test_assert_match", PatternMessage("match", "'abc'", "'Xabcde'", "doesn't return None", "/abc/"))],
           ["test_assert_match"])
          && b == Summary(1, 1, 1, 0, 0, 0,
           [Fault(FailureCode, "TestCase.test_assert_match_re", PatternMessage("match", "'xyz'", "'abcxyz'", "doesn't return None", "/xyz/"))],
           ["test_assert_match_re"])
    ensures Combine(a, b)
         == Summary(2, 2, 2, 0, 0, 0,
            [Fault(FailureCode, "TestCase.test_assert_match", PatternMessage("match", "'abc'", "'Xabcde'", "doesn't return None", "/abc/")),
             Fault(FailureCode, "TestCase.test_assert_match_re", PatternMessage("match", "'xyz'", "'abcxyz'", "doesn't return None", "/xyz/"))],
            ["test_assert_match", "test_assert_match_re"])
  {
    Singletons2(Fault(FailureCode, "TestCase.test_assert_match", PatternMessage("match", "'abc'", "'Xabcde'", "doesn't return None", "/abc/")), Fault(FailureCode, "TestCase.test_assert_match_re", PatternMessage("match", "'xyz'", "'abcxyz'", "doesn't return None", "/xyz/")));
    Singletons2("test_assert_match", "test_assert_match_re");
  }

  lemma SummaryAssertMatch()
    ensures Run([TestAssertMatch, TestAssertMatchRe]) == Summary(2, 2, 2, 0, 0, 0,
      [Fault(FailureCode, "TestCase.test_assert_match", PatternMessage("match", "'abc'", "'Xabcde'", "doesn't return None", "/abc/")),
       Fault(FailureCode, "TestCase.test_assert_match_re", PatternMessage("match", "'xyz'", "'abcxyz'", "doesn't return None", "/xyz/"))],
      ["test_assert_match", "test_assert_match_re"])
  {
    AloneAssertMatch();
    AloneAssertMatchRe();
    RunOf2(TestAssertMatch, TestAssertMatchRe);
    TotalAssertMatch(Alone(TestAssertMatch), Alone(TestAssertMatchRe));
  }

  lemma ReplayAssertMatch()
    ensures ResultIs(Run([TestAssertMatch, TestAssertMatchRe]), false, 2, 2, 2, 0, 0, 0,
      [Expected('F', "TestCase.test_assert_match", PatternMessage("match", "'abc'", "'Xabcde'", "doesn't return None", "/abc/")),
       Expected('F', "TestCase.test_assert_match_re", PatternMessage("match", "'xyz'", "'abcxyz'", "doesn't return None", "/xyz/"))],
      ["test_assert_match", "test_assert_match_re"])
  {
    SummaryAssertMatch();
  }

  lemma TotalAssertNotMatch(a: Summary, b: Summary)
    requires a == Summary(1, 1, 1, 0, 0, 0,
           [Fault(FailureCode, "TestCase.test_assert_not_match", PatternMessage("match", "'abc'", "'abcde'", "returns None", "/abc/"))],
           ["test_assert_not_match"])
          && b == Summary(1, 1, 1, 0, 0, 0,
           [Fault(FailureCode, "TestCase.test_assert_not_match_re", PatternMessage("match", "re.compile('xyz', re.IGNORECASE)", "'XYZabc'", "returns None", "/xyz/i"))],
           ["test_assert_not_match_re"])
    ensures Combine(a, b)
         == Summary(2, 2, 2, 0, 0, 0,
            [Fault(FailureCode, "TestCase.test_assert_not_match", PatternMessage("match", "'abc'", "'abcde'", "returns None", "/abc/")),
             Fault(FailureCode, "TestCase.test_assert_not_match_re", PatternMessage("match", "re.compile('xyz', re.IGNORECASE)", "'XYZabc'", "returns None", "/xyz/i"))],
            ["test_assert_not_match", "test_assert_not_match_re"])
  {
    Singletons2(Fault(FailureCode, "TestCase.test_assert_not_match", PatternMessage("match", "'abc'", "'abcde'", "returns None", "/abc/")), Fault(FailureCode, "TestCase.test_assert_not_match_re", PatternMessage("match", "re.compile('xyz', re.IGNORECASE)", "'XYZabc'", "returns None", "/xyz/i")));
    Singletons2("test_assert_not_match", "test_assert_not_match_re");
  }

  lemma SummaryAssertNotMatch()
    ensures Run([TestAssertNotMatch, TestAssertNotMatchRe]) == Summary(2, 2, 2, 0, 0, 0,
      [Fault(FailureCode, "TestCase.test_assert_not_match", PatternMessage("match", "'abc'", "'abcde'", "returns None", "/abc/")),
       Fault(FailureCode, "TestCase.test_assert_not_match_re", PatternMessage("match", "re.compile('xyz', re.IGNORECASE)", "'XYZabc'", "returns None", "/xyz/i"))],
      ["test_assert_not_match", "test_assert_not_match_re"])
  {
    AloneAssertNotMatch();
    AloneAssertNotMatchRe();
    RunOf2(TestAssertNotMatch, TestAssertNotMatchRe);
    TotalAssertNotMatch(Alone(TestAssertNotMatch), Alone(TestAssertNotMatchRe));
  }

  lemma ReplayAssertNotMatch()
    ensures ResultIs(Run([TestAssertNotMatch, TestAssertNotMatchRe]), false, 2, 2, 2, 0, 0, 0,
      [Expected('F', "TestCase.test_assert_not_match", PatternMessage("match", "'abc'", "'abcde'", "returns None", "/abc/")),
       Expected('F', "TestCase.test_assert_not_match_re", PatternMessage("match", "re.compile('xyz', re.IGNORECASE)", "'XYZabc'", "returns None", "/xyz/i"))],
      ["test_assert_not_match", "test_assert_not_match_re"])
  {
    SummaryAssertNotMatch();
  }

  lemma TotalAssertSearch(a: Summary, b: Summary)
    requires a == Summary(1, 2, 1, 0, 0, 0,
           [Fault(FailureCode, "TestCase.test_assert_search", PatternMessage("search", "'bcd'", "'abCde'", "doesn't return None", "/bcd/"))],
           ["test_assert_search"])
          && b == Summary(1, 2, 1, 0, 0, 0,
           [Fault(FailureCode, "TestCase.test_assert_search_re", PatternMessage("search", "'xyz'", "'AxYzA'", "doesn't return None", "/xyz/"))],
           ["test_assert_search_re"])
    ensures Combine(a, b)
         == Summary(2, 4, 2, 0, 0, 0,
            [Fault(FailureCode, "TestCase.test_assert_search", PatternMessage("search", "'bcd'", "'abCde'", "doesn't return None", "/bcd/")),
             Fault(FailureCode, "TestCase.test_assert_search_re", PatternMessage("search", "'xyz'", "'AxYzA'", "doesn't return None", "/xyz/"))],
            ["test_assert_search", "test_assert_search_re"])
  {
    Singletons2(Fault(FailureCode, "TestCase.test_assert_search", PatternMessage("search", "'bcd'", "'abCde'", "doesn't return None", "/bcd/")), Fault(FailureCode, "TestCase.test_assert_search_re", PatternMessage("search", "'xyz'", "'AxYzA'", "doesn't return None", "/xyz/")));
    Singletons2("test_assert_search", "test_assert_search_re");
  }

  lemma SummaryAssertSearch()
    ensures Run([TestAssertSearch, TestAssertSearchRe]) == Summary(2, 4, 2, 0, 0, 0,
      [Fault(FailureCode, "TestCase.test_assert_search", PatternMessage("search", "'bcd'", "'abCde'", "doesn't return None", "/bcd/")),
       Fault(FailureCode, "TestCase.test_assert_search_re", PatternMessage("search", "'xyz'", "'AxYzA'", "doesn't return None", "/xyz/"))],
      ["test_assert_search", "test_assert_search_re"])
  {
    AloneAssertSearch();
    AloneAssertSearchRe();
    RunOf2(TestAssertSearch, TestAssertSearchRe);
    TotalAssertSearch(Alone(TestAssertSearch), Alone(TestAssertSearchRe));
  }

  lemma ReplayAssertSearch()
    ensures ResultIs(Run([TestAssertSearch, TestAssertSearchRe]), false, 2, 4, 2, 0, 0, 0,
      [Expected('F', "TestCase.test_assert_search", PatternMessage("search", "'bcd'", "'abCde'", "doesn't return None", "/bcd/")),
       Expected('F', "TestCase.test_assert_search_re", PatternMessage("search", "'xyz'", "'AxYzA'", "doesn't return None", "/xyz/"))],
      ["test_assert_search", "test_assert_search_re"])
  {
    SummaryAssertSearch();
  }

  lemma SummaryAssertNotFound()
    ensures Run([TestAssertNotFound]) == Summary(1, 2, 1, 0, 0, 0,
      [Fault(FailureCode, "TestCase.test_assert_not_found", PatternMessage("search", "re.compile('bcd', re.IGNORECASE | re.LOCALE)", "'abCde'", "returns None", "/bcd/il"))],
      ["test_assert_not_found"])
  {
    AloneAssertNotFound();
    RunOf1(TestAssertNotFound);
  }

  lemma ReplayAssertNotFound()
    ensures ResultIs(Run([TestAssertNotFound]), false, 1, 2, 1, 0, 0, 0,
      [Expected('F', "TestCase.test_assert_not_found", PatternMessage("search", "re.compile('bcd', re.IGNORECASE | re.LOCALE)", "'abCde'", "returns None", "/bcd/il"))],
      ["test_assert_not_found"])
  {
    SummaryAssertNotFound();
  }

  lemma SummaryAssertHasattr()
    ensures Run([TestAssertHasattr]) == Summary(1, 2, 1, 0, 0, 0,
      [Fault(FailureCode, "TestCase.test_assert_hasattr", "expected: hasattr('string', 'Strip')")],
      ["test_assert_hasattr"])
  {
    AloneAssertHasattr();
    RunOf1(TestAssertHasattr);
  }

  lemma ReplayAssertHasattr()
    ensures ResultIs(Run([TestAssertHasattr]), false, 1, 2, 1, 0, 0, 0,
      [Expected('F', "TestCase.test_assert_hasattr", "expected: hasattr('string', 'Strip')")],
      ["test_assert_hasattr"])
  {
    SummaryAssertHasattr();
  }

  lemma SummaryAssertCallable()
    ensures Run([TestAssertCallable]) == Summary(1, 2, 1, 0, 0, 0,
      [Fault(FailureCode, "TestCase.test_assert_callable", "expected: callable('string')")],
      ["test_assert_callable"])
  {
    AloneAssertCallable();
    RunOf1(TestAssertCallable);
  }

  lemma ReplayAssertCallable()
    ensures ResultIs(Run([TestAssertCallable]), false, 1, 2, 1, 0, 0, 0,
      [Expected('F', "TestCase.test_assert_callable", "expected: callable('string')")],
      ["test_assert_callable"])
  {
    SummaryAssertCallable();
  }

}
