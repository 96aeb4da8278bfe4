/** The assertion calls a pikzie check makes, each as a function from its
    arguments to a verdict. A verdict that is not `Pass` carries the
    diagnostic text pikzie records for it. */
module Assertions {
  import opened Options
  import opened PyValues
  import opened PyRepr
  import opened Patterns

  /** What one call inside a check reports. */
  datatype Verdict =
    | Pass                            // an assertion that held
    | Failure(detail: string)         // an assertion that did not hold, or `fail`
    | Pending(message: string)        // `pend`
    | Notification(message: string)   // `notify`

  /** An assertion about one or two values. */
  datatype ValueCheck =
    | AssertEqual(expected: Value, actual: Value)
    | AssertNotEqual(expected: Value, actual: Value)
    | AssertNone(value: Value)
    | AssertNotNone(value: Value)
    | AssertTrue(value: Value)
    | AssertFalse(value: Value)

  /** An assertion that a pattern does or does not match a string. */
  datatype PatternCheck =
    | AssertMatch(pattern: Pattern, target: string)
    | AssertNotMatch(pattern: Pattern, target: string)
    | AssertSearch(pattern: Pattern, target: string)
    | AssertNotFound(pattern: Pattern, target: string)

  /** An assertion about what an object offers. */
  datatype ObjectCheck =
    | AssertHasattr(subject: Value, name: string)
    | AssertCallable(subject: Value)

  /** One call of a check body, with its arguments already evaluated:
      `fail`, `pend`, `notify`, or one of the assertions. */
  datatype Step =
    | Fail(message: string)
    | Pend(message: string)
    | Notify(message: string)
    | OnValue(valueCheck: ValueCheck)
    | OnPattern(patternCheck: PatternCheck)
    | OnObject(objectCheck: ObjectCheck)

  /** A diagnostic line: a caption, then a value between angle brackets. */
  function Labeled(caption: string, x: string): string {
    caption + "<" + x + ">"
  }

  function EqualDetail(expected: Value, actual: Value): string {
    Labeled("expected: ", Repr(expected)) + "\n" + Labeled(" but was: ", Repr(actual))
  }

  function NotEqualDetail(expected: Value, actual: Value): string {
    Labeled("not expected: ", Repr(expected)) + "\n" + Labeled("     but was: ", Repr(actual))
  }

  /** `assert_equal`: holds when `expected == actual`. */
  function Equal(expected: Value, actual: Value): (r: Verdict)
    ensures r.Pass? <==> PyEq(expected, actual)
    ensures !r.Pass? ==> r == Failure(EqualDetail(expected, actual))
  {
    if PyEq(expected, actual) then Pass else Failure(EqualDetail(expected, actual))
  }

  /** `assert_not_equal`: holds when `expected != actual`. A user-defined
      `__ne__` decides, whatever the two reprs look like. */
  function NotEqual(expected: Value, actual: Value): (r: Verdict)
    ensures r.Pass? <==> PyNe(expected, actual)
    ensures !r.Pass? ==> r == Failure(NotEqualDetail(expected, actual))
  {
    if PyNe(expected, actual) then Pass else Failure(NotEqualDetail(expected, actual))
  }

  /** `assert_none`: holds for None only, not for other false values. */
  function IsNone(value: Value): (r: Verdict)
    ensures r.Pass? <==> value == NoneV
    ensures !r.Pass? ==> r == Failure("expected: <" + Repr(value) + "> is None")
  {
    if value.NoneV? then Pass else Failure("expected: <" + Repr(value) + "> is None")
  }

  /** `assert_not_none`: holds for every value but None, False included. */
  function IsNotNone(value: Value): (r: Verdict)
    ensures r.Pass? <==> value != NoneV
    ensures !r.Pass? ==> r == Failure("expected: not None")
  {
    if value.NoneV? then Failure("expected: not None") else Pass
  }

  /** `assert_true`: holds when the value is true in Python's sense. */
  function IsTrue(value: Value): (r: Verdict)
    ensures r.Pass? <==> Truthy(value)
    ensures !r.Pass? ==> r == Failure("expected: <" + Repr(value) + "> is a true value")
  {
    if Truthy(value) then Pass else Failure("expected: <" + Repr(value) + "> is a true value")
  }

  /** `assert_false`: holds exactly when `assert_true` would not. */
  function IsFalse(value: Value): (r: Verdict)
    ensures r.Pass? <==> !Truthy(value)
    ensures !r.Pass? ==> r == Failure("expected: <" + Repr(value) + "> is a false value")
  {
    if Truthy(value) then Failure("expected: <" + Repr(value) + "> is a false value") else Pass
  }

  /** The diagnostic of the four pattern assertions; `call` is `match` or
      `search`, and `negated` tells the negative forms apart. */
  function PatternDetail(call: string, pattern: Pattern, target: string, negated: bool): string {
    "expected: re." + call + "(" + Argument(pattern) + ", " + StrRepr(target) + ") "
      + (if negated then "returns None" else "doesn't return None") + "\n"
      + Labeled(" pattern: ", Render(pattern)) + "\n"
      + Labeled("  target: ", StrRepr(target))
  }

  /** `assert_match`: holds when the pattern matches at the start of the target. */
  function Match(pattern: Pattern, target: string): (r: Verdict)
    ensures r.Pass? <==> IsMatch(pattern, target)
    ensures !r.Pass? ==> r == Failure(PatternDetail("match", pattern, target, false))
  {
    if IsMatch(pattern, target) then Pass else Failure(PatternDetail("match", pattern, target, false))
  }

  /** `assert_not_match`: holds exactly when `assert_match` would not. */
  function NotMatch(pattern: Pattern, target: string): (r: Verdict)
    ensures r.Pass? <==> !IsMatch(pattern, target)
    ensures !r.Pass? ==> r == Failure(PatternDetail("match", pattern, target, true))
  {
    if IsMatch(pattern, target) then Failure(PatternDetail("match", pattern, target, true)) else Pass
  }

  /** `assert_search`: holds when the pattern matches anywhere in the target. */
  function Search(pattern: Pattern, target: string): (r: Verdict)
    ensures r.Pass? <==> IsFound(pattern, target)
    ensures !r.Pass? ==> r == Failure(PatternDetail("search", pattern, target, false))
  {
    if IsFound(pattern, target) then Pass else Failure(PatternDetail("search", pattern, target, false))
  }

  /** `assert_not_found`: holds exactly when `assert_search` would not. */
  function NotFound(pattern: Pattern, target: string): (r: Verdict)
    ensures r.Pass? <==> !IsFound(pattern, target)
    ensures !r.Pass? ==> r == Failure(PatternDetail("search", pattern, target, true))
  {
    if IsFound(pattern, target) then Failure(PatternDetail("search", pattern, target, true)) else Pass
  }

  /** `assert_hasattr`: holds when the subject has an attribute of exactly that name. */
  function HasAttr(subject: Value, name: string): (r: Verdict)
    ensures r.Pass? <==> Listed(name, Attributes(subject))
    ensures !r.Pass? ==> r == Failure("expected: hasattr(" + Repr(subject) + ", " + StrRepr(name) + ")")
  {
    if Listed(name, Attributes(subject)) then Pass
    else Failure("expected: hasattr(" + Repr(subject) + ", " + StrRepr(name) + ")")
  }

  /** `assert_hasattr` passes exactly for the names among the subject's attributes. */
  lemma HasAttrMembership(subject: Value, name: string)
    ensures HasAttr(subject, name).Pass? <==> name in Attributes(subject)
  {
    ListedIsIn(name, Attributes(subject));
  }

  /** `assert_callable`: holds when the subject can be called. */
  function Callable(subject: Value): (r: Verdict)
    ensures r.Pass? <==> IsCallable(subject)
    ensures !r.Pass? ==> r == Failure("expected: callable(" + Repr(subject) + ")")
  {
    if IsCallable(subject) then Pass else Failure("expected: callable(" + Repr(subject) + ")")
  }

  /** The verdict of an assertion: a pass or a failure, never a pending
      or a notification. */
  function ValueVerdict(c: ValueCheck): (r: Verdict)
    ensures r.Pass? || r.Failure?
  {
    match c
    case AssertEqual(expected, actual) => Equal(expected, actual)
    case AssertNotEqual(expected, actual) => NotEqual(expected, actual)
    case AssertNone(value) => IsNone(value)
    case AssertNotNone(value) => IsNotNone(value)
    case AssertTrue(value) => IsTrue(value)
    case AssertFalse(value) => IsFalse(value)
  }

  function PatternVerdict(c: PatternCheck): (r: Verdict)
    ensures r.Pass? || r.Failure?
  {
    match c
    case AssertMatch(pattern, target) => Match(pattern, target)
    case AssertNotMatch(pattern, target) => NotMatch(pattern, target)
    case AssertSearch(pattern, target) => Search(pattern, target)
    case AssertNotFound(pattern, target) => NotFound(pattern, target)
  }

  function ObjectVerdict(c: ObjectCheck): (r: Verdict)
    ensures r.Pass? || r.Failure?
  {
    match c
    case AssertHasattr(subject, name) => HasAttr(subject, name)
    case AssertCallable(subject) => Callable(subject)
  }

  /** The verdict of one step: an assertion passes or fails; `fail`,
      `pend` and `notify` always report their message. */
  function Evaluate(step: Step): (r: Verdict)
    ensures step.Fail? ==> r == Failure(step.message)
    ensures r.Pending? <==> step.Pend?
    ensures r.Notification? <==> step.Notify?
    ensures step.Pend? ==> r.message == step.message
    ensures step.Notify? ==> r.message == step.message
  {
    match step
    case Fail(message) => Failure(message)
    case Pend(message) => Pending(message)
    case Notify(message) => Notification(message)
    case OnValue(c) => ValueVerdict(c)
    case OnPattern(c) => PatternVerdict(c)
    case OnObject(c) => ObjectVerdict(c)
  }

  /** Each negative assertion holds exactly when its positive form would
      fail, and a pattern that matches at the start is also found. */
  lemma NegativeForms(value: Value, pattern: Pattern, target: string)
    ensures IsFalse(value).Pass? <==> !IsTrue(value).Pass?
    ensures NotMatch(pattern, target).Pass? <==> !Match(pattern, target).Pass?
    ensures NotFound(pattern, target).Pass? <==> !Search(pattern, target).Pass?
    ensures Match(pattern, target).Pass? ==> Search(pattern, target).Pass?
  {
  }

  /** `assert_equal(a, a)` never fails. */
  lemma EqualReflexive(a: Value)
    ensures Equal(a, a) == Pass
  {
  }

  /** The position of the first `c` in `s`. */
  function FirstIndex(s: string, c: char): (r: Option<nat>)
    ensures r.Some? ==> r.value < |s| && s[r.value] == c && c !in s[..r.value]
    ensures r.None? ==> c !in s
  {
    if s == [] then None
    else if s[0] == c then Some(0)
    else match FirstIndex(s[1..], c)
      case Some(k) => Some(k + 1)
      case None => None
  }

  /** The value shown by a diagnostic line `caption<x>`. */
  function ReadLabeled(line: string, caption: string): Option<string> {
    if |line| >= |caption| + 2 && line[..|caption| + 1] == caption + "<" && line[|line| - 1] == '>'
    then Some(line[|caption| + 1..|line| - 1])
    else None
  }

  /** Reads a two-line diagnostic `caption1<x>` newline `caption2<y>` back into `(x, y)`. */
  function ReadTwoLines(d: string, caption1: string, caption2: string): Option<(string, string)> {
    match FirstIndex(d, '\n')
    case None => None
    case Some(k) =>
      match (ReadLabeled(d[..k], caption1), ReadLabeled(d[k + 1..], caption2))
      case (Some(x), Some(y)) => Some((x, y))
      case _ => None
  }

  lemma {:induction false} FirstIndexAfter(x: string, c: char, y: string)
    requires c !in x
    ensures FirstIndex(x + [c] + y, c) == Some(|x|)
  {
    if x != [] {
      assert (x + [c] + y)[1..] == x[1..] + [c] + y;
      FirstIndexAfter(x[1..], c, y);
    }
  }

  /** A diagnostic line reads back as the value it shows. */
  lemma ReadLabeledRoundTrip(caption: string, x: string)
    ensures ReadLabeled(Labeled(caption, x), caption) == Some(x)
  {
    var line := Labeled(caption, x);
    assert line == (caption + "<") + x + ">";
    assert line[..|caption| + 1] == caption + "<";
    assert line[|caption| + 1..|line| - 1] == x;
  }

  lemma TwoLinesRoundTrip(caption1: string, x: string, caption2: string, y: string)
    requires '\n' !in caption1 && '\n' !in x
    ensures ReadTwoLines(Labeled(caption1, x) + "\n" + Labeled(caption2, y), caption1, caption2) == Some((x, y))
  {
    var first := Labeled(caption1, x);
    var second := Labeled(caption2, y);
    var d := first + "\n" + second;
    assert '\n' !in first;
    FirstIndexAfter(first, '\n', second);
    assert d[..|first|] == first;
    assert d[|first| + 1..] == second;
    ReadLabeledRoundTrip(caption1, x);
    ReadLabeledRoundTrip(caption2, y);
  }

  /** A failing `assert_equal` names both operands: the two lines of its
      diagnostic read back as the reprs of the expected and the actual
      value, whenever the expected value's repr is one line (as the repr of
      None, a bool, an int or a str always is, by ReprHasNoNewline). */
  lemma EqualDetailNamesOperands(expected: Value, actual: Value)
    requires '\n' !in Repr(expected)
    ensures ReadTwoLines(EqualDetail(expected, actual), "expected: ", " but was: ")
         == Some((Repr(expected), Repr(actual)))
  {
    TwoLinesRoundTrip("expected: ", Repr(expected), " but was: ", Repr(actual));
  }

  /** Likewise for a failing `assert_not_equal`. */
  lemma NotEqualDetailNamesOperands(expected: Value, actual: Value)
    requires '\n' !in Repr(expected)
    ensures ReadTwoLines(NotEqualDetail(expected, actual), "not expected: ", "     but was: ")
         == Some((Repr(expected), Repr(actual)))
  {
    TwoLinesRoundTrip("not expected: ", Repr(expected), "     but was: ", Repr(actual));
  }
  /** Reads a three-line diagnostic whose first line is free text,
      `caption1<x>` newline `caption2<y>` after it, back into `(x, y)`: the
      first line runs to the first newline and the last starts after the
      last one, so `x` may itself span lines. */
  function ReadLastTwoLines(d: string, caption1: string, caption2: string): Option<(string, string)> {
    var i, j := FirstIndex(d, '\n'), LastIndex(d, '\n');
    if i.None? || j.None? || i.value >= j.value then None
    else
      var x, y := ReadLabeled(d[i.value + 1..j.value], caption1), ReadLabeled(d[j.value + 1..], caption2);
      if x.None? || y.None? then None else Some((x.value, y.value))
  }

  /** Reads a pattern diagnostic back into the pattern's text, its flags and
      the target. */
  function ReadPatternDetail(d: string): Option<(string, Flags, string)> {
    var lines := ReadLastTwoLines(d, " pattern: ", "  target: ");
    if lines.None? then None
    else
      var p, target := ParseRendered(lines.value.0), Unrepr(lines.value.1);
      if p.None? || target.None? then None
      else Some((p.value.0, p.value.1, target.value))
  }

  lemma StrReprHasNoNewline(s: string)
    ensures '\n' !in StrRepr(s)
  {
    ReprHasNoNewline(StrV(s));
  }

  /** In three lines whose first and last hold no newline, the first
      newline ends the first line and the last one starts the last line. */
  lemma ThreeLines(first: string, middle: string, last: string)
    requires '\n' !in first && '\n' !in last
    ensures var d := first + "\n" + middle + "\n" + last;
      && FirstIndex(d, '\n') == Some(|first|)
      && LastIndex(d, '\n') == Some(|first| + 1 + |middle|)
      && d[|first| + 1..|first| + 1 + |middle|] == middle
      && d[|first| + 1 + |middle| + 1..] == last
  {
    var d := first + "\n" + middle + "\n" + last;
    assert d == first + ['\n'] + (middle + "\n" + last);
    FirstIndexAfter(first, '\n', middle + "\n" + last);
    assert d == (first + "\n" + middle) + ['\n'] + last;
    LastIndexAfter(first + "\n" + middle, '\n', last);
  }

  lemma ArgumentHasNoNewline(pattern: Pattern)
    ensures '\n' !in Argument(pattern)
  {
    StrReprHasNoNewline(Source(pattern));
    var names := FlagNames(FlagsOf(pattern));
    assert '\n' !in names;
  }

  /** The call line of a pattern diagnostic is one line. */
  lemma PatternCallLine(call: string, pattern: Pattern, target: string, negated: bool)
    requires '\n' !in call
    ensures '\n' !in "expected: re." + call + "(" + Argument(pattern) + ", " + StrRepr(target) + ") "
                     + (if negated then "returns None" else "doesn't return None")
  {
    ArgumentHasNoNewline(pattern);
    StrReprHasNoNewline(target);
  }

  lemma LabeledHasNoNewline(caption: string, x: string)
    requires '\n' !in caption && '\n' !in x
    ensures '\n' !in Labeled(caption, x)
  {
  }

  lemma LastTwoLinesRoundTrip(first: string, caption1: string, x: string, caption2: string, y: string)
    requires '\n' !in first && '\n' !in caption2 && '\n' !in y
    ensures ReadLastTwoLines(first + "\n" + Labeled(caption1, x) + "\n" + Labeled(caption2, y), caption1, caption2)
         == Some((x, y))
  {
    var middle, last := Labeled(caption1, x), Labeled(caption2, y);
    LabeledHasNoNewline(caption2, y);
    ThreeLines(first, middle, last);
    ReadLabeledRoundTrip(caption1, x);
    ReadLabeledRoundTrip(caption2, y);
  }

  /** A failing pattern assertion names its operands: its diagnostic reads
      back as the pattern's text and flags and the target, whatever the
      pattern text holds, newlines and slashes included. */
  lemma PatternDetailNamesOperands(call: string, pattern: Pattern, target: string, negated: bool)
    requires '\n' !in call
    ensures ReadPatternDetail(PatternDetail(call, pattern, target, negated))
         == Some((Source(pattern), FlagsOf(pattern), target))
  {
    var first := "expected: re." + call + "(" + Argument(pattern) + ", " + StrRepr(target) + ") "
                 + (if negated then "returns None" else "doesn't return None");
    PatternCallLine(call, pattern, target, negated);
    StrReprHasNoNewline(target);
    RenderRoundTrip(pattern);
    StrReprRoundTrip(target);
    assert '\n' !in "  target: ";
    LastTwoLinesRoundTrip(first, " pattern: ", Render(pattern), "  target: ", StrRepr(target));
  }
}
