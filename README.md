# pikzie assertion engine — a Dafny model

pikzie is a unit-testing framework for Python. A check (a `test_*` method of a
`pikzie.TestCase`) calls assertions such as `assert_equal`, `assert_true`,
`assert_match` or `assert_hasattr`, and the calls `fail`, `pend` and `notify`.
pikzie records what each call reports in a run result. It counts the checks run,
passing assertions, failures, errors, pendings and notifications. It appends one
fault tuple `(code, check name, detail, location)` per failure (`'F'`), pending
(`'P'`) or notification (`'N'`). It also lists the names of the checks that ran.

This model is rebuilt from pikzie's `test/test_assertions.py` alone; the
library's own modules are not modelled. That file's inner `TestCase` holds one
check per assertion. The outer tests run those checks and compare the run result
with literal expectations. The model rebuilds the assertion engine from what
those expectations pin down:

- `values.dfy` (`PyValues`): the Python 2 values the assertions operate on
  (None, bool, int, str, other objects), with truthiness, `==`, `!=`,
  `callable` and `hasattr`'s attribute tables.
- `repr.dfy` (`PyRepr`): Python 2 `repr` of those values, with read-back
  functions and round-trip lemmas.
- `patterns.dfy` (`Patterns`): literal patterns, plain or compiled with the
  `IGNORECASE`/`LOCALE` flags.
  - Anchored match is a prefix test and search is a substring test, both
    optionally case-folded.
  - A pattern renders as `/source/flags` and shows as the pattern argument
    (`'abc'`, or `re.compile('xyz', re.IGNORECASE)`).
- `assertions.dfy` (`Assertions`): one function per assertion, from its
  arguments to a verdict.
  - A verdict is a pass, a failure with its diagnostic, a pending or a notification.
  - A `Step` is one call of a check body; `Evaluate` gives its verdict.
- `results.dfy` (`Results`): the run result.
  - A pure specification: `Record`, `RunVerdicts`, `ExecCheck`, `ExecRun`,
    `Total`, with lemmas about halting, fault shape and counter consistency.
  - The recorder class `TestResult`, which the runner updates in place, and the
    loops `RunCheck` and `RunChecks`, proved against that specification.
- `fixtures.dfy` (`Fixtures`): the inner checks as step sequences, and one lemma
  per outer test.
  - Each such lemma proves that running the modelled checks yields exactly the
    expected success flag, counters, check names and fault tuples.
  - Fault tuples agree up to the location field, which the model does not
    record, and up to the diff addendum after a failed equality. The
    expected details are the tests' full texts, diff included; the recorded
    detail must be the text before `\ndiff:\n`.

A notification does not end its check. The fixture at
test/test_assertions.py:211-217 expects both `assert_equal` calls of
`test_notify` (:28-31) to count. After `pend` (:203-209), by contrast, the
later call does not count (`Results.NotifyContinues`, `Results.HaltDiscardsRest`).

## Model

| member | source | states |
|---|---|---|
| PyValues.Truthy | test/test_assertions.py:41-75 | a value is false exactly when it is None, False, 0 or the empty string; True, 10, -100, "String" and "STRING" are true |
| PyValues.PyEq | test/test_assertions.py:77-85 | `==` is reflexive, and a bool and an int compare by numeric value (True == 1) |
| PyValues.PyEqSymmetric | test/test_assertions.py:77-85 | `==` is symmetric |
| PyValues.PyNe | test/test_assertions.py:87-98 | a user-defined `__ne__` of the left operand decides `!=`; without one on either side `!=` is the negation of `==` |
| PyValues.IsCallable | test/test_assertions.py:144-152 | only objects (instances with `__call__`, lambdas, bound methods) can be callable; a str is not |
| PyValues.Attributes | test/test_assertions.py:138-142 | a str has the attribute table of `str`, and an object has its own attribute names |
| PyValues.ListedIsIn | test/test_assertions.py:138-142 | looking a name up entry by entry finds exactly the names the table holds |
| PyRepr.QuoteFor | test/test_assertions.py:270 | a str repr uses double quotes exactly when the text holds a single quote and no double quote, single quotes otherwise |
| PyRepr.UnescapeEscape | test/test_assertions.py:270 | the escaped body of a str repr reads back as the original text |
| PyRepr.StrReprRoundTrip | test/test_assertions.py:298-299 | reading a str repr back gives the original string, for every string |
| PyRepr.StrRepr | test/test_assertions.py:268-271 | Python 2 `repr` of a str; StrReprRoundTrip, QuoteFor and PlainStrRepr state its properties |
| PyRepr.PlainStrRepr | test/test_assertions.py:251 | a string of printable characters other than quote and backslash shows as itself in single quotes ('' and 'STRING') |
| PyRepr.NatRepr | test/test_assertions.py:247 | a natural number shows as a non-empty digit string with no leading zero |
| PyRepr.NatReprValue | test/test_assertions.py:266 | the digits of a natural number's repr denote that number |
| PyRepr.IntReprRoundTrip | test/test_assertions.py:281-282 | parsing an int's repr gives the int back, negative numbers included |
| PyRepr.IntRepr | test/test_assertions.py:264-267 | Python 2 `repr` of an int (`10`, `0`); IntReprRoundTrip shows it determines the int |
| PyRepr.Repr | test/test_assertions.py:235-256 | Python 2 `repr` of a modelled value (`None`, `False`, `0`, `''`; an object shows its own repr text); ReprHasNoNewline states it is one line for None, a bool, an int or a str |
| PyRepr.ReprHasNoNewline | test/test_assertions.py:281-282 | the repr of None, a bool, an int or a str fits on one line |
| Patterns.Fold | test/test_assertions.py:119-121 | folds each character of a string with ASCII case folding; what that identifies is stated by FoldCharSame |
| Patterns.FoldCharSame | test/test_assertions.py:119-121 | two characters fold alike exactly when they are equal or the same ASCII letter in the two cases (SameIgnoringCase, defined without folding) |
| Patterns.FoldStandsAt | test/test_assertions.py:133-136 | a slice of the folded target equals the folded pattern exactly when the pattern stands there letter case aside |
| Patterns.IgnoreCaseMatch | test/test_assertions.py:119-121 | with IGNORECASE, `re.match` succeeds exactly when the target begins with the pattern text up to letter case (so `xyz` matches `XYZabc` and not `abcXYZ`) |
| Patterns.IgnoreCaseSearch | test/test_assertions.py:133-136 | with IGNORECASE, `re.search` succeeds exactly when the pattern text stands at some position of the target up to letter case |
| Patterns.CaseSensitiveSearch | test/test_assertions.py:123-135 | without IGNORECASE, `re.search` succeeds exactly when the pattern text stands, character for character, at some position of the target |
| Patterns.IsMatch | test/test_assertions.py:107-113 | a pattern that matches at the start of the target is also found in it |
| Patterns.IsFound | test/test_assertions.py:123-136 | `re.search` on a literal pattern; its meaning is stated by CaseSensitiveSearch and IgnoreCaseSearch |
| Patterns.OccursAt | test/test_assertions.py:123-131 | a literal search succeeds exactly when the pattern text occurs at some index of the target |
| Patterns.FoldStartsWith | test/test_assertions.py:119-121 | case folding keeps a prefix a prefix |
| Patterns.FoldOccurs | test/test_assertions.py:133-136 | case folding keeps an occurrence an occurrence |
| Patterns.IgnoreCaseWidens | test/test_assertions.py:133-136 | adding IGNORECASE never turns a match or a find into a miss |
| Patterns.FlagLettersParse | test/test_assertions.py:385 | the flag letters (`i` for IGNORECASE, then `l` for LOCALE) read back as the flags |
| Patterns.FlagLetters | test/test_assertions.py:385 | the flag letters of a rendered pattern, `i` then `l`; FlagLettersParse shows they determine the flags |
| Patterns.Render | test/test_assertions.py:385 | the `/source/flags` rendering of the `pattern:` line; RenderRoundTrip shows it determines the source and the flags |
| Patterns.FlagNames | test/test_assertions.py:380 | the `re.IGNORECASE \| re.LOCALE` flag list of a compiled pattern's argument |
| Patterns.Argument | test/test_assertions.py:352-355 | the pattern argument as the diagnostic shows it; ArgumentShowsSource states what it reveals of the pattern |
| Patterns.RenderRoundTrip | test/test_assertions.py:353 | `/source/flags` reads back as the pattern's source and flags |
| Patterns.ArgumentShowsSource | test/test_assertions.py:352-355 | a plain pattern shows as its source's repr; a compiled one with flags shows as `re.compile(<source repr>, re.…` |
| Assertions.Equal | test/test_assertions.py:277-287 | `assert_equal` passes exactly when `expected == actual`, and otherwise fails with `expected: <E>` and ` but was: <A>` on two lines |
| Assertions.NotEqual | test/test_assertions.py:289-308 | `assert_not_equal` passes exactly when `expected != actual` (so a `__ne__` returning False fails it whatever the reprs), and otherwise fails with `not expected: <E>` and `     but was: <A>` |
| Assertions.IsNone | test/test_assertions.py:219-225 | `assert_none` passes exactly for None; otherwise `expected: <repr> is None` |
| Assertions.IsNotNone | test/test_assertions.py:227-233 | `assert_not_none` passes for every value but None (False included); otherwise `expected: not None` |
| Assertions.IsTrue | test/test_assertions.py:235-256 | `assert_true` passes exactly for true values; otherwise `expected: <repr> is a true value` |
| Assertions.IsFalse | test/test_assertions.py:258-275 | `assert_false` passes exactly for false values; otherwise `expected: <repr> is a false value` |
| Assertions.Match | test/test_assertions.py:323-340 | `assert_match` passes exactly when the pattern matches at the start; otherwise the `re.match(...) doesn't return None` diagnostic with pattern and target lines |
| Assertions.NotMatch | test/test_assertions.py:342-358 | `assert_not_match` passes exactly when the pattern does not match at the start; otherwise the `re.match(...) returns None` diagnostic |
| Assertions.Search | test/test_assertions.py:360-377 | `assert_search` passes exactly when the pattern occurs in the target; otherwise the `re.search(...) doesn't return None` diagnostic |
| Assertions.NotFound | test/test_assertions.py:379-388 | `assert_not_found` passes exactly when the pattern does not occur; otherwise the `re.search(...) returns None` diagnostic |
| Assertions.HasAttr | test/test_assertions.py:390-396 | `assert_hasattr` passes exactly when the subject has the attribute; otherwise `expected: hasattr(<subject repr>, <name repr>)` |
| Assertions.HasAttrMembership | test/test_assertions.py:138-142 | `assert_hasattr` passes exactly for the names among the subject's attributes, case-sensitively |
| Assertions.Callable | test/test_assertions.py:398-404 | `assert_callable` passes exactly for callable subjects; otherwise `expected: callable(<repr>)` |
| Assertions.ValueVerdict | test/test_assertions.py:33-98 | a value assertion only ever passes or fails |
| Assertions.PatternVerdict | test/test_assertions.py:107-136 | a pattern assertion only ever passes or fails |
| Assertions.ObjectVerdict | test/test_assertions.py:138-152 | an object assertion only ever passes or fails |
| Assertions.Evaluate | test/test_assertions.py:20-31 | `fail` is a failure with its message, `pend` and only `pend` is a pending, and `notify` and only `notify` is a notification, each carrying its message |
| Assertions.NegativeForms | test/test_assertions.py:59-136 | `assert_false`, `assert_not_match` and `assert_not_found` pass exactly when their positive forms fail; a match at the start is also found |
| Assertions.EqualReflexive | test/test_assertions.py:78 | `assert_equal(a, a)` always passes |
| Assertions.ReadLabeledRoundTrip | test/test_assertions.py:281-282 | a `caption<x>` line reads back as `x` |
| Assertions.TwoLinesRoundTrip | test/test_assertions.py:293-294 | a two-line diagnostic reads back as its two values |
| Assertions.EqualDetailNamesOperands | test/test_assertions.py:281-282 | a failed `assert_equal` diagnostic reads back as the reprs of the expected and the actual value, for every expected value whose repr is one line, objects included |
| Assertions.NotEqualDetailNamesOperands | test/test_assertions.py:293-294 | a failed `assert_not_equal` diagnostic reads back as the reprs of both operands, for every expected value whose repr is one line, objects included |
| Assertions.EqualDetail | test/test_assertions.py:281-282 | the two-line `expected: <E>` / ` but was: <A>` diagnostic; EqualDetailNamesOperands shows it names both operands |
| Assertions.NotEqualDetail | test/test_assertions.py:293-294 | the two-line `not expected: <E>` / `     but was: <A>` diagnostic; NotEqualDetailNamesOperands shows it names both operands |
| Assertions.PatternDetail | test/test_assertions.py:327-330 | the three-line pattern diagnostic: the call with its outcome, the `pattern:` line and the `target:` line; PatternDetailNamesOperands shows it names the pattern's text, its flags and the target, and PatternDetailIs ties it to the expected texts |
| Assertions.LastTwoLinesRoundTrip | test/test_assertions.py:327-330 | after a one-line first line, the last two lines of a diagnostic read back as their two values, the middle one allowed to span lines |
| Assertions.PatternDetailNamesOperands | test/test_assertions.py:327-387 | a failed pattern assertion's diagnostic reads back as the pattern's text and flags and the target, for any pattern text, newlines and slashes included |
| Results.CountZero | test/test_assertions.py:203-217 | a code's count is 0 exactly when no fault carries that code |
| Results.Record | test/test_assertions.py:197-217 | what one verdict does to the run result: a pass counts an assertion, a failure, pending or notification counts and appends its tuple; RecordFaults and RecordConsistent state its properties |
| Results.RunVerdicts | test/test_assertions.py:41-57 | a check body's verdicts reported in order until the first failure or pending; RunVerdictsShape, HaltDiscardsRest, NotifyContinues and PendDoesNotFail state its properties |
| Results.ExecCheck | test/test_assertions.py:197-201 | a check run: counted, listed by method name, its faults carrying the `TestCase.` qualified name; RunCheck is proved to compute it |
| Results.ExecRun | test/test_assertions.py:235-256 | the checks run in order; ExecRunIsTotal and ExecRunConsistent state its properties, and RunChecks is proved to compute it |
| Results.Succeeded | test/test_assertions.py:199-212 | the success flag is true exactly when nothing failed, pendings and notifications included; SucceededIffNoFailure ties it to the 'F' tuples |
| Results.RecordFaults | test/test_assertions.py:197-217 | a pass adds one assertion and no fault; a failure, pending or notification adds one to its own counter and appends one fault with its own code (`F`, `P`, `N`) and the check's name; the run count, the names and the error count stay |
| Results.RunVerdictsShape | test/test_assertions.py:41-57 | a check only appends faults, all carrying its name; all but the last are notifications; at most one failure is added; run count, names and errors are unchanged |
| Results.CheckFailsAtMostOnce | test/test_assertions.py:235-256 | each check yields at most one `'F'` tuple |
| Results.HaltDiscardsRest | test/test_assertions.py:44-57 | after a failure or a pending, the remaining calls of the check neither run nor count |
| Results.RecordCombine | test/test_assertions.py:235-256 | recording after earlier results equals recording alone and appending |
| Results.RunVerdictsShift | test/test_assertions.py:235-256 | what a check contributes does not depend on the results before it |
| Results.CombineInitial | test/test_assertions.py:197-201 | appending the empty result changes nothing |
| Results.NotifyContinues | test/test_assertions.py:211-217 | a notification does not end the check: the calls after it count as if it were absent, and it adds one notification |
| Results.PendDoesNotFail | test/test_assertions.py:203-209 | a check with no failing call adds no failure, even when it pends |
| Results.RecordConsistent | test/test_assertions.py:197-217 | one verdict keeps the counters equal to the numbers of 'F', 'P' and 'N' tuples and the run count equal to the number of names |
| Results.RunVerdictsConsistent | test/test_assertions.py:235-275 | a whole check keeps the counters consistent with the lists |
| Results.ExecRunConsistent | test/test_assertions.py:235-275 | a whole run keeps the counters consistent with the lists |
| Results.SucceededIffNoFailure | test/test_assertions.py:199-212 | a consistent run succeeds exactly when no 'F' tuple was recorded |
| Results.StartCombine | test/test_assertions.py:235-256 | starting a check after earlier results equals starting it alone and appending |
| Results.ExecRunShift | test/test_assertions.py:235-256 | a sequence of checks contributes the same whatever ran before |
| Results.ExecRunIsTotal | test/test_assertions.py:235-275 | a run is the concatenation of its checks run one by one, in check order |
| Results.TestResult.constructor | test/test_assertions.py:197-201 | a fresh recorder holds the empty result |
| Results.TestResult.StartTest | test/test_assertions.py:253-256 | starting a check adds one to the run count and lists its name |
| Results.TestResult.AddAssertion | test/test_assertions.py:24 | a passing assertion adds one to the assertion count and nothing else |
| Results.TestResult.AddFailure | test/test_assertions.py:199-200 | a failure adds one to the failure count and appends an 'F' tuple |
| Results.TestResult.AddPending | test/test_assertions.py:204-208 | a pending adds one to the pending count and appends a 'P' tuple |
| Results.TestResult.AddNotification | test/test_assertions.py:212-216 | a notification adds one to the notification count and appends an 'N' tuple |
| Results.Report | test/test_assertions.py:20-31 | reporting a verdict updates the recorder as the specification records it, and says that the check ends exactly on a failure or a pending |
| Results.RunCheck | test/test_assertions.py:20-152 | running a check body against the recorder, stopping at the first failure or pending, leaves exactly the specified state of the check run |
| Results.RunChecks | test/test_assertions.py:197-404 | running the checks in order leaves exactly the specified state of the run |
| Fixtures.StrHasMethod | test/test_assertions.py:139-142 | `ljust`, `strip` and `index` are attributes of a str |
| Fixtures.StrLacksStrip | test/test_assertions.py:141 | `Strip` is not an attribute of a str |
| Fixtures.PatternDetailIs | test/test_assertions.py:327-330 | a pattern diagnostic is the call line, then the `/source/flags` line, then the target line |
| Fixtures.NotEqualDifferentReprNamesOperands | test/test_assertions.py:298-299 | the failed `assert_not_equal` on the two `AlwaysEqual` objects reads back as `'abc'` and `'aBc'` |
| Fixtures.DiffAddendum | test/test_assertions.py:300-305 | a recorded detail agrees with an expected text that is that detail, a newline, `diff:`, a newline and a diff |
| Fixtures.DetailAssertEqual | test/test_assertions.py:281-285 | the recorded `assert_equal` detail is the expected text up to its diff addendum |
| Fixtures.DetailAssertNotEqual | test/test_assertions.py:298-305 | the recorded `AlwaysEqual` detail is the expected text up to its diff addendum |
| Fixtures.SummaryFail | test/test_assertions.py:20-21 | running `test_fail` gives 1 run, 0 assertions, 1 failure with `Failed!!!` |
| Fixtures.ReplayFail | test/test_assertions.py:197-201 | the expected result of `test_fail` |
| Fixtures.SummaryPend | test/test_assertions.py:23-26 | running `test_pend` gives 1 assertion and 1 pending; the call after `pend` does not count |
| Fixtures.ReplayPend | test/test_assertions.py:203-209 | the expected result of `test_pend`, success included |
| Fixtures.SummaryNotify | test/test_assertions.py:28-31 | running `test_notify` gives 2 assertions and 1 notification |
| Fixtures.ReplayNotify | test/test_assertions.py:211-217 | the expected result of `test_notify`, success included |
| Fixtures.SummaryAssertNone | test/test_assertions.py:33-35 | running `test_assert_none` gives 1 assertion and the `<False> is None` failure |
| Fixtures.ReplayAssertNone | test/test_assertions.py:219-225 | the expected result of `test_assert_none` |
| Fixtures.SummaryAssertNotNone | test/test_assertions.py:37-39 | running `test_assert_not_none` gives 1 assertion and the `not None` failure |
| Fixtures.ReplayAssertNotNone | test/test_assertions.py:227-233 | the expected result of `test_assert_not_none` |
| Fixtures.SummaryAssertTrue | test/test_assertions.py:41-57 | the four `assert_true` checks give 4 runs, 3 assertions, 4 failures, in check order |
| Fixtures.ReplayAssertTrue | test/test_assertions.py:235-256 | the expected result of the `assert_true` checks |
| Fixtures.SummaryAssertFalse | test/test_assertions.py:59-75 | the four `assert_false` checks give 4 runs, 4 assertions, 3 failures |
| Fixtures.ReplayAssertFalse | test/test_assertions.py:258-275 | the expected result of the `assert_false` checks |
| Fixtures.SummaryAssertEqual | test/test_assertions.py:77-80 | running `test_assert_equal` gives 1 assertion and the `<2>`/`<3>` failure |
| Fixtures.ReplayAssertEqual | test/test_assertions.py:277-287 | the expected result of `test_assert_equal`, compared with the full expected text, which goes on with the diff addendum |
| Fixtures.SummaryAssertNotEqual | test/test_assertions.py:82-98 | the two `assert_not_equal` checks give 2 runs, 1 assertion, 2 failures |
| Fixtures.ReplayAssertNotEqual | test/test_assertions.py:289-308 | the expected result of the `assert_not_equal` checks, compared with the full expected texts, the second going on with the diff addendum |
| Fixtures.SummaryAssertMatch | test/test_assertions.py:107-113 | the two `assert_match` checks give 2 assertions and 2 failures |
| Fixtures.ReplayAssertMatch | test/test_assertions.py:323-340 | the expected result of the `assert_match` checks |
| Fixtures.SummaryAssertNotMatch | test/test_assertions.py:115-121 | the two `assert_not_match` checks give 2 assertions and 2 failures |
| Fixtures.ReplayAssertNotMatch | test/test_assertions.py:342-358 | the expected result of the `assert_not_match` checks, with the `re.compile('xyz', re.IGNORECASE)` argument and `/xyz/i` |
| Fixtures.SummaryAssertSearch | test/test_assertions.py:123-131 | the two `assert_search` checks give 4 assertions and 2 failures |
| Fixtures.ReplayAssertSearch | test/test_assertions.py:360-377 | the expected result of the `assert_search` checks |
| Fixtures.SummaryAssertNotFound | test/test_assertions.py:133-136 | running `test_assert_not_found` gives 2 assertions and 1 failure |
| Fixtures.ReplayAssertNotFound | test/test_assertions.py:379-388 | the expected result of `test_assert_not_found`, with `re.IGNORECASE \| re.LOCALE` and `/bcd/il` |
| Fixtures.SummaryAssertHasattr | test/test_assertions.py:138-142 | running `test_assert_hasattr` gives 2 assertions and 1 failure |
| Fixtures.ReplayAssertHasattr | test/test_assertions.py:390-396 | the expected result of `test_assert_hasattr` |
| Fixtures.SummaryAssertCallable | test/test_assertions.py:144-152 | running `test_assert_callable` gives 2 assertions and 1 failure |
| Fixtures.ReplayAssertCallable | test/test_assertions.py:398-404 | the expected result of `test_assert_callable` |

The members `Fixtures.Step…`, `Fixtures.Verdict…`, `Fixtures.Fact…`,
`Fixtures.Text…`, `Fixtures.NameText…`, `Fixtures.Name…`, `Fixtures.Steps…`,
`Fixtures.Outcome…`, `Fixtures.Alone…` and `Fixtures.Total…` are the
intermediate steps of the replays above. Each states one call's verdict, one
diagnostic text, one check's outcome, or the concatenation of several outcomes.

## Left out

- The diff addendum of failed equality assertions (the `diff:` lines at
  test/test_assertions.py:283-285 and :300-305) is produced by Python's `difflib`,
  whose heuristics are not part of this model. The replays compare with the full
  expected texts and accept any diff after the modelled two-line message
  (`Fixtures.DetailAgrees`).
- `assert_in_delta` (:100-105, :310-321) is left out: it is floating-point
  arithmetic, and whether 0.0001 passes depends on rounding.
- `assert_call_raise`, `assert_call_nothing_raised` (:154-174, :406-434) are left
  out. Their messages embed interpreter exception class paths and texts.
- `assert_run_command`, `assert_search_syslog_in_calling` and `assert_open_file`
  (:176-195, :436-478) are left out: they are process, syslog and file I/O.
- The `setup` directory cleanup (:16-18) and the `test.utils.Assertions` helper
  are left out. `test.utils` is not part of this model: only the argument order
  of `assert_result` is taken from its uses.
- Patterns are literal. Regular-expression syntax (such as `"find me!+"` at
  :185) is not interpreted.
- Only the IGNORECASE and LOCALE flags are modelled. Case folding is ASCII; LOCALE
  changes nothing beyond its letter and its name.
- The location field of fault tuples is not modelled. It is None in every
  expected tuple.
- The error count is always 0: no errors are raised in these checks, so no error
  path is modelled.
- PyRepr.Repr: Python 2 longs (the `L` suffix) and characters above U+00FF (which
  a Python 2 byte string cannot hold) are not modelled.
- PyValues.Attributes: None, bool and int get only the attributes inherited from
  `object`. Their own methods are not listed, since no check asks for them.
- PyValues.Truthy: user-defined `__nonzero__` and `__len__` are not modelled. Only
  None, bool, int and str are ever tested for truth.
- PyValues.PyEq, PyValues.PyNe: a user-defined `__eq__` is not modelled (objects
  compare by identity), and a user-defined `__ne__` is a constant answer that
  ignores its argument, which is all the `AlwaysEqual` class at :92-93 needs.
- Objects' reprs, attribute names and callability are given as data of the
  object value. Nothing evaluates the class bodies at test/test_assertions.py:88-96
  and :145-147.
- Fixtures: the expected pattern diagnostics are written through a small template
  function (`PatternMessage`) rather than as one literal each. The
  `PatternDetailIs` lemma ties the template to the modelled diagnostic.
