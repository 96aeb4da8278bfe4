/** The result model of a pikzie run: what each verdict does to the run's
    counters and fault list, how a check's body runs until its first
    failure or pending, and the recorder object that the runner updates
    in place while the checks run. */
module Results {
  import opened Assertions

  /** The status code of a fault tuple: 'F', 'P' or 'N'. */
  datatype FaultCode = FailureCode | PendingCode | NotificationCode

  function Mark(code: FaultCode): char {
    match code
    case FailureCode => 'F'
    case PendingCode => 'P'
    case NotificationCode => 'N'
  }

  /** One fault tuple: status code, qualified check name and detail. */
  datatype Fault = Fault(code: FaultCode, test: string, detail: string)

  /** The run's counters, in the order pikzie reports them, with the
      fault tuples and the names of the checks that ran. */
  datatype Summary = Summary(
    run: nat, assertions: nat, failures: nat, errors: nat,
    pendings: nat, notifications: nat,
    faults: seq<Fault>, names: seq<string>)

  const Initial: Summary := Summary(0, 0, 0, 0, 0, 0, [], [])

  /** A run succeeds when nothing failed, however many checks are pending
      or notified. */
  predicate Succeeded(s: Summary) {
    s.failures == 0
  }

  /** A failure or a pending ends the check that reports it. */
  predicate Halts(v: Verdict) {
    v.Failure? || v.Pending?
  }

  /** What one verdict of the check `test` does to the summary. */
  function Record(s: Summary, test: string, v: Verdict): Summary {
    match v
    case Pass => s.(assertions := s.assertions + 1)
    case Failure(detail) =>
      s.(failures := s.failures + 1, faults := s.faults + [Fault(FailureCode, test, detail)])
    case Pending(message) =>
      s.(pendings := s.pendings + 1, faults := s.faults + [Fault(PendingCode, test, message)])
    case Notification(message) =>
      s.(notifications := s.notifications + 1, faults := s.faults + [Fault(NotificationCode, test, message)])
  }

  /** The verdicts the steps of a check body would give, in order. The
      model's assertions are pure, so the verdicts of steps after the
      first failure or pending can be listed without changing anything:
      RunVerdicts ignores them, just as pikzie never reaches those calls. */
  function Verdicts(steps: seq<Step>): seq<Verdict> {
    seq(|steps|, i requires 0 <= i < |steps| => Evaluate(steps[i]))
  }

  /** Reports the verdicts of the check `test` in order; the first
      failure or pending ends the check, a notification does not. */
  function RunVerdicts(s: Summary, test: string, vs: seq<Verdict>): Summary
    decreases |vs|
  {
    if vs == [] then s
    else if Halts(vs[0]) then Record(s, test, vs[0])
    else RunVerdicts(Record(s, test, vs[0]), test, vs[1..])
  }

  /** A check: the test case class it belongs to, its method name and its body. */
  datatype Check = Check(testCase: string, name: string, steps: seq<Step>)

  /** The check name as fault tuples show it: `TestCase.test_fail`. */
  function QualifiedName(c: Check): string {
    c.testCase + "." + c.name
  }

  /** Starting a check counts it as run and lists its method name. */
  function Start(s: Summary, name: string): Summary {
    s.(run := s.run + 1, names := s.names + [name])
  }

  function ExecCheck(s: Summary, c: Check): Summary {
    RunVerdicts(Start(s, c.name), QualifiedName(c), Verdicts(c.steps))
  }

  /** Runs the checks one after the other. */
  function ExecRun(s: Summary, checks: seq<Check>): Summary
    decreases |checks|
  {
    if checks == [] then s else ExecRun(ExecCheck(s, checks[0]), checks[1..])
  }

  // ---------------------------------------------------------------------
  // Shape of one check's faults

  /** The faults one check adds: all carry its name, and all but the last
      are notifications, so a check ends with at most one failure or
      pending. */
  predicate CheckFaults(fs: seq<Fault>, test: string) {
    forall i :: 0 <= i < |fs| ==>
      fs[i].test == test && (i < |fs| - 1 ==> fs[i].code == NotificationCode)
  }

  function Count(fs: seq<Fault>, code: FaultCode): (n: nat)
    ensures n <= |fs|
  {
    if fs == [] then 0 else Count(fs[..|fs| - 1], code) + (if fs[|fs| - 1].code == code then 1 else 0)
  }

  lemma CountAppend(fs: seq<Fault>, f: Fault, code: FaultCode)
    ensures Count(fs + [f], code) == Count(fs, code) + (if f.code == code then 1 else 0)
  {
    assert (fs + [f])[..|fs|] == fs;
  }

  lemma {:induction false} CountZero(fs: seq<Fault>, code: FaultCode)
    ensures Count(fs, code) == 0 <==> forall i :: 0 <= i < |fs| ==> fs[i].code != code
  {
    if fs != [] {
      CountZero(fs[..|fs| - 1], code);
    }
  }

  /** What one verdict does to the run result: a pass adds one assertion
      and no fault; any other verdict adds one to its own counter and one
      fault with its own code and the check's name; nothing else changes. */
  lemma RecordFaults(s: Summary, test: string, v: Verdict)
    ensures var s1 := Record(s, test, v);
      && (v.Pass? ==> s1.faults == s.faults)
      && (!v.Pass? ==> |s1.faults| == |s.faults| + 1 && s1.faults[..|s.faults|] == s.faults
                        && s1.faults[|s.faults|].test == test)
      && (v.Failure? ==> s1.faults[|s.faults|].code == FailureCode)
      && (v.Pending? ==> s1.faults[|s.faults|].code == PendingCode)
      && (v.Notification? ==> s1.faults[|s.faults|].code == NotificationCode)
      && s1.assertions == s.assertions + (if v.Pass? then 1 else 0)
      && s1.failures == s.failures + (if v.Failure? then 1 else 0)
      && s1.pendings == s.pendings + (if v.Pending? then 1 else 0)
      && s1.notifications == s.notifications + (if v.Notification? then 1 else 0)
      && s1.run == s.run && s1.names == s.names && s1.errors == s.errors
  {
  }

  lemma CheckFaultsCons(f: Fault, fs: seq<Fault>, test: string)
    requires f.test == test && f.code == NotificationCode && CheckFaults(fs, test)
    ensures CheckFaults([f] + fs, test)
  {
    forall i | 0 <= i < |[f] + fs|
      ensures ([f] + fs)[i].test == test && (i < |[f] + fs| - 1 ==> ([f] + fs)[i].code == NotificationCode)
    {
      if i > 0 {
        assert ([f] + fs)[i] == fs[i - 1];
      }
    }
  }

  /** A check adds faults only at the end of the fault list, all of the
      shape CheckFaults states; it adds at most one failure, and it leaves
      the run count, the check names and the error count alone. */
  lemma {:induction false} RunVerdictsShape(s: Summary, test: string, vs: seq<Verdict>)
    ensures var r := RunVerdicts(s, test, vs);
      && |s.faults| <= |r.faults| && r.faults[..|s.faults|] == s.faults
      && CheckFaults(r.faults[|s.faults|..], test)
      && r.failures <= s.failures + 1
      && r.run == s.run && r.names == s.names && r.errors == s.errors
    decreases |vs|
  {
    var r := RunVerdicts(s, test, vs);
    if vs == [] {
      assert r.faults[|s.faults|..] == [];
    } else {
      var v := vs[0];
      var s1 := Record(s, test, v);
      RecordFaults(s, test, v);
      if Halts(v) {
        assert r == s1;
        assert |r.faults[|s.faults|..]| == 1 && r.faults[|s.faults|..][0] == s1.faults[|s.faults|];
      } else {
        assert r == RunVerdicts(s1, test, vs[1..]);
        RunVerdictsShape(s1, test, vs[1..]);
        assert r.faults[..|s1.faults|][..|s.faults|] == r.faults[..|s.faults|];
        if v.Notification? {
          assert r.faults[|s.faults|..] == [s1.faults[|s.faults|]] + r.faults[|s1.faults|..];
          CheckFaultsCons(s1.faults[|s.faults|], r.faults[|s1.faults|..], test);
        } else {
          assert s1.faults == s.faults;
        }
      }
    }
  }

  /** Hence a check records at most one failure. */
  lemma CheckFailsAtMostOnce(fs: seq<Fault>, test: string)
    requires CheckFaults(fs, test)
    ensures Count(fs, FailureCode) <= 1
  {
    if |fs| > 1 {
      var init := fs[..|fs| - 1];
      CountZero(init, FailureCode);
    }
  }

  // ---------------------------------------------------------------------
  // What happens after a failure, a pending or a notification

  /** Once a step fails or pends, whatever follows it in the check body
      is not reported. */
  lemma {:induction false} HaltDiscardsRest(s: Summary, test: string, pre: seq<Verdict>, h: Verdict, post: seq<Verdict>)
    requires Halts(h)
    ensures RunVerdicts(s, test, pre + [h] + post) == RunVerdicts(s, test, pre + [h])
    decreases |pre|
  {
    if pre == [] {
      assert (pre + [h] + post)[0] == h && (pre + [h])[0] == h;
    } else {
      var v := pre[0];
      assert (pre + [h] + post)[0] == pre[0] && (pre + [h])[0] == pre[0];
      if !Halts(v) {
        assert (pre + [h] + post)[1..] == pre[1..] + [h] + post;
        assert (pre + [h])[1..] == pre[1..] + [h];
        HaltDiscardsRest(Record(s, test, v), test, pre[1..], h, post);
      }
    }
  }

  /** A summary `s` followed by the counts and lists of `d`. */
  function Combine(s: Summary, d: Summary): Summary {
    Summary(s.run + d.run, s.assertions + d.assertions, s.failures + d.failures,
            s.errors + d.errors, s.pendings + d.pendings, s.notifications + d.notifications,
            s.faults + d.faults, s.names + d.names)
  }

  lemma RecordCombine(s: Summary, d: Summary, test: string, v: Verdict)
    ensures Record(Combine(s, d), test, v) == Combine(s, Record(d, test, v))
  {
    match v
    case Pass =>
    case Failure(detail) =>
      assert (s.faults + d.faults) + [Fault(FailureCode, test, detail)]
          == s.faults + (d.faults + [Fault(FailureCode, test, detail)]);
    case Pending(message) =>
      assert (s.faults + d.faults) + [Fault(PendingCode, test, message)]
          == s.faults + (d.faults + [Fault(PendingCode, test, message)]);
    case Notification(message) =>
      assert (s.faults + d.faults) + [Fault(NotificationCode, test, message)]
          == s.faults + (d.faults + [Fault(NotificationCode, test, message)]);
  }

  /** What a check contributes does not depend on what ran before it. */
  lemma {:induction false} RunVerdictsShift(s: Summary, d: Summary, test: string, vs: seq<Verdict>)
    ensures RunVerdicts(Combine(s, d), test, vs) == Combine(s, RunVerdicts(d, test, vs))
    decreases |vs|
  {
    if vs != [] {
      var v := vs[0];
      RecordCombine(s, d, test, v);
      if !Halts(v) {
        RunVerdictsShift(s, Record(d, test, v), test, vs[1..]);
      }
    }
  }

  lemma CombineInitial(s: Summary)
    ensures Combine(s, Initial) == s
  {
  }

  /** `notify` lets the check go on: the verdicts after it count exactly as if
      it were not there, so they leave the same counts of assertions,
      failures and pendings, and the notification only adds its own tuple. */
  lemma NotifyContinues(s: Summary, test: string, message: string, post: seq<Verdict>)
    ensures var withNotify := RunVerdicts(s, test, [Notification(message)] + post);
            var without := RunVerdicts(s, test, post);
      && withNotify.assertions == without.assertions
      && withNotify.failures == without.failures
      && withNotify.pendings == without.pendings
      && withNotify.notifications == without.notifications + 1
  {
    var n := Record(Initial, test, Notification(message));
    var e := RunVerdicts(Initial, test, post);
    assert ([Notification(message)] + post)[1..] == post;
    CombineInitial(s);
    CombineInitial(n);
    RecordCombine(s, Initial, test, Notification(message));
    assert Record(s, test, Notification(message)) == Combine(s, n);
    RunVerdictsShift(s, n, test, post);
    RunVerdictsShift(n, Initial, test, post);
    RunVerdictsShift(s, Initial, test, post);
    assert RunVerdicts(s, test, [Notification(message)] + post) == Combine(s, Combine(n, e));
    assert RunVerdicts(s, test, post) == Combine(s, e);
  }

  /** `pend` ends the check without failing it: a body with no failing
      step adds no failure, whatever it pends. */
  lemma {:induction false} PendDoesNotFail(s: Summary, test: string, vs: seq<Verdict>)
    requires forall i :: 0 <= i < |vs| ==> !vs[i].Failure?
    ensures RunVerdicts(s, test, vs).failures == s.failures
    decreases |vs|
  {
    if vs != [] {
      var v := vs[0];
      assert !v.Failure?;
      if !Halts(v) {
        PendDoesNotFail(Record(s, test, v), test, vs[1..]);
      }
    }
  }

  // ---------------------------------------------------------------------
  // The run summary

  /** The counters agree with the lists: the run count is the number of
      checks listed, and the failure, pending and notification counts are
      the numbers of 'F', 'P' and 'N' tuples. */
  predicate Consistent(s: Summary) {
    && s.run == |s.names|
    && s.failures == Count(s.faults, FailureCode)
    && s.pendings == Count(s.faults, PendingCode)
    && s.notifications == Count(s.faults, NotificationCode)
  }

  lemma RecordConsistent(s: Summary, test: string, v: Verdict)
    requires Consistent(s)
    ensures Consistent(Record(s, test, v))
  {
    if !v.Pass? {
      var f := Record(s, test, v).faults[|s.faults|];
      assert Record(s, test, v).faults == s.faults + [f];
      CountAppend(s.faults, f, FailureCode);
      CountAppend(s.faults, f, PendingCode);
      CountAppend(s.faults, f, NotificationCode);
    }
  }

  lemma {:induction false} RunVerdictsConsistent(s: Summary, test: string, vs: seq<Verdict>)
    requires Consistent(s)
    ensures Consistent(RunVerdicts(s, test, vs))
    decreases |vs|
  {
    if vs != [] {
      RecordConsistent(s, test, vs[0]);
      if !Halts(vs[0]) {
        RunVerdictsConsistent(Record(s, test, vs[0]), test, vs[1..]);
      }
    }
  }

  /** Running checks keeps the counters in agreement with the lists. */
  lemma {:induction false} ExecRunConsistent(s: Summary, checks: seq<Check>)
    requires Consistent(s)
    ensures Consistent(ExecRun(s, checks))
    decreases |checks|
  {
    if checks != [] {
      RunVerdictsConsistent(Start(s, checks[0].name), QualifiedName(checks[0]), Verdicts(checks[0].steps));
      ExecRunConsistent(ExecCheck(s, checks[0]), checks[1..]);
    }
  }

  /** A run succeeds exactly when no 'F' tuple was recorded. */
  lemma SucceededIffNoFailure(s: Summary)
    requires Consistent(s)
    ensures Succeeded(s) <==> forall i :: 0 <= i < |s.faults| ==> s.faults[i].code != FailureCode
  {
    CountZero(s.faults, FailureCode);
  }

  /** The summary of a run, check by check: each check run on its own from
      the initial summary, with the results concatenated in check order. */
  function Total(checks: seq<Check>): Summary
    decreases |checks|
  {
    if checks == [] then Initial else Combine(ExecCheck(Initial, checks[0]), Total(checks[1..]))
  }

  lemma StartCombine(s: Summary, d: Summary, name: string)
    ensures Start(Combine(s, d), name) == Combine(s, Start(d, name))
  {
    assert (s.names + d.names) + [name] == s.names + (d.names + [name]);
  }

  lemma {:induction false} ExecRunShift(s: Summary, d: Summary, checks: seq<Check>)
    ensures ExecRun(Combine(s, d), checks) == Combine(s, ExecRun(d, checks))
    decreases |checks|
  {
    if checks != [] {
      var c := checks[0];
      StartCombine(s, d, c.name);
      RunVerdictsShift(s, Start(d, c.name), QualifiedName(c), Verdicts(c.steps));
      ExecRunShift(s, ExecCheck(d, c), checks[1..]);
    }
  }

  /** Checks do not influence each other, and their fault tuples and names
      appear in the order the checks ran. */
  lemma {:induction false} ExecRunIsTotal(checks: seq<Check>)
    ensures ExecRun(Initial, checks) == Total(checks)
    decreases |checks|
  {
    if checks != [] {
      var first := ExecCheck(Initial, checks[0]);
      ExecRunIsTotal(checks[1..]);
      CombineInitial(first);
      ExecRunShift(first, Initial, checks[1..]);
    }
  }

  // ---------------------------------------------------------------------
  // The recorder the runner updates in place

  /** pikzie's test result object: the counters and lists that the runner
      updates as checks start and their assertions report. */
  class TestResult {
    var runCount: nat
    var assertionCount: nat
    var failureCount: nat
    var errorCount: nat
    var pendingCount: nat
    var notificationCount: nat
    var faults: seq<Fault>
    var testNames: seq<string>

    /** The recorder's state as a summary value. */
    function Snapshot(): Summary
      reads this
    {
      Summary(runCount, assertionCount, failureCount, errorCount,
              pendingCount, notificationCount, faults, testNames)
    }

    constructor ()
      ensures Snapshot() == Initial
    {
      runCount, assertionCount, failureCount, errorCount := 0, 0, 0, 0;
      pendingCount, notificationCount := 0, 0;
      faults, testNames := [], [];
    }

    method StartTest(name: string)
      modifies this
      ensures Snapshot() == Start(old(Snapshot()), name)
    {
      runCount := runCount + 1;
      testNames := testNames + [name];
    }

    method AddAssertion()
      modifies this
      ensures Snapshot() == Record(old(Snapshot()), "", Pass)
    {
      assertionCount := assertionCount + 1;
    }

    method AddFailure(test: string, detail: string)
      modifies this
      ensures Snapshot() == Record(old(Snapshot()), test, Failure(detail))
    {
      failureCount := failureCount + 1;
      faults := faults + [Fault(FailureCode, test, detail)];
    }

    method AddPending(test: string, message: string)
      modifies this
      ensures Snapshot() == Record(old(Snapshot()), test, Pending(message))
    {
      pendingCount := pendingCount + 1;
      faults := faults + [Fault(PendingCode, test, message)];
    }

    method AddNotification(test: string, message: string)
      modifies this
      ensures Snapshot() == Record(old(Snapshot()), test, Notification(message))
    {
      notificationCount := notificationCount + 1;
      faults := faults + [Fault(NotificationCode, test, message)];
    }
  }

  /** Reports one verdict of the check `test` to the recorder and tells
      whether the check ends there. */
  method Report(result: TestResult, test: string, v: Verdict) returns (halts: bool)
    modifies result
    ensures result.Snapshot() == Record(old(result.Snapshot()), test, v)
    ensures halts == Halts(v)
  {
    match v {
      case Pass =>
        result.AddAssertion();
        halts := false;
      case Failure(detail) =>
        result.AddFailure(test, detail);
        halts := true;
      case Pending(message) =>
        result.AddPending(test, message);
        halts := true;
      case Notification(message) =>
        result.AddNotification(test, message);
        halts := false;
    }
  }

  /** Runs one check against the recorder: starts it, then evaluates its
      steps in order and reports each verdict, stopping at the first
      failure or pending. */
  method RunCheck(result: TestResult, check: Check)
    modifies result
    ensures result.Snapshot() == ExecCheck(old(result.Snapshot()), check)
  {
    ghost var goal := ExecCheck(result.Snapshot(), check);
    result.StartTest(check.name);
    var test := QualifiedName(check);
    var steps := check.steps;
    ghost var vs := Verdicts(steps);
    assert vs[0..] == vs;
    var i := 0;
    var stopped := false;
    while i < |steps| && !stopped
      invariant 0 <= i <= |steps|
      invariant stopped ==> result.Snapshot() == goal
      invariant !stopped ==> RunVerdicts(result.Snapshot(), test, vs[i..]) == goal
    {
      assert vs[i..][0] == Evaluate(steps[i]) && vs[i..][1..] == vs[i + 1..];
      var v := Evaluate(steps[i]);
      stopped := Report(result, test, v);
      i := i + 1;
    }
  }

  /** Runs the checks in order against one recorder. */
  method RunChecks(result: TestResult, checks: seq<Check>)
    modifies result
    ensures result.Snapshot() == ExecRun(old(result.Snapshot()), checks)
  {
    ghost var goal := ExecRun(result.Snapshot(), checks);
    assert checks[0..] == checks;
    var i := 0;
    while i < |checks|
      invariant 0 <= i <= |checks|
      invariant ExecRun(result.Snapshot(), checks[i..]) == goal
    {
      assert checks[i..][0] == checks[i] && checks[i..][1..] == checks[i + 1..];
      RunCheck(result, checks[i]);
      i := i + 1;
    }
  }
}
