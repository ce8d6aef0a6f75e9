/**
 * The run state and the reporting hooks of the doctest runner
 * (DocTestRunner.report_*) and of the unittest result (TestResult.startTest,
 * add*).  The counters attempted, failed and skipped and the last-seen test
 * name, file and class are one RunState object; each hook is a method on it.
 * Each method is specified by the pure step function Step on a snapshot of
 * that state, and the properties of a whole run are lemmas about Step.
 *
 * Output is the text the hooks print when standard output is not a terminal,
 * where every colour code is empty.
 */
module Reporting {
  import opened Wrappers
  import opened Strings
  import opened Paths
  import Discovery

  const CHAR_OK: char := '\U{2713}'
  const CHAR_FAILED: char := '\U{2717}'
  const CHAR_SKIP: char := '-'

  /** The identity of a test case class; `last_testcase_class` starts as the class of None. */
  datatype ClassIdentity = NoneType | TestCaseClass(id: nat)

  datatype Counters = Counters(attempted: nat, failed: nat, skipped: nat)

  /** The value of the run state: the counters and the last-seen context. */
  datatype RunSnapshot = RunSnapshot(
    counters: Counters,
    lastTestName: string,
    lastTestFilename: string,
    lastTestcaseClass: ClassIdentity)

  const INITIAL: RunSnapshot := RunSnapshot(Counters(0, 0, 0), "", "", NoneType)

  /** The hook calls, in the order the doctest and unittest machinery makes them. */
  datatype Event =
    | DocStart(testName: string, filename: string)  // report_start
    | DocSuccess                                    // report_success
    | DocFailure                                    // report_failure
    | DocException                                  // report_unexpected_exception
    | UnitStart(testClass: ClassIdentity)           // startTest
    | UnitSuccess                                   // addSuccess
    | UnitError                                     // addError
    | UnitFailure                                   // addFailure
    | UnitSkip                                      // addSkip
    | UnitExpectedFailure                           // addExpectedFailure
    | UnitUnexpectedSuccess                         // addUnexpectedSuccess

  predicate IsStart(e: Event) {
    e.DocStart? || e.UnitStart?
  }

  predicate IsFailing(e: Event) {
    e.DocFailure? || e.DocException? || e.UnitError? || e.UnitFailure? || e.UnitUnexpectedSuccess?
  }

  /** Whether a start hook prints a header: the test (name, file) or the class differs from the last one seen. */
  predicate HeaderDue(s: RunSnapshot, e: Event)
    ensures HeaderDue(s, e) ==> IsStart(e)
  {
    match e
    case DocStart(name, file) => s.lastTestName != name || s.lastTestFilename != file
    case UnitStart(cls) => s.lastTestcaseClass != cls
    case _ => false
  }

  /** The state after one hook call. */
  function Step(s: RunSnapshot, e: Event): RunSnapshot {
    var c := s.counters;
    match e
    case DocStart(name, file) =>
      s.(counters := c.(attempted := c.attempted + 1), lastTestName := name, lastTestFilename := file)
    case UnitStart(cls) =>
      s.(counters := c.(attempted := c.attempted + 1), lastTestcaseClass := cls)
    case UnitSkip =>
      s.(counters := c.(skipped := c.skipped + 1))
    case _ =>
      if IsFailing(e) then s.(counters := c.(failed := c.failed + 1)) else s
  }

  /**
   * The counter effect of each hook: a start adds one to attempted, a failing
   * outcome (doctest failure or exception, unittest error, failure or
   * unexpected success) one to failed, a skip one to skipped, and nothing else
   * changes a counter; a doctest start stores its (name, file) and a unittest
   * start its class, and no other hook touches the last-seen context.
   */
  lemma StepEffects(s: RunSnapshot, e: Event)
    ensures var t := Step(s, e);
      && t.counters.attempted == s.counters.attempted + (if IsStart(e) then 1 else 0)
      && t.counters.failed == s.counters.failed + (if IsFailing(e) then 1 else 0)
      && t.counters.skipped == s.counters.skipped + (if e.UnitSkip? then 1 else 0)
      && (e.DocStart? ==> t.lastTestName == e.testName && t.lastTestFilename == e.filename)
      && (!e.DocStart? ==> t.lastTestName == s.lastTestName && t.lastTestFilename == s.lastTestFilename)
      && (e.UnitStart? ==> t.lastTestcaseClass == e.testClass)
      && (!e.UnitStart? ==> t.lastTestcaseClass == s.lastTestcaseClass)
  {
  }

  /** The state after a sequence of hook calls. */
  function Run(s: RunSnapshot, events: seq<Event>): RunSnapshot
    decreases |events|
  {
    if events == [] then s else Run(Step(s, events[0]), events[1..])
  }

  function Starts(events: seq<Event>): nat {
    if events == [] then 0 else (if IsStart(events[0]) then 1 else 0) + Starts(events[1..])
  }

  function Failures(events: seq<Event>): nat {
    if events == [] then 0 else (if IsFailing(events[0]) then 1 else 0) + Failures(events[1..])
  }

  function Skips(events: seq<Event>): nat {
    if events == [] then 0 else (if events[0].UnitSkip? then 1 else 0) + Skips(events[1..])
  }

  /** Over a whole run, attempted counts the start hooks, failed the failing outcomes and skipped the skips. */
  lemma {:induction false} RunCounts(s: RunSnapshot, events: seq<Event>)
    ensures Run(s, events).counters ==
      Counters(s.counters.attempted + Starts(events),
               s.counters.failed + Failures(events),
               s.counters.skipped + Skips(events))
    decreases |events|
  {
    if events != [] {
      RunCounts(Step(s, events[0]), events[1..]);
    }
  }

  /** No hook ever decrements a counter. */
  lemma RunNeverDecrements(s: RunSnapshot, events: seq<Event>)
    ensures var t := Run(s, events).counters;
      t.attempted >= s.counters.attempted && t.failed >= s.counters.failed && t.skipped >= s.counters.skipped
  {
    RunCounts(s, events);
  }

  /** Calls that are not doctest starts leave the stored test (name, file) alone. */
  lemma {:induction false} DocContextKept(s: RunSnapshot, between: seq<Event>)
    requires forall i :: 0 <= i < |between| ==> !between[i].DocStart?
    ensures Run(s, between).lastTestName == s.lastTestName
    ensures Run(s, between).lastTestFilename == s.lastTestFilename
    decreases |between|
  {
    if between != [] {
      DocContextKept(Step(s, between[0]), between[1..]);
    }
  }

  /** Calls that are not unittest starts leave the stored class alone. */
  lemma {:induction false} ClassContextKept(s: RunSnapshot, between: seq<Event>)
    requires forall i :: 0 <= i < |between| ==> !between[i].UnitStart?
    ensures Run(s, between).lastTestcaseClass == s.lastTestcaseClass
    decreases |between|
  {
    if between != [] {
      ClassContextKept(Step(s, between[0]), between[1..]);
    }
  }

  /**
   * Once report_start has shown the header of a test, a later report_start for
   * the same test and file shows none, as long as no doctest start for another
   * test came in between (outcomes and unittest calls do not count).
   */
  lemma RepeatedDocStartSilent(s: RunSnapshot, name: string, file: string, between: seq<Event>)
    requires forall i :: 0 <= i < |between| ==> !between[i].DocStart?
    ensures !HeaderDue(Run(Step(s, DocStart(name, file)), between), DocStart(name, file))
  {
    DocContextKept(Step(s, DocStart(name, file)), between);
  }

  /** Once startTest has shown the header of a class, later tests of that class show none until a test of another class starts. */
  lemma RepeatedUnitStartSilent(s: RunSnapshot, cls: ClassIdentity, between: seq<Event>)
    requires forall i :: 0 <= i < |between| ==> !between[i].UnitStart?
    ensures !HeaderDue(Run(Step(s, UnitStart(cls)), between), UnitStart(cls))
  {
    ClassContextKept(Step(s, UnitStart(cls)), between);
  }

  /** One interactive example of a docstring: its source and its line offset within the docstring. */
  datatype Example = Example(source: string, lineno: nat)

  /** ' <line N>' */
  function LinenoText(lineno: nat): string {
    " <line " + NatStr(lineno) + ">"
  }

  /**
   * msg cut to maxWidth: a message longer than maxWidth becomes msg[0:maxWidth - 3]
   * followed by "...".  With maxWidth below 3 the slice end is negative and
   * counts from the end of msg, so the result is then longer than maxWidth.
   */
  function Truncate(msg: string, maxWidth: int): (r: string)
    ensures |msg| <= maxWidth ==> r == msg
    ensures |msg| > maxWidth ==> |r| >= 3 && EndsWith(r, "...") && StartsWith(msg, r[..|r| - 3])
    ensures |msg| > maxWidth && maxWidth >= 3 ==> |r| == maxWidth
    ensures |msg| > maxWidth && maxWidth < 3 ==>
      |r| == (if 3 - maxWidth <= |msg| then |msg| - (3 - maxWidth) else 0) + 3
  {
    if |msg| > maxWidth then SliceTo(msg, maxWidth - 3) + "..." else msg
  }

  /** ' F text suffix': a result line with flag F. */
  function ResultLine(flag: char, text: string, suffix: string): (r: string)
    ensures |r| == 3 + |text| + |suffix|
    ensures StartsWith(r, [' ', flag, ' ']) && r[3..|r| - |suffix|] == text && EndsWith(r, suffix)
  {
    var r := [' ', flag, ' '] + text + suffix;
    ConcatParts([' ', flag, ' '] + text, suffix);
    ConcatParts([' ', flag, ' '], text);
    assert r[..3] == ([' ', flag, ' '] + text)[..3];
    assert r[3..|r| - |suffix|] == ([' ', flag, ' '] + text)[3..];
    r
  }

  /** The result line DocTestRunner.print_result prints for an example of a test starting at testLineno. */
  function DocResultLine(terminalWidth: int, testLineno: nat, example: Example, flag: char): (r: string)
    ensures StartsWith(r, [' ', flag, ' ']) && EndsWith(r, LinenoText(testLineno + example.lineno + 1))
    ensures var lt := LinenoText(testLineno + example.lineno + 1);
      var shown := Truncate(RStrip(example.source, '\n'), terminalWidth - 4 - |lt|);
      |r| == 3 + |shown| + |lt| && r[3..|r| - |lt|] == shown
  {
    var linenoText := LinenoText(testLineno + example.lineno + 1);
    var msg := RStrip(example.source, '\n');
    var maxWidth := terminalWidth - 4 - |linenoText|;
    ResultLine(flag, Truncate(msg, maxWidth), linenoText)
  }

  /** A source that fits is shown whole, without its trailing newlines. */
  lemma DocResultLineFits(terminalWidth: int, testLineno: nat, example: Example, flag: char)
    requires |RStrip(example.source, '\n')| <= terminalWidth - 4 - |LinenoText(testLineno + example.lineno + 1)|
    ensures DocResultLine(terminalWidth, testLineno, example, flag)
      == ResultLine(flag, RStrip(example.source, '\n'), LinenoText(testLineno + example.lineno + 1))
  {
  }

  /**
   * The result line is at most terminalWidth - 1 long whenever the source
   * fits or the room left for it is at least 3 (below that the slice end is
   * negative and the line runs over).
   */
  lemma DocResultLineWidth(terminalWidth: int, testLineno: nat, example: Example, flag: char)
    ensures var lt := LinenoText(testLineno + example.lineno + 1);
      var msg := RStrip(example.source, '\n');
      var maxWidth := terminalWidth - 4 - |lt|;
      |msg| <= maxWidth || maxWidth >= 3 ==> |DocResultLine(terminalWidth, testLineno, example, flag)| <= terminalWidth - 1
  {
  }

  /** The digits just before the closing '>' of a line ending in ' <line N>' read back as N. */
  lemma LinenoReadBack(line: string, n: nat)
    requires EndsWith(line, LinenoText(n))
    ensures |line| >= 8 + |NatStr(n)|
    ensures line[|line| - 1 - |NatStr(n)|..|line| - 1] == NatStr(n)
    ensures DigitsValue(line[|line| - 1 - |NatStr(n)|..|line| - 1]) == n
  {
    var d := NatStr(n);
    LinenoTextDigits(n);
    SliceOfSuffix(line, LinenoText(n), 7, 7 + |d|);
    DigitsValueOfNatStr(n);
  }

  /** ' <line N>' has the digits of N from its eighth character up to the closing '>'. */
  lemma LinenoTextDigits(n: nat)
    ensures |LinenoText(n)| == 8 + |NatStr(n)| && LinenoText(n)[7..7 + |NatStr(n)|] == NatStr(n)
  {
    var d := NatStr(n);
    assert LinenoText(n) == " <line " + (d + ">");
    ConcatParts(" <line ", d + ">");
    ConcatParts(d, ">");
    assert (d + ">")[..|d|] == d;
  }

  /** The characters just before the last one of line are the digits of n, and read back as n. */
  predicate NumberBeforeEnd(line: string, n: nat) {
    var k := |NatStr(n)|;
    |line| >= 1 + k && line[|line| - 1 - k..|line| - 1] == NatStr(n) && DigitsValue(line[|line| - 1 - k..|line| - 1]) == n
  }

  /** The line number at the end of a doctest result line reads back as testLineno + example.lineno + 1. */
  lemma DocResultLineNumber(terminalWidth: int, testLineno: nat, example: Example, flag: char)
    ensures NumberBeforeEnd(DocResultLine(terminalWidth, testLineno, example, flag), testLineno + example.lineno + 1)
  {
    LinenoReadBack(DocResultLine(terminalWidth, testLineno, example, flag), testLineno + example.lineno + 1);
  }

  /** The line number at the end of a unittest result line reads back as the method's line number. */
  lemma UnitResultLineNumber(flag: char, name: string, lineno: nat)
    ensures NumberBeforeEnd(UnitResultLine(flag, name, lineno), lineno)
  {
    LinenoReadBack(UnitResultLine(flag, name, lineno), lineno);
  }

  /** The prefix report_start strips from a test name: the directory with dots for separators, then a dot. */
  function NamePrefix(dirpath: string): string {
    ReplaceChar(dirpath, SEP, '.') + "."
  }

  /** The test name shown in a doctest header: without the directory prefix when the file is a .py file and the name has it. */
  function ShownName(testName: string, dirpath: string, filename: string): (r: string)
    ensures EndsWith(testName, r)
    ensures r == testName || testName == NamePrefix(dirpath) + r
    ensures r != testName <==> EndsWith(filename, ".py") && StartsWith(testName, NamePrefix(dirpath))
  {
    var prefix := NamePrefix(dirpath);
    GetFilenameEndsWithIff(dirpath, filename, ".py");
    if EndsWith(GetFilename(dirpath, filename), ".py") && StartsWith(testName, prefix) then
      testName[|prefix|..]
    else
      testName
  }

  /**
   * For a test found in a package module (named `module.qualname`), the header
   * shows its name relative to the directory: the stem, a dot and the rest.
   */
  lemma ShownNameInPackage(relpath: string, filename: string, rest: string)
    requires relpath != []
    requires SplitExt(filename).1 == ".py"
    ensures var stem := SplitExt(filename).0;
      ShownName(Discovery.ModuleName(relpath, stem) + "." + rest, relpath, filename) == stem + "." + rest
  {
    var stem := SplitExt(filename).0;
    assert Discovery.ModuleName(relpath, stem) + "." + rest == NamePrefix(relpath) + (stem + "." + rest);
    GetFilenameEndsWith(relpath, filename, ".py");
    ConcatParts(NamePrefix(relpath), stem + "." + rest);
  }

  /** At the scan root the prefix is a lone dot, so no name that does not start with a dot is shortened. */
  lemma ShownNameAtRoot(testName: string, filename: string)
    requires testName == [] || testName[0] != '.'
    ensures ShownName(testName, [], filename) == testName
  {
    assert NamePrefix([]) == ".";
  }

  /** The header report_start prints: '>>> name <file:lineno>'. */
  function DocHeader(testName: string, testLineno: nat, dirpath: string, filename: string): (r: string)
    ensures var shown := ShownName(testName, dirpath, filename);
      StartsWith(r, ">>> ") && |r| > 4 + |shown| && r[4..4 + |shown|] == shown
    ensures EndsWith(r, ":" + NatStr(testLineno) + ">")
    ensures var shown := ShownName(testName, dirpath, filename);
      var file := GetFilename(dirpath, filename);
      var end := ":" + NatStr(testLineno) + ">";
      |r| == 4 + |shown| + 2 + |file| + |end| && r[4 + |shown|..|r| - |end|] == " <" + file
  {
    Header(">>> ", ShownName(testName, dirpath, filename), GetFilename(dirpath, filename), testLineno)
  }

  /**
   * The header startTest prints: '::: ClassName <file:lineno>'. The file is the
   * result's filename attribute, which test_unittest sets to
   * getFilename(relpath, filename), the file joined to its relative directory.
   */
  function UnitHeader(className: string, filename: string, classLineno: nat): (r: string)
    ensures StartsWith(r, "::: ") && |r| > 4 + |className| && r[4..4 + |className|] == className
    ensures EndsWith(r, ":" + NatStr(classLineno) + ">")
    ensures var end := ":" + NatStr(classLineno) + ">";
      |r| == 4 + |className| + 2 + |filename| + |end| && r[4 + |className|..|r| - |end|] == " <" + filename
  {
    Header("::: ", className, filename, classLineno)
  }

  /** 'MARK name <file:lineno>': the shape both headers share. */
  function Header(mark: string, name: string, file: string, lineno: nat): (r: string)
    ensures StartsWith(r, mark) && |r| > |mark| + |name| && r[|mark|..|mark| + |name|] == name
    ensures EndsWith(r, ":" + NatStr(lineno) + ">")
    ensures var end := ":" + NatStr(lineno) + ">";
      |r| == |mark| + |name| + 2 + |file| + |end| && r[|mark| + |name|..|r| - |end|] == " <" + file
  {
    var mid := " <" + file;
    var end := ":" + NatStr(lineno) + ">";
    ConcatThree(mark, name, mid + end);
    ConcatThree(mark + name, mid, end);
    assert mark + name + (mid + end) == mark + name + mid + end;
    mark + name + mid + end
  }

  /** The result line TestResult.print_result prints. */
  function UnitResultLine(flag: char, name: string, lineno: nat): (r: string)
    ensures |r| == 3 + |name| + |LinenoText(lineno)|
    ensures StartsWith(r, [' ', flag, ' ']) && r[3..|r| - |LinenoText(lineno)|] == name && EndsWith(r, LinenoText(lineno))
  {
    ResultLine(flag, name, LinenoText(lineno))
  }

  /**
   * The global state of the runner.  The doctest hooks take the runner's
   * dirpath and filename attributes as arguments; the unittest hooks take the
   * method name and line numbers that inspect finds.
   */
  class RunState {
    var attempted: nat
    var failed: nat
    var skipped: nat
    var lastTestName: string
    var lastTestFilename: string
    var lastTestcaseClass: ClassIdentity
    const terminalWidth: int

    function Snapshot(): RunSnapshot
      reads this
    {
      RunSnapshot(Counters(attempted, failed, skipped), lastTestName, lastTestFilename, lastTestcaseClass)
    }

    constructor (terminalWidth: int)
      ensures Snapshot() == INITIAL && this.terminalWidth == terminalWidth
    {
      attempted, failed, skipped := 0, 0, 0;
      lastTestName, lastTestFilename := "", "";
      lastTestcaseClass := NoneType;
      this.terminalWidth := terminalWidth;
    }

    method CountAttempted()
      modifies this
      ensures Snapshot() == old(Snapshot()).(counters := Counters(old(attempted) + 1, old(failed), old(skipped)))
    {
      attempted := attempted + 1;
    }

    method CountFailed()
      modifies this
      ensures Snapshot() == old(Snapshot()).(counters := Counters(old(attempted), old(failed) + 1, old(skipped)))
    {
      failed := failed + 1;
    }

    method CountSkipped()
      modifies this
      ensures Snapshot() == old(Snapshot()).(counters := Counters(old(attempted), old(failed), old(skipped) + 1))
    {
      skipped := skipped + 1;
    }

    method ReportStart(testName: string, testLineno: nat, dirpath: string, filename: string) returns (header: Option<string>)
      modifies this
      ensures Snapshot() == Step(old(Snapshot()), DocStart(testName, filename))
      ensures header == if HeaderDue(old(Snapshot()), DocStart(testName, filename))
                        then Some(DocHeader(testName, testLineno, dirpath, filename)) else None
    {
      ghost var before := Snapshot();
      CountAttempted();
      assert HeaderDue(before, DocStart(testName, filename)) <==> lastTestName != testName || lastTestFilename != filename;
      if lastTestName != testName || lastTestFilename != filename {
        lastTestName := testName;
        lastTestFilename := filename;
        header := Some(DocHeader(testName, testLineno, dirpath, filename));
      } else {
        header := None;
      }
    }

    method ReportSuccess(testLineno: nat, example: Example) returns (line: string)
      ensures line == DocResultLine(terminalWidth, testLineno, example, CHAR_OK)
    {
      line := DocResultLine(terminalWidth, testLineno, example, CHAR_OK);
    }

    method ReportFailure(testLineno: nat, example: Example) returns (line: string)
      modifies this
      ensures Snapshot() == Step(old(Snapshot()), DocFailure)
      ensures line == DocResultLine(terminalWidth, testLineno, example, CHAR_FAILED)
    {
      CountFailed();
      line := DocResultLine(terminalWidth, testLineno, example, CHAR_FAILED);
    }

    method ReportUnexpectedException(testLineno: nat, example: Example) returns (line: string)
      modifies this
      ensures Snapshot() == Step(old(Snapshot()), DocException)
      ensures line == DocResultLine(terminalWidth, testLineno, example, CHAR_FAILED)
    {
      CountFailed();
      line := DocResultLine(terminalWidth, testLineno, example, CHAR_FAILED);
    }

    /** startTest; filename is the result's joined file name, getFilename(relpath, filename). */
    method StartTest(testClass: ClassIdentity, className: string, filename: string, classLineno: nat)
      returns (header: Option<string>)
      modifies this
      ensures Snapshot() == Step(old(Snapshot()), UnitStart(testClass))
      ensures header == if HeaderDue(old(Snapshot()), UnitStart(testClass))
                        then Some(UnitHeader(className, filename, classLineno)) else None
    {
      CountAttempted();
      if lastTestcaseClass != testClass {
        lastTestcaseClass := testClass;
        header := Some(UnitHeader(className, filename, classLineno));
      } else {
        header := None;
      }
    }

    method AddSuccess(methodName: string, lineno: nat) returns (line: string)
      ensures line == UnitResultLine(CHAR_OK, methodName, lineno)
    {
      line := UnitResultLine(CHAR_OK, methodName, lineno);
    }

    method AddError(methodName: string, lineno: nat) returns (line: string)
      modifies this
      ensures Snapshot() == Step(old(Snapshot()), UnitError)
      ensures line == UnitResultLine(CHAR_FAILED, methodName, lineno)
    {
      CountFailed();
      line := UnitResultLine(CHAR_FAILED, methodName, lineno);
    }

    method AddFailure(methodName: string, lineno: nat) returns (line: string)
      modifies this
      ensures Snapshot() == Step(old(Snapshot()), UnitFailure)
      ensures line == UnitResultLine(CHAR_FAILED, methodName, lineno)
    {
      CountFailed();
      line := UnitResultLine(CHAR_FAILED, methodName, lineno);
    }

    method AddSkip(methodName: string, lineno: nat) returns (line: string)
      modifies this
      ensures Snapshot() == Step(old(Snapshot()), UnitSkip)
      ensures line == UnitResultLine(CHAR_SKIP, "SKIP: " + methodName, lineno)
    {
      CountSkipped();
      line := UnitResultLine(CHAR_SKIP, "SKIP: " + methodName, lineno);
    }

    method AddExpectedFailure(methodName: string, lineno: nat) returns (line: string)
      ensures line == UnitResultLine(CHAR_OK, "EXPECTED FAILURE: " + methodName, lineno)
    {
      line := UnitResultLine(CHAR_OK, "EXPECTED FAILURE: " + methodName, lineno);
    }

    method AddUnexpectedSuccess(methodName: string, lineno: nat) returns (line: string)
      modifies this
      ensures Snapshot() == Step(old(Snapshot()), UnitUnexpectedSuccess)
      ensures line == UnitResultLine(CHAR_FAILED, "UNEXPECTED SUCCESS: " + methodName, lineno)
    {
      CountFailed();
      line := UnitResultLine(CHAR_FAILED, "UNEXPECTED SUCCESS: " + methodName, lineno);
    }
  }
}
