/** The per-device test listener (listener/CustomTestRunListener.kt): which
    tests failed, the per-failure logcat files, the report file name, the
    report's properties and the two-line failure trace. */
module TestRunListener {
  import opened Common
  import opened Strings
  import opened Utils

  /** ddmlib's `TestIdentifier`. */
  datatype TestId = TestId(className: string, testName: string)

  /** `File(dir, name)` */
  datatype FilePath = FilePath(dir: string, name: string)

  /** The metric key under which ddmlib hands over a test's logcat. */
  const LogcatMetric: string := "ddmlib_logcat"

  // ---------------------------------------------------------------------
  // File names

  /** Name of the XML report of one device, project and flavor. */
  function ResultFileName(deviceName: string, projectName: string, flavorName: string): (r: string)
    ensures NoForbidden(r)
    ensures StartsWith(r, "TEST-") && EndsWith(r, ".xml")
    ensures r == "TEST-" + SanitizeFileName(deviceName + "-" + projectName + "-" + flavorName) + ".xml"
  {
    var middle := deviceName + "-" + projectName + "-" + flavorName;
    assert NoForbidden("TEST-") && NoForbidden(".xml");
    SanitizeFramed("TEST-", middle, ".xml");
    SanitizeFileName("TEST-" + middle + ".xml")
  }

  /** Name of the logcat file kept for a failed test. */
  function LogcatFileName(deviceName: string, projectName: string, flavorName: string, testName: string): (r: string)
    ensures NoForbidden(r)
    ensures StartsWith(r, "LOG-") && EndsWith(r, ".log")
    ensures r == "LOG-" + SanitizeFileName(deviceName + "-" + projectName + "-" + flavorName + "-" + testName) + ".log"
  {
    var middle := deviceName + "-" + projectName + "-" + flavorName + "-" + testName;
    assert NoForbidden("LOG-") && NoForbidden(".log");
    SanitizeFramed("LOG-", middle, ".log");
    SanitizeFileName("LOG-" + middle + ".log")
  }

  /** Neither name can hold a path separator, so each file lands directly
      in the directory it is created in. */
  lemma FileNamesStayInDirectory(deviceName: string, projectName: string, flavorName: string, testName: string)
    ensures '/' !in ResultFileName(deviceName, projectName, flavorName)
    ensures '\\' !in ResultFileName(deviceName, projectName, flavorName)
    ensures '/' !in LogcatFileName(deviceName, projectName, flavorName, testName)
    ensures '\\' !in LogcatFileName(deviceName, projectName, flavorName, testName)
  {
    var a := ResultFileName(deviceName, projectName, flavorName);
    var b := LogcatFileName(deviceName, projectName, flavorName, testName);
    assert forall i | 0 <= i < |a| :: !IsForbidden(a[i]);
    assert forall i | 0 <= i < |b| :: !IsForbidden(b[i]);
  }

  // ---------------------------------------------------------------------
  // Suite name

  /** `getTestSuiteName`: the class of the first recorded test, none when
      nothing was recorded. `results` lists the recorded tests in the
      order ddmlib recorded them. */
  function TestSuiteName(results: seq<TestId>): (r: Option<string>)
    ensures r.None? <==> results == []
    ensures r.Some? ==> exists t | t in results :: t.className == r.value
    ensures results != [] ==> r == Some(results[0].className)
  {
    if results == [] then None else Some(results[0].className)
  }

  // ---------------------------------------------------------------------
  // The failed-test bookkeeping, as a pure transition

  /** The callbacks that touch the failed-test set. */
  datatype Event = Failed(test: TestId) | AssumptionFailure(test: TestId) | Ignored(test: TestId) | Ended(test: TestId)

  /** The failed-test set after one callback. */
  function AfterEvent(failed: set<TestId>, e: Event): (r: set<TestId>)
    ensures e.Failed? ==> r == failed + {e.test}
    ensures e.Ended? ==> r == failed - {e.test}
    ensures e.AssumptionFailure? || e.Ignored? ==> r == failed
  {
    match e
    case Failed(t) => failed + {t}
    case Ended(t) => failed - {t}
    case _ => failed
  }

  function AfterEvents(failed: set<TestId>, events: seq<Event>): set<TestId>
    decreases |events|
  {
    if events == [] then failed else AfterEvents(AfterEvent(failed, events[0]), events[1..])
  }

  /** A failure reported for a test is still pending when that test ends,
      whatever other callbacks arrive in between: `testEnded` then reports
      it as failed. */
  lemma {:induction false} FailurePendingUntilEnded(failed: set<TestId>, t: TestId, between: seq<Event>)
    requires forall k | 0 <= k < |between| :: between[k] != Ended(t)
    ensures t in AfterEvents(failed, [Failed(t)] + between)
  {
    FailureStays(AfterEvent(failed, Failed(t)), t, between);
    assert ([Failed(t)] + between)[1..] == between;
  }

  lemma {:induction false} FailureStays(failed: set<TestId>, t: TestId, events: seq<Event>)
    requires t in failed
    requires forall k | 0 <= k < |events| :: events[k] != Ended(t)
    ensures t in AfterEvents(failed, events)
    decreases |events|
  {
    if events != [] {
      FailureStays(AfterEvent(failed, events[0]), t, events[1..]);
    }
  }

  /** A test for which no failure was reported since it last ended is
      reported as passed: assumption failures and ignores do not count. */
  lemma {:induction false} NoFailureMeansPassed(failed: set<TestId>, t: TestId, events: seq<Event>)
    requires t !in failed
    requires forall k | 0 <= k < |events| :: events[k] != Failed(t)
    ensures t !in AfterEvents(failed, events)
    decreases |events|
  {
    if events != [] {
      NoFailureMeansPassed(AfterEvent(failed, events[0]), t, events[1..]);
    }
  }

  // ---------------------------------------------------------------------
  // The listener

  class Listener {
    const deviceName: string
    const projectName: string
    const flavorName: string
    var logcatDir: Option<string>
    var failedTests: set<TestId>
    /** Logcat files written by `testEnded`, by path. */
    var logFiles: map<FilePath, string>

    constructor(deviceName: string, projectName: string, flavorName: string)
      ensures this.deviceName == deviceName && this.projectName == projectName && this.flavorName == flavorName
      ensures logcatDir == None && failedTests == {} && logFiles == map[]
    {
      this.deviceName := deviceName;
      this.projectName := projectName;
      this.flavorName := flavorName;
      logcatDir := None;
      failedTests := {};
      logFiles := map[];
    }

    /** `setLocatDir` */
    method SetLogcatDir(dir: Option<string>)
      modifies this
      ensures logcatDir == dir
      ensures failedTests == old(failedTests) && logFiles == old(logFiles)
    {
      logcatDir := dir;
    }

    /** `getResultFile` */
    function ResultFile(reportDir: string): (f: FilePath)
      ensures f.dir == reportDir && NoForbidden(f.name)
      ensures f.name == ResultFileName(deviceName, projectName, flavorName)
    {
      FilePath(reportDir, ResultFileName(deviceName, projectName, flavorName))
    }

    /** `getPropertiesAttributes`: the inherited properties with `device`,
        `flavor` and `project` set to this run's values; every other entry
        is kept. */
    function PropertiesAttributes(inherited: map<string, string>): (r: map<string, string>)
      ensures r.Keys == inherited.Keys + {"device", "flavor", "project"}
      ensures r["device"] == deviceName && r["flavor"] == flavorName && r["project"] == projectName
      ensures forall k | k in inherited && k != "device" && k != "flavor" && k != "project" :: r[k] == inherited[k]
    {
      inherited["device" := deviceName]["flavor" := flavorName]["project" := projectName]
    }

    /** `testFailed` */
    method TestFailed(test: TestId)
      modifies this
      ensures failedTests == AfterEvent(old(failedTests), Failed(test))
      ensures logcatDir == old(logcatDir) && logFiles == old(logFiles)
    {
      failedTests := failedTests + {test};
    }

    /** `testAssumptionFailure`: logged only, so the test is not failed. */
    method TestAssumptionFailure(test: TestId)
      modifies this
      ensures failedTests == AfterEvent(old(failedTests), AssumptionFailure(test))
      ensures logcatDir == old(logcatDir) && logFiles == old(logFiles)
    {
    }

    /** `testIgnored`: logged only. */
    method TestIgnored(test: TestId)
      modifies this
      ensures failedTests == AfterEvent(old(failedTests), Ignored(test))
      ensures logcatDir == old(logcatDir) && logFiles == old(logFiles)
    {
    }

    /** `testEnded`: a test passed exactly when no failure is pending for
        it; the pending failure is cleared; a failed test's logcat is
        written when the metric holds non-empty text and a directory is set. */
    method TestEnded(test: TestId, metrics: map<string, Option<string>>) returns (passed: bool)
      modifies this
      ensures passed == (test !in old(failedTests))
      ensures failedTests == AfterEvent(old(failedTests), Ended(test))
      ensures logcatDir == old(logcatDir)
      ensures var logcat := if LogcatMetric in metrics then metrics[LogcatMetric] else None;
              if !passed && logcat.Some? && logcat.value != [] && logcatDir.Some? then
                logFiles == old(logFiles)[FilePath(logcatDir.value,
                                                   LogcatFileName(deviceName, projectName, flavorName, test.testName))
                                          := logcat.value]
              else logFiles == old(logFiles)
    {
      passed := test !in failedTests;
      failedTests := failedTests - {test};
      if !passed {
        var logcat := if LogcatMetric in metrics then metrics[LogcatMetric] else None;
        if logcat.Some? && logcat.value != [] && logcatDir.Some? {
          var file := FilePath(logcatDir.value, LogcatFileName(deviceName, projectName, flavorName, test.testName));
          logFiles := logFiles[file := logcat.value];
        }
      }
    }
  }

  // ---------------------------------------------------------------------
  // The shortened failure trace

  /** Kotlin's `Regex("\n").split(s)`: every piece between newlines,
      trailing empty pieces included. */
  function SplitNewlines(s: string): (r: seq<string>)
    ensures |r| >= 1
    ensures forall i | 0 <= i < |r| :: '\n' !in r[i]
    ensures JoinLines(r) == s
    decreases |s|
  {
    if '\n' !in s then [s]
    else
      var k := IndexOf(s, '\n');
      var rest := SplitNewlines(s[k + 1..]);
      assert s == s[..k] + "\n" + s[k + 1..];
      [s[..k]] + rest
  }

  function IndexOf(s: string, c: char): (k: nat)
    requires c in s
    ensures k < |s| && s[k] == c && c !in s[..k]
  {
    if s[0] == c then 0 else 1 + IndexOf(s[1..], c)
  }

  /** `dropLastWhile { it.isEmpty() }` */
  function DropTrailingEmpty(pieces: seq<string>): (r: seq<string>)
    ensures |r| <= |pieces| && r == pieces[..|r|]
    ensures r != [] ==> r[|r| - 1] != []
    ensures forall k | |r| <= k < |pieces| :: pieces[k] == []
  {
    if pieces == [] then []
    else if pieces[|pieces| - 1] == [] then DropTrailingEmpty(pieces[..|pieces| - 1])
    else pieces
  }

  predicate IsLineBreak(c: char) { c == '\n' || c == '\r' }

  predicate NoLineBreak(s: string) {
    forall i | 0 <= i < |s| :: !IsLineBreak(s[i])
  }

  /** Index of the first line break, or |s| when there is none. */
  function FirstBreak(s: string): (k: nat)
    ensures k <= |s|
    ensures k < |s| ==> IsLineBreak(s[k])
    ensures NoLineBreak(s[..k])
  {
    if s == [] || IsLineBreak(s[0]) then 0 else 1 + FirstBreak(s[1..])
  }

  /** Kotlin's `lines()`: split at `\r\n`, `\n` or `\r`. */
  function Lines(s: string): (r: seq<string>)
    ensures |r| >= 1
    ensures NoLineBreak(s) ==> r == [s]
    decreases |s|
  {
    var k := FirstBreak(s);
    if k == |s| then [s]
    else if s[k] == '\r' && k + 1 < |s| && s[k + 1] == '\n' then [s[..k]] + Lines(s[k + 2..])
    else [s[..k]] + Lines(s[k + 1..])
  }

  /** No line of `lines()` holds a line break. */
  lemma {:induction false} LinesHaveNoBreaks(s: string)
    ensures forall i | 0 <= i < |Lines(s)| :: NoLineBreak(Lines(s)[i])
    decreases |s|
  {
    var k := FirstBreak(s);
    if k < |s| {
      if s[k] == '\r' && k + 1 < |s| && s[k + 1] == '\n' {
        LinesHaveNoBreaks(s[k + 2..]);
      } else {
        LinesHaveNoBreaks(s[k + 1..]);
      }
    }
  }

  /** Index of the first character that is not whitespace, if any. */
  function FirstNonWhitespace(s: string): (r: Option<nat>)
    ensures r.None? ==> IsBlank(s)
    ensures r.Some? ==> r.value < |s| && !IsWhitespace(s[r.value]) && IsBlank(s[..r.value])
  {
    if s == [] then None
    else if !IsWhitespace(s[0]) then Some(0)
    else match FirstNonWhitespace(s[1..])
      case None => None
      case Some(k) => Some(k + 1)
  }

  /** The margin cut of `trimMargin`: the text after `|` when the line's
      first non-blank character is `|`, the line unchanged otherwise. */
  function CutMargin(line: string): string {
    match FirstNonWhitespace(line)
    case Some(k) => if line[k] == '|' then line[k + 1..] else line
    case None => line
  }

  /** The lines that survive: a blank first or last line is dropped. */
  function Reindent(lines: seq<string>, index: nat, last: nat): seq<string>
    decreases |lines|
  {
    if lines == [] then []
    else
      var rest := Reindent(lines[1..], index + 1, last);
      if (index == 0 || index == last) && IsBlank(lines[0]) then rest else [CutMargin(lines[0])] + rest
  }

  function JoinLines(lines: seq<string>): string {
    if lines == [] then []
    else if |lines| == 1 then lines[0]
    else lines[0] + "\n" + JoinLines(lines[1..])
  }

  /** Kotlin's `trimMargin()` with the default `|` margin. A single line is
      dropped when blank and otherwise loses its margin. */
  function TrimMargin(s: string): (r: string)
    ensures NoLineBreak(s) ==> r == if IsBlank(s) then [] else CutMargin(s)
  {
    var lines := Lines(s);
    assert NoLineBreak(s) ==> Reindent(lines, 0, 0) == if IsBlank(s) then [] else [CutMargin(s)] by {
      if NoLineBreak(s) {
        assert lines == [s] && lines[1..] == [];
      }
    }
    JoinLines(Reindent(lines, 0, |lines| - 1))
  }

  const Indent: string := "            "

  /** A raw string shaped like the one of `getModifiedTrace`: a first line
      holding a tab, then three margin lines indented by `indent`. */
  function Template(indent: string, first: string, second: string): string {
    "\t\n" + indent + "|" + first + " \n" + indent + "|" + second + "\n" + indent + "|"
  }

  /** The raw string literal of `getModifiedTrace` with its two lines filled in. */
  function TraceTemplate(first: string, second: string): string {
    Template(Indent, first, second)
  }

  /** `getModifiedTrace`: a trace of one line is kept as it is. */
  function ModifiedTrace(trace: string): (r: string)
    ensures '\n' !in trace ==> r == trace
  {
    var lines := DropTrailingEmpty(SplitNewlines(trace));
    if |lines| < 2 then trace else TrimMargin(TraceTemplate(lines[0], lines[1]))
  }

  /** A break-free head moves the first break right by its length. */
  lemma {:induction false} FirstBreakAfterUnbroken(a: string, b: string)
    requires NoLineBreak(a)
    ensures FirstBreak(a + b) == |a| + FirstBreak(b)
  {
    if a == [] {
      assert a + b == b;
    } else {
      assert (a + b)[0] == a[0];
      assert (a + b)[1..] == a[1..] + b;
      FirstBreakAfterUnbroken(a[1..], b);
    }
  }

  /** A blank head moves the first non-blank character right by its length. */
  lemma {:induction false} FirstNonWhitespaceAfterBlank(a: string, b: string)
    requires IsBlank(a)
    ensures FirstNonWhitespace(a + b) == match FirstNonWhitespace(b)
                                         case Some(k) => Some(|a| + k)
                                         case None => None
  {
    if a == [] {
      assert a + b == b;
    } else {
      assert (a + b)[0] == a[0];
      assert (a + b)[1..] == a[1..] + b;
      FirstNonWhitespaceAfterBlank(a[1..], b);
    }
  }

  lemma LinesCons(a: string, b: string)
    requires NoLineBreak(a)
    ensures Lines(a + "\n" + b) == [a] + Lines(b)
  {
    var s := a + "\n" + b;
    assert s == a + ("\n" + b);
    FirstBreakAfterUnbroken(a, "\n" + b);
    assert FirstBreak("\n" + b) == 0;
    var k := FirstBreak(s);
    assert k == |a|;
    assert s[k] == '\n';
    assert s[..k] == a;
    assert s[k + 1..] == b;
  }

  lemma CutIndentedMargin(indent: string, text: string)
    requires IsBlank(indent)
    ensures CutMargin(indent + "|" + text) == text
  {
    var line := indent + "|" + text;
    assert line == indent + ("|" + text);
    FirstNonWhitespaceAfterBlank(indent, "|" + text);
    assert FirstNonWhitespace("|" + text) == Some(0);
    assert FirstNonWhitespace(line) == Some(|indent|);
    assert line[|indent|] == '|';
    assert line[|indent| + 1..] == text;
  }

  lemma NoLineBreakConcat(a: string, b: string)
    requires NoLineBreak(a) && NoLineBreak(b)
    ensures NoLineBreak(a + b)
  {
    assert forall i | 0 <= i < |a + b| :: (a + b)[i] == if i < |a| then a[i] else b[i - |a|];
  }

  /** The raw string regrouped as the tab line and three margin lines. */
  lemma TemplateShape(indent: string, first: string, second: string)
    ensures Template(indent, first, second)
            == "\t" + "\n" + ((indent + "|" + (first + " ")) + "\n" + ((indent + "|" + second) + "\n" + (indent + "|" + [])))
  {
    assert indent + "|" + [] == indent + "|";
  }

  /** Three break-free lines joined by newlines split back into those lines. */
  lemma LinesOfThree(a: string, b: string, c: string)
    requires NoLineBreak(a) && NoLineBreak(b) && NoLineBreak(c)
    ensures Lines(a + "\n" + (b + "\n" + c)) == [a, b, c]
  {
    LinesCons(b, c);
    LinesCons(a, b + "\n" + c);
  }

  /** The same for four lines. */
  lemma LinesOfFour(t: string, a: string, b: string, c: string)
    requires NoLineBreak(t) && NoLineBreak(a) && NoLineBreak(b) && NoLineBreak(c)
    ensures Lines(t + "\n" + (a + "\n" + (b + "\n" + c))) == [t, a, b, c]
  {
    var rest := a + "\n" + (b + "\n" + c);
    assert Lines(rest) == [a, b, c] by { LinesOfThree(a, b, c); }
    assert Lines(t + "\n" + rest) == [t] + Lines(rest) by { LinesCons(t, rest); }
    assert [t] + [a, b, c] == [t, a, b, c];
  }

  /** The four lines of the raw string: the tab line and three margin lines. */
  lemma TemplateLines(indent: string, first: string, second: string)
    requires NoLineBreak(indent) && NoLineBreak(first) && NoLineBreak(second)
    ensures Lines(Template(indent, first, second))
            == ["\t", indent + "|" + (first + " "), indent + "|" + second, indent + "|" + []]
  {
    assert NoLineBreak("|") && NoLineBreak(" ") && NoLineBreak([]) && NoLineBreak("\t");
    NoLineBreakConcat(indent, "|");
    NoLineBreakConcat(first, " ");
    NoLineBreakConcat(indent + "|", first + " ");
    NoLineBreakConcat(indent + "|", second);
    NoLineBreakConcat(indent + "|", []);
    TemplateShape(indent, first, second);
    LinesOfFour("\t", indent + "|" + (first + " "), indent + "|" + second, indent + "|" + []);
  }

  /** `trimMargin` drops the blank tab line and cuts the three margins. */
  lemma TrimTemplate(indent: string, first: string, second: string)
    requires IsBlank(indent) && NoLineBreak(indent) && NoLineBreak(first) && NoLineBreak(second)
    ensures TrimMargin(Template(indent, first, second)) == first + " \n" + second + "\n"
  {
    var ls := ["\t", indent + "|" + (first + " "), indent + "|" + second, indent + "|" + []];
    TemplateLines(indent, first, second);
    TemplateCuts(indent, first, second);
    ReindentTemplateLines(ls, first + " ", second);
    JoinTwoEnded(first + " ", second);
    TrimMarginOfFour(Template(indent, first, second), ls, first + " ", second);
    SpaceBeforeNewline(first, second);
  }

  /** The trailing space of the first line joins the line feed after it. */
  lemma SpaceBeforeNewline(a: string, b: string)
    ensures (a + " ") + "\n" + b + "\n" == a + " \n" + b + "\n"
  {
    assert (a + " ") + "\n" == a + " \n";
  }

  /** `trimMargin` of a text of four lines that reindent to two lines and
      an empty last one. */
  lemma TrimMarginOfFour(s: string, ls: seq<string>, a: string, b: string)
    requires Lines(s) == ls && |ls| == 4 && Reindent(ls, 0, 3) == [a, b, []]
    requires JoinLines([a, b, []]) == a + "\n" + b + "\n"
    ensures TrimMargin(s) == a + "\n" + b + "\n"
  {
  }

  /** The margin cut of the three margin lines; the last is not blank. */
  lemma TemplateCuts(indent: string, first: string, second: string)
    requires IsBlank(indent)
    ensures CutMargin(indent + "|" + (first + " ")) == first + " "
    ensures CutMargin(indent + "|" + second) == second
    ensures !IsBlank(indent + "|" + []) && CutMargin(indent + "|" + []) == []
  {
    CutIndentedMargin(indent, first + " ");
    CutIndentedMargin(indent, second);
    assert (indent + "|" + [])[|indent|] == '|';
    CutIndentedMargin(indent, []);
  }

  /** The four lines of the raw string after the margin cut: the blank tab
      line goes, the three margin lines lose their margins. */
  lemma ReindentTemplateLines(ls: seq<string>, a: string, b: string)
    requires |ls| == 4 && ls[0] == "\t" && !IsBlank(ls[3])
    requires CutMargin(ls[1]) == a && CutMargin(ls[2]) == b && CutMargin(ls[3]) == []
    ensures Reindent(ls, 0, 3) == [a, b, []]
  {
    assert IsBlank("\t");
    assert Reindent(ls[3..], 3, 3) == [[]];
    assert Reindent(ls[2..], 2, 3) == [b, []];
    assert Reindent(ls[1..], 1, 3) == [a, b, []];
  }

  lemma JoinTwoEnded(a: string, b: string)
    ensures JoinLines([a, b, []]) == a + "\n" + b + "\n"
  {
    var out: seq<string> := [a, b, []];
    assert out[1..] == [b, []] && out[1..][1..] == [[]];
    assert JoinLines(out[1..]) == b + "\n" + [];
  }

  /** When the trace's first two lines hold no carriage return, the result
      is those two lines, the first with a trailing space, each ended by a
      newline: the raw string's blank first line and its margins are gone. */
  lemma ModifiedTraceKeepsTwoLines(trace: string)
    requires var lines := DropTrailingEmpty(SplitNewlines(trace));
             |lines| >= 2 && NoLineBreak(lines[0]) && NoLineBreak(lines[1])
    ensures var lines := DropTrailingEmpty(SplitNewlines(trace));
            ModifiedTrace(trace) == lines[0] + " \n" + lines[1] + "\n"
  {
    var lines := DropTrailingEmpty(SplitNewlines(trace));
    IndentIsBlank();
    TrimTemplate(Indent, lines[0], lines[1]);
  }

  /** The margin indent of the raw string is blank and on one line. */
  lemma IndentIsBlank()
    ensures IsBlank(Indent) && NoLineBreak(Indent)
  {
    assert forall i | 0 <= i < |Indent| :: Indent[i] == ' ';
  }

  /** Two traces that agree on their first two lines are shortened alike:
      nothing after the second line reaches the result. */
  lemma ModifiedTraceUsesFirstTwoLines(t1: string, t2: string)
    requires var l1, l2 := DropTrailingEmpty(SplitNewlines(t1)), DropTrailingEmpty(SplitNewlines(t2));
             |l1| >= 2 && |l2| >= 2 && l1[..2] == l2[..2]
    ensures ModifiedTrace(t1) == ModifiedTrace(t2)
  {
    var l1, l2 := DropTrailingEmpty(SplitNewlines(t1)), DropTrailingEmpty(SplitNewlines(t2));
    assert l1[0] == l1[..2][0] && l1[1] == l1[..2][1];
    assert l2[0] == l2[..2][0] && l2[1] == l2[..2][1];
  }
}
