/** Reading adb's answers and the device-side steps built on them
    (helpers/AdbHelper.kt).

    Every adb command is an oracle: its output lines (or its failure) are
    inputs of the model. A poll that asks again in a later round receives
    the answer for that round. */
module AdbHelper {
  import opened Common
  import opened Strings

  // ---------------------------------------------------------------------
  // findSerials

  /** A line of `adb devices` names `serial`: it mentions "emulator" and
      `serial` is its text before the first tab. */
  predicate ListsSerial(line: string, serial: string) {
    Contains(line, "emulator") && SubstringBefore(line, '\t') == serial
  }

  /** `lines.filter { it.contains("emulator") }.map { it.split('\t').first() }` */
  function SerialColumn(lines: seq<string>): (r: seq<string>)
    ensures forall s :: s in r <==> exists i | 0 <= i < |lines| :: ListsSerial(lines[i], s)
  {
    if lines == [] then []
    else
      var rest := SerialColumn(lines[1..]);
      assert forall i | 1 <= i < |lines| :: lines[i] == lines[1..][i - 1];
      if Contains(lines[0], "emulator") then [SubstringBefore(lines[0], '\t')] + rest else rest
  }

  /** `toSet()`: a LinkedHashSet, so first occurrences in their order. */
  function Distinct(xs: seq<string>): (r: seq<string>)
    ensures forall x :: x in r <==> x in xs
    ensures forall i, j | 0 <= i < j < |r| :: r[i] != r[j]
  {
    if xs == [] then []
    else
      var rest := Distinct(xs[..|xs| - 1]);
      assert xs == xs[..|xs| - 1] + [xs[|xs| - 1]];
      if xs[|xs| - 1] in rest then rest else rest + [xs[|xs| - 1]]
  }

  /** `findSerials`: the serials of the running emulators, once each. */
  function FindSerials(adbDevices: seq<string>): (r: seq<string>)
    ensures forall s :: s in r <==> exists i | 0 <= i < |adbDevices| :: ListsSerial(adbDevices[i], s)
    ensures forall i, j | 0 <= i < j < |r| :: r[i] != r[j]
  {
    Distinct(SerialColumn(adbDevices))
  }

  /** `filter` and `map` keep the order of the lines: a line appended to
      the output adds its serial, if it has one, at the end. */
  lemma {:induction false} SerialColumnSnoc(lines: seq<string>, line: string)
    ensures SerialColumn(lines + [line])
            == SerialColumn(lines) + (if Contains(line, "emulator") then [SubstringBefore(line, '\t')] else [])
  {
    if lines == [] {
      assert lines + [line] == [line];
      assert [line][1..] == [];
    } else {
      assert (lines + [line])[0] == lines[0];
      assert (lines + [line])[1..] == lines[1..] + [line];
      SerialColumnSnoc(lines[1..], line);
    }
  }

  /** Index of the first occurrence of `x` in `xs`, or `|xs|` when there is none. */
  ghost function FirstIndex(xs: seq<string>, x: string): (k: nat)
    ensures k <= |xs|
    ensures forall j | 0 <= j < k :: xs[j] != x
    ensures k < |xs| ==> xs[k] == x
  {
    if xs == [] || xs[0] == x then 0
    else 1 + FirstIndex(xs[1..], x)
  }

  /** The first occurrences in a prefix are the first occurrences in the whole. */
  lemma FirstIndexSnoc(p: seq<string>, x: string, y: string)
    ensures y in p ==> FirstIndex(p + [x], y) == FirstIndex(p, y) < |p|
    ensures y !in p && y == x ==> FirstIndex(p + [x], y) == |p|
  {
    var xs := p + [x];
    var g := FirstIndex(p, y);
    if y in p {
      assert xs[g] == p[g];
    } else if y == x {
      assert xs[|p|] == x;
    }
  }

  /** `toSet()` keeps the elements in the order of their first occurrences. */
  lemma {:induction false} DistinctInFirstOrder(xs: seq<string>)
    ensures forall i, j | 0 <= i < j < |Distinct(xs)|
              :: FirstIndex(xs, Distinct(xs)[i]) < FirstIndex(xs, Distinct(xs)[j])
  {
    if xs != [] {
      var p := xs[..|xs| - 1];
      var x := xs[|xs| - 1];
      assert xs == p + [x];
      DistinctInFirstOrder(p);
      var rp := Distinct(p);
      var r := Distinct(xs);
      assert r == if x in rp then rp else rp + [x];
      forall i, j | 0 <= i < j < |r|
        ensures FirstIndex(xs, r[i]) < FirstIndex(xs, r[j])
      {
        assert r[i] == rp[i] && rp[i] in rp;
        FirstIndexSnoc(p, x, rp[i]);
        if j < |rp| {
          assert r[j] == rp[j] && rp[j] in rp;
          FirstIndexSnoc(p, x, rp[j]);
        } else {
          assert r[j] == x;
          FirstIndexSnoc(p, x, x);
        }
      }
    }
  }

  /** A line appended to `adb devices` adds its serial at the end, unless
      an earlier line already listed it. */
  lemma FindSerialsSnoc(lines: seq<string>, line: string)
    ensures FindSerials(lines + [line])
            == if Contains(line, "emulator") && SubstringBefore(line, '\t') !in FindSerials(lines)
               then FindSerials(lines) + [SubstringBefore(line, '\t')]
               else FindSerials(lines)
  {
    SerialColumnSnoc(lines, line);
    if Contains(line, "emulator") {
      var c := SerialColumn(lines) + [SubstringBefore(line, '\t')];
      assert c[..|c| - 1] == SerialColumn(lines);
      assert SerialColumn(lines + [line]) == c;
    } else {
      assert SerialColumn(lines + [line]) == SerialColumn(lines) + [] == SerialColumn(lines);
    }
  }

  /** Index of the first line of `adb devices` that lists `serial`, or
      `|lines|` when none does. */
  ghost function FirstListing(lines: seq<string>, serial: string): (k: nat)
    ensures k <= |lines|
    ensures forall j | 0 <= j < k :: !ListsSerial(lines[j], serial)
    ensures k < |lines| ==> ListsSerial(lines[k], serial)
  {
    if lines == [] || ListsSerial(lines[0], serial) then 0
    else 1 + FirstListing(lines[1..], serial)
  }

  /** A serial is found exactly when some line lists it. */
  lemma FirstListingFound(lines: seq<string>, s: string)
    ensures s in FindSerials(lines) <==> FirstListing(lines, s) < |lines|
  {
  }

  /** A line appended to the output leaves every earlier first listing
      where it was. */
  lemma FirstListingSnoc(p: seq<string>, line: string, s: string)
    ensures FirstListing(p + [line], s)
            == if FirstListing(p, s) < |p| then FirstListing(p, s)
               else if ListsSerial(line, s) then |p| else |p| + 1
  {
    var lines := p + [line];
    var g := FirstListing(p, s);
    assert lines[|p|] == line;
    if g < |p| {
      assert lines[g] == p[g];
    }
  }

  /** `findSerials` gives the serials in the order of the first line that
      lists each: this is the order in which `getEmulatorSerial` tries them. */
  lemma {:induction false} FindSerialsInListingOrder(lines: seq<string>)
    ensures forall i, j | 0 <= i < j < |FindSerials(lines)|
              :: FirstListing(lines, FindSerials(lines)[i]) < FirstListing(lines, FindSerials(lines)[j])
  {
    if lines != [] {
      var p := lines[..|lines| - 1];
      var line := lines[|lines| - 1];
      assert lines == p + [line];
      FindSerialsInListingOrder(p);
      FindSerialsSnoc(p, line);
      var rp := FindSerials(p);
      var r := FindSerials(lines);
      var s := SubstringBefore(line, '\t');
      forall i, j | 0 <= i < j < |r|
        ensures FirstListing(lines, r[i]) < FirstListing(lines, r[j])
      {
        assert r[i] == rp[i] && rp[i] in rp;
        FirstListingFound(p, rp[i]);
        FirstListingSnoc(p, line, rp[i]);
        if j < |rp| {
          assert r[j] == rp[j] && rp[j] in rp;
          FirstListingFound(p, rp[j]);
          FirstListingSnoc(p, line, rp[j]);
        } else {
          assert r[j] == s && s !in rp && ListsSerial(line, s);
          FirstListingFound(p, s);
          FirstListingSnoc(p, line, s);
        }
      }
    }
  }

  /** A window equal to `sub` carries every character of `sub`. */
  lemma ContainsChar(s: string, sub: string, c: char)
    ensures Contains(s, sub) && c in sub ==> c in s
  {
    if Contains(s, sub) && c in sub {
      var i :| 0 <= i <= |s| - |sub| && OccursAt(s, sub, i);
      var k :| 0 <= k < |sub| && sub[k] == c;
      assert s[i + k] == s[i..i + |sub|][k];
    }
  }

  /** The header `List of devices attached` yields no serial, and an
      `emulator-<port>\tdevice` line yields `emulator-<port>`. */
  lemma DevicesListing(header: string, serial: string, state: string)
    requires header == "List of devices attached"
    requires StartsWith(serial, "emulator") && '\t' !in serial
    ensures FindSerials([header, serial + "\t" + state]) == [serial]
  {
    ContainsChar(header, "emulator", 'm');
    assert !Contains(header, "emulator");
    var line := serial + "\t" + state;
    assert line == serial + ("\t" + state);
    assert line[0..8] == serial[0..8];
    assert OccursAt(line, "emulator", 0);
    SubstringBeforeStops(serial, '\t', "\t" + state);
    var single: seq<string> := [line];
    assert single[1..] == [];
    assert SerialColumn(single[1..]) == [];
    assert Contains(single[0], "emulator") && SubstringBefore(single[0], '\t') == serial;
    assert SerialColumn(single) == [serial];
    assert [header, line][1..] == single;
    assert SerialColumn([header, line]) == [serial];
    assert Distinct([serial]) == [serial];
  }

  /** The text before the first separator of `a + b` is `a` when `a` lacks
      the separator and `b` starts with it. */
  lemma {:induction false} SubstringBeforeStops(a: string, sep: char, b: string)
    requires sep !in a && |b| > 0 && b[0] == sep
    ensures SubstringBefore(a + b, sep) == a
  {
    if a == [] {
      assert a + b == b;
    } else {
      assert (a + b)[1..] == a[1..] + b;
      SubstringBeforeStops(a[1..], sep, b);
    }
  }

  // ---------------------------------------------------------------------
  // getTargetInstrumentation

  const Orchestrator: string := "androidx.test.orchestrator/.AndroidTestOrchestrator"

  /** `it.removePrefix("instrumentation:").split(" ").first()` */
  function InstrumentationName(line: string): (r: string)
    ensures ' ' !in r
  {
    SubstringBefore(RemovePrefix(line, "instrumentation:"), ' ')
  }

  /** `getTargetInstrumentation` over the lines of `pm list instrumentation`:
      lines naming the orchestrator are dropped, the first remaining one is
      cut to its component name, and no remaining line gives null. */
  function GetTargetInstrumentation(lines: seq<string>): (r: Option<string>)
    ensures r.None? <==> forall i | 0 <= i < |lines| :: Contains(lines[i], Orchestrator)
  {
    if lines == [] then None
    else if Contains(lines[0], Orchestrator) then
      assert forall i | 1 <= i < |lines| :: lines[i] == lines[1..][i - 1];
      GetTargetInstrumentation(lines[1..])
    else Some(InstrumentationName(lines[0]))
  }

  /** Index of the first line that does not name the orchestrator. */
  function FirstNonOrchestrator(lines: seq<string>): (k: nat)
    ensures k <= |lines|
    ensures forall j | 0 <= j < k :: Contains(lines[j], Orchestrator)
    ensures k < |lines| ==> !Contains(lines[k], Orchestrator)
  {
    if lines == [] || !Contains(lines[0], Orchestrator) then 0
    else 1 + FirstNonOrchestrator(lines[1..])
  }

  /** The selected instrumentation comes from the first line that is not the
      orchestrator's, so it never comes from an orchestrator line. */
  lemma {:induction false} TargetIsFirstNonOrchestrator(lines: seq<string>)
    ensures var k := FirstNonOrchestrator(lines);
            GetTargetInstrumentation(lines)
              == if k < |lines| then Some(InstrumentationName(lines[k])) else None
  {
    if lines != [] && Contains(lines[0], Orchestrator) {
      TargetIsFirstNonOrchestrator(lines[1..]);
    }
  }

  // ---------------------------------------------------------------------
  // removeExistingTestTarget and installApk

  /** `instrumentation.split("/").first()`: the test package to uninstall. */
  function TestTarget(instrumentation: string): (r: string)
    ensures '/' !in r
  {
    SubstringBefore(instrumentation, '/')
  }

  /** The package a `pm list instrumentation` line belongs to. */
  function PackageOfLine(line: string): string {
    TestTarget(InstrumentationName(line))
  }

  /** The instrumentation lines left once `package` is uninstalled. */
  function WithoutPackage(lines: seq<string>, package: string): (r: seq<string>)
    ensures |r| <= |lines|
    ensures forall l :: l in r <==> l in lines && PackageOfLine(l) != package
  {
    if lines == [] then []
    else
      var rest := WithoutPackage(lines[1..], package);
      assert lines == [lines[0]] + lines[1..];
      if PackageOfLine(lines[0]) == package then rest else [lines[0]] + rest
  }

  lemma {:induction false} WithoutPackageShrinks(lines: seq<string>, package: string, k: nat)
    requires k < |lines| && PackageOfLine(lines[k]) == package
    ensures |WithoutPackage(lines, package)| < |lines|
  {
    if k > 0 {
      assert lines[1..][k - 1] == lines[k];
      WithoutPackageShrinks(lines[1..], package, k - 1);
    }
  }

  /** Uninstalling the target of the selected instrumentation removes at
      least the line it was selected from. */
  lemma UninstallTargetShrinks(lines: seq<string>)
    requires GetTargetInstrumentation(lines).Some?
    ensures |WithoutPackage(lines, TestTarget(GetTargetInstrumentation(lines).value))| < |lines|
  {
    TargetIsFirstNonOrchestrator(lines);
    WithoutPackageShrinks(lines, TestTarget(GetTargetInstrumentation(lines).value), FirstNonOrchestrator(lines));
  }

  /** No instrumentation left that `removeExistingTestTarget` would act on. */
  predicate NoTestTarget(lines: seq<string>) {
    GetTargetInstrumentation(lines).None? || IsBlank(GetTargetInstrumentation(lines).value)
  }

  /** The packages `removeExistingTestTarget` uninstalls, in order: the
      selected target's package, then those of what is listed afterwards. */
  function RemovalTargets(lines: seq<string>): (r: seq<string>)
    ensures r == [] <==> NoTestTarget(lines)
    ensures r != [] ==> r[0] == TestTarget(GetTargetInstrumentation(lines).value)
    ensures forall j | 0 <= j < |r| :: '/' !in r[j]
    decreases |lines|
  {
    if NoTestTarget(lines) then []
    else
      var target := TestTarget(GetTargetInstrumentation(lines).value);
      UninstallTargetShrinks(lines);
      [target] + RemovalTargets(WithoutPackage(lines, target))
  }

  /** What `pm list instrumentation` prints once `removeExistingTestTarget`
      has returned. */
  function AfterRemoval(lines: seq<string>): (r: seq<string>)
    ensures NoTestTarget(r)
    ensures |r| <= |lines|
    ensures NoTestTarget(lines) ==> r == lines
    decreases |lines|
  {
    if NoTestTarget(lines) then lines
    else
      var target := TestTarget(GetTargetInstrumentation(lines).value);
      UninstallTargetShrinks(lines);
      AfterRemoval(WithoutPackage(lines, target))
  }

  /** One round of the removal loop: the selected target's package goes
      first, and what remains is removed from what is listed afterwards. */
  lemma RemovalStep(lines: seq<string>, done: seq<string>)
    requires !NoTestTarget(lines)
    ensures var target := TestTarget(GetTargetInstrumentation(lines).value);
            && |WithoutPackage(lines, target)| < |lines|
            && RemovalTargets(lines) == [target] + RemovalTargets(WithoutPackage(lines, target))
            && (done + [target]) + RemovalTargets(WithoutPackage(lines, target)) == done + RemovalTargets(lines)
            && AfterRemoval(lines) == AfterRemoval(WithoutPackage(lines, target))
  {
    UninstallTargetShrinks(lines);
    var target := TestTarget(GetTargetInstrumentation(lines).value);
    assert (done + [target]) + RemovalTargets(WithoutPackage(lines, target))
           == done + ([target] + RemovalTargets(WithoutPackage(lines, target)));
  }

  /** Removing once more finds nothing left to remove. */
  lemma AfterRemovalIdempotent(lines: seq<string>)
    ensures AfterRemoval(AfterRemoval(lines)) == AfterRemoval(lines)
    ensures RemovalTargets(AfterRemoval(lines)) == []
  {
  }

  datatype DeviceCommand = Uninstall(package: string) | Install(apk: string)

  /** The device as adb sees it: what `pm list instrumentation` prints, and
      every test-target uninstall and APK install sent to it, in order
      (the orchestrator's own uninstalls and installs are not recorded). */
  class Device {
    var instrumentations: seq<string>
    var commands: seq<DeviceCommand>

    constructor(listed: seq<string>)
      ensures instrumentations == listed && commands == []
    {
      instrumentations := listed;
      commands := [];
    }

    /** `adb uninstall <package>`: the package's instrumentations disappear. */
    method Uninstall(package: string)
      modifies this
      ensures instrumentations == WithoutPackage(old(instrumentations), package)
      ensures commands == old(commands) + [DeviceCommand.Uninstall(package)]
    {
      instrumentations := WithoutPackage(instrumentations, package);
      commands := commands + [DeviceCommand.Uninstall(package)];
    }

    /** `removeExistingTestTarget`: look up the target instrumentation and
        uninstall its package until the lookup yields null or blank. */
    method RemoveExistingTestTarget()
      modifies this
      ensures instrumentations == AfterRemoval(old(instrumentations))
      ensures commands == old(commands) + Uninstalls(RemovalTargets(old(instrumentations)))
    {
      ghost var done: seq<string> := [];
      while true
        invariant done + RemovalTargets(instrumentations) == RemovalTargets(old(instrumentations))
        invariant AfterRemoval(instrumentations) == AfterRemoval(old(instrumentations))
        invariant commands == old(commands) + Uninstalls(done)
        decreases |instrumentations|
      {
        var instrumentation := GetTargetInstrumentation(instrumentations);
        if instrumentation.None? || IsBlank(instrumentation.value) {
          assert NoTestTarget(instrumentations);
          assert done == RemovalTargets(old(instrumentations)) by {
            assert RemovalTargets(instrumentations) == [];
            assert done + [] == done;
          }
          break;
        }
        var target := TestTarget(instrumentation.value);
        ghost var rest := WithoutPackage(instrumentations, target);
        assert && |rest| < |instrumentations|
               && (done + [target]) + RemovalTargets(rest) == RemovalTargets(old(instrumentations))
               && AfterRemoval(rest) == AfterRemoval(old(instrumentations)) by {
          RemovalStep(instrumentations, done);
        }
        Uninstall(target);
        assert commands == old(commands) + Uninstalls(done + [target]) by {
          UninstallsSnoc(done, target);
          AppendThree(old(commands), Uninstalls(done), [DeviceCommand.Uninstall(target)]);
        }
        done := done + [target];
      }
    }

    /** `installApk`: the test target is removed before the install is sent;
        `accepted` is whether adb's install succeeds, and `declared` the
        instrumentations the installed APK declares. */
    method InstallApk(apk: string, accepted: bool, declared: seq<string>) returns (r: Result<()>)
      modifies this
      ensures commands == old(commands) + Uninstalls(RemovalTargets(old(instrumentations))) + [Install(apk)]
      ensures instrumentations == AfterRemoval(old(instrumentations)) + (if accepted then declared else [])
      ensures r == if accepted then Ok(()) else Err(CommandFailed)
    {
      RemoveExistingTestTarget();
      commands := commands + [Install(apk)];
      if !accepted {
        return Err(CommandFailed);
      }
      instrumentations := instrumentations + declared;
      return Ok(());
    }
  }

  /** The uninstall commands for `packages`, in order. */
  function Uninstalls(packages: seq<string>): seq<DeviceCommand> {
    seq(|packages|, j requires 0 <= j < |packages| => DeviceCommand.Uninstall(packages[j]))
  }

  lemma UninstallsSnoc(packages: seq<string>, p: string)
    ensures Uninstalls(packages + [p]) == Uninstalls(packages) + [DeviceCommand.Uninstall(p)]
  {
  }

  /** `installApk` sends every uninstall before the install, the first of
      them for the package of the target that was installed before. */
  lemma InstallComesLast(before: seq<string>, apk: string)
    ensures var sent := Uninstalls(RemovalTargets(before)) + [Install(apk)];
            && sent[|sent| - 1] == Install(apk)
            && (forall j | 0 <= j < |sent| - 1 :: sent[j].Uninstall?)
            && (!NoTestTarget(before) ==>
                  sent[0] == DeviceCommand.Uninstall(TestTarget(GetTargetInstrumentation(before).value)))
  {
  }

  // ---------------------------------------------------------------------
  // getEmulatorSerial: the connection gate

  /** `lines.firstOrNull()?.removeSuffix("OK\r\n") ?: ""` */
  function AvdNameOf(output: seq<string>): (r: string)
    ensures output == [] ==> r == []
    ensures output != [] && EndsWith(output[0], "OK\r\n") ==> r + "OK\r\n" == output[0]
    ensures output != [] && !EndsWith(output[0], "OK\r\n") ==> r == output[0]
  {
    if output == [] then "" else RemoveSuffix(output[0], "OK\r\n")
  }

  /** A line read by a line reader holds no line feed, so the suffix
      removal never changes the first line. */
  lemma AvdNameIsFirstLine(output: seq<string>)
    requires output != [] && '\n' !in output[0]
    ensures AvdNameOf(output) == output[0]
  {
    RemoveSuffixAbsent(output[0], "OK\r\n", '\n');
  }

  /** A rejected head extends a rejected prefix of the tail by one. */
  lemma RejectedPrefixCons(deviceName: string, avdName: string -> Option<seq<string>>, serials: seq<string>, i: nat)
    requires 0 <= i < |serials| - 1 && Rejected(deviceName, avdName, serials[0])
    requires forall j | 0 <= j < i :: Rejected(deviceName, avdName, serials[1..][j])
    ensures forall j | 0 <= j < i + 1 :: Rejected(deviceName, avdName, serials[j])
  {
    forall j | 0 <= j < i + 1 ensures Rejected(deviceName, avdName, serials[j]) {
      if j > 0 { assert serials[j] == serials[1..][j - 1]; }
    }
  }

  /** Serial `s` answered `emu avd name` with a name other than the device's. */
  predicate Rejected(deviceName: string, avdName: string -> Option<seq<string>>, s: string) {
    avdName(s).Some? && !EqualsIgnoreCase(deviceName, AvdNameOf(avdName(s).value))
  }

  /** One round's `serials.firstOrNull { ... }`: the first serial whose
      `emu avd name` equals the device name ignoring case; a failing
      `emu avd name` command (None) aborts the search. */
  function FirstNamed(deviceName: string, serials: seq<string>, avdName: string -> Option<seq<string>>)
    : (r: Result<Option<string>>)
    ensures r.Err? ==> r.error == CommandFailed
    ensures r.Ok? && r.value.Some? ==>
              r.value.value in serials && avdName(r.value.value).Some?
              && EqualsIgnoreCase(deviceName, AvdNameOf(avdName(r.value.value).value))
    ensures r == Ok(None) ==> forall s | s in serials :: Rejected(deviceName, avdName, s)
  {
    if serials == [] then Ok(None)
    else
      match avdName(serials[0])
      case None => Err(CommandFailed)
      case Some(output) =>
        if EqualsIgnoreCase(deviceName, AvdNameOf(output)) then Ok(Some(serials[0]))
        else FirstNamed(deviceName, serials[1..], avdName)
  }

  /** The search stops at the first serial that is not rejected: it fails
      there when that serial's command failed, returns it when its name
      matches, and finds nothing only when every serial is rejected. */
  lemma {:induction false} FirstNamedIsFirst(deviceName: string, serials: seq<string>,
                                             avdName: string -> Option<seq<string>>)
    ensures var r := FirstNamed(deviceName, serials, avdName);
            r.Err? ==>
              exists i | 0 <= i < |serials| ::
                avdName(serials[i]).None? && forall j | 0 <= j < i :: Rejected(deviceName, avdName, serials[j])
    ensures var r := FirstNamed(deviceName, serials, avdName);
            r.Ok? && r.value.Some? ==>
              exists i | 0 <= i < |serials| ::
                && serials[i] == r.value.value && avdName(serials[i]).Some?
                && EqualsIgnoreCase(deviceName, AvdNameOf(avdName(serials[i]).value))
                && forall j | 0 <= j < i :: Rejected(deviceName, avdName, serials[j])
    ensures (forall s | s in serials :: Rejected(deviceName, avdName, s))
            ==> FirstNamed(deviceName, serials, avdName) == Ok(None)
  {
    if serials != [] {
      var r := FirstNamed(deviceName, serials, avdName);
      if !Rejected(deviceName, avdName, serials[0]) {
        assert r.Err? || r.value.Some?;
        assert serials[0] in serials;
      } else {
        var tail := serials[1..];
        FirstNamedIsFirst(deviceName, tail, avdName);
        assert r == FirstNamed(deviceName, tail, avdName);
        if r.Err? {
          var i :| 0 <= i < |tail| && avdName(tail[i]).None?
                   && forall j | 0 <= j < i :: Rejected(deviceName, avdName, tail[j]);
          assert serials[i + 1] == tail[i];
          RejectedPrefixCons(deviceName, avdName, serials, i);
        } else if r.value.Some? {
          var i :| 0 <= i < |tail| && tail[i] == r.value.value && avdName(tail[i]).Some?
                   && EqualsIgnoreCase(deviceName, AvdNameOf(avdName(tail[i]).value))
                   && forall j | 0 <= j < i :: Rejected(deviceName, avdName, tail[j]);
          assert serials[i + 1] == tail[i];
          RejectedPrefixCons(deviceName, avdName, serials, i);
        }
        assert (forall s | s in serials :: Rejected(deviceName, avdName, s))
               ==> forall s | s in tail :: Rejected(deviceName, avdName, s);
      }
    }
  }

  /** What round `k` of the connection gate finds: `adbDevices(k)` is the
      answer of `adb devices` in that round (None if the command
      fails) and `avdName(k, s)` that of `adb -s s emu avd name`. */
  function SerialRound(deviceName: string, adbDevices: nat -> Option<seq<string>>,
                       avdName: (nat, string) -> Option<seq<string>>, k: nat): (r: Result<Option<string>>)
    ensures adbDevices(k).None? ==> r == Err(CommandFailed)
    ensures r.Ok? && r.value.Some? ==> adbDevices(k).Some? && r.value.value in FindSerials(adbDevices(k).value)
    ensures adbDevices(k).Some? && FindSerials(adbDevices(k).value) == [] ==> r == Ok(None)
  {
    match adbDevices(k)
    case None => Err(CommandFailed)
    case Some(lines) => FirstNamed(deviceName, FindSerials(lines), s => avdName(k, s))
  }

  const SerialRounds: nat := 60

  /** `getEmulatorSerial`: at most 60 rounds; the first round that finds a
      matching serial returns it, a failing command aborts, and 60 empty
      rounds end in IllegalStateException. `waited` counts the empty rounds. */
  method GetEmulatorSerial(deviceName: string, adbDevices: nat -> Option<seq<string>>,
                           avdName: (nat, string) -> Option<seq<string>>)
    returns (r: Result<string>, waited: nat)
    ensures waited <= SerialRounds
    ensures forall k | 0 <= k < waited :: SerialRound(deviceName, adbDevices, avdName, k) == Ok(None)
    ensures r.Ok? ==> waited < SerialRounds
                      && SerialRound(deviceName, adbDevices, avdName, waited) == Ok(Some(r.value))
    ensures r.Err? && waited < SerialRounds ==>
              r == Err(CommandFailed) && SerialRound(deviceName, adbDevices, avdName, waited) == Err(CommandFailed)
    ensures waited == SerialRounds <==> r == Err(SerialNotFound(deviceName))
  {
    waited := 0;
    while waited < SerialRounds
      invariant waited <= SerialRounds
      invariant forall k | 0 <= k < waited :: SerialRound(deviceName, adbDevices, avdName, k) == Ok(None)
    {
      var found := SerialRound(deviceName, adbDevices, avdName, waited);
      if found.Err? {
        return Err(found.error), waited;
      }
      if found.value.Some? {
        return Ok(found.value.value), waited;
      }
      waited := waited + 1;
    }
    return Err(SerialNotFound(deviceName)), waited;
  }

  // ---------------------------------------------------------------------
  // waitForEmulatorBoot: the boot gate

  /** `lines.firstOrNull()?.contains("1") ?: false` on `getprop sys.boot_completed`. */
  predicate BootCompleted(output: seq<string>) {
    output != [] && Contains(output[0], "1")
  }

  const BootPolls: nat := 61

  /** `waitForEmulatorBoot`: polls until the first line contains "1" or 61
      polls were made, and returns normally either way. `getprop(k)` is the
      lines printed in poll k (none when the command cannot be started, as
      `ignoreError` gives). */
  method WaitForEmulatorBoot(getprop: nat -> seq<string>) returns (bootCompleted: bool, waited: nat)
    ensures 1 <= waited <= BootPolls
    ensures forall k | 0 <= k < waited - 1 :: !BootCompleted(getprop(k))
    ensures bootCompleted == BootCompleted(getprop(waited - 1))
    ensures !bootCompleted ==> waited == BootPolls
  {
    bootCompleted := false;
    waited := 0;
    while !bootCompleted && waited <= 60
      invariant waited <= BootPolls
      invariant forall k | 0 <= k < waited - 1 :: !BootCompleted(getprop(k))
      invariant waited == 0 ==> !bootCompleted
      invariant waited > 0 ==> bootCompleted == BootCompleted(getprop(waited - 1))
    {
      bootCompleted := BootCompleted(getprop(waited));
      waited := waited + 1;
    }
  }

  // ---------------------------------------------------------------------
  // runTests

  /** The shell command that runs the orchestrator over the target. */
  function InstrumentCommand(targetInstrumentation: string): (r: string)
    ensures Contains(r, "-e targetInstrumentation " + targetInstrumentation + " ")
    ensures EndsWith(r, Orchestrator)
  {
    var head := "CLASSPATH=$(pm path androidx.test.services) app_process / "
      + "androidx.test.services.shellexecutor.ShellMain am instrument -m -w -e emma true "
      + "-e clearPackageData true ";
    var r := head + "-e targetInstrumentation " + targetInstrumentation + " " + Orchestrator;
    assert OccursAt(r, "-e targetInstrumentation " + targetInstrumentation + " ", |head|);
    r
  }

  /** `runTests` once the harness has exited: a non-zero exit code throws
      whatever the parser concluded; otherwise the parser's verdict stands. */
  function RunTestsResult(exitCode: int, parsedVerdict: bool): (r: Result<bool>)
    ensures r.Err? <==> exitCode != 0
    ensures r.Err? ==> r.error == HarnessExitedAbnormally(exitCode)
    ensures r.Ok? ==> r.value == parsedVerdict
  {
    if exitCode != 0 then Err(HarnessExitedAbnormally(exitCode)) else Ok(parsedVerdict)
  }
}
