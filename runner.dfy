/** The run itself (Main.kt): the `clean` option, the one-shot shutdown
    hook, and the fixed sequence of device steps whose success and failure
    paths both end in the hook. */
module Runner {
  import opened Common
  import opened Strings
  import opened Utils
  import opened FileLock
  import opened AdbHelper
  import opened EmulatorHelper

  // ---------------------------------------------------------------------
  // The clean option

  function UpperAscii(s: string): (r: string)
    ensures |r| == |s|
    ensures forall i | 0 <= i < |s| :: r[i] == ToUpperAscii(s[i])
  {
    seq(|s|, i requires 0 <= i < |s| => ToUpperAscii(s[i]))
  }

  /** `clean.equals("true", ignoreCase = true)` */
  function CleanFlag(clean: string): (r: bool)
    ensures r <==> UpperAscii(clean) == "TRUE"
  {
    assert UpperAscii("true") == "TRUE";
    EqualsIgnoreCase(clean, "true")
  }

  // ---------------------------------------------------------------------
  // The shutdown hook

  /** The hook thread of `shutdownHook(emulator)`: `cleanups` counts how
      often `stopAndCleanup` has started. */
  class ShutdownHook {
    var stopCalled: bool
    var cleanups: nat

    predicate Valid()
      reads this
    {
      cleanups == if stopCalled then 1 else 0
    }

    constructor()
      ensures Valid() && !stopCalled
    {
      stopCalled := false;
      cleanups := 0;
    }

    /** `run()`: the first call sets `stopCalled` and then cleans up; every
        later call returns at once. */
    method Run()
      requires Valid()
      modifies this
      ensures Valid() && stopCalled && cleanups == 1
      ensures cleanups == old(cleanups) + (if old(stopCalled) then 0 else 1)
    {
      if stopCalled {
        return;
      }
      stopCalled := true;
      cleanups := cleanups + 1;
    }
  }

  // ---------------------------------------------------------------------
  // Launching: getOrCreateEmulator, then launchEmulator

  /** Line 57 of `main`: `getOrCreateEmulator` with the `clean` option
      read case-insensitively. The chosen AVD carries the device prefix,
      exists, and only its device claim is new; a reused AVD is recreated
      exactly when the option spells "true" (appended to the list, by the
      model's convention for where avdmanager lists a new AVD). */
  method ChooseDevice(dir: LockDir, registry: AvdRegistry, systemImg: string, deviceDef: string,
                      clean: string, draw: nat -> nat)
    returns (deviceName: string)
    modifies dir, registry
    ensures var candidates := Candidates(old(registry.avds), DevicePrefix(systemImg, deviceDef));
            var k := FirstUnclaimed(candidates, old(dir.files));
            k < |candidates| ==>
              && deviceName == candidates[k]
              && registry.avds == if CleanFlag(clean) then Without(old(registry.avds), deviceName) + [deviceName]
                                  else old(registry.avds)
    ensures StartsWith(deviceName, DevicePrefix(systemImg, deviceDef))
    ensures dir.files == old(dir.files) + {DeviceLockPath(deviceName)}
    ensures deviceName in registry.avds
  {
    deviceName := GetOrCreateEmulator(dir, registry, systemImg, deviceDef, CleanFlag(clean), draw);
  }

  /** Lines 56-58 of `main`, once the system image is installed: pick or
      create the AVD under the device claim, then start it on a claimed
      port; `processStarts` is whether the emulator process can be spawned. */
  method PrepareEmulator(dir: LockDir, registry: AvdRegistry, adbDevices: Option<seq<string>>,
                         systemImg: string, deviceDef: string, clean: string, draw: nat -> nat,
                         processStarts: bool)
    returns (r: Result<Emulator>)
    modifies dir, registry
    ensures r.Ok? ==>
              && StartsWith(r.value.deviceName, DevicePrefix(systemImg, deviceDef))
              && r.value.deviceName in registry.avds
              && dir.files == old(dir.files) + {DeviceLockPath(r.value.deviceName), PortLockPath(r.value.port)}
              && LowestPort <= r.value.port <= HighestPort && r.value.port % 2 == 0
              && adbDevices.Some? && r.value.port !in RunningPorts(adbDevices.value)
              && PortLockPath(r.value.port) !in old(dir.files)
    ensures adbDevices.None? ==> r == Err(CommandFailed)
    ensures adbDevices.Some? && r.Err? ==> r.error == PortRangeExhausted || r.error == ProcessStartFailed
  {
    var deviceName := ChooseDevice(dir, registry, systemImg, deviceDef, clean, draw);
    ghost var claimed := dir.files;
    r := LaunchEmulator(dir, registry, adbDevices, deviceName, processStarts);
    if r.Ok? {
      var port := r.value.port;
      assert && LowestPort <= port <= HighestPort && port % 2 == 0
             && port !in RunningPorts(adbDevices.value) && PortLockPath(port) !in claimed by {
        NextPortSpecIsLeastFree(0, RunningPorts(adbDevices.value), claimed);
      }
      assert dir.files == old(dir.files) + {DeviceLockPath(deviceName), PortLockPath(port)} by {
        PortClaimKeepsDevices(claimed, port, deviceName);
      }
    }
  }

  // ---------------------------------------------------------------------
  // The device steps of main

  datatype Step =
    | WaitForDevice | WaitForBoot | DisableAnimations | ClearSdcard | InstallOrchestrator
    | InstallApk | FindInstrumentation | RunTests | PullFiles | RemoveTestTarget

  /** The steps in the order `main` runs them. */
  const Steps: seq<Step> := [WaitForDevice, WaitForBoot, DisableAnimations, ClearSdcard, InstallOrchestrator,
                             InstallApk, FindInstrumentation, RunTests, PullFiles, RemoveTestTarget]

  /** What the device and the tools answer during the run:
      whether `adb wait-for-device`, the three animation settings, and the
      orchestrator download-and-install succeed; each boot poll's output;
      whether adb accepts the APK and which instrumentations it declares;
      the harness's exit code and the verdict parsed from its output. */
  datatype Answers = Answers(
    waitForDevice: bool,
    getprop: nat -> seq<string>,
    disableAnimations: bool,
    installOrchestrator: bool,
    apkAccepted: bool,
    declared: seq<string>,
    exitCode: int,
    verdict: bool)

  /** What `pm list instrumentation` prints once the APK is installed. */
  function Installed(a: Answers, listed: seq<string>): seq<string> {
    AfterRemoval(listed) + a.declared
  }

  /** Whether step 7, the lookup of the target instrumentation once the APK
      is installed, finds one. */
  predicate TargetFound(a: Answers, listed: seq<string>) {
    GetTargetInstrumentation(Installed(a, listed)).Some?
  }

  /** How step `s` ends when every step before it succeeded: None when it
      succeeds. Clearing the sdcard and pulling files never fail (their
      errors are ignored), and neither does the boot wait. `found` is
      `TargetFound` of the run. */
  function StepError(a: Answers, found: bool, s: Step): Option<Error> {
    match s
    case WaitForDevice => if a.waitForDevice then None else Some(CommandFailed)
    case DisableAnimations => if a.disableAnimations then None else Some(CommandFailed)
    case InstallOrchestrator => if a.installOrchestrator then None else Some(CommandFailed)
    case InstallApk => if a.apkAccepted then None else Some(CommandFailed)
    case FindInstrumentation => if found then None else Some(InstrumentationNotFound)
    case RunTests => if a.exitCode != 0 then Some(HarnessExitedAbnormally(a.exitCode)) else None
    case _ => None
  }

  /** Index in `Steps` of the step at which `main`'s device steps stop
      with an error, or |Steps| when they all succeed. */
  function FailedStep(a: Answers, found: bool): nat {
    if !a.waitForDevice then 0
    else if !a.disableAnimations then 2
    else if !a.installOrchestrator then 4
    else if !a.apkAccepted then 5
    else if !found then 6
    else if a.exitCode != 0 then 7
    else 10
  }

  /** The error the run stops with, when `FailedStep` is a step. */
  function FailedError(a: Answers, found: bool): Error {
    if !a.waitForDevice || !a.disableAnimations || !a.installOrchestrator || !a.apkAccepted then CommandFailed
    else if !found then InstrumentationNotFound
    else HarnessExitedAbnormally(a.exitCode)
  }

  /** How the `runCatching` block of `main` ends: the failing step's error,
      or the parsed verdict when every step succeeds. */
  function DeviceResult(a: Answers, listed: seq<string>): Result<bool> {
    var found := TargetFound(a, listed);
    if FailedStep(a, found) < |Steps| then Err(FailedError(a, found)) else Ok(a.verdict)
  }

  /** The step where the run stops is the first step, in `main`'s order,
      that fails. */
  lemma FailedStepIsFirstFailure(a: Answers, found: bool)
    ensures FailedStep(a, found) <= |Steps|
    ensures forall j | 0 <= j < FailedStep(a, found) :: StepError(a, found, Steps[j]).None?
    ensures FailedStep(a, found) < |Steps| ==> StepError(a, found, Steps[FailedStep(a, found)]) == Some(FailedError(a, found))
  {
    forall j | 0 <= j < FailedStep(a, found)
      ensures StepError(a, found, Steps[j]).None?
    {
      StepBeforeFailureSucceeds(a, found, j);
    }
  }

  /** One step before the failing one: it succeeds. */
  lemma StepBeforeFailureSucceeds(a: Answers, found: bool, j: nat)
    requires j < FailedStep(a, found) && j < |Steps|
    ensures StepError(a, found, Steps[j]).None?
  {
    if j == 0 {
      assert Steps[0] == WaitForDevice;
    } else if j == 2 {
      assert Steps[2] == DisableAnimations;
    } else if j == 4 {
      assert Steps[4] == InstallOrchestrator;
    } else if j == 5 {
      assert Steps[5] == InstallApk;
    } else if j == 6 {
      assert Steps[6] == FindInstrumentation;
    } else if j == 7 {
      assert Steps[7] == RunTests;
    }
  }

  /** How `main` ends. */
  datatype Outcome = Passed | TestsFailed | Threw(error: Error)

  /** The exit status of the JVM: `exitProcess(1)` for failed tests, and 1
      for an exception that escapes `main`. */
  function ExitStatus(o: Outcome): int {
    if o.Passed? then 0 else 1
  }

  /** The outcome the steps lead to: the first failing step's error, else
      the parsed verdict. */
  function MainOutcome(a: Answers, listed: seq<string>): Outcome {
    match DeviceResult(a, listed)
    case Err(e) => Threw(e)
    case Ok(verdict) => if verdict then Passed else TestsFailed
  }

  /** The steps that were started: up to and including the failing one. */
  function StepsRun(a: Answers, listed: seq<string>): seq<Step> {
    var k := FailedStep(a, TargetFound(a, listed));
    if k < |Steps| then Steps[..k + 1] else Steps
  }

  /** The commands the device receives: the install's uninstalls and
      install once `installApk` is reached, and the final removal's
      uninstalls when the run gets through every step. */
  function SentCommands(apk: string, a: Answers, listed: seq<string>): seq<DeviceCommand> {
    var k := FailedStep(a, TargetFound(a, listed));
    (if k >= 5 then Uninstalls(RemovalTargets(listed)) + [Install(apk)] else [])
    + (if k == |Steps| then Uninstalls(RemovalTargets(Installed(a, listed))) else [])
  }

  /** The instrumentations left on the device when `main` ends. */
  function FinalListing(a: Answers, listed: seq<string>): seq<string> {
    var k := FailedStep(a, TargetFound(a, listed));
    if k < 5 then listed
    else if k == 5 then AfterRemoval(listed)
    else if k < |Steps| then Installed(a, listed)
    else AfterRemoval(Installed(a, listed))
  }

  /** Steps 1-5 of `main`: none of them touches the installed packages. */
  method PrepareDevice(a: Answers) returns (err: Option<Error>, ran: seq<Step>)
    ensures err == if !a.waitForDevice || !a.disableAnimations || !a.installOrchestrator
                   then Some(CommandFailed) else None
    ensures ran == if !a.waitForDevice then Steps[..1]
                   else if !a.disableAnimations then Steps[..3]
                   else Steps[..5]
  {
    if !a.waitForDevice {
      return Some(CommandFailed), Steps[..1];
    }
    var _, _ := WaitForEmulatorBoot(a.getprop);
    if !a.disableAnimations {
      return Some(CommandFailed), Steps[..3];
    }
    if !a.installOrchestrator {
      return Some(CommandFailed), Steps[..5];
    }
    return None, Steps[..5];
  }

  /** How steps 6-10 end. */
  function InstallAndTestResult(a: Answers, listed: seq<string>): Result<bool> {
    if !a.apkAccepted then Err(CommandFailed)
    else if GetTargetInstrumentation(Installed(a, listed)).None? then Err(InstrumentationNotFound)
    else if a.exitCode != 0 then Err(HarnessExitedAbnormally(a.exitCode))
    else Ok(a.verdict)
  }

  /** The commands steps 6-10 send: the install (with the uninstalls that
      precede it) and, after a successful run, the final removal. */
  function InstallAndTestCommands(apk: string, a: Answers, listed: seq<string>): seq<DeviceCommand> {
    Uninstalls(RemovalTargets(listed)) + [Install(apk)]
    + (if InstallAndTestResult(a, listed).Ok? then Uninstalls(RemovalTargets(Installed(a, listed))) else [])
  }

  /** The instrumentations steps 6-10 leave behind. */
  function InstallAndTestListing(a: Answers, listed: seq<string>): seq<string> {
    if !a.apkAccepted then AfterRemoval(listed)
    else if InstallAndTestResult(a, listed).Err? then Installed(a, listed)
    else AfterRemoval(Installed(a, listed))
  }

  /** Steps 6-10 of `main`: install the APK, find the target, run the
      tests, pull the files and remove the test target again. */
  method InstallAndTest(device: Device, apk: string, a: Answers) returns (r: Result<bool>, ran: seq<Step>)
    modifies device
    ensures r == InstallAndTestResult(a, old(device.instrumentations))
    ensures ran == (if r == Err(CommandFailed) then Steps[5..6]
                    else if r == Err(InstrumentationNotFound) then Steps[5..7]
                    else if r.Err? then Steps[5..8]
                    else Steps[5..])
    ensures device.commands == old(device.commands) + InstallAndTestCommands(apk, a, old(device.instrumentations))
    ensures device.instrumentations == InstallAndTestListing(a, old(device.instrumentations))
  {
    ghost var listed := device.instrumentations;
    var installed := device.InstallApk(apk, a.apkAccepted, a.declared);
    if installed.Err? {
      assert InstallAndTestCommands(apk, a, listed) == Uninstalls(RemovalTargets(listed)) + [Install(apk)] + [];
      return Err(installed.error), Steps[5..6];
    }
    var target := GetTargetInstrumentation(device.instrumentations);
    if target.None? {
      assert InstallAndTestCommands(apk, a, listed) == Uninstalls(RemovalTargets(listed)) + [Install(apk)] + [];
      return Err(InstrumentationNotFound), Steps[5..7];
    }
    var tests := RunTestsResult(a.exitCode, a.verdict);
    if tests.Err? {
      assert InstallAndTestCommands(apk, a, listed) == Uninstalls(RemovalTargets(listed)) + [Install(apk)] + [];
      return Err(tests.error), Steps[5..8];
    }
    assert device.instrumentations == Installed(a, listed);
    AppendThree(old(device.commands), Uninstalls(RemovalTargets(listed)), [Install(apk)]);
    device.RemoveExistingTestTarget();
    AppendThree(old(device.commands), Uninstalls(RemovalTargets(listed)) + [Install(apk)],
                Uninstalls(RemovalTargets(Installed(a, listed))));
    return Ok(tests.value), Steps[5..];
  }

  /** The body of `runCatching` in `main`, steps 1-10: `Ok(verdict)` when
      every step succeeds. */
  method DeviceSteps(device: Device, apk: string, a: Answers) returns (r: Result<bool>, ran: seq<Step>)
    modifies device
    ensures ran == StepsRun(a, old(device.instrumentations))
    ensures r == DeviceResult(a, old(device.instrumentations))
    ensures device.commands == old(device.commands) + SentCommands(apk, a, old(device.instrumentations))
    ensures device.instrumentations == FinalListing(a, old(device.instrumentations))
  {
    ghost var listed := device.instrumentations;
    var err;
    err, ran := PrepareDevice(a);
    if err.Some? {
      PrepareFailureSendsNothing(apk, a, listed);
      assert device.commands == old(device.commands) + [];
      return Err(err.value), ran;
    }
    var rest;
    r, rest := InstallAndTest(device, apk, a);
    InstallAndTestIsTail(apk, a, listed);
    SliceSplit(Steps, 5, if r.Ok? then |Steps| else FailedStep(a, TargetFound(a, listed)) + 1);
    ran := ran + rest;
  }

  /** When one of steps 1-5 fails, the device sees no command. */
  lemma PrepareFailureSendsNothing(apk: string, a: Answers, listed: seq<string>)
    requires !a.waitForDevice || !a.disableAnimations || !a.installOrchestrator
    ensures FailedStep(a, TargetFound(a, listed)) < 5
    ensures DeviceResult(a, listed) == Err(CommandFailed)
    ensures SentCommands(apk, a, listed) == []
    ensures FinalListing(a, listed) == listed
    ensures StepsRun(a, listed) == if !a.waitForDevice then Steps[..1]
                                   else if !a.disableAnimations then Steps[..3]
                                   else Steps[..5]
  {
  }

  /** When steps 1-5 succeed, steps 6-10 decide the rest. */
  lemma InstallAndTestIsTail(apk: string, a: Answers, listed: seq<string>)
    requires a.waitForDevice && a.disableAnimations && a.installOrchestrator
    ensures 5 <= FailedStep(a, TargetFound(a, listed))
    ensures DeviceResult(a, listed) == InstallAndTestResult(a, listed)
    ensures InstallAndTestResult(a, listed).Ok? <==> FailedStep(a, TargetFound(a, listed)) == |Steps|
    ensures SentCommands(apk, a, listed) == InstallAndTestCommands(apk, a, listed)
    ensures FinalListing(a, listed) == InstallAndTestListing(a, listed)
  {
    var k := FailedStep(a, TargetFound(a, listed));
    if k < |Steps| {
      assert SentCommands(apk, a, listed) == Uninstalls(RemovalTargets(listed)) + [Install(apk)] + [];
    }
  }

  /** Cutting a sequence at `i` and gluing the two parts back together. */
  lemma SliceSplit<T>(s: seq<T>, i: nat, j: nat)
    requires i <= j <= |s|
    ensures s[..i] + s[i..j] == s[..j]
  {
  }

  /** Lines 59-90 of `main` once the emulator runs: the hook is registered
      with the JVM, the device steps run, and then
      - a false verdict calls `exitProcess(1)`, which runs the JVM hook;
      - success runs the hook, and the JVM runs it again on exit;
      - failure runs the hook and rethrows, and the JVM runs it again.
      `cleanups` is how often `stopAndCleanup` started. */
  method RunMain(device: Device, apk: string, a: Answers) returns (outcome: Outcome, ran: seq<Step>, cleanups: nat)
    modifies device
    ensures outcome == MainOutcome(a, old(device.instrumentations))
    ensures ran == StepsRun(a, old(device.instrumentations))
    ensures cleanups == 1
    ensures device.commands == old(device.commands) + SentCommands(apk, a, old(device.instrumentations))
    ensures device.instrumentations == FinalListing(a, old(device.instrumentations))
  {
    var hook := new ShutdownHook();
    var r;
    r, ran := DeviceSteps(device, apk, a);
    if r.Ok? && !r.value {
      hook.Run();
      outcome := TestsFailed;
    } else if r.Ok? {
      hook.Run();
      hook.Run();
      outcome := Passed;
    } else {
      hook.Run();
      hook.Run();
      outcome := Threw(r.error);
    }
    cleanups := hook.cleanups;
  }

  /** `main` exits with status 0 exactly when every fallible step succeeds,
      an instrumentation is found, the harness exits with 0 and the verdict
      is a pass. */
  lemma ExitZeroIff(a: Answers, listed: seq<string>)
    ensures ExitStatus(MainOutcome(a, listed)) == 0 <==>
              && a.waitForDevice && a.disableAnimations && a.installOrchestrator && a.apkAccepted
              && GetTargetInstrumentation(Installed(a, listed)).Some?
              && a.exitCode == 0 && a.verdict
  {
  }

  /** A missing target instrumentation, after the earlier steps succeed,
      takes the teardown-and-rethrow path: the tests never start. */
  lemma MissingInstrumentationThrows(a: Answers, listed: seq<string>)
    requires a.waitForDevice && a.disableAnimations && a.installOrchestrator && a.apkAccepted
    requires GetTargetInstrumentation(Installed(a, listed)).None?
    ensures MainOutcome(a, listed) == Threw(InstrumentationNotFound)
    ensures RunTests !in StepsRun(a, listed)
  {
    assert FailedStep(a, TargetFound(a, listed)) == 6;
    assert StepsRun(a, listed) == Steps[..7];
    assert Steps[..7] == [WaitForDevice, WaitForBoot, DisableAnimations, ClearSdcard, InstallOrchestrator,
                          InstallApk, FindInstrumentation];
  }

  /** The harness's exit code overrides the verdict in `main` too: a failed
      harness ends with the exception, whatever the parser concluded. */
  lemma HarnessFailureThrows(a: Answers, listed: seq<string>)
    requires a.waitForDevice && a.disableAnimations && a.installOrchestrator && a.apkAccepted
    requires GetTargetInstrumentation(Installed(a, listed)).Some?
    requires a.exitCode != 0
    ensures MainOutcome(a, listed) == Threw(HarnessExitedAbnormally(a.exitCode))
    ensures MainOutcome(a, listed) == MainOutcome(a.(verdict := !a.verdict), listed)
  {
    var b := a.(verdict := !a.verdict);
    assert Installed(b, listed) == Installed(a, listed);
    assert FailedStep(a, TargetFound(a, listed)) == FailedStep(b, TargetFound(b, listed)) == 7;
    assert Steps[7] == RunTests;
  }
}
