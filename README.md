# lemmings, modelled in Dafny

lemmings is a test runner for Android instrumentation tests on emulators.
For one run it:

- picks or creates an AVD (Android virtual device) whose name starts with a prefix derived from the system image;
- claims that AVD and a free console port through marker files under `/tmp`;
- launches the emulator and waits for it;
- installs the APK and looks up its target instrumentation;
- runs the tests under the test orchestrator, with a listener that records failures and writes reports;
- tears the emulator down through a one-shot shutdown hook.

This project models the decision rules of that run and proves what they promise. Every external command (`avdmanager`, `adb`, the emulator process, the harness) is an oracle. Its output lines, exit code or success flag are inputs of the model. A polling loop receives one answer per round. Randomness is a function `draw` from the index of a pick to the character chosen.

Modules, one per source file:

| module | file | what it holds |
|---|---|---|
| `Common` | — | `Option`, `Result` and the error kinds |
| `Strings` | — | the Kotlin string operations the code relies on, and the `Int.toString()`/`toIntOrNull()` round trip |
| `Utils` | `UtilsKt.kt` | `sanitizeFileName`, `getRandomString`, `generateDeviceName` |
| `FileLock` | `FileLockExt.kt` | the marker paths, and `LockDir`, a class over the set of existing marker files, with the two try-claim methods |
| `EmulatorHelper` | `EmulatorHelper.kt` | `PORT_RANGE`, the device prefix, `Emulator.serial`, `nextPort` (a loop with a rising floor), `getOrCreateEmulator`, `launchEmulator`, and `AvdRegistry`, the AVDs `avdmanager` knows |
| `AdbHelper` | `AdbHelper.kt` | the parsers of `adb devices` and `pm list instrumentation`; `Device`, a class with the listed instrumentations and the commands sent; the serial lookup and boot wait loops; the exit-code rule of `runTests` |
| `TestRunListener` | `CustomTestRunListener.kt` | `Listener`, a class with the failed-test set and the logcat files written; the file names; the suite name; `trimMargin` and `getModifiedTrace` |
| `Runner` | `Main.kt` | the `clean` option, the `ShutdownHook` class and the device steps of `main` with the paths that converge on the hook |

## Where the code and its description differ

The model follows the code in each case.

- **Disabling animations.** The description calls the three animation settings best-effort. `AdbHelper.kt:128-138` runs them without `ignoreError`, so a failing write aborts the run. `Runner.StepError` gives `CommandFailed` for that step.
- **Device prefix.** The doc comment at `EmulatorHelper.kt:24` shows a prefix that keeps the underscore of `google_atd`. The code at line 37 turns every `;`, `_` and whitespace character into `-`.
- **Failed AVD creation.** The description implies the AVD is deleted when creation fails. `createEmulator` runs `avdmanager` with `ignoreError = true`, and `runCommand` then never throws, so its `onFailure` branch cannot run. `AvdRegistry.CreateEmulator` always returns normally.
- **Connection gate.** The description calls the connection gate fatal. `main` itself waits with `adb wait-for-device` (step 1), which fails when that command fails. `getEmulatorSerial` is modelled on its own terms: it gives up after 60 empty rounds, and a failing command aborts it at once.
- **Avd name suffix.** `removeSuffix("OK\r\n")` at `AdbHelper.kt:33` never changes a line that a line reader returns (`AdbHelper.AvdNameIsFirstLine`).
- **Exit status.** A false verdict calls `exitProcess(1)` inside `runCatching`, so the cleanup runs through the registered JVM hook, not through `onSuccess`.

## Model

Source paths are relative to the repository root.

| member | source | states |
|---|---|---|
| Utils.SanitizeFileName | src/main/kotlin/com/chrisjenx/lemmings/helpers/UtilsKt.kt:3-5 | the sanitised name has the length of the candidate |
| Utils.SanitizeAt | src/main/kotlin/com/chrisjenx/lemmings/helpers/UtilsKt.kt:4 | position i holds `_` where the candidate has a forbidden character (colon, backslash, slash, star, double quote, question mark, bar, angle bracket, single quote), and the candidate's character otherwise |
| Utils.SanitizeIsClean | src/main/kotlin/com/chrisjenx/lemmings/helpers/UtilsKt.kt:4 | the result contains none of the ten forbidden characters |
| Utils.SanitizeKeepsClean | src/main/kotlin/com/chrisjenx/lemmings/helpers/UtilsKt.kt:4 | a name without forbidden characters comes back unchanged |
| Utils.SanitizeIdempotent | src/main/kotlin/com/chrisjenx/lemmings/helpers/UtilsKt.kt:4 | sanitising twice equals sanitising once |
| Utils.SanitizeConcat | src/main/kotlin/com/chrisjenx/lemmings/helpers/UtilsKt.kt:4 | sanitising distributes over concatenation |
| Utils.SanitizeFramed | src/main/kotlin/com/chrisjenx/lemmings/helpers/UtilsKt.kt:3-5 | sanitising a name framed by a clean prefix and suffix changes only the middle; the result keeps the prefix and the suffix and is clean |
| Utils.CharRange | src/main/kotlin/com/chrisjenx/lemmings/helpers/UtilsKt.kt:13 | `lo..hi` lists hi-lo+1 consecutive characters starting at lo (none if lo > hi) |
| Utils.CharRangeMembers | src/main/kotlin/com/chrisjenx/lemmings/helpers/UtilsKt.kt:13 | c is in `lo..hi` exactly when lo <= c <= hi |
| Utils.AllowedCharsAreAlphanumeric | src/main/kotlin/com/chrisjenx/lemmings/helpers/UtilsKt.kt:13 | the pool has 62 characters and holds exactly the ASCII letters and digits |
| Utils.RandomString | src/main/kotlin/com/chrisjenx/lemmings/helpers/UtilsKt.kt:12-15 | the string has `length` characters (none for length <= 0), each a letter or digit |
| Utils.GenerateDeviceName | src/main/kotlin/com/chrisjenx/lemmings/helpers/UtilsKt.kt:7-10 | the name is 11 characters longer than the prefix, starts with prefix + "-", and ends in 10 letters or digits |
| Strings.RemovePrefix | src/main/kotlin/com/chrisjenx/lemmings/helpers/EmulatorHelper.kt:88 | prefix + result is the string when it starts with the prefix; otherwise the string is unchanged |
| Strings.RemoveSuffix | src/main/kotlin/com/chrisjenx/lemmings/helpers/AdbHelper.kt:33 | result + suffix is the string when it ends with the suffix; otherwise the string is unchanged |
| Strings.RemoveSuffixAbsent | src/main/kotlin/com/chrisjenx/lemmings/helpers/AdbHelper.kt:33 | a suffix holding a character the string lacks is never removed |
| Strings.SubstringBefore | src/main/kotlin/com/chrisjenx/lemmings/helpers/AdbHelper.kt:56 | `split(sep).first()` is the longest prefix without sep, followed in the string by sep or the end |
| Strings.ToIntOrNull | src/main/kotlin/com/chrisjenx/lemmings/helpers/EmulatorHelper.kt:88 | a parsed value always fits in 32 bits, and it is the value of the optionally signed decimal text; text with that value outside 32 bits, or that is no such decimal, gives null |
| Strings.IsWhitespace | src/main/kotlin/com/chrisjenx/lemmings/listener/CustomTestRunListener.kt:111 | Kotlin's `Char.isWhitespace`: the Unicode whitespace and space-separator characters that `trimMargin` treats as blank |
| Strings.IsBlank | src/main/kotlin/com/chrisjenx/lemmings/listener/CustomTestRunListener.kt:111 | `isBlank()`: every character is whitespace |
| Strings.IntRoundTrip | src/main/kotlin/com/chrisjenx/lemmings/helpers/EmulatorHelper.kt:88 | `toIntOrNull` of the decimal text of any 32-bit Int gives that Int back |
| Strings.IntToString | src/main/kotlin/com/chrisjenx/lemmings/helpers/FileLockExt.kt:42 | the decimal text of an Int as `$port` prints it: at least one character, starting with `-` exactly for negatives |
| Strings.EqualsIgnoreCase | src/main/kotlin/com/chrisjenx/lemmings/helpers/AdbHelper.kt:36 | `equals(…, ignoreCase = true)`: equal lengths and equal characters after upper-casing ASCII letters |
| Strings.IntToStringInjective | src/main/kotlin/com/chrisjenx/lemmings/helpers/FileLockExt.kt:42 | different integers print differently |
| FileLock.DeviceLockPathInjective | src/main/kotlin/com/chrisjenx/lemmings/helpers/FileLockExt.kt:31 | different AVD names have different device markers |
| FileLock.PortLockPathInjective | src/main/kotlin/com/chrisjenx/lemmings/helpers/FileLockExt.kt:42 | different ports have different port markers |
| FileLock.LockNamespacesDisjoint | src/main/kotlin/com/chrisjenx/lemmings/helpers/FileLockExt.kt:11-47 | a device marker, a port marker and the two phase-lock paths are four distinct paths |
| FileLock.DeviceLockPathParts | src/main/kotlin/com/chrisjenx/lemmings/helpers/FileLockExt.kt:31 | the device marker is `/tmp/device-` + the AVD name + `.lock` |
| FileLock.PortLockPathParts | src/main/kotlin/com/chrisjenx/lemmings/helpers/FileLockExt.kt:42 | the port marker is `/tmp/emulator-` + the port in decimal + `.lock` |
| FileLock.DeviceClaimKeepsPorts | src/main/kotlin/com/chrisjenx/lemmings/helpers/FileLockExt.kt:30-36 | adding a device marker leaves every port's claim as it was |
| FileLock.PortClaimKeepsDevices | src/main/kotlin/com/chrisjenx/lemmings/helpers/FileLockExt.kt:41-47 | adding a port marker leaves every device's claim as it was |
| FileLock.LockDir.CreateEmulatorLockFile | src/main/kotlin/com/chrisjenx/lemmings/helpers/FileLockExt.kt:30-36 | true exactly when the marker did not exist; afterwards the marker exists and no other file was added |
| FileLock.LockDir.CreatePortLockFile | src/main/kotlin/com/chrisjenx/lemmings/helpers/FileLockExt.kt:41-47 | the same try-claim on `/tmp/emulator-<port>.lock` |
| FileLock.ClaimTwice | src/main/kotlin/com/chrisjenx/lemmings/helpers/FileLockExt.kt:30-36 | two claims of one name in a row: the second always fails, and exactly one marker is added |
| EmulatorHelper.EvensBetweenIsStepTwo | src/main/kotlin/com/chrisjenx/lemmings/helpers/EmulatorHelper.kt:9 | filtering `lo..hi` to even numbers, from an even lo, gives the sequence whose element i is lo + 2i, with (hi-lo)/2+1 elements |
| EmulatorHelper.EvensBetween | src/main/kotlin/com/chrisjenx/lemmings/helpers/EmulatorHelper.kt:9 | `(lo..hi).filter { it % 2 == 0 }`: every element lies in lo..hi and is even |
| EmulatorHelper.PortRange | src/main/kotlin/com/chrisjenx/lemmings/helpers/EmulatorHelper.kt:9 | `PORT_RANGE` has 129 ports, from 5554 to 5810 |
| EmulatorHelper.PortRangeIsEvenPorts | src/main/kotlin/com/chrisjenx/lemmings/helpers/EmulatorHelper.kt:9 | `PORT_RANGE` has 129 ports, ascending, and p is in it exactly when p is even and 5554 <= p <= 5810 |
| EmulatorHelper.SerialRoundTrip | src/main/kotlin/com/chrisjenx/lemmings/helpers/EmulatorHelper.kt:120-121 | removing `emulator-` from an emulator's serial and parsing the rest gives back its port |
| EmulatorHelper.Emulator.Serial | src/main/kotlin/com/chrisjenx/lemmings/helpers/EmulatorHelper.kt:121 | the serial is `emulator-` followed by the port |
| EmulatorHelper.RunningPorts | src/main/kotlin/com/chrisjenx/lemmings/helpers/EmulatorHelper.kt:88 | p is running exactly when some serial `findSerials` lists parses to p after `emulator-` is removed |
| EmulatorHelper.PortsOf | src/main/kotlin/com/chrisjenx/lemmings/helpers/EmulatorHelper.kt:88 | p is a running port exactly when some listed serial parses to p |
| EmulatorHelper.PortOfSerial | src/main/kotlin/com/chrisjenx/lemmings/helpers/EmulatorHelper.kt:88 | `removePrefix("emulator-").toIntOrNull()`: the Int after the prefix, or of the whole serial when the prefix is missing; a result always fits in 32 bits |
| EmulatorHelper.ListedEmulatorIsRunning | src/main/kotlin/com/chrisjenx/lemmings/helpers/EmulatorHelper.kt:88 | an emulator whose serial `adb devices` lists has its port among the running ports |
| EmulatorHelper.FirstAbove | src/main/kotlin/com/chrisjenx/lemmings/helpers/EmulatorHelper.kt:89 | `first` picks a listed port above the floor that is not running; when there is none, every listed port is running or not above the floor |
| EmulatorHelper.FreePort | src/main/kotlin/com/chrisjenx/lemmings/helpers/EmulatorHelper.kt:87-92 | the settled port is listed, above the floor, not running and unclaimed; when there is none, every such port is claimed |
| EmulatorHelper.FreePortIsLeast | src/main/kotlin/com/chrisjenx/lemmings/helpers/EmulatorHelper.kt:87-92 | every listed port between the floor and the settled port that is not running is claimed |
| EmulatorHelper.FreePortRaiseFloor | src/main/kotlin/com/chrisjenx/lemmings/helpers/EmulatorHelper.kt:91 | recursing from a candidate whose claim failed gives the same port as the current call |
| EmulatorHelper.FreePortTakesUnclaimed | src/main/kotlin/com/chrisjenx/lemmings/helpers/EmulatorHelper.kt:91-92 | an unclaimed candidate is the port returned |
| EmulatorHelper.FreePortNoneAbove | src/main/kotlin/com/chrisjenx/lemmings/helpers/EmulatorHelper.kt:89 | with no candidate left there is no free port |
| EmulatorHelper.NextPortSpecIsLeastFree | src/main/kotlin/com/chrisjenx/lemmings/helpers/EmulatorHelper.kt:87-92 | the port is even, in 5554..5810, above `from`, not running, was unclaimed, and is the smallest such port; on failure every such port was claimed |
| EmulatorHelper.NextPortSpec | src/main/kotlin/com/chrisjenx/lemmings/helpers/EmulatorHelper.kt:87-92 | `nextPort` either yields a port of `PORT_RANGE` or fails with the range used up |
| EmulatorHelper.NextPortOutcome | src/main/kotlin/com/chrisjenx/lemmings/helpers/EmulatorHelper.kt:87-92 | a failing `adb devices` makes `nextPort` throw; otherwise it gives `NextPortSpec` over the running ports |
| EmulatorHelper.NextPort | src/main/kotlin/com/chrisjenx/lemmings/helpers/EmulatorHelper.kt:87-92 | the loop returns the least free port (or fails when the range is used up, or when `adb devices` fails) and adds exactly that port's marker; on failure no marker is added |
| EmulatorHelper.ClaimFirstFree | src/main/kotlin/com/chrisjenx/lemmings/helpers/EmulatorHelper.kt:89-91 | over any ascending, bounded list of ports, the claimed port is the first one above the floor that is neither running nor claimed, and only its marker is added; when there is none, nothing is added |
| EmulatorHelper.RemoveAll | src/main/kotlin/com/chrisjenx/lemmings/helpers/EmulatorHelper.kt:37 | removing every occurrence never lengthens the text, a text without the target comes back unchanged, and a leading occurrence is dropped before the rest is scanned |
| EmulatorHelper.RemoveAllSkip | src/main/kotlin/com/chrisjenx/lemmings/helpers/EmulatorHelper.kt:37 | a text that does not start with the target keeps its first character, and the scan goes on from the next one |
| EmulatorHelper.RemoveAllAtFirst | src/main/kotlin/com/chrisjenx/lemmings/helpers/EmulatorHelper.kt:37 | when the first occurrence of the target follows `pre`, the result is `pre` followed by the removal applied to what comes after that occurrence; with the no-occurrence clause of RemoveAll this fixes the result of the left-to-right scan |
| EmulatorHelper.DashSeparators | src/main/kotlin/com/chrisjenx/lemmings/helpers/EmulatorHelper.kt:37 | each `;`, `_` or whitespace character becomes `-`, every other character stays in place |
| EmulatorHelper.DevicePrefix | src/main/kotlin/com/chrisjenx/lemmings/helpers/EmulatorHelper.kt:37 | the prefix contains no `;`, `_` or whitespace |
| EmulatorHelper.DevicePrefixOfPackage | src/main/kotlin/com/chrisjenx/lemmings/helpers/EmulatorHelper.kt:37 | for `system-images;<t>` with no further tag, the prefix is `<t>-<deviceDef>` with its separators turned into dashes |
| EmulatorHelper.PrefixHasNoSystemImagesTag | src/main/kotlin/com/chrisjenx/lemmings/helpers/EmulatorHelper.kt:37 | the prefix never contains `system-images;` |
| EmulatorHelper.Candidates | src/main/kotlin/com/chrisjenx/lemmings/helpers/EmulatorHelper.kt:41 | the candidates are exactly the listed AVDs that start with the prefix |
| EmulatorHelper.CandidatesSnoc | src/main/kotlin/com/chrisjenx/lemmings/helpers/EmulatorHelper.kt:41 | the candidates keep the listing order: a prefixed AVD listed last is the last candidate, any other adds none |
| EmulatorHelper.FirstUnclaimed | src/main/kotlin/com/chrisjenx/lemmings/helpers/EmulatorHelper.kt:42 | every candidate before index k is claimed, and the one at k is not |
| EmulatorHelper.Without | src/main/kotlin/com/chrisjenx/lemmings/helpers/EmulatorHelper.kt:76-81 | the name is gone and every other AVD is kept |
| EmulatorHelper.AvdRegistry.CreateEmulator | src/main/kotlin/com/chrisjenx/lemmings/helpers/EmulatorHelper.kt:64-74 | the name is listed afterwards; a new name is appended (the model's convention for the listing order), and an existing one leaves the list unchanged |
| EmulatorHelper.AvdRegistry.DeleteEmulator | src/main/kotlin/com/chrisjenx/lemmings/helpers/EmulatorHelper.kt:76-81 | the name is no longer listed and nothing else changes |
| EmulatorHelper.GetOrCreateEmulator | src/main/kotlin/com/chrisjenx/lemmings/helpers/EmulatorHelper.kt:36-58 | the first unclaimed candidate is used, recreated when `clean`; otherwise a new `prefix-<10 chars>` AVD is created; exactly that name's marker is added, the name starts with the prefix and is listed |
| EmulatorHelper.LaunchEmulator | src/main/kotlin/com/chrisjenx/lemmings/helpers/EmulatorHelper.kt:86-116 | success is the emulator on the port `nextPort()` claims; if `adb devices` fails, no port is left or the process cannot start, the AVD is deleted and the error returned; a port marker is added only when a port was claimed |
| AdbHelper.SerialColumn | src/main/kotlin/com/chrisjenx/lemmings/helpers/AdbHelper.kt:56 | s is produced exactly when some line mentions "emulator" and has s before its first tab |
| AdbHelper.Distinct | src/main/kotlin/com/chrisjenx/lemmings/helpers/AdbHelper.kt:56 | `toSet()` keeps every element once and adds none |
| AdbHelper.FindSerials | src/main/kotlin/com/chrisjenx/lemmings/helpers/AdbHelper.kt:54-59 | the serials are exactly the first columns of the lines that mention "emulator", each once |
| AdbHelper.SerialColumnSnoc | src/main/kotlin/com/chrisjenx/lemmings/helpers/AdbHelper.kt:56 | `filter` and `map` keep the line order: a line appended to the output adds its serial at the end, or nothing when it does not mention "emulator" |
| AdbHelper.DistinctInFirstOrder | src/main/kotlin/com/chrisjenx/lemmings/helpers/AdbHelper.kt:56 | `toSet()` keeps the elements in the order of their first occurrences |
| AdbHelper.FindSerialsSnoc | src/main/kotlin/com/chrisjenx/lemmings/helpers/AdbHelper.kt:54-59 | a line appended to `adb devices` adds its serial at the end unless an earlier line already listed it |
| AdbHelper.FindSerialsInListingOrder | src/main/kotlin/com/chrisjenx/lemmings/helpers/AdbHelper.kt:54-59 | the serials come in the order of the first line that lists each, which is the order in which the lookup at AdbHelper.kt:31 tries them |
| AdbHelper.DevicesListing | src/main/kotlin/com/chrisjenx/lemmings/helpers/AdbHelper.kt:45-53 | the header line yields nothing and `emulator-<port>\tdevice` yields `emulator-<port>` |
| AdbHelper.InstrumentationName | src/main/kotlin/com/chrisjenx/lemmings/helpers/AdbHelper.kt:102 | the component name holds no space |
| AdbHelper.GetTargetInstrumentation | src/main/kotlin/com/chrisjenx/lemmings/helpers/AdbHelper.kt:98-105 | null exactly when every line names the orchestrator |
| AdbHelper.TargetIsFirstNonOrchestrator | src/main/kotlin/com/chrisjenx/lemmings/helpers/AdbHelper.kt:101-103 | the target is the name cut from the first line that does not name the orchestrator |
| AdbHelper.TestTarget | src/main/kotlin/com/chrisjenx/lemmings/helpers/AdbHelper.kt:115 | the package to uninstall holds no `/` |
| AdbHelper.WithoutPackage | src/main/kotlin/com/chrisjenx/lemmings/helpers/AdbHelper.kt:118 | after `adb uninstall`, exactly the lines of other packages remain |
| AdbHelper.UninstallTargetShrinks | src/main/kotlin/com/chrisjenx/lemmings/helpers/AdbHelper.kt:121-124 | uninstalling the selected target's package removes at least one line |
| AdbHelper.RemovalTargets | src/main/kotlin/com/chrisjenx/lemmings/helpers/AdbHelper.kt:113-126 | nothing is uninstalled exactly when the lookup yields null or blank; otherwise the first package is the selected target's |
| AdbHelper.AfterRemoval | src/main/kotlin/com/chrisjenx/lemmings/helpers/AdbHelper.kt:113-126 | afterwards the lookup yields null or blank, and a listing with nothing to remove is left alone |
| AdbHelper.RemovalStep | src/main/kotlin/com/chrisjenx/lemmings/helpers/AdbHelper.kt:121-125 | one round uninstalls the selected target first and hands a strictly shorter listing to the next round |
| AdbHelper.AfterRemovalIdempotent | src/main/kotlin/com/chrisjenx/lemmings/helpers/AdbHelper.kt:113-126 | a second removal finds nothing to uninstall |
| AdbHelper.Device.Uninstall | src/main/kotlin/com/chrisjenx/lemmings/helpers/AdbHelper.kt:114-119 | the package's lines disappear and one uninstall command is sent |
| AdbHelper.Device.RemoveExistingTestTarget | src/main/kotlin/com/chrisjenx/lemmings/helpers/AdbHelper.kt:113-126 | the do/while sends the uninstalls `RemovalTargets` names, in order, and leaves the `AfterRemoval` listing |
| AdbHelper.Device.InstallApk | src/main/kotlin/com/chrisjenx/lemmings/helpers/AdbHelper.kt:107-111 | the removal's uninstalls come before the install; the APK's instrumentations are listed only when adb accepts it, and a refusal is an error |
| AdbHelper.InstallComesLast | src/main/kotlin/com/chrisjenx/lemmings/helpers/AdbHelper.kt:107-111 | the install is the last command, every earlier one is an uninstall, and the first uninstall targets the previously installed test package |
| AdbHelper.AvdNameIsFirstLine | src/main/kotlin/com/chrisjenx/lemmings/helpers/AdbHelper.kt:32-34 | the AVD name is the first output line, unchanged |
| AdbHelper.AvdNameOf | src/main/kotlin/com/chrisjenx/lemmings/helpers/AdbHelper.kt:33 | the AVD name is the first line with one trailing `OK\r\n` removed, and empty when there is no output |
| AdbHelper.FirstNamed | src/main/kotlin/com/chrisjenx/lemmings/helpers/AdbHelper.kt:31-37 | a found serial is listed and its AVD name equals the device name ignoring case; none found means every serial answered with another name; a failing command is an error |
| AdbHelper.FirstNamedIsFirst | src/main/kotlin/com/chrisjenx/lemmings/helpers/AdbHelper.kt:31-37 | the search stops at the first serial that is not rejected: a found serial is the first whose name matches, every serial before it answered with another name; an error comes from the first failing `emu avd name`, after only rejected serials; when every serial is rejected nothing is found |
| AdbHelper.SerialRound | src/main/kotlin/com/chrisjenx/lemmings/helpers/AdbHelper.kt:28-37 | one round: a failing `adb devices` is an error, no emulator listed finds nothing, and a found serial is one `findSerials` listed |
| AdbHelper.GetEmulatorSerial | src/main/kotlin/com/chrisjenx/lemmings/helpers/AdbHelper.kt:22-43 | at most 60 rounds; returns the serial of the first round that finds one; all earlier rounds found nothing; 60 empty rounds end in SerialNotFound, and a failing command aborts |
| AdbHelper.WaitForEmulatorBoot | src/main/kotlin/com/chrisjenx/lemmings/helpers/AdbHelper.kt:78-93 | between 1 and 61 polls; it stops at the first answer whose first line contains "1", and otherwise after 61 polls, without an error |
| AdbHelper.BootCompleted | src/main/kotlin/com/chrisjenx/lemmings/helpers/AdbHelper.kt:87 | the boot is complete exactly when the first line of `getprop sys.boot_completed` contains "1" |
| AdbHelper.InstrumentCommand | src/main/kotlin/com/chrisjenx/lemmings/helpers/AdbHelper.kt:206-209 | the shell command passes the target with `-e targetInstrumentation` and ends with the orchestrator component |
| AdbHelper.RunTestsResult | src/main/kotlin/com/chrisjenx/lemmings/helpers/AdbHelper.kt:221-224 | an error exactly when the exit code is non-zero, and then `HarnessExitedAbnormally` with that code whatever the verdict; otherwise the parser's verdict |
| TestRunListener.ResultFileName | src/main/kotlin/com/chrisjenx/lemmings/listener/CustomTestRunListener.kt:30 | `TEST-` + sanitised `device-project-flavor` + `.xml`, free of forbidden characters |
| TestRunListener.LogcatFileName | src/main/kotlin/com/chrisjenx/lemmings/listener/CustomTestRunListener.kt:86 | `LOG-` + sanitised `device-project-flavor-testName` + `.log`, free of forbidden characters |
| TestRunListener.FileNamesStayInDirectory | src/main/kotlin/com/chrisjenx/lemmings/listener/CustomTestRunListener.kt:27-32 | neither name holds `/` or `\`, so each file is created directly in its directory |
| TestRunListener.TestSuiteName | src/main/kotlin/com/chrisjenx/lemmings/listener/CustomTestRunListener.kt:36-45 | null exactly when nothing was recorded; otherwise the class of the first recorded test |
| TestRunListener.AfterEvent | src/main/kotlin/com/chrisjenx/lemmings/listener/CustomTestRunListener.kt:61-102 | a failure adds the test, the end removes it, an assumption failure or an ignore changes nothing |
| TestRunListener.FailurePendingUntilEnded | src/main/kotlin/com/chrisjenx/lemmings/listener/CustomTestRunListener.kt:61-81 | a reported failure stays pending through any callbacks until the test ends |
| TestRunListener.FailureStays | src/main/kotlin/com/chrisjenx/lemmings/listener/CustomTestRunListener.kt:77-78 | only the test's own end removes a pending failure |
| TestRunListener.NoFailureMeansPassed | src/main/kotlin/com/chrisjenx/lemmings/listener/CustomTestRunListener.kt:70-81 | without a reported failure a test is never pending, whatever assumption failures or ignores arrive |
| TestRunListener.Listener.constructor | src/main/kotlin/com/chrisjenx/lemmings/listener/CustomTestRunListener.kt:12-20 | no logcat directory, no failed tests and no files at first |
| TestRunListener.Listener.SetLogcatDir | src/main/kotlin/com/chrisjenx/lemmings/listener/CustomTestRunListener.kt:22-24 | sets the directory and nothing else |
| TestRunListener.Listener.ResultFile | src/main/kotlin/com/chrisjenx/lemmings/listener/CustomTestRunListener.kt:27-32 | the report file lies in the report directory under the sanitised result name |
| TestRunListener.Listener.PropertiesAttributes | src/main/kotlin/com/chrisjenx/lemmings/listener/CustomTestRunListener.kt:47-53 | `device`, `flavor` and `project` hold this run's values; every other inherited entry is kept and none is added |
| TestRunListener.Listener.TestFailed | src/main/kotlin/com/chrisjenx/lemmings/listener/CustomTestRunListener.kt:61-68 | the test joins the failed set; nothing else changes |
| TestRunListener.Listener.TestAssumptionFailure | src/main/kotlin/com/chrisjenx/lemmings/listener/CustomTestRunListener.kt:70-75 | the failed set and the files are unchanged |
| TestRunListener.Listener.TestIgnored | src/main/kotlin/com/chrisjenx/lemmings/listener/CustomTestRunListener.kt:99-102 | the failed set and the files are unchanged |
| TestRunListener.Listener.TestEnded | src/main/kotlin/com/chrisjenx/lemmings/listener/CustomTestRunListener.kt:77-92 | passed exactly when the test was not pending; it is no longer pending; the logcat file is written only for a failed test with non-empty logcat and a directory set |
| TestRunListener.DropTrailingEmpty | src/main/kotlin/com/chrisjenx/lemmings/listener/CustomTestRunListener.kt:106 | a prefix of the pieces that ends in a non-empty piece, and only empty pieces were dropped |
| TestRunListener.SplitNewlines | src/main/kotlin/com/chrisjenx/lemmings/listener/CustomTestRunListener.kt:106 | the pieces hold no newline and joined with newlines give back the trace |
| TestRunListener.FirstBreak | src/main/kotlin/com/chrisjenx/lemmings/listener/CustomTestRunListener.kt:111 | the first `\n` or `\r`, or the length when there is none |
| TestRunListener.Lines | src/main/kotlin/com/chrisjenx/lemmings/listener/CustomTestRunListener.kt:111 | `lines()` gives at least one line, and a text without a line break is a single line |
| TestRunListener.LinesHaveNoBreaks | src/main/kotlin/com/chrisjenx/lemmings/listener/CustomTestRunListener.kt:111 | no line of `lines()` holds a `\n` or `\r` |
| TestRunListener.TrimMargin | src/main/kotlin/com/chrisjenx/lemmings/listener/CustomTestRunListener.kt:107-111 | a single line is dropped when blank and otherwise loses everything up to its `|` margin |
| TestRunListener.TrimTemplate | src/main/kotlin/com/chrisjenx/lemmings/listener/CustomTestRunListener.kt:107-111 | `trimMargin` of the raw string drops its blank first line and the margins, giving `first + " \n" + second + "\n"` |
| TestRunListener.ModifiedTraceKeepsTwoLines | src/main/kotlin/com/chrisjenx/lemmings/listener/CustomTestRunListener.kt:104-111 | a trace of two or more lines becomes its first line plus a space, a newline, its second line and a newline |
| TestRunListener.ModifiedTraceUsesFirstTwoLines | src/main/kotlin/com/chrisjenx/lemmings/listener/CustomTestRunListener.kt:104-111 | traces that agree on their first two lines are shortened alike |
| TestRunListener.ModifiedTrace | src/main/kotlin/com/chrisjenx/lemmings/listener/CustomTestRunListener.kt:104-111 | a trace of a single line is returned unchanged |
| Runner.CleanFlag | src/main/kotlin/Main.kt:57 | the option is on exactly when the string upper-cases to "TRUE" |
| Runner.ShutdownHook.constructor | src/main/kotlin/Main.kt:93-95 | the hook starts with `stopCalled` false and no cleanup |
| Runner.ShutdownHook.Run | src/main/kotlin/Main.kt:96-101 | the first call starts the cleanup and sets `stopCalled`; every later call changes nothing; cleanup never starts twice |
| Runner.ChooseDevice | src/main/kotlin/Main.kt:57 | the first unclaimed prefixed AVD is chosen and recreated (appended to the list, by the model's convention for the listing order) exactly when the `clean` option spells "true" in any case; the chosen AVD carries the prefix, is listed, and only its device marker is new |
| Runner.PrepareEmulator | src/main/kotlin/Main.kt:56-58 | the launched emulator uses a prefixed AVD that is listed, on a port that is even, in range, not running and newly claimed; exactly the two markers are added; a failing `adb devices` fails the launch, and otherwise a failure is a used-up port range or a process that cannot start |
| Runner.FailedStepIsFirstFailure | src/main/kotlin/Main.kt:61-82 | the run stops at the first step, in `main`'s order, that fails, and with that step's error |
| Runner.PrepareDevice | src/main/kotlin/Main.kt:62-67 | the first five steps stop at a failing wait, animation or orchestrator step; the boot wait never fails |
| Runner.InstallAndTest | src/main/kotlin/Main.kt:68-82 | install, lookup, test run, pull and removal run in that order until one fails; the commands and listing left are those of the steps that ran |
| Runner.DeviceSteps | src/main/kotlin/Main.kt:61-84 | the ten steps run in order up to the first failure, which gives the result; the commands sent and the final listing match |
| Runner.PrepareFailureSendsNothing | src/main/kotlin/Main.kt:62-67 | a failure in the first five steps sends no command and leaves the listing alone |
| Runner.InstallAndTestIsTail | src/main/kotlin/Main.kt:68-82 | once the first five steps succeed, steps 6-10 decide the result, the commands and the listing |
| Runner.RunMain | src/main/kotlin/Main.kt:59-90 | on every path cleanup starts exactly once; the outcome is the first failure's error, else the verdict |
| Runner.ExitZeroIff | src/main/kotlin/Main.kt:61-90 | exit status 0 exactly when every fallible step succeeds, a target is found, the harness exits with 0 and the verdict is a pass |
| Runner.MissingInstrumentationThrows | src/main/kotlin/Main.kt:69-70 | a missing target ends in InstrumentationNotFound, and the tests never start |
| Runner.HarnessFailureThrows | src/main/kotlin/Main.kt:73-90 | a non-zero harness exit ends in that error, whatever the verdict |

## Left out

- Process spawning, `runCommand`, `Emulator.stopAndCleanup`, `killDevice` and the emulator's command-line flags: command outputs and outcomes are inputs, and a cleanup is counted rather than performed.
- `waitForLock`, `waitForDeviceLock`, `waitForEmulatorLock`: the OS file lock is not modelled. The model is sequential, so each locked block is called directly and its result is the block's result.
- The `exists`/`createNewFile` race, `deleteOnExit`, and the check-then-set of the volatile `stopCalled` flag across the main and hook threads: everything runs sequentially.
- `fetchEmulatorImage` (sdkmanager) and the downloads in `fetchAndInstallOrchestratorApps`: external tools and the network. The orchestrator step is a success flag. Its effect on the instrumentation listing is not modelled, and its two uninstalls and two installs are not recorded in `Device.commands`.
- `clearSdcard` and `pullSdCard`: their errors are ignored and they never fail the run. The file moves are filesystem I/O.
- `DeviceOutputParser.kt`, ddmlib's `XmlTestRunListener` super-calls, the XML report writing, and `testRunStarted`/`testRunFailed`: foreign code or logging. The harness verdict is an input.
- Logging, `println`, `delay` and the measured duration: output and timing only.
- The CLI parsing and the unused sharding options of `main`.
- GetOrCreateEmulator: `avdmanager list avd -c` failing (which throws) is not modelled. A random name that collides with an existing AVD is reused, and its marker claim's result is ignored, as in the code.
- EmulatorHelper.AvdRegistry.CreateEmulator: where `avdmanager list avd -c` lists a newly created AVD is not known; the model appends it, so the position of a created or recreated AVD in the listing (and hence which candidate a later run tries first) is a convention, not a promise of the code.
- EmulatorHelper.AvdRegistry.CreateEmulator: the model assumes avdmanager creates the AVD. A failed creation, which `ignoreError = true` lets pass silently, would leave the AVD missing, and that case is not modelled.
- EmulatorHelper.NextPort: the `adb devices` answer is fixed for the whole search, while the code asks again on every recursive call. A failing `adb devices` is modelled on the first call (no marker claimed, the AVD deleted, the error rethrown); a failure on a later call, after a lost claim, is not. The `debug` flag of `launchEmulator` only redirects output.
- Device.RemoveExistingTestTarget: an uninstall is taken to remove the package's instrumentation lines. If the device refuses an uninstall (ignored by `ignoreError = true`), the code loops forever; that case is not modelled.
- WaitForEmulatorBoot: a poll's answer is whatever lines the command printed; the model does not tell a failed poll from an empty one.
- TestRunListener.Listener.PropertiesAttributes: the map is unordered, so the `LinkedHashMap` order is not modelled.
- TestRunListener.Listener.TestEnded: a null metric value is treated like a missing one, and the write itself is a map update.
- TestRunListener.ModifiedTraceKeepsTwoLines: stated only for first two lines without a carriage return. `trimMargin` also splits at `\r`, and that split is not characterised.
- TestRunListener.Lines: the contract states only that there is at least one line and that a break-free text is a single line; LinesHaveNoBreaks adds that no line holds a break. Where a `\n`, `\r` or `\r\n` splits the text is fixed by its definition but not characterised.
- TestRunListener.ModifiedTrace: the unchanged case is stated for traces without a newline. A longer trace whose extra lines are all empty is also returned unchanged, by its definition.
- Strings.ToIntOrNull: digits are the ASCII `0`-`9` only. Kotlin's `toIntOrNull` also accepts the other Unicode decimal digits, which the model parses as no number.
- Runner.CleanFlag and Strings.EqualsIgnoreCase: case folding covers ASCII letters only.
- Runner.RunMain: a failure before the hook is registered (`getOrCreateEmulator`, `launchEmulator`) propagates without cleanup; that path is `Runner.PrepareEmulator`'s error result.
- Utils.RandomString: `allowedChars.random()` is replaced by `draw`, which picks the pool entry for each position.
