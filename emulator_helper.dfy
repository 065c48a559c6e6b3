/** Choosing an AVD and a console port for this run
    (helpers/EmulatorHelper.kt).

    The AVD definitions that `avdmanager` knows are an `AvdRegistry`; the
    claim markers are a `FileLock.LockDir`; what `adb devices` prints is an
    input. `EmulatorHelper` itself holds no state. */
module EmulatorHelper {
  import opened Common
  import opened Strings
  import opened Utils
  import opened FileLock
  import AdbHelper

  // ---------------------------------------------------------------------
  // PORT_RANGE

  const LowestPort: int := 5554
  const HighestPort: int := 5810

  /** `(lo..hi).filter { it % 2 == 0 }` */
  function EvensBetween(lo: int, hi: int): (r: seq<int>)
    decreases hi - lo
    ensures forall i | 0 <= i < |r| :: lo <= r[i] <= hi && r[i] % 2 == 0
  {
    if lo > hi then [] else (if lo % 2 == 0 then [lo] else []) + EvensBetween(lo + 1, hi)
  }

  /** Even numbers from an even start: start, start + 2, ... up to `hi`. */
  function StepTwo(lo: int, hi: int): seq<int>
    requires lo <= hi + 1
  {
    seq((hi - lo) / 2 + 1, i => lo + 2 * i)
  }

  /** The filtered range is that stepped sequence, for any even start. */
  lemma {:induction false} EvensBetweenIsStepTwo(lo: int, hi: int)
    requires lo % 2 == 0 && lo <= hi
    decreases hi - lo
    ensures EvensBetween(lo, hi) == StepTwo(lo, hi)
  {
    var odd := lo + 1;
    assert odd % 2 == 1;
    assert EvensBetween(odd, hi) == if odd > hi then [] else EvensBetween(lo + 2, hi);
    assert EvensBetween(lo, hi) == [lo] + EvensBetween(lo + 2, hi);
    StepTwoCons(lo, hi);
    if lo + 2 <= hi {
      EvensBetweenIsStepTwo(lo + 2, hi);
    }
  }

  /** The stepped sequence is its start followed by the sequence from
      start + 2. */
  lemma StepTwoCons(lo: int, hi: int)
    requires lo <= hi
    ensures StepTwo(lo, hi) == [lo] + (if lo + 2 <= hi then StepTwo(lo + 2, hi) else [])
  {
    var a := StepTwo(lo, hi);
    var n := (hi - lo) / 2;
    assert |a| == n + 1 && a[0] == lo;
    if lo + 2 <= hi {
      var b := StepTwo(lo + 2, hi);
      assert n == (hi - (lo + 2)) / 2 + 1;
      assert |b| == n;
      forall i | 0 <= i < n
        ensures a[i + 1] == b[i]
      {
      }
      assert a == [lo] + b;
    } else {
      assert n == 0;
    }
  }

  /** `PORT_RANGE`, as the stepped sequence that `(5554..5810).filter { it % 2 == 0 }`
      yields (`EvensBetweenIsStepTwo`). */
  function PortRange(): (r: seq<int>)
    ensures |r| == 129 && r[0] == LowestPort && r[|r| - 1] == HighestPort
  {
    StepTwo(LowestPort, HighestPort)
  }

  predicate Ascending(ports: seq<int>) {
    forall i, j | 0 <= i < j < |ports| :: ports[i] < ports[j]
  }

  /** `PORT_RANGE` is the 129 even ports from 5554 to 5810, ascending. */
  lemma PortRangeIsEvenPorts()
    ensures |PortRange()| == 129
    ensures Ascending(PortRange())
    ensures forall p :: p in PortRange() <==> LowestPort <= p <= HighestPort && p % 2 == 0
  {
    var r := PortRange();
    forall p
      ensures p in r <==> LowestPort <= p <= HighestPort && p % 2 == 0
    {
      if LowestPort <= p <= HighestPort && p % 2 == 0 {
        assert r[(p - LowestPort) / 2] == p;
      }
    }
  }

  // ---------------------------------------------------------------------
  // The serial of an emulator, and reading a port back from a serial

  /** A launched emulator: its AVD name and console port. */
  datatype Emulator = Emulator(deviceName: string, port: int) {
    /** `serial = "emulator-$port"` */
    function Serial(): (r: string)
      ensures StartsWith(r, "emulator-")
    {
      "emulator-" + IntToString(port)
    }
  }

  /** `it.removePrefix("emulator-").toIntOrNull()` as `nextPort` applies it. */
  function PortOfSerial(serial: string): (r: Option<int>)
    ensures r.Some? ==> IsInt32(r.value)
    ensures StartsWith(serial, "emulator-") ==> r == ToIntOrNull(serial[9..])
    ensures !StartsWith(serial, "emulator-") ==> r == ToIntOrNull(serial)
  {
    ToIntOrNull(RemovePrefix(serial, "emulator-"))
  }

  /** Reading the port back out of an emulator's serial gives its port. */
  lemma SerialRoundTrip(e: Emulator)
    requires IsInt32(e.port)
    ensures PortOfSerial(e.Serial()) == Some(e.port)
  {
    assert StartsWith(e.Serial(), "emulator-");
    assert RemovePrefix(e.Serial(), "emulator-") == IntToString(e.port);
    IntRoundTrip(e.port);
  }

  /** `serials.mapNotNull { ... }`: ports of the serials that parse. */
  function PortsOf(serials: seq<string>): (r: seq<int>)
    ensures forall p :: p in r <==> exists s | s in serials :: PortOfSerial(s) == Some(p)
  {
    if serials == [] then []
    else
      var rest := PortsOf(serials[1..]);
      assert forall s | s in serials :: s == serials[0] || s in serials[1..];
      match PortOfSerial(serials[0])
      case Some(p) => [p] + rest
      case None => rest
  }

  /** The ports of the emulators that `adb devices` lists. */
  function RunningPorts(adbDevices: seq<string>): (r: seq<int>)
    ensures forall p :: p in r <==>
              exists s | s in AdbHelper.FindSerials(adbDevices) :: PortOfSerial(s) == Some(p)
  {
    PortsOf(AdbHelper.FindSerials(adbDevices))
  }

  /** An emulator that `adb devices` lists under its serial counts as running. */
  lemma ListedEmulatorIsRunning(adbDevices: seq<string>, e: Emulator, i: int)
    requires IsInt32(e.port)
    requires 0 <= i < |adbDevices| && AdbHelper.ListsSerial(adbDevices[i], e.Serial())
    ensures e.port in RunningPorts(adbDevices)
  {
    SerialRoundTrip(e);
    assert e.Serial() in AdbHelper.FindSerials(adbDevices);
  }

  // ---------------------------------------------------------------------
  // nextPort

  /** `PORT_RANGE.first { it !in serials && it > from }`, or None where
      `first` throws. */
  function FirstAbove(ports: seq<int>, floor: int, running: seq<int>): (r: Option<int>)
    ensures r.Some? ==> r.value in ports && r.value !in running && r.value > floor
    ensures r.None? ==> forall p | p in ports :: p in running || p <= floor
  {
    if ports == [] then None
    else if ports[0] !in running && ports[0] > floor then Some(ports[0])
    else
      assert forall p | p in ports :: p == ports[0] || p in ports[1..];
      FirstAbove(ports[1..], floor, running)
  }

  /** The port `nextPort(floor)` settles on: the first port of the list above
      `floor` that is neither running nor already claimed. */
  function FreePort(ports: seq<int>, floor: int, running: seq<int>, files: set<string>): (r: Option<int>)
    ensures r.Some? ==>
              r.value in ports && r.value > floor && r.value !in running && PortLockPath(r.value) !in files
    ensures r.None? ==>
              forall p | p in ports && p > floor && p !in running :: PortLockPath(p) in files
  {
    if ports == [] then None
    else if ports[0] !in running && ports[0] > floor && PortLockPath(ports[0]) !in files then Some(ports[0])
    else
      assert forall p | p in ports :: p == ports[0] || p in ports[1..];
      FreePort(ports[1..], floor, running, files)
  }

  lemma AscendingTail(ports: seq<int>)
    requires Ascending(ports) && ports != []
    ensures Ascending(ports[1..])
    ensures forall p | p in ports[1..] :: p > ports[0]
  {
    forall p | p in ports[1..]
      ensures p > ports[0]
    {
      var j :| 0 <= j < |ports[1..]| && ports[1..][j] == p;
      assert ports[j + 1] == p;
    }
  }

  /** The chosen port is the smallest free one: every smaller port of the
      list above `floor` is running or claimed. */
  lemma {:induction false} FreePortIsLeast(ports: seq<int>, floor: int, running: seq<int>, files: set<string>)
    requires Ascending(ports)
    requires FreePort(ports, floor, running, files).Some?
    ensures forall q | q in ports && floor < q < FreePort(ports, floor, running, files).value && q !in running ::
              PortLockPath(q) in files
  {
    if !(ports[0] !in running && ports[0] > floor && PortLockPath(ports[0]) !in files) {
      AscendingTail(ports);
      FreePortIsLeast(ports[1..], floor, running, files);
      assert forall q | q in ports :: q == ports[0] || q in ports[1..];
    }
  }

  /** Raising the floor to a port that only running or claimed ports sit
      below leaves the answer unchanged. */
  lemma {:induction false} FreePortRaiseFloor(ports: seq<int>, floor: int, c: int, running: seq<int>, files: set<string>)
    requires Ascending(ports)
    requires FirstAbove(ports, floor, running) == Some(c)
    requires PortLockPath(c) in files
    ensures FreePort(ports, floor, running, files) == FreePort(ports, c, running, files)
  {
    AscendingTail(ports);
    if ports[0] !in running && ports[0] > floor {
      assert ports[0] == c;
      FreePortSameAbove(ports[1..], floor, c, running, files);
    } else {
      FreePortRaiseFloor(ports[1..], floor, c, running, files);
    }
  }

  /** Two floors below every port of the list give the same answer. */
  lemma {:induction false} FreePortSameAbove(ports: seq<int>, f1: int, f2: int, running: seq<int>, files: set<string>)
    requires forall p | p in ports :: p > f1 && p > f2
    ensures FreePort(ports, f1, running, files) == FreePort(ports, f2, running, files)
  {
    if ports != [] {
      assert forall p | p in ports[1..] :: p in ports;
      FreePortSameAbove(ports[1..], f1, f2, running, files);
    }
  }

  /** When the first candidate is unclaimed, it is the answer. */
  lemma {:induction false} FreePortTakesUnclaimed(ports: seq<int>, floor: int, c: int, running: seq<int>, files: set<string>)
    requires FirstAbove(ports, floor, running) == Some(c)
    requires PortLockPath(c) !in files
    ensures FreePort(ports, floor, running, files) == Some(c)
  {
    if !(ports[0] !in running && ports[0] > floor) {
      FreePortTakesUnclaimed(ports[1..], floor, c, running, files);
    }
  }

  /** With no candidate left there is no free port either. */
  lemma {:induction false} FreePortNoneAbove(ports: seq<int>, floor: int, running: seq<int>, files: set<string>)
    requires FirstAbove(ports, floor, running).None?
    ensures FreePort(ports, floor, running, files).None?
  {
    if ports != [] {
      FreePortNoneAbove(ports[1..], floor, running, files);
    }
  }

  /** What `nextPort(from)` returns on a host whose markers are `files`. */
  function NextPortSpec(from: int, running: seq<int>, files: set<string>): (r: Result<int>)
    ensures r.Err? ==> r.error == PortRangeExhausted
    ensures r.Ok? ==> r.value in PortRange()
  {
    match FreePort(PortRange(), from, running, files)
    case Some(p) => Ok(p)
    case None => Err(PortRangeExhausted)
  }

  /** The port `nextPort` returns is in `PORT_RANGE`, above the floor, not
      running, was not claimed, and is the smallest such port; when it
      fails, every such port was already claimed. */
  lemma NextPortSpecIsLeastFree(from: int, running: seq<int>, files: set<string>)
    ensures var r := NextPortSpec(from, running, files);
            r.Ok? ==>
              && LowestPort <= r.value <= HighestPort && r.value % 2 == 0
              && r.value > from && r.value !in running && PortLockPath(r.value) !in files
              && forall q | from < q < r.value && q % 2 == 0 && LowestPort <= q && q !in running ::
                   PortLockPath(q) in files
    ensures var r := NextPortSpec(from, running, files);
            r.Err? ==>
              forall q | from < q <= HighestPort && q % 2 == 0 && LowestPort <= q && q !in running ::
                PortLockPath(q) in files
  {
    PortRangeIsEvenPorts();
    if FreePort(PortRange(), from, running, files).Some? {
      FreePortIsLeast(PortRange(), from, running, files);
    }
  }

  /** What `nextPort(from)` returns given the answer of `adb devices`
      (`None` when that command fails, which makes `findSerials` throw). */
  function NextPortOutcome(from: int, adbDevices: Option<seq<string>>, files: set<string>): (r: Result<int>)
    ensures adbDevices.None? ==> r == Err(CommandFailed)
    ensures r.Err? && adbDevices.Some? ==> r.error == PortRangeExhausted
    ensures r.Ok? ==> adbDevices.Some? && r.value in PortRange()
  {
    match adbDevices
    case None => Err(CommandFailed)
    case Some(devices) => NextPortSpec(from, RunningPorts(devices), files)
  }

  /** `nextPort(from)`: the recursion on a raised floor, written as a loop.
      Each round takes the first port above the floor that no running
      emulator uses and tries to claim it; a lost claim raises the floor to
      that port. A failing `adb devices` throws before any claim is made. */
  method NextPort(dir: LockDir, adbDevices: Option<seq<string>>, from: int) returns (r: Result<int>)
    modifies dir
    ensures r == NextPortOutcome(from, adbDevices, old(dir.files))
    ensures r.Ok? ==> dir.files == old(dir.files) + {PortLockPath(r.value)}
    ensures r.Err? ==> dir.files == old(dir.files)
  {
    if adbDevices.None? {
      return Err(CommandFailed);
    }
    PortRangeIsEvenPorts();
    var port := ClaimFirstFree(dir, PortRange(), HighestPort, RunningPorts(adbDevices.value), from);
    r := match port case Some(p) => Ok(p) case None => Err(PortRangeExhausted);
  }

  /** The loop of `nextPort` over any ascending list of ports bounded by
      `hi`: the claimed port is `FreePort` of the markers on entry. */
  method ClaimFirstFree(dir: LockDir, ports: seq<int>, hi: int, running: seq<int>, from: int) returns (r: Option<int>)
    requires Ascending(ports)
    requires forall p | p in ports :: p <= hi
    modifies dir
    ensures r == FreePort(ports, from, running, old(dir.files))
    ensures r.Some? ==> dir.files == old(dir.files) + {PortLockPath(r.value)}
    ensures r.None? ==> dir.files == old(dir.files)
  {
    var floor := from;
    while true
      invariant dir.files == old(dir.files)
      invariant FreePort(ports, floor, running, dir.files) == FreePort(ports, from, running, dir.files)
      decreases hi - floor
    {
      var candidate := FirstAbove(ports, floor, running);
      if candidate.None? {
        assert FreePort(ports, floor, running, dir.files).None? by {
          FreePortNoneAbove(ports, floor, running, dir.files);
        }
        return None;
      }
      var port := candidate.value;
      var created := dir.CreatePortLockFile(port);
      if created {
        assert FreePort(ports, floor, running, old(dir.files)) == Some(port) by {
          FreePortTakesUnclaimed(ports, floor, port, running, old(dir.files));
        }
        return Some(port);
      }
      assert FreePort(ports, floor, running, dir.files) == FreePort(ports, port, running, dir.files) by {
        FreePortRaiseFloor(ports, floor, port, running, dir.files);
      }
      floor := port;
    }
  }

  // ---------------------------------------------------------------------
  // The device prefix

  /** Kotlin's `String.replace(target, "")`: occurrences removed left to
      right; a string without the target is returned unchanged. */
  function RemoveAll(s: string, target: string): (r: string)
    requires target != []
    ensures |r| <= |s|
    ensures !Contains(s, target) ==> r == s
    ensures StartsWith(s, target) ==> r == RemoveAll(s[|target|..], target)
  {
    if StartsWith(s, target) then
      assert Contains(s, target) by { StartsWithContains(s, target); }
      RemoveAll(s[|target|..], target)
    else if s == [] then []
    else
      assert Contains(s[1..], target) ==> Contains(s, target) by {
        if Contains(s[1..], target) { ContainsInTail(s, target); }
      }
      [s[0]] + RemoveAll(s[1..], target)
  }

  /** A text that does not start with the target keeps its first character. */
  lemma RemoveAllSkip(s: string, target: string)
    requires target != [] && s != [] && !StartsWith(s, target)
    ensures RemoveAll(s, target) == [s[0]] + RemoveAll(s[1..], target)
  {
  }

  /** The first occurrence decides: when no occurrence starts inside `pre`,
      `replace` keeps `pre`, drops the `target` after it and scans on in
      the rest. */
  lemma {:induction false} RemoveAllAtFirst(pre: string, target: string, rest: string)
    requires target != []
    requires forall j | 0 <= j < |pre| :: !StartsWith((pre + target + rest)[j..], target)
    ensures RemoveAll(pre + target + rest, target) == pre + RemoveAll(rest, target)
  {
    var s := pre + target + rest;
    if pre == [] {
      assert s == target + rest;
      assert StartsWith(s, target) && s[|target|..] == rest;
    } else {
      var tail := pre[1..] + target + rest;
      assert s[0..] == s && s[1..] == tail;
      RemoveAllSkip(s, target);
      forall j | 0 <= j < |pre| - 1
        ensures !StartsWith(tail[j..], target)
      {
        assert tail[j..] == s[j + 1..];
      }
      RemoveAllAtFirst(pre[1..], target, rest);
      var r := RemoveAll(rest, target);
      assert s[0] == pre[0];
      assert RemoveAll(s, target) == [pre[0]] + (pre[1..] + r);
      AppendThree([pre[0]], pre[1..], r);
      HeadTail(pre);
    }
  }

  /** The regex class `[;_\s]`; `\s` is Java's ASCII whitespace. */
  predicate IsPrefixSeparator(c: char) {
    c == ';' || c == '_' || c == ' ' || c == '\t' || c == '\n'
    || c == '\U{000B}' || c == '\U{000C}' || c == '\r'
  }

  function DashSeparators(s: string): (r: string)
    ensures |r| == |s|
    ensures forall i | 0 <= i < |r| :: !IsPrefixSeparator(r[i])
    ensures forall i | 0 <= i < |r| :: r[i] == if IsPrefixSeparator(s[i]) then '-' else s[i]
  {
    if s == [] then []
    else [if IsPrefixSeparator(s[0]) then '-' else s[0]] + DashSeparators(s[1..])
  }

  /** The AVD name prefix of `getOrCreateEmulator`. */
  function DevicePrefix(systemImg: string, deviceDef: string): (r: string)
    ensures |r| <= |systemImg| + 1 + |deviceDef|
    ensures forall i | 0 <= i < |r| :: !IsPrefixSeparator(r[i])
  {
    DashSeparators(RemoveAll(systemImg + "-" + deviceDef, "system-images;"))
  }

  /** The prefix never holds `system-images;`: the tag's semicolon cannot
      survive, even where removing one tag closes up another. */
  lemma PrefixHasNoSystemImagesTag(systemImg: string, deviceDef: string)
    ensures !Contains(DevicePrefix(systemImg, deviceDef), "system-images;")
  {
    var r := DevicePrefix(systemImg, deviceDef);
    AdbHelper.ContainsChar(r, "system-images;", ';');
    assert "system-images;"[13] == ';';
    assert ';' !in r;
  }

  /** For a package path `system-images;<t>` whose remainder holds no
      further tag, the prefix is `<t>-<deviceDef>` with every separator
      turned into a dash: exactly the leading tag is dropped. */
  lemma DevicePrefixOfPackage(t: string, deviceDef: string)
    requires !Contains(t + "-" + deviceDef, "system-images;")
    ensures DevicePrefix("system-images;" + t, deviceDef) == DashSeparators(t + "-" + deviceDef)
  {
    var tag, rest := "system-images;", t + "-" + deviceDef;
    assert ("system-images;" + t) + "-" + deviceDef == tag + rest;
    assert (tag + rest)[..|tag|] == tag;
    assert (tag + rest)[|tag|..] == rest;
  }

  /** Only the lines of `avdmanager list avd -c` that start with the prefix. */
  function Candidates(avds: seq<string>, prefix: string): (r: seq<string>)
    ensures forall n | n in r :: StartsWith(n, prefix) && n in avds
    ensures forall n | n in avds && StartsWith(n, prefix) :: n in r
  {
    if avds == [] then []
    else
      var rest := Candidates(avds[1..], prefix);
      assert forall n | n in avds :: n == avds[0] || n in avds[1..];
      if StartsWith(avds[0], prefix) then [avds[0]] + rest else rest
  }

  /** Candidates keep the listing order: an AVD listed last is, when it has
      the prefix, the last candidate. */
  lemma {:induction false} CandidatesSnoc(avds: seq<string>, name: string, prefix: string)
    ensures Candidates(avds + [name], prefix)
            == Candidates(avds, prefix) + (if StartsWith(name, prefix) then [name] else [])
  {
    if avds == [] {
      assert avds + [name] == [name];
      assert Candidates([], prefix) == [];
      assert Candidates([name], prefix) == (if StartsWith(name, prefix) then [name] else []) + Candidates([], prefix);
    } else {
      assert (avds + [name])[0] == avds[0];
      assert (avds + [name])[1..] == avds[1..] + [name];
      CandidatesSnoc(avds[1..], name, prefix);
    }
  }

  /** Index of the first candidate whose marker does not exist yet. */
  function FirstUnclaimed(candidates: seq<string>, files: set<string>): (k: nat)
    ensures k <= |candidates|
    ensures forall j | 0 <= j < k :: DeviceLockPath(candidates[j]) in files
    ensures k < |candidates| ==> DeviceLockPath(candidates[k]) !in files
  {
    if candidates == [] || DeviceLockPath(candidates[0]) !in files then 0
    else 1 + FirstUnclaimed(candidates[1..], files)
  }

  /** The index where the claims stop is the first unclaimed one. */
  lemma {:induction false} FirstUnclaimedIs(candidates: seq<string>, files: set<string>, i: nat)
    requires i <= |candidates|
    requires forall j | 0 <= j < i :: DeviceLockPath(candidates[j]) in files
    requires i < |candidates| ==> DeviceLockPath(candidates[i]) !in files
    ensures FirstUnclaimed(candidates, files) == i
  {
    if i > 0 {
      assert DeviceLockPath(candidates[0]) in files;
      assert forall j | 0 <= j < i - 1 :: candidates[1..][j] == candidates[j + 1];
      FirstUnclaimedIs(candidates[1..], files, i - 1);
    }
  }

  /** `names` without `name`. */
  function Without(names: seq<string>, name: string): (r: seq<string>)
    ensures name !in r
    ensures forall n | n != name :: n in r <==> n in names
  {
    if names == [] then []
    else
      var rest := Without(names[1..], name);
      assert forall n | n in names :: n == names[0] || n in names[1..];
      if names[0] == name then rest else [names[0]] + rest
  }

  /** The AVD definitions, in the order `avdmanager list avd -c` lists them. */
  class AvdRegistry {
    var avds: seq<string>

    constructor(existing: seq<string>)
      ensures avds == existing
    {
      avds := existing;
    }

    /** `createEmulator`: the name becomes known. Where avdmanager lists a
        new definition is not documented; the model's convention is that it
        comes last. Creating an existing name is refused by avdmanager and
        ignored here, as `ignoreError = true` does. */
    method CreateEmulator(deviceName: string)
      modifies this
      ensures avds == if deviceName in old(avds) then old(avds) else old(avds) + [deviceName]
      ensures deviceName in avds
    {
      if deviceName !in avds {
        avds := avds + [deviceName];
      }
    }

    /** `deleteEmulator` */
    method DeleteEmulator(deviceName: string)
      modifies this
      ensures avds == Without(old(avds), deviceName)
    {
      avds := Without(avds, deviceName);
    }
  }

  /** `getOrCreateEmulator`: the first listed AVD with the prefix whose claim
      succeeds is used (deleted and recreated first when `clean`); when none
      can be claimed, a new `prefix-<10 chars>` AVD is created and claimed.
      `draw` stands for the random characters. */
  method GetOrCreateEmulator(dir: LockDir, registry: AvdRegistry, systemImg: string, deviceDef: string,
                             clean: bool, draw: nat -> nat)
    returns (deviceName: string)
    modifies dir, registry
    ensures var prefix := DevicePrefix(systemImg, deviceDef);
            var candidates := Candidates(old(registry.avds), prefix);
            var k := FirstUnclaimed(candidates, old(dir.files));
            && deviceName == (if k < |candidates| then candidates[k] else GenerateDeviceName(prefix, draw))
            && (k < |candidates| && !clean ==> registry.avds == old(registry.avds))
            && (k < |candidates| && clean ==>
                  registry.avds == Without(old(registry.avds), deviceName) + [deviceName])
            && (k == |candidates| && deviceName !in old(registry.avds) ==>
                  registry.avds == old(registry.avds) + [deviceName])
            && (k == |candidates| && deviceName in old(registry.avds) ==>
                  registry.avds == old(registry.avds))
    ensures StartsWith(deviceName, DevicePrefix(systemImg, deviceDef))
    ensures dir.files == old(dir.files) + {DeviceLockPath(deviceName)}
    ensures deviceName in registry.avds
  {
    var prefix := DevicePrefix(systemImg, deviceDef);
    var devices := Candidates(registry.avds, prefix);
    var i := 0;
    while i < |devices|
      invariant 0 <= i <= |devices|
      invariant dir.files == old(dir.files) && registry.avds == old(registry.avds)
      invariant forall j | 0 <= j < i :: DeviceLockPath(devices[j]) in old(dir.files)
    {
      var locked := dir.CreateEmulatorLockFile(devices[i]);
      if locked {
        assert FirstUnclaimed(devices, old(dir.files)) == i by {
          FirstUnclaimedIs(devices, old(dir.files), i);
        }
        var lockedDevice := devices[i];
        if clean {
          registry.DeleteEmulator(lockedDevice);
          registry.CreateEmulator(lockedDevice);
        }
        return lockedDevice;
      }
      i := i + 1;
    }
    assert FirstUnclaimed(devices, old(dir.files)) == |devices| by {
      FirstUnclaimedIs(devices, old(dir.files), |devices|);
    }
    var newDeviceName := GenerateDeviceName(prefix, draw);
    registry.CreateEmulator(newDeviceName);
    var _ := dir.CreateEmulatorLockFile(newDeviceName);
    return newDeviceName;
  }

  /** `launchEmulator`: claims a port by `nextPort()` and starts the
      emulator on it; `processStarts` is whether ProcessBuilder.start
      succeeds, `adbDevices` the answer of `adb devices` (`None` when it
      fails). On failure the AVD definition is deleted and the error
      propagates; a port claim already made stays until the process exits. */
  method LaunchEmulator(dir: LockDir, registry: AvdRegistry, adbDevices: Option<seq<string>>,
                        deviceName: string, processStarts: bool)
    returns (r: Result<Emulator>)
    modifies dir, registry
    ensures var port := NextPortOutcome(0, adbDevices, old(dir.files));
            && (port.Ok? ==> dir.files == old(dir.files) + {PortLockPath(port.value)})
            && (port.Err? ==> dir.files == old(dir.files))
            && (port.Ok? && processStarts ==>
                  r == Ok(Emulator(deviceName, port.value)) && registry.avds == old(registry.avds))
            && (port.Ok? && !processStarts ==>
                  r == Err(ProcessStartFailed) && registry.avds == Without(old(registry.avds), deviceName))
            && (port.Err? ==>
                  r == Err(port.error) && registry.avds == Without(old(registry.avds), deviceName))
  {
    var port := NextPort(dir, adbDevices, 0);
    if port.Err? {
      registry.DeleteEmulator(deviceName);
      return Err(port.error);
    }
    if !processStarts {
      registry.DeleteEmulator(deviceName);
      return Err(ProcessStartFailed);
    }
    return Ok(Emulator(deviceName, port.value));
  }
}
