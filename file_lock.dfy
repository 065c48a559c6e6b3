/** Claim markers under /tmp (helpers/FileLockExt.kt).

    A device or a port is claimed by creating an empty marker file whose
    name is derived from it; the file's existence is the claim. The model
    keeps the set of marker paths that exist. */
module FileLock {
  import opened Strings

  /** The two fixed paths of the blocking phase locks. */
  const DevicePhaseLock: string := "/tmp/device.lock"
  const EmulatorPhaseLock: string := "/tmp/emulator.lock"

  /** Marker of a claimed AVD name. */
  function DeviceLockPath(avdName: string): string {
    "/tmp/device-" + avdName + ".lock"
  }

  /** Marker of a claimed console port. */
  function PortLockPath(port: int): string {
    "/tmp/emulator-" + IntToString(port) + ".lock"
  }

  /** A device marker splits into its directory prefix, the AVD name and
      the extension. */
  lemma DeviceLockPathParts(avdName: string)
    ensures var p := DeviceLockPath(avdName);
            && |p| == |avdName| + 17
            && p[..12] == "/tmp/device-" && p[12..|p| - 5] == avdName && p[|p| - 5..] == ".lock"
  {
  }

  /** A port marker splits into its directory prefix, the port in decimal
      and the extension. */
  lemma PortLockPathParts(port: int)
    ensures var p := PortLockPath(port);
            && |p| == |IntToString(port)| + 19
            && p[..14] == "/tmp/emulator-" && p[14..|p| - 5] == IntToString(port) && p[|p| - 5..] == ".lock"
  {
  }

  /** Different AVD names have different markers. */
  lemma DeviceLockPathInjective(a: string, b: string)
    requires DeviceLockPath(a) == DeviceLockPath(b)
    ensures a == b
  {
    var p := DeviceLockPath(a);
    assert a == p[12..|p| - 5];
    assert b == DeviceLockPath(b)[12..|p| - 5];
  }

  /** Different ports have different markers. */
  lemma PortLockPathInjective(a: int, b: int)
    requires PortLockPath(a) == PortLockPath(b)
    ensures a == b
  {
    var p := PortLockPath(a);
    assert IntToString(a) == p[14..|p| - 5];
    assert IntToString(b) == PortLockPath(b)[14..|p| - 5];
    IntToStringInjective(a, b);
  }

  /** Device markers, port markers and the two phase-lock files are four
      disjoint kinds of path. */
  lemma LockNamespacesDisjoint(avdName: string, port: int)
    ensures DeviceLockPath(avdName) != PortLockPath(port)
    ensures DeviceLockPath(avdName) != DevicePhaseLock
    ensures DeviceLockPath(avdName) != EmulatorPhaseLock
    ensures PortLockPath(port) != DevicePhaseLock
    ensures PortLockPath(port) != EmulatorPhaseLock
    ensures DevicePhaseLock != EmulatorPhaseLock
  {
    var d, p := DeviceLockPath(avdName), PortLockPath(port);
    assert d[5] == 'd' && p[5] == 'e';
    assert d[11] == '-' && DevicePhaseLock[11] == '.';
    assert EmulatorPhaseLock[5] == 'e';
    assert p[13] == '-' && EmulatorPhaseLock[13] == '.';
    assert DevicePhaseLock[5] == 'd';
  }

  /** Claiming a device leaves every port claim as it was. */
  lemma DeviceClaimKeepsPorts(files: set<string>, avdName: string, port: int)
    ensures PortLockPath(port) in files + {DeviceLockPath(avdName)} <==> PortLockPath(port) in files
  {
    LockNamespacesDisjoint(avdName, port);
  }

  /** Claiming a port leaves every device claim as it was. */
  lemma PortClaimKeepsDevices(files: set<string>, port: int, avdName: string)
    ensures DeviceLockPath(avdName) in files + {PortLockPath(port)} <==> DeviceLockPath(avdName) in files
  {
    LockNamespacesDisjoint(avdName, port);
  }

  /** The marker files that exist on the host. */
  class LockDir {
    var files: set<string>

    constructor(existing: set<string>)
      ensures files == existing
    {
      files := existing;
    }

    predicate DeviceClaimed(avdName: string)
      reads this
    {
      DeviceLockPath(avdName) in files
    }

    predicate PortClaimed(port: int)
      reads this
    {
      PortLockPath(port) in files
    }

    /** `createEmulatorLockFile`: false, with nothing changed, when the
        marker exists; otherwise the marker is created and the result is true. */
    method CreateEmulatorLockFile(avdName: string) returns (created: bool)
      modifies this
      ensures created == !old(DeviceClaimed(avdName))
      ensures files == old(files) + {DeviceLockPath(avdName)}
      ensures DeviceClaimed(avdName)
    {
      var file := DeviceLockPath(avdName);
      if file in files {
        return false;
      }
      files := files + {file};
      return true;
    }

    /** `createPortLockFile`: the same try-claim on the port's marker. */
    method CreatePortLockFile(port: int) returns (created: bool)
      modifies this
      ensures created == !old(PortClaimed(port))
      ensures files == old(files) + {PortLockPath(port)}
      ensures PortClaimed(port)
    {
      var file := PortLockPath(port);
      if file in files {
        return false;
      }
      files := files + {file};
      return true;
    }
  }

  /** Two claims of one name in a row: only the first can succeed, and the
      second always fails. */
  method ClaimTwice(dir: LockDir, avdName: string) returns (first: bool, second: bool)
    modifies dir
    ensures first == !old(dir.DeviceClaimed(avdName)) && !second
    ensures dir.files == old(dir.files) + {DeviceLockPath(avdName)}
  {
    first := dir.CreateEmulatorLockFile(avdName);
    second := dir.CreateEmulatorLockFile(avdName);
  }
}
