/**
  The device-id lookup chain of the Win32 platform adapter (`platform_get_device_id`).

  The machine id lives in the registry value `MachineId` under
  `HKEY_LOCAL_MACHINE\Software\Microsoft\SQMClient`. The adapter first reads it through the
  registry view of its own bitness; if that read fails it opens the key again through the
  64-bit view (KEY_WOW64_64KEY), for a 32-bit binary running on 64-bit Windows. The first
  read that succeeds wins, and only then is the caller's buffer written.

  The registry is not modelled: what each view would answer is an input.
*/
module DeviceId {

  import opened Wrappers

  /** The adapter's local `char value[255]`, the most RegGetValueA may write. */
  const VALUE_BUFFER_SIZE: nat := 255

  /** The two registry views the adapter opens the key through, in the order it tries them. */
  datatype KeyView = NativeView | Wow64View64

  /**
    What the registry answers through one view: whether RegOpenKeyExA opens the key, and
    the string stored as MachineId, if there is one.
  */
  datatype RegistryView = RegistryView(keyOpens: bool, machineId: Option<string>)

  /**
    RegGetValueA returns ERROR_SUCCESS when the key was opened, the value exists, and the
    value with its terminating NUL fits the 255-byte buffer (otherwise it reports
    ERROR_MORE_DATA). Each character is taken to occupy one byte.
  */
  predicate ReadSucceeds(view: RegistryView) {
    view.keyOpens && view.machineId.Some? && |view.machineId.value| < VALUE_BUFFER_SIZE
  }

  // ---------------------------------------------------------------------------
  // C strings

  /** strlen: the number of characters before the first NUL (all of them if there is none). */
  function CLength(s: seq<char>): (n: nat)
    ensures n <= |s|
    ensures forall i :: 0 <= i < n ==> s[i] != '\0'
    ensures n < |s| ==> s[n] == '\0'
  {
    if s == [] || s[0] == '\0' then 0 else 1 + CLength(s[1..])
  }

  /** The C string a NUL-terminated buffer holds, as "%s" would print it. */
  function CString(s: seq<char>): (t: string)
    ensures |t| <= |s| && '\0' !in t
    ensures t == s[..|t|]
    ensures |t| < |s| ==> s[|t|] == '\0'
  {
    s[..CLength(s)]
  }

  /** A string without NUL characters, followed by a NUL, reads back as itself. */
  lemma {:induction false} CStringOfTerminated(t: string, tail: seq<char>)
    requires '\0' !in t
    ensures CLength(t + ['\0'] + tail) == |t|
    ensures CString(t + ['\0'] + tail) == t
  {
    if t != [] {
      assert (t + ['\0'] + tail)[1..] == t[1..] + ['\0'] + tail;
      CStringOfTerminated(t[1..], tail);
    }
  }

  /** Appending to a buffer that already holds a NUL does not change its C string. */
  lemma {:induction false} CStringExtend(s: seq<char>, tail: seq<char>)
    requires CLength(s) < |s|
    ensures CLength(s + tail) == CLength(s)
    ensures CString(s + tail) == CString(s)
  {
    if s[0] != '\0' {
      assert (s + tail)[1..] == s[1..] + tail;
      CStringExtend(s[1..], tail);
    }
  }

  /** A C string is what it holds up to its first NUL. */
  lemma {:induction false} CStringPrefix(s: seq<char>, k: nat)
    requires CLength(s) < k <= |s|
    ensures CString(s[..k]) == CString(s)
  {
    if CLength(s) > 0 {
      assert s[..k][1..] == s[1..][..k - 1];
      CStringPrefix(s[1..], k - 1);
    }
  }

  /** A buffer that agrees with src up to and including src's first NUL holds src's C string. */
  lemma CStringOfCopy(buf: seq<char>, src: seq<char>)
    requires CLength(src) < |src| && CLength(src) < |buf|
    requires buf[..CLength(src) + 1] == src[..CLength(src) + 1]
    ensures CString(buf) == CString(src) && CLength(buf) == CLength(src)
  {
    var n := CLength(src);
    CStringPrefix(buf, n + 1);
    CStringPrefix(src, n + 1);
  }

  /**
    RegGetValueA into the local buffer: on success it holds the stored string and its
    terminating NUL.
  */
  function RegGetValue(view: RegistryView): (r: (bool, seq<char>))
    requires view.keyOpens
    ensures r.0 == ReadSucceeds(view)
    ensures r.0 ==> r.1 == view.machineId.value + ['\0']
    ensures r.0 ==> |r.1| <= VALUE_BUFFER_SIZE && CLength(r.1) < |r.1|
    ensures r.0 ==> CString(r.1) == CString(view.machineId.value)
  {
    if ReadSucceeds(view) then
      var stored := view.machineId.value;
      if CLength(stored) < |stored| then
        CStringExtend(stored, ['\0']);
        (true, stored + ['\0'])
      else
        CStringOfTerminated(stored, []);
        assert stored + ['\0'] + [] == stored + ['\0'];
        (true, stored + ['\0'])
    else
      (false, [])
  }

  // ---------------------------------------------------------------------------
  // The lookup

  /**
    The device id the lookup yields: the machine id read through the first view whose read
    succeeds, as far as its first NUL; nothing if neither read succeeds.
  */
  function DeviceIdLookup(native: RegistryView, wow64: RegistryView): (r: Option<string>)
    ensures r.Some? <==> ReadSucceeds(native) || ReadSucceeds(wow64)
    ensures ReadSucceeds(native) ==> r == Some(CString(native.machineId.value))
    ensures !ReadSucceeds(native) && ReadSucceeds(wow64) ==> r == Some(CString(wow64.machineId.value))
    ensures r.Some? ==> |r.value| < VALUE_BUFFER_SIZE && '\0' !in r.value
  {
    if ReadSucceeds(native) then Some(CString(native.machineId.value))
    else if ReadSucceeds(wow64) then Some(CString(wow64.machineId.value))
    else None
  }

  /**
    strcpy(dst, src): copies src up to and including its first NUL; the rest of dst is
    left as it was.
  */
  method StrCpy(dst: array<char>, src: seq<char>)
    requires CLength(src) < |src| && CLength(src) < dst.Length
    modifies dst
    ensures dst[..CLength(src) + 1] == src[..CLength(src) + 1]
    ensures dst[CLength(src) + 1..] == old(dst[CLength(src) + 1..])
  {
    var i := 0;
    while src[i] != '\0'
      invariant 0 <= i <= CLength(src)
      invariant forall j :: 0 <= j < i ==> dst[j] == src[j]
      invariant forall j :: i <= j < dst.Length ==> dst[j] == old(dst[j])
      decreases CLength(src) - i
    {
      dst[i] := src[i];
      i := i + 1;
    }
    dst[i] := '\0';
  }

  /**
    platform_get_device_id. `deviceId` is the caller's buffer (a `char[255]` in the
    adapter). `views` lists the registry views the key was opened through, in order.
  */
  method GetDeviceId(native: RegistryView, wow64: RegistryView, deviceId: array<char>)
    returns (found: bool, views: seq<KeyView>)
    requires deviceId.Length >= VALUE_BUFFER_SIZE
    modifies deviceId
    ensures found <==> ReadSucceeds(native) || ReadSucceeds(wow64)
    ensures views == if ReadSucceeds(native) then [NativeView] else [NativeView, Wow64View64]
    ensures found ==> DeviceIdLookup(native, wow64) == Some(CString(deviceId[..]))
    ensures found ==> var n := |CString(deviceId[..])|;
              n < deviceId.Length && deviceId[n] == '\0' && deviceId[n + 1..] == old(deviceId[n + 1..])
    ensures !found ==> deviceId[..] == old(deviceId[..])
  {
    var getRegValue := false;  // ERROR_INVALID_HANDLE until a read reports otherwise
    var value: seq<char> := [];

    views := [NativeView];
    var openKey := native.keyOpens;
    if openKey {
      var read := RegGetValue(native);
      getRegValue, value := read.0, read.1;
    }

    if !getRegValue {
      views := views + [Wow64View64];
      openKey := wow64.keyOpens;
      if openKey {
        var read := RegGetValue(wow64);
        getRegValue, value := read.0, read.1;
      }
    }

    if getRegValue {
      StrCpy(deviceId, value);
      CStringOfCopy(deviceId[..], value);
      return true, views;
    }
    return false, views;
  }
}
