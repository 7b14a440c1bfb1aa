/**
  The host identity string of the Win32 platform adapter (`platform_get_platform_info*`):

    (native; WindowsProduct:0x<product type, %08x> <major>.<minor>; <arch>[; <device id>])

  when GetVersionEx and GetProductInfo both succeed and the string can be built, and

    (native; WindowsProduct:Windows NT <LOBYTE>.<HIBYTE>; <arch>[; <device id>])

  from the low word of GetVersion() otherwise. What the OS calls report, and whether each
  STRING_construct_sprintf call manages to allocate its string, are inputs (`HostProbe`).
*/
module HostIdentity {

  import opened Wrappers
  import opened Formatting
  import DeviceId

  // ---------------------------------------------------------------------------
  // Processor architecture

  /** SYSTEM_INFO.wProcessorArchitecture codes (Windows SDK values). */
  const PROCESSOR_ARCHITECTURE_INTEL: Word := 0
  const PROCESSOR_ARCHITECTURE_ARM: Word := 5
  const PROCESSOR_ARCHITECTURE_IA64: Word := 6
  const PROCESSOR_ARCHITECTURE_AMD64: Word := 9

  const ARCH_LABELS: set<string> := {"x64", "ARM", "IA64", "x32", "UNKNOWN"}

  /** The architecture label; every code the adapter does not know reads as UNKNOWN. */
  function ArchLabel(code: Word): (name: string)
    ensures name in ARCH_LABELS
    ensures name == "x64" <==> code == PROCESSOR_ARCHITECTURE_AMD64
    ensures name == "ARM" <==> code == PROCESSOR_ARCHITECTURE_ARM
    ensures name == "IA64" <==> code == PROCESSOR_ARCHITECTURE_IA64
    ensures name == "x32" <==> code == PROCESSOR_ARCHITECTURE_INTEL
    ensures name == "UNKNOWN" <==> code !in {PROCESSOR_ARCHITECTURE_AMD64, PROCESSOR_ARCHITECTURE_ARM,
                                                PROCESSOR_ARCHITECTURE_IA64, PROCESSOR_ARCHITECTURE_INTEL}
  {
    if code == PROCESSOR_ARCHITECTURE_AMD64 then "x64"
    else if code == PROCESSOR_ARCHITECTURE_ARM then "ARM"
    else if code == PROCESSOR_ARCHITECTURE_IA64 then "IA64"
    else if code == PROCESSOR_ARCHITECTURE_INTEL then "x32"
    else "UNKNOWN"
  }

  /** No label holds the separators the identity string puts around it. */
  predicate PlainLabel(name: string) {
    forall i :: 0 <= i < |name| ==> name[i] != ';' && name[i] != ')'
  }

  lemma ArchLabelIsPlain(code: Word)
    ensures PlainLabel(ArchLabel(code))
  {
  }

  // ---------------------------------------------------------------------------
  // The string

  /** The version part of the string, in either of its two forms. */
  datatype OsVersion =
    | ProductInfo(productType: Dword, major: Dword, minor: Dword)
    | LegacyVersion(ntMajor: Byte, ntMinor: Byte)

  const PRODUCT_FORM_PREFIX: string := "(native; WindowsProduct:0x"
  const LEGACY_FORM_PREFIX: string := "(native; WindowsProduct:Windows NT "

  /**
    The string up to the architecture label, as the two format strings
    "(native; WindowsProduct:0x%08x %d.%d; %s" and
    "(native; WindowsProduct:Windows NT %d.%d; %s" produce it.
  */
  function Stem(v: OsVersion, arch: string): string {
    match v
    case ProductInfo(productType, major, minor) =>
      PRODUCT_FORM_PREFIX + Printf08x(productType) + " " + PrintfD(major) + "." + PrintfD(minor) + "; " + arch
    case LegacyVersion(ntMajor, ntMinor) =>
      LEGACY_FORM_PREFIX + FormatInt(ntMajor) + "." + FormatInt(ntMinor) + "; " + arch
  }

  /** The optional device-id segment "; %s". */
  function IdSegment(deviceId: Option<string>): string {
    match deviceId
    case None => ""
    case Some(id) => "; " + id
  }

  /** The string the adapter formats from a version, an architecture label and a device id. */
  function IdentityString(v: OsVersion, arch: string, deviceId: Option<string>): string {
    Stem(v, arch) + IdSegment(deviceId) + ")"
  }

  /** Adding a device id inserts "; <id>" right before the final ")" and changes nothing else. */
  lemma IdentityStringWithId(v: OsVersion, arch: string, id: string)
    ensures var plain := IdentityString(v, arch, None);
            IdentityString(v, arch, Some(id)) == plain[..|plain| - 1] + "; " + id + ")"
  {
    var stem := Stem(v, arch);
    assert IdentityString(v, arch, None) == stem + ")";
    assert (stem + ")")[..|stem|] == stem;
  }

  // ---------------------------------------------------------------------------
  // The inputs and the specification

  /**
    What the OS reports to the adapter, and whether each of the two
    STRING_construct_sprintf calls it may make succeeds in allocating its string.
  */
  datatype HostProbe = HostProbe(
    processorArchitecture: Word,          // GetSystemInfo
    versionEx: Option<(Dword, Dword)>,    // GetVersionEx: major and minor, or None if it fails
    productType: Option<Dword>,           // GetProductInfo, or None if it fails
    version: Dword,                       // GetVersion
    productStringAllocates: bool,         // the product-form sprintf returns a string
    legacyStringAllocates: bool           // the legacy-form sprintf returns a string
  )

  /** Whether the product form is attempted at all: both version queries succeeded. */
  predicate ProductQueriesSucceed(h: HostProbe) {
    h.versionEx.Some? && h.productType.Some?
  }

  /** The version the legacy form shows: the two bytes of GetVersion's low word. */
  function LegacyVersionOf(version: Dword): (v: OsVersion)
    ensures v.LegacyVersion?
    ensures v.ntMajor + 0x100 * v.ntMinor == version % 0x1_0000
  {
    WordFromBytes(LoWord(version));
    LegacyVersion(LoByte(LoWord(version)), HiByte(LoWord(version)))
  }

  /** The result of platform_get_platform_info_internal; None is its NULL return. */
  function PlatformInfo(h: HostProbe, deviceId: Option<string>): Option<string> {
    var arch := ArchLabel(h.processorArchitecture);
    if ProductQueriesSucceed(h) && h.productStringAllocates then
      var (major, minor) := h.versionEx.value;
      Some(IdentityString(ProductInfo(h.productType.value, major, minor), arch, deviceId))
    else if h.legacyStringAllocates then
      Some(IdentityString(LegacyVersionOf(h.version), arch, deviceId))
    else
      None
  }

  /**
    For the same probe, including its allocation outcomes, the string with a device id is
    the one without it, with "; <id>" inserted before the final ")", in both forms.
  */
  lemma PlatformInfoWithIdInserts(h: HostProbe, id: string)
    ensures PlatformInfo(h, Some(id)).Some? <==> PlatformInfo(h, None).Some?
    ensures PlatformInfo(h, None).Some? ==>
              var plain := PlatformInfo(h, None).value;
              PlatformInfo(h, Some(id)).value == plain[..|plain| - 1] + "; " + id + ")"
  {
    var arch := ArchLabel(h.processorArchitecture);
    if ProductQueriesSucceed(h) && h.productStringAllocates {
      var (major, minor) := h.versionEx.value;
      IdentityStringWithId(ProductInfo(h.productType.value, major, minor), arch, id);
    } else if h.legacyStringAllocates {
      IdentityStringWithId(LegacyVersionOf(h.version), arch, id);
    }
  }

  // ---------------------------------------------------------------------------
  // The adapter's functions

  /**
    platform_get_platform_info_internal; `deviceId` None is a NULL pointer. "%s" prints a
    C string, so a device id is NUL-free: the one caller passes the buffer's `CString`.
  */
  method GetPlatformInfoInternal(h: HostProbe, deviceId: Option<string>) returns (result: Option<string>)
    ensures result == PlatformInfo(h, deviceId)
    ensures ProductQueriesSucceed(h) && h.productStringAllocates ==>
              var (major, minor) := h.versionEx.value;
              result == Some(IdentityString(ProductInfo(h.productType.value, major, minor),
                                            ArchLabel(h.processorArchitecture), deviceId))
    ensures !(ProductQueriesSucceed(h) && h.productStringAllocates) && h.legacyStringAllocates ==>
              result == Some(IdentityString(LegacyVersionOf(h.version), ArchLabel(h.processorArchitecture), deviceId))
    ensures result.Some? <==> (ProductQueriesSucceed(h) && h.productStringAllocates) || h.legacyStringAllocates
  {
    var arch := ArchLabel(h.processorArchitecture);

    result := None;
    if h.versionEx.Some? {
      var (major, minor) := h.versionEx.value;
      if h.productType.Some? {
        var productType := h.productType.value;
        // STRING_construct_sprintf returns NULL when it cannot allocate the string
        if h.productStringAllocates {
          result := Some(IdentityString(ProductInfo(productType, major, minor), arch, deviceId));
        }
      }
    }

    if result.None? {
      var dwVersion := h.version;
      if h.legacyStringAllocates {
        result := Some(IdentityString(LegacyVersion(LoByte(LoWord(dwVersion)), HiByte(LoWord(dwVersion))), arch, deviceId));
      }
    }
  }

  /** platform_get_platform_info: the identity string without a device id. */
  method GetPlatformInfo(h: HostProbe) returns (result: Option<string>)
    ensures result == PlatformInfo(h, None)
    ensures result.Some? ==> result.value[|result.value| - 1] == ')'
  {
    result := GetPlatformInfoInternal(h, None);
  }

  /**
    platform_get_platform_info_with_id: looks the device id up into a local 255-character
    buffer and passes it on only if the lookup succeeded.
  */
  method GetPlatformInfoWithId(h: HostProbe, native: DeviceId.RegistryView, wow64: DeviceId.RegistryView)
    returns (result: Option<string>)
    ensures result == PlatformInfo(h, DeviceId.DeviceIdLookup(native, wow64))
    ensures !DeviceId.ReadSucceeds(native) && !DeviceId.ReadSucceeds(wow64) ==> result == PlatformInfo(h, None)
  {
    var deviceId := new char[DeviceId.VALUE_BUFFER_SIZE];
    var found, _ := DeviceId.GetDeviceId(native, wow64, deviceId);
    if found {
      result := GetPlatformInfoInternal(h, Some(DeviceId.CString(deviceId[..])));
    } else {
      result := GetPlatformInfoInternal(h, None);
    }
  }

  lemma ExampleHex()
    ensures Printf08x(1) == "00000001"
  {
    var zeros := HexDigits(0, 7);
    HexDigitsOfZero(7);
    assert zeros == "0000000";
    assert DigitChar(1) == '1';
    assert HexDigits(1, 8) == zeros + ['1'];
  }

  lemma ExampleDec()
    ensures PrintfD(10) == "10" && PrintfD(0) == "0"
  {
    assert DigitChar(0) == '0' && DigitChar(1) == '1';
    assert Dec(10) == Dec(1) + ['0'];
  }

  lemma ExampleStem()
    ensures Stem(ProductInfo(1, 10, 0), "x64") == "(native; WindowsProduct:0x00000001 10.0; x64"
  {
    ExampleHex();
    ExampleDec();
    assert PRODUCT_FORM_PREFIX + "00000001" + " " + "10" + "." + "0" + "; " + "x64"
        == "(native; WindowsProduct:0x00000001 10.0; x64";
  }

  /** A 64-bit host reporting product type 1 and version 10.0, without device id, gives the product form. */
  lemma ExampleProductForm()
    ensures PlatformInfo(HostProbe(PROCESSOR_ARCHITECTURE_AMD64, Some((10, 0)), Some(1), 0, true, true), None)
         == Some("(native; WindowsProduct:0x00000001 10.0; x64)")
  {
    var h := HostProbe(PROCESSOR_ARCHITECTURE_AMD64, Some((10, 0)), Some(1), 0, true, true);
    var stem := Stem(ProductInfo(1, 10, 0), "x64");
    assert PlatformInfo(h, None) == Some(stem + IdSegment(None) + ")");
    ExampleStem();
    assert stem + IdSegment(None) + ")" == "(native; WindowsProduct:0x00000001 10.0; x64)";
  }
}
