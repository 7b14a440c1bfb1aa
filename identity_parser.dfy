/**
  A reader for the host identity string. Servers match on this string, so its format is an
  interface; the round-trip lemma below shows that the string determines every field it was
  built from (version form and numbers, architecture label, device id), whatever the
  device id contains.
*/
module IdentityParser {

  import opened Wrappers
  import opened Formatting
  import opened HostIdentity

  datatype Identity = Identity(version: OsVersion, arch: string, deviceId: Option<string>)

  /** The number of characters before the first ';' or ')'. */
  function LabelSpan(s: string): (k: nat)
    ensures k <= |s| && PlainLabel(s[..k])
  {
    if s == [] || s[0] == ';' || s[0] == ')' then 0 else 1 + LabelSpan(s[1..])
  }

  lemma {:induction false} LabelSpanOfPlain(a: string, rest: string)
    requires PlainLabel(a)
    requires rest != [] && (rest[0] == ';' || rest[0] == ')')
    ensures LabelSpan(a + rest) == |a|
  {
    if a != [] {
      assert (a + rest)[1..] == a[1..] + rest;
      LabelSpanOfPlain(a[1..], rest);
    }
  }

  /** Reads "; <arch>)" or "; <arch>; <device id>)". */
  function ParseTail(s: string): Option<(string, Option<string>)> {
    if |s| < 2 || s[..2] != "; " then None
    else
      var r := s[2..];
      var k := LabelSpan(r);
      var rest := r[k..];
      if rest == ")" then Some((r[..k], None))
      else if 3 <= |rest| && rest[..2] == "; " && rest[|rest| - 1] == ')' then
        Some((r[..k], Some(rest[2..|rest| - 1])))
      else None
  }

  lemma ParseTailRoundTrip(arch: string, deviceId: Option<string>)
    requires PlainLabel(arch)
    ensures ParseTail("; " + arch + IdSegment(deviceId) + ")") == Some((arch, deviceId))
  {
    var s := "; " + arch + IdSegment(deviceId) + ")";
    var rest := IdSegment(deviceId) + ")";
    assert s[2..] == arch + rest;
    LabelSpanOfPlain(arch, rest);
    assert (arch + rest)[..|arch|] == arch;
    assert (arch + rest)[|arch|..] == rest;
  }

  /** Reads "<major>.<minor>" as two "%d" numbers of 32-bit ints; gives them as DWORDs and the rest. */
  function ParseDwordPair(s: string): Option<(Dword, Dword, string)> {
    match ParseInt(s)
    case None => None
    case Some((major, r1)) =>
      if !(-0x8000_0000 <= major < 0x8000_0000) || r1 == [] || r1[0] != '.' then None
      else
        match ParseInt(r1[1..])
        case None => None
        case Some((minor, r2)) =>
          if !(-0x8000_0000 <= minor < 0x8000_0000) then None
          else Some((AsDword(major), AsDword(minor), r2))
  }

  /** Reads the text after "(native; WindowsProduct:0x". */
  function ParseProductForm(s: string): Option<Identity> {
    if |s| < 9 || !AllHexDigits(s[..8]) || s[8] != ' ' then None
    else
      assert Pow16(8) == 0x1_0000_0000;
      var productType: Dword := HexValue(s[..8]);
      match ParseDwordPair(s[9..])
      case None => None
      case Some((major, minor, r2)) =>
        match ParseTail(r2)
        case None => None
        case Some((arch, deviceId)) => Some(Identity(ProductInfo(productType, major, minor), arch, deviceId))
  }

  /** Reads "<major>.<minor>" as two "%d" numbers that are bytes; gives them and the rest. */
  function ParseBytePair(s: string): Option<(Byte, Byte, string)> {
    match ParseInt(s)
    case None => None
    case Some((major, r1)) =>
      if !(0 <= major < 0x100) || r1 == [] || r1[0] != '.' then None
      else
        match ParseInt(r1[1..])
        case None => None
        case Some((minor, r2)) =>
          if !(0 <= minor < 0x100) then None
          else Some((major, minor, r2))
  }

  /** Reads the text after "(native; WindowsProduct:Windows NT ". */
  function ParseLegacyForm(s: string): Option<Identity> {
    match ParseBytePair(s)
    case None => None
    case Some((major, minor, r2)) =>
      match ParseTail(r2)
      case None => None
      case Some((arch, deviceId)) => Some(Identity(LegacyVersion(major, minor), arch, deviceId))
  }

  function ParseIdentity(s: string): Option<Identity> {
    if PRODUCT_FORM_PREFIX <= s then ParseProductForm(s[|PRODUCT_FORM_PREFIX|..])
    else if LEGACY_FORM_PREFIX <= s then ParseLegacyForm(s[|LEGACY_FORM_PREFIX|..])
    else None
  }

  lemma DwordPairRoundTrip(major: Dword, minor: Dword, tail: string)
    requires tail == [] || !IsDigit(tail[0])
    ensures ParseDwordPair(PrintfD(major) + ("." + (PrintfD(minor) + tail))) == Some((major, minor, tail))
  {
    var r1 := "." + (PrintfD(minor) + tail);
    PrintfDRoundTrip(major, r1);
    assert r1[1..] == PrintfD(minor) + tail;
    PrintfDRoundTrip(minor, tail);
    assert AsDword(AsInt32(major)) == major;
    assert AsDword(AsInt32(minor)) == minor;
  }

  lemma ProductFormRoundTrip(productType: Dword, major: Dword, minor: Dword, tail: string, arch: string, deviceId: Option<string>)
    requires tail == [] || !IsDigit(tail[0])
    requires ParseTail(tail) == Some((arch, deviceId))
    ensures ParseProductForm(Printf08x(productType) + (" " + (PrintfD(major) + ("." + (PrintfD(minor) + tail)))))
         == Some(Identity(ProductInfo(productType, major, minor), arch, deviceId))
  {
    var hex := Printf08x(productType);
    var numbers := PrintfD(major) + ("." + (PrintfD(minor) + tail));
    var s := hex + (" " + numbers);
    assert s[..8] == hex;
    assert s[8] == ' ';
    Printf08xRoundTrip(productType);
    assert s[9..] == numbers;
    DwordPairRoundTrip(major, minor, tail);
  }

  lemma BytePairRoundTrip(major: Byte, minor: Byte, tail: string)
    requires tail == [] || !IsDigit(tail[0])
    ensures ParseBytePair(FormatInt(major) + ("." + (FormatInt(minor) + tail))) == Some((major, minor, tail))
  {
    var r1 := "." + (FormatInt(minor) + tail);
    FormatIntRoundTrip(major, r1);
    assert r1[1..] == FormatInt(minor) + tail;
    FormatIntRoundTrip(minor, tail);
  }

  lemma LegacyFormRoundTrip(major: Byte, minor: Byte, tail: string, arch: string, deviceId: Option<string>)
    requires tail == [] || !IsDigit(tail[0])
    requires ParseTail(tail) == Some((arch, deviceId))
    ensures ParseLegacyForm(FormatInt(major) + ("." + (FormatInt(minor) + tail)))
         == Some(Identity(LegacyVersion(major, minor), arch, deviceId))
  {
    BytePairRoundTrip(major, minor, tail);
  }

  /** Regroups the pieces of an identity string from the format's left-to-right order. */
  lemma Regroup(a: string, b: string, c: string, d: string, e: string, f: string, g: string, h: string)
    ensures a + b + c + d + e + f + g + h == a + (b + (c + (d + (e + f + g + h))))
  {
  }

  lemma RegroupProduct(a: string, b: string, c: string, d: string, e: string, f: string, g: string, h: string, i: string, j: string)
    ensures a + b + c + d + e + f + g + h + i + j == a + (b + (c + (d + (e + (f + (g + h + i + j))))))
  {
  }

  lemma ProductIdentityRoundTrip(productType: Dword, major: Dword, minor: Dword, arch: string, deviceId: Option<string>)
    requires PlainLabel(arch)
    ensures var v := ProductInfo(productType, major, minor);
            ParseIdentity(IdentityString(v, arch, deviceId)) == Some(Identity(v, arch, deviceId))
  {
    var tail := "; " + arch + IdSegment(deviceId) + ")";
    ParseTailRoundTrip(arch, deviceId);
    var s := IdentityString(ProductInfo(productType, major, minor), arch, deviceId);
    var hex, dmaj, dmin := Printf08x(productType), PrintfD(major), PrintfD(minor);
    var body := hex + (" " + (dmaj + ("." + (dmin + tail))));
    RegroupProduct(PRODUCT_FORM_PREFIX, hex, " ", dmaj, ".", dmin, "; ", arch, IdSegment(deviceId), ")");
    assert s == PRODUCT_FORM_PREFIX + hex + " " + dmaj + "." + dmin + "; " + arch + IdSegment(deviceId) + ")";
    assert s == PRODUCT_FORM_PREFIX + body;
    assert PRODUCT_FORM_PREFIX <= s;
    assert s[|PRODUCT_FORM_PREFIX|..] == body;
    assert tail[0] == ';';
    ProductFormRoundTrip(productType, major, minor, tail, arch, deviceId);
  }

  lemma LegacyIdentityRoundTrip(major: Byte, minor: Byte, arch: string, deviceId: Option<string>)
    requires PlainLabel(arch)
    ensures var v := LegacyVersion(major, minor);
            ParseIdentity(IdentityString(v, arch, deviceId)) == Some(Identity(v, arch, deviceId))
  {
    var tail := "; " + arch + IdSegment(deviceId) + ")";
    ParseTailRoundTrip(arch, deviceId);
    var s := IdentityString(LegacyVersion(major, minor), arch, deviceId);
    var dmaj, dmin := FormatInt(major), FormatInt(minor);
    var body := dmaj + ("." + (dmin + tail));
    Regroup(LEGACY_FORM_PREFIX, dmaj, ".", dmin, "; ", arch, IdSegment(deviceId), ")");
    assert s == LEGACY_FORM_PREFIX + dmaj + "." + dmin + "; " + arch + IdSegment(deviceId) + ")";
    assert s == LEGACY_FORM_PREFIX + body;
    assert s[24] != PRODUCT_FORM_PREFIX[24];
    assert !(PRODUCT_FORM_PREFIX <= s);
    assert LEGACY_FORM_PREFIX <= s;
    assert s[|LEGACY_FORM_PREFIX|..] == body;
    assert tail[0] == ';';
    LegacyFormRoundTrip(major, minor, tail, arch, deviceId);
  }

  /** The identity string gives back the version, the architecture label and the device id. */
  lemma IdentityRoundTrip(v: OsVersion, arch: string, deviceId: Option<string>)
    requires PlainLabel(arch)
    ensures ParseIdentity(IdentityString(v, arch, deviceId)) == Some(Identity(v, arch, deviceId))
  {
    match v
    case ProductInfo(productType, major, minor) =>
      ProductIdentityRoundTrip(productType, major, minor, arch, deviceId);
    case LegacyVersion(major, minor) =>
      LegacyIdentityRoundTrip(major, minor, arch, deviceId);
  }

  /** Whatever the probe and the device id, a string the adapter returns reads back. */
  lemma PlatformInfoParses(h: HostProbe, deviceId: Option<string>)
    requires PlatformInfo(h, deviceId).Some?
    ensures var parsed := ParseIdentity(PlatformInfo(h, deviceId).value);
            && parsed.Some?
            && parsed.value.arch == ArchLabel(h.processorArchitecture)
            && parsed.value.deviceId == deviceId
            && (parsed.value.version.ProductInfo? <==> ProductQueriesSucceed(h) && h.productStringAllocates)
  {
    var arch := ArchLabel(h.processorArchitecture);
    ArchLabelIsPlain(h.processorArchitecture);
    if ProductQueriesSucceed(h) && h.productStringAllocates {
      var (major, minor) := h.versionEx.value;
      IdentityRoundTrip(ProductInfo(h.productType.value, major, minor), arch, deviceId);
    } else {
      IdentityRoundTrip(LegacyVersionOf(h.version), arch, deviceId);
    }
  }
}
