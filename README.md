# Win32 platform adapter: a verified model

This project models the decision logic of the Win32 platform adapter of the Azure C shared
utility (`adapters/platform_win32.c`). The adapter does three things:

- **Bootstrap.** `platform_init` starts Winsock and then, in an OpenSSL build, initialises
  OpenSSL. `platform_deinit` cleans up Winsock and then deinitialises OpenSSL.
  `platform_get_default_tlsio` picks the TLS backend from the build flags.
- **Device id.** `platform_get_device_id` reads the `MachineId` registry value through the
  process's own registry view. If that read fails, it reads it again through the 64-bit view.
- **Host identity string.** `platform_get_platform_info*` builds
  `(native; WindowsProduct:0x%08x %d.%d; <arch>[; <device id>])`. If a version query or the
  allocation of that string fails, it builds the legacy
  `(native; WindowsProduct:Windows NT %d.%d; <arch>[; <device id>])` from the low word of
  `GetVersion()`.

Every OS call becomes an input: Winsock's start-up result, what each registry view answers,
`GetSystemInfo`, `GetVersionEx`, `GetProductInfo`, `GetVersion`, and whether each
`STRING_construct_sprintf` call can allocate its string. The TLS backends are opaque tags.
Calls into Winsock and OpenSSL are recorded in order in a call log.

Files:

- `wrappers.dfy` defines `Option`.
- `formatting.dfy` holds DWORD/WORD/BYTE, `LOWORD`/`LOBYTE`/`HIBYTE`/`MAKEWORD`, and
  printf's `%d` and `%08x`. Each conversion has a parser and a round-trip lemma.
- `device_id.dfy` holds the registry lookup chain and `strcpy`. The caller's buffer is an
  `array<char>`.
- `host_identity.dfy` holds the architecture labels, the identity string and the three
  `platform_get_platform_info*` functions.
- `identity_parser.dfy` holds a reader for the identity string. It proves that the string
  gives back every field it was built from.
- `bootstrap.dfy` holds backend selection and a `Platform` class whose methods are
  `platform_init` and `platform_deinit`.

Points of the code's behaviour that the model keeps:

- `platform_deinit` cleans up Winsock before OpenSSL, the same order as `platform_init`,
  not the reverse.
- The legacy form is used when the version queries fail, and also when allocating the
  product-form string fails.
- `platform_get_default_tlsio` never returns NULL: Schannel is the unconditional fallback.
- `USE_OPENSSL` is tested with `#ifdef`, but `USE_CYCLONESSL` and `USE_WOLFSSL` are tested
  with `#if`. So `USE_CYCLONESSL` defined as `0` does not select CycloneSSL.

A DWORD printed with `%d` is modelled as read back as a 32-bit signed int, so values of 2^31
and above appear negative. The architecture code for ARM64 (12) is not among the four the
adapter knows, so it maps to `UNKNOWN`.

## Model

| member | source | states |
|---|---|---|
| `Formatting.LoWord` | adapters/platform_win32.c:190 | `LOWORD(v)` is a WORD that differs from `v` by a multiple of 2^16 |
| `Formatting.LoByte` | adapters/platform_win32.c:190 | `LOBYTE(w)` is a byte congruent to `w` modulo 256 |
| `Formatting.HiByte` | adapters/platform_win32.c:190 | `HIBYTE(w)` is the byte `b` with `256*b <= w < 256*(b+1)` |
| `Formatting.WordFromBytes` | adapters/platform_win32.c:190 | a WORD is `LOBYTE + 256 * HIBYTE`, so the two legacy numbers together are exactly the low word |
| `Formatting.MakeWord` | adapters/platform_win32.c:28 | `MAKEWORD(lo, hi)` has `lo` as its low byte and `hi` as its high byte (the Winsock 2.2 request) |
| `Formatting.Dec` | adapters/platform_win32.c:175 | decimal rendering is non-empty, all digits, and has no leading zero |
| `Formatting.DecRoundTrip` | adapters/platform_win32.c:175 | reading the decimal digits back gives the number |
| `Formatting.FormatInt` | adapters/platform_win32.c:190 | `%d` output is non-empty and starts with `-` exactly when the value is negative |
| `Formatting.AsInt32` | adapters/platform_win32.c:175 | a DWORD passed to `%d` is read as a signed 32-bit int congruent to it modulo 2^32 |
| `Formatting.AsDword` | adapters/platform_win32.c:175 | the signed reading is undone: `AsInt32(AsDword(i)) == i` |
| `Formatting.PrintfD` | adapters/platform_win32.c:175 | `%d` of a DWORD below 2^31 is its plain decimal |
| `Formatting.FormatIntRoundTrip` | adapters/platform_win32.c:175 | a `%d` number followed by a non-digit is read back whole, with the rest intact |
| `Formatting.PrintfDRoundTrip` | adapters/platform_win32.c:175 | `%d` of a DWORD reads back as its signed 32-bit value |
| `Formatting.HexDigits` | adapters/platform_win32.c:175 | fixed-width hex has exactly `width` lower-case hex digits |
| `Formatting.HexValue` | adapters/platform_win32.c:175 | `k` hex digits denote a value below 16^k |
| `Formatting.HexRoundTrip` | adapters/platform_win32.c:175 | a value below 16^width is recovered from its `width` hex digits |
| `Formatting.Printf08x` | adapters/platform_win32.c:175 | `%08x` of a DWORD is exactly 8 lower-case hex digits |
| `Formatting.Printf08xRoundTrip` | adapters/platform_win32.c:175 | the 8 digits of `%08x` give back the DWORD |
| `DeviceId.CLength` | adapters/platform_win32.c:123 | strlen: every character before the count is non-NUL and the one at the count is NUL |
| `DeviceId.CString` | adapters/platform_win32.c:123 | the C string a buffer holds is its NUL-free prefix that stops at the first NUL (or at the end) |
| `DeviceId.CStringOfTerminated` | adapters/platform_win32.c:123 | a NUL-free string followed by NUL reads back as itself |
| `DeviceId.CStringOfCopy` | adapters/platform_win32.c:123 | a buffer that agrees with the source up to and including its first NUL holds the same C string, of the same length |
| `DeviceId.RegGetValue` | adapters/platform_win32.c:84-92 | a read succeeds iff the stored value with its NUL fits 255 characters; the buffer then holds the value followed by its terminating NUL, so its C string is the value's |
| `DeviceId.DeviceIdLookup` | adapters/platform_win32.c:82-127 | the id exists iff either read succeeds; the native view's value wins; the id is NUL-free and shorter than 255 |
| `DeviceId.StrCpy` | adapters/platform_win32.c:123 | `strcpy` copies the source up to and including its first NUL and leaves the rest of the destination unchanged |
| `DeviceId.GetDeviceId` | adapters/platform_win32.c:57-128 | returns TRUE iff one read succeeds; the 64-bit view is opened only after the first read fails; on TRUE the buffer holds the id and its NUL, and everything after that NUL is unchanged; on FALSE it is untouched |
| `HostIdentity.ArchLabel` | adapters/platform_win32.c:141-162 | AMD64, ARM, IA64 and INTEL map to x64, ARM, IA64 and x32, each iff; every other code maps to UNKNOWN |
| `HostIdentity.IdentityStringWithId` | adapters/platform_win32.c:173-180 | the string with a device id is the one without it, with `; <id>` inserted before the final `)` |
| `HostIdentity.LegacyVersionOf` | adapters/platform_win32.c:186-194 | the legacy numbers are bytes, and `major + 256*minor` is the low word of `GetVersion()` |
| `HostIdentity.PlatformInfoWithIdInserts` | adapters/platform_win32.c:173-195 | for the same probe, including its allocation outcomes, both calls succeed or both fail; in both forms the with-id string is the plain one with `; <id>` before the `)` |
| `HostIdentity.GetPlatformInfoInternal` | adapters/platform_win32.c:130-204 | the product form when both queries succeed and it allocates; otherwise the legacy form if that allocates; otherwise NULL |
| `HostIdentity.GetPlatformInfo` | adapters/platform_win32.c:206-209 | the internal builder with no device id; a returned string ends in `)` |
| `HostIdentity.GetPlatformInfoWithId` | adapters/platform_win32.c:211-222 | the device id is passed on only when the lookup succeeds; otherwise the result equals `platform_get_platform_info`'s |
| `HostIdentity.ExampleProductForm` | adapters/platform_win32.c:175-179 | x64, product type 1 and version 10.0 give `(native; WindowsProduct:0x00000001 10.0; x64)` |
| `IdentityParser.ParseTailRoundTrip` | adapters/platform_win32.c:175 | the `; <arch>[; <id>])` tail gives back the label and the optional id |
| `IdentityParser.DwordPairRoundTrip` | adapters/platform_win32.c:175 | the `%d.%d` of two DWORDs, followed by a non-digit, reads back as those two DWORDs and the rest |
| `IdentityParser.BytePairRoundTrip` | adapters/platform_win32.c:190 | the `%d.%d` of the two legacy bytes, followed by a non-digit, reads back as those bytes and the rest |
| `IdentityParser.IdentityRoundTrip` | adapters/platform_win32.c:175-194 | both string forms are unambiguous: parsing gives back the version form, numbers, label and device id |
| `IdentityParser.PlatformInfoParses` | adapters/platform_win32.c:164-196 | any returned string parses; it carries the probe's label and the device id passed in; it is in product form iff the product path was taken |
| `Bootstrap.DefaultTlsio` | adapters/platform_win32.c:44-55 | the chosen backend is compiled in, and none compiled in is preferred over it (OpenSSL > CycloneSSL > WolfSSL > Schannel) |
| `Bootstrap.DefaultTlsioUnique` | adapters/platform_win32.c:44-55 | the most-preferred configured backend is unique, so the choice is determined by the flags |
| `Bootstrap.Platform.Init` | adapters/platform_win32.c:23-42 | returns 0 iff WSAStartup returns 0; on failure returns a nonzero code and does not call the backend's init; on success Winsock is up and, in an OpenSSL build, OpenSSL's init has been called (its result is discarded) |
| `Bootstrap.Platform.Deinit` | adapters/platform_win32.c:224-231 | WSACleanup is logged before the OpenSSL deinit, and afterwards the platform is not ready |
| `Bootstrap.InitThenDeinit` | adapters/platform_win32.c:23-231 | `platform_init` (lines 23-42) then `platform_deinit` (lines 224-231): a successful init followed by deinit leaves the platform not ready; the call log is startup, backend init, cleanup, backend deinit |

## Left out

- The OS calls themselves are not modelled. Their results are inputs: `WSAStartup`, `WSACleanup`, `RegOpenKeyExA`, `RegGetValueA`, `GetSystemInfo`, `GetVersionEx`, `GetProductInfo` and `GetVersion`.
- Registry handles are not modelled, and neither is the fact that the opened keys are never closed.
- `RegGetValueA` is modelled only by its outcome. It succeeds when the key opened, the value exists, and the value with its NUL fits 255 characters. Value types other than strings are not modelled.
- `DeviceId.ReadSucceeds`: each character of the stored value is taken to occupy one byte. `RegGetValueA` converts the value to the ANSI code page, where one character can take several bytes, so a value shorter than 255 characters can still get `ERROR_MORE_DATA`; that conversion is not modelled.
- After a failed first read, the adapter passes the `size` that read updated to the second read. That can exceed the 255-byte buffer. The model gives the second read the full 255 bytes, so it does not capture this overflow.
- `LogError` and memory management are not modelled. An allocation failure in `STRING_construct_sprintf` is an input flag, one per call.
- The TLS backends are opaque tags: their descriptors, and what `tlsio_openssl_init` and `tlsio_openssl_deinit` do. The headers that declare them are not part of this model.
- `__FAILURE__` is defined in a header that is not part of this model. It is modelled as the constant 1, and only its being nonzero is relied on.
- The `PROCESSOR_ARCHITECTURE_*` values are the Windows SDK's: INTEL 0, ARM 5, IA64 6, AMD64 9. The header that defines them is not part of this model.
- `Bootstrap.Platform.Deinit` does not model `WSACleanup`'s reference count. Winsock is treated as down after one cleanup.
- Nothing guards against calling `platform_init` twice or `platform_deinit` without a successful init. The adapter has no such guards either.
- The per-connection transport session (open, send, close) is not modelled. Its code is not in this file.
