/**
  Platform bootstrap of the Win32 adapter: which TLS backend is the default
  (`platform_get_default_tlsio`), and the process-wide start-up and tear-down of Winsock and
  of the backend's global state (`platform_init`, `platform_deinit`).

  The TLS backends are foreign code: each descriptor is an opaque tag, and each call into
  Winsock or a backend is recorded, in order, in the platform's call log.
*/
module Bootstrap {

  import opened Formatting

  /**
    The build flags. USE_OPENSSL is tested with #ifdef, so only whether it is defined counts;
    USE_CYCLONESSL and USE_WOLFSSL are tested with #if, so their value counts, and an
    undefined one reads as 0.
  */
  datatype BuildConfig = BuildConfig(openSslDefined: bool, useCycloneSsl: int, useWolfSsl: int)

  /** The interface descriptions the adapter can hand out, as opaque tags. */
  datatype TlsioDescriptor = OpenSslTlsio | CycloneSslTlsio | WolfSslTlsio | SchannelTlsio

  /** Whether a backend is compiled in; Schannel's header is included unconditionally. */
  predicate Configured(config: BuildConfig, d: TlsioDescriptor) {
    match d
    case OpenSslTlsio => config.openSslDefined
    case CycloneSslTlsio => config.useCycloneSsl != 0
    case WolfSslTlsio => config.useWolfSsl != 0
    case SchannelTlsio => true
  }

  /** The order of preference: lower comes first. */
  function Priority(d: TlsioDescriptor): nat {
    match d
    case OpenSslTlsio => 0
    case CycloneSslTlsio => 1
    case WolfSslTlsio => 2
    case SchannelTlsio => 3
  }

  /** platform_get_default_tlsio: the most preferred backend the build configures. */
  function DefaultTlsio(config: BuildConfig): (d: TlsioDescriptor)
    ensures Configured(config, d)
    ensures forall e :: Configured(config, e) ==> Priority(d) <= Priority(e)
  {
    if config.openSslDefined then OpenSslTlsio
    else if config.useCycloneSsl != 0 then CycloneSslTlsio
    else if config.useWolfSsl != 0 then WolfSslTlsio
    else SchannelTlsio
  }

  /** The preference order is strict, so "the most preferred configured backend" is one backend. */
  lemma DefaultTlsioUnique(config: BuildConfig, d: TlsioDescriptor)
    requires Configured(config, d)
    requires forall e :: Configured(config, e) ==> Priority(d) <= Priority(e)
    ensures d == DefaultTlsio(config)
  {
    var chosen := DefaultTlsio(config);
    assert Priority(d) <= Priority(chosen);
    assert Priority(chosen) <= Priority(d);
  }

  /** Calls the adapter makes into Winsock and into the OpenSSL backend. */
  datatype Call = WsaStartup(requestedVersion: Word) | OpenSslInit | WsaCleanup | OpenSslDeinit

  /** The Winsock version platform_init asks for, MAKEWORD(2, 2). */
  const WINSOCK_VERSION: Word := MakeWord(2, 2)

  /**
    The value of __FAILURE__, which is defined outside this file; the model relies only on
    its being nonzero.
  */
  const FAILURE: int := 1

  /** The backend calls made after Winsock starts: OpenSSL is initialised only when built in. */
  function BackendInitCalls(config: BuildConfig): seq<Call> {
    if config.openSslDefined then [OpenSslInit] else []
  }

  function BackendDeinitCalls(config: BuildConfig): seq<Call> {
    if config.openSslDefined then [OpenSslDeinit] else []
  }

  /** The process-wide state platform_init and platform_deinit change. */
  class Platform {
    const config: BuildConfig
    var socketsStarted: bool
    var backendInitialized: bool  // tlsio_openssl_init has been called; its result is discarded
    var calls: seq<Call>

    constructor (config: BuildConfig)
      ensures this.config == config
      ensures !socketsStarted && !backendInitialized && calls == []
    {
      this.config := config;
      socketsStarted := false;
      backendInitialized := false;
      calls := [];
    }

    /** Transports may be created: Winsock is up and the backend, if it needs it, is set up. */
    predicate Ready()
      reads this
    {
      socketsStarted && (config.openSslDefined ==> backendInitialized)
    }

    /**
      platform_init. `wsaStartupResult` is what WSAStartup returns; when it is not 0 the
      backend is not touched and a nonzero code comes back.
    */
    method Init(wsaStartupResult: int) returns (result: int)
      modifies this
      ensures result == 0 <==> wsaStartupResult == 0
      ensures wsaStartupResult != 0 ==>
                && result == FAILURE
                && calls == old(calls) + [WsaStartup(WINSOCK_VERSION)]
                && socketsStarted == old(socketsStarted)
                && backendInitialized == old(backendInitialized)
      ensures wsaStartupResult == 0 ==>
                && calls == old(calls) + [WsaStartup(WINSOCK_VERSION)] + BackendInitCalls(config)
                && socketsStarted
                && backendInitialized == (old(backendInitialized) || config.openSslDefined)
                && Ready()
    {
      calls := calls + [WsaStartup(WINSOCK_VERSION)];
      var errorCode := wsaStartupResult;
      if errorCode != 0 {
        result := FAILURE;
      } else {
        socketsStarted := true;
        if config.openSslDefined {
          calls := calls + [OpenSslInit];
          backendInitialized := true;
        }
        result := 0;
      }
    }

    /** platform_deinit: Winsock is cleaned up first, then the backend. */
    method Deinit()
      modifies this
      ensures calls == old(calls) + [WsaCleanup] + BackendDeinitCalls(config)
      ensures !socketsStarted
      ensures backendInitialized == (old(backendInitialized) && !config.openSslDefined)
      ensures !Ready()
    {
      calls := calls + [WsaCleanup];
      socketsStarted := false;
      if config.openSslDefined {
        calls := calls + [OpenSslDeinit];
        backendInitialized := false;
      }
    }
  }

  /**
    A successful start-up followed by a tear-down leaves the platform not ready, and the
    calls made are, in order: WSAStartup, the backend's init, WSACleanup, the backend's deinit.
  */
  method InitThenDeinit(config: BuildConfig) returns (platform: Platform)
    ensures !platform.Ready()
    ensures platform.calls == [WsaStartup(WINSOCK_VERSION)] + BackendInitCalls(config)
                              + [WsaCleanup] + BackendDeinitCalls(config)
  {
    platform := new Platform(config);
    var result := platform.Init(0);
    assert platform.Ready();
    platform.Deinit();
  }
}
