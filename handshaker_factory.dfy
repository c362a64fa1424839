/** Assembly of the option structures handed to the TLS engine's client and
    server handshaker factories. */
module HandshakerFactory {
  import opened SslTypes
  import opened Memory
  import opened RootStore
  import opened ClientCertificatePolicy
  import opened SessionCache

  /** The default of grpc_ssl_cipher_suites. */
  const DEFAULT_CIPHER_SUITES: string :=
    "ECDHE-ECDSA-AES128-GCM-SHA256:ECDHE-ECDSA-AES256-GCM-SHA384:ECDHE-RSA-AES128-GCM-SHA256:ECDHE-RSA-AES256-GCM-SHA384"

  /** The cipher-suite string and its once-gate. */
  class CipherSuites {
    var initialized: bool
    var value: string

    constructor ()
      ensures !initialized
    {
      initialized := false;
      value := "";
    }

    /** grpc_get_ssl_cipher_suites: the configured list, or the default, read once. */
    method Get(configured: Option<string>) returns (suites: string)
      modifies this
      ensures initialized && suites == value
      ensures old(initialized) ==> value == old(value)
      ensures !old(initialized) ==> value == configured.GetOr(DEFAULT_CIPHER_SUITES)
    {
      if !initialized {
        value := configured.GetOr(DEFAULT_CIPHER_SUITES);
        initialized := true;
      }
      suites := value;
    }
  }

  /** The ALPN enumerator of the HTTP/2 transport: how many ids and the id at an index. */
  datatype AlpnVersions = AlpnVersions(count: nat, versionAt: nat -> string)

  function AlpnList(alpn: AlpnVersions): (r: seq<string>)
    ensures |r| == alpn.count
    ensures forall i :: 0 <= i < alpn.count ==> r[i] == alpn.versionAt(i)
  {
    seq(alpn.count, i requires 0 <= i => alpn.versionAt(i))
  }

  /** grpc_fill_alpn_protocol_strings: a fresh array with every ALPN id in order. */
  method FillAlpnProtocolStrings(alpn: AlpnVersions, heap: Allocator)
    returns (alpnProtocolStrings: array<string>, numAlpnProtocols: nat)
    modifies heap
    ensures fresh(alpnProtocolStrings)
    ensures numAlpnProtocols == alpn.count == alpnProtocolStrings.Length
    ensures alpnProtocolStrings[..] == AlpnList(alpn)
    ensures heap.live == old(heap.live) + {alpnProtocolStrings}
  {
    numAlpnProtocols := alpn.count;
    alpnProtocolStrings := new string[numAlpnProtocols];
    heap.Register(alpnProtocolStrings);
    for i := 0 to numAlpnProtocols
      invariant forall k :: 0 <= k < i ==> alpnProtocolStrings[k] == alpn.versionAt(k)
      modifies alpnProtocolStrings
    {
      alpnProtocolStrings[i] := alpn.versionAt(i);
    }
  }

  /** tsi_ssl_pem_key_cert_pair: either part may be null. */
  datatype KeyCertPair = KeyCertPair(privateKey: Option<string>, certChain: Option<string>)

  predicate HasKeyCertPair(pair: Option<KeyCertPair>) {
    pair.Some? && pair.value.privateKey.Some? && pair.value.certChain.Some?
  }

  datatype ClientHandshakerOptions = ClientHandshakerOptions(
    pemRootCerts: bytes,
    rootStore: Option<RootStoreHandle>,
    pemKeyCertPair: Option<KeyCertPair>,
    alpnProtocols: seq<string>,
    numAlpnProtocols: nat,
    cipherSuites: string,
    sessionCache: Option<SslSessionCache>)

  datatype ServerHandshakerOptions = ServerHandshakerOptions(
    pemKeyCertPairs: seq<KeyCertPair>,
    numKeyCertPairs: nat,
    pemClientRootCerts: Option<bytes>,
    clientCertificateRequest: TsiClientCertificateRequestType,
    cipherSuites: string,
    alpnProtocols: seq<string>,
    numAlpnProtocols: nat)   // a uint16_t in the engine's options

  /** The TLS engine's factory constructors, judged by their result code. */
  type ClientFactoryCreator = ClientHandshakerOptions -> TsiResult
  type ServerFactoryCreator = ServerHandshakerOptions -> TsiResult

  /** grpc_ssl_tsi_client_handshaker_factory_init. Without explicit roots it
      takes the default bundle and store, and fails at once when there is no
      default bundle; explicit roots come with no store. The key/cert pair is
      passed only when both halves are present. `options` is what the engine
      is given, none when it is not called. The ALPN array is always freed. */
  method ClientHandshakerFactoryInit(
    pemKeyCertPair: Option<KeyCertPair>, pemRootCerts: Option<bytes>, sslSessionCache: Option<SslSessionCache>,
    roots: DefaultSslRootStore, env: Environment, ciphers: CipherSuites, configuredCipherSuites: Option<string>,
    alpn: AlpnVersions, createFactory: ClientFactoryCreator, heap: Allocator)
    returns (status: SecurityStatus, options: Option<ClientHandshakerOptions>)
    requires roots.Valid()
    modifies roots, ciphers, heap
    ensures roots.Valid() && heap.live == old(heap.live)
    ensures pemRootCerts.Some? ==> roots.initialized == old(roots.initialized) &&
                                   roots.defaultPemRootCerts == old(roots.defaultPemRootCerts) &&
                                   roots.defaultRootStore == old(roots.defaultRootStore)
    ensures pemRootCerts.None? ==> roots.initialized
    ensures pemRootCerts.None? && !old(roots.initialized) ==>
              roots.defaultPemRootCerts == ResolvedRoots(env) &&
              roots.defaultRootStore == StoreFor(env, ResolvedRoots(env))
    ensures pemRootCerts.None? && old(roots.initialized) ==>
              roots.defaultPemRootCerts == old(roots.defaultPemRootCerts) &&
              roots.defaultRootStore == old(roots.defaultRootStore)
    ensures options.None? <==> pemRootCerts.None? && roots.defaultPemRootCerts == []
    ensures options.None? ==> status == SecurityError
    ensures options.None? ==> ciphers.initialized == old(ciphers.initialized) && ciphers.value == old(ciphers.value)
    ensures options.Some? ==>
      && options.value.pemRootCerts == (if pemRootCerts.Some? then pemRootCerts.value else roots.defaultPemRootCerts)
      && options.value.rootStore == (if pemRootCerts.Some? then None else roots.defaultRootStore)
      && options.value.pemKeyCertPair == (if HasKeyCertPair(pemKeyCertPair) then pemKeyCertPair else None)
      && options.value.alpnProtocols == AlpnList(alpn)
      && options.value.numAlpnProtocols == alpn.count
      && options.value.sessionCache == sslSessionCache
      && ciphers.initialized && options.value.cipherSuites == ciphers.value
      && (old(ciphers.initialized) ==> ciphers.value == old(ciphers.value))
      && (!old(ciphers.initialized) ==> ciphers.value == configuredCipherSuites.GetOr(DEFAULT_CIPHER_SUITES))
      && (status == SecurityOk <==> createFactory(options.value) == TsiOk)
  {
    var rootCerts: bytes;
    var rootStore: Option<RootStoreHandle>;
    if pemRootCerts.None? {
      var defaults := roots.GetPemRootCerts(env);
      if defaults.None? {
        return SecurityError, None;
      }
      rootCerts := defaults.value;
      rootStore := roots.GetRootStore(env);
    } else {
      rootCerts := pemRootCerts.value;
      rootStore := None;
    }
    var hasKeyCertPair := HasKeyCertPair(pemKeyCertPair);
    var alpnProtocols, numAlpnProtocols := FillAlpnProtocolStrings(alpn, heap);
    var cipherSuites := ciphers.Get(configuredCipherSuites);
    var opts := ClientHandshakerOptions(
      rootCerts, rootStore, if hasKeyCertPair then pemKeyCertPair else None,
      alpnProtocols[..], numAlpnProtocols, cipherSuites, sslSessionCache);
    var result := createFactory(opts);
    heap.Free(alpnProtocols);
    options := Some(opts);
    status := if result != TsiOk then SecurityError else SecurityOk;
  }

  /** grpc_ssl_tsi_server_handshaker_factory_init: the key/cert pairs and client
      roots pass through, the request type is mapped to the engine's, and the
      ALPN count is narrowed to 16 bits. The ALPN array is always freed. */
  method ServerHandshakerFactoryInit(
    pemKeyCertPairs: seq<KeyCertPair>, pemRootCerts: Option<bytes>, clientCertificateRequest: int,
    ciphers: CipherSuites, configuredCipherSuites: Option<string>,
    alpn: AlpnVersions, createFactory: ServerFactoryCreator, heap: Allocator)
    returns (status: SecurityStatus, options: ServerHandshakerOptions)
    modifies ciphers, heap
    ensures heap.live == old(heap.live)
    ensures options.pemKeyCertPairs == pemKeyCertPairs && options.numKeyCertPairs == |pemKeyCertPairs|
    ensures options.pemClientRootCerts == pemRootCerts
    ensures options.clientCertificateRequest == GetTsiClientCertificateRequestType(clientCertificateRequest)
    ensures options.alpnProtocols == AlpnList(alpn)
    ensures options.numAlpnProtocols == alpn.count % 0x1_0000
    ensures ciphers.initialized && options.cipherSuites == ciphers.value
    ensures old(ciphers.initialized) ==> ciphers.value == old(ciphers.value)
    ensures !old(ciphers.initialized) ==> ciphers.value == configuredCipherSuites.GetOr(DEFAULT_CIPHER_SUITES)
    ensures status == SecurityOk <==> createFactory(options) == TsiOk
  {
    var alpnProtocolStrings, numAlpnProtocols := FillAlpnProtocolStrings(alpn, heap);
    var cipherSuites := ciphers.Get(configuredCipherSuites);
    options := ServerHandshakerOptions(
      pemKeyCertPairs, |pemKeyCertPairs|, pemRootCerts,
      GetTsiClientCertificateRequestType(clientCertificateRequest),
      cipherSuites, alpnProtocolStrings[..], numAlpnProtocols % 0x1_0000);
    var result := createFactory(options);
    heap.Free(alpnProtocolStrings);
    status := if result != TsiOk then SecurityError else SecurityOk;
  }

  /** With no configured path, no override callback, system roots disabled and
      no installed file, a client factory without explicit roots cannot be built. */
  method NoDefaultRootsFailsClientInit(
    env: Environment, ciphers: CipherSuites, alpn: AlpnVersions,
    createFactory: ClientFactoryCreator, heap: Allocator)
    returns (status: SecurityStatus)
    requires RootsFilePath(env) == "" && env.overrideCallback.None?
    requires NotUseSystemRoots(env) && env.files(INSTALLED_ROOTS_PATH).None?
    modifies ciphers, heap
    ensures status == SecurityError
    ensures heap.live == old(heap.live)
  {
    var roots := new DefaultSslRootStore();
    NoSourceNoRoots(env);
    var options;
    status, options := ClientHandshakerFactoryInit(None, None, None, roots, env, ciphers, None, alpn, createFactory, heap);
    assert options.None?;
  }
}
