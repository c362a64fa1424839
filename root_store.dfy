/** Resolution, once per process, of the default PEM root bundle and of the
    compiled trust store derived from it. */
module RootStore {
  import opened SslTypes

  /** installed_roots_path when no INSTALL_PREFIX is configured. */
  const INSTALLED_ROOTS_PATH: string := "/usr/share/grpc/roots.pem"

  datatype OverrideStatus = OverrideOk | OverrideFail | OverrideFailPermanently

  /** What the registered roots-override callback reports, and the C string it hands back. */
  datatype OverrideOutcome = OverrideOutcome(status: OverrideStatus, pemRootCerts: bytes)

  /** A compiled root-certificate store, identified by the bundle it was built from. */
  datatype RootStoreHandle = RootStoreHandle(pem: bytes)

  /** Everything outside this file that root resolution reads. */
  datatype Environment = Environment(
    defaultSslRootsFilePath: Option<string>,   // grpc_default_ssl_roots_file_path, when set
    notUseSystemSslRoots: Option<bool>,        // grpc_not_use_system_ssl_roots, when set
    overrideCallback: Option<OverrideOutcome>, // none when no callback is registered
    systemRoots: bytes,                        // what LoadSystemRootCerts returns
    files: string -> Option<bytes>,            // file contents by path; none when unreadable
    storeAccepts: bytes -> bool)               // whether tsi_ssl_root_certs_store_create succeeds

  datatype RootSource = ConfiguredFile | OverrideCallback | SystemStore | InstalledFile

  /** The configured path; the configuration's default is empty. */
  function RootsFilePath(env: Environment): string {
    env.defaultSslRootsFilePath.GetOr("")
  }

  /** The configured flag; the configuration's default is false. */
  function NotUseSystemRoots(env: Environment): bool {
    env.notUseSystemSslRoots.GetOr(false)
  }

  predicate FailsPermanently(env: Environment) {
    env.overrideCallback.Some? && env.overrideCallback.value.status == OverrideFailPermanently
  }

  /** grpc_load_file with a NUL terminator added; an unreadable file gives the empty slice. */
  function LoadFile(files: string -> Option<bytes>, path: string): (r: bytes)
    ensures files(path).Some? ==> |r| == |files(path).value| + 1 && r[..|r| - 1] == files(path).value && r[|r| - 1] == 0
    ensures files(path).None? ==> r == []
  {
    match files(path)
    case None => []
    case Some(contents) => contents + [0]
  }

  /** The copy of a C string that includes its terminator (strlen + 1 bytes). */
  function CStringCopy(s: bytes): (r: bytes)
    ensures |r| >= 1 && r[|r| - 1] == 0
    ensures 0 !in r[..|r| - 1] && r[..|r| - 1] <= s
    ensures r[..|r| - 1] == s[..FindFirst(s, 0)]
  {
    s[..FindFirst(s, 0)] + [0]
  }

  // What each source contributes, the empty slice when it is not enabled.

  function ConfiguredBundle(env: Environment): bytes {
    if RootsFilePath(env) != "" then LoadFile(env.files, RootsFilePath(env)) else []
  }

  function CallbackBundle(env: Environment): bytes {
    match env.overrideCallback
    case Some(OverrideOutcome(OverrideOk, pem)) => CStringCopy(pem)
    case _ => []
  }

  function SystemBundle(env: Environment): bytes {
    if !NotUseSystemRoots(env) then env.systemRoots else []
  }

  function InstalledBundle(env: Environment): bytes {
    if !FailsPermanently(env) then LoadFile(env.files, INSTALLED_ROOTS_PATH) else []
  }

  /** The four sources in priority order. */
  function Candidates(env: Environment): seq<bytes> {
    [ConfiguredBundle(env), CallbackBundle(env), SystemBundle(env), InstalledBundle(env)]
  }

  /** The first non-empty bundle of a list, or the empty one when there is none. */
  function FirstNonEmpty(candidates: seq<bytes>): (r: bytes)
    ensures r == [] <==> forall i :: 0 <= i < |candidates| ==> candidates[i] == []
    ensures r != [] ==> exists i :: 0 <= i < |candidates| && candidates[i] == r &&
                                    forall j :: 0 <= j < i ==> candidates[j] == []
  {
    if candidates == [] then []
    else if candidates[0] != [] then candidates[0]
    else
      var rest := candidates[1..];
      assert forall j :: 1 <= j < |candidates| ==> candidates[j] == rest[j - 1];
      FirstNonEmpty(rest)
  }

  /** Over the four sources, first-non-empty is the fallback chain written out. */
  lemma ResolvedRootsChain(env: Environment)
    ensures ResolvedRoots(env) ==
      if ConfiguredBundle(env) != [] then ConfiguredBundle(env)
      else if CallbackBundle(env) != [] then CallbackBundle(env)
      else if SystemBundle(env) != [] then SystemBundle(env)
      else InstalledBundle(env)
  {
    var d := [InstalledBundle(env)];
    var cd := [SystemBundle(env)] + d;
    var bcd := [CallbackBundle(env)] + cd;
    var c := [ConfiguredBundle(env)] + bcd;
    assert c == Candidates(env);
    assert d[1..] == [] && cd[1..] == d && bcd[1..] == cd && c[1..] == bcd;
    assert FirstNonEmpty(d) == InstalledBundle(env);
    assert FirstNonEmpty(cd) == if SystemBundle(env) != [] then SystemBundle(env) else FirstNonEmpty(d);
    assert FirstNonEmpty(bcd) == if CallbackBundle(env) != [] then CallbackBundle(env) else FirstNonEmpty(cd);
  }

  /** The default bundle the process ends up with. */
  function ResolvedRoots(env: Environment): bytes {
    FirstNonEmpty(Candidates(env))
  }

  /** The compiled store for a bundle: only a non-empty bundle the engine accepts has one. */
  function StoreFor(env: Environment, pem: bytes): (r: Option<RootStoreHandle>)
    ensures r.Some? ==> pem != [] && r.value.pem == pem
  {
    if pem != [] && env.storeAccepts(pem) then Some(RootStoreHandle(pem)) else None
  }

  /** A readable file at a configured path wins, the system store is never asked. */
  lemma ConfiguredFileWins(env: Environment)
    requires RootsFilePath(env) != "" && env.files(RootsFilePath(env)).Some?
    ensures ResolvedRoots(env) == env.files(RootsFilePath(env)).value + [0]
  {
    ResolvedRootsChain(env);
  }

  /** A callback that answers OK, with no configured bundle, always decides the bundle. */
  lemma OverrideOkWins(env: Environment)
    requires ConfiguredBundle(env) == []
    requires env.overrideCallback.Some? && env.overrideCallback.value.status == OverrideOk
    ensures ResolvedRoots(env) == CStringCopy(env.overrideCallback.value.pemRootCerts)
    ensures ResolvedRoots(env) != []
  {
    ResolvedRootsChain(env);
  }

  /** After FAIL_PERMANENTLY, only the system store can still supply roots. */
  lemma FailPermanentlyLeavesSystemOnly(env: Environment)
    requires ConfiguredBundle(env) == [] && FailsPermanently(env)
    ensures ResolvedRoots(env) == SystemBundle(env)
  {
    ResolvedRootsChain(env);
  }

  /** With no configured path, no callback, system roots disabled and no installed
      file, there are no default roots. */
  lemma NoSourceNoRoots(env: Environment)
    requires RootsFilePath(env) == "" && env.overrideCallback.None?
    requires NotUseSystemRoots(env) && env.files(INSTALLED_ROOTS_PATH).None?
    ensures ResolvedRoots(env) == []
  {
    ResolvedRootsChain(env);
  }

  /** grpc_core::DefaultSslRootStore: the two static fields and their once-gate. */
  class DefaultSslRootStore {
    var initialized: bool
    var defaultPemRootCerts: bytes
    var defaultRootStore: Option<RootStoreHandle>

    /** Nothing is cached before the gate opens; a store, when present, was
        built from the bundle held beside it. */
    ghost predicate Valid()
      reads this
    {
      && (!initialized ==> defaultPemRootCerts == [] && defaultRootStore == None)
      && (defaultRootStore.Some? ==> defaultPemRootCerts != [] && defaultRootStore.value.pem == defaultPemRootCerts)
    }

    /** The zero-initialised statics. */
    constructor ()
      ensures Valid() && !initialized
    {
      initialized := false;
      defaultPemRootCerts := [];
      defaultRootStore := None;
    }

    /** ComputePemRootCerts: each source is tried only while the bundle is still
        empty, in the order configured file, override callback, system store,
        installed file. */
    static method ComputePemRootCerts(env: Environment) returns (result: bytes, consulted: seq<RootSource>)
      ensures result == ResolvedRoots(env)
      ensures ConfiguredFile in consulted <==> RootsFilePath(env) != ""
      ensures OverrideCallback in consulted <==> ConfiguredBundle(env) == [] && env.overrideCallback.Some?
      ensures SystemStore in consulted <==>
                ConfiguredBundle(env) == [] && CallbackBundle(env) == [] && !NotUseSystemRoots(env)
      ensures InstalledFile in consulted <==>
                ConfiguredBundle(env) == [] && CallbackBundle(env) == [] && SystemBundle(env) == [] &&
                !FailsPermanently(env)
    {
      result := [];
      consulted := [];
      var notUseSystemRoots := NotUseSystemRoots(env);
      var defaultRootCertsPath := RootsFilePath(env);
      if |defaultRootCertsPath| > 0 {
        consulted := consulted + [ConfiguredFile];
        result := LoadFile(env.files, defaultRootCertsPath);
      }
      var ovrdRes := OverrideFail;
      if result == [] && env.overrideCallback.Some? {
        consulted := consulted + [OverrideCallback];
        ovrdRes := env.overrideCallback.value.status;
        if ovrdRes == OverrideOk {
          result := CStringCopy(env.overrideCallback.value.pemRootCerts);
        }
      }
      if result == [] && !notUseSystemRoots {
        consulted := consulted + [SystemStore];
        result := env.systemRoots;
      }
      if result == [] && ovrdRes != OverrideFailPermanently {
        consulted := consulted + [InstalledFile];
        result := LoadFile(env.files, INSTALLED_ROOTS_PATH);
      }
      ResolvedRootsChain(env);
    }

    /** InitRootStoreOnce: computes the bundle and, from a non-empty one, the store. */
    method InitRootStoreOnce(env: Environment)
      requires Valid() && !initialized
      modifies this
      ensures initialized == old(initialized)
      ensures defaultPemRootCerts == ResolvedRoots(env)
      ensures defaultRootStore == StoreFor(env, defaultPemRootCerts)
    {
      var pem, _ := ComputePemRootCerts(env);
      defaultPemRootCerts := pem;
      if defaultPemRootCerts != [] {
        if env.storeAccepts(defaultPemRootCerts) {
          defaultRootStore := Some(RootStoreHandle(defaultPemRootCerts));
        } else {
          defaultRootStore := None;
        }
      }
    }

    /** InitRootStore: the once-gate. Only the first call computes; later calls,
        whatever the environment then, leave the cache as it is. */
    method InitRootStore(env: Environment)
      requires Valid()
      modifies this
      ensures Valid() && initialized
      ensures old(initialized) ==> defaultPemRootCerts == old(defaultPemRootCerts) &&
                                   defaultRootStore == old(defaultRootStore)
      ensures !old(initialized) ==> defaultPemRootCerts == ResolvedRoots(env) &&
                                    defaultRootStore == StoreFor(env, ResolvedRoots(env))
    {
      if !initialized {
        InitRootStoreOnce(env);
        initialized := true;
      }
    }

    /** GetRootStore: the cached store, null when the bundle is empty. */
    method GetRootStore(env: Environment) returns (store: Option<RootStoreHandle>)
      requires Valid()
      modifies this
      ensures Valid() && initialized
      ensures old(initialized) ==> defaultPemRootCerts == old(defaultPemRootCerts) &&
                                   defaultRootStore == old(defaultRootStore)
      ensures !old(initialized) ==> defaultPemRootCerts == ResolvedRoots(env) &&
                                    defaultRootStore == StoreFor(env, ResolvedRoots(env))
      ensures store == defaultRootStore
      ensures store.Some? ==> store.value.pem == defaultPemRootCerts
    {
      InitRootStore(env);
      store := defaultRootStore;
    }

    /** GetPemRootCerts: the cached bundle, null exactly when it is empty. */
    method GetPemRootCerts(env: Environment) returns (pem: Option<bytes>)
      requires Valid()
      modifies this
      ensures Valid() && initialized
      ensures old(initialized) ==> defaultPemRootCerts == old(defaultPemRootCerts) &&
                                   defaultRootStore == old(defaultRootStore)
      ensures !old(initialized) ==> defaultPemRootCerts == ResolvedRoots(env) &&
                                    defaultRootStore == StoreFor(env, ResolvedRoots(env))
      ensures pem.None? <==> defaultPemRootCerts == []
      ensures pem.Some? ==> pem.value == defaultPemRootCerts
    {
      InitRootStore(env);
      pem := if defaultPemRootCerts == [] then None else Some(defaultPemRootCerts);
    }
  }
}
