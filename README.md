# gRPC SSL utilities, modelled in Dafny

This project models `src/core/lib/security/security_connector/ssl_utils.cc`, the policy layer between gRPC's security connectors and the TLS engine (TSI). It covers five things:

- how the default root certificates are resolved, once per process, from four prioritised sources;
- how a completed handshake's `tsi_peer` becomes a `grpc_auth_context`, and how a context becomes a "shallow" `tsi_peer` again;
- how a requested host name is checked against a peer (host/port split, IPv6 zone id, override escape hatch), and how target names are ordered;
- how the client-certificate request policy is mapped onto the engine's;
- how the client and server handshaker-factory options are assembled, and how a session cache is shared through channel arguments by reference counting.

Modules, one per component:

- `SslTypes` (types.dfy): bytes, property names, properties, status codes, `FindFirst` (`StringView::find`).
- `Memory` (memory.dfy): the set of blocks `gpr_malloc` has handed out and `gpr_free` has not taken back.
- `ClientCertificatePolicy` (request_type.dfy): the request-type map.
- `PeerStructures` (auth_context.dfy): the auth context and `tsi_peer` as classes.
- `PeerTranslation` (peer_translation.dfy): peer to context and back.
- `NameMatching` (name_matching.dfy): host matching, peer-name and call-host checks, target-name compare.
- `RootStore` (root_store.dfy): `DefaultSslRootStore`.
- `SessionCache` (session_cache.dfy): the session-cache channel argument.
- `HandshakerFactory` (handshaker_factory.dfy): cipher suites, ALPN list, client and server factory init.

Everything the file obtains from outside is an input. This covers the process configuration, the override callback's answer, the OS trust store, file contents by path, the ALPN enumerator, `SplitHostPort`, `tsi_ssl_peer_matches_name`, and the engine's factory and root-store constructors. Functions stand in for them wherever the file calls them.

A roots-override callback that answers `FAIL_PERMANENTLY` does not skip every remaining source. The OS trust store is still consulted afterwards (lines 443-445). Only the installed fallback file is skipped (lines 447-451). `RootStore.FailPermanentlyLeavesSystemOnly` states this.

The property-name strings and enum values come from headers that are not part of this model (`grpc_security_constants.h`, `ssl_transport_security.h`, `grpc_types.h`). They are written with gRPC's values. The proofs rely only on the names being pairwise distinct where the code compares them. `security_context.cc` and `load_file.cc` are not part of this model either. The auth context is modelled as an ordered property list plus an identity name. `grpc_load_file(path, 1, ...)` is modelled as the file contents with a NUL byte added, or the empty slice when the file cannot be read.

## Model

| member | source | states |
|---|---|---|
| `ClientCertificatePolicy.GetTsiClientCertificateRequestType` | src/core/lib/security/security_connector/ssl_utils.cc:98-120 | each of the five gRPC request types maps to the same-named TSI type and to no other value; every other input, in or out of the enum's range, maps to "don't request" |
| `ClientCertificatePolicy.RequestTypeRoundTrip` | src/core/lib/security/security_connector/ssl_utils.cc:101-116 | every TSI policy is reached from its gRPC enumerator, so the map is onto |
| `ClientCertificatePolicy.RequestTypeInjectiveOffDefault` | src/core/lib/security/security_connector/ssl_utils.cc:105-116 | two inputs that map to the same requesting policy are equal |
| `SslTypes.FindFirst` | src/core/lib/security/security_connector/ssl_utils.cc:179 | the index of the first occurrence of a character, or the length when it is absent |
| `NameMatching.StripZoneId` | src/core/lib/security/security_connector/ssl_utils.cc:178-182 | the result is a prefix of the host with no '%'; it is the whole host when there is no '%', and is otherwise followed by the first '%' |
| `NameMatching.HostMatchesName` | src/core/lib/security/security_connector/ssl_utils.cc:171-184 | no match when the split-off host is empty; otherwise the matcher's verdict on the host cut at its first '%' |
| `NameMatching.HostMatchesNameIgnoresPort` | src/core/lib/security/security_connector/ssl_utils.cc:173-175 | two names with the same host part match alike whatever their ports |
| `NameMatching.HostMatchesNameDropsZoneId` | src/core/lib/security/security_connector/ssl_utils.cc:178-183 | a host `h%zone` with no '%' in `h` is matched exactly as `h` |
| `NameMatching.CheckPeerName` | src/core/lib/security/security_connector/ssl_utils.cc:126-138 | an error, naming the peer name, exactly when the name is non-empty and does not match the peer; an empty name always succeeds |
| `NameMatching.CheckCallHost` | src/core/lib/security/security_connector/ssl_utils.cc:140-158 | always returns true; the error is set to a mismatch exactly when the host matches neither the shallow peer of the context nor, under a non-empty override, the target name; otherwise the incoming error is left as it was; no malloc'd block is left live |
| `NameMatching.Cmp` | src/core/lib/security/security_connector/ssl_utils.cc:190-192 | the sign of the lexicographic compare: -1, 0 or 1; 0 exactly for equal strings; -1 for a proper prefix |
| `NameMatching.CmpFirstDifference` | src/core/lib/security/security_connector/ssl_utils.cc:190-192 | at the first position where the two strings differ, the smaller character gives -1 and the larger gives 1, so the order is lexicographic |
| `NameMatching.CmpAntisymmetric` | src/core/lib/security/security_connector/ssl_utils.cc:190-192 | swapping the arguments negates the compare |
| `NameMatching.CmpTransitive` | src/core/lib/security/security_connector/ssl_utils.cc:190-192 | "less than" is transitive |
| `NameMatching.CmpTargetName` | src/core/lib/security/security_connector/ssl_utils.cc:186-193 | the target-name compare when it is non-zero, the overridden-name compare otherwise; zero exactly when both pairs are equal |
| `NameMatching.CmpTargetNameAntisymmetric` | src/core/lib/security/security_connector/ssl_utils.cc:186-193 | swapping the two (target, override) pairs flips the sign |
| `NameMatching.CmpTargetNameTransitive` | src/core/lib/security/security_connector/ssl_utils.cc:186-193 | the compare is a transitive order on (target, override) pairs |
| `PeerStructures.AuthContext.SetPeerIdentityPropertyName` | src/core/lib/security/security_connector/ssl_utils.cc:232-234 | succeeds, and records the name, exactly when a property of that name is in the context |
| `PeerTranslation.PeerToAuthContext` | src/core/lib/security/security_connector/ssl_utils.cc:195-237 | the context holds the transport-security type, then one entry per CN, SAN, PEM-certificate and session-reused property in input order, and skips null or unknown names; the identity is SAN if any SAN exists, else CN if any CN exists, else unset; the assertion on setting it never fails |
| `PeerTranslation.IdentityPropertyNameStep` | src/core/lib/security/security_connector/ssl_utils.cc:210-221 | one more property changes the chosen identity only as the loop does: a SAN always takes over, a CN only while none is chosen |
| `PeerTranslation.IdentityPropertyNameIgnoresOrder` | src/core/lib/security/security_connector/ssl_utils.cc:207-231 | the chosen identity is the same for any reordering of the peer's properties, so SAN beats CN in whatever order they arrive |
| `PeerTranslation.TranslatedKeepsName` | src/core/lib/security/security_connector/ssl_utils.cc:210-221 | a SAN (CN) peer property yields a SAN (CN) context property, so the identity name always names a present property |
| `PeerTranslation.FilterMapAppend` | src/core/lib/security/security_connector/ssl_utils.cc:207-231 | translating a concatenation is concatenating the translations |
| `PeerTranslation.AddShallowAuthPropertyToPeer` | src/core/lib/security/security_connector/ssl_utils.cc:239-246 | writes the next free slot with the TSI name and the context's value, and increments the property count by one |
| `PeerTranslation.ShallowPeerFromAuthContext` | src/core/lib/security/security_connector/ssl_utils.cc:248-277 | the array is null for an empty context and otherwise as long as the context; the count never exceeds that allocation; the entries are the context's SAN, CN and PEM properties under their TSI names, values unchanged, in context order; the array is the only new live block |
| `PeerTranslation.ShallowPeerDestruct` | src/core/lib/security/security_connector/ssl_utils.cc:279-281 | frees the property array and nothing else, so the values of the auth context are untouched |
| `PeerTranslation.TranslatedRoundTrip` | src/core/lib/security/security_connector/ssl_utils.cc:263-274 | mapping the translated properties back gives exactly the peer's CN/SAN/PEM subsequence |
| `PeerTranslation.ShallowPeerRoundTrip` | src/core/lib/security/security_connector/ssl_utils.cc:195-277 | peer to auth context to shallow peer keeps the CN/SAN/PEM subsequence byte for byte and in order, and drops the security-type and session-reused entries |
| `HandshakerFactory.FillAlpnProtocolStrings` | src/core/lib/security/security_connector/ssl_utils.cc:160-169 | a fresh live array whose length is the number of ALPN versions and whose entry i is version i |
| `HandshakerFactory.CipherSuites.Get` | src/core/lib/security/security_connector/ssl_utils.cc:85-96 | the first call fixes the configured list, or the four-suite default; later calls return the same string |
| `HandshakerFactory.ClientHandshakerFactoryInit` | src/core/lib/security/security_connector/ssl_utils.cc:283-325 | without explicit roots it takes the default bundle and store, and fails before calling the engine exactly when there is no default bundle; explicit roots come with no store; the key/cert pair is passed only when both halves are present; ALPN, cipher suites and session cache are filled in; the early failure leaves the cached cipher suites untouched; success exactly when the engine answers OK; the ALPN array is freed on every path |
| `HandshakerFactory.NoDefaultRootsFailsClientInit` | src/core/lib/security/security_connector/ssl_utils.cc:289-295 | with no root source available and no explicit roots, client factory init fails without calling the engine and leaks nothing |
| `HandshakerFactory.ServerHandshakerFactoryInit` | src/core/lib/security/security_connector/ssl_utils.cc:327-354 | key/cert pairs and client roots pass through; the request type goes through the policy map; the ALPN count is narrowed to 16 bits; success exactly when the engine answers OK; the ALPN array is freed |
| `SessionCache.SslSessionCache.CreateLru` | src/core/lib/security/security_connector/ssl_utils.cc:358-361 | a new cache with the given capacity holding one reference |
| `SessionCache.SessionCacheDestroy` | src/core/lib/security/security_connector/ssl_utils.cc:363-367 | drops one reference |
| `SessionCache.SessionCacheArgCopy` | src/core/lib/security/security_connector/ssl_utils.cc:369-375 | returns the same cache and adds one reference |
| `SessionCache.SessionCacheArgDestroy` | src/core/lib/security/security_connector/ssl_utils.cc:377-381 | drops one reference |
| `SessionCache.SessionCacheArgCmp` | src/core/lib/security/security_connector/ssl_utils.cc:383-385 | zero exactly when both arguments are the same cache object |
| `SessionCache.SessionCacheCreateChannelArg` | src/core/lib/security/security_connector/ssl_utils.cc:387-396 | a pointer argument under the session-cache key holding the cache itself, taking no reference |
| `SessionCache.ShareThroughTwoCopies` | src/core/lib/security/security_connector/ssl_utils.cc:369-381 | a cache created, copied twice and destroyed three times is released only by the last destroy |
| `RootStore.LoadFile` | src/core/lib/security/security_connector/ssl_utils.cc:426-427 | a readable file gives its contents followed by one NUL; an unreadable one gives the empty slice |
| `RootStore.CStringCopy` | src/core/lib/security/security_connector/ssl_utils.cc:436-438 | exactly the callback's bytes before their first NUL, then one NUL (strlen + 1 bytes), so never empty |
| `RootStore.FirstNonEmpty` | src/core/lib/security/security_connector/ssl_utils.cc:418-453 | the first non-empty candidate, preceded only by empty ones; empty exactly when every candidate is |
| `RootStore.ResolvedRootsChain` | src/core/lib/security/security_connector/ssl_utils.cc:425-451 | the first non-empty source over the four sources is the written-out fallback chain |
| `RootStore.StoreFor` | src/core/lib/security/security_connector/ssl_utils.cc:462-466 | a store exists only for a non-empty bundle and is built from that bundle |
| `RootStore.ConfiguredFileWins` | src/core/lib/security/security_connector/ssl_utils.cc:423-428 | a readable file at a configured path is the bundle, whatever the other sources hold |
| `RootStore.OverrideOkWins` | src/core/lib/security/security_connector/ssl_utils.cc:431-441 | with no configured bundle, a callback answering OK decides the bundle, which is then non-empty |
| `RootStore.FailPermanentlyLeavesSystemOnly` | src/core/lib/security/security_connector/ssl_utils.cc:443-451 | with no configured bundle and FAIL_PERMANENTLY, the bundle is what the system store gives, if enabled, and never the installed file |
| `RootStore.NoSourceNoRoots` | src/core/lib/security/security_connector/ssl_utils.cc:418-453 | no path, no callback, system roots disabled and no installed file leave the bundle empty |
| `RootStore.DefaultSslRootStore.ComputePemRootCerts` | src/core/lib/security/security_connector/ssl_utils.cc:418-453 | the result is the first non-empty of configured file, callback, system store and installed file; each source is consulted exactly when it is enabled and all earlier ones gave nothing; the installed file never after FAIL_PERMANENTLY |
| `RootStore.DefaultSslRootStore.InitRootStoreOnce` | src/core/lib/security/security_connector/ssl_utils.cc:460-467 | stores the resolved bundle and, only for a non-empty one, the store built from it |
| `RootStore.DefaultSslRootStore.InitRootStore` | src/core/lib/security/security_connector/ssl_utils.cc:455-458 | the first call computes; every later call leaves the cache unchanged whatever the environment then is; a cached store is always derived from the cached bundle |
| `RootStore.DefaultSslRootStore.GetRootStore` | src/core/lib/security/security_connector/ssl_utils.cc:405-408 | initialises once and returns the cached store, absent when the bundle is empty |
| `RootStore.DefaultSslRootStore.GetPemRootCerts` | src/core/lib/security/security_connector/ssl_utils.cc:410-416 | initialises once and returns the cached bundle, null exactly when it is empty |

## Left out

- `grpc_ssl_check_alpn` (line 122) is a stub that always succeeds, so it has nothing to model.
- `grpc_set_ssl_roots_override_callback` (lines 65-69) only stores a process-wide pointer. The model receives the callback's answer as `Environment.overrideCallback`.
- The TLS engine is not modelled. `tsi_create_ssl_client/server_handshaker_factory_with_options` become result-returning function parameters. `tsi_ssl_root_certs_store_create` becomes a success predicate. The LRU cache itself is not modelled; only its reference count is.
- `SplitHostPort` and `tsi_ssl_peer_matches_name` are uninterpreted function parameters, because their code is not part of this model.
- `GPR_GLOBAL_CONFIG_GET`, `grpc_load_file`, `LoadSystemRootCerts` and the ALPN enumerator are inputs, because they are configuration, file and OS I/O.
- `gpr_once_init` becomes a boolean field set after the one computation. Its thread safety is not modelled.
- The session cache's reference count is a plain counter. Atomic increment and decrement are not modelled.
- Logging, the text of error messages (`gpr_asprintf`), and the `handshaker_factory` out-pointer are not modelled. The engine's result code stands for the factory.
- `on_call_host_checked` is unused by `grpc_ssl_check_call_host` and is not a parameter.
- Values are immutable sequences, so a shallow peer entry holds a value equal to the context's rather than a pointer into it. The rule that only the index array is freed is carried by the frame and ensures of `PeerTranslation.ShallowPeerDestruct`.
- Auth contexts are built without a chained parent context (`MakeRefCounted<grpc_auth_context>(nullptr)`). Iteration over a chained parent is not modelled.
- The `INSTALL_PREFIX` build variant of the installed roots path is not modelled. Only `/usr/share/grpc/roots.pem` is.
- NameMatching.Cmp: models only the sign of `StringView::cmp`, comparing characters as sequences. The magnitude returned by `strncmp`, and its stop at an embedded NUL, are not modelled, because `StringView` is not part of this model.
- SessionCache.SessionCacheArgCmp: models `GPR_ICMP` only as "zero exactly for the same object". It returns 1 for distinct objects, because Dafny has no pointer addresses to order.
- `size_t` overflow in allocation sizes is not modelled. The one explicit narrowing, the server's `uint16_t` ALPN count, is modelled.
