/** The TLS session cache as a channel argument: a reference-counted object
    whose copies share one count. */
module SessionCache {

  /** GRPC_SSL_SESSION_CACHE_ARG. */
  const GRPC_SSL_SESSION_CACHE_ARG: string := "grpc.ssl_session_cache"

  /** A tsi_ssl_session_cache as far as its lifetime goes: a capacity and a
      reference count; it is released once the count drops to zero. */
  class SslSessionCache {
    const capacity: nat
    var refs: nat

    /** grpc_ssl_session_cache_create_lru: a new cache holding one reference. */
    constructor CreateLru(capacity: nat)
      ensures this.capacity == capacity && refs == 1
    {
      this.capacity := capacity;
      refs := 1;
    }

    predicate Released()
      reads this
    {
      refs == 0
    }

    /** tsi_ssl_session_cache_ref. */
    method Ref()
      requires !Released()
      modifies this
      ensures refs == old(refs) + 1
    {
      refs := refs + 1;
    }

    /** tsi_ssl_session_cache_unref. */
    method Unref()
      requires !Released()
      modifies this
      ensures refs == old(refs) - 1
    {
      refs := refs - 1;
    }
  }

  /** A pointer channel argument: key, pointer, and (implicitly) the vtable below. */
  datatype PointerArg = PointerArg(key: string, cache: SslSessionCache)

  /** grpc_ssl_session_cache_destroy: gives up the creator's reference. */
  method SessionCacheDestroy(cache: SslSessionCache)
    requires !cache.Released()
    modifies cache
    ensures cache.refs == old(cache.refs) - 1
  {
    cache.Unref();
  }

  /** grpc_ssl_session_cache_arg_copy: the copy is the same cache, one reference more. */
  method SessionCacheArgCopy(p: SslSessionCache) returns (q: SslSessionCache)
    requires !p.Released()
    modifies p
    ensures q == p && p.refs == old(p.refs) + 1
  {
    p.Ref();
    q := p;
  }

  /** grpc_ssl_session_cache_arg_destroy: one reference less. */
  method SessionCacheArgDestroy(p: SslSessionCache)
    requires !p.Released()
    modifies p
    ensures p.refs == old(p.refs) - 1
  {
    p.Unref();
  }

  /** grpc_ssl_session_cache_arg_cmp: equal exactly when both arguments are the same cache. */
  function SessionCacheArgCmp(p: SslSessionCache, q: SslSessionCache): (r: int)
    ensures r == 0 <==> p == q
  {
    if p == q then 0 else 1
  }

  /** grpc_ssl_session_cache_create_channel_arg: wraps the pointer and takes no reference. */
  function SessionCacheCreateChannelArg(cache: SslSessionCache): (arg: PointerArg)
    ensures arg.key == GRPC_SSL_SESSION_CACHE_ARG && arg.cache == cache
  {
    PointerArg(GRPC_SSL_SESSION_CACHE_ARG, cache)
  }

  /** A cache shared by an argument copied twice stays alive until the last of
      the creator's destroy and the copies' destroys. */
  method ShareThroughTwoCopies(capacity: nat) returns (cache: SslSessionCache)
    ensures cache.Released()
  {
    cache := new SslSessionCache.CreateLru(capacity);
    var arg := SessionCacheCreateChannelArg(cache);
    var first := SessionCacheArgCopy(arg.cache);
    var second := SessionCacheArgCopy(arg.cache);
    assert SessionCacheArgCmp(first, second) == 0;
    SessionCacheDestroy(cache);
    assert !cache.Released();
    SessionCacheArgDestroy(first);
    assert !cache.Released();
    SessionCacheArgDestroy(second);
  }
}
