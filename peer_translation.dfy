/** Translation between a handshake's tsi_peer and the grpc_auth_context
    attached to a call, in both directions. */
module PeerTranslation {
  import opened SslTypes
  import opened PeerStructures
  import opened Memory

  /** Applies `f` to every element in order and keeps the present results. */
  function FilterMap<A, B>(f: A -> Option<B>, s: seq<A>): (r: seq<B>)
    ensures |r| <= |s|
  {
    if s == [] then []
    else
      var last := f(s[|s| - 1]);
      FilterMap(f, s[..|s| - 1]) + (if last.Some? then [last.value] else [])
  }

  lemma {:induction false} FilterMapAppend<A, B>(f: A -> Option<B>, s: seq<A>, t: seq<A>)
    ensures FilterMap(f, s + t) == FilterMap(f, s) + FilterMap(f, t)
  {
    if t == [] {
      assert s + t == s;
    } else {
      var t' := t[..|t| - 1];
      assert (s + t)[..|s + t| - 1] == s + t';
      assert (s + t)[|s + t| - 1] == t[|t| - 1];
      FilterMapAppend(f, s, t');
    }
  }

  // ---- peer -> auth context (grpc_ssl_peer_to_auth_context) ----

  /** The auth-context property one peer property becomes: CN, SAN, PEM
      certificate and session-reused are copied under gRPC's names; a null or
      any other name is dropped. */
  function AuthPropertyOf(p: PeerProperty): Option<AuthProperty> {
    match p.name
    case None => None
    case Some(n) =>
      if n == TSI_X509_SUBJECT_COMMON_NAME_PEER_PROPERTY then Some(AuthProperty(GRPC_X509_CN_PROPERTY_NAME, p.value))
      else if n == TSI_X509_SUBJECT_ALTERNATIVE_NAME_PEER_PROPERTY then Some(AuthProperty(GRPC_X509_SAN_PROPERTY_NAME, p.value))
      else if n == TSI_X509_PEM_CERT_PROPERTY then Some(AuthProperty(GRPC_X509_PEM_CERT_PROPERTY_NAME, p.value))
      else if n == TSI_SSL_SESSION_REUSED_PEER_PROPERTY then Some(AuthProperty(GRPC_SSL_SESSION_REUSED_PROPERTY, p.value))
      else None
  }

  function TranslatedProperties(peer: seq<PeerProperty>): seq<AuthProperty> {
    FilterMap(AuthPropertyOf, peer)
  }

  /** The property every SSL auth context starts with. */
  function TransportSecurityTypeProperty(): AuthProperty {
    AuthProperty(GRPC_TRANSPORT_SECURITY_TYPE_PROPERTY_NAME, GRPC_SSL_TRANSPORT_SECURITY_TYPE)
  }

  predicate HasPeerPropertyNamed(peer: seq<PeerProperty>, name: string) {
    exists k :: 0 <= k < |peer| && peer[k].name == Some(name)
  }

  /** The identity property chosen for a peer, stated without reference to the
      order of its properties: SAN if any SAN is present, otherwise CN if any
      CN is present, otherwise none. */
  function IdentityPropertyName(peer: seq<PeerProperty>): Option<string> {
    if HasPeerPropertyNamed(peer, TSI_X509_SUBJECT_ALTERNATIVE_NAME_PEER_PROPERTY) then Some(GRPC_X509_SAN_PROPERTY_NAME)
    else if HasPeerPropertyNamed(peer, TSI_X509_SUBJECT_COMMON_NAME_PEER_PROPERTY) then Some(GRPC_X509_CN_PROPERTY_NAME)
    else None
  }

  /** What one more property does to the chosen identity: a CN is taken only
      while nothing is chosen, a SAN always takes over. */
  lemma IdentityPropertyNameStep(peer: seq<PeerProperty>, p: PeerProperty)
    ensures IdentityPropertyName(peer + [p]) ==
      if p.name == Some(TSI_X509_SUBJECT_ALTERNATIVE_NAME_PEER_PROPERTY) then Some(GRPC_X509_SAN_PROPERTY_NAME)
      else if p.name == Some(TSI_X509_SUBJECT_COMMON_NAME_PEER_PROPERTY) && IdentityPropertyName(peer) == None then Some(GRPC_X509_CN_PROPERTY_NAME)
      else IdentityPropertyName(peer)
  {
    var q := peer + [p];
    forall n: string
      ensures HasPeerPropertyNamed(q, n) <==> HasPeerPropertyNamed(peer, n) || p.name == Some(n)
    {
      if HasPeerPropertyNamed(peer, n) {
        var k :| 0 <= k < |peer| && peer[k].name == Some(n);
        assert q[k] == peer[k];
      }
      if p.name == Some(n) {
        assert q[|peer|] == p;
      }
      if HasPeerPropertyNamed(q, n) {
        var k :| 0 <= k < |q| && q[k].name == Some(n);
        if k < |peer| { assert peer[k] == q[k]; }
      }
    }
  }

  /** SAN precedence does not depend on the order in which the properties arrive. */
  lemma IdentityPropertyNameIgnoresOrder(peer: seq<PeerProperty>, other: seq<PeerProperty>)
    requires multiset(peer) == multiset(other)
    ensures IdentityPropertyName(peer) == IdentityPropertyName(other)
  {
    forall n: string
      ensures HasPeerPropertyNamed(peer, n) <==> HasPeerPropertyNamed(other, n)
    {
      if HasPeerPropertyNamed(peer, n) {
        var k :| 0 <= k < |peer| && peer[k].name == Some(n);
        assert peer[k] in multiset(other);
        var j :| 0 <= j < |other| && other[j] == peer[k];
      }
      if HasPeerPropertyNamed(other, n) {
        var k :| 0 <= k < |other| && other[k].name == Some(n);
        assert other[k] in multiset(peer);
        var j :| 0 <= j < |peer| && peer[j] == other[k];
      }
    }
  }

  /** A peer property whose name is `tsiName` leaves a property named `grpcName`
      in the translation. */
  lemma {:induction false} TranslatedKeepsName(peer: seq<PeerProperty>, tsiName: string, grpcName: string)
    requires HasPeerPropertyNamed(peer, tsiName)
    requires (tsiName, grpcName) == (TSI_X509_SUBJECT_ALTERNATIVE_NAME_PEER_PROPERTY, GRPC_X509_SAN_PROPERTY_NAME) ||
             (tsiName, grpcName) == (TSI_X509_SUBJECT_COMMON_NAME_PEER_PROPERTY, GRPC_X509_CN_PROPERTY_NAME)
    ensures HasAuthPropertyNamed(TranslatedProperties(peer), grpcName)
  {
    var k :| 0 <= k < |peer| && peer[k].name == Some(tsiName);
    var before, at, after := peer[..k], [peer[k]], peer[k + 1..];
    assert peer == before + at + after;
    FilterMapAppend(AuthPropertyOf, before + at, after);
    FilterMapAppend(AuthPropertyOf, before, at);
    assert at[..0] == [];
    var mid := FilterMap(AuthPropertyOf, at);
    assert mid == [AuthProperty(grpcName, peer[k].value)];
    var whole := TranslatedProperties(peer);
    assert whole == FilterMap(AuthPropertyOf, before) + mid + FilterMap(AuthPropertyOf, after);
    assert whole[|FilterMap(AuthPropertyOf, before)|].name == grpcName;
  }

  /** grpc_ssl_peer_to_auth_context. */
  method PeerToAuthContext(peer: seq<PeerProperty>) returns (ctx: AuthContext)
    requires |peer| >= 1
    ensures fresh(ctx) && ctx.Valid()
    ensures ctx.properties == [TransportSecurityTypeProperty()] + TranslatedProperties(peer)
    ensures ctx.peerIdentityPropertyName == IdentityPropertyName(peer)
  {
    var peerIdentityPropertyName: Option<string> := None;
    ctx := new AuthContext();
    ctx.AddProperty(GRPC_TRANSPORT_SECURITY_TYPE_PROPERTY_NAME, GRPC_SSL_TRANSPORT_SECURITY_TYPE);
    for i := 0 to |peer|
      invariant ctx.Valid() && ctx.peerIdentityPropertyName == None
      invariant ctx.properties == [TransportSecurityTypeProperty()] + TranslatedProperties(peer[..i])
      invariant peerIdentityPropertyName == IdentityPropertyName(peer[..i])
    {
      var prop := peer[i];
      assert peer[..i + 1] == peer[..i] + [prop];
      assert peer[..i + 1][..i] == peer[..i];
      IdentityPropertyNameStep(peer[..i], prop);
      if prop.name.Some? {
        var name := prop.name.value;
        if name == TSI_X509_SUBJECT_COMMON_NAME_PEER_PROPERTY {
          if peerIdentityPropertyName == None {
            peerIdentityPropertyName := Some(GRPC_X509_CN_PROPERTY_NAME);
          }
          ctx.AddProperty(GRPC_X509_CN_PROPERTY_NAME, prop.value);
        } else if name == TSI_X509_SUBJECT_ALTERNATIVE_NAME_PEER_PROPERTY {
          peerIdentityPropertyName := Some(GRPC_X509_SAN_PROPERTY_NAME);
          ctx.AddProperty(GRPC_X509_SAN_PROPERTY_NAME, prop.value);
        } else if name == TSI_X509_PEM_CERT_PROPERTY {
          ctx.AddProperty(GRPC_X509_PEM_CERT_PROPERTY_NAME, prop.value);
        } else if name == TSI_SSL_SESSION_REUSED_PEER_PROPERTY {
          ctx.AddProperty(GRPC_SSL_SESSION_REUSED_PROPERTY, prop.value);
        }
      }
    }
    assert peer[..|peer|] == peer;
    if peerIdentityPropertyName.Some? {
      var name := peerIdentityPropertyName.value;
      if name == GRPC_X509_SAN_PROPERTY_NAME {
        TranslatedKeepsName(peer, TSI_X509_SUBJECT_ALTERNATIVE_NAME_PEER_PROPERTY, GRPC_X509_SAN_PROPERTY_NAME);
      } else {
        TranslatedKeepsName(peer, TSI_X509_SUBJECT_COMMON_NAME_PEER_PROPERTY, GRPC_X509_CN_PROPERTY_NAME);
      }
      var k :| 0 <= k < |TranslatedProperties(peer)| && TranslatedProperties(peer)[k].name == name;
      assert ctx.properties[k + 1].name == name;
      var ok := ctx.SetPeerIdentityPropertyName(name);
      // The GPR_ASSERT of grpc_ssl_peer_to_auth_context (line 233) never fires.
      assert ok;
    }
  }

  // ---- auth context -> shallow peer (grpc_shallow_peer_from_ssl_auth_context) ----

  /** The peer property a context property is mapped back to: SAN, CN and PEM
      certificate under their TSI names, with the same value; anything else none. */
  function ShallowPropertyOf(prop: AuthProperty): Option<PeerProperty> {
    if prop.name == GRPC_X509_SAN_PROPERTY_NAME then Some(PeerProperty(Some(TSI_X509_SUBJECT_ALTERNATIVE_NAME_PEER_PROPERTY), prop.value))
    else if prop.name == GRPC_X509_CN_PROPERTY_NAME then Some(PeerProperty(Some(TSI_X509_SUBJECT_COMMON_NAME_PEER_PROPERTY), prop.value))
    else if prop.name == GRPC_X509_PEM_CERT_PROPERTY_NAME then Some(PeerProperty(Some(TSI_X509_PEM_CERT_PROPERTY), prop.value))
    else None
  }

  function ShallowProperties(props: seq<AuthProperty>): seq<PeerProperty> {
    FilterMap(ShallowPropertyOf, props)
  }

  /** A peer property that survives the round trip: one named CN, SAN or PEM certificate. */
  function IdentityPropertyOf(p: PeerProperty): Option<PeerProperty> {
    if p.name == Some(TSI_X509_SUBJECT_COMMON_NAME_PEER_PROPERTY) ||
       p.name == Some(TSI_X509_SUBJECT_ALTERNATIVE_NAME_PEER_PROPERTY) ||
       p.name == Some(TSI_X509_PEM_CERT_PROPERTY)
    then Some(p) else None
  }

  /** The CN/SAN/PEM-certificate subsequence of a peer, in order. */
  function IdentitySubsequence(peer: seq<PeerProperty>): seq<PeerProperty> {
    FilterMap(IdentityPropertyOf, peer)
  }

  /** Translating a peer to an auth context and back to a shallow peer keeps
      exactly its CN, SAN and PEM-certificate properties, in order, byte for byte;
      the transport-security type and session-reused entries do not come back. */
  lemma {:induction false} ShallowPeerRoundTrip(peer: seq<PeerProperty>)
    ensures ShallowProperties([TransportSecurityTypeProperty()] + TranslatedProperties(peer)) == IdentitySubsequence(peer)
  {
    FilterMapAppend(ShallowPropertyOf, [TransportSecurityTypeProperty()], TranslatedProperties(peer));
    assert [TransportSecurityTypeProperty()][..0] == [];
    assert ShallowProperties([TransportSecurityTypeProperty()]) == [];
    TranslatedRoundTrip(peer);
  }

  lemma {:induction false} TranslatedRoundTrip(peer: seq<PeerProperty>)
    ensures ShallowProperties(TranslatedProperties(peer)) == IdentitySubsequence(peer)
  {
    if peer != [] {
      var init, p := peer[..|peer| - 1], peer[|peer| - 1];
      TranslatedRoundTrip(init);
      var t := AuthPropertyOf(p);
      var tail := if t.Some? then [t.value] else [];
      assert TranslatedProperties(peer) == TranslatedProperties(init) + tail;
      FilterMapAppend(ShallowPropertyOf, TranslatedProperties(init), tail);
      if t.Some? {
        assert tail[..0] == [];
      }
    }
  }

  /** add_shallow_auth_property_to_peer: writes the next slot and bumps the count. */
  method AddShallowAuthPropertyToPeer(peer: TsiPeer, prop: AuthProperty, tsiPropName: string)
    requires peer.Valid() && peer.properties != null
    requires peer.propertyCount < peer.properties.Length
    modifies peer, peer.properties
    ensures peer.Valid() && peer.properties == old(peer.properties)
    ensures peer.propertyCount == old(peer.propertyCount) + 1
    ensures peer.Contents() == old(peer.Contents()) + [PeerProperty(Some(tsiPropName), prop.value)]
  {
    peer.properties[peer.propertyCount] := PeerProperty(Some(tsiPropName), prop.value);
    peer.propertyCount := peer.propertyCount + 1;
  }

  /** grpc_shallow_peer_from_ssl_auth_context: an array as long as the context,
      holding the SAN, CN and PEM entries of the context in order. */
  method ShallowPeerFromAuthContext(ctx: AuthContext, heap: Allocator) returns (peer: TsiPeer)
    modifies heap
    ensures fresh(peer) && peer.Valid()
    ensures peer.properties == null <==> |ctx.properties| == 0
    ensures peer.properties != null ==> fresh(peer.properties) && peer.properties.Length == |ctx.properties|
    ensures peer.propertyCount <= |ctx.properties|
    ensures peer.Contents() == ShallowProperties(ctx.properties)
    ensures heap.live == old(heap.live) + (if peer.properties == null then {} else {peer.properties})
  {
    var maxNumProps := 0;
    while maxNumProps < |ctx.properties|
      invariant maxNumProps <= |ctx.properties|
    {
      maxNumProps := maxNumProps + 1;
    }
    peer := new TsiPeer();
    if maxNumProps > 0 {
      var arr := new PeerProperty[maxNumProps];
      heap.Register(arr);
      peer.properties := arr;
      var it := 0;
      while it < |ctx.properties|
        invariant 0 <= it <= |ctx.properties|
        invariant peer.properties == arr && peer.Valid()
        invariant peer.propertyCount <= it
        invariant peer.Contents() == ShallowProperties(ctx.properties[..it])
        modifies peer, arr
      {
        var prop := ctx.properties[it];
        assert ctx.properties[..it + 1] == ctx.properties[..it] + [prop];
        assert ctx.properties[..it + 1][..it] == ctx.properties[..it];
        if prop.name == GRPC_X509_SAN_PROPERTY_NAME {
          AddShallowAuthPropertyToPeer(peer, prop, TSI_X509_SUBJECT_ALTERNATIVE_NAME_PEER_PROPERTY);
        } else if prop.name == GRPC_X509_CN_PROPERTY_NAME {
          AddShallowAuthPropertyToPeer(peer, prop, TSI_X509_SUBJECT_COMMON_NAME_PEER_PROPERTY);
        } else if prop.name == GRPC_X509_PEM_CERT_PROPERTY_NAME {
          AddShallowAuthPropertyToPeer(peer, prop, TSI_X509_PEM_CERT_PROPERTY);
        }
        it := it + 1;
      }
      assert ctx.properties[..it] == ctx.properties;
    }
  }

  /** grpc_shallow_peer_destruct: frees the property array only; the values it
      points at belong to the auth context, which is left alone. */
  method ShallowPeerDestruct(peer: TsiPeer, heap: Allocator)
    requires peer.properties != null ==> peer.properties in heap.live
    modifies heap
    ensures heap.live == old(heap.live) - (if peer.properties == null then {} else {peer.properties})
  {
    if peer.properties != null {
      heap.Free(peer.properties);
    }
  }
}
