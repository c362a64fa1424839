/** The two property containers the SSL utilities translate between. */
module PeerStructures {
  import opened SslTypes

  /** True when some entry of `props` carries the name `name`. */
  predicate HasAuthPropertyNamed(props: seq<AuthProperty>, name: string) {
    exists k :: 0 <= k < |props| && props[k].name == name
  }

  /** A grpc_auth_context, as far as this layer uses it: an ordered list of
      properties and the name of the property that carries the peer identity. */
  class AuthContext {
    var properties: seq<AuthProperty>
    var peerIdentityPropertyName: Option<string>

    /** The identity name, when set, names a property the context holds. */
    ghost predicate Valid()
      reads this
    {
      peerIdentityPropertyName.Some? ==> HasAuthPropertyNamed(properties, peerIdentityPropertyName.value)
    }

    constructor ()
      ensures Valid()
      ensures properties == [] && peerIdentityPropertyName == None
    {
      properties := [];
      peerIdentityPropertyName := None;
    }

    /** grpc_auth_context_add_property: appends one property. */
    method AddProperty(name: string, value: bytes)
      requires Valid()
      modifies this
      ensures Valid()
      ensures properties == old(properties) + [AuthProperty(name, value)]
      ensures peerIdentityPropertyName == old(peerIdentityPropertyName)
    {
      properties := properties + [AuthProperty(name, value)];
      assert old(properties) <= properties;
    }

    /** grpc_auth_context_set_peer_identity_property_name: succeeds, and records
        the name, exactly when a property of that name is present. */
    method SetPeerIdentityPropertyName(name: string) returns (ok: bool)
      requires Valid()
      modifies this
      ensures Valid()
      ensures ok == HasAuthPropertyNamed(old(properties), name)
      ensures properties == old(properties)
      ensures peerIdentityPropertyName == if ok then Some(name) else old(peerIdentityPropertyName)
    {
      ok := false;
      var i := 0;
      while i < |properties|
        invariant 0 <= i <= |properties|
        invariant !ok
        invariant forall k :: 0 <= k < i ==> properties[k].name != name
      {
        if properties[i].name == name {
          ok := true;
          break;
        }
        i := i + 1;
      }
      if ok {
        peerIdentityPropertyName := Some(name);
      }
    }
  }

  /** A tsi_peer: a property array (null when there are none) holding
      `propertyCount` filled entries. */
  class TsiPeer {
    var properties: array?<PeerProperty>
    var propertyCount: nat

    ghost predicate Valid()
      reads this
    {
      if properties == null then propertyCount == 0 else propertyCount <= properties.Length
    }

    /** The filled entries, in order. */
    function Contents(): seq<PeerProperty>
      reads this, properties
      requires Valid()
    {
      if properties == null then [] else properties[..propertyCount]
    }

    /** The zeroed peer of `memset(&peer, 0, sizeof(peer))`. */
    constructor ()
      ensures Valid()
      ensures properties == null && propertyCount == 0 && Contents() == []
    {
      properties := null;
      propertyCount := 0;
    }
  }
}
