/** Checking the name a caller asked for against the names a peer's
    certificate carries, and ordering of target names. */
module NameMatching {
  import opened SslTypes
  import opened PeerStructures
  import opened PeerTranslation
  import opened Memory

  /** SplitHostPort: a name into its host and port parts. */
  type HostPortSplitter = string -> (string, string)

  /** tsi_ssl_peer_matches_name: whether a peer's certificate covers a host name. */
  type PeerNameMatcher = (seq<PeerProperty>, string) -> bool

  /** The host with its IPv6 zone id cut off: everything before the first '%'. */
  function StripZoneId(host: string): (r: string)
    ensures r <= host
    ensures '%' !in r
    ensures |r| < |host| ==> host[|r|] == '%'
  {
    host[..FindFirst(host, '%')]
  }

  /** grpc_ssl_host_matches_name. */
  function HostMatchesName(peer: seq<PeerProperty>, peerName: string,
                           split: HostPortSplitter, matches: PeerNameMatcher): (r: bool)
    ensures split(peerName).0 == "" ==> !r
    ensures split(peerName).0 != "" ==> r == matches(peer, StripZoneId(split(peerName).0))
  {
    var host := split(peerName).0;
    if host == "" then false else matches(peer, StripZoneId(host))
  }

  /** The port a name carries never takes part in the match. */
  lemma HostMatchesNameIgnoresPort(peer: seq<PeerProperty>, name: string, other: string,
                                   split: HostPortSplitter, matches: PeerNameMatcher)
    requires split(name).0 == split(other).0
    ensures HostMatchesName(peer, name, split, matches) == HostMatchesName(peer, other, split, matches)
  {
  }

  /** A host "h%zone" is matched as "h": the zone id never reaches the matcher. */
  lemma {:induction false} HostMatchesNameDropsZoneId(peer: seq<PeerProperty>, name: string, h: string, zone: string,
                                                      split: HostPortSplitter, matches: PeerNameMatcher)
    requires split(name).0 == h + "%" + zone
    requires '%' !in h
    ensures HostMatchesName(peer, name, split, matches) == matches(peer, h)
  {
    var host := h + "%" + zone;
    assert host[..|h|] == h;
    assert host[|h|] == '%';
  }

  /** grpc_ssl_check_peer_name: an error exactly when a name is given and the peer does not match it. */
  function CheckPeerName(peerName: string, peer: seq<PeerProperty>,
                         split: HostPortSplitter, matches: PeerNameMatcher): (r: Option<Error>)
    ensures r.Some? <==> peerName != "" && !HostMatchesName(peer, peerName, split, matches)
    ensures r.Some? ==> r.value == PeerNameNotInCertificate(peerName)
  {
    if peerName != "" && !HostMatchesName(peer, peerName, split, matches) then
      Some(PeerNameNotInCertificate(peerName))
    else
      None
  }

  /** grpc_ssl_check_call_host. It always answers true; the outcome is in the
      error it returns, which is the incoming error unless the host matches
      neither the peer (through a shallow peer of the context) nor, when the
      target name is overridden, the target name itself. The shallow peer's
      array is freed before returning. */
  method CheckCallHost(host: string, targetName: string, overriddenTargetName: string,
                       authContext: AuthContext, split: HostPortSplitter, matches: PeerNameMatcher,
                       heap: Allocator, error: Option<Error>)
    returns (checked: bool, error': Option<Error>)
    modifies heap
    ensures checked
    ensures heap.live == old(heap.live)
    ensures error' ==
      if HostMatchesName(ShallowProperties(authContext.properties), host, split, matches) ||
         (overriddenTargetName != "" && host == targetName)
      then error
      else Some(CallHostMismatch)
  {
    var status := SecurityError;
    var peer := ShallowPeerFromAuthContext(authContext, heap);
    if HostMatchesName(peer.Contents(), host, split, matches) {
      status := SecurityOk;
    }
    if overriddenTargetName != "" && host == targetName {
      status := SecurityOk;
    }
    error' := error;
    if status != SecurityOk {
      error' := Some(CallHostMismatch);
    }
    ShallowPeerDestruct(peer, heap);
    return true, error';
  }

  /** StringView::cmp, by sign: lexicographic order on characters. */
  function Cmp(a: string, b: string): (r: int)
    ensures -1 <= r <= 1
    ensures r == 0 <==> a == b
    ensures a < b ==> r == -1
  {
    if |a| == 0 && |b| == 0 then 0
    else if |a| == 0 then -1
    else if |b| == 0 then 1
    else if a[0] < b[0] then -1
    else if a[0] > b[0] then 1
    else
      assert a == [a[0]] + a[1..] && b == [b[0]] + b[1..];
      Cmp(a[1..], b[1..])
  }

  /** The first position where the strings differ decides the sign. */
  lemma {:induction false} CmpFirstDifference(a: string, b: string, k: nat)
    requires k < |a| && k < |b| && a[..k] == b[..k] && a[k] != b[k]
    ensures Cmp(a, b) == (if a[k] < b[k] then -1 else 1)
  {
    if k > 0 {
      assert a[0] == a[..k][0] == b[..k][0] == b[0];
      assert a[1..][..k - 1] == a[..k][1..] == b[..k][1..] == b[1..][..k - 1];
      CmpFirstDifference(a[1..], b[1..], k - 1);
    }
  }

  lemma {:induction false} CmpAntisymmetric(a: string, b: string)
    ensures Cmp(a, b) == -Cmp(b, a)
  {
    if |a| > 0 && |b| > 0 && a[0] == b[0] {
      CmpAntisymmetric(a[1..], b[1..]);
    }
  }

  lemma {:induction false} CmpTransitive(a: string, b: string, c: string)
    requires Cmp(a, b) < 0 && Cmp(b, c) < 0
    ensures Cmp(a, c) < 0
  {
    if |a| > 0 && |b| > 0 && |c| > 0 && a[0] == b[0] == c[0] {
      CmpTransitive(a[1..], b[1..], c[1..]);
    }
  }

  /** grpc_ssl_cmp_target_name: target names first, overridden names on a tie. */
  function CmpTargetName(targetName: string, otherTargetName: string,
                         overriddenTargetName: string, otherOverriddenTargetName: string): (r: int)
    ensures Cmp(targetName, otherTargetName) != 0 ==> r == Cmp(targetName, otherTargetName)
    ensures Cmp(targetName, otherTargetName) == 0 ==> r == Cmp(overriddenTargetName, otherOverriddenTargetName)
    ensures r == 0 <==> targetName == otherTargetName && overriddenTargetName == otherOverriddenTargetName
  {
    var c := Cmp(targetName, otherTargetName);
    if c != 0 then c else Cmp(overriddenTargetName, otherOverriddenTargetName)
  }

  /** Swapping the two (target, override) pairs flips the sign. */
  lemma CmpTargetNameAntisymmetric(t: string, ot: string, o: string, oo: string)
    ensures CmpTargetName(t, ot, o, oo) == -CmpTargetName(ot, t, oo, o)
  {
    CmpAntisymmetric(t, ot);
    CmpAntisymmetric(o, oo);
  }

  /** The compare is a strict order on (target, override) pairs. */
  lemma CmpTargetNameTransitive(t1: string, o1: string, t2: string, o2: string, t3: string, o3: string)
    requires CmpTargetName(t1, t2, o1, o2) < 0 && CmpTargetName(t2, t3, o2, o3) < 0
    ensures CmpTargetName(t1, t3, o1, o3) < 0
  {
    if Cmp(t1, t2) < 0 && Cmp(t2, t3) < 0 {
      CmpTransitive(t1, t2, t3);
    } else if Cmp(o1, o2) < 0 && Cmp(o2, o3) < 0 {
      CmpTransitive(o1, o2, o3);
    }
  }
}
