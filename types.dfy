/** Values shared by every component of the SSL utilities: bytes, property
    names, peer and auth-context properties, and status codes. */
module SslTypes {

  datatype Option<+T> = None | Some(value: T) {
    /** The wrapped value, or `default` when absent. */
    function GetOr(default: T): T {
      if Some? then value else default
    }
  }

  newtype byte = b: int | 0 <= b < 256

  type bytes = seq<byte>

  // Peer property names of the TSI layer (ssl_transport_security.h).
  const TSI_X509_SUBJECT_COMMON_NAME_PEER_PROPERTY: string := "x509_subject_common_name"
  const TSI_X509_SUBJECT_ALTERNATIVE_NAME_PEER_PROPERTY: string := "x509_subject_alternative_name"
  const TSI_X509_PEM_CERT_PROPERTY: string := "x509_pem_cert"
  const TSI_SSL_SESSION_REUSED_PEER_PROPERTY: string := "ssl_session_reused"

  // Auth-context property names of gRPC (grpc_security_constants.h).
  const GRPC_TRANSPORT_SECURITY_TYPE_PROPERTY_NAME: string := "transport_security_type"
  const GRPC_X509_CN_PROPERTY_NAME: string := "x509_common_name"
  const GRPC_X509_SAN_PROPERTY_NAME: string := "x509_subject_alternative_name"
  const GRPC_X509_PEM_CERT_PROPERTY_NAME: string := "x509_pem_cert"
  const GRPC_SSL_SESSION_REUSED_PROPERTY: string := "ssl_session_reused"

  /** GRPC_SSL_TRANSPORT_SECURITY_TYPE, "ssl", as the bytes stored without a terminator. */
  const GRPC_SSL_TRANSPORT_SECURITY_TYPE: bytes := [0x73, 0x73, 0x6C]

  /** One entry of a tsi_peer: the name may be null, the value is a byte buffer. */
  datatype PeerProperty = PeerProperty(name: Option<string>, value: bytes)

  /** One entry of a grpc_auth_context. */
  datatype AuthProperty = AuthProperty(name: string, value: bytes)

  /** The errors this layer creates. */
  datatype Error =
    | PeerNameNotInCertificate(peerName: string)
    | CallHostMismatch

  datatype SecurityStatus = SecurityOk | SecurityError

  /** tsi_result: OK or one of the engine's failure codes. */
  datatype TsiResult = TsiOk | TsiFailure(code: nat)

  /** The first index of `c` in `s`, or |s| when `c` does not occur (StringView::npos). */
  function FindFirst<T(==)>(s: seq<T>, c: T): (r: nat)
    ensures r <= |s|
    ensures r < |s| ==> s[r] == c
    ensures c !in s[..r]
  {
    if |s| == 0 then 0
    else if s[0] == c then 0
    else
      var k := FindFirst(s[1..], c);
      assert s[..k + 1] == [s[0]] + s[1..][..k];
      1 + k
  }
}
