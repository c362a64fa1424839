/** Mapping of gRPC's client-certificate request policy onto the TSI layer's. */
module ClientCertificatePolicy {

  // grpc_ssl_client_certificate_request_type is a C enum: its enumerators in order.
  const GRPC_SSL_DONT_REQUEST_CLIENT_CERTIFICATE: int := 0
  const GRPC_SSL_REQUEST_CLIENT_CERTIFICATE_BUT_DONT_VERIFY: int := 1
  const GRPC_SSL_REQUEST_CLIENT_CERTIFICATE_AND_VERIFY: int := 2
  const GRPC_SSL_REQUEST_AND_REQUIRE_CLIENT_CERTIFICATE_BUT_DONT_VERIFY: int := 3
  const GRPC_SSL_REQUEST_AND_REQUIRE_CLIENT_CERTIFICATE_AND_VERIFY: int := 4

  datatype TsiClientCertificateRequestType =
    | TsiDontRequestClientCertificate
    | TsiRequestClientCertificateButDontVerify
    | TsiRequestClientCertificateAndVerify
    | TsiRequestAndRequireClientCertificateButDontVerify
    | TsiRequestAndRequireClientCertificateAndVerify

  /** The gRPC enumerator that has the same meaning as a TSI value. */
  function GrpcRequestTypeOf(t: TsiClientCertificateRequestType): (code: int)
    ensures GRPC_SSL_DONT_REQUEST_CLIENT_CERTIFICATE <= code <= GRPC_SSL_REQUEST_AND_REQUIRE_CLIENT_CERTIFICATE_AND_VERIFY
  {
    match t
    case TsiDontRequestClientCertificate => GRPC_SSL_DONT_REQUEST_CLIENT_CERTIFICATE
    case TsiRequestClientCertificateButDontVerify => GRPC_SSL_REQUEST_CLIENT_CERTIFICATE_BUT_DONT_VERIFY
    case TsiRequestClientCertificateAndVerify => GRPC_SSL_REQUEST_CLIENT_CERTIFICATE_AND_VERIFY
    case TsiRequestAndRequireClientCertificateButDontVerify => GRPC_SSL_REQUEST_AND_REQUIRE_CLIENT_CERTIFICATE_BUT_DONT_VERIFY
    case TsiRequestAndRequireClientCertificateAndVerify => GRPC_SSL_REQUEST_AND_REQUIRE_CLIENT_CERTIFICATE_AND_VERIFY
  }

  /** grpc_get_tsi_client_certificate_request_type: total, with unknown values
      falling back to not requesting a certificate. */
  function GetTsiClientCertificateRequestType(grpcRequestType: int): (r: TsiClientCertificateRequestType)
    ensures r == TsiDontRequestClientCertificate <==>
              grpcRequestType == GRPC_SSL_DONT_REQUEST_CLIENT_CERTIFICATE ||
              grpcRequestType < GRPC_SSL_DONT_REQUEST_CLIENT_CERTIFICATE ||
              grpcRequestType > GRPC_SSL_REQUEST_AND_REQUIRE_CLIENT_CERTIFICATE_AND_VERIFY
    ensures r == TsiRequestClientCertificateButDontVerify <==>
              grpcRequestType == GRPC_SSL_REQUEST_CLIENT_CERTIFICATE_BUT_DONT_VERIFY
    ensures r == TsiRequestClientCertificateAndVerify <==>
              grpcRequestType == GRPC_SSL_REQUEST_CLIENT_CERTIFICATE_AND_VERIFY
    ensures r == TsiRequestAndRequireClientCertificateButDontVerify <==>
              grpcRequestType == GRPC_SSL_REQUEST_AND_REQUIRE_CLIENT_CERTIFICATE_BUT_DONT_VERIFY
    ensures r == TsiRequestAndRequireClientCertificateAndVerify <==>
              grpcRequestType == GRPC_SSL_REQUEST_AND_REQUIRE_CLIENT_CERTIFICATE_AND_VERIFY
  {
    if grpcRequestType == GRPC_SSL_DONT_REQUEST_CLIENT_CERTIFICATE then TsiDontRequestClientCertificate
    else if grpcRequestType == GRPC_SSL_REQUEST_CLIENT_CERTIFICATE_BUT_DONT_VERIFY then TsiRequestClientCertificateButDontVerify
    else if grpcRequestType == GRPC_SSL_REQUEST_CLIENT_CERTIFICATE_AND_VERIFY then TsiRequestClientCertificateAndVerify
    else if grpcRequestType == GRPC_SSL_REQUEST_AND_REQUIRE_CLIENT_CERTIFICATE_BUT_DONT_VERIFY then TsiRequestAndRequireClientCertificateButDontVerify
    else if grpcRequestType == GRPC_SSL_REQUEST_AND_REQUIRE_CLIENT_CERTIFICATE_AND_VERIFY then TsiRequestAndRequireClientCertificateAndVerify
    else TsiDontRequestClientCertificate
  }

  /** Every TSI policy is reached from its same-named gRPC enumerator. */
  lemma RequestTypeRoundTrip(t: TsiClientCertificateRequestType)
    ensures GetTsiClientCertificateRequestType(GrpcRequestTypeOf(t)) == t
  {
  }

  /** Two gRPC enumerators that map to the same requesting policy are the same enumerator. */
  lemma RequestTypeInjectiveOffDefault(x: int, y: int)
    requires GetTsiClientCertificateRequestType(x) == GetTsiClientCertificateRequestType(y)
    requires GetTsiClientCertificateRequestType(x) != TsiDontRequestClientCertificate
    ensures x == y
  {
  }
}
