/** Builders for the OAuth 2.0 endpoints (src/Api/OAuth.php). */
module OAuth {
  import opened Php
  import opened Http

  // The messages of the \InvalidArgumentException the endpoints raise.
  const ClientIdClientSecretCodeRequired := "Parameters 'client_id', 'client_secret', and 'code' are required."

  /** oauth2_token: exchanges an authorization code for an access token. */
  function Token(clientId: string, clientSecret: string, code: string): (r: Result<Request>)
    ensures r.Failure? <==> EmptyStr(clientId) || EmptyStr(clientSecret) || EmptyStr(code)
    ensures r.Failure? ==> r.error == InvalidArgument(ClientIdClientSecretCodeRequired)
    ensures r.Success? ==> r.value == JsonGet("oauth2_token", [(Name("client_id"), S(clientId)), (Name("client_secret"), S(clientSecret)), (Name("code"), S(code))])
  {
    if EmptyStr(clientId) || EmptyStr(clientSecret) || EmptyStr(code) then Failure(InvalidArgument(ClientIdClientSecretCodeRequired))
    else Success(JsonGet("oauth2_token", [(Name("client_id"), S(clientId)), (Name("client_secret"), S(clientSecret)), (Name("code"), S(code))]))
  }
}
