/**
  OAuthKey: the bearer-token credential. `Value` is the immutable string the
  key was constructed with.
 */
module OAuth {
  import opened Wrappers
  import opened Exceptions

  datatype OAuthKey = OAuthKey(value: string)

  /** KeyValuePair<String, String> of an HTTP header. */
  datatype Header = Header(name: string, value: string)

  /** JsonAuthRequest.JsonData, the streaming handshake payload. */
  datatype AuthData = AuthData(keyId: Option<string>, secretKey: Option<string>, oauthToken: Option<string>)

  /** JsonAuthentication, the key-pair authentication message; an OAuth key never builds one. */
  datatype JsonAuthentication = JsonAuthentication(data: AuthData)

  const AuthorizationHeader := "Authorization"
  const BearerPrefix := "Bearer "

  /** `GetAuthenticationHeaders()`: exactly one `Authorization: Bearer <Value>` header. */
  function GetAuthenticationHeaders(key: OAuthKey): (r: seq<Header>)
    ensures |r| == 1
    ensures r[0].name == "Authorization"
    ensures |r[0].value| == 7 + |key.value|
    ensures r[0].value[..7] == "Bearer " && r[0].value[7..] == key.value
  {
    [Header(AuthorizationHeader, BearerPrefix + key.value)]
  }

  /** Reads a bearer token back from a header list: the single Authorization header, minus its prefix. */
  function BearerToken(headers: seq<Header>): (r: Option<string>)
    ensures r.Some? ==> |headers| == 1 && headers[0].name == AuthorizationHeader
  {
    if |headers| == 1 && headers[0].name == AuthorizationHeader
       && |BearerPrefix| <= |headers[0].value| && headers[0].value[..|BearerPrefix|] == BearerPrefix
    then Some(headers[0].value[|BearerPrefix|..])
    else None
  }

  /** The header carries the key: reading it back gives `Value`, so distinct keys give distinct headers. */
  lemma HeadersRoundTrip(key: OAuthKey, other: OAuthKey)
    ensures BearerToken(GetAuthenticationHeaders(key)) == Some(key.value)
    ensures GetAuthenticationHeaders(key) == GetAuthenticationHeaders(other) <==> key == other
  {
    if GetAuthenticationHeaders(key) == GetAuthenticationHeaders(other) {
      assert BearerToken(GetAuthenticationHeaders(other)) == Some(other.value);
    }
  }

  /** `GetAuthenticationData()`: a payload whose only member set is OAuthToken = Value. */
  function GetAuthenticationData(key: OAuthKey): (r: AuthData)
    ensures r.oauthToken == Some(key.value)
    ensures r.keyId == None && r.secretKey == None
  {
    AuthData(None, None, Some(key.value))
  }

  /** The payload determines the key. */
  lemma AuthenticationDataInjective(key: OAuthKey, other: OAuthKey)
    ensures GetAuthenticationData(key) == GetAuthenticationData(other) <==> key == other
  {
  }

  /** `GetAuthentication()`: always throws InvalidOperationException, whatever the key. */
  function GetAuthentication(key: OAuthKey): (r: Result<JsonAuthentication, Exception>)
    ensures r.Failure? && r.error == InvalidOperation
  {
    Failure(InvalidOperation)
  }
}
