/**
 * The request filter that authenticates every call to the Abiquo API, either
 * with HTTP Basic credentials (section 2 of RFC 2617) or with the token cookie
 * of an earlier session.
 */
module Authentication {
  import opened Results
  import opened Encoding
  import opened Text

  /** `HttpHeaders.AUTHORIZATION` and `HttpHeaders.COOKIE`. */
  const AuthorizationHeader: string := "Authorization"
  const CookieHeader: string := "Cookie"

  const BasicPrefix: string := "Basic "
  const TokenPrefix: string := "auth="

  /** The parts of an HTTP request the filter may touch; headers may carry several values. */
  datatype HttpRequest = HttpRequest(
    verb: string,
    endpoint: string,
    headers: map<string, seq<string>>,
    payload: Option<string>)

  /** `ModifyRequest.replaceHeader`: every value of the header gives way to the one value given. */
  function ReplaceHeader(request: HttpRequest, name: string, value: string): HttpRequest
  {
    request.(headers := request.headers[name := [value]])
  }

  /** What a server reads from a Basic header: the decoded `user:password`, if the header is well formed. */
  function BasicCredentials(header: string): Option<string>
  {
    if |header| < |BasicPrefix| || header[..|BasicPrefix|] != BasicPrefix then None
    else
      match Base64Decode(header[|BasicPrefix|..])
      case None => None
      case Some(bytes) => Utf8Decode(bytes)
  }

  /**
   * `basicAuth(user, password)`: "Basic " followed by the Base64 of the UTF-8
   * bytes of `user:password`; a null user or password is rejected, user first.
   */
  function BasicAuth(user: Option<string>, password: Option<string>): (r: Result<string>)
    ensures user.None? ==> r == Failure(NullPointer("user"))
    ensures user.Some? && password.None? ==> r == Failure(NullPointer("password"))
    ensures user.Some? && password.Some? ==>
      r == Success(BasicPrefix + Base64Encode(Utf8Encode(user.value + ":" + password.value)))
    ensures user.Some? && password.Some? ==>
      r.Success? && |BasicPrefix| <= |r.value| && r.value[..|BasicPrefix|] == BasicPrefix
      && BasicCredentials(r.value) == Some(user.value + ":" + password.value)
  {
    if user.None? then Failure(NullPointer("user"))
    else if password.None? then Failure(NullPointer("password"))
    else
      var text := user.value + ":" + password.value;
      var bytes := Utf8Encode(text);
      Utf8RoundTrip(text);
      Base64RoundTrip(bytes);
      assert (BasicPrefix + Base64Encode(bytes))[|BasicPrefix|..] == Base64Encode(bytes);
      Success(BasicPrefix + Base64Encode(bytes))
  }

  /** `tokenAuth(token)`: "auth=" followed by the token; a null token is rejected. */
  function TokenAuth(token: Option<string>): (r: Result<string>)
    ensures token.None? <==> r.Failure?
    ensures r.Failure? ==> r.error == NullPointer("token")
    ensures r.Success? ==>
      |r.value| == |TokenPrefix| + |token.value|
      && r.value[..|TokenPrefix|] == TokenPrefix && r.value[|TokenPrefix|..] == token.value
  {
    if token.None? then Failure(NullPointer("token"))
    else Success(TokenPrefix + token.value)
  }

  /**
   * A server recovers the user and the password from a Basic header by
   * splitting the decoded credentials at the first colon; this gives back
   * both exactly when the user name has no colon, which section 2 of
   * RFC 2617 forbids anyway.
   */
  lemma BasicAuthRecoversCredentials(user: string, password: string)
    requires ':' !in user
    ensures BasicAuth(Some(user), Some(password)).Success?
    ensures var credentials := BasicCredentials(BasicAuth(Some(user), Some(password)).value);
      credentials.Some? && SplitAt(credentials.value, ':') == Some((user, password))
  {
    SplitAtFirst(user, ':', password);
    assert user + ":" + password == user + [':'] + password;
  }

  /** The filter, with the mode and header chosen once at construction. */
  class AbiquoAuthentication {
    const isBasicAuth: bool
    const header: string

    constructor (isBasicAuth: bool, header: string)
      ensures this.isBasicAuth == isBasicAuth && this.header == header
    {
      this.isBasicAuth := isBasicAuth;
      this.header := header;
    }

    /**
     * The Java constructor: Basic mode exactly when a credential is given, and
     * the header precomputed for that mode; a null identity or token is rejected.
     */
    static method Create(identityOrToken: Option<string>, credential: Option<string>)
      returns (r: Result<AbiquoAuthentication>)
      ensures r.Failure? <==> identityOrToken.None?
      ensures r.Failure? ==> r.error == if credential.Some? then NullPointer("user") else NullPointer("token")
      ensures r.Success? ==> r.value.isBasicAuth == credential.Some?
      ensures r.Success? && credential.Some? ==>
        r.value.header == BasicAuth(identityOrToken, credential).value
        && BasicCredentials(r.value.header) == Some(identityOrToken.value + ":" + credential.value)
      ensures r.Success? && credential.None? ==>
        r.value.header == TokenAuth(identityOrToken).value
    {
      var isBasicAuth := credential.Some?;
      var header := if isBasicAuth then BasicAuth(identityOrToken, credential) else TokenAuth(identityOrToken);
      if header.Failure? {
        return Failure(header.error);
      }
      var filter := new AbiquoAuthentication(isBasicAuth, header.value);
      return Success(filter);
    }

    /** The header the filter writes: Authorization in Basic mode, Cookie in token mode. */
    function HeaderName(): string
    {
      if isBasicAuth then AuthorizationHeader else CookieHeader
    }

    /**
     * `filter(request)`: the request with its authentication header replaced
     * by the precomputed value; nothing else changes.
     */
    function Filter(request: HttpRequest): (r: HttpRequest)
      ensures isBasicAuth ==> AuthorizationHeader in r.headers && r.headers[AuthorizationHeader] == [header]
      ensures !isBasicAuth ==> CookieHeader in r.headers && r.headers[CookieHeader] == [header]
      ensures r.headers.Keys == request.headers.Keys + {HeaderName()}
      ensures forall h :: h in request.headers && h != HeaderName() ==> r.headers[h] == request.headers[h]
      ensures r.verb == request.verb && r.endpoint == request.endpoint && r.payload == request.payload
    {
      ReplaceHeader(request, HeaderName(), header)
    }

    /** Replacing rather than appending makes the filter idempotent. */
    lemma FilterIdempotent(request: HttpRequest)
      ensures Filter(Filter(request)) == Filter(request)
    {
      var once := Filter(request);
      assert once.headers[HeaderName() := [header]] == once.headers;
    }
  }
}
