/**
 * The values the clients exchange with the HTTP layer: the request they build, the response
 * status they read, and the body once it has been read and parsed. The transport is outside
 * the model: responses, bodies and resolved addresses arrive as inputs.
 */
module Http {
  import opened Wrappers
  import JavaText
  import opened Json
  import opened Throwables

  /** `GameRegistryConstants.GAMEREGISTRY_USER_HEADER`. */
  const UserHeader: string := "gameregistry-user"

  /** `GameRegistryConstants.GAMEREGISTRY_TOKEN_HEADER`. */
  const TokenHeader: string := "gameregistry-token"

  const MinPort: int := 0
  const MaxPort: int := 65535

  predicate ValidPort(port: int) { MinPort <= port <= MaxPort }

  /** The InvalidAddressException both clients throw for a port outside 0..65535. */
  function InvalidPort(port: int): Throwable {
    InvalidAddressException("Invalid port: " + JavaText.IntToText(port))
  }

  /** The two headers that carry the credentials. */
  function CredentialHeaders(user: string, token: string): (h: map<string, string>)
    ensures h.Keys == {UserHeader, TokenHeader} && h[UserHeader] == user && h[TokenHeader] == token
  {
    map[UserHeader := user, TokenHeader := token]
  }

  /** A resolved `InetAddress`, known only by the text its `toString` prints. */
  datatype InetAddress = InetAddress(text: string)

  /** What the clients read of an `HttpClientResponse`. */
  datatype HttpResponse = HttpResponse(statusCode: int, statusMessage: string)

  /** A response body: empty, or text that either failed to parse as JSON or parsed to a value. */
  datatype Body = EmptyBody | Unparseable(cause: Throwable) | Parsed(value: Json)

  /** An HTTP request as it is handed to the transport; `verb` is the HTTP method. */
  datatype Request = Request(verb: string, path: string, headers: map<string, string>, body: Option<JsonMap>) {
    /** `putHeader` / `headers().set`: the header gets this one value. */
    function PutHeader(name: string, value: string): (r: Request)
      ensures r.headers == headers[name := value]
      ensures r.verb == verb && r.path == path && r.body == body
    {
      this.(headers := headers[name := value])
    }
  }
}
