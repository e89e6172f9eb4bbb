/**
 * `GameRegistryClient`: the fluent client of a game registry server. It holds the server's
 * address and port, the base path of the REST API and the user/token pair every request must
 * carry, and builds one HTTP request per operation. Sending the request, resolving names and
 * receiving the answer belong to the transport, whose outcomes arrive here as inputs.
 */
module RegistryClient {
  import opened Wrappers
  import opened JavaText
  import opened Json
  import opened Throwables
  import opened Http
  import Uuid
  import SecondsDate
  import SharedSession
  import RegistryResponse

  const DefaultPort: int := 8080
  const DefaultBasePath: string := "/api/v1"
  const ContentType: string := "Content-Type"
  const JsonMediaType: string := "application/json"
  const CredentialsMessage: string := "At least one of the parameters is null or empty."

  /** The four HTTP methods a request may use. */
  predicate AllowedMethod(verb: string) {
    verb == "GET" || verb == "POST" || verb == "PUT" || verb == "DELETE"
  }

  /** A user and a token that are both non-null and non-empty. */
  predicate HasCredentials(user: Option<string>, token: Option<string>) {
    user.Some? && token.Some? && user.value != "" && token.value != ""
  }

  /** The text before the first `:` and the port after it; 8080 when there is no `:`. */
  function SplitAddress(address: string): (r: Result<(string, int), Throwable>)
    ensures ':' !in address ==> r == Success((address, DefaultPort))
    ensures ':' in address ==> var i := IndexOf(address, ':');
      (r.Failure? <==> ParseInt(address[i + 1..]).None?)
      && (r.Failure? ==> r.error == NumberFormatException(address[i + 1..]))
    ensures r.Success? && ':' in address ==>
      var host := r.value.0;
      && |host| < |address| && address[..|host|] == host && address[|host|] == ':' && ':' !in host
      && ParseInt(address[|host| + 1..]) == Some(r.value.1)
    ensures r.Success? ==> IsInt(r.value.1)
  {
    var i := IndexOf(address, ':');
    if i == -1 then Success((address, DefaultPort))
    else
      match ParseInt(address[i + 1..])
      case None => Failure(NumberFormatException(address[i + 1..]))
      case Some(port) => Success((address[..i], port))
  }

  /** What the asynchronous DNS lookup hands back: a succeeded result (maybe null) or a failure. */
  datatype DnsOutcome = Resolved(address: Option<InetAddress>) | LookupFailed(cause: Throwable)

  /** The decision the lookup callback takes: the address found, or the exception to fail with. */
  function LookupDecision(address: string, outcome: DnsOutcome): (r: Result<InetAddress, Throwable>)
    ensures r.Success? <==> outcome.Resolved? && outcome.address.Some?
    ensures r.Success? ==> r.value == outcome.address.value
    ensures outcome == Resolved(None) ==>
      r == Failure(UnknownHostException("Couldn't resolve address (result is null): " + address))
    ensures outcome == LookupFailed(DnsException(NxDomain)) ==>
      r == Failure(UnknownHostException("Couldn't resolve address (NXDOMAIN error):" + address))
    ensures outcome.LookupFailed? && outcome.cause != DnsException(NxDomain) ==> r == Failure(outcome.cause)
  {
    match outcome
    case Resolved(Some(a)) => Success(a)
    case Resolved(None) => Failure(UnknownHostException("Couldn't resolve address (result is null): " + address))
    case LookupFailed(cause) =>
      if cause == DnsException(NxDomain) then
        Failure(UnknownHostException("Couldn't resolve address (NXDOMAIN error):" + address))
      else Failure(cause)
  }

  /** A failed lookup never reaches the caller as a DNS failure with code NXDOMAIN. */
  lemma NxDomainBecomesUnknownHost(address: string, outcome: DnsOutcome)
    ensures LookupDecision(address, outcome) != Failure(DnsException(NxDomain))
  {
  }

  /** `setBasePath`, as written: the prefix is cut from the OLD base path, to the NEW argument's length less one. */
  function BasePathAsWritten(current: string, basePath: string): (r: Result<string, Throwable>)
    ensures |basePath| == 0 ==> r == Failure(StringIndexOutOfBoundsException(-1))
    ensures |basePath| > 0 && basePath[|basePath| - 1] != '/' ==> r == Success(basePath)
    ensures |basePath| > 0 && basePath[|basePath| - 1] == '/' ==>
      r == if |basePath| - 1 <= |current| then Success(current[..|basePath| - 1])
           else Failure(StringIndexOutOfBoundsException(|basePath| - 1))
  {
    if |basePath| == 0 then Failure(StringIndexOutOfBoundsException(-1))
    else if basePath[|basePath| - 1] == '/' then
      if |basePath| - 1 <= |current| then Success(current[..|basePath| - 1])
      else Failure(StringIndexOutOfBoundsException(|basePath| - 1))
    else Success(basePath)
  }

  /** `setBasePath` as evidently intended: the argument, without its trailing `/`. */
  function IntendedBasePath(basePath: string): (r: Result<string, Throwable>)
    ensures |basePath| == 0 <==> r.Failure?
  {
    if |basePath| == 0 then Failure(StringIndexOutOfBoundsException(-1))
    else if basePath[|basePath| - 1] == '/' then Success(basePath[..|basePath| - 1])
    else Success(basePath)
  }

  /** As intended, the stored path is the argument, or the argument less one trailing `/`; the old path plays no part. */
  lemma IntendedBasePathStripsSlash(basePath: string)
    requires |basePath| > 0
    ensures var p := IntendedBasePath(basePath).value;
      if basePath[|basePath| - 1] == '/' then p + "/" == basePath else p == basePath
  {
  }

  /**
   * As written and as intended agree exactly when the argument does not end in `/`, or when the
   * old base path already starts with the argument less its `/` (as when `/v1/` follows `/v1`).
   */
  lemma BasePathAgreement(current: string, basePath: string)
    ensures BasePathAsWritten(current, basePath) == IntendedBasePath(basePath) <==>
      |basePath| == 0 || basePath[|basePath| - 1] != '/' ||
      (|basePath| - 1 <= |current| && current[..|basePath| - 1] == basePath[..|basePath| - 1])
  {
  }

  /** With the default base path, `setBasePath("/v2/")` stores `/ap`, not `/v2`. */
  lemma BasePathUsesOldValue()
    ensures BasePathAsWritten(DefaultBasePath, "/v2/") == Success("/ap")
    ensures IntendedBasePath("/v2/") == Success("/v2")
  {
    assert DefaultBasePath[..3] == "/ap";
    assert "/v2/"[..3] == "/v2";
  }

  /** The two string renderings of an id in a path: `toString()`, and concatenation that prints `null`. */
  function IdText(id: Option<Uuid.Uuid>): string {
    match id
    case None => "null"
    case Some(u) => u
  }

  /** The response the exception handler hands on for any transport exception. */
  function ExceptionResponse(t: Throwable): (r: RegistryResponse.Response)
    ensures r.responseType == RegistryResponse.Unknown
    ensures r.sessions.None? && r.innerHttpResponse.None? && r.innerException.None?
  {
    RegistryResponse.Default
  }

  /** How `createFromAddress` ends: a result handed to the handler, or an exception thrown in the callback. */
  datatype Delivery = Delivered(result: Result<GameRegistryClient, Throwable>) | Escaped(thrown: Throwable)

  class GameRegistryClient {
    var host: InetAddress
    var port: int
    var basepath: string
    var user: Option<string>
    var token: Option<string>

    /** `initialize` after the port check has passed. */
    constructor (host: InetAddress, port: int)
      requires ValidPort(port)
      ensures this.host == host && this.port == port
      ensures basepath == DefaultBasePath && user == Some("") && token == Some("")
    {
      this.host := host;
      this.port := port;
      basepath := DefaultBasePath;
      user := Some("");
      token := Some("");
    }

    /** `new GameRegistryClient(host, port, vertx)`: an InvalidAddressException for a port outside 0..65535. */
    static method Create(host: InetAddress, port: int) returns (r: Result<GameRegistryClient, Throwable>)
      ensures !ValidPort(port) ==> r == Failure(InvalidPort(port))
      ensures ValidPort(port) ==> r.Success? && fresh(r.value) && r.value.host == host && r.value.port == port
      ensures ValidPort(port) ==> r.value.basepath == DefaultBasePath && r.value.user == Some("") && r.value.token == Some("")
    {
      if port < MinPort || port > MaxPort {
        return Failure(InvalidPort(port));
      }
      var c := new GameRegistryClient(host, port);
      r := Success(c);
    }

    /** `new GameRegistryClient(host, vertx)`: the default port, which always passes the check. */
    static method CreateWithDefaultPort(host: InetAddress) returns (c: GameRegistryClient)
      ensures fresh(c) && c.host == host && c.port == DefaultPort
      ensures c.basepath == DefaultBasePath && c.user == Some("") && c.token == Some("")
    {
      c := new GameRegistryClient(host, DefaultPort);
    }

    /**
     * `createFromAddress(address, vertx, handler)`: split the address, look the host name up,
     * and hand the handler a client or the reason there is none. A port that is not a number
     * fails before any lookup; a port out of range throws inside the lookup callback instead.
     */
    static method CreateFromAddress(address: string, lookup: string -> DnsOutcome) returns (d: Delivery)
      ensures SplitAddress(address).Failure? ==> d == Delivered(Failure(SplitAddress(address).error))
      ensures SplitAddress(address).Success? ==>
        var (hostname, port) := SplitAddress(address).value;
        var decision := LookupDecision(address, lookup(hostname));
        && (decision.Failure? ==> d == Delivered(Failure(decision.error)))
        && (decision.Success? && !ValidPort(port) ==> d == Escaped(InvalidPort(port)))
        && (decision.Success? && ValidPort(port) ==>
              d.Delivered? && d.result.Success? && fresh(d.result.value)
              && d.result.value.host == decision.value && d.result.value.port == port
              && d.result.value.basepath == DefaultBasePath)
    {
      var split := SplitAddress(address);
      if split.Failure? {
        return Delivered(Failure(split.error));
      }
      var (hostname, port) := split.value;
      var decision := LookupDecision(address, lookup(hostname));
      if decision.Failure? {
        return Delivered(Failure(decision.error));
      }
      var created := Create(decision.value, port);
      if created.Failure? {
        return Escaped(created.error);
      }
      d := Delivered(Success(created.value));
    }

    function GetUser(): Option<string>
      reads this
    {
      user
    }

    function GetToken(): Option<string>
      reads this
    {
      token
    }

    function GetBasePath(): string
      reads this
    {
      basepath
    }

    function GetPort(): int
      reads this
    {
      port
    }

    /** `setUser`: stores the argument as it is and returns this client. */
    method SetUser(user: Option<string>) returns (self: GameRegistryClient)
      modifies this
      ensures self == this && GetUser() == user
      ensures token == old(token) && basepath == old(basepath) && port == old(port) && host == old(host)
    {
      this.user := user;
      self := this;
    }

    /** `setToken`: stores the argument as it is and returns this client. */
    method SetToken(token: Option<string>) returns (self: GameRegistryClient)
      modifies this
      ensures self == this && GetToken() == token
      ensures user == old(user) && basepath == old(basepath) && port == old(port) && host == old(host)
    {
      this.token := token;
      self := this;
    }

    /** `setBasePath`, as written; the exception leaves the base path as it was. */
    method SetBasePath(basePath: string) returns (r: Result<GameRegistryClient, Throwable>)
      modifies this
      ensures BasePathAsWritten(old(basepath), basePath).Failure? ==>
        r == Failure(BasePathAsWritten(old(basepath), basePath).error) && basepath == old(basepath)
      ensures BasePathAsWritten(old(basepath), basePath).Success? ==>
        r == Success(this) && GetBasePath() == BasePathAsWritten(old(basepath), basePath).value
      ensures user == old(user) && token == old(token) && port == old(port) && host == old(host)
    {
      if |basePath| == 0 {
        return Failure(StringIndexOutOfBoundsException(-1));
      }
      if basePath[|basePath| - 1] == '/' {
        if |basePath| - 1 > |basepath| {
          return Failure(StringIndexOutOfBoundsException(|basePath| - 1));
        }
        basepath := basepath[..|basePath| - 1];
      } else {
        basepath := basePath;
      }
      r := Success(this);
    }

    /**
     * `createHttpRequest(path, method, handler)`: refuses a method outside GET, POST, PUT and
     * DELETE, then refuses missing credentials; otherwise the request carries exactly the two
     * credential headers.
     */
    method CreateHttpRequest(path: string, verb: string) returns (r: Result<Request, Throwable>)
      ensures !AllowedMethod(verb) ==> r == Failure(IllegalArgumentException("Unsuported method: " + verb))
      ensures AllowedMethod(verb) && !HasCredentials(user, token) ==> r == Failure(IllegalArgumentException(CredentialsMessage))
      ensures r.Success? <==> AllowedMethod(verb) && HasCredentials(user, token)
      ensures r.Success? ==> r.value == Request(verb, path, CredentialHeaders(user.value, token.value), None)
    {
      if !(verb == "GET" || verb == "POST" || verb == "PUT" || verb == "DELETE") {
        return Failure(IllegalArgumentException("Unsuported method: " + verb));
      }
      var req := Request(verb, path, map[], None);
      r := AddUserTokenToRequest(user, token, req);
    }

    /** `addUserTokenToRequest`: both credentials non-null and non-empty, or an IllegalArgumentException. */
    static method AddUserTokenToRequest(user: Option<string>, token: Option<string>, request: Request) returns (r: Result<Request, Throwable>)
      ensures !HasCredentials(user, token) ==> r == Failure(IllegalArgumentException(CredentialsMessage))
      ensures HasCredentials(user, token) ==> r.Success?
      ensures r.Success? ==> r.value.headers == request.headers[UserHeader := user.value][TokenHeader := token.value]
      ensures r.Success? ==> r.value.verb == request.verb && r.value.path == request.path && r.value.body == request.body
    {
      if user.None? || token.None? || user.value == "" || token.value == "" {
        return Failure(IllegalArgumentException(CredentialsMessage));
      }
      r := Success(request.PutHeader(UserHeader, user.value).PutHeader(TokenHeader, token.value));
    }

    /** `getSessions`: GET of the session collection (the filter parameters are ignored). */
    method GetSessions() returns (r: Result<Request, Throwable>)
      ensures r.Success? <==> HasCredentials(user, token)
      ensures r.Failure? ==> r.error == IllegalArgumentException(CredentialsMessage)
      ensures r.Success? ==> r.value == Request("GET", basepath + "/sessions", CredentialHeaders(user.value, token.value), None)
    {
      var url := basepath + "/sessions";
      r := CreateHttpRequest(url, "GET");
    }

    /**
     * `addSession`: POST to the session collection of the session's map without its `id`, as
     * JSON; a null session throws once the request exists.
     */
    method AddSession(zone: SecondsDate.Zone, session: SharedSession.GameSession?) returns (r: Result<Request, Throwable>)
      ensures !HasCredentials(user, token) ==> r == Failure(IllegalArgumentException(CredentialsMessage))
      ensures HasCredentials(user, token) && session == null ==> r == Failure(NullPointerException)
      ensures r.Success? <==> HasCredentials(user, token) && session != null
      ensures r.Success? ==> r.value == Request("POST", basepath + "/sessions",
        CredentialHeaders(user.value, token.value)[ContentType := JsonMediaType],
        Some(SharedSession.Encode(zone, session.Value()) - {"id"}))
      ensures r.Success? ==> r.value.body.value.Keys == SharedSession.Keys - {"id"}
    {
      var url := basepath + "/sessions";
      var req := CreateHttpRequest(url, "POST");
      if req.Failure? {
        return req;
      }
      var request := req.value.PutHeader(ContentType, JsonMediaType);
      if session == null {
        return Failure(NullPointerException);
      }
      var json := session.ToJsonMap(zone);
      json := json - {"id"};
      r := Success(request.(body := Some(json)));
    }

    /** `getSession(id)`: GET of one session; a null id throws before anything else. */
    method GetSession(id: Option<Uuid.Uuid>) returns (r: Result<Request, Throwable>)
      ensures id.None? ==> r == Failure(NullPointerException)
      ensures id.Some? && !HasCredentials(user, token) ==> r == Failure(IllegalArgumentException(CredentialsMessage))
      ensures r.Success? <==> id.Some? && HasCredentials(user, token)
      ensures r.Success? ==> r.value == Request("GET", basepath + "/sessions/" + id.value, CredentialHeaders(user.value, token.value), None)
    {
      if id.None? {
        return Failure(NullPointerException);
      }
      var url := basepath + "/sessions/" + id.value;
      r := CreateHttpRequest(url, "GET");
    }

    /**
     * `updateSession`: PUT of the session's whole map, `id` included, to the path of its id
     * (`null` for a null id); a null session throws before anything else.
     */
    method UpdateSession(zone: SecondsDate.Zone, session: SharedSession.GameSession?) returns (r: Result<Request, Throwable>)
      ensures session == null ==> r == Failure(NullPointerException)
      ensures session != null && !HasCredentials(user, token) ==> r == Failure(IllegalArgumentException(CredentialsMessage))
      ensures r.Success? <==> session != null && HasCredentials(user, token)
      ensures r.Success? ==> r.value == Request("PUT", basepath + "/sessions/" + IdText(session.id),
        CredentialHeaders(user.value, token.value)[ContentType := JsonMediaType],
        Some(SharedSession.Encode(zone, session.Value())))
      ensures r.Success? ==> r.value.body.value.Keys == SharedSession.Keys
    {
      if session == null {
        return Failure(NullPointerException);
      }
      var url := basepath + "/sessions/" + IdText(session.id);
      var req := CreateHttpRequest(url, "PUT");
      if req.Failure? {
        return req;
      }
      var request := req.value.PutHeader(ContentType, JsonMediaType);
      var json := session.ToJsonMap(zone);
      r := Success(request.(body := Some(json)));
    }

    /** `deleteSession(id)`: DELETE of one session; a null id goes into the path as `null`. */
    method DeleteSession(id: Option<Uuid.Uuid>) returns (r: Result<Request, Throwable>)
      ensures r.Success? <==> HasCredentials(user, token)
      ensures r.Failure? ==> r.error == IllegalArgumentException(CredentialsMessage)
      ensures r.Success? ==> r.value == Request("DELETE", basepath + "/sessions/" + IdText(id), CredentialHeaders(user.value, token.value), None)
    {
      var url := basepath + "/sessions/" + IdText(id);
      r := CreateHttpRequest(url, "DELETE");
    }

    /** The response handler: the body, once received, is classified and handed on. */
    static method HandleHttpResponse(response: HttpResponse, body: Body) returns (r: RegistryResponse.GameRegistryResponse)
      ensures fresh(r) && r.Value() == RegistryResponse.Classify(response, body)
    {
      r := RegistryResponse.GameRegistryResponse.FromHttpResponse(response, body);
    }

    /** The exception handler: whatever the exception, a default response is handed on. */
    static method HandleException(t: Throwable) returns (r: RegistryResponse.GameRegistryResponse)
      ensures fresh(r) && r.Value() == ExceptionResponse(t)
    {
      r := new RegistryResponse.GameRegistryResponse();
    }
  }
}
