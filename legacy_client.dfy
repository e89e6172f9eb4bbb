/**
 * `Client`: the first client of the game registry, kept beside `GameRegistryClient`. It is
 * built from a resolved address and a port, or from `host[:port]` text that it resolves
 * itself, and sends two sketched requests whose credentials it attaches only when both are set.
 */
module LegacyClient {
  import opened Wrappers
  import opened JavaText
  import opened Throwables
  import opened Http

  const DefaultPort: int := 8080
  const InvalidPortNumber: string := "Invalid port number."

  /** The host text the address constructor resolves, as written: the text before the colon, less its last character. */
  function HostTextAsWritten(address: string): (r: Result<string, Throwable>)
    requires ':' in address
    ensures IndexOf(address, ':') == 0 ==> r == Failure(StringIndexOutOfBoundsException(-1))
    ensures IndexOf(address, ':') > 0 ==> r == Success(address[..IndexOf(address, ':') - 1])
  {
    var i := IndexOf(address, ':');
    if i - 1 < 0 then Failure(StringIndexOutOfBoundsException(i - 1)) else Success(address[..i - 1])
  }

  /** The host text as evidently intended: everything before the first colon. */
  function IntendedHostText(address: string): (r: string)
    requires ':' in address
    ensures |r| < |address| && address[..|r|] == r && address[|r|] == ':' && ':' !in r
  {
    address[..IndexOf(address, ':')]
  }

  /**
   * As written, `host:port` with a colon-free, non-empty host resolves the host less its last
   * character (`localhost:8080` resolves `localhos`), where the whole host was meant.
   */
  lemma HostTextDropsLastCharacter(host: string, port: string)
    requires host != [] && ':' !in host
    ensures HostTextAsWritten(host + ":" + port) == Success(host[..|host| - 1])
    ensures IntendedHostText(host + ":" + port) == host
  {
    var address := host + ":" + port;
    assert address[..|host|] == host;
    IndexOfAt(address, ':', |host|);
    assert address[..|host| - 1] == host[..|host| - 1];
  }

  /** As written, an address that starts with its colon cannot be taken apart at all. */
  lemma LeadingColonIsRejected(port: string)
    ensures HostTextAsWritten(":" + port) == Failure(StringIndexOutOfBoundsException(-1))
  {
    IndexOfAt(":" + port, ':', 0);
  }

  /** As written, the host text is always the intended one cut short by exactly one character. */
  lemma HostTextIsOneShort(address: string)
    requires ':' in address && HostTextAsWritten(address).Success?
    ensures HostTextAsWritten(address).value + [address[|HostTextAsWritten(address).value|]] == IntendedHostText(address)
  {
    var i := IndexOf(address, ':');
    assert address[..i] == address[..i - 1] + [address[i - 1]];
  }

  /**
   * The address constructor up to the port check: for `host:port` the port is parsed first
   * (text that is no `int` becomes a URISyntaxException) and only then is the host resolved;
   * `resolve` stands for the synchronous `InetAddress.getByName`.
   */
  function ParseAddress(address: string, resolve: string -> Result<InetAddress, Throwable>): (r: Result<(InetAddress, int), Throwable>)
    ensures ':' !in address ==> r == (var ip :- resolve(address); Success((ip, DefaultPort)))
    ensures ':' in address && ParseInt(address[IndexOf(address, ':') + 1..]).None? ==>
      r == Failure(URISyntaxException(address, InvalidPortNumber))
    ensures ':' in address && ParseInt(address[IndexOf(address, ':') + 1..]).Some? ==>
      r == (var host :- HostTextAsWritten(address); var ip :- resolve(host);
            Success((ip, ParseInt(address[IndexOf(address, ':') + 1..]).value)))
  {
    var i := IndexOf(address, ':');
    if i == -1 then
      var ip :- resolve(address);
      Success((ip, DefaultPort))
    else
      match ParseInt(address[i + 1..])
      case None => Failure(URISyntaxException(address, InvalidPortNumber))
      case Some(port) =>
        var host :- HostTextAsWritten(address);
        var ip :- resolve(host);
        Success((ip, port))
  }

  /**
   * `host:port` with a colon-free, non-empty host and an `int` port: the host less its last
   * character is resolved, and the port is the parsed one.
   */
  lemma ParseAddressWithPort(host: string, port: string, resolve: string -> Result<InetAddress, Throwable>)
    requires host != [] && ':' !in host && ParseInt(port).Some?
    ensures ParseAddress(host + ":" + port, resolve) ==
      (var ip :- resolve(host[..|host| - 1]); Success((ip, ParseInt(port).value)))
  {
    var address := host + ":" + port;
    assert address[..|host|] == host;
    IndexOfAt(address, ':', |host|);
    assert address[|host| + 1..] == port;
    HostTextDropsLastCharacter(host, port);
  }

  /** An address that starts with its colon and has an `int` port throws before anything is resolved. */
  lemma ParseAddressLeadingColon(port: string, resolve: string -> Result<InetAddress, Throwable>)
    requires ParseInt(port).Some?
    ensures ParseAddress(":" + port, resolve) == Failure(StringIndexOutOfBoundsException(-1))
  {
    IndexOfAt(":" + port, ':', 0);
    assert (":" + port)[1..] == port;
    LeadingColonIsRejected(port);
  }

  /**
   * A port that is no `int` gives the URISyntaxException, whatever comes before the colon
   * (even nothing) and without resolving anything.
   */
  lemma ParseAddressBadPort(host: string, port: string, resolve: string -> Result<InetAddress, Throwable>)
    requires ':' !in host && ParseInt(port).None?
    ensures ParseAddress(host + ":" + port, resolve) == Failure(URISyntaxException(host + ":" + port, InvalidPortNumber))
  {
    var address := host + ":" + port;
    assert address[..|host|] == host;
    IndexOfAt(address, ':', |host|);
    assert address[|host| + 1..] == port;
  }

  /** The URL of a request: the printed address, a colon, the port, and the route. */
  function Url(host: InetAddress, port: int, route: string): string {
    host.text + ":" + IntToText(port) + route
  }

  class Client {
    var host: InetAddress
    var port: int

    /** `Initialize` after the port check has passed. */
    constructor (host: InetAddress, port: int)
      requires ValidPort(port)
      ensures this.host == host && this.port == port
    {
      this.host := host;
      this.port := port;
    }

    /** `new Client(host, port, httpClient)`: an InvalidAddressException for a port outside 0..65535. */
    static method Create(host: InetAddress, port: int) returns (r: Result<Client, Throwable>)
      ensures !ValidPort(port) ==> r == Failure(InvalidPort(port))
      ensures ValidPort(port) ==> r.Success? && fresh(r.value) && r.value.host == host && r.value.port == port
    {
      if port < MinPort || port > MaxPort {
        return Failure(InvalidPort(port));
      }
      var c := new Client(host, port);
      r := Success(c);
    }

    /** `new Client(host, httpClient)`: the default port, which always passes the check. */
    static method CreateWithDefaultPort(host: InetAddress) returns (c: Client)
      ensures fresh(c) && c.host == host && c.port == DefaultPort
    {
      c := new Client(host, DefaultPort);
    }

    /** `new Client(address, httpClient)`: take the address apart, resolve the host, check the port. */
    static method FromAddress(address: string, resolve: string -> Result<InetAddress, Throwable>) returns (r: Result<Client, Throwable>)
      ensures ParseAddress(address, resolve).Failure? ==> r == Failure(ParseAddress(address, resolve).error)
      ensures ParseAddress(address, resolve).Success? ==>
        var (ip, port) := ParseAddress(address, resolve).value;
        && (!ValidPort(port) ==> r == Failure(InvalidPort(port)))
        && (ValidPort(port) ==> r.Success? && fresh(r.value) && r.value.host == ip && r.value.port == port)
    {
      var parsed := ParseAddress(address, resolve);
      if parsed.Failure? {
        return Failure(parsed.error);
      }
      var (ip, port) := parsed.value;
      r := Create(ip, port);
    }

    /**
     * `addUserTokenToRequest` of this client: both headers when user and token are non-empty,
     * otherwise the request as it was; a null user, or a null token beside a non-empty user,
     * throws when it is asked whether it is empty.
     */
    static method AddUserTokenToRequest(user: Option<string>, token: Option<string>, request: Request) returns (r: Result<Request, Throwable>)
      ensures r.Failure? <==> user.None? || (user.value != "" && token.None?)
      ensures r.Failure? ==> r.error == NullPointerException
      ensures r.Success? && user.value != "" && token.value != "" ==>
        r.value == request.(headers := request.headers + CredentialHeaders(user.value, token.value))
      ensures r.Success? && (user.value == "" || token.value == "") ==> r.value == request
    {
      if user.None? {
        return Failure(NullPointerException);
      }
      if user.value == "" {
        return Success(request);
      }
      if token.None? {
        return Failure(NullPointerException);
      }
      if token.value == "" {
        return Success(request);
      }
      r := Success(request.PutHeader(UserHeader, user.value).PutHeader(TokenHeader, token.value));
    }

    /** `getLastGameSession`: GET of `/sessions/last` on this client's address and port. */
    method GetLastGameSession(user: Option<string>, token: Option<string>) returns (r: Result<Request, Throwable>)
      ensures r.Failure? <==> user.None? || (user.value != "" && token.None?)
      ensures r.Success? ==> r.value.verb == "GET" && r.value.path == Url(host, port, "/sessions/last") && r.value.body.None?
      ensures r.Success? ==>
        (r.value.headers == if user.value != "" && token.value != "" then CredentialHeaders(user.value, token.value) else map[])
    {
      var url := host.text + ":" + IntToText(port) + "/sessions/last";
      var request := Request("GET", url, map[], None);
      r := AddUserTokenToRequest(user, token, request);
    }

    /** `startSession`: POST to `/session` on this client's address and port. */
    method StartSession(user: Option<string>, token: Option<string>) returns (r: Result<Request, Throwable>)
      ensures r.Failure? <==> user.None? || (user.value != "" && token.None?)
      ensures r.Success? ==> r.value.verb == "POST" && r.value.path == Url(host, port, "/session") && r.value.body.None?
      ensures r.Success? ==>
        (r.value.headers == if user.value != "" && token.value != "" then CredentialHeaders(user.value, token.value) else map[])
    {
      var url := host.text + ":" + IntToText(port) + "/session";
      var request := Request("POST", url, map[], None);
      r := AddUserTokenToRequest(user, token, request);
    }

    /** The response handler: each HTTP response is converted once and handed on once. */
    static method HandleResponse<R>(event: HttpResponse, convert: HttpResponse -> R) returns (delivered: seq<R>)
      ensures delivered == [convert(event)]
    {
      var response := convert(event);
      delivered := [];
      delivered := delivered + [response];
    }
  }
}
