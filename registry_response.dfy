/**
 * `GameRegistryResponse`: the outcome of one request to a game registry server, classified
 * from the HTTP status and the body. Only a 2xx status is looked at closely; every other status
 * is reported as UNKNOWN.
 */
module RegistryResponse {
  import opened Wrappers
  import opened Json
  import opened Throwables
  import opened Http
  import SharedSession

  datatype ResponseType =
    | Ok
    | Timeout
    | UnknownHost
    | ConnectionRefused
    | TokenError
    | ServerError
    | InvalidResponse
    | Unknown

  /** The four public fields of a response; `None` is a null field. */
  datatype Response = Response(
    responseType: ResponseType,
    sessions: Option<seq<SharedSession.Session>>,
    innerHttpResponse: Option<HttpResponse>,
    innerException: Option<Throwable>)

  /** What the constructor sets up: UNKNOWN, and every reference null. */
  const Default: Response := Response(Unknown, None, None, None)

  /** `200 OK`, `201 Created`, `202 Accepted` and the rest of the 2xx range. */
  predicate IsSuccessStatus(code: int) { 200 <= code < 300 }

  /**
   * One element of a JSON array, taken as a session object and decoded: a null element throws
   * when it is turned into a map, and any other element that is not an object fails the cast.
   */
  function DecodeElement(v: Json): Result<SharedSession.Session, Throwable> {
    match v
    case JObject(members) => SharedSession.Decode(members)
    case JNull => Failure(NullPointerException)
    case _ => Failure(ClassCastException)
  }

  /** The elements decoded in order; the first element that fails decides the exception. */
  function DecodeElements(elements: seq<Json>): (r: Result<seq<SharedSession.Session>, Throwable>)
    ensures r.Success? ==> |r.value| == |elements|
    decreases |elements|
  {
    if elements == [] then Success([])
    else
      var sessions :- DecodeElements(elements[..|elements| - 1]);
      var last :- DecodeElement(elements[|elements| - 1]);
      Success(sessions + [last])
  }

  /** The array decodes exactly when every element does, and then element `i` gives session `i`. */
  lemma {:induction false} DecodeElementsEach(elements: seq<Json>)
    ensures DecodeElements(elements).Success? <==> forall i :: 0 <= i < |elements| ==> DecodeElement(elements[i]).Success?
    ensures DecodeElements(elements).Success? ==>
      forall i :: 0 <= i < |elements| ==> DecodeElement(elements[i]) == Success(DecodeElements(elements).value[i])
    decreases |elements|
  {
    if elements != [] {
      var n := |elements| - 1;
      var init := elements[..n];
      DecodeElementsEach(init);
      assert forall i :: 0 <= i < n ==> init[i] == elements[i];
      var r := DecodeElements(elements);
      if DecodeElements(init).Success? && DecodeElement(elements[n]).Success? {
        var sessions := DecodeElements(init).value;
        assert r.value == sessions + [DecodeElement(elements[n]).value];
        forall i | 0 <= i < |elements|
          ensures DecodeElement(elements[i]) == Success(r.value[i])
        {
          if i < n {
            assert r.value[i] == sessions[i];
          }
        }
      }
    }
  }

  /** Once a prefix of the elements fails, the whole array fails with the same exception. */
  lemma {:induction false} PrefixFailure(elements: seq<Json>, k: nat)
    requires k <= |elements| && DecodeElements(elements[..k]).Failure?
    ensures DecodeElements(elements) == DecodeElements(elements[..k])
    decreases |elements| - k
  {
    if k < |elements| {
      var next := elements[..k + 1];
      assert next[..k] == elements[..k];
      PrefixFailure(elements, k + 1);
    } else {
      assert elements[..k] == elements;
    }
  }

  /** The exception of an array whose element `i` is the first to fail is that element's. */
  lemma FirstFailure(elements: seq<Json>, i: nat)
    requires i < |elements| && DecodeElement(elements[i]).Failure?
    requires forall j :: 0 <= j < i ==> DecodeElement(elements[j]).Success?
    ensures DecodeElements(elements) == Failure(DecodeElement(elements[i]).error)
  {
    var prefix := elements[..i + 1];
    assert prefix[..i] == elements[..i];
    DecodeElementsEach(elements[..i]);
    assert DecodeElements(elements[..i]).Success?;
    PrefixFailure(elements, i + 1);
  }

  /** The sessions a parsed body holds: each element of an array, one object, or none at all. */
  function DecodeBody(v: Json): (r: Result<seq<SharedSession.Session>, Throwable>)
    ensures v.JArray? ==> r == DecodeElements(v.elements)
    ensures v.JObject? ==> r == (var s :- SharedSession.Decode(v.members); Success([s]))
    ensures !v.JArray? && !v.JObject? ==> r == Success([])
  {
    match v
    case JArray(elements) => DecodeElements(elements)
    case JObject(members) =>
      var s :- SharedSession.Decode(members);
      Success([s])
    case _ => Success([])
  }

  /** `parseOkResponse`: OK, then the sessions of a non-empty body, or INVALID_RESPONSE and its exception. */
  function ParseOk(rval: Response, body: Body): Response {
    var ok := rval.(responseType := Ok);
    match body
    case EmptyBody => ok
    case Unparseable(e) => ok.(responseType := InvalidResponse, innerException := Some(e))
    case Parsed(v) =>
      match DecodeBody(v)
      case Success(sessions) => ok.(sessions := Some(sessions))
      case Failure(e) => ok.(responseType := InvalidResponse, innerException := Some(e))
  }

  /** `parseNonOkResponse`: UNKNOWN for 3xx and for anything out of 3xx-5xx; 4xx and 5xx are left as they are. */
  function ParseNonOk(rval: Response, code: int): Response {
    if 300 <= code < 400 then rval.(responseType := Unknown)
    else if 400 <= code < 500 then rval
    else if 500 <= code < 600 then rval
    else rval.(responseType := Unknown)
  }

  /** `fromHttpResponse`: the response a status and a body make. */
  function Classify(response: HttpResponse, body: Body): (r: Response)
    ensures r.innerHttpResponse == Some(response)
  {
    var rval := Default.(innerHttpResponse := Some(response), sessions := None);
    if IsSuccessStatus(response.statusCode) then ParseOk(rval, body) else ParseNonOk(rval, response.statusCode)
  }

  /** A 2xx status ends as OK or INVALID_RESPONSE, never as anything else. */
  lemma SuccessStatusIsOkOrInvalid(response: HttpResponse, body: Body)
    requires IsSuccessStatus(response.statusCode)
    ensures Classify(response, body).responseType == Ok || Classify(response, body).responseType == InvalidResponse
  {
  }

  /** Every other status ends as UNKNOWN, with no sessions and no exception. */
  lemma OtherStatusIsUnknown(response: HttpResponse, body: Body)
    requires !IsSuccessStatus(response.statusCode)
    ensures Classify(response, body) == Response(Unknown, None, Some(response), None)
  {
  }

  /** A 2xx status with an empty body is OK with null sessions. */
  lemma EmptyBodyIsOk(response: HttpResponse)
    requires IsSuccessStatus(response.statusCode)
    ensures Classify(response, EmptyBody) == Response(Ok, None, Some(response), None)
  {
  }

  /** A 2xx array of sessions gives one session per element, in the order of the array. */
  lemma ArrayBodyIsOk(response: HttpResponse, elements: seq<Json>)
    requires IsSuccessStatus(response.statusCode)
    requires forall i :: 0 <= i < |elements| ==> DecodeElement(elements[i]).Success?
    ensures var r := Classify(response, Parsed(JArray(elements)));
      && r.responseType == Ok && r.innerException.None? && r.sessions.Some?
      && |r.sessions.value| == |elements|
      && forall i :: 0 <= i < |elements| ==> elements[i].JObject? && SharedSession.Decode(elements[i].members) == Success(r.sessions.value[i])
  {
    DecodeElementsEach(elements);
  }

  /** A 2xx single session object gives exactly that session. */
  lemma ObjectBodyIsOk(response: HttpResponse, members: JsonMap)
    requires IsSuccessStatus(response.statusCode) && SharedSession.Decode(members).Success?
    ensures Classify(response, Parsed(JObject(members))) == Response(Ok, Some([SharedSession.Decode(members).value]), Some(response), None)
  {
  }

  /** A 2xx body that parses to neither an array nor an object is OK with no sessions, but a non-null array. */
  lemma ScalarBodyIsOk(response: HttpResponse, v: Json)
    requires IsSuccessStatus(response.statusCode) && !v.JArray? && !v.JObject?
    ensures Classify(response, Parsed(v)) == Response(Ok, Some([]), Some(response), None)
  {
  }

  /** A 2xx body that does not parse is INVALID_RESPONSE, carrying the parse exception. */
  lemma UnparseableBodyIsInvalid(response: HttpResponse, cause: Throwable)
    requires IsSuccessStatus(response.statusCode)
    ensures Classify(response, Unparseable(cause)) == Response(InvalidResponse, None, Some(response), Some(cause))
  {
  }

  /** A 2xx array with a bad element is INVALID_RESPONSE: the sessions decoded before it are dropped. */
  lemma BadElementIsInvalid(response: HttpResponse, elements: seq<Json>, i: nat)
    requires IsSuccessStatus(response.statusCode)
    requires i < |elements| && DecodeElement(elements[i]).Failure?
    requires forall j :: 0 <= j < i ==> DecodeElement(elements[j]).Success?
    ensures Classify(response, Parsed(JArray(elements))) ==
      Response(InvalidResponse, None, Some(response), Some(DecodeElement(elements[i]).error))
  {
    FirstFailure(elements, i);
  }

  /** A 2xx single object that does not decode is INVALID_RESPONSE, carrying the decoder's exception. */
  lemma BadObjectIsInvalid(response: HttpResponse, members: JsonMap)
    requires IsSuccessStatus(response.statusCode) && SharedSession.Decode(members).Failure?
    ensures Classify(response, Parsed(JObject(members))) ==
      Response(InvalidResponse, None, Some(response), Some(SharedSession.Decode(members).error))
  {
  }

  /** The response object, whose fields the parsing steps fill in. */
  class GameRegistryResponse {
    var responseType: ResponseType
    var sessions: Option<seq<SharedSession.Session>>
    var innerHttpResponse: Option<HttpResponse>
    var innerException: Option<Throwable>

    function Value(): Response
      reads this
    {
      Response(responseType, sessions, innerHttpResponse, innerException)
    }

    constructor ()
      ensures Value() == Default
    {
      responseType := Unknown;
      sessions := None;
      innerHttpResponse := None;
      innerException := None;
    }

    /** `fromHttpResponse(response, body)`. */
    static method FromHttpResponse(response: HttpResponse, body: Body) returns (rval: GameRegistryResponse)
      ensures fresh(rval) && rval.Value() == Classify(response, body)
    {
      rval := new GameRegistryResponse();
      rval.innerHttpResponse := Some(response);
      rval.sessions := None;
      if IsSuccessStatus(response.statusCode) {
        rval.ParseOkResponse(body);
      } else {
        rval.ParseNonOkResponse(response.statusCode);
      }
    }

    method ParseOkResponse(body: Body)
      modifies this
      ensures Value() == ParseOk(old(Value()), body)
    {
      responseType := Ok;
      match body
      case EmptyBody =>
      case Unparseable(e) =>
        responseType := InvalidResponse;
        innerException := Some(e);
      case Parsed(v) =>
        var decoded: Result<seq<SharedSession.Session>, Throwable> := Success([]);
        if v.JArray? {
          decoded := DecodeSessionArray(v.elements);
        } else if v.JObject? {
          var s := SharedSession.Decode(v.members);
          decoded := if s.Success? then Success([s.value]) else Failure(s.error);
        }
        if decoded.Success? {
          sessions := Some(decoded.value);
        } else {
          responseType := InvalidResponse;
          innerException := Some(decoded.error);
        }
    }

    method ParseNonOkResponse(code: int)
      modifies this
      ensures Value() == ParseNonOk(old(Value()), code)
    {
      if 300 <= code < 400 {
        responseType := Unknown;
      } else if 400 <= code < 500 {
      } else if 500 <= code < 600 {
      } else {
        responseType := Unknown;
      }
    }

    /** The index loop over a JSON array: each element decoded and appended, the first failure thrown. */
    static method DecodeSessionArray(elements: seq<Json>) returns (r: Result<seq<SharedSession.Session>, Throwable>)
      ensures r == DecodeElements(elements)
    {
      var list: seq<SharedSession.Session> := [];
      var i := 0;
      while i < |elements|
        invariant 0 <= i <= |elements|
        invariant DecodeElements(elements[..i]) == Success(list)
      {
        var next := elements[..i + 1];
        assert next[..i] == elements[..i];
        var session := DecodeElement(elements[i]);
        if session.Failure? {
          PrefixFailure(elements, i + 1);
          return Failure(session.error);
        }
        list := list + [session.value];
        i := i + 1;
      }
      assert elements[..i] == elements;
      r := Success(list);
    }
  }
}
