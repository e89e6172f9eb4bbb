/**
 * The client-example `shared.domain.GameSession`: the same session as a JSON map, with dates
 * as epoch milliseconds and a free-form `result` map. Reading is strict: `id`, `user` and
 * `game` must all be present and non-null.
 */
module ExampleSession {
  import opened Wrappers
  import opened JavaText
  import opened Json
  import opened Throwables
  import Uuid
  import MillisDate
  import SharedSession

  /** The fields of a session; `None` is a null field. */
  datatype Session = Session(
    id: Option<Uuid.Uuid>, user: Option<string>, game: Option<string>,
    start: Option<Date>, end: Option<Date>, result: Option<JsonMap>)

  const Keys: set<string> := {"id", "user", "game", "start", "end", "result"}

  /** The text of an entry: a missing key and a null value both throw a NullPointerException. */
  function DecodeText(m: JsonMap, key: string): (r: Result<string, Throwable>)
    ensures r.Failure? <==> Get(m, key).JNull?
    ensures r.Failure? ==> r.error == NullPointerException
    ensures Get(m, key).JString? ==> r == Success(Get(m, key).s)
  {
    match ToText(Get(m, key))
    case None => Failure(NullPointerException)
    case Some(t) => Success(t)
  }

  /** The `result` entry: null stays null, a map is kept, anything else fails the cast to a map. */
  function DecodeResult(v: Json): (r: Result<Option<JsonMap>, Throwable>)
    ensures v.JNull? ==> r == Success(None)
    ensures v.JObject? ==> r == Success(Some(v.members))
    ensures !v.JNull? && !v.JObject? ==> r == Failure(ClassCastException)
  {
    match v
    case JNull => Success(None)
    case JObject(members) => Success(Some(members))
    case _ => Failure(ClassCastException)
  }

  /** The map constructor: the first exception it throws, or the session it builds. */
  function Decode(m: JsonMap): (r: Result<Session, Throwable>)
    ensures r.Success? <==>
      && Get(m, "id").JString? && Uuid.WellFormed(Get(m, "id").s)
      && !Get(m, "user").JNull? && !Get(m, "game").JNull?
      && (Get(m, "result").JNull? || Get(m, "result").JObject?)
    ensures r.Success? ==>
      && r.value.id.Some? && r.value.id == Uuid.FromString(Get(m, "id").s)
      && r.value.user == Some(DecodeText(m, "user").value)
      && r.value.game == Some(DecodeText(m, "game").value)
      && r.value.start == MillisDate.ToDate(Get(m, "start"))
      && r.value.end == MillisDate.ToDate(Get(m, "end"))
      && r.value.result == DecodeResult(Get(m, "result")).value
    ensures Get(m, "id").JNull? || Get(m, "user").JNull? || Get(m, "game").JNull? ==> r.Failure?
  {
    var id :- SharedSession.DecodeId(Get(m, "id"));
    var user :- DecodeText(m, "user");
    var game :- DecodeText(m, "game");
    var start := MillisDate.ToDate(Get(m, "start"));
    var end := MillisDate.ToDate(Get(m, "end"));
    var result :- DecodeResult(Get(m, "result"));
    Success(Session(Some(id), Some(user), Some(game), start, end, result))
  }

  /** A map field, or null. */
  function MapOrNull(m: Option<JsonMap>): (v: Json)
    ensures m.None? <==> v.JNull?
    ensures m.Some? ==> v == JObject(m.value)
  {
    match m
    case None => JNull
    case Some(members) => JObject(members)
  }

  /** `toJsonMap()`: exactly the six keys; each date as its milliseconds, `result` as it is. */
  function Encode(s: Session): (m: JsonMap)
    ensures m.Keys == Keys
    ensures m["id"] == SharedSession.IdOrNull(s.id)
    ensures m["user"] == SharedSession.TextOrNull(s.user) && m["game"] == SharedSession.TextOrNull(s.game)
    ensures m["start"] == MillisDate.FormatDate(s.start) && m["end"] == MillisDate.FormatDate(s.end)
    ensures m["result"] == MapOrNull(s.result)
  {
    map[
      "id" := SharedSession.IdOrNull(s.id),
      "user" := SharedSession.TextOrNull(s.user),
      "game" := SharedSession.TextOrNull(s.game),
      "start" := MillisDate.FormatDate(s.start),
      "end" := MillisDate.FormatDate(s.end),
      "result" := MapOrNull(s.result)]
  }

  /** Reading back the map of a session with an id, a user and a game gives the very same session. */
  lemma DecodeEncode(s: Session)
    requires s.id.Some? && s.user.Some? && s.game.Some?
    ensures Decode(Encode(s)) == Success(s)
  {
    var m := Encode(s);
    Uuid.FromStringOfText(s.id.value);
    assert Uuid.WellFormed(m["id"].s);
    MillisDate.ToDateOfFormatDate(s.start);
    MillisDate.ToDateOfFormatDate(s.end);
  }

  /** The map of a session without an id, a user or a game cannot be read back. */
  lemma EncodeWithNullIsRejected(s: Session)
    requires s.id.None? || s.user.None? || s.game.None?
    ensures Decode(Encode(s)).Failure?
    ensures Decode(Encode(s)).error == NullPointerException
  {
  }

  /** A session object, whose setters replace one field each. */
  class GameSession {
    var id: Option<Uuid.Uuid>
    var user: Option<string>
    var game: Option<string>
    var start: Option<Date>
    var end: Option<Date>
    var result: Option<JsonMap>

    function Value(): Session
      reads this
    {
      Session(id, user, game, start, end, result)
    }

    /** The no-argument constructor: every field null. */
    constructor ()
      ensures Value() == Session(None, None, None, None, None, None)
    {
      id, user, game, start, end, result := None, None, None, None, None, None;
    }

    /** The map constructor, which throws instead of returning when `Decode` fails. */
    static method FromJsonMap(m: JsonMap) returns (r: Result<GameSession, Throwable>)
      ensures Decode(m).Failure? ==> r == Failure(Decode(m).error)
      ensures Decode(m).Success? ==> r.Success? && fresh(r.value) && r.value.Value() == Decode(m).value
    {
      match Decode(m)
      case Failure(e) =>
        r := Failure(e);
      case Success(s) =>
        var g := new GameSession();
        g.id, g.user, g.game, g.start, g.end, g.result := s.id, s.user, s.game, s.start, s.end, s.result;
        r := Success(g);
    }

    /** `toJsonMap()`: a fresh map filled one `put` at a time. */
    method ToJsonMap() returns (json: JsonMap)
      ensures json == Encode(Value())
    {
      json := map[];
      json := json["id" := SharedSession.IdOrNull(id)];
      json := json["user" := SharedSession.TextOrNull(user)];
      json := json["game" := SharedSession.TextOrNull(game)];
      json := json["start" := MillisDate.FormatDate(start)];
      json := json["end" := MillisDate.FormatDate(end)];
      json := json["result" := MapOrNull(result)];
    }

    method SetId(id: Option<Uuid.Uuid>)
      modifies this
      ensures Value() == old(Value()).(id := id)
    {
      this.id := id;
    }

    method SetUser(user: Option<string>)
      modifies this
      ensures Value() == old(Value()).(user := user)
    {
      this.user := user;
    }

    method SetGame(game: Option<string>)
      modifies this
      ensures Value() == old(Value()).(game := game)
    {
      this.game := game;
    }

    method SetStart(start: Option<Date>)
      modifies this
      ensures Value() == old(Value()).(start := start)
    {
      this.start := start;
    }

    method SetEnd(end: Option<Date>)
      modifies this
      ensures Value() == old(Value()).(end := end)
    {
      this.end := end;
    }

    method SetResult(result: Option<JsonMap>)
      modifies this
      ensures Value() == old(Value()).(result := result)
    {
      this.result := result;
    }
  }
}
