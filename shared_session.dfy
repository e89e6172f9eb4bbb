/**
 * The server-side `shared.domain.GameSession`: a session sent as a JSON map. Dates travel as
 * text in the `yyyy-MM-dd'T'HH:mm:ssZ` pattern; a missing `user` or `game` reads as the empty
 * string, while a missing or malformed `id` makes the whole map unreadable.
 */
module SharedSession {
  import opened Wrappers
  import opened JavaText
  import opened Json
  import opened Throwables
  import Uuid
  import SecondsDate

  /** The fields of a session; `None` is a null field. */
  datatype Session = Session(id: Option<Uuid.Uuid>, user: Option<string>, game: Option<string>, start: Option<Date>, end: Option<Date>)

  const Keys: set<string> := {"id", "user", "game", "start", "end"}

  /** The message of the IllegalArgumentException `UUID.fromString` throws. */
  function InvalidUuid(text: string): Throwable {
    IllegalArgumentException("Invalid UUID string: " + text)
  }

  /** The id entry: the text of the value read as a UUID; a null value throws a NullPointerException. */
  function DecodeId(v: Json): (r: Result<Uuid.Uuid, Throwable>)
    ensures v.JNull? ==> r == Failure(NullPointerException)
    ensures r.Success? <==> v.JString? && Uuid.WellFormed(v.s)
    ensures r.Success? ==> Uuid.FromString(v.s) == Some(r.value)
  {
    var text :- match ToText(v) case None => Failure(NullPointerException) case Some(t) => Success(t);
    if v.JInt? then Uuid.NumberTextIsNotUuid(v.i); DecodeUuidText(text) else DecodeUuidText(text)
  }

  function DecodeUuidText(text: string): (r: Result<Uuid.Uuid, Throwable>)
    ensures r.Success? <==> Uuid.WellFormed(text)
    ensures r.Success? ==> Uuid.FromString(text) == Some(r.value)
    ensures r.Failure? ==> r.error == InvalidUuid(text)
  {
    match Uuid.FromString(text)
    case None => Failure(InvalidUuid(text))
    case Some(u) => Success(u)
  }

  /** A text entry: empty text when the key is missing, the text of the value when present (a null value throws). */
  function DecodeText(m: JsonMap, key: string): (r: Result<string, Throwable>)
    ensures key !in m ==> r == Success("")
    ensures key in m ==> (r.Failure? <==> m[key].JNull?)
    ensures key in m && m[key].JString? ==> r == Success(m[key].s)
    ensures r.Failure? ==> r.error == NullPointerException
  {
    if key !in m then Success("")
    else
      match ToText(m[key])
      case None => Failure(NullPointerException)
      case Some(t) => Success(t)
  }

  /** The map constructor: the first exception it throws, or the session it builds. */
  function Decode(m: JsonMap): (r: Result<Session, Throwable>)
    ensures r.Success? <==>
      && Get(m, "id").JString? && Uuid.WellFormed(Get(m, "id").s)
      && !("user" in m && m["user"].JNull?) && !("game" in m && m["game"].JNull?)
    ensures r.Success? ==>
      && r.value.id.Some? && r.value.id == Uuid.FromString(Get(m, "id").s)
      && r.value.user == Some(DecodeText(m, "user").value)
      && r.value.game == Some(DecodeText(m, "game").value)
      && r.value.start == SecondsDate.ToDate(Get(m, "start"))
      && r.value.end == SecondsDate.ToDate(Get(m, "end"))
    ensures Get(m, "id").JNull? ==> r == Failure(NullPointerException)
  {
    var id :- DecodeId(Get(m, "id"));
    var user :- DecodeText(m, "user");
    var game :- DecodeText(m, "game");
    Success(Session(Some(id), Some(user), Some(game), SecondsDate.ToDate(Get(m, "start")), SecondsDate.ToDate(Get(m, "end"))))
  }

  /** A string field, or null. */
  function TextOrNull(s: Option<string>): (v: Json)
    ensures s.None? <==> v.JNull?
    ensures s.Some? ==> v == JString(s.value)
  {
    match s
    case None => JNull
    case Some(t) => JString(t)
  }

  /** The id entry written: its canonical text, or null. */
  function IdOrNull(id: Option<Uuid.Uuid>): (v: Json)
    ensures id.None? <==> v.JNull?
    ensures id.Some? ==> v == JString(id.value)
  {
    match id
    case None => JNull
    case Some(u) => JString(u)
  }

  /** `toJsonMap()`: exactly the five keys; the id as its text, each date as `formatDate` prints it. */
  function Encode(zone: SecondsDate.Zone, s: Session): (m: JsonMap)
    ensures m.Keys == Keys
    ensures m["id"] == IdOrNull(s.id)
    ensures m["user"] == TextOrNull(s.user) && m["game"] == TextOrNull(s.game)
    ensures m["start"] == TextOrNull(SecondsDate.FormatDate(zone, s.start))
    ensures m["end"] == TextOrNull(SecondsDate.FormatDate(zone, s.end))
  {
    map[
      "id" := IdOrNull(s.id),
      "user" := TextOrNull(s.user),
      "game" := TextOrNull(s.game),
      "start" := TextOrNull(SecondsDate.FormatDate(zone, s.start)),
      "end" := TextOrNull(SecondsDate.FormatDate(zone, s.end))]
  }

  /** A date the pattern prints with its own year: null, or local year 1 AD or later. */
  predicate Printable(zone: SecondsDate.Zone, d: Option<Date>) {
    d.None? || SecondsDate.LocalFields(zone, d.value).year >= 1
  }

  /** A printable date cut down to whole seconds. */
  function Truncated(zone: SecondsDate.Zone, d: Option<Date>): (r: Option<Date>)
    requires Printable(zone, d)
    ensures r.None? <==> d.None?
    ensures r.Some? ==> r.value <= d.value < r.value + 1000 && r.value % 1000 == 0
  {
    match d
    case None => None
    case Some(t) =>
      SecondsDate.TruncatedInRange(zone, t);
      WholeSecondBelow(t);
      Some(t / 1000 * 1000)
  }

  /** The whole second at or below an instant, in milliseconds. */
  lemma WholeSecondBelow(t: int)
    ensures t / 1000 * 1000 <= t < t / 1000 * 1000 + 1000 && (t / 1000 * 1000) % 1000 == 0
  {
    assert t == t / 1000 * 1000 + t % 1000;
  }

  lemma DateRoundTrip(zone: SecondsDate.Zone, d: Option<Date>)
    requires Printable(zone, d)
    ensures SecondsDate.ToDate(TextOrNull(SecondsDate.FormatDate(zone, d))) == Truncated(zone, d)
  {
    if d.Some? {
      SecondsDate.ToDateOfFormatDate(zone, d.value);
    }
  }

  /**
   * Reading back the map of a session with an id, a user and a game gives the same id, user
   * and game, and the dates cut down to whole seconds.
   */
  lemma DecodeEncode(zone: SecondsDate.Zone, s: Session)
    requires s.id.Some? && s.user.Some? && s.game.Some?
    requires Printable(zone, s.start) && Printable(zone, s.end)
    ensures Decode(Encode(zone, s)).Success?
    ensures Decode(Encode(zone, s)).value == Session(s.id, s.user, s.game, Truncated(zone, s.start), Truncated(zone, s.end))
  {
    var m := Encode(zone, s);
    Uuid.FromStringOfText(s.id.value);
    assert Uuid.WellFormed(m["id"].s);
    DateRoundTrip(zone, s.start);
    DateRoundTrip(zone, s.end);
  }

  /** The map of a session without an id cannot be read back. */
  lemma EncodeWithoutIdIsRejected(zone: SecondsDate.Zone, s: Session)
    requires s.id.None?
    ensures Decode(Encode(zone, s)) == Failure(NullPointerException)
  {
  }

  /** Nor can the map of a session without a user or without a game: the key is there, holding null. */
  lemma EncodeWithoutUserOrGameIsRejected(zone: SecondsDate.Zone, s: Session)
    requires s.user.None? || s.game.None?
    ensures Decode(Encode(zone, s)).Failure?
  {
  }

  /** A map without `user` and `game` reads them as empty strings. */
  lemma MissingTextIsEmpty(m: JsonMap)
    requires Decode(m).Success? && "user" !in m && "game" !in m
    ensures Decode(m).value.user == Some("") && Decode(m).value.game == Some("")
  {
  }

  /** A session object, whose setters replace one field each. */
  class GameSession {
    var id: Option<Uuid.Uuid>
    var user: Option<string>
    var game: Option<string>
    var start: Option<Date>
    var end: Option<Date>

    function Value(): Session
      reads this
    {
      Session(id, user, game, start, end)
    }

    /** The no-argument constructor: every field null. */
    constructor ()
      ensures Value() == Session(None, None, None, None, None)
    {
      id, user, game, start, end := None, None, None, None, None;
    }

    /** The map constructor, which throws instead of returning when `Decode` fails. */
    static method FromJsonMap(m: JsonMap) returns (r: Result<GameSession, Throwable>)
      ensures Decode(m).Failure? ==> r == Failure(Decode(m).error)
      ensures Decode(m).Success? ==> r.Success? && fresh(r.value) && r.value.Value() == Decode(m).value
    {
      match Decode(m)
      case Failure(e) =>
        r := Failure(e);
      case Success(s) =>
        var g := new GameSession();
        g.id, g.user, g.game, g.start, g.end := s.id, s.user, s.game, s.start, s.end;
        r := Success(g);
    }

    /** `toJsonMap()`: a fresh map filled one `put` at a time. */
    method ToJsonMap(zone: SecondsDate.Zone) returns (json: JsonMap)
      ensures json == Encode(zone, Value())
    {
      json := map[];
      json := json["id" := IdOrNull(id)];
      json := json["user" := TextOrNull(user)];
      json := json["game" := TextOrNull(game)];
      json := json["start" := TextOrNull(SecondsDate.FormatDate(zone, start))];
      json := json["end" := TextOrNull(SecondsDate.FormatDate(zone, end))];
    }

    method SetId(id: Option<Uuid.Uuid>)
      modifies this
      ensures Value() == old(Value()).(id := id)
    {
      this.id := id;
    }

    method SetUser(user: Option<string>)
      modifies this
      ensures Value() == old(Value()).(user := user)
    {
      this.user := user;
    }

    method SetGame(game: Option<string>)
      modifies this
      ensures Value() == old(Value()).(game := game)
    {
      this.game := game;
    }

    method SetStart(start: Option<Date>)
      modifies this
      ensures Value() == old(Value()).(start := start)
    {
      this.start := start;
    }

    method SetEnd(end: Option<Date>)
      modifies this
      ensures Value() == old(Value()).(end := end)
    {
      this.end := end;
    }
  }
}
