/**
 * The early `es.us.dad.gameregistry.GameSession`: an id and two dates, written to JSON with
 * the `yyyy-MM-dd'T'HH:mm:ssZ` pattern. Reading from JSON was never written.
 */
module LegacySession {
  import opened Wrappers
  import opened JavaText
  import opened Json
  import opened Throwables
  import Uuid
  import SecondsDate
  import SharedSession

  const Keys: set<string> := {"id", "start", "end"}

  /** `m_dateFormat.format(date)`: a null date throws. */
  function Format(zone: SecondsDate.Zone, date: Option<Date>): (r: Result<string, Throwable>)
    ensures date.None? <==> r.Failure?
    ensures r.Failure? ==> r.error == NullPointerException
    ensures r.Success? ==> Some(r.value) == SecondsDate.FormatDate(zone, date)
  {
    match SecondsDate.FormatDate(zone, date)
    case None => Failure(NullPointerException)
    case Some(text) => Success(text)
  }

  /** The `end` entry as written: the null test is the wrong way round, so a missing end is formatted (and throws) and a present one is written as null. */
  function EndEntry(zone: SecondsDate.Zone, end: Option<Date>): (r: Result<Json, Throwable>)
    ensures end.None? ==> r == Failure(NullPointerException)
    ensures end.Some? ==> r == Success(JNull)
  {
    if end.None? then Failure(Format(zone, end).error) else Success(JNull)
  }

  /** The `end` entry as evidently intended: the formatted end when there is one, null otherwise. */
  function IntendedEndEntry(zone: SecondsDate.Zone, end: Option<Date>): (r: Json)
    ensures end.None? <==> r.JNull?
  {
    if end.None? then JNull else JString(Format(zone, end).value)
  }

  /** As written, a session that has ended loses its end date, and one that has not cannot be written at all. */
  lemma EndEntryLosesEnd(zone: SecondsDate.Zone, end: Option<Date>)
    ensures end.Some? ==> EndEntry(zone, end) == Success(JNull) && IntendedEndEntry(zone, end) != JNull
    ensures end.None? ==> EndEntry(zone, end).Failure? && IntendedEndEntry(zone, end) == JNull
  {
  }

  /** As intended, the end date reads back to the second, and a missing one reads back as null. */
  lemma IntendedEndEntryRoundTrip(zone: SecondsDate.Zone, end: Option<Date>)
    requires SharedSession.Printable(zone, end)
    ensures SecondsDate.ToDate(IntendedEndEntry(zone, end)) == SharedSession.Truncated(zone, end)
  {
    SharedSession.DateRoundTrip(zone, end);
  }

  class GameSession {
    var id: Option<Uuid.Uuid>
    var start: Option<Date>
    var end: Option<Date>

    constructor ()
      ensures id.None? && start.None? && end.None?
    {
      id, start, end := None, None, None;
    }

    /**
     * `toJson()`, as written: it throws unless the id, the start and the end are all set, and
     * then writes null for the end.
     */
    method ToJson(zone: SecondsDate.Zone) returns (r: Result<JsonMap, Throwable>)
      ensures r.Success? <==> id.Some? && start.Some? && end.Some?
      ensures r.Failure? ==> r.error == NullPointerException
      ensures r.Success? ==> r.value.Keys == Keys
      ensures r.Success? ==> r.value["id"] == JString(id.value)
      ensures r.Success? ==> r.value["start"] == JString(SecondsDate.FormatDate(zone, start).value)
      ensures r.Success? ==> r.value["end"] == JNull
    {
      var m: JsonMap := map[];
      if id.None? {
        return Failure(NullPointerException);
      }
      m := m["id" := JString(id.value)];
      var startText := Format(zone, start);
      if startText.Failure? {
        return Failure(startText.error);
      }
      m := m["start" := JString(startText.value)];
      var endEntry := EndEntry(zone, end);
      if endEntry.Failure? {
        return Failure(endEntry.error);
      }
      m := m["end" := endEntry.value];
      r := Success(m);
    }

    /** `fromJSon(o)`: an empty body, so nothing changes. */
    method FromJson(o: JsonMap)
      modifies this
      ensures id == old(id) && start == old(start) && end == old(end)
    {
    }
  }
}
