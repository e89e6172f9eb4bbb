/**
 * The client-example `DomainObject` date helpers: a date travels as its epoch-millisecond
 * `Long`, and is read back by parsing the printed text of whatever value the map holds.
 */
module MillisDate {
  import opened Wrappers
  import opened JavaText
  import opened Json

  /** `formatDate`: null for a null date, otherwise `date.getTime()` as a number. */
  function FormatDate(date: Option<Date>): (v: Json)
    ensures date.None? <==> v.JNull?
    ensures date.Some? ==> v.JInt? && IsLong(v.i)
  {
    match date
    case None => JNull
    case Some(d) => JInt(d)
  }

  /**
   * `toDate(value)`: the value's text read as a `long`, with the NullPointerException of a null
   * value and the NumberFormatException of any other text both turned into null.
   */
  function ToDate(v: Json): (r: Option<Date>)
    ensures v.JNull? ==> r.None?
    ensures v.JInt? ==> r == if IsLong(v.i) then Some(v.i) else None
    ensures v.JString? ==> r == ParseLong(v.s)
    ensures v.JBool? || v.JArray? || v.JObject? ==> r.None?
  {
    match ToText(v)
    case None => None
    case Some(text) =>
      if v.JInt? then LongText(v.i); AsDate(ParseLong(text)) else AsDate(ParseLong(text))
  }

  /** `new Date(n)` for a parsed `long`. */
  function AsDate(n: Option<int>): (r: Option<Date>)
    requires n.Some? ==> IsLong(n.value)
    ensures r == n
  {
    var d :- n;
    Some(d)
  }

  /** `Long.parseLong` of the decimal text of a number is the number, if a `long` holds it. */
  lemma LongText(n: int)
    ensures ParseLong(IntToText(n)) == if IsLong(n) then Some(n) else None
  {
    if IsLong(n) {
      ParsePrinted(n, MinLong, MaxLong);
    } else {
      ParseRefusesOutOfRange(n, MinLong, MaxLong);
    }
  }

  /** Reading back a formatted date gives the very same date, to the millisecond. */
  lemma ToDateOfFormatDate(date: Option<Date>)
    ensures ToDate(FormatDate(date)) == date
  {
  }

  /** A number and its decimal text read back as the same date. */
  lemma NumberAndTextAgree(n: int)
    ensures ToDate(JInt(n)) == ToDate(JString(IntToText(n)))
  {
  }

  /** Decimal digits whose value no `long` holds read back as null. */
  lemma ToDateRefusesOverflow(s: string)
    requires |s| > 0 && AllDigits(s) && DigitsValue(s) > MaxLong
    ensures ToDate(JString(s)) == None
  {
    ParseDigits(s, MinLong, MaxLong);
  }
}
