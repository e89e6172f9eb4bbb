# Game registry client, modelled in Dafny

The game registry is a small REST service. It records game sessions: who played which
game, and when the session started and ended. Its Java client library does three jobs:

- it builds authenticated HTTP requests for the session collection (`GameRegistryClient`,
  plus the older `Client`);
- it sorts server responses into a closed set of response types (`GameRegistryResponse`);
- it translates sessions to and from JSON maps (`GameSession` in its three versions, with
  the `DomainObject` date helpers).

This project models those parts as Dafny values, functions and classes, and proves their
properties. The modules follow the Java sources:

| module | models |
|---|---|
| `Wrappers` | `Option` and `Result`; a `Failure` is the Java exception that is thrown |
| `Throwables` | the exceptions the core throws or passes on |
| `JavaText` | `Integer.parseInt` and `Long.parseLong` on ASCII digits, the decimal `toString` of integers, `String.indexOf` |
| `Json` | the values a decoded JSON map holds, `Map.get`, and `toString` on those values |
| `Uuid` | `UUID.toString`, and `UUID.fromString` on text in the canonical 36-character layout |
| `Calendar` | the proleptic Gregorian calendar that `SimpleDateFormat` prints and reads |
| `SecondsDate` | the server-side `DomainObject`: dates written with the pattern `yyyy-MM-dd'T'HH:mm:ssZ` |
| `MillisDate` | the client-example `DomainObject`: dates written as epoch milliseconds |
| `SharedSession` | the shared `shared.domain.GameSession` of the registry |
| `ExampleSession` | the client-example `GameSession`, which adds a `result` map |
| `LegacySession` | the early `es.us.dad.gameregistry.GameSession` |
| `Http` | requests, responses, header names and the port range |
| `RegistryResponse` | `GameRegistryResponse`: sorting an HTTP response and decoding its sessions |
| `RegistryClient` | `GameRegistryClient` |
| `LegacyClient` | the earlier `Client` |

The modelling follows a few conventions:

- Each session is a `datatype` with pure `Decode` and `Encode` functions. Each also has a
  `class` whose setters replace one field. Its `ToJsonMap` method fills a map one `put` at
  a time, and is proved equal to `Encode`.
- A client is a `class` with the fields the Java object updates: `host`, `port`,
  `basepath`, `user` and `token`.
- Each request method returns the request it would send: verb, path, headers and body.
  It returns the exception instead when the Java method would throw one.
- The response classifier has a pure specification, `Classify`. The class methods that
  update a `GameRegistryResponse` field by field are proved against it. The loop over the
  JSON array is a `while` loop, proved equal to the recursive `DecodeElements`.
- Inputs stand in for everything the library gets from outside:
  - the default time zone (`SecondsDate.Zone`: the offset in minutes in force at each instant, so daylight-saving changes are covered);
  - the result of a DNS lookup (`lookup`, or `resolve`);
  - the parsed response body (`Http.Body`);
  - the converter of the old client's `Response` class.

In a few places the code does something other than the library's documented behaviour.
The model follows the code:

- `setUser` and `setToken` store their argument as it is. Nothing is trimmed. An empty
  value is refused only when a request is built.
- `setBasePath` derives the stripped path from the old base path, not from its argument.
  See Findings.
- The sessions of a response are null when the response is not successful, and also when
  its body is empty.
- Every status outside 200..299 gives `UNKNOWN`. The 4xx and 5xx branches do not assign a
  type, so the `UNKNOWN` set by the constructor stays.
- The shared `GameSession` throws a NullPointerException when `id` is missing, not only
  when it is malformed.
- The client has no connection timeout, and the shared `GameSession` has no `result`
  field.

## Model

| member | source | states |
|---|---|---|
| JavaText.ParseInt | gameregistry/src/main/java/es/us/dad/gameregistry/client/GameRegistryClient.java:121 | a text that parses gives a value in the `int` range |
| JavaText.ParseLong | gameregistry-client-example/src/main/java/es/us/dad/gameregistry/shared/domain/DomainObject.java:17 | a text that parses gives a value in the `long` range |
| JavaText.ParsePrinted | gameregistry/src/main/java/es/us/dad/gameregistry/client/GameRegistryClient.java:121 | parsing the decimal text of any in-range integer gives that integer back |
| JavaText.ParseRefusesOutOfRange | gameregistry/src/main/java/es/us/dad/gameregistry/client/GameRegistryClient.java:121 | the decimal text of an integer outside the range is refused (NumberFormatException) |
| JavaText.ParseDigits | gameregistry-client-example/src/main/java/es/us/dad/gameregistry/shared/domain/DomainObject.java:17-18 | a digit string parses to its decimal value exactly when that value is in range, and is refused otherwise |
| JavaText.IndexOf | gameregistry/src/main/java/es/us/dad/gameregistry/client/GameRegistryClient.java:112 | -1 exactly when the character is absent; otherwise a position holding it with no earlier occurrence |
| JavaText.IndexOfAt | gameregistry/src/main/java/es/us/dad/gameregistry/client/Client.java:58 | the first occurrence is unique: any position holding the character with none before it is the result |
| Json.Get | gameregistry/src/main/java/es/us/dad/gameregistry/shared/domain/GameSession.java:23-27 | a missing key and a key mapped to null both give null; otherwise the stored value |
| Json.ToText | gameregistry/src/main/java/es/us/dad/gameregistry/shared/domain/DomainObject.java:22 | `toString` throws exactly on null; a string prints as itself, a number as its decimal text, a list or map with a bracket first |
| Uuid.FromString | gameregistry/src/main/java/es/us/dad/gameregistry/shared/domain/GameSession.java:23 | of text in the 36-character layout, accepts exactly the 8-4-4-4-12 hexadecimal groups in either case, and gives that text lower-cased |
| Uuid.FromStringOfText | gameregistry/src/main/java/es/us/dad/gameregistry/shared/domain/GameSession.java:23-34 | reading back the printed text of a UUID gives the same UUID |
| Uuid.NullTextIsNotUuid | gameregistry/src/main/java/es/us/dad/gameregistry/client/GameRegistryClient.java:373 | the text `null` that a missing id prints as is no UUID |
| Uuid.NumberTextIsNotUuid | gameregistry/src/main/java/es/us/dad/gameregistry/shared/domain/GameSession.java:23 | the printed text of a number is never a UUID |
| Calendar.CivilFromDays | gameregistry/src/main/java/es/us/dad/gameregistry/shared/domain/DomainObject.java:11-17 | the Gregorian date of a day count is a valid date, and converting it back gives the same day count |
| Calendar.CivilOfDays | gameregistry/src/main/java/es/us/dad/gameregistry/shared/domain/DomainObject.java:20-22 | every valid date is the date of its own day count, so the two conversions are inverses |
| Calendar.YearUnique | gameregistry/src/main/java/es/us/dad/gameregistry/shared/domain/DomainObject.java:11-17 | a day count lies in exactly one year |
| Calendar.MonthUnique | gameregistry/src/main/java/es/us/dad/gameregistry/shared/domain/DomainObject.java:11-17 | a day of a year lies in exactly one month |
| Calendar.LenientDays | gameregistry/src/main/java/es/us/dad/gameregistry/shared/domain/DomainObject.java:22 | for months 1..12 the lenient day count of a parsed date is the calendar's day count |
| SecondsDate.LocalFields | gameregistry/src/main/java/es/us/dad/gameregistry/shared/domain/DomainObject.java:11-17 | the printed fields of an instant in a zone are in range: month 1..12, a day of that month, hour, minute and second |
| SecondsDate.FormatDate | gameregistry/src/main/java/es/us/dad/gameregistry/shared/domain/DomainObject.java:13-18 | a null date gives null text and any date gives text |
| SecondsDate.ParseFormatted | gameregistry/src/main/java/es/us/dad/gameregistry/shared/domain/DomainObject.java:11-22 | parsing the printed text with the same pattern gives the printed fields back, with the year of the era |
| SecondsDate.ParseRendered | gameregistry/src/main/java/es/us/dad/gameregistry/shared/domain/DomainObject.java:11 | any in-range fields rendered with the pattern read back as themselves |
| SecondsDate.TakeZoneText | gameregistry/src/main/java/es/us/dad/gameregistry/shared/domain/DomainObject.java:11 | the `+hhmm` text of an offset reads back as that offset |
| SecondsDate.SecondsOfLocalFields | gameregistry/src/main/java/es/us/dad/gameregistry/shared/domain/DomainObject.java:11-17 | the printed fields name the instant's whole second: date ÷ 1000 |
| SecondsDate.ParseDate | gameregistry/src/main/java/es/us/dad/gameregistry/shared/domain/DomainObject.java:22 | a parsed date is a whole number of seconds |
| SecondsDate.ToDate | gameregistry/src/main/java/es/us/dad/gameregistry/shared/domain/DomainObject.java:20-26 | null becomes null with no throw; only a string can give a date, and then it is the parse of that string |
| SecondsDate.NumberTextIsNotDate | gameregistry/src/main/java/es/us/dad/gameregistry/shared/domain/DomainObject.java:22-24 | the printed text of a number never matches the pattern, so it reads as null |
| SecondsDate.TruncatedInRange | gameregistry/src/main/java/es/us/dad/gameregistry/shared/domain/DomainObject.java:22 | for a date printed with a year of at least 1, the date cut to whole seconds is still a `long` |
| SecondsDate.ToDateOfFormatDate | gameregistry/src/main/java/es/us/dad/gameregistry/shared/domain/DomainObject.java:13-26 | reading back a printed date gives the date cut to whole seconds, in every zone, for every year from 1 |
| MillisDate.FormatDate | gameregistry-client-example/src/main/java/es/us/dad/gameregistry/shared/domain/DomainObject.java:8-13 | null exactly for a null date; otherwise a number holding a `long` |
| MillisDate.ToDate | gameregistry-client-example/src/main/java/es/us/dad/gameregistry/shared/domain/DomainObject.java:15-21 | null reads as null; a number reads as itself when a `long` holds it; a string reads as its `long` parse; everything else reads as null |
| MillisDate.LongText | gameregistry-client-example/src/main/java/es/us/dad/gameregistry/shared/domain/DomainObject.java:17 | the decimal text of an integer parses back to it exactly when a `long` holds it |
| MillisDate.ToDateOfFormatDate | gameregistry-client-example/src/main/java/es/us/dad/gameregistry/shared/domain/DomainObject.java:8-21 | reading back a written date gives exactly the date, including null |
| MillisDate.NumberAndTextAgree | gameregistry-client-example/src/main/java/es/us/dad/gameregistry/shared/domain/DomainObject.java:17 | a number and its decimal text read as the same date |
| MillisDate.ToDateRefusesOverflow | gameregistry-client-example/src/main/java/es/us/dad/gameregistry/shared/domain/DomainObject.java:17-19 | digits beyond the `long` range read as null |
| Http.CredentialHeaders | gameregistry/src/main/java/es/us/dad/gameregistry/client/GameRegistryClient.java:400-401 | exactly the two headers `gameregistry-user` and `gameregistry-token`, holding the user and the token |
| Http.Request.PutHeader | gameregistry/src/main/java/es/us/dad/gameregistry/client/Client.java:157-158 | the named header gets the value; every other header, the verb, the path and the body stay as they were |
| SharedSession.DecodeId | gameregistry/src/main/java/es/us/dad/gameregistry/shared/domain/GameSession.java:23 | a null id throws a NullPointerException; reading succeeds exactly for a UUID string in the canonical layout, and gives its `fromString` (other text: see Left out) |
| SharedSession.DecodeUuidText | gameregistry/src/main/java/es/us/dad/gameregistry/shared/domain/GameSession.java:23 | succeeds exactly on canonical-layout text; other text gives the IllegalArgumentException naming it (see Left out) |
| SharedSession.DecodeText | gameregistry/src/main/java/es/us/dad/gameregistry/shared/domain/GameSession.java:24-25 | a missing key gives empty text; a present key fails exactly when its value is null, with a NullPointerException |
| SharedSession.Decode | gameregistry/src/main/java/es/us/dad/gameregistry/shared/domain/GameSession.java:20-28 | succeeds exactly when the id is a canonical-layout UUID string and user and game are not null; gives each field as its reader does |
| SharedSession.TextOrNull | gameregistry/src/main/java/es/us/dad/gameregistry/shared/domain/GameSession.java:35-36 | null exactly for a null field; otherwise the string |
| SharedSession.IdOrNull | gameregistry/src/main/java/es/us/dad/gameregistry/shared/domain/GameSession.java:34 | null exactly for a null id; otherwise its canonical text |
| SharedSession.Encode | gameregistry/src/main/java/es/us/dad/gameregistry/shared/domain/GameSession.java:31-41 | exactly the five keys; the id as its text, user and game as they are, each date as formatted text or null |
| SharedSession.Truncated | gameregistry/src/main/java/es/us/dad/gameregistry/shared/domain/DomainObject.java:13-26 | null for null; otherwise the whole second at or below the date |
| SharedSession.DateRoundTrip | gameregistry/src/main/java/es/us/dad/gameregistry/shared/domain/DomainObject.java:13-26 | a date entry written and read back is the date cut to whole seconds, and null stays null |
| SharedSession.DecodeEncode | gameregistry/src/main/java/es/us/dad/gameregistry/shared/domain/GameSession.java:20-41 | the map of a session with id, user and game reads back as that session, with its dates cut to whole seconds |
| SharedSession.EncodeWithoutIdIsRejected | gameregistry/src/main/java/es/us/dad/gameregistry/shared/domain/GameSession.java:23-34 | the map of a session without an id cannot be read back: NullPointerException |
| SharedSession.EncodeWithoutUserOrGameIsRejected | gameregistry/src/main/java/es/us/dad/gameregistry/shared/domain/GameSession.java:24-36 | the map of a session with a null user or game cannot be read back |
| SharedSession.MissingTextIsEmpty | gameregistry/src/main/java/es/us/dad/gameregistry/shared/domain/GameSession.java:24-25 | a map without user and game reads as empty user and game |
| SharedSession.GameSession.constructor | gameregistry/src/main/java/es/us/dad/gameregistry/shared/domain/GameSession.java:16-18 | every field starts null |
| SharedSession.GameSession.FromJsonMap | gameregistry/src/main/java/es/us/dad/gameregistry/shared/domain/GameSession.java:20-28 | throws exactly what `Decode` fails with; otherwise a fresh object holding `Decode`'s session |
| SharedSession.GameSession.ToJsonMap | gameregistry/src/main/java/es/us/dad/gameregistry/shared/domain/GameSession.java:31-41 | the map filled one `put` at a time is `Encode` of the object's fields |
| SharedSession.GameSession.SetId | gameregistry/src/main/java/es/us/dad/gameregistry/shared/domain/GameSession.java:52-54 | the id is replaced and nothing else changes |
| SharedSession.GameSession.SetUser | gameregistry/src/main/java/es/us/dad/gameregistry/shared/domain/GameSession.java:60-62 | the user is replaced and nothing else changes |
| SharedSession.GameSession.SetGame | gameregistry/src/main/java/es/us/dad/gameregistry/shared/domain/GameSession.java:68-70 | the game is replaced and nothing else changes |
| SharedSession.GameSession.SetStart | gameregistry/src/main/java/es/us/dad/gameregistry/shared/domain/GameSession.java:76-78 | the start is replaced and nothing else changes |
| SharedSession.GameSession.SetEnd | gameregistry/src/main/java/es/us/dad/gameregistry/shared/domain/GameSession.java:84-86 | the end is replaced and nothing else changes |
| ExampleSession.DecodeText | gameregistry-client-example/src/main/java/es/us/dad/gameregistry/shared/domain/GameSession.java:27-28 | fails exactly when the entry is missing or null, with a NullPointerException; a string is read as itself |
| ExampleSession.DecodeResult | gameregistry-client-example/src/main/java/es/us/dad/gameregistry/shared/domain/GameSession.java:31 | null stays null; a map is kept; anything else fails the cast (ClassCastException) |
| ExampleSession.Decode | gameregistry-client-example/src/main/java/es/us/dad/gameregistry/shared/domain/GameSession.java:23-32 | succeeds exactly when the id is a canonical-layout UUID string, user and game are not null, and result is null or a map; gives each field |
| ExampleSession.MapOrNull | gameregistry-client-example/src/main/java/es/us/dad/gameregistry/shared/domain/GameSession.java:43 | null exactly for a null result; otherwise the map itself |
| ExampleSession.Encode | gameregistry-client-example/src/main/java/es/us/dad/gameregistry/shared/domain/GameSession.java:35-46 | exactly the six keys, each holding its field, with dates as milliseconds |
| ExampleSession.DecodeEncode | gameregistry-client-example/src/main/java/es/us/dad/gameregistry/shared/domain/GameSession.java:23-46 | the map of a session with id, user and game reads back as exactly that session |
| ExampleSession.EncodeWithNullIsRejected | gameregistry-client-example/src/main/java/es/us/dad/gameregistry/shared/domain/GameSession.java:26-40 | the map of a session without id, user or game cannot be read back: NullPointerException |
| ExampleSession.GameSession.constructor | gameregistry-client-example/src/main/java/es/us/dad/gameregistry/shared/domain/GameSession.java:17-19 | every field starts null |
| ExampleSession.GameSession.FromJsonMap | gameregistry-client-example/src/main/java/es/us/dad/gameregistry/shared/domain/GameSession.java:23-32 | throws exactly what `Decode` fails with; otherwise a fresh object holding `Decode`'s session |
| ExampleSession.GameSession.ToJsonMap | gameregistry-client-example/src/main/java/es/us/dad/gameregistry/shared/domain/GameSession.java:35-46 | the map filled one `put` at a time is `Encode` of the object's fields |
| ExampleSession.GameSession.SetId | gameregistry-client-example/src/main/java/es/us/dad/gameregistry/shared/domain/GameSession.java:57-59 | the id is replaced and nothing else changes |
| ExampleSession.GameSession.SetUser | gameregistry-client-example/src/main/java/es/us/dad/gameregistry/shared/domain/GameSession.java:65-67 | the user is replaced and nothing else changes |
| ExampleSession.GameSession.SetGame | gameregistry-client-example/src/main/java/es/us/dad/gameregistry/shared/domain/GameSession.java:73-75 | the game is replaced and nothing else changes |
| ExampleSession.GameSession.SetStart | gameregistry-client-example/src/main/java/es/us/dad/gameregistry/shared/domain/GameSession.java:81-83 | the start is replaced and nothing else changes |
| ExampleSession.GameSession.SetEnd | gameregistry-client-example/src/main/java/es/us/dad/gameregistry/shared/domain/GameSession.java:89-91 | the end is replaced and nothing else changes |
| ExampleSession.GameSession.SetResult | gameregistry-client-example/src/main/java/es/us/dad/gameregistry/shared/domain/GameSession.java:97-99 | the result is replaced and nothing else changes |
| LegacySession.Format | gameregistry/src/main/java/es/us/dad/gameregistry/GameSession.java:25 | formatting fails exactly on a null date, with a NullPointerException; otherwise the pattern's text |
| LegacySession.EndEntry | gameregistry/src/main/java/es/us/dad/gameregistry/GameSession.java:26 | as written: a missing end throws a NullPointerException, and a present end is written as null |
| LegacySession.IntendedEndEntry | gameregistry/src/main/java/es/us/dad/gameregistry/GameSession.java:26 | as intended: null exactly when there is no end |
| LegacySession.EndEntryLosesEnd | gameregistry/src/main/java/es/us/dad/gameregistry/GameSession.java:26 | the written entry and the intended one differ for every end, present or missing |
| LegacySession.IntendedEndEntryRoundTrip | gameregistry/src/main/java/es/us/dad/gameregistry/GameSession.java:26 | the intended entry reads back as the end cut to whole seconds |
| LegacySession.GameSession.constructor | gameregistry/src/main/java/es/us/dad/gameregistry/GameSession.java:11-13 | every field starts null |
| LegacySession.GameSession.ToJson | gameregistry/src/main/java/es/us/dad/gameregistry/GameSession.java:22-29 | succeeds exactly when id, start and end are all set, otherwise a NullPointerException; three keys with the id text, the formatted start and a null end |
| LegacySession.GameSession.FromJson | gameregistry/src/main/java/es/us/dad/gameregistry/GameSession.java:17-19 | reading from JSON changes no field |
| RegistryResponse.DecodeElements | gameregistry/src/main/java/es/us/dad/gameregistry/client/GameRegistryResponse.java:127-130 | a decoded array has one session per element |
| RegistryResponse.DecodeElementsEach | gameregistry/src/main/java/es/us/dad/gameregistry/client/GameRegistryResponse.java:127-130 | the array decodes exactly when every element does, and session `i` is element `i` decoded |
| RegistryResponse.PrefixFailure | gameregistry/src/main/java/es/us/dad/gameregistry/client/GameRegistryResponse.java:127-130 | once a prefix of the array fails, the whole array fails with the same exception |
| RegistryResponse.FirstFailure | gameregistry/src/main/java/es/us/dad/gameregistry/client/GameRegistryResponse.java:127-141 | the array fails with the exception of its first element that fails |
| RegistryResponse.DecodeBody | gameregistry/src/main/java/es/us/dad/gameregistry/client/GameRegistryResponse.java:120-137 | an array gives its elements' sessions, an object gives one session, any other value gives none |
| RegistryResponse.Classify | gameregistry/src/main/java/es/us/dad/gameregistry/client/GameRegistryResponse.java:100-112 | the response always keeps the HTTP response it came from |
| RegistryResponse.SuccessStatusIsOkOrInvalid | gameregistry/src/main/java/es/us/dad/gameregistry/client/GameRegistryResponse.java:106-143 | a 2xx status gives OK or INVALID_RESPONSE and nothing else |
| RegistryResponse.OtherStatusIsUnknown | gameregistry/src/main/java/es/us/dad/gameregistry/client/GameRegistryResponse.java:145-219 | any other status gives UNKNOWN with no sessions and no exception |
| RegistryResponse.EmptyBodyIsOk | gameregistry/src/main/java/es/us/dad/gameregistry/client/GameRegistryResponse.java:116-118 | a 2xx with an empty body is OK with null sessions |
| RegistryResponse.ArrayBodyIsOk | gameregistry/src/main/java/es/us/dad/gameregistry/client/GameRegistryResponse.java:124-137 | a 2xx whose array decodes element by element is OK with those sessions in order |
| RegistryResponse.ObjectBodyIsOk | gameregistry/src/main/java/es/us/dad/gameregistry/client/GameRegistryResponse.java:132-137 | a 2xx whose object decodes is OK with that one session |
| RegistryResponse.ScalarBodyIsOk | gameregistry/src/main/java/es/us/dad/gameregistry/client/GameRegistryResponse.java:121-137 | a 2xx whose body is neither array nor object is OK with no sessions |
| RegistryResponse.UnparseableBodyIsInvalid | gameregistry/src/main/java/es/us/dad/gameregistry/client/GameRegistryResponse.java:121-141 | a 2xx body that is not JSON gives INVALID_RESPONSE carrying the parse exception |
| RegistryResponse.BadElementIsInvalid | gameregistry/src/main/java/es/us/dad/gameregistry/client/GameRegistryResponse.java:127-141 | a 2xx array with a bad element gives INVALID_RESPONSE, no sessions, and the first element's exception |
| RegistryResponse.BadObjectIsInvalid | gameregistry/src/main/java/es/us/dad/gameregistry/client/GameRegistryResponse.java:132-141 | a 2xx object that does not decode gives INVALID_RESPONSE with its exception |
| RegistryResponse.GameRegistryResponse.constructor | gameregistry/src/main/java/es/us/dad/gameregistry/client/GameRegistryResponse.java:79-84 | UNKNOWN, with null sessions, HTTP response and exception |
| RegistryResponse.GameRegistryResponse.FromHttpResponse | gameregistry/src/main/java/es/us/dad/gameregistry/client/GameRegistryResponse.java:100-112 | a fresh response whose fields are `Classify` of the HTTP response and body |
| RegistryResponse.GameRegistryResponse.ParseOkResponse | gameregistry/src/main/java/es/us/dad/gameregistry/client/GameRegistryResponse.java:115-143 | the fields after the update are `ParseOk` of the fields before |
| RegistryResponse.GameRegistryResponse.ParseNonOkResponse | gameregistry/src/main/java/es/us/dad/gameregistry/client/GameRegistryResponse.java:145-219 | the fields after the update are `ParseNonOk` of the fields before |
| RegistryResponse.GameRegistryResponse.DecodeSessionArray | gameregistry/src/main/java/es/us/dad/gameregistry/client/GameRegistryResponse.java:126-130 | the index loop decodes the array exactly as `DecodeElements`, stopping at the first failure |
| RegistryClient.SplitAddress | gameregistry/src/main/java/es/us/dad/gameregistry/client/GameRegistryClient.java:111-128 | no colon gives the whole address and port 8080; otherwise the text before the first colon and the `int` after it, or the NumberFormatException of that text |
| RegistryClient.LookupDecision | gameregistry/src/main/java/es/us/dad/gameregistry/client/GameRegistryClient.java:138-153 | succeeds exactly on a non-null address; a null result and NXDOMAIN become UnknownHostExceptions with their messages; any other cause passes through |
| RegistryClient.NxDomainBecomesUnknownHost | gameregistry/src/main/java/es/us/dad/gameregistry/client/GameRegistryClient.java:147-148 | an NXDOMAIN failure never reaches the caller as it is |
| RegistryClient.BasePathAsWritten | gameregistry/src/main/java/es/us/dad/gameregistry/client/GameRegistryClient.java:223-230 | as written: an empty argument throws; an argument without a trailing `/` is stored as it is; otherwise a prefix of the old base path, or an index exception |
| RegistryClient.IntendedBasePath | gameregistry/src/main/java/es/us/dad/gameregistry/client/GameRegistryClient.java:223-230 | as intended: fails exactly on an empty argument |
| RegistryClient.IntendedBasePathStripsSlash | gameregistry/src/main/java/es/us/dad/gameregistry/client/GameRegistryClient.java:224-227 | the intended path is the argument less exactly one trailing `/`, and is unchanged without one |
| RegistryClient.BasePathAgreement | gameregistry/src/main/java/es/us/dad/gameregistry/client/GameRegistryClient.java:224-227 | as written and as intended agree exactly when there is no trailing `/`, or the old path already starts with the stripped argument |
| RegistryClient.BasePathUsesOldValue | gameregistry/src/main/java/es/us/dad/gameregistry/client/GameRegistryClient.java:225 | from the default base path, `/v2/` is stored as `/ap` where `/v2` was meant |
| RegistryClient.ExceptionResponse | gameregistry/src/main/java/es/us/dad/gameregistry/client/GameRegistryClient.java:476-484 | a transport exception gives UNKNOWN, with null sessions, HTTP response and exception |
| RegistryClient.GameRegistryClient.constructor | gameregistry/src/main/java/es/us/dad/gameregistry/client/GameRegistryClient.java:183-191 | host and port as given, base path `/api/v1`, empty user and token |
| RegistryClient.GameRegistryClient.Create | gameregistry/src/main/java/es/us/dad/gameregistry/client/GameRegistryClient.java:179-191 | a port outside 0..65535 gives InvalidAddressException; otherwise a fresh client with the defaults |
| RegistryClient.GameRegistryClient.CreateWithDefaultPort | gameregistry/src/main/java/es/us/dad/gameregistry/client/GameRegistryClient.java:167-169 | a fresh client on port 8080 with the defaults |
| RegistryClient.GameRegistryClient.CreateFromAddress | gameregistry/src/main/java/es/us/dad/gameregistry/client/GameRegistryClient.java:110-157 | the handler gets the split failure, or the lookup failure, or a fresh client on the resolved host; an out-of-range port throws out of the DNS callback instead |
| RegistryClient.GameRegistryClient.SetUser | gameregistry/src/main/java/es/us/dad/gameregistry/client/GameRegistryClient.java:198-201 | stores the user unchanged, returns the same client, and changes nothing else |
| RegistryClient.GameRegistryClient.SetToken | gameregistry/src/main/java/es/us/dad/gameregistry/client/GameRegistryClient.java:208-211 | stores the token unchanged, returns the same client, and changes nothing else |
| RegistryClient.GameRegistryClient.SetBasePath | gameregistry/src/main/java/es/us/dad/gameregistry/client/GameRegistryClient.java:223-230 | stores `BasePathAsWritten` of the old base path and the argument, or throws its exception and keeps the old one; nothing else changes |
| RegistryClient.GameRegistryClient.CreateHttpRequest | gameregistry/src/main/java/es/us/dad/gameregistry/client/GameRegistryClient.java:270-280 | a verb outside GET, POST, PUT and DELETE is refused first, then missing credentials; otherwise the request with exactly the two credential headers |
| RegistryClient.GameRegistryClient.AddUserTokenToRequest | gameregistry/src/main/java/es/us/dad/gameregistry/client/GameRegistryClient.java:396-403 | a null or empty user or token throws IllegalArgumentException; otherwise both headers are set and nothing else changes |
| RegistryClient.GameRegistryClient.GetSessions | gameregistry/src/main/java/es/us/dad/gameregistry/client/GameRegistryClient.java:290-299 | GET of base path + `/sessions` with the credentials, or the credentials exception |
| RegistryClient.GameRegistryClient.AddSession | gameregistry/src/main/java/es/us/dad/gameregistry/client/GameRegistryClient.java:332-344 | POST of base path + `/sessions` with the credentials and a JSON content type; the body is the session's map without `id`; a null session throws after the credentials check |
| RegistryClient.GameRegistryClient.GetSession | gameregistry/src/main/java/es/us/dad/gameregistry/client/GameRegistryClient.java:353-359 | a null id throws a NullPointerException before any check; otherwise GET of base path + `/sessions/` + id |
| RegistryClient.GameRegistryClient.UpdateSession | gameregistry/src/main/java/es/us/dad/gameregistry/client/GameRegistryClient.java:372-379 | a null session throws first; otherwise PUT of base path + `/sessions/` + the printed id with the full map as body |
| RegistryClient.GameRegistryClient.DeleteSession | gameregistry/src/main/java/es/us/dad/gameregistry/client/GameRegistryClient.java:388-394 | DELETE of base path + `/sessions/` + the printed id, where a null id prints as `null` |
| RegistryClient.GameRegistryClient.HandleHttpResponse | gameregistry/src/main/java/es/us/dad/gameregistry/client/GameRegistryClient.java:451-460 | a fresh response whose fields are `Classify` of the HTTP response and body |
| RegistryClient.GameRegistryClient.HandleException | gameregistry/src/main/java/es/us/dad/gameregistry/client/GameRegistryClient.java:476-484 | a fresh response that is `ExceptionResponse` of the exception |
| LegacyClient.HostTextAsWritten | gameregistry/src/main/java/es/us/dad/gameregistry/client/Client.java:67 | as written: a colon first throws an index exception at -1; otherwise the text before the colon less its last character |
| LegacyClient.IntendedHostText | gameregistry/src/main/java/es/us/dad/gameregistry/client/Client.java:58-67 | as intended: the colon-free text just before the first colon |
| LegacyClient.HostTextDropsLastCharacter | gameregistry/src/main/java/es/us/dad/gameregistry/client/Client.java:67 | for every non-empty host and port text, as written resolves the host less its last character, where the host was meant |
| LegacyClient.LeadingColonIsRejected | gameregistry/src/main/java/es/us/dad/gameregistry/client/Client.java:67 | an address that starts with its colon throws an index exception at -1 |
| LegacyClient.HostTextIsOneShort | gameregistry/src/main/java/es/us/dad/gameregistry/client/Client.java:67 | whenever as written succeeds, it is the intended text less its last character |
| LegacyClient.ParseAddress | gameregistry/src/main/java/es/us/dad/gameregistry/client/Client.java:52-72 | no colon resolves the whole address on port 8080; a port that is no `int` gives URISyntaxException first; otherwise as written's host text is resolved |
| LegacyClient.ParseAddressWithPort | gameregistry/src/main/java/es/us/dad/gameregistry/client/Client.java:58-67 | for every colon-free, non-empty host and `int` port text, `host:port` resolves the host less its last character, on the parsed port |
| LegacyClient.ParseAddressLeadingColon | gameregistry/src/main/java/es/us/dad/gameregistry/client/Client.java:64-67 | an address that starts with its colon and has an `int` port throws StringIndexOutOfBoundsException(-1), and nothing is resolved |
| LegacyClient.ParseAddressBadPort | gameregistry/src/main/java/es/us/dad/gameregistry/client/Client.java:64-71 | a port text that is no `int` gives URISyntaxException with the address and the message `Invalid port number.`, whatever the host (even empty), and nothing is resolved |
| LegacyClient.Client.constructor | gameregistry/src/main/java/es/us/dad/gameregistry/client/Client.java:77-85 | host and port as given |
| LegacyClient.Client.Create | gameregistry/src/main/java/es/us/dad/gameregistry/client/Client.java:45-47 | a port outside 0..65535 gives InvalidAddressException; otherwise a fresh client |
| LegacyClient.Client.CreateWithDefaultPort | gameregistry/src/main/java/es/us/dad/gameregistry/client/Client.java:41-43 | a fresh client on port 8080 |
| LegacyClient.Client.FromAddress | gameregistry/src/main/java/es/us/dad/gameregistry/client/Client.java:52-75 | the exception of `ParseAddress`, or the port check and a fresh client on the resolved host |
| LegacyClient.Client.AddUserTokenToRequest | gameregistry/src/main/java/es/us/dad/gameregistry/client/Client.java:155-160 | both headers exactly when user and token are non-empty, otherwise the request unchanged; a null user, or a null token beside a non-empty user, throws |
| LegacyClient.Client.GetLastGameSession | gameregistry/src/main/java/es/us/dad/gameregistry/client/Client.java:113-132 | GET of the printed host, `:`, the port and `/sessions/last`, with the credential headers only when both are non-empty |
| LegacyClient.Client.StartSession | gameregistry/src/main/java/es/us/dad/gameregistry/client/Client.java:134-153 | POST of the printed host, `:`, the port and `/session`, with the credential headers only when both are non-empty |
| LegacyClient.Client.HandleResponse | gameregistry/src/main/java/es/us/dad/gameregistry/client/Client.java:170-173 | each HTTP response is converted once and handed on once |

## Left out

- The Vert.x transport is left out: HTTP client, DNS client, callbacks, `request.end()`,
  body handlers and `AsyncResultImpl`. Each request method returns the request it would
  send. Each handler is a method from the event to what it hands on.
- DNS resolution is an input. `createFromAddress` takes the lookup outcome as a function,
  and the old `Client` takes the synchronous resolution the same way. `InetAddress` is
  opaque text, standing for its `toString`.
- The old `Client`'s `Response.fromHttpResponse` is an opaque converter, and
  `Response.java` is not part of this model.
- JSON text is not parsed. A response body is given as empty, unparseable (with its
  exception) or a parsed value. Request bodies are maps, not pretty-printed JSON text.
- JSON numbers are integers only. Non-integral numbers never occur in session maps.
- `toString` of a map or list value is a placeholder starting with its bracket. `HashMap`
  iteration order is not modelled.
- `SimpleDateFormat` is modelled only on the text it prints itself. These are left out:
  - lenient parsing of whitespace, signs and non-ASCII digits;
  - general time-zone names;
  - the Julian calendar before 1582;
  - zone offsets that are not whole minutes.
  Years below 1 print as the year of the era, so they cannot round-trip.
  `SecondsDate.ToDate` reads an instant that does not fit in a `long` as null.
- The JVM's default time zone is an input: the offset in whole minutes in force at each
  instant, which covers daylight-saving changes. Offsets that are not whole minutes and
  time-zone names are left out.
- Uuid.FromString / SharedSession.DecodeUuidText: only text in the canonical 36-character
  layout is read as a UUID. `UUID.fromString` also accepts shorter five-group hexadecimal
  text such as `1-2-3-4-5`, which the model refuses. A bad hexadecimal digit throws a
  NumberFormatException in Java, where the model gives the IllegalArgumentException. Both
  depend on the JDK version, so the model keeps to the layout that `UUID.toString` prints.
  `SharedSession.DecodeId`, `SharedSession.Decode` and `ExampleSession.Decode` inherit this.
  So do the exceptions that `RegistryResponse.BadElementIsInvalid` and
  `RegistryResponse.BadObjectIsInvalid` carry for such ids.
- JavaText.ParseInt / JavaText.ParseLong: only ASCII digits are read. `Character.digit`
  also accepts the other Unicode decimal digits, such as fullwidth `８０８０`, which the
  model refuses. This affects the port of an address and a millisecond date given as text.
- RegistryResponse.DecodeBody: the model takes the `isArray()` and `isObject()` branches of
  the source at face value, with the body given as any parsed JSON value. The body is built
  with `new JsonObject(text)`. With that constructor, an array or scalar body probably
  fails to decode. It then reaches the model as `Unparseable` and gives INVALID_RESPONSE, as
  `RegistryResponse.UnparseableBodyIsInvalid` states. If so, the array and scalar branches
  behind `RegistryResponse.ArrayBodyIsOk` and `RegistryResponse.ScalarBodyIsOk` are never
  reached.
- The shared `SimpleDateFormat` is not thread-safe, and concurrency is not modelled.
- The `filterParams` argument of `getSessions` is ignored by the source and is not
  modelled.
- The sessions of a response are held as session values, not `GameSession` objects.
  Aliasing between them is not modelled.
- Initialization stores a client's host but never passes it to its `HttpClient`, which
  gets only the port. Request paths are modelled as the source builds them.
- The `toString` methods of the sessions and the getters of the session classes are not
  modelled. Each getter returns its field.
- A null `basePath`, `address` or `verb` argument is not modelled, because these are
  plain strings. User and token are nullable.

## Findings

| source | as written | input that shows it | evidently intended | confidence | as-written member | corrected member |
|---|---|---|---|---|---|---|
| gameregistry/src/main/java/es/us/dad/gameregistry/client/GameRegistryClient.java:225 | a trailing `/` is stripped from the old base path field (`basepath`), cut to the new argument's length less one | `setBasePath("/v2/")` on a new client stores `/ap` | the argument less its trailing `/`, here `/v2` | not executed | RegistryClient.BasePathAsWritten (RegistryClient.BasePathUsesOldValue) | RegistryClient.IntendedBasePath (RegistryClient.IntendedBasePathStripsSlash, RegistryClient.BasePathAgreement) |
| gameregistry/src/main/java/es/us/dad/gameregistry/client/Client.java:67 | the host is the text before the colon less one more character, and a leading colon throws StringIndexOutOfBoundsException | `localhost:8080` resolves `localhos`; `:8080` throws | the whole text before the colon, here `localhost` | not executed | LegacyClient.HostTextAsWritten (LegacyClient.HostTextDropsLastCharacter, LegacyClient.LeadingColonIsRejected) | LegacyClient.IntendedHostText (LegacyClient.HostTextIsOneShort) |
| gameregistry/src/main/java/es/us/dad/gameregistry/GameSession.java:26 | the `end` entry formats the end only when it is null | a session with an end writes `"end": null`; one without throws a NullPointerException | the formatted end when there is one, null otherwise | not executed | LegacySession.EndEntry (LegacySession.EndEntryLosesEnd) | LegacySession.IntendedEndEntry (LegacySession.IntendedEndEntryRoundTrip) |

The classes keep the behaviour as written, because the source does:

- `RegistryClient.GameRegistryClient.SetBasePath` stores `BasePathAsWritten`.
- `LegacyClient.ParseAddress` resolves `HostTextAsWritten`.
- `LegacySession.GameSession.ToJson` writes `EndEntry`.

The corrected functions state what each of them should do.
