/** The shapes the handlers exchange with API Gateway: the parsed request
    body, query and path parameters as JSON values, the schema violations
    reported back, and the `(statusCode, body)` envelope that `buildResponse`
    serialises. */
module Gateway {
  import opened Payments

  /** A JSON value as far as the handlers look at it. Objects and arrays are
      not inspected, so they share one constructor. */
  datatype JsonValue =
    | JNull
    | JBool(b: bool)
    | JNumber(num: real)
    | JString(str: string)
    | JCompound

  /** JavaScript truthiness of an optional value (`undefined` is `None`). */
  predicate Truthy(v: Option<JsonValue>) {
    match v
    case None => false
    case Some(JNull) => false
    case Some(JBool(b)) => b
    case Some(JNumber(n)) => n != 0.0
    case Some(JString(s)) => s != ""
    case Some(JCompound) => true
  }

  /** JavaScript's `string.length`: the number of UTF-16 code units, one for
      a character below U+10000 and two (a surrogate pair) above it. */
  function Utf16Length(s: string): (n: nat)
    ensures |s| <= n <= 2 * |s|
    ensures n == |s| <==> forall i :: 0 <= i < |s| ==> (s[i] as int) < 0x1_0000
  {
    if s == [] then 0
    else (if (s[0] as int) < 0x1_0000 then 1 else 2) + Utf16Length(s[1..])
  }

  /** A character outside the Basic Multilingual Plane counts twice: the
      two-character string U+1F600 "A" has JavaScript length 3. */
  lemma AstralCharacterCountsTwice()
    ensures |"\U{1F600}A"| == 2 && Utf16Length("\U{1F600}A") == 3
  {
  }

  /** What `parseInput` yields: the fields of a JSON object, or a value the
      object schema rejects as a whole. */
  datatype ParsedBody = Object(fields: map<string, JsonValue>) | NotAnObject

  /** The request body: absent (null, undefined or ""), well-formed JSON, or
      text that is not JSON. */
  datatype RequestBody = NoBody | Json(parsed: ParsedBody) | Malformed

  /** `parseInput(event.body || "{}")`: a missing body reads as `{}`. */
  function ParseInput(body: RequestBody): ParsedBody {
    match body
    case NoBody => Object(map[])
    case Json(p) => p
    case Malformed => NotAnObject
  }

  /** Where a violation was found: the whole input, or one named field. */
  datatype Path = Root | Field(name: string)

  datatype JsonType = NumberType | StringType | ObjectType

  /** What was violated: a type, an inclusive or exclusive bound, or an exact
      length. */
  datatype Kind =
    | InvalidType(expected: JsonType)
    | TooSmall(minimum: int, inclusive: bool)
    | TooBig(maximum: int, inclusive: bool)
    | NotExactLength(length: int)

  datatype Violation = Violation(path: Path, kind: Kind)

  /** The response bodies the handlers build. */
  datatype Body =
    | Created(result: string)                                 // { result: id }
    | ErrorOnly(error: string)                                // { error }
    | ErrorWithDetails(error: string, details: seq<Violation>) // { error, details }
    | DataList(data: seq<Item>)                               // { data: [...] }
    | Record(item: Item)                                      // the stored item itself

  datatype Response = Response(statusCode: int, body: Body)

  const InternalServerError := "Internal server error"
}
