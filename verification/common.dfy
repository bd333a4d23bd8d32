/** Small vocabulary shared by every handler of the system: optional values,
    Python truthiness of optional strings, and request bodies after JSON parsing. */
module Common {

  /** An attribute or claim that may be missing (Python `None`). */
  datatype Option<+T> = None | Some(value: T)

  /** Python truthiness of an optional string: `None` and `""` are both falsy. */
  predicate Truthy(o: Option<string>)
  {
    o.Some? && o.value != ""
  }

  /** How an f-string renders an optional string: a missing value prints as "None". */
  function Show(o: Option<string>): string
  {
    if o.Some? then o.value else "None"
  }

  /** An optional value as a sequence of zero or one elements. */
  function Opt<T>(o: Option<T>): seq<T>
  {
    if o.Some? then [o.value] else []
  }

  function Min(a: int, b: int): int
  {
    if a <= b then a else b
  }

  /** The `body` of an API Gateway event after `json.loads`: the key may be
      absent (the handlers then parse a default), the text may not parse to a
      JSON object at all, or it parses to an object of string-valued fields. */
  datatype RawBody = NoBody | Unparsable | Object(fields: map<string, string>)

  /** `json.loads(event.get('body', '{}'))` when it yields an object: an absent
      body parses as the empty object. */
  function Parsed(b: RawBody): Option<map<string, string>>
  {
    match b
    case NoBody => Some(map[])
    case Unparsable => None
    case Object(fields) => Some(fields)
  }

  /** The user id both API handlers substitute when running locally without a token. */
  const LOCAL_USER := "local-test-user"

  /** `dict.get(key)` on a parsed body. */
  function Field(fields: map<string, string>, key: string): Option<string>
  {
    if key in fields then Some(fields[key]) else None
  }

  /** `s` occurs in `text` as a contiguous piece. */
  ghost predicate Contains(text: string, s: string)
  {
    exists i :: OccursAt(text, s, i)
  }

  predicate OccursAt(text: string, s: string, i: int)
  {
    0 <= i && i + |s| <= |text| && text[i..i + |s|] == s
  }
}
