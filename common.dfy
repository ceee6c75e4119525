/**
 * Values shared by every module: Python's `None` as `Option`, and the exceptions the
 * modelled code raises as an explicit `Result`.
 */
module Common {

  datatype Option<T> = None | Some(value: T)

  /** The Python exception classes that the modelled code can raise. */
  datatype Exception =
    | ValueError         // int() of a malformed string, an unknown interval unit or enum value
    | IndexError         // indexing an empty string or list
    | KeyError           // set.remove or dict lookup of an absent key
    | TypeError          // comparing a datetime with None, or a dataclass built without a required field
    | ZeroDivisionError  // division by an interval or a period of zero
    | OverflowError      // a datetime stepped outside the years 1 to 9999

  datatype Result<T> = Ok(value: T) | Raised(error: Exception)

  /** A JSON value as a response or a websocket message carries it; an object keeps its keys in order. */
  datatype Json =
    | JNull
    | JBool(flag: bool)
    | JNum(number: real)
    | JStr(text: string)
    | JArr(items: seq<Json>)
    | JObj(fields: seq<(string, Json)>)

  /** A `raw_data` dictionary: the response or message, or the part of it, a record was built from. */
  type RawData = seq<(string, Json)>

  /** The outcome of a call into a collaborator (a broker or a provider): it returns or raises. */
  datatype Fetch<T> = Fetched(value: T) | Failed

  /** `d.get(key, default)` for a key whose value is `o`, or absent when `o` is `None`. */
  function GetOr<T>(o: Option<T>, default: T): T { if o.Some? then o.value else default }

  function Max(a: real, b: real): real { if a >= b then a else b }

  function Min(a: real, b: real): real { if a <= b then a else b }

  /** Python truthiness of an optional string: `None` and `""` are false. */
  predicate TruthyString(s: Option<string>) { s.Some? && s.value != "" }

  predicate StartsWith(s: string, prefix: string) {
    |prefix| <= |s| && s[..|prefix|] == prefix
  }

  predicate EndsWith(s: string, suffix: string) {
    |suffix| <= |s| && s[|s| - |suffix|..] == suffix
  }

  lemma ConcatAssoc<T>(a: seq<T>, b: seq<T>, c: seq<T>)
    ensures (a + b) + c == a + (b + c)
  {
  }
}
