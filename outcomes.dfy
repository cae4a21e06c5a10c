/** Values shared by every part of the model: optional values, results that
    carry one of the exceptions the Python code can raise, bytes, and the
    JSON values the portal answers with. */
module Outcomes {

  /** Python's `None` versus a present value. */
  datatype Option<+T> = None | Some(value: T)

  /** The exceptions that the modelled code raises or lets through. */
  datatype Error =
    | NotAuthenticatedError   // lanisapi.exceptions.NotAuthenticatedError
    | PageNotFoundError       // lanisapi.exceptions.PageNotFoundError
    | RequestError            // httpx.RequestError: a transport failure
    | AssertionError          // a failed `assert`
    | IndexError              // a list or bytes index out of range
    | KeyError                // a missing dictionary key
    | ValueError              // int(), strptime() or AES on malformed input
    | TypeError               // a call with a wrong argument, iteration over None
    | AttributeError          // a method called on None, an unset attribute
    | Base64Error             // binascii.Error from b64decode

  /** Either the value a Python expression returns or the exception it raises. */
  datatype Result<+T> = Ok(value: T) | Err(error: Error)

  type Byte = b: int | 0 <= b < 256

  /** A JSON value as `response.json()` produces it (numbers are integers). */
  datatype Json =
    | JNull
    | JBool(b: bool)
    | JNumber(n: int)
    | JString(s: string)
    | JArray(items: seq<Json>)
    | JObject(fields: map<string, Json>)

  /** Python's truth value of a decoded JSON value: `None`, `False`, `0`,
      `""`, `[]` and `{}` are falsy, everything else is truthy. */
  predicate Falsy(v: Json)
  {
    match v
    case JNull => true
    case JBool(b) => !b
    case JNumber(n) => n == 0
    case JString(s) => s == ""
    case JArray(items) => items == []
    case JObject(fields) => fields == map[]
  }

  /** Python's truth value of an optional string (`None` and `""` are falsy). */
  predicate TruthyText(s: Option<string>)
  {
    s.Some? && s.value != ""
  }
}
