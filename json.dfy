/**
 * The JSON body rule shared by the resource base (parseJson) and the HTTP
 * client (parseResponse): blank content is an empty array, anything else must
 * decode, and the declared return type `array` rejects a decoded scalar.
 */
module Json {
  import opened Wrappers
  import opened OrderedMap
  import opened PhpValue
  import opened Errors

  /**
   * `json_decode($content, true)` followed by the `json_last_error()` test:
   * the decoded value, or the text of `json_last_error_msg()`.
   */
  type Decoder = string -> Result<Value, string>

  const NotAnArrayMessage := "Return value must be of type array"

  function ParseBody(content: string, decode: Decoder): (r: Result<OMap<Key, Value>, Error>)
    ensures Blank(content) ==> r == Success([])
    ensures !Blank(content) && decode(Trim(content)).Failure? ==>
              r == Failure(ResponseError(decode(Trim(content)).error))
    ensures !Blank(content) && decode(Trim(content)).Success? ==>
              match decode(Trim(content)).value
              case Arr(e) => r == Success(e)
              case _ => r == Failure(EngineError(NotAnArrayMessage))
  {
    TrimEmptyIffBlank(content);
    var trimmed := Trim(content);
    if trimmed == "" then Success([])
    else
      match decode(trimmed)
      case Failure(msg) => Failure(ResponseError(msg))
      case Success(v) => if v.Arr? then Success(v.entries) else Failure(EngineError(NotAnArrayMessage))
  }
}
