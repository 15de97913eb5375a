/**
 * The post-processing both `LLMService.parse_natural_language` methods share
 * (backend/llm_service.py and backend/llm_extraction/llm_service.py): the reply of the
 * Ollama `/api/generate` call is cleaned of code fences, parsed, checked for an
 * `items` array (a bare item is wrapped), and every failure becomes an error record.
 *
 * The HTTP call and `json.loads` are not modelled: the outcome of the call is a
 * `Transport` value, and `json.loads` is a function the caller supplies.
 */
module LlmReply {
  import opened PyText
  import opened JsonValue

  /** What `json.loads` (or `response.json()`) gives: a value, or the message of its JSONDecodeError. */
  datatype Decoded = Loaded(value: Json) | DecodeFailed(message: string)

  /** How `requests.post` ended. */
  datatype Transport =
    /** A response arrived: its status code and what `response.json()` gives. */
    | Responded(status: int, body: Decoded)
    /** `requests.exceptions.ConnectionError`, ConnectTimeout included. */
    | ConnectionFailed(message: string)
    /** `requests.exceptions.ReadTimeout`. */
    | TimedOut(message: string)
    /** Any other exception the call raises. */
    | OtherFailure(message: string)

  /**
   * The dict `parse_natural_language` returns.  `raw` of a failure is None when
   * the dict has no `raw_response` key, Some(None) when the key holds None.
   */
  datatype LlmResult =
    | Success(data: Json, rawResponse: string)
    | Failure(error: string, details: string, raw: Option<Option<string>>)

  const JsonFence: string := "```json"

  /** The cleaning of the reply text: trim, and when it opens with a fence, drop every fence and trim again. */
  function CleanResponse(text: string): string {
    var t := Strip(text);
    if StartsWith(t, JsonFence) then Strip(RemoveAll(RemoveAll(t, JsonFence), Fence))
    else if StartsWith(t, Fence) then Strip(RemoveAll(t, Fence))
    else t
  }

  const ApiError := "Ollama API error"
  const ParseError := "Failed to parse LLM response as JSON"
  const StructureError := "Invalid JSON structure"
  const ConnectError := "Cannot connect to Ollama"
  const TimeoutError := "Ollama request timeout"
  const ServiceError := "LLM service error"

  const ConnectDetails := "Make sure Ollama is running (ollama serve)"
  const MissingItems := "Missing 'items' array"

  /** The six error texts a failure can carry. */
  predicate FixedError(e: string) {
    e == ApiError || e == ParseError || e == StructureError || e == ConnectError || e == TimeoutError || e == ServiceError
  }

  /** The parsed value checked for `items`; a bare object with `type` and `title` is wrapped. */
  function Shape(parsed: Json, cleaned: string): (r: LlmResult)
    ensures r.Success? ==> r.rawResponse == cleaned && PyIn("items", r.data) == Ok(true)
    ensures r.Failure? ==> (r.error == ServiceError || r.error == StructureError) && r.raw.None?
  {
    match PyIn("items", parsed)
    case Err(message) => Failure(ServiceError, message, None)
    case Ok(hasItems) =>
      if hasItems then Success(parsed, cleaned)
      else if PyIn("type", parsed) == Ok(true) && PyIn("title", parsed) == Ok(true) then
        Success(JObj(map["items" := JArr([parsed])]), cleaned)
      else Failure(StructureError, MissingItems, None)
  }

  /** The body of `parse_natural_language` after the call, with the text given for a timeout. */
  function Interpret(reply: Transport, loads: string -> Decoded, timeoutDetails: string): (r: LlmResult)
    ensures r.Failure? ==> FixedError(r.error)
    ensures r.Failure? && r.raw.Some? ==> r.error == ParseError
    ensures r.Success? ==> PyIn("items", r.data) == Ok(true)
  {
    match reply
    case ConnectionFailed(_) => Failure(ConnectError, ConnectDetails, None)
    case TimedOut(_) => Failure(TimeoutError, timeoutDetails, None)
    case OtherFailure(message) => Failure(ServiceError, message, None)
    case Responded(status, body) =>
      if status != 200 then Failure(ApiError, "Status code: " + Decimal(status), None)
      else
        match body
        case DecodeFailed(message) => Failure(ParseError, message, Some(None))
        case Loaded(v) =>
          if !v.JObj? then Failure(ServiceError, NoAttribute(v, "get"), None)
          else
            var text := Get(v.fields, "response", JStr(""));
            if !text.JStr? then Failure(ServiceError, NoAttribute(text, "strip"), None)
            else
              var cleaned := CleanResponse(text.s);
              match loads(cleaned)
              case DecodeFailed(message) => Failure(ParseError, message, Some(Some(cleaned)))
              case Loaded(parsed) => Shape(parsed, cleaned)
  }

  // ---------------------------------------------------------------- cleaning

  /** A reply that opens with a fence comes out with no fence anywhere. */
  lemma CleanRemovesFences(text: string)
    requires StartsWith(Strip(text), Fence)
    ensures !Contains(CleanResponse(text), Fence)
  {
    var t := Strip(text);
    if StartsWith(t, JsonFence) {
      NoFenceAfterRemoval(RemoveAll(t, JsonFence));
      StripKeepsNoWord(RemoveAll(RemoveAll(t, JsonFence), Fence), Fence);
    } else {
      NoFenceAfterRemoval(t);
      StripKeepsNoWord(RemoveAll(t, Fence), Fence);
    }
  }

  /** A reply that does not open with a fence is only trimmed. */
  lemma CleanTrimsPlainText(text: string)
    requires !StartsWith(Strip(text), Fence)
    ensures CleanResponse(text) == Strip(text)
  {
  }

  /** Cleaning twice is cleaning once: the cleaned text is trimmed and opens with no fence. */
  lemma CleanIdempotent(text: string)
    ensures CleanResponse(CleanResponse(text)) == CleanResponse(text)
  {
    var c := CleanResponse(text);
    var t := Strip(text);
    if StartsWith(t, Fence) {
      CleanRemovesFences(text);
      assert !StartsWith(c, Fence);
      if StartsWith(t, JsonFence) {
        StripIdempotent(RemoveAll(RemoveAll(t, JsonFence), Fence));
      } else {
        StripIdempotent(RemoveAll(t, Fence));
      }
      assert Strip(c) == c;
      CleanTrimsPlainText(c);
    } else {
      CleanTrimsPlainText(text);
      StripIdempotent(text);
      CleanTrimsPlainText(c);
    }
  }

  // ---------------------------------------------------------------- the error records

  /** Every way the call itself fails maps to its fixed record, and nothing raises. */
  lemma TransportFailures(message: string, loads: string -> Decoded, timeoutDetails: string)
    ensures Interpret(ConnectionFailed(message), loads, timeoutDetails) == Failure(ConnectError, ConnectDetails, None)
    ensures Interpret(TimedOut(message), loads, timeoutDetails) == Failure(TimeoutError, timeoutDetails, None)
    ensures Interpret(OtherFailure(message), loads, timeoutDetails) == Failure(ServiceError, message, None)
  {
  }

  /** A status other than 200 is an API error that names the status. */
  lemma StatusNotOk(status: int, body: Decoded, loads: string -> Decoded, timeoutDetails: string)
    requires status != 200
    ensures Interpret(Responded(status, body), loads, timeoutDetails) == Failure(ApiError, "Status code: " + Decimal(status), None)
  {
  }

  /**
   * A parsed value: an object with `items` passes through, an object with `type` and
   * `title` is wrapped as the one item, any other object is an invalid structure, and
   * a number, bool or null is a service error.
   */
  lemma ShapeRule(parsed: Json, cleaned: string)
    ensures var r := Shape(parsed, cleaned);
      && (parsed.JObj? && "items" in parsed.fields ==> r == Success(parsed, cleaned))
      && (parsed.JObj? && "items" !in parsed.fields && "type" in parsed.fields && "title" in parsed.fields ==>
            r == Success(JObj(map["items" := JArr([parsed])]), cleaned))
      && (parsed.JObj? && "items" !in parsed.fields && !("type" in parsed.fields && "title" in parsed.fields) ==>
            r == Failure(StructureError, MissingItems, None))
      && (IsScalar(parsed) && !parsed.JStr? ==> r.Failure? && r.error == ServiceError)
  {
  }

  /** A reply whose text parses is judged by its shape, and a success carries the cleaned text. */
  lemma ParsedReply(f: Record, text: string, parsed: Json, loads: string -> Decoded, timeoutDetails: string)
    requires Get(f, "response", JStr("")) == JStr(text) && loads(CleanResponse(text)) == Loaded(parsed)
    ensures Interpret(Responded(200, Loaded(JObj(f))), loads, timeoutDetails) == Shape(parsed, CleanResponse(text))
  {
  }

  /** Text that does not parse is reported with the cleaned text; a body that does not parse, with None. */
  lemma UnparsedReply(f: Record, text: string, message: string, status: int, loads: string -> Decoded, timeoutDetails: string)
    requires Get(f, "response", JStr("")) == JStr(text) && loads(CleanResponse(text)) == DecodeFailed(message)
    ensures Interpret(Responded(200, Loaded(JObj(f))), loads, timeoutDetails) == Failure(ParseError, message, Some(Some(CleanResponse(text))))
    ensures Interpret(Responded(200, DecodeFailed(message)), loads, timeoutDetails) == Failure(ParseError, message, Some(None))
  {
  }
}
