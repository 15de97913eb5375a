/**
 * `LLMService` of backend/llm_extraction/llm_service.py, the service the sync
 * orchestrator uses: `parse_natural_language` and the enrichment call
 * `extract_from_email`, from the outcome of the HTTP call onwards.  The prompts are
 * not modelled; the reply the call gets is a parameter.
 */
module ExtractionLlm {
  import opened PyText
  import opened JsonValue
  import opened LlmReply

  const TimeoutDetails := "Request took too long (>45s). Try a simpler query or use a faster model."

  /** `parse_natural_language(user_input)` for the reply the call got. */
  function ParseNaturalLanguage(reply: Transport, loads: string -> Decoded): (r: LlmResult)
    ensures reply.TimedOut? ==> r == Failure(TimeoutError, TimeoutDetails, None)
    ensures r.Failure? ==> FixedError(r.error)
  {
    Interpret(reply, loads, TimeoutDetails)
  }

  /** The dict `extract_from_email` returns. */
  datatype EmailResult = Extracted(data: Json) | NotExtracted(error: string)

  const RequestFailed := "LLM request failed"

  /** The cleaning of the enrichment reply: trim, and drop the fences only after a "```json" opening. */
  function CleanEmailReply(text: string): string {
    var t := Strip(text);
    if StartsWith(t, JsonFence) then Strip(RemoveAll(RemoveAll(t, JsonFence), Fence)) else t
  }

  /**
   * `extract_from_email(email_data)` for the reply the call got.  Every exception in
   * the `try` becomes a failure carrying its message; the parsed value is returned
   * without a shape check.
   */
  function ExtractFromEmail(reply: Transport, loads: string -> Decoded): (r: EmailResult)
    ensures reply.Responded? && reply.status != 200 ==> r == NotExtracted(RequestFailed)
    ensures !reply.Responded? ==> r == NotExtracted(reply.message)
  {
    match reply
    case ConnectionFailed(message) => NotExtracted(message)
    case TimedOut(message) => NotExtracted(message)
    case OtherFailure(message) => NotExtracted(message)
    case Responded(status, body) =>
      if status != 200 then NotExtracted(RequestFailed)
      else
        match body
        case DecodeFailed(message) => NotExtracted(message)
        case Loaded(v) =>
          if !v.JObj? then NotExtracted(NoAttribute(v, "get"))
          else
            var text := Get(v.fields, "response", JStr("{}"));
            if !text.JStr? then NotExtracted(NoAttribute(text, "strip"))
            else
              match loads(CleanEmailReply(text.s))
              case DecodeFailed(message) => NotExtracted(message)
              case Loaded(result) => Extracted(result)
  }

  // ---------------------------------------------------------------- properties

  /** Whatever the reply text parses to is the extracted data, a list or a number as much as a dict. */
  lemma ExtractNoShapeCheck(f: Record, text: string, result: Json, loads: string -> Decoded)
    requires Get(f, "response", JStr("{}")) == JStr(text) && loads(CleanEmailReply(text)) == Loaded(result)
    ensures ExtractFromEmail(Responded(200, Loaded(JObj(f))), loads) == Extracted(result)
  {
  }

  /** A reply with no `response` text is read as "{}". */
  lemma ExtractMissingResponse(f: Record, loads: string -> Decoded)
    requires "response" !in f && loads("{}") == Loaded(JObj(map[]))
    ensures ExtractFromEmail(Responded(200, Loaded(JObj(f))), loads) == Extracted(JObj(map[]))
  {
    StrippedIsFixed("{}");
    assert CleanEmailReply("{}") == "{}";
    assert Get(f, "response", JStr("{}")) == JStr("{}");
  }

  /** After a "```json" opening every fence goes; a plain "```" opening is kept, unlike in `parse_natural_language`. */
  lemma EmailCleaningOnlyJsonFence(text: string)
    ensures StartsWith(Strip(text), JsonFence) ==> !Contains(CleanEmailReply(text), Fence)
    ensures !StartsWith(Strip(text), JsonFence) ==> CleanEmailReply(text) == Strip(text)
  {
    var t := Strip(text);
    if StartsWith(t, JsonFence) {
      NoFenceAfterRemoval(RemoveAll(t, JsonFence));
      StripKeepsNoWord(RemoveAll(RemoveAll(t, JsonFence), Fence), Fence);
    }
  }

  /** The two cleanings part on a reply fenced with a bare "```". */
  lemma BareFenceCleanedDifferently()
    ensures CleanResponse("```{}```") == "{}"
    ensures CleanEmailReply("```{}```") == "```{}```"
  {
    var s := "```{}```";
    StrippedIsFixed(s);
    assert s[..|JsonFence|][3] != JsonFence[3];
    assert !StartsWith(s, JsonFence);
    assert s[..3] == Fence;
    RemoveFencesOfBraces();
    StrippedIsFixed("{}");
  }

  lemma RemoveFencesOfBraces()
    ensures RemoveAll("```{}```", Fence) == "{}"
  {
    var s := "```{}```";
    assert s[..3] == Fence && s[3..] == "{}```";
    var u := "{}```";
    assert u[..3] != Fence && u[1..] == "}```";
    var v := "}```";
    assert v[..3] != Fence && v[1..] == "```";
    assert RemoveAll("```", Fence) == [] by {
      assert "```"[..3] == Fence && "```"[3..] == [];
    }
  }
}
