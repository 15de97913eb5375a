/**
 * `LLMService.parse_natural_language` of backend/llm_service.py, the service behind
 * `/api/parse`, from the outcome of the HTTP call onwards.
 */
module ApiLlm {
  import opened JsonValue
  import opened LlmReply
  import ExtractionLlm

  const TimeoutDetails := "Request took too long"

  /** `parse_natural_language(user_input)` for the reply the call got. */
  function ParseNaturalLanguage(reply: Transport, loads: string -> Decoded): (r: LlmResult)
    ensures reply.TimedOut? ==> r == Failure(TimeoutError, TimeoutDetails, None)
    ensures r.Failure? ==> FixedError(r.error)
  {
    Interpret(reply, loads, TimeoutDetails)
  }

  /** The two services answer every reply alike, except for the details of a timeout. */
  lemma ServicesAgreeExceptTimeout(reply: Transport, loads: string -> Decoded)
    ensures !reply.TimedOut? ==> ParseNaturalLanguage(reply, loads) == ExtractionLlm.ParseNaturalLanguage(reply, loads)
    ensures reply.TimedOut? ==> ParseNaturalLanguage(reply, loads).details != ExtractionLlm.ParseNaturalLanguage(reply, loads).details
  {
    if reply.TimedOut? {
      assert |TimeoutDetails| != |ExtractionLlm.TimeoutDetails|;
    }
  }
}
