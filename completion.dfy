/** The completion request built from the history and the sidebar's
    parameters, and what the foreign completion call can hand back. */
module Completion {
  import opened Transcript

  /** The sidebar selections read at request time. `temperature` is a float
      slider value in the source; here it is an uninterpreted pass-through. */
  datatype Params = Params(model: string, temperature: real, maxTokens: int)

  /** The arguments of one `chat.completions.create` call. */
  datatype Request = Request(
    messages: seq<WireMessage>,
    model: string,
    temperature: real,
    maxTokens: int)

  /** One element of the response's `choices` list. */
  datatype Choice = Choice(content: string)

  /** What the foreign call does: it raises (network, authentication, rate
      limit, API error), or it returns a response with some choices. */
  datatype CallResult = Raised | Returned(choices: seq<Choice>)

  /** The request for the given history: its message list carries the whole
      history and the three parameters pass through as selected. */
  function BuildRequest(history: seq<Message>, params: Params): (req: Request)
    ensures ParsePayload(req.messages) == Some(history)
    ensures req.model == params.model
    ensures req.temperature == params.temperature
    ensures req.maxTokens == params.maxTokens
  {
    PayloadRoundTrip(history);
    Request(Payload(history), params.model, params.temperature, params.maxTokens)
  }

  /** `choices[0].message.content`, or None when that expression fails:
      the call raised, or the response has no first choice. */
  function FirstChoiceContent(reply: CallResult): (c: Option<string>)
    ensures c.Some? <==> reply.Returned? && |reply.choices| > 0
    ensures c.Some? ==> c.value == reply.choices[0].content
  {
    match reply
    case Raised => None
    case Returned(choices) => if |choices| == 0 then None else Some(choices[0].content)
  }
}
