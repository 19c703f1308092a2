/** The chat endpoint's data contracts: the request handed to the
    orchestrator and the response it returns. */
module ChatModels {
  import opened Wrappers

  type byte = bv8

  /** A chat query. Only `question` is required; every other field defaults to
      `None`. `image` is carried but never read by the orchestrator. */
  datatype ChatRequest = ChatRequest(
    question: string,
    conversationHistory: Option<seq<string>> := None,
    detectedDisease: Option<string> := None,
    country: Option<string> := None,
    image: Option<seq<byte>> := None)

  /** The answer: exactly one text field. */
  datatype ChatResponse = ChatResponse(response: string)

  /** Python truthiness of an optional string: `None` and `""` are both false. */
  predicate HasText(o: Option<string>) {
    o.Some? && o.value != ""
  }

  /** Python truthiness of an optional list: `None` and `[]` are both false. */
  predicate HasItems(o: Option<seq<string>>) {
    o.Some? && o.value != []
  }

  /** A request built from a question alone leaves every optional field `None`. */
  lemma RequestDefaults(question: string)
    ensures var r := ChatRequest(question);
      r.question == question && r.conversationHistory == None && r.detectedDisease == None
      && r.country == None && r.image == None
  {
  }
}
