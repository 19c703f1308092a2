/** The query orchestrator: the fixed five-slot prompt template, the pure
    composition of the prompt from the request and what the collaborators
    return, and `ProcessQuery`, which gathers context and weather, invokes the
    language model and stores the exchange. The language model is an oracle
    from the prompt to its answer or an exception. */
module LlmService {
  import opened Wrappers
  import opened Text
  import opened Exceptions
  import opened ChatModels
  import opened ChromaService
  import opened WeatherService

  const NoDiseaseDetected := "No disease detected in the image"
  const DiseaseInformation := "Disease Information: "

  // The static text of the template, around its five slots.
  const Preamble: string :=
    "\n" +
    "You are an expert in agriculture, specializing in detecting plant diseases, their causes, symptoms, treatments, and prevention strategies. \n" +
    "You also advise on the best plants to grow based on weather conditions (temperature, humidity) and provide reasoning for your recommendations to maximize benefits like yield and resilience.\n" +
    "\n" +
    "IMPORTANT: When a plant disease is detected in an uploaded image, format your response in Markdown with the following structure:\n" +
    "- Use `## Detected Disease: [disease_name]` as a heading.\n" +
    "- Use `### Symptoms`, `### Causes`, `### Treatment Options`, and `### Prevention Strategies` as subheadings.\n" +
    "- Use bold (`**text**`) for emphasis and bullet points (`- `) for lists.\n" +
    "- Provide comprehensive information under each section.\n" +
    "\n" +
    "Detected Disease: "
  const AfterDisease: string :=
    "\n" +
    "If a disease has been detected in the uploaded image, provide comprehensive information about this specific disease following the Markdown structure above. Be very thorough in your explanation and recommendations.\n" +
    "\n" +
    "Conversation History:\n"
  const AfterHistory: string := "\n\nContext from Memory:\n"
  const AfterContext: string := "\n\nWeather Data (if applicable):\n"
  const AfterWeather: string := "\n\nUser Question: "
  const Closing: string := "\nAssistant:\n"

  /** The static text of a five-slot template: the piece before each slot and
      the closing piece. */
  datatype Template = Template(
    beforeDisease: string, beforeHistory: string, beforeContext: string,
    beforeWeather: string, beforeQuestion: string, closing: string)

  /** The prompt template of the orchestrator. */
  const PromptTemplate := Template(Preamble, AfterDisease, AfterHistory, AfterContext, AfterWeather, Closing)

  /** The values substituted into the template's slots. */
  datatype PromptInput = PromptInput(
    detectedDisease: string, conversationHistory: string, context: string,
    weatherData: string, question: string)

  /** The number of characters a template itself contributes. */
  function StaticLength(t: Template): nat {
    |t.beforeDisease| + |t.beforeHistory| + |t.beforeContext| + |t.beforeWeather| + |t.beforeQuestion| + |t.closing|
  }

  /** The template with its slots filled, in the order disease, history,
      context, weather, question. */
  function Fill(t: Template, i: PromptInput): (p: string)
    ensures |p| == StaticLength(t) + |i.detectedDisease| + |i.conversationHistory|
                   + |i.context| + |i.weatherData| + |i.question|
  {
    t.beforeDisease + (i.detectedDisease + (t.beforeHistory + (i.conversationHistory + (t.beforeContext
      + (i.context + (t.beforeWeather + (i.weatherData + (t.beforeQuestion + (i.question + t.closing)))))))))
  }

  /** The lengths of the first four values, which fix where every slot lies. */
  datatype SlotLengths = SlotLengths(disease: nat, history: nat, context: nat, weather: nat)

  function LengthsOf(i: PromptInput): SlotLengths {
    SlotLengths(|i.detectedDisease|, |i.conversationHistory|, |i.context|, |i.weatherData|)
  }

  /** What follows `piece` in `s`, when `s` starts with it. */
  function Expect(piece: string, s: string): (r: Option<string>)
    ensures r.Some? <==> piece <= s
    ensures r.Some? ==> s == piece + r.value
  {
    if piece <= s then
      assert s == s[..|piece|] + s[|piece|..];
      Some(s[|piece|..])
    else None
  }

  /** What precedes `closing` in `s`, when `s` ends with it. */
  function BeforeClosing(closing: string, s: string): (r: Option<string>)
    ensures r.Some? ==> s == r.value + closing
  {
    if |closing| <= |s| && s[|s| - |closing|..] == closing then
      assert s == s[..|s| - |closing|] + s[|s| - |closing|..];
      Some(s[..|s| - |closing|])
    else None
  }

  /** Reads the five values back out of a filled template, left to right,
      given the lengths of the first four: `None` unless each static piece
      stands where the lengths put it. */
  function Parse(t: Template, p: string, n: SlotLengths): Option<PromptInput>
  {
    match Expect(t.beforeDisease, p)
    case None => None
    case Some(s1) =>
      if |s1| < n.disease then None else
      match Expect(t.beforeHistory, s1[n.disease..])
      case None => None
      case Some(s2) =>
        if |s2| < n.history then None else
        match Expect(t.beforeContext, s2[n.history..])
        case None => None
        case Some(s3) =>
          if |s3| < n.context then None else
          match Expect(t.beforeWeather, s3[n.context..])
          case None => None
          case Some(s4) =>
            if |s4| < n.weather then None else
            match Expect(t.beforeQuestion, s4[n.weather..])
            case None => None
            case Some(s5) =>
              match BeforeClosing(t.closing, s5)
              case None => None
              case Some(question) =>
                Some(PromptInput(s1[..n.disease], s2[..n.history], s3[..n.context], s4[..n.weather], question))
  }

  lemma ExpectPrefix(piece: string, rest: string)
    ensures Expect(piece, piece + rest) == Some(rest)
  {
    assert (piece + rest)[|piece|..] == rest;
  }

  lemma BeforeClosingSuffix(q: string, closing: string)
    ensures BeforeClosing(closing, q + closing) == Some(q)
  {
    var s := q + closing;
    assert s[|s| - |closing|..] == closing;
    assert s[..|s| - |closing|] == q;
  }

  lemma CutAt(x: string, rest: string)
    ensures (x + rest)[..|x|] == x && (x + rest)[|x|..] == rest
  {
  }

  /** Every value stands in its own slot: reading the slots back gives the
      values. */
  lemma ParseFill(t: Template, i: PromptInput)
    ensures Parse(t, Fill(t, i), LengthsOf(i)) == Some(i)
  {
    var r10 := i.question + t.closing;
    var r9 := t.beforeQuestion + r10;
    var r8 := i.weatherData + r9;
    var r7 := t.beforeWeather + r8;
    var r6 := i.context + r7;
    var r5 := t.beforeContext + r6;
    var r4 := i.conversationHistory + r5;
    var r3 := t.beforeHistory + r4;
    var r2 := i.detectedDisease + r3;
    ExpectPrefix(t.beforeDisease, r2);
    CutAt(i.detectedDisease, r3);
    ExpectPrefix(t.beforeHistory, r4);
    CutAt(i.conversationHistory, r5);
    ExpectPrefix(t.beforeContext, r6);
    CutAt(i.context, r7);
    ExpectPrefix(t.beforeWeather, r8);
    CutAt(i.weatherData, r9);
    ExpectPrefix(t.beforeQuestion, r10);
    BeforeClosingSuffix(i.question, t.closing);
  }

  /** A filled template is nothing but its static text with the five values
      between the pieces: text that parses is the filling of what it parses
      to. */
  lemma FillParse(t: Template, p: string, n: SlotLengths)
    requires Parse(t, p, n).Some?
    ensures Fill(t, Parse(t, p, n).value) == p
  {
    var s1 := Expect(t.beforeDisease, p).value;
    var s2 := Expect(t.beforeHistory, s1[n.disease..]).value;
    var s3 := Expect(t.beforeContext, s2[n.history..]).value;
    var s4 := Expect(t.beforeWeather, s3[n.context..]).value;
    var s5 := Expect(t.beforeQuestion, s4[n.weather..]).value;
    var q := BeforeClosing(t.closing, s5).value;
    Reassemble(t, p, n, s1, s2, s3, s4, s5, q);
  }

  /** Text read left to right into the template's pieces and values is their
      concatenation. */
  lemma Reassemble(t: Template, p: string, n: SlotLengths,
                   s1: string, s2: string, s3: string, s4: string, s5: string, q: string)
    requires Expect(t.beforeDisease, p) == Some(s1) && |s1| >= n.disease
    requires Expect(t.beforeHistory, s1[n.disease..]) == Some(s2) && |s2| >= n.history
    requires Expect(t.beforeContext, s2[n.history..]) == Some(s3) && |s3| >= n.context
    requires Expect(t.beforeWeather, s3[n.context..]) == Some(s4) && |s4| >= n.weather
    requires Expect(t.beforeQuestion, s4[n.weather..]) == Some(s5)
    requires BeforeClosing(t.closing, s5) == Some(q)
    ensures p == Fill(t, PromptInput(s1[..n.disease], s2[..n.history], s3[..n.context], s4[..n.weather], q))
  {
    Glue(s4, n.weather, t.beforeQuestion, s5);
    Glue(s3, n.context, t.beforeWeather, s4);
    Glue(s2, n.history, t.beforeContext, s3);
    Glue(s1, n.disease, t.beforeHistory, s2);
  }

  /** A value of length `k` followed by a static piece and the rest. */
  lemma Glue(s: string, k: nat, piece: string, rest: string)
    requires k <= |s| && Expect(piece, s[k..]) == Some(rest)
    ensures s == s[..k] + (piece + rest)
  {
    assert s == s[..k] + s[k..];
  }

  // ---------------------------------------------------------------------------
  // What the orchestrator substitutes into the slots

  /** The disease slot: the label when there is one, otherwise the fixed
      "No disease detected in the image" text; never empty. */
  function DiseaseSlot(detectedDisease: Option<string>): (r: string)
    ensures r != ""
    ensures HasText(detectedDisease) ==> r == detectedDisease.value
    ensures !HasText(detectedDisease) ==> r == NoDiseaseDetected
  {
    if HasText(detectedDisease) then detectedDisease.value else NoDiseaseDetected
  }

  /** The history slot: the utterances one after another, a line break
      between neighbours, or the empty string when there are none. Read line
      by line it gives the lines of each utterance in turn, so an utterance
      without line breaks is one line of it. */
  function HistoryBlock(history: Option<seq<string>>): (r: string)
    ensures !HasItems(history) ==> r == ""
    ensures HasItems(history) ==> Split(r, '\n') == SplitEach(history.value, '\n')
    ensures HasItems(history) && (forall k :: 0 <= k < |history.value| ==> SingleLine(history.value[k]))
            ==> Split(r, '\n') == history.value
  {
    if HasItems(history) then
      var utterances := history.value;
      SplitJoinEach(utterances, '\n');
      if forall k :: 0 <= k < |utterances| ==> SingleLine(utterances[k]) then
        SplitJoin(utterances, '\n');
        Join(utterances, "\n")
      else Join(utterances, "\n")
    else ""
  }

  /** The history Q1, A1, Q2 renders as three lines. */
  lemma HistoryExample()
    ensures HistoryBlock(Some(["Q1", "A1", "Q2"])) == "Q1\nA1\nQ2"
  {
    assert HasItems(Some(["Q1", "A1", "Q2"]));
    assert HistoryBlock(Some(["Q1", "A1", "Q2"])) == Join(["Q1", "A1", "Q2"], "\n");
    JoinCons("Q1", ["A1", "Q2"], "\n");
    JoinCons("A1", ["Q2"], "\n");
    assert Join(["Q2"], "\n") == "Q2";
  }

  /** The context slot: with a disease, the disease-keyed retrieval under its
      heading, a blank line, then the question-keyed retrieval; without one,
      the question-keyed retrieval alone. Nothing is removed from either, and
      the question-keyed block always ends the context. */
  function ContextBlock(detectedDisease: Option<string>, diseaseInfo: string, questionInfo: string): (r: string)
    ensures |questionInfo| <= |r| && r[|r| - |questionInfo|..] == questionInfo
    ensures HasText(detectedDisease) ==>
      && |r| == |DiseaseInformation| + |diseaseInfo| + 2 + |questionInfo|
      && r[..|DiseaseInformation|] == DiseaseInformation
      && r[|DiseaseInformation|..|DiseaseInformation| + |diseaseInfo|] == diseaseInfo
      && r[|DiseaseInformation| + |diseaseInfo|..|DiseaseInformation| + |diseaseInfo| + 2] == "\n\n"
    ensures !HasText(detectedDisease) ==> r == questionInfo
  {
    if HasText(detectedDisease) then
      var head := DiseaseInformation + diseaseInfo + "\n\n";
      var r := head + questionInfo;
      assert r[|head|..] == questionInfo;
      assert r[..|DiseaseInformation|] == (DiseaseInformation + diseaseInfo)[..|DiseaseInformation|];
      assert r[|DiseaseInformation| + |diseaseInfo|..|head|] == head[|DiseaseInformation| + |diseaseInfo|..];
      r
    else
      assert questionInfo[0..] == questionInfo;
      questionInfo
  }

  /** The weather slot: the weather summary for the country when one is given,
      and exactly the empty string otherwise (a summary is never empty). */
  function WeatherContribution(country: Option<string>, weather: WeatherService, today: string): (r: string)
    ensures r == "" <==> !HasText(country)
    ensures HasText(country) ==> r == weather.FetchWeatherSummary(country.value, today)
  {
    if HasText(country) then weather.FetchWeatherSummary(country.value, today) else ""
  }

  /** The values a request puts in the five slots, given what the two
      retrievals return. */
  function SlotsOf(request: ChatRequest, diseaseInfo: string, questionInfo: string,
                   weather: WeatherService, today: string): (r: PromptInput)
    ensures r.question == request.question
    ensures r.detectedDisease != ""
    ensures r.conversationHistory == "" <== !HasItems(request.conversationHistory)
    ensures r.weatherData == "" <==> !HasText(request.country)
    ensures |questionInfo| <= |r.context| && r.context[|r.context| - |questionInfo|..] == questionInfo
  {
    PromptInput(
      DiseaseSlot(request.detectedDisease),
      HistoryBlock(request.conversationHistory),
      ContextBlock(request.detectedDisease, diseaseInfo, questionInfo),
      WeatherContribution(request.country, weather, today),
      request.question)
  }

  /** A search with no match does not leave the context slot empty: the
      "No context found" text is put in the prompt as the question's context,
      unlike a failed search, which contributes nothing. */
  lemma NoMatchTextReachesPrompt(store: ContextStore, request: ChatRequest, diseaseInfo: string,
                                 weather: WeatherService, today: string)
    requires store.search(store.documents, request.question, DefaultNumDocs) == Retrieved([])
    ensures var context := SlotsOf(request, diseaseInfo, store.RetrieveContext(request.question), weather, today).context;
      |NoContextFound| <= |context| && context[|context| - |NoContextFound|..] == NoContextFound
  {
  }

  /** A bare question (no disease, no history, no country) still fills every
      slot: the fixed no-disease text, empty history and weather, and the
      question-keyed retrieval as the whole context. */
  lemma BareQuestionSlots(question: string, questionInfo: string, weather: WeatherService, today: string)
    ensures SlotsOf(ChatRequest(question), "", questionInfo, weather, today)
         == PromptInput(NoDiseaseDetected, "", questionInfo, "", question)
  {
  }

  // ---------------------------------------------------------------------------
  // The orchestrator

  class LlmService {
    /** The conversation memory it reads and writes. */
    const store: ContextStore
    /** The language model: a prompt to its answer, or the exception it raises. */
    const invoke: string -> Result<string, Exception>
    /** The prompt template, fixed when the service is built. */
    const template: Template

    constructor (store: ContextStore, invoke: string -> Result<string, Exception>)
      ensures this.store == store && this.invoke == invoke && template == PromptTemplate
    {
      this.store := store;
      this.invoke := invoke;
      this.template := PromptTemplate;
    }

    /** What the disease-keyed retrieval contributes for `request`: nothing
        when no disease is given. */
    function DiseaseInfo(request: ChatRequest): string
      reads store
    {
      if HasText(request.detectedDisease) then store.RetrieveContext(request.detectedDisease.value) else ""
    }

    /** The slot values for `request` against the store as it is now. */
    function SlotsFor(request: ChatRequest, weather: WeatherService, today: string): PromptInput
      reads store
    {
      SlotsOf(request, DiseaseInfo(request), store.RetrieveContext(request.question), weather, today)
    }

    /** The prompt `ProcessQuery` sends for `request` against the store as it
        is now. Reading its slots back gives, in template order, the disease
        slot, the history, the context, the weather text and the question; the
        rest of the prompt is the template's static text. */
    function PromptFor(request: ChatRequest, weather: WeatherService, today: string): (p: string)
      reads store
      ensures Parse(template, p, LengthsOf(SlotsFor(request, weather, today))) == Some(SlotsFor(request, weather, today))
    {
      ParseFill(template, SlotsFor(request, weather, today));
      Fill(template, SlotsFor(request, weather, today))
    }

    /** The orchestrator never reads the request's image: the slots and the
        prompt, hence the answer and what is stored, are the same whatever
        image the request carries. */
    lemma ImageIgnored(request: ChatRequest, image: Option<seq<byte>>, weather: WeatherService, today: string)
      ensures SlotsFor(request.(image := image), weather, today) == SlotsFor(request, weather, today)
      ensures PromptFor(request.(image := image), weather, today) == PromptFor(request, weather, today)
    {
    }

    /** Builds the prompt step by step: the context from the disease-keyed and
        question-keyed retrievals, then the weather text, the history and the
        disease slot, then the template filled with them. */
    method BuildPrompt(request: ChatRequest, weather: WeatherService, today: string) returns (formatted: string)
      ensures formatted == PromptFor(request, weather, today)
    {
      var context := "";
      if HasText(request.detectedDisease) {
        var diseaseInfo := store.RetrieveContext(request.detectedDisease.value);
        assert diseaseInfo == DiseaseInfo(request);
        context := context + DiseaseInformation + diseaseInfo + "\n\n";
        assert context == DiseaseInformation + DiseaseInfo(request) + "\n\n";
      }
      var questionContext := store.RetrieveContext(request.question);
      context := context + questionContext;

      var weatherData := if HasText(request.country) then weather.FetchWeatherSummary(request.country.value, today) else "";
      var history := if HasItems(request.conversationHistory) then Join(request.conversationHistory.value, "\n") else "";
      var disease := if HasText(request.detectedDisease) then request.detectedDisease.value else NoDiseaseDetected;

      assert context == ContextBlock(request.detectedDisease, DiseaseInfo(request), questionContext);
      assert weatherData == WeatherContribution(request.country, weather, today);
      assert history == HistoryBlock(request.conversationHistory);
      assert disease == DiseaseSlot(request.detectedDisease);
      formatted := Fill(template, PromptInput(disease, history, context, weatherData, request.question));
    }

    /** Answers a request. The model's answer is returned verbatim and the
        exchange stored after it; an exception from the model is re-raised and
        nothing is stored. No other step raises. */
    method ProcessQuery(request: ChatRequest, weather: WeatherService, today: string,
                        userStamp: string, replyStamp: string, fault: StoreFault)
      returns (r: Result<ChatResponse, Exception>)
      modifies store
      ensures var answer := invoke(old(PromptFor(request, weather, today)));
        && (answer.Success? ==> r == Success(ChatResponse(answer.value)))
        && (answer.Failure? ==> r == Failure(answer.error))
      ensures r.Failure? ==> store.documents == old(store.documents)
      ensures r.Success? ==>
        var added := ExchangeDocuments(request.question, r.value.response, userStamp, replyStamp);
        store.documents == old(store.documents) + (if fault == NoFault || fault == PersistFault then store.split(added) else [])
    {
      var formatted := BuildPrompt(request, weather, today);
      var answer := invoke(formatted);
      if answer.Failure? {
        return Failure(answer.error);
      }
      store.StoreConversation(request.question, answer.value, userStamp, replyStamp, fault);
      r := Success(ChatResponse(answer.value));
    }
  }
}
