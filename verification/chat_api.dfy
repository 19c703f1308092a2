/** The two chat endpoints: how each turns its form fields into a
    `ChatRequest`, hands it to the orchestrator, and maps what goes wrong to
    an HTTP status. The image classifier, the audio helpers and the clock are
    parameters; the HTTP transport itself is not modelled. */
module ChatApi {
  import opened Wrappers
  import opened Exceptions
  import opened ChatModels
  import opened WeatherService
  import opened ChromaService
  import opened LlmService

  /** An uploaded file: its name, its declared content type and its bytes. */
  datatype Upload = Upload(filename: string, contentType: string, content: seq<byte>)

  /** The error an endpoint answers with: a status code and a detail text. */
  datatype HttpError = HttpError(status: nat, detail: string)

  /** The audio endpoint's answer: the transcribed question, the model's text
      and the spoken answer as base64 text. */
  datatype AudioAnswer = AudioAnswer(question: string, textResponse: string, audioBase64: string)

  /** The image classifier: image bytes and file name to a disease diagnosis, or
      the exception it raises. */
  type Classifier = (seq<byte>, string) -> Result<string, Exception>

  /** The audio helpers: checking an upload (to the path of its temporary
      copy), transcribing that file, and speaking a text (to base64 text). */
  datatype AudioPort = AudioPort(
    validate: (seq<byte>, string) -> Result<string, Exception>,
    speechToText: string -> Result<string, Exception>,
    textToSpeech: string -> Result<string, Exception>)

  /** The request the text endpoint builds. An image replaces the submitted
      disease by the classifier's diagnosis, or by nothing when the classifier
      fails; without an image the submitted disease is kept. A missing history
      becomes the empty list; the question and the country are passed on as
      submitted, with no change of case. */
  function TextRequest(question: string, history: Option<seq<string>>, detectedDisease: Option<string>,
                       country: Option<string>, image: Option<Upload>, classify: Classifier): (r: ChatRequest)
    ensures r.question == question && r.country == country && r.image == None
    ensures r.conversationHistory.Some?
    ensures HasItems(history) <==> HasItems(r.conversationHistory)
    ensures HasItems(history) ==> r.conversationHistory == history
    ensures image.None? ==> r.detectedDisease == detectedDisease
    ensures image.Some? ==>
      var diagnosis := classify(image.value.content, image.value.filename);
      r.detectedDisease == if diagnosis.Success? then Some(diagnosis.value) else None
  {
    var disease :=
      if image.Some? then
        var diagnosis := classify(image.value.content, image.value.filename);
        if diagnosis.Success? then Some(diagnosis.value) else None
      else detectedDisease;
    ChatRequest(question, Some(history.GetOr([])), disease, country)
  }

  /** The request the audio endpoint builds from the transcribed question. It
      follows `TextRequest` except that a classifier failure is not caught: it
      becomes the endpoint's failure. */
  function AudioRequest(question: string, history: Option<seq<string>>, detectedDisease: Option<string>,
                        country: Option<string>, image: Option<Upload>, classify: Classifier): (r: Result<ChatRequest, Exception>)
    ensures r.Failure? <==> image.Some? && classify(image.value.content, image.value.filename).Failure?
    ensures r.Failure? ==> r.error == classify(image.value.content, image.value.filename).error
    ensures r.Success? ==> r.value == TextRequest(question, history, detectedDisease, country, image, classify)
  {
    if image.Some? then
      var diagnosis :- classify(image.value.content, image.value.filename);
      Success(ChatRequest(question, Some(history.GetOr([])), Some(diagnosis), country))
    else Success(ChatRequest(question, Some(history.GetOr([])), detectedDisease, country))
  }

  /** The audio endpoint's error mapping: a `ValueError` is the client's fault
      (400), anything else the server's (500); the detail is the message. */
  function AudioError(e: Exception): (r: HttpError)
    ensures r.status == 400 <==> e.ValueError?
    ensures r.status == 400 || r.status == 500
    ensures r.detail == e.message
  {
    HttpError(if e.ValueError? then 400 else 500, e.message)
  }

  /** The text endpoint's error mapping: every exception is a 500 carrying
      its message. */
  function TextError(e: Exception): (r: HttpError)
    ensures r.status == 500 && r.detail == e.message
  {
    HttpError(500, e.message)
  }

  /** The question the audio endpoint hears: the upload checked, then
      transcribed; either step's exception stops it. */
  function Transcribe(audio: AudioPort, audioFile: Upload): (r: Result<string, Exception>)
    ensures audio.validate(audioFile.content, audioFile.contentType).Failure? ==>
      r == Failure(audio.validate(audioFile.content, audioFile.contentType).error)
    ensures audio.validate(audioFile.content, audioFile.contentType).Success? ==>
      r == audio.speechToText(audio.validate(audioFile.content, audioFile.contentType).value)
  {
    var path :- audio.validate(audioFile.content, audioFile.contentType);
    audio.speechToText(path)
  }

  /** A capitalised country typed into the chat form reaches the weather
      lookup unchanged and is not found: the prompt's weather text is the
      "not supported" message, not the country's weather. */
  lemma CapitalisedCountryNotSupported(question: string, history: Option<seq<string>>,
                                       detectedDisease: Option<string>, image: Option<Upload>,
                                       classify: Classifier, weather: WeatherService, today: string)
    ensures var request := TextRequest(question, history, detectedDisease, Some("France"), image, classify);
      WeatherContribution(request.country, weather, today) == CountryNotSupported
  {
    FranceIsCaseSensitive();
  }

  /** The endpoints and the services they share. */
  class ChatRouter {
    const llm: LlmService
    const weather: WeatherService
    const classify: Classifier
    const audio: AudioPort

    constructor (llm: LlmService, weather: WeatherService,
                 classify: Classifier, audio: AudioPort)
      requires llm.template == PromptTemplate
      ensures this.llm.template == PromptTemplate
      ensures this.llm == llm && this.weather == weather && this.classify == classify && this.audio == audio
    {
      this.llm := llm;
      this.weather := weather;
      this.classify := classify;
      this.audio := audio;
    }

    /** POST /chat. The answer is the orchestrator's for `TextRequest`; an
        exception from it becomes a 500 and leaves the memory as it was. */
    method ChatText(question: string, history: Option<seq<string>>, detectedDisease: Option<string>,
                    country: Option<string>, image: Option<Upload>,
                    today: string, userStamp: string, replyStamp: string, fault: StoreFault)
      returns (r: Result<ChatResponse, HttpError>)
      modifies llm.store
      ensures var request := TextRequest(question, history, detectedDisease, country, image, classify);
        var answer := llm.invoke(old(llm.PromptFor(request, weather, today)));
        && (answer.Success? ==> r == Success(ChatResponse(answer.value)))
        && (answer.Failure? ==> r == Failure(TextError(answer.error)))
      ensures r.Failure? ==> llm.store.documents == old(llm.store.documents)
      ensures r.Success? ==>
        var added := ExchangeDocuments(question, r.value.response, userStamp, replyStamp);
        llm.store.documents == old(llm.store.documents)
          + (if fault == NoFault || fault == PersistFault then llm.store.split(added) else [])
    {
      var disease := detectedDisease;
      if image.Some? {
        var diagnosis := classify(image.value.content, image.value.filename);
        if diagnosis.Success? {
          disease := Some(diagnosis.value);
        } else {
          disease := None;
        }
      }
      var request := ChatRequest(question, Some(history.GetOr([])), disease, country);
      assert request == TextRequest(question, history, detectedDisease, country, image, classify);
      var outcome := llm.ProcessQuery(request, weather, today, userStamp, replyStamp, fault);
      if outcome.Failure? {
        return Failure(TextError(outcome.error));
      }
      r := Success(outcome.value);
    }

    /** POST /chat/audio. The upload is checked and transcribed, the request
        built by `AudioRequest`, answered, and the answer spoken. The first
        step to raise decides the error status by `AudioError`; the memory
        changes only once the model has answered. */
    method ChatAudio(audioFile: Upload, detectedDisease: Option<string>, history: Option<seq<string>>,
                     country: Option<string>, image: Option<Upload>,
                     today: string, userStamp: string, replyStamp: string, fault: StoreFault)
      returns (r: Result<AudioAnswer, HttpError>)
      modifies llm.store
      ensures Transcribe(audio, audioFile).Failure? ==>
        r == Failure(AudioError(Transcribe(audio, audioFile).error))
        && llm.store.documents == old(llm.store.documents)
      ensures Transcribe(audio, audioFile).Success? ==>
        var question := Transcribe(audio, audioFile).value;
        var request := AudioRequest(question, history, detectedDisease, country, image, classify);
        && (request.Failure? ==>
              r == Failure(AudioError(request.error)) && llm.store.documents == old(llm.store.documents))
        && (request.Success? ==>
              var answer := llm.invoke(old(llm.PromptFor(request.value, weather, today)));
              && (answer.Failure? ==>
                    r == Failure(AudioError(answer.error)) && llm.store.documents == old(llm.store.documents))
              && (answer.Success? ==>
                    var added := ExchangeDocuments(question, answer.value, userStamp, replyStamp);
                    var speech := audio.textToSpeech(answer.value);
                    && llm.store.documents == old(llm.store.documents)
                         + (if fault == NoFault || fault == PersistFault then llm.store.split(added) else [])
                    && (speech.Failure? ==> r == Failure(AudioError(speech.error)))
                    && (speech.Success? ==> r == Success(AudioAnswer(question, answer.value, speech.value)))))
    {
      var tmpAudioPath := audio.validate(audioFile.content, audioFile.contentType);
      if tmpAudioPath.Failure? {
        return Failure(AudioError(tmpAudioPath.error));
      }
      var question := audio.speechToText(tmpAudioPath.value);
      if question.Failure? {
        return Failure(AudioError(question.error));
      }

      var disease := detectedDisease;
      if image.Some? {
        var diagnosis := classify(image.value.content, image.value.filename);
        if diagnosis.Failure? {
          return Failure(AudioError(diagnosis.error));
        }
        disease := Some(diagnosis.value);
      }
      var request := ChatRequest(question.value, Some(history.GetOr([])), disease, country);
      assert Success(request) == AudioRequest(question.value, history, detectedDisease, country, image, classify);

      var llmResponse := llm.ProcessQuery(request, weather, today, userStamp, replyStamp, fault);
      if llmResponse.Failure? {
        return Failure(AudioError(llmResponse.error));
      }
      var audioBase64 := audio.textToSpeech(llmResponse.value.response);
      if audioBase64.Failure? {
        return Failure(AudioError(audioBase64.error));
      }
      r := Success(AudioAnswer(question.value, llmResponse.value.response, audioBase64.value));
    }
  }
}
