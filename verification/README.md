# Plant-disease assistant: query orchestration, modelled in Dafny

The assistant answers farmers' questions about plant diseases. A chat request carries:

- a question;
- optionally, the conversation so far;
- a disease label, either typed in or produced by an image classifier;
- a country.

The orchestrator (`LLMService.process_query`) turns the request into one prompt:

- disease-keyed and question-keyed excerpts from a vector-store conversation memory;
- a weather summary for the country, from the Open-Meteo archive;
- the history, one utterance per line.

It sends that prompt to a language model, stores the exchange, and returns the answer. Two HTTP endpoints, one for text and one for audio, build the request from form fields. They also map exceptions to status codes.

The model has one Dafny module per core source file, plus four support modules (`Wrappers`, `Exceptions`, `PyJson`, `Text`):

- The support modules model the Python behaviour the core relies on.
  - `Option`/`Result`.
  - The exception classes the handlers distinguish.
  - The decoded JSON payload, with `v[key]`, `v[i]` and `len(v)` and the exceptions they raise.
  - `str.join`, paired with `str.split` as its inverse.
- `ChatModels`, `WeatherModels`: the pydantic records.
- `WeatherService`: the 49-country table, the archive request, the summary path and the per-day series path.
- `ChromaService`: the conversation memory, as a class whose `documents` field grows.
- `LlmService`: the prompt template with its five slots, and the orchestrator class.
- `ChatApi`: the two endpoints.

Everything external is a parameter:

- The language model, the archive fetch, the similarity search, the text splitter, the image classifier and the speech helpers are function-valued fields or parameters.
- The clock readings (today's date, document timestamps) are string parameters.
- Which step of storing a conversation raises is a parameter (`StoreFault`).

The model follows the code as written. Three consequences are worth knowing:

- **Country case.** Neither chat endpoint lower-cases the country; only the weather endpoint does (api/weather.py:16). So `"France"` typed into the chat form gets "Country not supported". See `ChatApi.CapitalisedCountryNotSupported`.
- **No-match sentinel.** When the question's search finds nothing, the "No context found" sentinel goes into the context slot verbatim. See `LlmService.NoMatchTextReachesPrompt`.
- **Weather in the prompt.** The weather text in the prompt is the summary as written (`WeatherService.WeatherService.FetchWeatherSummary`). It digests `daily` as a list of per-day dicts. On a payload in the dict-of-columns shape the series path reads, it degrades to "Weather data unavailable" (see "## Findings"). The column digest that shape calls for is modelled separately as `WeatherService.WeatherService.Summary`. The chat path does not use it.

Some members exist only to state properties and model no code of their own:

- `Text.Split` and `Text.SplitEach` are the partners of `str.join`.
- `LlmService.Expect`, `LlmService.BeforeClosing` and `LlmService.Parse` read a filled prompt back into its slots.

## Model

| member | source | states |
|---|---|---|
| ChatModels.RequestDefaults | models/chat.py:4-9 | only `question` is required; history, disease, country and image default to `None` |
| WeatherModels.OptionalNumber | models/weather.py:6-8 | an optional float field accepts an absent key, `null` (both `None`) or a number, and rejects anything else |
| WeatherModels.Validate | models/weather.py:4-8 | a dict is a valid `WeatherDay` exactly when `Date` is a string and each measurement is absent, null or a number; the date is kept, and each measurement is `None` when absent or null and the number otherwise |
| WeatherModels.Dump | models/weather.py:4-8 | a serialized day is a dict with exactly the keys Date, MaxTemp, MinTemp, Humidity |
| WeatherModels.ValidateDump | models/weather.py:4-8 | validation inverts serialization for every day |
| WeatherModels.MinAboveMaxAccepted | models/weather.py:4-8 | no relation between fields is enforced: a minimum above the maximum validates |
| PyJson.GetKey | services/weather_service.py:78-80 | `v[key]` succeeds exactly on a dict holding the key; otherwise `KeyError` on a dict and `TypeError` on anything else |
| PyJson.GetIndex | services/weather_service.py:105-108 | `v[i]` on a list succeeds exactly within bounds; a dict raises `KeyError`, null or a number `TypeError` |
| PyJson.Len | services/weather_service.py:110 | `len(v)` is defined exactly on lists, strings and dicts, and is the list's length on a list |
| Text.Join | services/chroma_service.py:44 | joining no parts gives the empty text; otherwise the text starts with the first part |
| Text.JoinSplit | services/chroma_service.py:44 | joining the pieces of a split by the separator gives the text back |
| Text.SplitJoinEach | services/chroma_service.py:44 | splitting a newline-join of any non-empty list at newlines gives the lines of each part in turn, so a part with line breaks contributes several lines |
| Text.SplitJoin | services/chroma_service.py:44 | splitting a newline-join of lines that contain no newline gives back the same lines, in order |
| WeatherService.DictOf | services/weather_service.py:13-63 | a dict display has at most one key per entry, and its last entry's name maps to that entry's coordinates |
| WeatherService.DictOfKeys | services/weather_service.py:13-63 | a dict display holds a key exactly when some entry carries it |
| WeatherService.DictOfLast | services/weather_service.py:13-63 | a key of a dict display maps to the coordinates of the last entry carrying it |
| WeatherService.SupportedKeysAreLowerCase | services/weather_service.py:13-63 | the table has 49 entries, every supported key is lower-case, and no key with an upper-case letter is supported |
| WeatherService.FortyNineCountries | services/weather_service.py:13-63 | the 49 names of the table are pairwise distinct (the table is in alphabetical order), so the dict holds 49 keys and no entry is shadowed |
| WeatherService.FranceIsCaseSensitive | services/weather_service.py:66 | `"france"` is supported and `"France"` is not: membership is exact and case-sensitive |
| WeatherService.ArchiveRequest | services/weather_service.py:69-74 | the request carries the country's latitude, longitude and timezone, the period from 2020-01-01 to today, and the three daily fields in order |
| WeatherService.Sum | services/weather_service.py:82-84 | `sum` succeeds exactly when every sample is a number |
| WeatherService.Mean | services/weather_service.py:82-84 | an average is `None` exactly when there is no sample, and fails exactly when a sample is not a number |
| WeatherService.NonNull | services/weather_service.py:78-80 | filtering out nulls keeps no null and never lengthens the column |
| WeatherService.NonNullEmpty | services/weather_service.py:82-84 | a column has no sample exactly when all its entries are null |
| WeatherService.NonNullNumbers | services/weather_service.py:78-80 | the samples of a column of numbers and nulls are all numbers |
| WeatherService.NonNullFields | services/weather_service.py:78-80 | the comprehension over a list of days completes exactly when every day is a dict holding the field, and then keeps no null and never lengthens the list |
| WeatherService.SamplesAsWritten | services/weather_service.py:78-80 | iterating a `daily` that is not a list completes only for the empty dict or the empty string, with no sample; any other dict, string, number or null raises |
| WeatherService.NonNullFieldsColumn | services/weather_service.py:78-80 | over days that all hold the field, the comprehension as written raises nothing and keeps the field's non-null entries in order |
| WeatherService.DigestAsWritten | services/weather_service.py:78-85 | a payload that is not a dict or lacks `daily` raises `TypeError` or `KeyError`; a non-empty dict `daily` raises `TypeError`; on success each average is `None` exactly when its comprehension found no sample |
| WeatherService.DigestAsWrittenFieldRule | services/weather_service.py:78-85 | on a list of days each holding the three fields as a number or null, the digest as written succeeds, and each average is `None` exactly when its own field is null on every day, independently of the others |
| WeatherService.DigestFieldRule | services/weather_service.py:78-85 | on a well-formed payload the summary digest succeeds, and each average is `None` exactly when its own column is all null, independently of the others |
| WeatherService.SummaryText | services/weather_service.py:65-89 | the summary text is never empty; it is "Country not supported" exactly for the unsupported outcome and "Weather data unavailable" exactly for the failed one |
| WeatherService.WeatherService.SummaryAsWritten | services/weather_service.py:65-89 | the outcome is "not supported" exactly for a country outside the table, and averages exactly when the archive answers with JSON whose digest as written succeeds, those averages being the digest's |
| WeatherService.WeatherService.Summary | services/weather_service.py:65-89 | the same outcome with the column digest: averages exactly when the archive answers with JSON whose column digest succeeds |
| WeatherService.WeatherService.FetchWeatherSummary | services/weather_service.py:65-89 | the summary as written never raises and is never empty; it is "Country not supported" exactly when the country is not a key of the table; for a supported country it is "Weather data unavailable" exactly when the fetch fails or the per-day digest raises, and otherwise the `json.dumps` rendering of that digest |
| WeatherService.DaysPayloadSummarised | services/weather_service.py:65-89 | for a supported country whose archive answers with a list of well-formed days, the summary is the rendering of the per-day digest, never a sentinel |
| WeatherService.WeatherService.GetFullWeatherData | services/weather_service.py:91-111 | the series raises `ValueError` exactly when the country is not a key of the table (with "Country not supported") or the body is not JSON (the decoder's `JSONDecodeError`, with its message); a failed request raises its own error; a JSON body yields exactly the series read from it, or its exception |
| WeatherService.RecordAt | services/weather_service.py:104-109 | every record built has exactly the `WeatherDay` field names as keys |
| WeatherService.RecordsFrom | services/weather_service.py:103-111 | a comprehension over `range(i, n)` that completes has `n - i` records, each with exactly the `WeatherDay` keys |
| WeatherService.RecordsFromSpec | services/weather_service.py:103-111 | the comprehension succeeds exactly when every index yields a record, and then holds record `j` at position `j` |
| WeatherService.SeriesZip | services/weather_service.py:103-111 | on parallel columns, the series has one record per date, in order, record `i` zipping the `i`-th entries of the four columns |
| WeatherService.SeriesOf | services/weather_service.py:103-111 | a series that is read needs `daily` and its `time` entry, has one record per entry of `time`, and every record has exactly the `WeatherDay` keys |
| WeatherService.FetchFailureDegradesOnlySummary | services/weather_service.py:75-102 | a failed request or a body that is not JSON turns the summary into "Weather data unavailable", while the series path raises: the request's failure, or `ValueError` with the decoder's message |
| WeatherService.OneArchiveRequest | services/weather_service.py:72-75 | two services whose archives answer alike on the one request for the country's coordinates from 2020-01-01 to today give the same summary (as written and corrected) and the same series |
| WeatherService.SeriesShapeDefeatsSummaryAsWritten | services/weather_service.py:78-80 | whenever the series reads a day out of a payload, the summary as written raises `TypeError` on that same payload |
| WeatherService.OneDaySeries | services/weather_service.py:103-111 | the series reads the one-day payload into exactly one record with its date and three values |
| WeatherService.OneDayDigest | services/weather_service.py:78-85 | the column digest of the one-day payload averages to the day's own values |
| WeatherService.OneDayCounterexample | services/weather_service.py:78-86 | on a one-day payload the series yields the day, the summary as written, and so the text the chat path receives, reports the weather unavailable, and the corrected digest reports the day's values |
| ChromaService.DocKind.Tag | services/chroma_service.py:26-30 | user text is tagged `user_input` and the answer `assistant_response`, and the two tags differ |
| ChromaService.ExchangeDocuments | services/chroma_service.py:23-32 | an exchange becomes two documents, the user's text then the answer, typed `user_input` and `assistant_response`, each with its own timestamp |
| ChromaService.PageContents | services/chroma_service.py:44 | the page contents of the retrieved documents, one per document, in order |
| ChromaService.ContextStore.StoreConversation | services/chroma_service.py:21-38 | storing only appends; with no fault, or a fault only at persisting, the split question-then-answer documents are appended; a fault at splitting or adding leaves the store unchanged; nothing raises |
| ChromaService.ContextStore.RetrieveContext | services/chroma_service.py:40-47 | a failed search gives the empty text and no match gives "No context found"; for matches, splitting the text at newlines gives the lines of each match's contents in turn (for single-line contents, the contents themselves) |
| LlmService.Fill | services/llm_service.py:14-38 | a filled prompt is as long as the template's static text plus the five values |
| LlmService.ParseFill | services/llm_service.py:14-38 | reading the slots back out of a filled template gives the five values back, for any template |
| LlmService.FillParse | services/llm_service.py:14-38 | any text that matches the template's static pieces is the fill of the values read out of it |
| LlmService.DiseaseSlot | services/llm_service.py:66 | the disease slot is the label when it is a non-empty string, otherwise "No disease detected in the image"; never empty |
| LlmService.HistoryBlock | services/llm_service.py:58 | an absent or empty history gives the empty text; otherwise splitting it at newlines gives the lines of each utterance in turn (for single-line utterances, the utterances themselves) |
| LlmService.HistoryExample | services/llm_service.py:58 | the history Q1, A1, Q2 renders as three lines |
| LlmService.ContextBlock | services/llm_service.py:44-52 | with a disease, the context is "Disease Information: ", the disease excerpt, a blank line ("\n\n") and the question excerpt, nothing else; without one, the question excerpt alone; either way it ends with the question excerpt |
| LlmService.SlotsOf | services/llm_service.py:55-66 | the slots carry the question unchanged and a non-empty disease text; the history slot is empty when there is no history; the weather slot is empty exactly when no country is given; the context slot ends with the question's excerpt |
| LlmService.WeatherContribution | services/llm_service.py:55 | the weather slot is empty exactly when no country is given, and is otherwise the weather summary for that exact country string |
| LlmService.LlmService.PromptFor | services/llm_service.py:61-67 | the prompt carries, recoverably and in template order, the disease slot, the history, the context, the weather text and the question: reading it back against the template gives exactly those slots |
| LlmService.NoMatchTextReachesPrompt | services/llm_service.py:51-52 | when the question's search finds nothing, the context slot ends with "No context found" |
| LlmService.BareQuestionSlots | services/llm_service.py:44-67 | a question alone fills the slots with the no-disease text, empty history and weather, and the question's excerpt as the whole context |
| LlmService.LlmService.constructor | services/llm_service.py:11-39 | a new service holds the given memory and model and the fixed prompt template |
| LlmService.LlmService.ImageIgnored | services/llm_service.py:41-81 | the orchestrator never reads the request's image (models/chat.py:9): the slots and the prompt are the same whatever image is attached |
| LlmService.LlmService.BuildPrompt | services/llm_service.py:43-67 | the prompt assembled step by step (context accumulated, then weather, history and disease slot) is the template filled with the request's slot values against the current memory |
| LlmService.LlmService.ProcessQuery | services/llm_service.py:41-81 | the answer is the model's reply to the prompt built from the memory as it was before the call; a model exception is re-raised and nothing is stored; after an answer, the memory grows exactly by the stored exchange |
| ChatApi.TextRequest | api/chat.py:33-51 | an image replaces the submitted disease by the classifier's label, or by `None` when the classifier raises; without an image the disease passes through; a missing history becomes `[]`; question and country pass unchanged |
| ChatApi.AudioRequest | api/chat.py:77-86 | the audio request fails exactly when an image is given and the classifier raises, with the classifier's exception; otherwise it is the text endpoint's request |
| ChatApi.AudioError | api/chat.py:96-100 | the audio endpoint answers 400 exactly for a `ValueError`, otherwise 500, with the exception message as detail |
| ChatApi.TextError | api/chat.py:57-59 | the text endpoint answers every exception with 500 and the exception message |
| ChatApi.Transcribe | api/chat.py:74-75 | the question is the transcription of the validated upload; a validation exception stops before transcription |
| ChatApi.CapitalisedCountryNotSupported | api/chat.py:50 | "France" from the chat form reaches the weather lookup unchanged and yields "Country not supported" |
| ChatApi.ChatRouter.constructor | api/chat.py:17-21 | the router holds the shared orchestrator, built with the fixed prompt template, and the weather service, classifier and audio helpers |
| ChatApi.ChatRouter.ChatText | api/chat.py:25-59 | the answer is the orchestrator's for the request `TextRequest` builds; a model exception becomes a 500 and leaves the memory unchanged |
| ChatApi.ChatRouter.ChatAudio | api/chat.py:61-100 | validation, transcription, classification, the model and speech run in order; the first to raise sets the status by `AudioError`; the memory changes only once the model has answered; success returns question, text and audio |

## Left out

- HTTP transport, form parsing and FastAPI's own validation errors are not modelled. The endpoints are methods over already-parsed fields.
- The vector store is reduced to oracles: embeddings, similarity ranking (the `search` oracle) and `RecursiveCharacterTextSplitter` (the `split` oracle).
- The language model is a deterministic function from prompt to answer or exception. The model does not capture sampling, streaming or timeouts.
- The network, `requests`, `raise_for_status` and `response.json()` are one oracle (`FetchOutcome`). It maps the archive request to one of three outcomes: a decoded payload, a body that is not JSON (with the decoder's message), or a failure of the request or of its status check. The URL string itself is modelled field by field (`ArchiveQuery`), not as text.
- `datetime.now()` is a parameter: today's date for the archive, and the timestamps for stored documents.
- Floating point is idealised as `real`. The averages are exact quotients, and the digits `json.dumps` prints for a float are the `showReal` oracle.
- JSON booleans are not part of the payload model. Neither are `json.dumps`'s escaping rules: only the three fixed keys are rendered.
- `ChatPromptTemplate` wraps the filled text as a single human chat message. The model stops at the filled template text.
- Pydantic's lax coercions (integers to floats, numeric strings) are not modelled. A number is a JSON number.
- The image classifier (`disease_service.py`) and the audio helpers (`audio_service.py`) are not part of this model. Their results and exceptions are oracle values.
- `chat_audio` removes its temporary audio file in a `finally` block. File-system effects are not modelled.
- An exception from `await image.read()` or `audio_file.read()` is not modelled. The uploads arrive as bytes.
- Logging, `async` scheduling and concurrent requests sharing the store are not modelled. Each request runs to completion alone.
- `api/weather.py`, `api/disease.py`, `main.py` and `config/settings.py` are not part of this model.
- WeatherService.SeriesZip: covers payloads whose three measurement lists are at least as long as the time list. Shorter lists make the comprehension raise `IndexError`; `RecordsFromSpec` characterises that case generally.

## Findings

| source | as written | input that shows it | evidently intended | confidence | as-written member | corrected member |
|---|---|---|---|---|---|---|
| services/weather_service.py:78-80 | the summary path iterates `data["daily"]` as a list of per-day dicts, but the same archive request is read by the series path (lines 105-110) as a dict of parallel columns; iterating that dict yields its key strings, and indexing a string with a string raises `TypeError`, which the handler turns into "Weather data unavailable" | the one-day payload `{"daily": {"time": ["2020-01-01"], "temperature_2m_max": [30.0], "temperature_2m_min": [20.0], "relative_humidity_2m_mean": [50.0]}}` | average each column's non-null entries: 30.0, 20.0 and 50.0 | high, not executed | WeatherService.SeriesShapeDefeatsSummaryAsWritten | WeatherService.DigestFieldRule |
