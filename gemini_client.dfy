/** `getGeminiSummary` past request preparation: the one call to the
    generateContent endpoint, with the parsed JSON bodies as datatypes, the
    optional-chaining extraction of the summary and the collapsing of every
    failure into one message. The HTTP exchange itself is the `transport`
    parameter. */
module GeminiClient {
  import opened Wrappers
  import opened Prompt

  /** The fallback returned, as a success, when the response holds no text. */
  const NoSummaryAvailable: string := "No summary available."
  /** The only message a caller ever sees from a failed request. */
  const GenericFailure: string := "Failed to generate summary. Please try again later."
  /** The detail thrown for a non-ok response whose body has no error message. */
  const ApiRequestFailed: string := "API request failed"

  /** What is sent: the key (a query parameter) and the single prompt part,
      kept as the style and the cut text it is built from; `PromptOf` gives
      the prompt string itself, from which both can be read back. The
      endpoint and the temperature 0.2 are constants of the request. */
  datatype Request = Request(apiKey: string, style: SummaryStyle, articleText: string)

  /** The text of the request's single prompt part. */
  function PromptOf(request: Request): string
  {
    Header(request.style) + request.articleText
  }

  /** Two requests with the same key and the same prompt string are the same
      request, so nothing is lost by keeping the prompt's parts. */
  lemma {:induction false} PromptOfInjective(r1: Request, r2: Request)
    requires r1.apiKey == r2.apiKey && PromptOf(r1) == PromptOf(r2)
    ensures r1 == r2
  {
    ParseHeaderThenText(r1.style, r1.articleText);
    ParseHeaderThenText(r2.style, r2.articleText);
  }

  /** `{text: ...}`; an absent or null `text` is `None`. */
  datatype Part = Part(text: Option<string>)
  /** `{parts: [...]}`. */
  datatype Content = Content(parts: Option<seq<Part>>)
  /** `{content: {...}}`; a null entry of `candidates` behaves as `Candidate(None)`. */
  datatype Candidate = Candidate(content: Option<Content>)
  /** `{message: ...}` under `error` in a failure body. */
  datatype ApiError = ApiError(message: Option<string>)
  /** The fields of a response object the client reads. */
  datatype ResponseBody = ResponseBody(candidates: Option<seq<Candidate>>, error: Option<ApiError>)

  /** A parsed JSON value: `null`, an object, or any other value (number,
      string, boolean or array), on which every property read gives `undefined`. */
  datatype JsonValue = JsonNull | JsonObject(body: ResponseBody) | JsonOther

  /** What `res.json()` yields: a value, or a parse error (a rejected promise). */
  datatype Body = Parsed(value: JsonValue) | NotJson

  /** What `fetch` yields: a rejection (network failure) or a response with
      its `ok` flag and its body. */
  datatype FetchOutcome = NetworkError | HttpResponse(ok: bool, body: Body)

  /** Why a request failed; this is what the client logs, never what it shows. */
  datatype Cause =
    | FetchRejected                 // fetch itself threw
    | BodyNotJson                   // res.json() threw
    | ErrorBodyNull                 // non-ok and the body is null: `errorData.error` throws
    | ApiRejected(detail: string)   // non-ok: `error?.message || "API request failed"`

  /** The error `getGeminiSummary` throws: the visible message and the cause
      that was logged before it was replaced. */
  datatype SummaryError = SummaryError(message: string, cause: Cause)

  /** The request for an article text, a selector value and a key: it is
      addressed with the caller's key, in the selected style, and carries the
      text cut to the length limit (unchanged when it is short enough). */
  function PrepareRequest(text: string, summaryType: string, apiKey: string): (r: Request)
    ensures r.apiKey == apiKey
    ensures r.style == StyleOf(summaryType)
    ensures |r.articleText| <= MaxLength + |Ellipsis|
    ensures |text| <= MaxLength ==> r.articleText == text
  {
    Request(apiKey, StyleOf(summaryType), Truncate(text))
  }

  /** The prompt of a prepared request is the one `BuildPrompt` describes. */
  lemma PreparedPrompt(text: string, summaryType: string, apiKey: string)
    ensures PromptOf(PrepareRequest(text, summaryType, apiKey)) == BuildPrompt(text, summaryType)
  {
  }

  /** The body of a response that carries text `t` in its first part of its
      first candidate, followed by any further parts and candidates. */
  function CandidateBody(t: string, moreParts: seq<Part>, moreCandidates: seq<Candidate>, error: Option<ApiError>): JsonValue
  {
    JsonObject(ResponseBody(Some([Candidate(Some(Content(Some([Part(Some(t))] + moreParts))))] + moreCandidates), error))
  }

  /** The chain `data?.candidates?.[0]?.content?.parts?.[0]?.text`. It
      reaches a text only when the body is an object whose first candidate's
      first part holds that text; anything else (null, a non-object, a missing
      or empty level, a missing `text`) gives `undefined`. */
  function FirstPartText(data: JsonValue): (r: Option<string>)
    ensures !data.JsonObject? ==> r.None?
    ensures r.Some? ==> exists moreParts, moreCandidates ::
              data == CandidateBody(r.value, moreParts, moreCandidates, data.body.error)
  {
    if !data.JsonObject? then None
    else match data.body.candidates
      case None => None
      case Some(candidates) =>
        if |candidates| == 0 then None
        else match candidates[0].content
          case None => None
          case Some(content) =>
            match content.parts
            case None => None
            case Some(parts) =>
              if |parts| == 0 then None
              else match parts[0].text
                case None => None
                case Some(t) =>
                  assert candidates == [candidates[0]] + candidates[1..];
                  assert parts == [parts[0]] + parts[1..];
                  assert data == CandidateBody(t, parts[1..], candidates[1..], data.body.error);
                  Some(t)
  }

  /** `FirstPartText(data) || "No summary available."`: the empty string is falsy. */
  function SummaryText(data: JsonValue): (r: string)
    ensures r != ""
    ensures r == NoSummaryAvailable || FirstPartText(data) == Some(r)
    ensures FirstPartText(data).Some? && FirstPartText(data).value != "" ==> r == FirstPartText(data).value
    ensures FirstPartText(data).None? || FirstPartText(data) == Some("") ==> r == NoSummaryAvailable
  {
    match FirstPartText(data)
    case Some(t) => if t != "" then t else NoSummaryAvailable
    case None => NoSummaryAvailable
  }

  /** Only the first part of the first candidate is read: later parts and
      candidates never change the summary, and an empty text falls back. */
  lemma {:induction false} SummaryOfCandidateBody(t: string, moreParts: seq<Part>, moreCandidates: seq<Candidate>, error: Option<ApiError>)
    ensures SummaryText(CandidateBody(t, moreParts, moreCandidates, error)) == if t == "" then NoSummaryAvailable else t
  {
  }

  /** `errorData.error?.message || "API request failed"`, or the TypeError
      thrown by `errorData.error` when the body is `null`. */
  function ErrorCause(errorData: JsonValue): (c: Cause)
    ensures c.ApiRejected? ==> c.detail != ""
    ensures errorData.JsonNull? <==> c == ErrorBodyNull
    ensures errorData.JsonObject? && errorData.body.error.Some? &&
            errorData.body.error.value.message.Some? && errorData.body.error.value.message.value != "" ==>
              c == ApiRejected(errorData.body.error.value.message.value)
    ensures !errorData.JsonNull? &&
            !(errorData.JsonObject? && errorData.body.error.Some? &&
              errorData.body.error.value.message.Some? && errorData.body.error.value.message.value != "") ==>
              c == ApiRejected(ApiRequestFailed)
  {
    match errorData
    case JsonNull => ErrorBodyNull
    case JsonOther => ApiRejected(ApiRequestFailed)
    case JsonObject(body) =>
      match body.error
      case Some(ApiError(Some(m))) => if m != "" then ApiRejected(m) else ApiRejected(ApiRequestFailed)
      case _ => ApiRejected(ApiRequestFailed)
  }

  /** The `try` block after `fetch`: an ok response with a JSON body succeeds
      with its summary text; everything else is caught and rethrown with the
      generic message, whatever the API said. */
  function InterpretResponse(outcome: FetchOutcome): (r: Result<string, SummaryError>)
    ensures r.Success? <==> outcome.HttpResponse? && outcome.ok && outcome.body.Parsed?
    ensures r.Success? ==> r.value == SummaryText(outcome.body.value) && r.value != ""
    ensures r.Failure? ==> r.error.message == GenericFailure
    ensures outcome.NetworkError? ==> r == Failure(SummaryError(GenericFailure, FetchRejected))
    ensures outcome.HttpResponse? && outcome.body.NotJson? ==> r == Failure(SummaryError(GenericFailure, BodyNotJson))
    ensures outcome.HttpResponse? && !outcome.ok && outcome.body.Parsed? ==>
              r == Failure(SummaryError(GenericFailure, ErrorCause(outcome.body.value)))
  {
    match outcome
    case NetworkError => Failure(SummaryError(GenericFailure, FetchRejected))
    case HttpResponse(ok, body) =>
      match body
      case NotJson => Failure(SummaryError(GenericFailure, BodyNotJson))
      case Parsed(data) =>
        if !ok then Failure(SummaryError(GenericFailure, ErrorCause(data)))
        else Success(SummaryText(data))
  }

  /** Two failed responses look the same to the caller, whatever their bodies
      say: the API's own message never reaches the user. */
  lemma {:induction false} FailuresIndistinguishable(o1: FetchOutcome, o2: FetchOutcome)
    requires InterpretResponse(o1).Failure? && InterpretResponse(o2).Failure?
    ensures InterpretResponse(o1).error.message == InterpretResponse(o2).error.message
  {
  }

  /** `getGeminiSummary(text, summaryType, apiKey)`: exactly one request,
      carrying the prompt for the style and the cut text, then the
      interpretation of whatever came back. */
  function GetGeminiSummary(text: string, summaryType: string, apiKey: string, transport: Request -> FetchOutcome): (r: Result<string, SummaryError>)
    ensures r.Success? ==> r.value != ""
    ensures r.Failure? ==> r.error.message == GenericFailure
  {
    InterpretResponse(transport(PrepareRequest(text, summaryType, apiKey)))
  }
}
