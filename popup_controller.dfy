/** The click handler of the "summarize" button: read the stored key, query
    the active tab, ask its content script for the article text, call the
    summariser, and render one outcome into the result pane. The browser's
    answers are inputs; the handler's writes to the pane are the `view` it
    ends with, and the external steps it takes are the `trace`. */
module PopupController {
  import opened Wrappers
  import opened Prompt
  import opened GeminiClient

  const MissingKeyMessage: string :=
    "No Gemini API key found. Please set your Gemini API key in the extension options."
  const ExtractionFailedMessage: string :=
    "Could not extract article text from this page. Try reloading the page and summarizing again."
  /** The fallback of the catch block when the caught error has no message. */
  const CaughtWithoutMessage: string := "Failed to generate summary."
  /** The TypeError V8 throws for `tab.id` when the tab query returned no tab. */
  const NoTabTypeError: string := "Cannot read properties of undefined (reading 'id')"

  /** What the result pane shows: the loading indicator, an error (rendered
      in red), or the summary text (rendered as plain text). */
  datatype View = Loading | ErrorView(message: string) | SummaryView(text: string)

  /** How `chrome.tabs.query` settled: rejected with `chrome.runtime.lastError`
      (whose `message` may be missing), or resolved with the matching tabs. */
  datatype TabQuery = TabsRejected(message: Option<string>) | TabsResolved(tabIds: seq<int>)

  /** The content script's reply `{text: ...}`; no reply is `None`. */
  datatype ArticleReply = ArticleReply(text: Option<string>)

  /** An external step the handler attempted. */
  datatype Step =
    | ReadKey
    | QueryTabs
    | SendMessage(tabId: int)
    | CallSummariser(text: string, summaryType: string, apiKey: string)

  /** JavaScript truthiness of an optional string: present and non-empty. */
  predicate Truthy(s: Option<string>)
  {
    s.Some? && s.value != ""
  }

  /** The catch block's rendering: `"Error: " + (error.message || "Failed to generate summary.")`. */
  function CaughtMessage(message: Option<string>): (m: string)
    ensures Truthy(message) ==> m == "Error: " + message.value
    ensures !Truthy(message) ==> m == "Error: " + CaughtWithoutMessage
  {
    "Error: " + (if Truthy(message) then message.value else CaughtWithoutMessage)
  }

  /** One click. `storedKey` is `geminiApiKey` from storage, `tabs` the
      settled tab query, `reply` the content script's reply and `transport`
      the HTTP exchange; each is consulted only if the handler gets that far. */
  method Summarize(summaryType: string, storedKey: Option<string>, tabs: TabQuery,
                   reply: Option<ArticleReply>, transport: Request -> FetchOutcome)
    returns (view: View, trace: seq<Step>)
    ensures view != Loading
    ensures |trace| >= 1 && trace[0] == ReadKey
    // a missing or empty key: fixed message, no tab query, no summariser call
    ensures !Truthy(storedKey) ==> view == ErrorView(MissingKeyMessage) && trace == [ReadKey]
    // the tab query failed, or found no tab: the outer catch renders the error
    ensures Truthy(storedKey) && tabs.TabsRejected? ==>
              view == ErrorView(CaughtMessage(tabs.message)) && trace == [ReadKey, QueryTabs]
    ensures Truthy(storedKey) && tabs == TabsResolved([]) ==>
              view == ErrorView(CaughtMessage(Some(NoTabTypeError))) && trace == [ReadKey, QueryTabs]
    // no reply, or a reply without text: fixed message, no summariser call
    ensures Truthy(storedKey) && tabs.TabsResolved? && |tabs.tabIds| > 0 &&
            (reply.None? || !Truthy(reply.value.text)) ==>
              view == ErrorView(ExtractionFailedMessage) &&
              trace == [ReadKey, QueryTabs, SendMessage(tabs.tabIds[0])]
    // otherwise exactly one request, for the reply's text, rendered verbatim or as the generic error
    ensures Truthy(storedKey) && tabs.TabsResolved? && |tabs.tabIds| > 0 &&
            reply.Some? && Truthy(reply.value.text) ==>
              var text := reply.value.text.value;
              trace == [ReadKey, QueryTabs, SendMessage(tabs.tabIds[0]), CallSummariser(text, summaryType, storedKey.value)] &&
              match GetGeminiSummary(text, summaryType, storedKey.value, transport)
              case Success(summary) => view == SummaryView(summary) && summary != ""
              case Failure(_) => view == ErrorView("Error: " + GenericFailure)
    // the summariser is called only with a key and a text
    ensures forall i :: 0 <= i < |trace| && trace[i].CallSummariser? ==>
              Truthy(storedKey) && reply.Some? && Truthy(reply.value.text)
  {
    view := Loading;
    trace := [ReadKey];
    if !Truthy(storedKey) {
      view := ErrorView(MissingKeyMessage);
      return;
    }
    var apiKey := storedKey.value;
    trace := trace + [QueryTabs];
    match tabs
    case TabsRejected(message) =>
      view := ErrorView(CaughtMessage(message));
      return;
    case TabsResolved(tabIds) =>
      if |tabIds| == 0 {
        view := ErrorView(CaughtMessage(Some(NoTabTypeError)));
        return;
      }
      trace := trace + [SendMessage(tabIds[0])];
      if reply.None? || !Truthy(reply.value.text) {
        view := ErrorView(ExtractionFailedMessage);
        return;
      }
      var text := reply.value.text.value;
      trace := trace + [CallSummariser(text, summaryType, apiKey)];
      var summary := GetGeminiSummary(text, summaryType, apiKey, transport);
      match summary
      case Success(s) =>
        view := SummaryView(s);
      case Failure(e) =>
        view := ErrorView(CaughtMessage(Some(e.message)));
  }

  /** A worked example: key "K", page text "Hello world.", style "brief", and a
      200 response whose one candidate part reads "A short summary.". */
  method BriefScenario()
  {
    var answer := HttpResponse(true, Parsed(CandidateBody("A short summary.", [], [], None)));
    var view, trace := Summarize("brief", Some("K"), TabsResolved([7]), Some(ArticleReply(Some("Hello world."))),
                                 (r: Request) => answer);
    SummaryOfCandidateBody("A short summary.", [], [], None);
    assert view == SummaryView("A short summary.");
    assert trace[3] == CallSummariser("Hello world.", "brief", "K");
    assert PromptOf(PrepareRequest("Hello world.", "brief", "K")) == Header(Brief) + "Hello world.";
  }

  /** A worked example where the API answers 429 with `{"error":{"message":"quota exceeded"}}`:
      the pane shows the generic failure, not the API's words. */
  method QuotaScenario()
  {
    var answer := HttpResponse(false, Parsed(JsonObject(ResponseBody(None, Some(ApiError(Some("quota exceeded")))))));
    var view, _ := Summarize("bullets", Some("K"), TabsResolved([7]), Some(ArticleReply(Some("Hello world."))),
                             (r: Request) => answer);
    assert view == ErrorView("Error: " + GenericFailure);
  }
}
