# AI Article Summariser: a Dafny model of the popup's core

The extension's popup (`popup.js`) sends the text of the current page to the
Gemini `generateContent` API and shows the summary it gets back. This project
models the deterministic parts of that popup. Browser APIs become plain
inputs, and the network becomes a function parameter.

- **Request preparation** (`Prompt`, `GeminiClient`). The article text is cut
  at 20000 characters and gets `"..."` appended. An instruction is chosen by
  the summary style (`brief`, `detailed`, `bullets`, or the default for any
  other value). The prompt is the instruction, `"\n\n"`, then the cut text.
  A `Request` holds the key, the chosen style and the cut text. `PromptOf`
  gives the prompt string. `ParsePrompt` reads the style and the cut text
  back from any built prompt, so this representation loses nothing.
- **Response interpretation** (`GeminiClient`). The parsed JSON body is an
  optional nested datatype (candidates → content → parts → text). A
  successful response yields its first candidate's first part text when
  that text is non-empty, and `"No summary available."` otherwise. Every
  failure is rethrown as `"Failed to generate summary. Please try again
  later."`. This covers a rejected `fetch`, a body that is not JSON, and a
  non-ok status with or without an API message. The cause that the source
  only logs is kept as data (`Cause`).
- **The summarize click handler** (`PopupController.Summarize`). Its inputs
  are the stored key, the settled tab query, the content script's reply and
  the transport. It returns the final view of the result pane (an error
  message or the summary text) and the trace of external steps taken (key
  read, tab query, message to the tab, summariser call). It has the
  source's early returns and its catch-all `"Error: " + message` rendering.
- **PDF export** (`PdfExport`). The line-placement loop is a method. It is
  proved equal to a closed form: 40 lines on the first page, at y = 35 to
  269, then 42 lines on each later page, at y = 20 to 266. Lemmas give the
  bounds and the page-break rule. The button handler chooses between
  nothing, the PDF and the plain-text fallback.
- **Text-to-speech toggle** (`SpeechToggle.SpeechButton`). A class with the
  `isSpeaking` flag and the button text. It has one method per event
  handler (click, utterance end and error, engine `end`, `voiceschanged`).
  Each method returns the call it makes on the speech engine. The blank-text
  guard is JavaScript's `trim` (`JsText`).

Three points where the code's behaviour is easy to miss:

- The client falls back to `"No summary available."` not only when the
  first part's text is absent but also when it is the empty string, because
  of `||`.
- When the tab query resolves with no tab, `tab.id` throws a TypeError. The
  outer catch renders it as `"Error: "` followed by the engine's message,
  which this model fixes to V8's wording.
- The catch's own fallback, `"Failed to generate summary."`, is reached only
  by a caught error that has no message. The summariser's error always has
  one.

## Model

| member | source | states |
|---|---|---|
| `Prompt.Truncate` | popup.js:184-186 | A text of at most 20000 characters is passed through unchanged. A longer one becomes exactly its first 20000 characters followed by "..." (length 20003). No result is longer than 20003. |
| `Prompt.TruncateIdempotent` | popup.js:184-186 | Cutting an already cut text changes nothing. |
| `Prompt.StyleOf` | popup.js:189-201 | The switch picks brief, detailed or bullets exactly for those three strings, and the default for every other value. |
| `Prompt.Instruction` | popup.js:191-200 | The brief and detailed instructions begin with "P" and tell "brief" from "detailed" at position 10. The bullets and default instructions begin with "S" and part at position 31 (" in 5-7 key points" against ":"). |
| `Prompt.ProvideHeadersDiffer` | popup.js:190-195 | The brief and detailed headers both start with "P" and differ at position 10. |
| `Prompt.SummarizeHeadersDiffer` | popup.js:196-200 | The bullets and default headers both start with "S" and differ at position 31. |
| `Prompt.BuildPrompt` | popup.js:188-201 | The prompt is the style's instruction, then "\n\n", then the cut text. Its length is bounded by the header plus 20003. |
| `Prompt.ParseHeaderThenText` | popup.js:188-201 | Any header followed by any text reads back as that style and that text. No other style's header matches. |
| `Prompt.ParseBuildPrompt` | popup.js:184-201 | From every prompt, the selected style and the cut text can be recovered. |
| `Prompt.ParsePromptSound` | popup.js:188-201 | Whatever `ParsePrompt` accepts is a header followed by the recovered text. |
| `GeminiClient.PromptOfInjective` | popup.js:209-214 | Two requests with the same key and the same prompt string are the same request. |
| `GeminiClient.PrepareRequest` | popup.js:184-201 | The request carries the caller's key and the selected style. Its text is at most 20003 characters long, and a text of at most 20000 characters is carried unchanged. |
| `GeminiClient.PreparedPrompt` | popup.js:182-212 | The prompt a prepared request sends is `BuildPrompt` of the text and the selector value. |
| `GeminiClient.SummaryText` | popup.js:227-231 | The result is never empty. It is the first candidate's first part text when that text is present and non-empty. It is "No summary available." when any level is missing or the text is "". |
| `GeminiClient.SummaryOfCandidateBody` | popup.js:228-231 | For a body whose first candidate's first part holds t, the result is t, whatever later parts and candidates hold. It is the fallback when t is "". |
| `GeminiClient.FirstPartText` | popup.js:229 | The optional chain gives nothing for a body that is not an object. When it yields a text, the body is an object whose first candidate's first part holds that text, followed by any further parts and candidates. |
| `GeminiClient.ErrorCause` | popup.js:222-224 | A null body, and only a null body, raises the TypeError of `errorData.error`. A body whose `error.message` is a non-empty string gives that message. Every other body gives "API request failed". A rejection's detail is never empty. |
| `GeminiClient.InterpretResponse` | popup.js:222-234 | Success happens exactly for an ok response with a JSON body, and yields its summary text. Every failure carries the generic message, and its cause says which step failed. |
| `GeminiClient.FailuresIndistinguishable` | popup.js:232-234 | Any two failed requests show the caller the same message, whatever the API said. |
| `GeminiClient.GetGeminiSummary` | popup.js:182-235 | A success is never empty. A failure's message is always "Failed to generate summary. Please try again later.". |
| `PopupController.CaughtMessage` | popup.js:42-46 | The catch renders "Error: " followed by the error's message if it is truthy, and "Failed to generate summary." otherwise. |
| `PopupController.Summarize` | popup.js:1-48 | A missing or empty key gives the fixed missing-key message, with no tab query and no summariser call. A failed or empty tab query gives the caught error. No reply, or a reply with falsy text, gives the fixed extraction message, with no summariser call. Otherwise there is exactly one summariser call with the reply's text, style and key. Its result is rendered verbatim, or as "Error: " followed by the generic failure. Once every step has settled, the final view is never the loading indicator. |
| `PdfExport.PlacementInBounds` | popup.js:143-157 | Every line lands at a y between 20 and 270, on a page numbered 1 or more. |
| `PdfExport.FirstPlacement` | popup.js:145 | The first line goes on page 1 at y = 35. |
| `PdfExport.NextPlacement` | popup.js:149-156 | A new page begins exactly when the previous y plus 6 exceeds 270, and the line then goes at y = 20. Otherwise it goes 6 lower on the same page. |
| `PdfExport.PlaceLines` | popup.js:143-157 | Each input line is placed exactly once, in order, at x = 20 and at its closed-form page and y. The page count is that of the last line, or 1 when there are no lines. |
| `PdfExport.DownloadPdf` | popup.js:119-170 | Blank text exports nothing. Without the PDF library, or when it throws, the text file's content is exactly the text. Otherwise the PDF has the title at (20, 20) on page 1 and the placed lines. |
| `JsText.TrimStartSpec` | popup.js:83 | `trim` keeps a suffix, drops only whitespace, and stops at the first non-whitespace character. |
| `JsText.TrimEndSpec` | popup.js:83 | `trim` keeps a prefix, drops only whitespace, and stops at the last non-whitespace character. |
| `JsText.BlankIffAllWhitespace` | popup.js:83-85 | The guard "falsy, or trimmed to nothing" holds exactly for the empty and the whitespace-only texts. |
| `SpeechToggle.SpeechButton.constructor` | popup.js:78-79 | The popup opens not speaking, with no utterance. |
| `SpeechToggle.SpeechButton.Click` | popup.js:81-105 | Blank text changes nothing. While speaking, a click only cancels, and flag and text stay. Otherwise speech starts with the text at rate 1, pitch 1 and "en-US", the flag becomes true and the text becomes "Stop Listening". The flag and the button text stay consistent. |
| `SpeechToggle.SpeechButton.UtteranceEnded` | popup.js:94-97 | Resets to not speaking and "Listen to Summary". |
| `SpeechToggle.SpeechButton.UtteranceFailed` | popup.js:98-101 | Resets to not speaking and "Listen to Summary". |
| `SpeechToggle.SpeechButton.EngineEnded` | popup.js:107-110 | Resets to not speaking and "Listen to Summary". |
| `SpeechToggle.SpeechButton.VoicesChanged` | popup.js:111-116 | Resets only when the engine reports that it is not speaking, and otherwise changes nothing. |

## Left out

- The `fetch` call itself, the endpoint URL and query string, `JSON.stringify` of the body and `res.json()` parsing: network and foreign calls. The transport is a function parameter, and parsed bodies are datatypes.
- The `temperature: 0.2` generation setting: a floating-point constant with no logic attached.
- `chrome.storage.sync.get`, `chrome.tabs.query` and `chrome.tabs.sendMessage`: browser I/O. Their settled results are the handler's inputs.
- PopupController.Summarize: a `fetch`, `res.json()` or browser callback that never settles leaves the pane on the loading indicator. The model's inputs are settled results, so it does not capture that case.
- The wording of the TypeError for an empty tab list: it belongs to the JavaScript engine, and the model uses V8's.
- jsPDF internals (`splitTextToSize`, fonts, `doc.text`, `addPage`, `save`): a foreign library. The split is a function parameter, and any exception it raises is a boolean input.
- The Blob and anchor download in `downloadAsText` (popup.js:172-180): browser I/O. The model produces only the file's name and content.
- The copy button (popup.js:51-70): its clipboard write and its 2-second label reset are I/O and a timer.
- The speech engine: utterances, voices, and when `end` or `error` events actually fire. Events are method calls, and the engine's `speaking` flag is an input.
- The button's initial text: it comes from popup.html, which is not part of this model. It is taken to be "Listen to Summary".
- Races between overlapping click chains: they come from asynchronous interleaving. Each click is modelled as one sequential run.
- HTML rendering through `innerHTML`/`innerText`, the red error styling and the `result-pleasing` class (popup.js:72-74). The view is a tagged value.
- `console.error` logging: the logged cause is kept as data, but nothing is logged.
- JavaScript's dynamic typing: stored keys, tab ids and texts are modelled as strings or integers only. A non-string truthy `text` in a response is not modelled.
- UTF-16 semantics of `length` and `substring`: text is `seq<char>`.
- options.js (save the trimmed key if non-empty, then close the tab) and background.js (open the options page on install): storage and tab I/O outside the popup.
- The bullets prompt asks the model to start every line with "- ". That is a request about the API's output, which no model of this code can enforce.
