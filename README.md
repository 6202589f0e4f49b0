# PDF.AI Reader: chat context, stream relay and reader state in Dafny

PDF.AI Reader is a browser reader for PDF and EPUB documents with a chat pane. The browser client
(`app.js`) keeps the text of every page or chapter, picks a window of pages around the page being read
that fits a token budget, and posts it with the user's question to a small Express server (`server.js`).
The server validates the request, chooses an API key, composes one prompt, calls the Anthropic Messages
API with streaming on, and relays the `data:` lines of the event stream back to the client. The client
accumulates the text deltas into the answer.

This project models that core on values and small mutable objects:

- `Wrappers` holds `Option`.
- `Text` holds the JavaScript string operations the code relies on: `trim` with JavaScript's white-space set, `split`, `join`, `includes`, `startsWith`, integer-to-string and ASCII lower-casing.
- `Protocol` holds the request the client posts and the server reads: `message`, `pdfText` and `contextInfo`.
- `ContextWindow` holds `estimateTokens` and `getSmartContext`. The latter is a `while` loop over two cursors, proved against a declarative description of the window it returns.
- `PageText` holds the assembly of the page map and of the labelled full text, for PDF pages and for EPUB chapters.
- `EventStream` holds the line format both ends share: split on line feeds, drop blank lines, keep `data: ` payloads, and write frames as `data: <payload>\n\n`.
- `Links` holds `href` classification and the chapter lookup of EPUB links.
- `Viewer` holds the `Reader` class with the client's globals: the current page, the button states, the chat font size and the loaded document.
- `ChatClient` holds context selection, the request body, routing of the server's reply, and the stream-reading loop of `sendMessage`.
- `ChatServer` holds the `/api/chat` handler: validation, key choice, prompt composition, routing of the upstream answer, the relay loop, and a `Response` class recording what the handler does to the Express response. It also holds lemmas joining the server's relay to the client's reader.

The network, Express and the upstream API are parameters:
- The handler receives the upstream call as a function from request to answer.
- The client receives the server as a function from request to reply.
- A stream is given as its decoded chunks and how it ended.
- `JSON.parse` of an event is a parameter returning an abstract event.

## Model

| member | source | states |
|---|---|---|
| Text.Utf16Length | app.js:353 | `text.length` counts UTF-16 code units: one per character of the Basic Multilingual Plane, two per character above it, so between `|s|` and `2|s|` |
| Text.Utf16LengthAppend | app.js:353 | the UTF-16 length of a concatenation is the sum of the lengths |
| ContextWindow.EstimateTokens | app.js:352-354 | the estimate is the least `t` with `3t >= text.length` in UTF-16 code units, i.e. `ceil(length/3)` |
| ContextWindow.Label | app.js:387 | the block label is `Chapter` exactly for an EPUB, otherwise `Page` |
| ContextWindow.KeyBounds | app.js:370-373 | for a non-empty key set, returns keys that are the least and the greatest of all keys |
| ContextWindow.TryExpandUp | app.js:403-417 | one upward step: prepends the block of `expandUp` and adds its cost when the page has text and fits strictly under the budget, otherwise parks the cursor at 0 |
| ContextWindow.TryExpandDown | app.js:420-434 | one downward step: appends the block of `expandDown` when it has text and fits, otherwise parks the cursor past the largest key |
| ContextWindow.GetSmartContext | app.js:369-442 | an empty map gives `("", [], 0)`. Otherwise the centre is `centerPage` if its text is non-empty, else the least key. The result is the window `lo..hi` around it: text, pages and tokens are the window's blocks, page list and summed costs. Tokens stay below the budget once a neighbour is added. Every page of the window fitted beside the window as it stood in its own round (round `j` tries `c-j`, then `c+j`), and each side ended with a refusal of its next page against the window of that round |
| ContextWindow.WindowMaximal | app.js:400-435 | neither side of the result can take its next page: it is missing or empty, or its block would not fit beside the whole result |
| ContextWindow.WindowUnique | app.js:400-435 | for one centre and budget at most one window meets the growth rule, so the contract of `GetSmartContext` determines its result |
| ContextWindow.WindowPages | app.js:394-435 | pages are consecutive ascending integers, hold exactly the pages of `lo..hi` with non-empty text, and contain the centre iff its text is non-empty |
| ContextWindow.PagesRange | app.js:396-427 | the page list equals the integer range from `lo` (or `c+1` when the centre is empty) to `hi` |
| ContextWindow.WindowText | app.js:390-426 | the window text is non-empty and its token count is at least the estimate of the whole text |
| PageText.CollapseSpace | app.js:272 | `replace(/\s+/g, ' ')`: no two spaces in a row, no longer than the input, empty iff the input is, and the first character is kept or becomes a space; where the runs go is stated by `CollapseSpaceWords` |
| PageText.CollapseWords | app.js:272 | for a string without leading white space, the collapsed string is its words joined by single spaces, plus one space exactly when it ends in white space after a word |
| PageText.CollapseSpaceWords | app.js:272 | a blank string collapses to one space (the empty string to itself); any other collapses to its words, the maximal runs of non-white-space characters, joined by single spaces, with one space in front iff it starts with white space and one behind iff it ends with it |
| PageText.NormaliseWords | app.js:272 | `replace(/\s+/g, ' ').trim()` is the words of the input joined by single spaces |
| PageText.NormaliseSpec | app.js:272 | the normalised text is the words joined by single spaces; so it keeps every non-space character in order, leaves no run of spaces and no space at either end, and is empty iff the input is blank |
| PageText.ChapterText | app.js:271-273 | a chapter's stored text is never empty |
| PageText.ChapterPlaceholders | app.js:271-300 | a chapter that failed to load stores `[Failed to load chapter content]`; a blank one stores `[No textual content]` |
| PageText.ChapterLoaded | app.js:272-273 | a non-blank chapter stores its words joined by single spaces: the same non-space characters, collapsed, trimmed |
| PageText.ExtractPdfText | app.js:333-349 | page map keys are exactly `1..n`; page `i+1` holds page `i`'s items joined by a space; the full text is the `Page` blocks `1..n` in order |
| PageText.StoreChapters | app.js:264-309 | chapter map keys are exactly `1..n`, chapter `i+1` holding `ChapterText` of chapter `i` |
| PageText.ChaptersPresent | app.js:273 | every chapter counts as present for the context window |
| PageText.KeyedDumpRange | app.js:312-317 | mapping the keys `a..b-1` in ascending order to `\n\n--- tag k ---\n` blocks and joining them gives the window blocks over `a..b` |
| PageText.ExtractEpubText | app.js:264-317 | chapter map as in `StoreChapters`, and the full text is the `Chapter` blocks `1..n` in order |
| EventStream.Lines | server.js:164 | every line after the split and filter holds no line feed and is not blank |
| EventStream.Payload | server.js:167-168 | a data line is `data: ` followed by its payload |
| EventStream.FrameLines | server.js:172 | a frame reads back as its single data line, followed by whatever follows it |
| EventStream.FramesRoundTrip | server.js:172 | reading back the frames written for payloads without line feeds yields those payloads, in order |
| EventStream.RelayPreservesPayloads | server.js:163-172 | the frames the server writes for one upstream chunk carry, read as one chunk, exactly that chunk's payloads |
| Links.ClassifyHref | app.js:1172-1231 | an empty `href` gets no handler; one starting with `#` scrolls to the rest; any other not starting with `http://`, `https://` or `mailto:` opens a chapter; `http(s)` links open externally; `mailto:` does nothing |
| Links.MarkedIffInBook | app.js:1235 | a link is marked as a jump exactly when its click scrolls to an anchor or opens a chapter |
| Links.ChapterLinkParts | app.js:1196 | the chapter path holds no `#`; there is an anchor iff the `href` holds a `#`; the `href` starts with path `#` anchor |
| Links.ChapterLinkRoundTrip | app.js:1195-1196 | splitting `path` or `path#anchor` on `#` gives back the path and the anchor |
| Links.Register | app.js:292-294 | assigning `epubHrefToIndex[href] = i` keeps a known key in its place with the new index, and appends a new key at the end |
| Links.FirstOccurrencesDistinct | app.js:293 | the index's keys, in insertion order, are distinct |
| Links.IndexSpine | app.js:264-294 | the index holds each spine item with an `href`, in order of first occurrence, mapped to its last position |
| Links.FindChapter | app.js:1199-1206 | the result is -1 iff no key matches by mutual substring; otherwise it is the index of the first matching key in insertion order |
| Viewer.ExtensionAfterLastDot | app.js:160 | the extension is the lower-cased text after the last dot, or the whole lower-cased name without a dot |
| Viewer.DetectDocumentType | app.js:160-168 | a PDF iff the MIME type or the extension says PDF; else an EPUB iff either says EPUB; else neither |
| Viewer.DetectByExtension | app.js:160-163 | with an unrelated MIME type, `x.pdf` or `x.epub` is detected in any letter case, anything else is refused |
| Viewer.ButtonsMatchGuard | app.js:574-604 | on a page of the document, each button is disabled exactly when `goToPage` would refuse its move |
| Viewer.FontSizeSteps | app.js:1098-1110 | from an even size in 10..24, both buttons stay there. Each undoes the other away from the end it moves toward, and each is a no-op exactly at its end |
| Viewer.DefaultFontSizeInSteps | app.js:34 | the default size 14 is one of the reachable sizes |
| Viewer.FontSizeLabelBands | app.js:1124-1136 | the label is `A` only at 10, `AA` at 18, 20, 22 and 24, and `Aa` for every other size |
| Viewer.LabelPixelsCap | app.js:1137 | the label's pixel size is `min(size + 2, 18)`, and it is 18 exactly at sizes of 16 or more |
| Viewer.Reader.constructor | app.js:14-34 | the initial globals: no document, page 1, empty maps, font size 14; both buttons enabled, the default of an HTML button (see Left out) |
| Viewer.Reader.TotalPages | app.js:356-366 | a PDF's page count (0 before one is loaded); for an EPUB the spine length, or the number of stored chapters when the spine is empty, 0 iff both are empty; 0 with no document |
| Viewer.Reader.UpdatePageInfo | app.js:600-604 | previous is disabled iff `currentPage <= 1`; next is disabled iff the total is 0 or `currentPage >= total` |
| Viewer.Reader.GoToPage | app.js:574-597 | a page outside `1..total` or equal to the current one changes nothing; any other becomes current and the buttons are recomputed |
| Viewer.Reader.PreviousPage | app.js:76 | in any state: a disabled button or a move `goToPage` refuses changes nothing, an enabled button with an allowed move goes one page back with the buttons recomputed; on a page with current buttons it moves exactly when the button is enabled |
| Viewer.Reader.NextPage | app.js:77 | the same for the next button and one page on |
| Viewer.Reader.IncreaseChatFontSize | app.js:1098-1103 | the size becomes the increased size: +2 below 24, otherwise unchanged |
| Viewer.Reader.DecreaseChatFontSize | app.js:1105-1110 | the size becomes the decreased size: -2 above 10, otherwise unchanged |
| Viewer.Reader.LoadPdf | app.js:194-227 | a PDF of `n` pages: page map `1..n` of joined items, full text of `Page` blocks, no spine, page 1, buttons current |
| Viewer.Reader.LoadEpub | app.js:234-326 | an EPUB: chapter map `1..n`, full text of `Chapter` blocks, the spine's `href` index, page 1, buttons current |
| Viewer.Reader.SetChapterTexts | app.js:264-317 | the chapter map and the full text for the given spine |
| Viewer.Reader.FollowLink | app.js:1172-1231 | the click action is the classified `href`. Only a found chapter moves, to its index + 1 through the `goToPage` guard, and a chapter is found exactly as `FindChapter` finds it |
| ChatClient.UserMessage | app.js:852-853 | nothing is sent iff the input is blank; a sent message is trimmed and non-empty |
| ChatClient.WindowTextNotBlank | app.js:875 | a window's text is never blank, so the smart text is used whenever a window was built |
| ChatClient.SelectWindow | app.js:869-879 | with a window, the context is its text and tokens; start and end are the first and last included page, or the current page when none is included |
| ChatClient.SelectEmpty | app.js:869-879 | with the empty window, the context is the full text with its own estimate and the range is the current page |
| ChatClient.BuildRequest | app.js:869-898 | the posted body carries the message, the selected text and `contextInfo` (current page, total, included pages, estimate); the window is the one `GetSmartContext` specifies |
| ChatClient.RouteReply | app.js:901-933 | a non-ok reply is an error. An ok reply is read as events iff its content type names `text/event-stream`, and otherwise it is shown as a single answer |
| ChatClient.Delta | app.js:977 | a delta is taken only from a `content_block_delta` with non-empty text |
| ChatClient.ReadLine | app.js:963-985 | a line ends the chunk iff it is `data: [DONE]`, which finalises the message; any other line is read as `ReadLines` reads it |
| ChatClient.ReadChunk | app.js:959-986 | reading a chunk is reading its non-blank lines in order |
| ChatClient.ReadLinesSpec | app.js:962-986 | after a chunk's lines, the text grows by the deltas of the payloads before the first `[DONE]`, the counter by their number, and the message is finalised once iff a `[DONE]` occurs |
| ChatClient.ReadChunksSpec | app.js:951-987 | over all chunks, the text is the concatenation of every chunk's deltas and streaming ends iff some chunk held `[DONE]` |
| ChatClient.NoDoneNoFinalise | app.js:966-971 | without `[DONE]` the loop finalises nothing |
| ChatClient.FinishAsWrittenNeverSettles | app.js:991-994 | the post-loop rule as written never changes the streaming state and finalises only a message already finalised |
| ChatClient.FinishAsWrittenMissesUnterminated | app.js:991-994 | a stream with text and no `[DONE]` stays streaming and unfinalised under the rule as written, but is finalised with its text under the corrected rule |
| ChatClient.FinishSettles | app.js:991-994 | the corrected rule: text present means the message leaves streaming, a settled message is untouched, and at most one finalisation is added |
| ChatClient.FinalisedGrows | app.js:966-971 | reading never removes a finalisation, and chunks holding `[DONE]` add at least one |
| ChatClient.ReadStream | app.js:950-998 | a failed stream keeps what was read; a completed one is read and then passed through the post-loop line as written |
| ChatClient.StreamOutcome | app.js:950-994 | as written: the answer is the concatenation of all deltas; the message stays streaming iff no `[DONE]` arrived, and is then never finalised; a `[DONE]` finalises it, and with text the post-loop line finalises it a second time with the whole answer |
| ChatClient.CorrectedStreamOutcome | app.js:991-994 | with the corrected post-loop line: the message stays streaming iff there was no text and no `[DONE]`, and text without `[DONE]` is finalised exactly once, in full |
| ChatClient.SendMessage | app.js:851-1010 | a blank input sends nothing. Otherwise the trimmed message is sent, and the outcome follows the reply's route: error, fallback answer, or the streamed reading finished by the post-loop line as written |
| ChatServer.Validate | server.js:25-31 | an absent message throws. The request is accepted iff message and text are both present and non-empty, and then carries them unchanged |
| ChatServer.ApiKey | server.js:33-41 | the key is the trimmed header when it is not blank, otherwise the server's key when non-empty; none exactly when neither gives one |
| ChatServer.ClientRequestValidated | server.js:29-31 | a request the client sends is accepted with the document text unless that text is empty |
| ChatServer.NoteIffPartial | server.js:67-81 | the context section is present iff `contextInfo.includedPages` is; the note ends it iff fewer pages are included than the total |
| ChatServer.WindowRange | server.js:68-70 | for a window of several pages, the range reads `pages first-last` with last = first + count - 1 |
| ChatServer.AppendSections | server.js:67-83 | the successive `+=` steps build the opening text, context section, document, question and closing, in that order |
| ChatServer.ComposePrompt | server.js:44-83 | the prompt is the instructions followed by those sections |
| ChatServer.PromptLayout | server.js:83 | the prompt starts with the opening text, ends with the closing line, and holds the document and then the question at their fixed offsets |
| ChatServer.ComposeCall | server.js:86-109 | the upstream request: the messages URL, the chosen key, version `2023-06-01`, the model, 64000 max tokens, streaming on, and the prompt as the only, `user`, message |
| ChatServer.RouteUpstream | server.js:115-138 | a non-2xx status is mirrored. A 2xx answer is relayed as events iff its content type names `text/event-stream`, and otherwise its JSON is forwarded |
| ChatServer.RoutesAgree | server.js:115-181 | read off the status and content type of the response the handler leaves: the client shows the answer as JSON iff the handler forwarded parsed JSON, reads events iff a relay began, and shows an error otherwise (a rejected fetch, a mirrored error, unreadable JSON, a stream that failed before its first payload) |
| ChatServer.Response.constructor | server.js:24 | a fresh response: status 200, no headers, nothing written, not sent, not ended |
| ChatServer.Response.Status | server.js:121 | sets the status code |
| ChatServer.Response.SetHeader | server.js:141-143 | sets one header before anything is sent |
| ChatServer.Response.Write | server.js:158-172 | appends one write and marks the headers sent |
| ChatServer.Response.Json | server.js:121-137 | sends one JSON body, with the JSON content type unless one was already set, and ends the response |
| ChatServer.Response.End | server.js:159 | ends the response |
| ChatServer.SetEventHeaders | server.js:141-143 | the three event-stream headers are set, before any write |
| ChatServer.FramedConcat | server.js:172 | the writes made for the payloads, joined, are the frames of those payloads |
| ChatServer.RelayLines | server.js:166-174 | each `data: ` line of a chunk is written, in order, as `data: <rest>\n\n`, and other lines are dropped; the count is the number written |
| ChatServer.RelayChunks | server.js:152-175 | over all chunks, the writes are the frames of every payload in order and the count equals their number |
| ChatServer.RelayStream | server.js:140-181 | event headers set; all payload frames written. On completion, exactly one `data: [DONE]\n\n` is written and the response ends. On failure, a 500 JSON error is sent only if nothing was written, otherwise the response is left open |
| ChatServer.Forward | server.js:115-143 | after `fetch`: mirror an error status with `API error: <status>` and its text, forward parsed JSON (a parse failure is a 500), or relay the stream |
| ChatServer.HandleChat | server.js:24-190 | throws iff the message is absent. A missing field gives 400, no key gives 500 misconfiguration, and both happen before any upstream call. Otherwise the one upstream call is the composed prompt under the chosen key, and the response is what `Forward` leaves, or a 500 when `fetch` rejects |
| ChatServer.DeliveredIsWritten | server.js:156-181 | joined, the client's chunks in `Delivered` are exactly the frames of every upstream payload followed by the done frame, the writes of a completed relay |
| ChatServer.RelayDelivers | server.js:156-181 | after a completed relay, the writes on the response, joined, are what `Delivered` hands the client |
| ChatServer.DeliveredDeltas | server.js:156-172 | what the client receives from a completed relay carries the upstream deltas unchanged and always holds `[DONE]` |
| ChatServer.RelayedAnswer | server.js:156-172 | end to end, with the client's post-loop line as written: after a completed relay the client's answer is the concatenation of the upstream deltas, the message is no longer streaming, and its last finalisation is the whole answer |

## Left out

**Presentation and drivers**
- PDF.js and epub.js loading, page and canvas rendering, text layers and annotations are left out. They are foreign libraries and DOM. A PDF is given as each page's text items; an EPUB as each spine item's `href` and its text, or none when the chapter failed to load.
- Markdown, KaTeX and highlight.js rendering and message DOM construction are presentation. The streamed answer is modelled as its text, its streaming state and the texts it was finalised with.
- Zoom, fit-to-width or fit-to-page scale, EPUB font percentage and pane resizing are floating-point layout.
- Scroll-position page tracking and text-selection walking depend on DOM geometry.
- Clipboard, `localStorage` (including `loadChatFontSize`), `alert`/`confirm`, `setTimeout` animations and the delayed anchor scroll after a chapter link are left out. They are browser services.

**Network, parsing and runtime**
- The `fetch` calls, Express middleware, static serving and `listen` are I/O. The upstream API and the server are parameters, and exceptions are outcomes.
- `JSON.parse` is a parameter returning an abstract event. The JSON serialisation of request and response bodies is not modelled, and a forwarded JSON body is its text.
- `TextDecoder`: chunks are given as decoded strings.
- Console logging is left out.
- Concurrency of several chat requests is left out. Each call is modelled alone.
- Lines split across chunks are not buffered, as in the source. `ChatServer.RelayedAnswer` assumes each upstream chunk's frames reach the client together, because network re-chunking is outside the model.
- Express's own checks are left out. It refuses status codes outside 100-999 and throws on `setHeader` after sending. The handler is only proved not to need them: `SetHeader` and `Json` require that nothing was sent.
- A non-string `delta.text` or `message` is not represented. The fields are strings or absent.
- `NaN` page numbers from `parseInt` are not representable in an integer model.
- The initial `disabled` state of the page buttons comes from `index.html`, which is not part of this model. The constructor takes the HTML default, enabled, and `PreviousPage`/`NextPage` are stated for any button state.
- `ChatServer.Response.Json` keeps a content type set before it unchanged. Express also appends `; charset=utf-8` to it, so the 500 that `ChatServer.RelayStream` sends after the event headers carries `text/event-stream; charset=utf-8`, where the model keeps `EVENT_HEADERS`. The charset parameter is not modelled; the client routes both the same way.
- `Links.FindChapter` scans the keys in insertion order. `Object.entries` (app.js:1201) lists integer-like keys (such as `"3"`) first, in ascending order, and only then the others in insertion order. Spine `href`s are normally file paths, which are not integer-like; an all-digit `href` is not modelled and could change which key matches first.

**Weaker or restricted contracts**
- `ContextWindow.GetSmartContext` requires every page key to be at least 1. The app stores only keys `i + 1` and page numbers from 1. With a key of 0 or less, the "stop" value `expandUp = 0` would not stop the upward cursor.
- `Text.ToLowerAscii`: file extensions are lower-cased for ASCII letters only. There is no Unicode case folding.
- `ChatServer.PromptLayout` is stated for any opening text. `ChatServer.Prompt` instantiates it with the fixed instructions.
- `ChatServer.Forward`: a failure of `response.text()` on an error status is not modelled.
- `ChatServer.RelayStream`: a stream error after frames were written leaves the response open with no error and no end, as the source does.

## Findings

| source | as written | input that shows it | evidently intended | confidence | as-written member | corrected member |
|---|---|---|---|---|---|---|
| app.js:991-994 | the post-loop finalise fires only when the message has already left the streaming state, i.e. was already finalised by `[DONE]` | one chunk `data: {}\n\n` whose event is a `content_block_delta` with text `Hi`, then end of stream with no `[DONE]` | per the comment, a message that has text but never received `[DONE]` is finalised after the loop | not executed | ChatClient.FinishAsWrittenMissesUnterminated | ChatClient.FinishSettles |

`ChatClient.ReadStream`, `ChatClient.SendMessage` and `ChatClient.StreamOutcome` follow the rule as written (`ChatClient.FinishAsWritten`). The corrected rule is `ChatClient.Finish`, with `ChatClient.FinishSettles` and `ChatClient.CorrectedStreamOutcome` proved about it.
