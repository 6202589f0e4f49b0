/**
 * The chat endpoint: POST /api/chat validates the body, chooses the API key, composes the
 * prompt, calls the upstream messages API, and either mirrors its error, forwards its JSON
 * answer, or relays its event stream line by line.
 */
module ChatServer {
  import opened Wrappers
  import opened Text
  import opened Protocol
  import opened EventStream
  import ContextWindow
  import ChatClient

  const MODEL: string := "claude-sonnet-4-5-20250929"
  const MAX_TOKENS: int := 64000
  const API_VERSION: string := "2023-06-01"
  const MESSAGES_URL: string := "https://api.anthropic.com/v1/messages"

  /** The content type Express gives a JSON reply when none was set before. */
  const JSON_TYPE: string := "application/json; charset=utf-8"
  const EVENT_STREAM_TYPE: string := "text/event-stream"

  /** The frame written when the upstream stream is done. */
  const DONE_FRAME: string := Frame(DONE_PAYLOAD)

  const REQUIRED_ERROR: string := "Message and PDF text are required"
  const MISCONFIGURED_ERROR: string := "Server misconfiguration"
  const MISSING_KEY_DETAILS: string :=
    "No Anthropic API key provided. Set ANTHROPIC_API_KEY or supply an x-api-key header."
  const INTERNAL_ERROR: string := "Internal server error"
  const STREAMING_ERROR: string := "Streaming error"

  // ---------------------------------------------------------------------------------------
  // Validation and the API key

  /** How the handler's first lines treat the body. */
  datatype Validation =
    | Throws                                          // `message.substring` on a missing message
    | Rejected                                        // answered 400
    | Accepted(message: string, pdfText: string)

  /**
   * The log line dereferences `message` before anything is checked, so a body without one throws;
   * an empty message or a missing or empty `pdfText` is rejected; anything else is accepted.
   */
  function Validate(req: ChatRequest): (v: Validation)
    ensures v.Throws? <==> req.message.None?
    ensures v.Accepted? <==> req.message.Some? && req.message.value != "" && req.pdfText.Some? && req.pdfText.value != ""
    ensures v.Accepted? ==> v.message == req.message.value && v.pdfText == req.pdfText.value
  {
    match req.message
    case None => Throws
    case Some(m) =>
      if m == "" || req.pdfText.None? || req.pdfText.value == "" then Rejected
      else Accepted(m, req.pdfText.value)
  }

  /**
   * The trimmed `x-api-key` header when it is not empty, else the server's own key; no key at
   * all when neither is usable. The server's key is taken as it is, untrimmed.
   */
  function ApiKey(header: Option<string>, serverKey: Option<string>): (key: Option<string>)
    ensures key.Some? ==> key.value != ""
    ensures key.None? <==> IsBlank(header.GetOr("")) && (serverKey.None? || serverKey.value == "")
    ensures !IsBlank(header.GetOr("")) ==> key == Some(Trim(header.GetOr("")))
    ensures IsBlank(header.GetOr("")) ==> key == (if serverKey == Some("") then None else serverKey)
  {
    var h := header.GetOr("");
    TrimEmptyIffBlank(h);
    var t := Trim(h);
    if t != "" then Some(t)
    else if serverKey.Some? && serverKey.value != "" then serverKey
    else None
  }

  /**
   * A request the client built from a typed message is accepted exactly when its document text is
   * not empty, with the trimmed message; a document without text is answered 400.
   */
  lemma ClientRequestValidated(input: string, contextText: string, info: Option<ContextInfo>)
    requires !IsBlank(input)
    ensures Validate(ChatRequest(ChatClient.UserMessage(input), Some(contextText), info))
         == if contextText == "" then Rejected else Accepted(Trim(input), contextText)
  {
    TrimEmptyIffBlank(input);
  }

  // ---------------------------------------------------------------------------------------
  // The prompt

  const INSTRUCTIONS: string :=
    "You are an expert AI assistant helping users understand and analyze PDF documents. Your role is to provide clear, accurate, and well-structured responses.\n"
    + "\n"
    + "## Response Guidelines:\n"
    + "1. **Prioritize PDF Content**: Base your answer primarily on the provided PDF document\n"
    + "2. **Supplement with Knowledge**: You can also use your general knowledge to:\n"
    + "   - Explain concepts mentioned in the PDF\n"
    + "   - Provide additional context or examples\n"
    + "   - Answer follow-up questions that relate to the PDF topic\n"
    + "   - Clarify terminology or technical details\n"
    + "3. **Use Formatting**: Use markdown for readability (headings, lists, bold, etc.) when appropriate\n"
    + "4. **Cite Pages**: Reference specific page numbers when quoting from the PDF (e.g., \"On page 5...\")\n"
    + "5. **Adapt to Content**:\n"
    + "   - If the PDF contains code, provide code examples with proper language syntax highlighting\n"
    + "   - If the PDF contains mathematical equations, use LaTeX notation ($...$ for inline, $$...$$ for display)\n"
    + "   - If the PDF is a report or article, summarize and explain clearly\n"
    + "   - Match your response style to the document type\n"
    + "\n"
    + "## Key Principles:\n"
    + "- Always indicate whether information is from the PDF or your general knowledge\n"
    + "- Be direct and comprehensive\n"
    + "- Structure complex answers with headings and sections\n"
    + "- Quote relevant text when it helps clarify your answer"

  const CONTEXT_HEADING: string := "\n\n## Current Context:\n- **User's Current Page**: "
  const AVAILABLE_HEADING: string := "\n- **Pages Available to You**: "
  const NOTE: string :=
    "\n- **Note**: For a large PDF, you only have access to pages around the user's current location."
    + " If the answer requires information from other sections, politely suggest the user navigate to those pages."
  const DOCUMENT_HEADING: string := "\n\n## PDF Document Content:\n\n"
  const QUESTION_HEADING: string := "\n\n## User's Question:\n"
  const CLOSING: string := "\n\n---\n\nProvide a clear, well-formatted answer based on the PDF content above."

  /** A number interpolated into a template literal: its decimal form, or `undefined` when absent. */
  function Shown(v: Option<int>): (s: string)
    ensures v.None? ==> s == "undefined"
    ensures v.Some? ==> s == IntToString(v.value)
  {
    match v
    case None => "undefined"
    case Some(n) => IntToString(n)
  }

  /** `pages first-last` for several pages, else `page p`; an empty list reads `page undefined`. */
  function PageRange(pages: seq<int>): string {
    if |pages| > 1 then "pages " + IntToString(pages[0]) + "-" + IntToString(pages[|pages| - 1])
    else "page " + Shown(if pages == [] then None else Some(pages[0]))
  }

  /** The note is due when fewer pages are included than the document has; an absent total compares false. */
  predicate NoteDue(pages: seq<int>, totalPages: Option<int>) {
    totalPages.Some? && |pages| < totalPages.value
  }

  /** The two lines of the "Current Context" section, up to an optional note. */
  function ContextLines(currentPage: Option<int>, totalPages: Option<int>, pages: seq<int>): (s: string)
    ensures s != [] && s[|s| - 1] == ')'
  {
    CONTEXT_HEADING + Shown(currentPage) + " of " + Shown(totalPages)
      + AVAILABLE_HEADING + PageRange(pages) + " (" + NatToString(|pages|) + " pages)"
  }

  /** The "Current Context" section, present only when the client sent its page list. */
  function ContextSection(info: Option<ContextInfo>): string {
    if info.Some? && info.value.includedPages.Some? then
      var pages := info.value.includedPages.value;
      ContextLines(info.value.currentPage, info.value.totalPages, pages)
        + (if NoteDue(pages, info.value.totalPages) then NOTE else "")
    else ""
  }

  /** The prompt after its opening text: context, document text, question and the closing request. */
  function PromptAfter(head: string, message: string, pdfText: string, info: Option<ContextInfo>): string {
    head + ContextSection(info) + DOCUMENT_HEADING + pdfText + QUESTION_HEADING + message + CLOSING
  }

  /** The prompt sent as the one user message, opening with the instructions. */
  function Prompt(message: string, pdfText: string, info: Option<ContextInfo>): string {
    PromptAfter(INSTRUCTIONS, message, pdfText, info)
  }

  lemma AppendFive(x: string, a: string, b: string, c: string, d: string, e: string)
    ensures x + (a + b + c + d + e) == x + a + b + c + d + e
  {
  }

  /** The `+=` steps that follow the instructions, applied to whatever `head` holds. */
  method AppendSections(head: string, message: string, pdfText: string, info: Option<ContextInfo>)
    returns (prompt: string)
    ensures prompt == PromptAfter(head, message, pdfText, info)
  {
    prompt := head;
    if info.Some? && info.value.includedPages.Some? {
      var pages := info.value.includedPages.value;
      var lines := ContextLines(info.value.currentPage, info.value.totalPages, pages);
      prompt := prompt + lines;
      if NoteDue(pages, info.value.totalPages) {
        AppendAssoc(head, lines, NOTE);
        prompt := prompt + NOTE;
      } else {
        AppendEmpty(lines);
      }
    } else {
      AppendEmpty(head);
    }
    assert prompt == head + ContextSection(info);
    AppendFive(prompt, DOCUMENT_HEADING, pdfText, QUESTION_HEADING, message, CLOSING);
    prompt := prompt + (DOCUMENT_HEADING + pdfText + QUESTION_HEADING + message + CLOSING);
  }

  /** `systemMessage`: the instructions, then the `+=` steps. */
  method ComposePrompt(message: string, pdfText: string, info: Option<ContextInfo>) returns (prompt: string)
    ensures prompt == Prompt(message, pdfText, info)
  {
    prompt := AppendSections(INSTRUCTIONS, message, pdfText, info);
  }

  /** A string ends with whatever was appended last. */
  lemma EndsWithAppend(a: string, b: string)
    ensures EndsWith(a + b, b)
  {
    assert (a + b)[|a|..] == b;
  }

  /** Strings whose last characters differ do not end one with the other. */
  lemma LastCharDiffers(s: string, t: string)
    requires s != [] && t != [] && s[|s| - 1] != t[|t| - 1]
    ensures !EndsWith(s, t)
  {
    if |t| <= |s| {
      assert s[|s| - |t|..][|t| - 1] == s[|s| - 1];
    }
  }

  lemma NoteEndsInStop()
    ensures NOTE != [] && NOTE[|NOTE| - 1] == '.'
  {
  }

  /**
   * The section closes with the note exactly when the page list is shorter than the reported
   * total: without the note it closes with `pages)`. The section is there exactly when the client
   * sent a page list.
   */
  lemma NoteIffPartial(info: Option<ContextInfo>)
    ensures ContextSection(info) != "" <==> info.Some? && info.value.includedPages.Some?
    ensures EndsWith(ContextSection(info), NOTE)
        <==> info.Some? && info.value.includedPages.Some? && NoteDue(info.value.includedPages.value, info.value.totalPages)
  {
    NoteEndsInStop();
    if info.Some? && info.value.includedPages.Some? {
      var pages := info.value.includedPages.value;
      var lines := ContextLines(info.value.currentPage, info.value.totalPages, pages);
      if NoteDue(pages, info.value.totalPages) {
        EndsWithAppend(lines, NOTE);
      } else {
        AppendEmpty(lines);
        LastCharDiffers(lines, NOTE);
      }
    }
  }

  /** Where the parts of a left-nested concatenation of seven strings lie. */
  lemma Layout(a: string, b: string, heading: string, text: string, question: string, message: string, closing: string)
    ensures StartsWith(a + b + heading + text + question + message + closing, a)
    ensures EndsWith(a + b + heading + text + question + message + closing, closing)
    ensures OccursAt(a + b + heading + text + question + message + closing, text, |a| + |b| + |heading|)
    ensures OccursAt(a + b + heading + text + question + message + closing, message,
                     |a| + |b| + |heading| + |text| + |question|)
  {
    var p := a + b + heading + text + question + message + closing;
    var i := |a| + |b| + |heading|;
    var j := i + |text| + |question|;
    assert p[..|a|] == a;
    assert p[|p| - |closing|..] == closing;
    assert p[i..i + |text|] == text;
    assert p[j..j + |message|] == message;
  }

  /**
   * The prompt opens with its opening text (the instructions, in `Prompt`) and closes with the
   * closing request, and the document text comes before the question.
   */
  lemma PromptLayout(head: string, message: string, pdfText: string, info: Option<ContextInfo>)
    ensures StartsWith(PromptAfter(head, message, pdfText, info), head)
    ensures EndsWith(PromptAfter(head, message, pdfText, info), CLOSING)
    ensures OccursAt(PromptAfter(head, message, pdfText, info), pdfText, |head| + |ContextSection(info)| + |DOCUMENT_HEADING|)
    ensures OccursAt(PromptAfter(head, message, pdfText, info), message,
                     |head| + |ContextSection(info)| + |DOCUMENT_HEADING| + |pdfText| + |QUESTION_HEADING|)
  {
    Layout(head, ContextSection(info), DOCUMENT_HEADING, pdfText, QUESTION_HEADING, message, CLOSING);
  }

  /**
   * A window the client selected is one run of pages, so the range names its first page and the
   * page as many pages further on as it has.
   */
  lemma WindowRange(texts: map<int, string>, tag: string, c: int, lo: int, hi: int, r: ContextWindow.SmartContext)
    requires ContextWindow.Spans(texts, tag, c, lo, hi, r) && |r.pages| > 1
    ensures PageRange(r.pages) == "pages " + IntToString(r.pages[0]) + "-" + IntToString(r.pages[0] + |r.pages| - 1)
  {
    ContextWindow.WindowPages(texts, tag, c, lo, hi, r);
  }

  // ---------------------------------------------------------------------------------------
  // The upstream call

  datatype Message = Message(role: string, content: string)

  /** The `fetch` the handler makes: endpoint, headers and JSON body. */
  datatype UpstreamRequest = UpstreamRequest(
    url: string, apiKey: string, version: string,
    model: string, maxTokens: int, stream: bool, messages: seq<Message>)

  /** What `response.json()` yields, re-serialised, or the message it throws with. */
  datatype JsonRead = Parsed(data: string) | Malformed(message: string)

  /** The upstream answer: `fetch` rejects, or a status, a content type and the body read three ways. */
  datatype Upstream =
    | FetchRejected(message: string)
    | Answered(status: int, contentType: Option<string>, text: string, json: JsonRead, body: Stream)

  /** What the handler does with an upstream answer once `fetch` resolved. */
  datatype UpstreamRoute = MirrorError | ForwardJson | RelayEvents

  predicate IsOk(status: int) {
    200 <= status <= 299
  }

  function RouteUpstream(status: int, contentType: Option<string>): (route: UpstreamRoute)
    ensures route == MirrorError <==> !IsOk(status)
    ensures route == RelayEvents <==> IsOk(status) && IsEventStreamType(contentType)
  {
    if !IsOk(status) then MirrorError
    else if !IsEventStreamType(contentType) then ForwardJson
    else RelayEvents
  }

  /** The Express JSON content type does not name an event stream. */
  lemma JsonTypeIsNotEventStream()
    ensures !IsEventStreamType(Some(JSON_TYPE))
  {
    forall i | 0 <= i <= |JSON_TYPE| - |EVENT_STREAM_TYPE|
      ensures !OccursAt(JSON_TYPE, EVENT_STREAM_TYPE, i)
    {
      var w := JSON_TYPE[i..i + |EVENT_STREAM_TYPE|];
      if i == 7 {
        assert w[1] == JSON_TYPE[8] == 'i';
        assert EVENT_STREAM_TYPE[1] == 'e';
      } else {
        assert w[4] == JSON_TYPE[i + 4] != '/';
        assert EVENT_STREAM_TYPE[4] == '/';
      }
    }
  }

  // ---------------------------------------------------------------------------------------
  // The response

  /** A JSON body the handler sends: an error record, or the upstream answer as it came. */
  datatype JsonBody = ErrorBody(error: string, details: Option<string>) | Passthrough(data: string)

  /** The Express response, as far as the handler uses it. */
  class Response {
    var statusCode: int
    var headers: map<string, string>
    var writes: seq<string>
    var jsonBody: Option<JsonBody>
    var headersSent: bool
    var ended: bool

    /** Nothing has been set or sent yet. */
    predicate Untouched()
      reads this
    {
      statusCode == 200 && headers == map[] && writes == [] && jsonBody == None && !headersSent && !ended
    }

    constructor()
      ensures Untouched()
    {
      statusCode := 200;
      headers := map[];
      writes := [];
      jsonBody := None;
      headersSent := false;
      ended := false;
    }

    /** `res.status(code)` */
    method Status(code: int)
      modifies this`statusCode
      ensures statusCode == code
    {
      statusCode := code;
    }

    /** `res.setHeader(name, value)`, which throws once the headers are out. */
    method SetHeader(name: string, value: string)
      requires !headersSent
      modifies this`headers
      ensures headers == old(headers)[name := value]
    {
      headers := headers[name := value];
    }

    /** `res.write(chunk)`: the first write sends the headers. */
    method Write(chunk: string)
      requires !ended
      modifies this`writes, this`headersSent
      ensures writes == old(writes) + [chunk] && headersSent
    {
      writes := writes + [chunk];
      headersSent := true;
    }

    /** `res.json(body)`: keeps a content type set before, else sets the JSON one, then sends and ends. */
    method Json(body: JsonBody)
      requires !headersSent && !ended
      modifies this`headers, this`jsonBody, this`headersSent, this`ended
      ensures headers == if "Content-Type" in old(headers) then old(headers) else old(headers)["Content-Type" := JSON_TYPE]
      ensures jsonBody == Some(body) && headersSent && ended
    {
      if "Content-Type" !in headers {
        headers := headers["Content-Type" := JSON_TYPE];
      }
      jsonBody := Some(body);
      headersSent := true;
      ended := true;
    }

    /** `res.end()` */
    method End()
      modifies this`ended, this`headersSent
      ensures ended && headersSent
    {
      ended := true;
      headersSent := true;
    }
  }

  /** The headers set before relaying. */
  const EVENT_HEADERS: map<string, string> :=
    map["Content-Type" := EVENT_STREAM_TYPE, "Cache-Control" := "no-cache", "Connection" := "keep-alive"]

  // ---------------------------------------------------------------------------------------
  // Relaying the stream

  /** The payloads of a whole stream, chunk after chunk. */
  function StreamPayloads(chunks: seq<string>): seq<string> {
    if chunks == [] then [] else ChunkPayloads(chunks[0]) + StreamPayloads(chunks[1..])
  }

  /** One write per payload, each a frame. */
  function Framed(ps: seq<string>): (ws: seq<string>)
    ensures |ws| == |ps|
  {
    if ps == [] then [] else [Frame(ps[0])] + Framed(ps[1..])
  }

  lemma {:induction false} FramedAppend(a: seq<string>, b: seq<string>)
    ensures Framed(a + b) == Framed(a) + Framed(b)
    decreases |a|
  {
    if a == [] {
      assert a + b == b;
    } else {
      assert (a + b)[0] == a[0] && (a + b)[1..] == a[1..] + b;
      FramedAppend(a[1..], b);
    }
  }

  /** Written one after the other, the frames are the byte stream the client receives. */
  lemma {:induction false} FramedConcat(ps: seq<string>)
    ensures ChatClient.Concat(Framed(ps)) == Frames(ps)
    decreases |ps|
  {
    if ps != [] {
      FramedConcat(ps[1..]);
      assert Framed(ps)[1..] == Framed(ps[1..]);
    }
  }

  /** The inner loop for one decoded chunk: forward each data line's payload as a frame, counting it. */
  method RelayLines(res: Response, lines: seq<string>) returns (count: nat)
    requires !res.ended
    modifies res`writes, res`headersSent
    ensures res.writes == old(res.writes) + Framed(Payloads(lines))
    ensures count == |Payloads(lines)|
    ensures res.headersSent == (old(res.headersSent) || Payloads(lines) != [])
  {
    count := 0;
    var j := 0;
    while j < |lines|
      invariant 0 <= j <= |lines|
      invariant res.writes + Framed(Payloads(lines[j..])) == old(res.writes) + Framed(Payloads(lines))
      invariant count + |Payloads(lines[j..])| == |Payloads(lines)|
      invariant res.headersSent == (old(res.headersSent) || count > 0)
    {
      assert lines[j..][0] == lines[j] && lines[j..][1..] == lines[j + 1..];
      var line := lines[j];
      if IsDataLine(line) {
        var data := Payload(line);
        assert Payloads(lines[j..]) == [data] + Payloads(lines[j + 1..]);
        assert Framed(Payloads(lines[j..])) == [Frame(data)] + Framed(Payloads(lines[j + 1..]));
        AppendAssoc(res.writes, [Frame(data)], Framed(Payloads(lines[j + 1..])));
        count := count + 1;
        res.Write(Frame(data));
      } else {
        assert Payloads(lines[j..]) == Payloads(lines[j + 1..]);
      }
      j := j + 1;
    }
    assert lines[j..] == [];
  }

  /** The relay loop over the upstream chunks, up to the end of the stream. */
  method RelayChunks(res: Response, chunks: seq<string>) returns (count: nat)
    requires !res.ended
    modifies res`writes, res`headersSent
    ensures res.writes == old(res.writes) + Framed(StreamPayloads(chunks))
    ensures count == |StreamPayloads(chunks)|
    ensures res.headersSent == (old(res.headersSent) || StreamPayloads(chunks) != [])
  {
    count := 0;
    var i := 0;
    while i < |chunks|
      invariant 0 <= i <= |chunks|
      invariant res.writes + Framed(StreamPayloads(chunks[i..])) == old(res.writes) + Framed(StreamPayloads(chunks))
      invariant count + |StreamPayloads(chunks[i..])| == |StreamPayloads(chunks)|
      invariant res.headersSent == (old(res.headersSent) || count > 0)
    {
      assert chunks[i..][0] == chunks[i] && chunks[i..][1..] == chunks[i + 1..];
      ghost var before := res.writes;
      var n := RelayLines(res, Lines(chunks[i]));
      assert StreamPayloads(chunks[i..]) == ChunkPayloads(chunks[i]) + StreamPayloads(chunks[i + 1..]);
      FramedAppend(ChunkPayloads(chunks[i]), StreamPayloads(chunks[i + 1..]));
      AppendAssoc(before, Framed(ChunkPayloads(chunks[i])), Framed(StreamPayloads(chunks[i + 1..])));
      count := count + n;
      i := i + 1;
    }
    assert chunks[i..] == [];
  }

  // ---------------------------------------------------------------------------------------
  // The handler

  /** The reply is one JSON body with this status, and nothing was streamed. */
  predicate RepliedJson(res: Response, code: int, body: JsonBody)
    reads res
  {
    res.statusCode == code && res.jsonBody == Some(body) && res.writes == [] && res.ended
  }

  /** A JSON reply on an untouched response: the status, the body and the JSON content type. */
  predicate JsonReply(res: Response, code: int, body: JsonBody)
    reads res
  {
    RepliedJson(res, code, body) && res.headers == map["Content-Type" := JSON_TYPE]
  }

  /** `res.status(code).json(body)` on a response nothing was sent on yet. */
  method SendJson(res: Response, code: int, body: JsonBody)
    requires res.writes == [] && !res.headersSent && !res.ended
    modifies res`statusCode, res`headers, res`jsonBody, res`headersSent, res`ended
    ensures RepliedJson(res, code, body)
    ensures res.headers == if "Content-Type" in old(res.headers) then old(res.headers) else old(res.headers)["Content-Type" := JSON_TYPE]
  {
    res.Status(code);
    res.Json(body);
  }

  /** The three `res.setHeader` calls before relaying. */
  method SetEventHeaders(res: Response)
    requires res.Untouched()
    modifies res`headers
    ensures res.headers == EVENT_HEADERS
  {
    res.SetHeader("Content-Type", EVENT_STREAM_TYPE);
    res.SetHeader("Cache-Control", "no-cache");
    res.SetHeader("Connection", "keep-alive");
  }

  /** A JSON reply after the event headers keeps their content type. */
  lemma EventHeadersHaveType()
    ensures "Content-Type" in EVENT_HEADERS
  {
  }

  /**
   * The end of a relay: after the frames of every payload, a completed stream gets the done frame
   * and is ended; a failed one is answered with a 500 JSON error when nothing was written yet, and
   * is otherwise left open.
   */
  predicate RelayedStream(res: Response, body: Stream, count: nat)
    reads res
  {
    res.headers == EVENT_HEADERS && count == |StreamPayloads(body.chunks)|
    && (body.end.Done? ==>
          res.statusCode == 200 && res.writes == Framed(StreamPayloads(body.chunks)) + [DONE_FRAME]
          && res.jsonBody == None && res.ended)
    && (body.end.Failed? && StreamPayloads(body.chunks) == [] ==>
          RepliedJson(res, 500, ErrorBody(STREAMING_ERROR, Some(body.end.reason))))
    && (body.end.Failed? && StreamPayloads(body.chunks) != [] ==>
          res.statusCode == 200 && res.writes == Framed(StreamPayloads(body.chunks)) && res.jsonBody == None
          && !res.ended)
  }

  /** The event-stream branch: set the headers, relay the chunks, then close or report the failure. */
  method RelayStream(res: Response, body: Stream) returns (count: nat)
    requires res.Untouched()
    modifies res
    ensures RelayedStream(res, body, count)
  {
    SetEventHeaders(res);
    count := RelayChunks(res, body.chunks);
    ghost var ps := StreamPayloads(body.chunks);
    assert res.headers == EVENT_HEADERS && res.statusCode == 200 && res.jsonBody == None && !res.ended;
    assert res.writes == Framed(ps) && (res.headersSent <==> ps != []);
    match body.end
    case Done =>
      res.Write(DONE_FRAME);
      res.End();
    case Failed(reason) =>
      if !res.headersSent {
        EventHeadersHaveType();
        SendJson(res, 500, ErrorBody(STREAMING_ERROR, Some(reason)));
      }
  }

  /** What the handler leaves after the upstream answered. */
  predicate Forwarded(res: Response, status: int, contentType: Option<string>, text: string, json: JsonRead,
                      body: Stream, count: nat)
    reads res
  {
    match RouteUpstream(status, contentType)
    case MirrorError => JsonReply(res, status, ErrorBody("API error: " + IntToString(status), Some(text)))
    case ForwardJson =>
      if json.Parsed? then JsonReply(res, 200, Passthrough(json.data))
      else JsonReply(res, 500, ErrorBody(INTERNAL_ERROR, Some(json.message)))
    case RelayEvents => RelayedStream(res, body, count)
  }

  /** The part of the handler after `fetch` resolved. */
  method Forward(res: Response, status: int, contentType: Option<string>, text: string, json: JsonRead, body: Stream)
    returns (count: nat)
    requires res.Untouched()
    modifies res
    ensures Forwarded(res, status, contentType, text, json, body, count)
  {
    count := 0;
    if !IsOk(status) {
      if !res.headersSent {
        SendJson(res, status, ErrorBody("API error: " + IntToString(status), Some(text)));
      }
      return;
    }
    if !IsEventStreamType(contentType) {
      if json.Parsed? {
        SendJson(res, 200, Passthrough(json.data));
      } else {
        SendJson(res, 500, ErrorBody(INTERNAL_ERROR, Some(json.message)));
      }
      return;
    }
    count := RelayStream(res, body);
  }

  /** The request the handler sends upstream: the prompt as the only, user, message of a streamed call. */
  function UpstreamCall(key: string, prompt: string): UpstreamRequest {
    UpstreamRequest(MESSAGES_URL, key, API_VERSION, MODEL, MAX_TOKENS, true, [Message("user", prompt)])
  }

  /** The body of the `fetch`: the composed prompt under the chosen key. */
  method ComposeCall(key: string, message: string, pdfText: string, info: Option<ContextInfo>)
    returns (call: UpstreamRequest)
    ensures call == UpstreamCall(key, Prompt(message, pdfText, info))
  {
    var prompt := ComposePrompt(message, pdfText, info);
    call := UpstreamCall(key, prompt);
  }

  /** What the handler leaves for an upstream answer. */
  predicate Handled(res: Response, answer: Upstream, count: nat)
    reads res
  {
    match answer
    case FetchRejected(m) => JsonReply(res, 500, ErrorBody(INTERNAL_ERROR, Some(m)))
    case Answered(status, contentType, text, json, body) => Forwarded(res, status, contentType, text, json, body, count)
  }

  /**
   * The POST /api/chat handler. `serverKey` is the ANTHROPIC_API_KEY of the environment and
   * `upstream` stands for the fetch. `call` is the upstream request made, if any; `threw` is set
   * when the handler throws before answering; `count` is the relay's chunk counter.
   */
  method HandleChat(req: ChatRequest, apiKeyHeader: Option<string>, serverKey: Option<string>,
                    upstream: UpstreamRequest -> Upstream, res: Response)
    returns (call: Option<UpstreamRequest>, threw: bool, count: nat)
    requires res.Untouched()
    modifies res
    ensures threw <==> req.message.None?
    ensures threw ==> call.None? && res.Untouched()
    ensures Validate(req).Rejected? ==> call.None? && JsonReply(res, 400, ErrorBody(REQUIRED_ERROR, None))
    ensures Validate(req).Accepted? && ApiKey(apiKeyHeader, serverKey).None? ==>
      call.None? && JsonReply(res, 500, ErrorBody(MISCONFIGURED_ERROR, Some(MISSING_KEY_DETAILS)))
    ensures Validate(req).Accepted? && ApiKey(apiKeyHeader, serverKey).Some? ==>
      call == Some(UpstreamCall(ApiKey(apiKeyHeader, serverKey).value,
                                Prompt(Validate(req).message, Validate(req).pdfText, req.contextInfo)))
    ensures call.Some? ==> Handled(res, upstream(call.value), count)
  {
    call, threw, count := None, false, 0;
    var v := Validate(req);
    if v.Throws? {
      threw := true;
      return;
    }
    if v.Rejected? {
      SendJson(res, 400, ErrorBody(REQUIRED_ERROR, None));
      return;
    }
    var key := ApiKey(apiKeyHeader, serverKey);
    if key.None? {
      SendJson(res, 500, ErrorBody(MISCONFIGURED_ERROR, Some(MISSING_KEY_DETAILS)));
      return;
    }
    var c := ComposeCall(key.value, v.message, v.pdfText, req.contextInfo);
    call := Some(c);
    var answer := upstream(c);
    match answer
    case FetchRejected(m) =>
      SendJson(res, 500, ErrorBody(INTERNAL_ERROR, Some(m)));
    case Answered(status, contentType, text, json, body) =>
      count := Forward(res, status, contentType, text, json, body);
  }

  // ---------------------------------------------------------------------------------------
  // Both ends of the stream

  /** The content type the client sees on a response. */
  function ContentTypeOf(res: Response): Option<string>
    reads res
  {
    if "Content-Type" in res.headers then Some(res.headers["Content-Type"]) else None
  }

  /** The route the client takes on what the handler left in `res`. */
  function ClientRoute(res: Response): ChatClient.Route
    reads res
  {
    ChatClient.RouteReply(IsOk(res.statusCode), ContentTypeOf(res))
  }

  /** The handler answered with the forwarded upstream JSON. */
  predicate ForwardedJson(answer: Upstream) {
    answer.Answered? && RouteUpstream(answer.status, answer.contentType) == ForwardJson && answer.json.Parsed?
  }

  /** The handler relayed the upstream stream and at least began it (it did not turn into a 500). */
  predicate RelayedEvents(answer: Upstream) {
    && answer.Answered? && RouteUpstream(answer.status, answer.contentType) == RelayEvents
    && !(answer.body.end.Failed? && StreamPayloads(answer.body.chunks) == [])
  }

  /**
   * The two ends agree on the route, read off the response the handler leaves: the client shows
   * the forwarded JSON answer exactly when the handler forwarded one, reads events exactly when a
   * relay began, and shows an error in every other case (a rejected fetch, a mirrored upstream
   * error, unreadable JSON, a stream that failed before its first payload).
   */
  lemma RoutesAgree(res: Response, answer: Upstream, count: nat)
    requires Handled(res, answer, count)
    ensures ClientRoute(res) == ChatClient.ShowFallback <==> ForwardedJson(answer)
    ensures ClientRoute(res) == ChatClient.ReadEvents <==> RelayedEvents(answer)
    ensures ClientRoute(res) == ChatClient.ShowError <==> !ForwardedJson(answer) && !RelayedEvents(answer)
  {
    JsonTypeIsNotEventStream();
    assert OccursAt(EVENT_STREAM_TYPE, EVENT_STREAM_TYPE, 0);
    assert ContentTypeOf(res) == Some(EVENT_STREAM_TYPE) || ContentTypeOf(res) == Some(JSON_TYPE);
  }

  /** The client's chunks when each upstream chunk's frames reach it together, then the done frame. */
  function Delivered(chunks: seq<string>): seq<string> {
    if chunks == [] then [DONE_FRAME] else [Frames(ChunkPayloads(chunks[0]))] + Delivered(chunks[1..])
  }

  /**
   * `Delivered` is a regrouping of what a completed relay writes: joined, the client's chunks are
   * exactly the frames of every payload followed by the done frame.
   */
  lemma {:induction false} DeliveredIsWritten(chunks: seq<string>)
    ensures ChatClient.Concat(Delivered(chunks)) == ChatClient.Concat(Framed(StreamPayloads(chunks)) + [DONE_FRAME])
    decreases |chunks|
  {
    if chunks == [] {
      assert Framed(StreamPayloads(chunks)) + [DONE_FRAME] == [DONE_FRAME];
    } else {
      var ps := ChunkPayloads(chunks[0]);
      var rest := Framed(StreamPayloads(chunks[1..]));
      DeliveredIsWritten(chunks[1..]);
      assert Delivered(chunks) == [Frames(ps)] + Delivered(chunks[1..]);
      ChatClient.ConcatAppend([Frames(ps)], Delivered(chunks[1..]));
      assert ChatClient.Concat([Frames(ps)]) == Frames(ps) by { AppendEmpty(Frames(ps)); }
      FramedAppend(ps, StreamPayloads(chunks[1..]));
      AppendAssoc(Framed(ps), rest, [DONE_FRAME]);
      ChatClient.ConcatAppend(Framed(ps), rest + [DONE_FRAME]);
      FramedConcat(ps);
    }
  }

  /** What a completed relay writes into `res`, joined, is what the client's chunks carry. */
  lemma RelayDelivers(res: Response, body: Stream, count: nat)
    requires RelayedStream(res, body, count) && body.end.Done?
    ensures ChatClient.Concat(res.writes) == ChatClient.Concat(Delivered(body.chunks))
  {
    DeliveredIsWritten(body.chunks);
  }

  lemma DoneFrameDeltas(parse: string -> StreamEvent)
    ensures ChatClient.HasDone(Lines(DONE_FRAME)) && ChatClient.ChunkDeltas(parse, DONE_FRAME) == []
  {
    assert DONE_FRAME == Frame(DONE_PAYLOAD);
    ChatClient.OneFrameLines(DONE_PAYLOAD);
    var line := DATA_PREFIX + DONE_PAYLOAD;
    assert IsDataLine(line) && Payload(line) == DONE_PAYLOAD by { assert line[..|DATA_PREFIX|] == DATA_PREFIX; }
    assert Payloads([line]) == [DONE_PAYLOAD];
  }

  /**
   * What the client reads from a relayed stream carries the deltas the upstream stream carried,
   * and it always holds the done frame.
   */
  lemma {:induction false} DeliveredDeltas(parse: string -> StreamEvent, chunks: seq<string>)
    ensures ChatClient.StreamDeltas(parse, Delivered(chunks)) == ChatClient.StreamDeltas(parse, chunks)
    ensures ChatClient.AnyDone(Delivered(chunks))
    decreases |chunks|
  {
    var d := Delivered(chunks);
    if chunks == [] {
      DoneFrameDeltas(parse);
      assert d[0] == DONE_FRAME;
      assert d[1..] == [];
    } else {
      DeliveredDeltas(parse, chunks[1..]);
      assert d[0] == Frames(ChunkPayloads(chunks[0])) && d[1..] == Delivered(chunks[1..]);
      RelayPreservesPayloads(chunks[0]);
      ChatClient.AnyDoneCons(d);
    }
  }

  /**
   * End to end: when the upstream stream completes and the client receives the relay, the answer
   * on screen is the concatenation of the upstream deltas, the message has left the streaming
   * state (the relay always ends with the done frame), and the last text rendered is that answer.
   */
  lemma RelayedAnswer(parse: string -> StreamEvent, chunks: seq<string>)
    ensures ChatClient.FinishAsWritten(ChatClient.ReadChunks(parse, ChatClient.START, Delivered(chunks))).fullText
         == ChatClient.Concat(ChatClient.StreamDeltas(parse, chunks))
    ensures !ChatClient.FinishAsWritten(ChatClient.ReadChunks(parse, ChatClient.START, Delivered(chunks))).streaming
    ensures var f := ChatClient.FinishAsWritten(ChatClient.ReadChunks(parse, ChatClient.START, Delivered(chunks))).finalised;
      f != [] && (ChatClient.Concat(ChatClient.StreamDeltas(parse, chunks)) != "" ==>
        f[|f| - 1] == ChatClient.Concat(ChatClient.StreamDeltas(parse, chunks)))
  {
    DeliveredDeltas(parse, chunks);
    ChatClient.StreamOutcome(parse, Delivered(chunks));
  }
}
