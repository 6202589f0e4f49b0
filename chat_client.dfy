/**
 * The browser side of a chat turn (app.js: sendMessage): which text goes to the server and with
 * which page information, how the reply is routed, and how the streamed answer is accumulated
 * and finalised, one decoded chunk at a time.
 */
module ChatClient {
  import opened Wrappers
  import opened Text
  import opened Protocol
  import opened ContextWindow
  import opened EventStream
  import Viewer

  /** `chatInput.value.trim()`, or nothing to send when that is empty. */
  function UserMessage(input: string): (m: Option<string>)
    ensures m.None? <==> IsBlank(input)
    ensures m.Some? ==> m.value != "" && !IsJsSpace(m.value[0]) && !IsJsSpace(m.value[|m.value| - 1])
  {
    TrimEmptyIffBlank(input);
    var t := Trim(input);
    if t == "" then None else Some(t)
  }

  /** The text sent as `pdfText`, its estimate, and the first and last page reported in the log. */
  datatype Selection = Selection(contextText: string, estimatedTokens: int, startPage: int, endPage: int)

  /** The selection sendMessage makes from the smart context, the full document text and the current page. */
  function SelectContext(smart: SmartContext, pdfText: string, currentPage: int): Selection {
    var useSmart := !IsBlank(smart.text);
    Selection(
      if useSmart then smart.text else pdfText,
      if useSmart then smart.tokens else EstimateTokens(pdfText),
      if |smart.pages| > 0 then smart.pages[0] else currentPage,
      if |smart.pages| > 0 then smart.pages[|smart.pages| - 1] else currentPage)
  }

  /** A window's text is never blank: the centre header starts with '-'. */
  lemma WindowTextNotBlank(texts: map<int, string>, tag: string, c: int, lo: int, hi: int, r: SmartContext)
    requires Spans(texts, tag, c, lo, hi, r)
    ensures !IsBlank(r.text)
  {
    var before := Blocks(texts, tag, lo, c);
    assert CentreBlock(texts, tag, c)[0] == '-';
    assert r.text[|before|] == CentreBlock(texts, tag, c)[0];
  }

  /**
   * For the smart context of a non-empty page map, the selection is the window itself: its text
   * and tokens, and its first and last page, which are |pages| - 1 apart; the current page is
   * used only when no page made it into the window.
   */
  lemma SelectWindow(texts: map<int, string>, tag: string, c: int, lo: int, hi: int, r: SmartContext,
                     pdfText: string, currentPage: int)
    requires Spans(texts, tag, c, lo, hi, r)
    ensures SelectContext(r, pdfText, currentPage).contextText == r.text
    ensures SelectContext(r, pdfText, currentPage).estimatedTokens == r.tokens
    ensures |r.pages| > 0 ==> (SelectContext(r, pdfText, currentPage).startPage == r.pages[0]
                               && SelectContext(r, pdfText, currentPage).endPage == r.pages[0] + |r.pages| - 1)
    ensures |r.pages| == 0 ==> (SelectContext(r, pdfText, currentPage).startPage == currentPage
                                && SelectContext(r, pdfText, currentPage).endPage == currentPage)
  {
    WindowTextNotBlank(texts, tag, c, lo, hi, r);
    WindowPages(texts, tag, c, lo, hi, r);
  }

  /** For an empty page map, the whole document text is sent, with its own estimate, at the current page. */
  lemma SelectEmpty(pdfText: string, currentPage: int)
    ensures SelectContext(SmartContext("", [], 0), pdfText, currentPage)
         == Selection(pdfText, EstimateTokens(pdfText), currentPage, currentPage)
  {
  }

  /**
   * The request body sendMessage posts for `message`, built from the reader's state: the smart
   * context around the current page when the page map is non-empty, the whole document text
   * otherwise, and the page information the server uses for its context section.
   */
  method BuildRequest(reader: Viewer.Reader, message: string, budget: int)
    returns (request: ChatRequest, smart: SmartContext, selection: Selection)
    requires forall k :: k in reader.pageTexts ==> k >= 1
    ensures reader.pageTexts == map[] ==>
      smart == SmartContext("", [], 0)
      && selection == Selection(reader.pdfText, EstimateTokens(reader.pdfText), reader.currentPage, reader.currentPage)
    ensures reader.pageTexts != map[] ==>
      (exists c, lo, hi :: IsCentre(reader.pageTexts, reader.currentPage, c)
                           && Window(reader.pageTexts, Label(reader.documentType), c, lo, hi, budget, smart))
      && selection.contextText == smart.text && selection.estimatedTokens == smart.tokens
    ensures |smart.pages| > 0 ==>
      selection.startPage == smart.pages[0] && selection.endPage == smart.pages[0] + |smart.pages| - 1
    ensures request == ChatRequest(Some(message), Some(selection.contextText),
      Some(ContextInfo(Some(reader.currentPage), Some(reader.TotalPages()), Some(smart.pages), Some(selection.estimatedTokens))))
  {
    smart := GetSmartContext(reader.pageTexts, reader.documentType, reader.currentPage, budget);
    var totalPages := reader.TotalPages();
    selection := SelectContext(smart, reader.pdfText, reader.currentPage);
    if reader.pageTexts != map[] {
      ghost var c, lo, hi :| IsCentre(reader.pageTexts, reader.currentPage, c)
                       && Window(reader.pageTexts, Label(reader.documentType), c, lo, hi, budget, smart);
      SelectWindow(reader.pageTexts, Label(reader.documentType), c, lo, hi, smart, reader.pdfText, reader.currentPage);
    }
    request := ChatRequest(Some(message), Some(selection.contextText),
      Some(ContextInfo(Some(reader.currentPage), Some(totalPages), Some(smart.pages), Some(selection.estimatedTokens))));
  }

  /** How sendMessage treats the server's reply before reading any body. */
  datatype Route = ShowError | ShowFallback | ReadEvents

  /** A non-ok status throws (the error message is shown); a reply that is not an event stream is read as JSON. */
  function RouteReply(ok: bool, contentType: Option<string>): (route: Route)
    ensures route == ReadEvents <==> ok && IsEventStreamType(contentType)
    ensures route == ShowError <==> !ok
  {
    if !ok then ShowError
    else if !IsEventStreamType(contentType) then ShowFallback
    else ReadEvents
  }

  /**
   * The state of the streamed answer: the accumulated text, the number of accepted deltas,
   * whether the message element still carries the 'message-streaming' class, and the texts
   * finalizeStreamingMessage rendered, in the order of the calls.
   */
  datatype Reading = Reading(fullText: string, chunkCount: nat, streaming: bool, finalised: seq<string>)

  /** createStreamingMessageContainer, with `fullText = ''` and `chunkCount = 0`. */
  const START: Reading := Reading("", 0, true, [])

  /** `parsed.type === 'content_block_delta' && parsed.delta?.text`: the text a payload appends, if any. */
  function Delta(event: StreamEvent): (d: Option<string>)
    ensures d.Some? ==> d.value != ""
  {
    if event.Event? && event.kind == "content_block_delta" && event.deltaText.Some? && event.deltaText.value != ""
    then event.deltaText
    else None
  }

  /** finalizeStreamingMessage(messageDiv, fullText) */
  function Finalise(r: Reading): Reading {
    r.(streaming := false, finalised := r.finalised + [r.fullText])
  }

  /** One payload other than `[DONE]`: append its delta, if it has one, and count it. */
  function TakePayload(parse: string -> StreamEvent, r: Reading, data: string): Reading {
    match Delta(parse(data))
    case Some(d) => r.(fullText := r.fullText + d, chunkCount := r.chunkCount + 1)
    case None => r
  }

  /** The inner loop over one chunk's lines: `[DONE]` finalises and leaves the rest of the chunk unread. */
  function ReadLines(parse: string -> StreamEvent, r: Reading, lines: seq<string>): Reading
    decreases |lines|
  {
    if lines == [] then r
    else if IsDataLine(lines[0]) && Payload(lines[0]) == DONE_PAYLOAD then Finalise(r)
    else ReadLines(parse, if IsDataLine(lines[0]) then TakePayload(parse, r, Payload(lines[0])) else r, lines[1..])
  }

  /** The outer loop: every chunk is read, also after a `[DONE]`, since that `break` leaves only the inner loop. */
  function ReadChunks(parse: string -> StreamEvent, r: Reading, chunks: seq<string>): Reading
    decreases |chunks|
  {
    if chunks == [] then r
    else ReadChunks(parse, ReadLines(parse, r, Lines(chunks[0])), chunks[1..])
  }

  /** One line of the inner loop: whether it is the `[DONE]` line, and the state after it. */
  method ReadLine(parse: string -> StreamEvent, r0: Reading, line: string) returns (r: Reading, done: bool)
    ensures done <==> IsDataLine(line) && Payload(line) == DONE_PAYLOAD
    ensures done ==> r == Finalise(r0)
    ensures !done ==> ReadLines(parse, r0, [line]) == r
  {
    r, done := r0, false;
    if IsDataLine(line) {
      var data := Payload(line);
      if data == DONE_PAYLOAD {
        return Finalise(r0), true;
      }
      match Delta(parse(data)) {
        case Some(d) =>
          r := r.(fullText := r.fullText + d, chunkCount := r.chunkCount + 1);
        case None =>
      }
    }
  }

  /** Reading the lines one at a time: a line other than `[DONE]` leaves the rest to be read from its state. */
  lemma ReadLinesStep(parse: string -> StreamEvent, r: Reading, lines: seq<string>, j: int)
    requires 0 <= j < |lines| && !(IsDataLine(lines[j]) && Payload(lines[j]) == DONE_PAYLOAD)
    ensures ReadLines(parse, r, lines[j..]) == ReadLines(parse, ReadLines(parse, r, [lines[j]]), lines[j + 1..])
  {
    assert lines[j..][0] == lines[j] && lines[j..][1..] == lines[j + 1..];
  }

  /** The inner loop of sendMessage over the non-blank lines of one decoded chunk. */
  method ReadChunk(parse: string -> StreamEvent, r0: Reading, chunk: string) returns (r: Reading)
    ensures r == ReadLines(parse, r0, Lines(chunk))
  {
    var lines := Lines(chunk);
    r := r0;
    var j := 0;
    while j < |lines|
      invariant 0 <= j <= |lines|
      invariant ReadLines(parse, r, lines[j..]) == ReadLines(parse, r0, lines)
    {
      ghost var before := r;
      var done;
      r, done := ReadLine(parse, r, lines[j]);
      if done {
        assert lines[j..][0] == lines[j];
        break;
      }
      ReadLinesStep(parse, before, lines, j);
      j := j + 1;
    }
  }

  /**
   * The line after the reading loop, AS WRITTEN (app.js:992): finalise when there is text and the
   * message is no longer streaming, i.e. only when `[DONE]` already finalised it.
   */
  function FinishAsWritten(r: Reading): Reading {
    if r.fullText != "" && !r.streaming then Finalise(r) else r
  }

  /** The same line as its comment intends: finalise when there is text but no `[DONE]` finalised it. */
  function Finish(r: Reading): Reading {
    if r.fullText != "" && r.streaming then Finalise(r) else r
  }

  /** As written, the line never takes a message out of the streaming state: it only re-finalises finished ones. */
  lemma FinishAsWrittenNeverSettles(r: Reading)
    ensures FinishAsWritten(r).streaming == r.streaming
    ensures FinishAsWritten(r) != r ==> !r.streaming && |FinishAsWritten(r).finalised| == |r.finalised| + 1
  {
  }

  /** A parser that reads every payload as a delta with the text "Hi". */
  function AlwaysHi(data: string): StreamEvent {
    Event("content_block_delta", Some("Hi"))
  }

  /**
   * The input that shows it: a stream that ends without `[DONE]` after one delta, here the frame
   * `data: {}` with a parser that reads it as the delta "Hi". As written, the text is never
   * finalised and the message stays in the streaming state; the corrected line finalises it.
   */
  lemma FinishAsWrittenMissesUnterminated()
    ensures ReadChunks(AlwaysHi, START, [Frame("{}")]).fullText == "Hi"
    ensures FinishAsWritten(ReadChunks(AlwaysHi, START, [Frame("{}")])).streaming
    ensures FinishAsWritten(ReadChunks(AlwaysHi, START, [Frame("{}")])).finalised == []
    ensures Finish(ReadChunks(AlwaysHi, START, [Frame("{}")])).finalised == ["Hi"]
  {
    OneFrameLines("{}");
    var line := DATA_PREFIX + "{}";
    assert IsDataLine(line) && Payload(line) == "{}" by { assert line[..|DATA_PREFIX|] == DATA_PREFIX; }
    assert ReadLines(AlwaysHi, START, [line]) == ReadLines(AlwaysHi, Reading("Hi", 1, true, []), []);
  }

  /** A chunk that is a single frame has a single line, the frame's data line. */
  lemma OneFrameLines(p: string)
    requires '\n' !in p
    ensures Lines(Frame(p)) == [DATA_PREFIX + p]
  {
    FrameLines(p, "");
    assert Frame(p) + "" == Frame(p);
    assert Split("", '\n') == [""];
    EmptyLineDropped();
    AppendEmpty([DATA_PREFIX + p]);
  }

  /**
   * The corrected line settles every message with text: afterwards it is no longer streaming, it
   * finalises at most once, and never a message `[DONE]` already finalised.
   */
  lemma FinishSettles(r: Reading)
    ensures r.fullText != "" ==> !Finish(r).streaming
    ensures !r.streaming ==> Finish(r) == r
    ensures Finish(r).finalised == r.finalised || Finish(r).finalised == r.finalised + [r.fullText]
    ensures Finish(r).fullText == r.fullText && Finish(r).chunkCount == r.chunkCount
  {
  }

  /** The payloads before the first `[DONE]`. */
  function UpToDone(ps: seq<string>): seq<string> {
    if ps == [] || ps[0] == DONE_PAYLOAD then [] else [ps[0]] + UpToDone(ps[1..])
  }

  /** The delta texts of a run of payloads, in order. */
  function Deltas(parse: string -> StreamEvent, ps: seq<string>): seq<string> {
    if ps == [] then []
    else (match Delta(parse(ps[0])) case Some(d) => [d] case None => []) + Deltas(parse, ps[1..])
  }

  /** The deltas one chunk contributes: those of its payloads before `[DONE]`. */
  function ChunkDeltas(parse: string -> StreamEvent, chunk: string): seq<string> {
    Deltas(parse, UpToDone(ChunkPayloads(chunk)))
  }

  /** The deltas of a whole stream, chunk after chunk. */
  function StreamDeltas(parse: string -> StreamEvent, chunks: seq<string>): seq<string> {
    if chunks == [] then [] else ChunkDeltas(parse, chunks[0]) + StreamDeltas(parse, chunks[1..])
  }

  function Concat(ss: seq<string>): string {
    if ss == [] then "" else ss[0] + Concat(ss[1..])
  }

  lemma {:induction false} ConcatAppend(a: seq<string>, b: seq<string>)
    ensures Concat(a + b) == Concat(a) + Concat(b)
    decreases |a|
  {
    if a == [] {
      assert a + b == b;
    } else {
      assert (a + b)[0] == a[0] && (a + b)[1..] == a[1..] + b;
      ConcatAppend(a[1..], b);
      AppendAssoc(a[0], Concat(a[1..]), Concat(b));
    }
  }

  /** Whether the chunk's lines hold a `[DONE]` data line. */
  predicate HasDone(lines: seq<string>) {
    DONE_PAYLOAD in Payloads(lines)
  }

  /**
   * One chunk, against the reference: the text grows by the chunk's deltas before its `[DONE]`,
   * each counted once, and the message is finalised, once, exactly when the chunk holds `[DONE]`.
   */
  lemma {:induction false} ReadLinesSpec(parse: string -> StreamEvent, r: Reading, lines: seq<string>)
    ensures ReadLines(parse, r, lines).fullText == r.fullText + Concat(Deltas(parse, UpToDone(Payloads(lines))))
    ensures ReadLines(parse, r, lines).chunkCount == r.chunkCount + |Deltas(parse, UpToDone(Payloads(lines)))|
    ensures ReadLines(parse, r, lines).streaming == (r.streaming && !HasDone(lines))
    ensures ReadLines(parse, r, lines).finalised
         == r.finalised + (if HasDone(lines) then [ReadLines(parse, r, lines).fullText] else [])
    decreases |lines|
  {
    if lines == [] {
    } else {
      var ps := Payloads(lines);
      var rest := Payloads(lines[1..]);
      var next := if IsDataLine(lines[0]) then TakePayload(parse, r, Payload(lines[0])) else r;
      if IsDataLine(lines[0]) && Payload(lines[0]) == DONE_PAYLOAD {
        assert ps[0] == DONE_PAYLOAD;
        assert UpToDone(ps) == [];
        AppendEmpty(r.fullText);
      } else {
        ReadLinesSpec(parse, next, lines[1..]);
        if IsDataLine(lines[0]) {
          var p := Payload(lines[0]);
          assert ps == [p] + rest;
          assert UpToDone(ps) == [p] + UpToDone(rest);
          assert HasDone(lines) == HasDone(lines[1..]);
          TakeOne(parse, r, p, UpToDone(rest));
        } else {
          assert ps == rest;
        }
      }
    }
  }

  /** Taking one payload, then the deltas of the rest, adds the deltas of both. */
  lemma TakeOne(parse: string -> StreamEvent, r: Reading, p: string, rest: seq<string>)
    ensures TakePayload(parse, r, p).fullText + Concat(Deltas(parse, rest))
         == r.fullText + Concat(Deltas(parse, [p] + rest))
    ensures TakePayload(parse, r, p).chunkCount + |Deltas(parse, rest)| == r.chunkCount + |Deltas(parse, [p] + rest)|
    ensures TakePayload(parse, r, p).streaming == r.streaming && TakePayload(parse, r, p).finalised == r.finalised
  {
    assert ([p] + rest)[1..] == rest;
    var ds := Deltas(parse, rest);
    match Delta(parse(p)) {
      case Some(d) =>
        assert Deltas(parse, [p] + rest) == [d] + ds;
        assert ([d] + ds)[1..] == ds;
        AppendAssoc(r.fullText, d, Concat(ds));
      case None =>
        assert Deltas(parse, [p] + rest) == [] + ds;
        assert [] + ds == ds;
    }
  }

  /** Whether some chunk of the stream holds `[DONE]`. */
  predicate AnyDone(chunks: seq<string>) {
    exists i :: 0 <= i < |chunks| && HasDone(Lines(chunks[i]))
  }

  /**
   * The whole stream, against the reference: the answer is the in-order concatenation of the
   * accepted deltas, the count is their number, and the message has left the streaming state
   * exactly when some chunk carried `[DONE]`.
   */
  lemma {:induction false} ReadChunksSpec(parse: string -> StreamEvent, r: Reading, chunks: seq<string>)
    ensures ReadChunks(parse, r, chunks).fullText == r.fullText + Concat(StreamDeltas(parse, chunks))
    ensures ReadChunks(parse, r, chunks).chunkCount == r.chunkCount + |StreamDeltas(parse, chunks)|
    ensures ReadChunks(parse, r, chunks).streaming == (r.streaming && !AnyDone(chunks))
    decreases |chunks|
  {
    if chunks != [] {
      var lines := Lines(chunks[0]);
      var r1 := ReadLines(parse, r, lines);
      ReadLinesSpec(parse, r, lines);
      ReadChunksSpec(parse, r1, chunks[1..]);
      var d0 := ChunkDeltas(parse, chunks[0]);
      var ds := StreamDeltas(parse, chunks[1..]);
      ConcatAppend(d0, ds);
      AppendAssoc(r.fullText, Concat(d0), Concat(ds));
      AnyDoneCons(chunks);
    } else {
      AppendEmpty(r.fullText);
    }
  }

  lemma AnyDoneCons(chunks: seq<string>)
    requires chunks != []
    ensures AnyDone(chunks) == (HasDone(Lines(chunks[0])) || AnyDone(chunks[1..]))
  {
    if AnyDone(chunks[1..]) {
      var i :| 0 <= i < |chunks[1..]| && HasDone(Lines(chunks[1..][i]));
      assert chunks[i + 1] == chunks[1..][i];
    }
    if AnyDone(chunks) && !HasDone(Lines(chunks[0])) {
      var i :| 0 <= i < |chunks| && HasDone(Lines(chunks[i]));
      assert chunks[1..][i - 1] == chunks[i];
    }
  }

  /**
   * The reading loop of sendMessage over a streamed body, with the post-loop line as written. A
   * rejected read throws out of the loop before that line; `failed` reports it.
   */
  method ReadStream(body: Stream, parse: string -> StreamEvent) returns (r: Reading, failed: bool)
    ensures failed <==> body.end.Failed?
    ensures r == (if failed then ReadChunks(parse, START, body.chunks) else FinishAsWritten(ReadChunks(parse, START, body.chunks)))
  {
    r := START;
    var i := 0;
    while i < |body.chunks|
      invariant 0 <= i <= |body.chunks|
      invariant ReadChunks(parse, r, body.chunks[i..]) == ReadChunks(parse, START, body.chunks)
    {
      assert body.chunks[i..][0] == body.chunks[i] && body.chunks[i..][1..] == body.chunks[i + 1..];
      r := ReadChunk(parse, r, body.chunks[i]);
      i := i + 1;
    }
    failed := body.end.Failed?;
    if !failed && r.fullText != "" && !r.streaming {
      r := Finalise(r);
    }
  }

  /**
   * What a completed stream leaves on screen, as written: the concatenated deltas; a message that
   * leaves the streaming state exactly when a `[DONE]` arrived; nothing finalised without one; and
   * with one, a message with text finalised a second time, last with the full text.
   */
  lemma StreamOutcome(parse: string -> StreamEvent, chunks: seq<string>)
    ensures FinishAsWritten(ReadChunks(parse, START, chunks)).fullText == Concat(StreamDeltas(parse, chunks))
    ensures FinishAsWritten(ReadChunks(parse, START, chunks)).streaming <==> !AnyDone(chunks)
    ensures !AnyDone(chunks) ==> FinishAsWritten(ReadChunks(parse, START, chunks)).finalised == []
    ensures AnyDone(chunks) ==> FinishAsWritten(ReadChunks(parse, START, chunks)).finalised != []
    ensures AnyDone(chunks) && Concat(StreamDeltas(parse, chunks)) != "" ==>
      var f := FinishAsWritten(ReadChunks(parse, START, chunks)).finalised;
      |f| >= 2 && f[|f| - 1] == Concat(StreamDeltas(parse, chunks))
  {
    ReadChunksSpec(parse, START, chunks);
    AppendEmpty(Concat(StreamDeltas(parse, chunks)));
    FinalisedGrows(parse, START, chunks);
    if !AnyDone(chunks) {
      NoDoneNoFinalise(parse, START, chunks);
    }
  }

  /**
   * The same, with the corrected line: a message out of the streaming state whenever it has text
   * or a `[DONE]` arrived; without a `[DONE]` the text is finalised once, in full.
   */
  lemma CorrectedStreamOutcome(parse: string -> StreamEvent, chunks: seq<string>)
    ensures Finish(ReadChunks(parse, START, chunks)).fullText == Concat(StreamDeltas(parse, chunks))
    ensures Finish(ReadChunks(parse, START, chunks)).streaming
        <==> Concat(StreamDeltas(parse, chunks)) == "" && !AnyDone(chunks)
    ensures !AnyDone(chunks) && Concat(StreamDeltas(parse, chunks)) != "" ==>
      Finish(ReadChunks(parse, START, chunks)).finalised == [Concat(StreamDeltas(parse, chunks))]
  {
    ReadChunksSpec(parse, START, chunks);
    AppendEmpty(Concat(StreamDeltas(parse, chunks)));
    if !AnyDone(chunks) {
      NoDoneNoFinalise(parse, START, chunks);
    }
  }

  /** Reading never takes back a finalisation, and a stream holding `[DONE]` adds at least one. */
  lemma {:induction false} FinalisedGrows(parse: string -> StreamEvent, r: Reading, chunks: seq<string>)
    ensures |ReadChunks(parse, r, chunks).finalised| >= |r.finalised|
    ensures AnyDone(chunks) ==> |ReadChunks(parse, r, chunks).finalised| > |r.finalised|
    decreases |chunks|
  {
    if chunks != [] {
      AnyDoneCons(chunks);
      ReadLinesSpec(parse, r, Lines(chunks[0]));
      FinalisedGrows(parse, ReadLines(parse, r, Lines(chunks[0])), chunks[1..]);
    }
  }

  /** Without `[DONE]` nothing is finalised while reading. */
  lemma {:induction false} NoDoneNoFinalise(parse: string -> StreamEvent, r: Reading, chunks: seq<string>)
    requires !AnyDone(chunks)
    ensures ReadChunks(parse, r, chunks).finalised == r.finalised
    decreases |chunks|
  {
    if chunks != [] {
      AnyDoneCons(chunks);
      ReadLinesSpec(parse, r, Lines(chunks[0]));
      NoDoneNoFinalise(parse, ReadLines(parse, r, Lines(chunks[0])), chunks[1..]);
    }
  }

  /** The server's reply as the client sees it: no reply at all, or a status, a content type and a body. */
  datatype Reply =
    | Unreachable
    | Reply(ok: bool, contentType: Option<string>, fallbackAnswer: Option<string>, body: Stream)

  /** The message shown when anything in the turn throws. */
  const ERROR_REPLY: string := "Sorry, I encountered an error processing your request. Please try again."

  /** What a chat turn leaves in the chat, besides the user's own message. */
  datatype Outcome =
    | NothingSent                                    // the trimmed input was empty
    | ErrorShown(partial: Option<Reading>)           // ERROR_REPLY, after any partly streamed message
    | FallbackShown(answer: string)                  // `data.content[0].text` of a JSON reply
    | Streamed(reading: Reading)                     // the streamed message

  /**
   * sendMessage: guard the input, build the request, post it (`server` stands for the fetch),
   * and route the reply; a fetch that rejects, a non-ok status, a JSON reply without an answer and
   * a failing stream all end in the error message.
   */
  method SendMessage(reader: Viewer.Reader, input: string, budget: int,
                     server: ChatRequest -> Reply, parse: string -> StreamEvent)
    returns (request: Option<ChatRequest>, outcome: Outcome)
    requires forall k :: k in reader.pageTexts ==> k >= 1
    ensures IsBlank(input) <==> request.None?
    ensures request.None? ==> outcome == NothingSent
    ensures request.Some? ==> request.value.message == UserMessage(input)
    ensures request.Some? && server(request.value).Unreachable? ==> outcome == ErrorShown(None)
    ensures request.Some? && server(request.value).Reply? ==>
      var reply := server(request.value);
      match RouteReply(reply.ok, reply.contentType)
      case ShowError => outcome == ErrorShown(None)
      case ShowFallback =>
        outcome == (if reply.fallbackAnswer.Some? then FallbackShown(reply.fallbackAnswer.value) else ErrorShown(None))
      case ReadEvents =>
        outcome == (if reply.body.end.Failed? then ErrorShown(Some(ReadChunks(parse, START, reply.body.chunks)))
                    else Streamed(FinishAsWritten(ReadChunks(parse, START, reply.body.chunks))))
  {
    var message := UserMessage(input);
    if message.None? {
      return None, NothingSent;
    }
    var req, smart, selection := BuildRequest(reader, message.value, budget);
    request := Some(req);
    var reply := server(req);
    if reply.Unreachable? {
      return request, ErrorShown(None);
    }
    match RouteReply(reply.ok, reply.contentType) {
      case ShowError =>
        outcome := ErrorShown(None);
      case ShowFallback =>
        outcome := if reply.fallbackAnswer.Some? then FallbackShown(reply.fallbackAnswer.value) else ErrorShown(None);
      case ReadEvents =>
        var reading, failed := ReadStream(reply.body, parse);
        outcome := if failed then ErrorShown(Some(reading)) else Streamed(reading);
    }
  }
}
