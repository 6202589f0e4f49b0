/** Records exchanged between the browser client and the chat server. */
module Protocol {
  import opened Wrappers

  /** The two kinds of document the reader opens (app.js: DocumentType). */
  datatype DocType = Pdf | Epub

  /** `contextInfo` in the body of POST /api/chat; a field the client left out is `None`. */
  datatype ContextInfo = ContextInfo(
    currentPage: Option<int>,
    totalPages: Option<int>,
    includedPages: Option<seq<int>>,
    estimatedTokens: Option<int>)

  /** The body of POST /api/chat, restricted to the fields the handler reads. */
  datatype ChatRequest = ChatRequest(
    message: Option<string>,
    pdfText: Option<string>,
    contextInfo: Option<ContextInfo>)

  /** How a streamed body ends: `reader.read()` reports done, or it rejects with a reason. */
  datatype StreamEnd = Done | Failed(reason: string)

  /** A streamed body as the successive decoded chunks `reader.read()` yields, then its end. */
  datatype Stream = Stream(chunks: seq<string>, end: StreamEnd)

  /** What `JSON.parse` makes of one `data: ` payload, as far as the client inspects it:
      either it throws, or it yields an object with a `type` and an optional string `delta.text`. */
  datatype StreamEvent = Unparsable | Event(kind: string, deltaText: Option<string>)
}
