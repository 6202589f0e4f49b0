/**
 * The line format both ends of the chat stream use, a simplified reading of the
 * `text/event-stream` format (WHATWG HTML Living Standard, section 9.2, Server-sent events):
 * a decoded chunk is split on line feeds, blank lines are dropped, and only a line that
 * starts with `data: ` carries a payload, the rest of that line. A line is never carried
 * over from one chunk to the next.
 */
module EventStream {
  import opened Wrappers
  import opened Text

  const DATA_PREFIX: string := "data: "

  /**
   * `!contentType || !contentType.includes('text/event-stream')` fails: a content type is present
   * and names an event stream. Both ends route a response on it.
   */
  predicate IsEventStreamType(contentType: Option<string>) {
    contentType.Some? && Contains(contentType.value, "text/event-stream")
  }

  /** The payload that ends a stream. */
  const DONE_PAYLOAD: string := "[DONE]"

  /** `parts.filter(line => line.trim() !== '')` */
  function NonBlank(parts: seq<string>): (r: seq<string>)
    ensures |r| <= |parts|
    ensures forall k :: 0 <= k < |r| ==> !IsBlank(r[k]) && r[k] in parts
  {
    if parts == [] then []
    else (if IsBlank(parts[0]) then [] else [parts[0]]) + NonBlank(parts[1..])
  }

  lemma {:induction false} NonBlankAppend(a: seq<string>, b: seq<string>)
    ensures NonBlank(a + b) == NonBlank(a) + NonBlank(b)
    decreases |a|
  {
    if a == [] {
      assert a + b == b;
    } else {
      assert (a + b)[0] == a[0] && (a + b)[1..] == a[1..] + b;
      NonBlankAppend(a[1..], b);
    }
  }

  /** `chunk.split('\n').filter(line => line.trim() !== '')`: non-blank lines without line feeds. */
  function Lines(chunk: string): (r: seq<string>)
    ensures forall k :: 0 <= k < |r| ==> '\n' !in r[k] && !IsBlank(r[k])
  {
    NonBlank(Split(chunk, '\n'))
  }

  /** `line.startsWith('data: ')` */
  predicate IsDataLine(line: string) {
    StartsWith(line, DATA_PREFIX)
  }

  /** `line.slice(6)` on a data line. */
  function Payload(line: string): (p: string)
    requires IsDataLine(line)
    ensures line == DATA_PREFIX + p
  {
    line[|DATA_PREFIX|..]
  }

  /** The payloads of the data lines among `lines`, in order; other lines are skipped. */
  function Payloads(lines: seq<string>): seq<string> {
    if lines == [] then []
    else (if IsDataLine(lines[0]) then [Payload(lines[0])] else []) + Payloads(lines[1..])
  }

  /** Payloads of lines without line feeds have none either. */
  lemma {:induction false} PayloadsHaveNoLineFeed(lines: seq<string>)
    requires forall k :: 0 <= k < |lines| ==> '\n' !in lines[k]
    ensures forall k :: 0 <= k < |Payloads(lines)| ==> '\n' !in Payloads(lines)[k]
    decreases |lines|
  {
    if lines != [] {
      PayloadsHaveNoLineFeed(lines[1..]);
      if IsDataLine(lines[0]) {
        var p := Payload(lines[0]);
        assert forall j :: 0 <= j < |p| ==> p[j] == lines[0][|DATA_PREFIX| + j];
      }
    }
  }

  /** `data: ${payload}\n\n`: one event as the server writes it. */
  function Frame(payload: string): string {
    DATA_PREFIX + payload + "\n\n"
  }

  /** The frames of `payloads`, written one after the other. */
  function Frames(payloads: seq<string>): string {
    if payloads == [] then "" else Frame(payloads[0]) + Frames(payloads[1..])
  }

  lemma {:induction false} FramesAppend(a: seq<string>, b: seq<string>)
    ensures Frames(a + b) == Frames(a) + Frames(b)
    decreases |a|
  {
    if a == [] {
      assert a + b == b;
    } else {
      assert (a + b)[0] == a[0] && (a + b)[1..] == a[1..] + b;
      FramesAppend(a[1..], b);
      AppendAssoc(Frame(a[0]), Frames(a[1..]), Frames(b));
    }
  }

  lemma Regroup<T>(x: seq<T>, n: seq<T>, rest: seq<T>)
    ensures (x + (n + n)) + rest == x + n + (n + rest)
  {
  }

  /** The data line of a frame holds no line feed when its payload holds none. */
  lemma DataLineHasNoLineFeed(p: string)
    requires '\n' !in p
    ensures '\n' !in DATA_PREFIX + p
  {
    var x := DATA_PREFIX + p;
    forall j | 0 <= j < |x| ensures x[j] != '\n' {
      if j >= |DATA_PREFIX| { assert x[j] == p[j - |DATA_PREFIX|]; }
    }
  }

  /** A frame splits into its data line and an empty line before whatever follows. */
  lemma FrameSplit(p: string, rest: string)
    requires '\n' !in p
    ensures Split(Frame(p) + rest, '\n') == [DATA_PREFIX + p] + ([""] + Split(rest, '\n'))
  {
    var x := DATA_PREFIX + p;
    DataLineHasNoLineFeed(p);
    var n: string := ['\n'];
    assert "\n\n" == n + n;
    assert Frame(p) == x + (n + n);
    Regroup(x, n, rest);
    SplitCons(x, '\n', n + rest);
    SplitCons("", '\n', rest);
    assert "" + n + rest == n + rest;
  }

  /** A data line survives the blank-line filter. */
  lemma DataLineKept(x: string)
    requires |x| > 0 && x[0] == 'd'
    ensures NonBlank([x]) == [x]
  {
    assert !IsBlank(x);
  }

  lemma EmptyLineDropped()
    ensures NonBlank([""]) == []
  {
  }

  /** A frame is one data line followed by a blank line. */
  lemma FrameLines(p: string, rest: string)
    requires '\n' !in p
    ensures Lines(Frame(p) + rest) == [DATA_PREFIX + p] + Lines(rest)
  {
    var x := DATA_PREFIX + p;
    FrameSplit(p, rest);
    var tail := Split(rest, '\n');
    NonBlankAppend([x], [""] + tail);
    NonBlankAppend([""], tail);
    DataLineKept(x);
    EmptyLineDropped();
    AppendEmpty(NonBlank(tail));
  }

  /**
   * Round trip: reading back frames written for payloads without line feeds yields the
   * payloads, in order (the empty payload included).
   */
  lemma {:induction false} FramesRoundTrip(ps: seq<string>)
    requires forall k :: 0 <= k < |ps| ==> '\n' !in ps[k]
    ensures Payloads(Lines(Frames(ps))) == ps
    decreases |ps|
  {
    if ps == [] {
      assert Split("", '\n') == [""];
    } else {
      FramesRoundTrip(ps[1..]);
      FrameLines(ps[0], Frames(ps[1..]));
      var x := DATA_PREFIX + ps[0];
      assert IsDataLine(x) && Payload(x) == ps[0];
      assert Payloads([x] + Lines(Frames(ps[1..]))) == [ps[0]] + Payloads(Lines(Frames(ps[1..])));
    }
  }

  /** The payloads one chunk carries. */
  function ChunkPayloads(chunk: string): seq<string> {
    Payloads(Lines(chunk))
  }

  /**
   * What the server forwards for one upstream chunk is read back by the client as the
   * same payloads, when it arrives as one chunk.
   */
  lemma RelayPreservesPayloads(chunk: string)
    ensures ChunkPayloads(Frames(ChunkPayloads(chunk))) == ChunkPayloads(chunk)
  {
    PayloadsHaveNoLineFeed(Lines(chunk));
    FramesRoundTrip(ChunkPayloads(chunk));
  }
}
