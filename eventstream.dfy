/**
 * The event-stream format of server-sent events (WHATWG HTML Standard,
 * section 9.2): the frames the servers write, and the standard's
 * interpretation of a stream, so that what a subscriber's `EventSource`
 * dispatches can be stated about what was written.
 */
module EventStream {

  predicate IsLineBreak(c: char) {
    c == '\n' || c == '\r'
  }

  predicate NoLineBreak(s: string) {
    forall k :: 0 <= k < |s| ==> !IsLineBreak(s[k])
  }

  /** What the servers write: one `data:` line, or one comment line, then a blank line. */
  datatype Frame =
    | DataLine(payload: string)
    | CommentLine(text: string)
  {
    predicate WellFormed() {
      match this
      case DataLine(p) => NoLineBreak(p)
      case CommentLine(t) => NoLineBreak(t)
    }

    function Text(): string {
      match this
      case DataLine(p) => "data: " + p + "\n\n"
      case CommentLine(t) => ":" + t + "\n\n"
    }
  }

  /** The keep-alive both servers send every 15 seconds, `: heartbeat`. */
  const Heartbeat: Frame := CommentLine(" heartbeat")

  /** Everything a subscriber has been sent, in order. */
  function Wire(frames: seq<Frame>): string
    decreases |frames|
  {
    if |frames| == 0 then "" else frames[0].Text() + Wire(frames[1..])
  }

  /** An event as the standard dispatches it: its type and its data. */
  datatype Dispatched = Dispatched(eventType: string, data: string)

  // ----- interpreting an event stream (section 9.2.6) -----

  /** Characters before the first CR or LF. */
  function LineLength(s: string): (n: nat)
    ensures n <= |s|
    ensures forall k :: 0 <= k < n ==> !IsLineBreak(s[k])
    ensures n < |s| ==> IsLineBreak(s[n])
    decreases |s|
  {
    if |s| == 0 || IsLineBreak(s[0]) then 0 else 1 + LineLength(s[1..])
  }

  /**
   * The complete lines of a stream; a line ends at CRLF, LF or CR. What
   * follows the last line break is pending and, at the end of the stream,
   * discarded.
   */
  function Lines(s: string): seq<string>
    decreases |s|
  {
    var n := LineLength(s);
    if n == |s| then []
    else
      var skip := if s[n] == '\r' && n + 1 < |s| && s[n + 1] == '\n' then 2 else 1;
      [s[..n]] + Lines(s[n + skip..])
  }

  /** A field line split at its first colon; one space after the colon is dropped. */
  function FieldName(line: string): string {
    if ':' in line then
      var i := ColonAt(line);
      line[..i]
    else line
  }

  function FieldValue(line: string): string {
    if ':' in line then
      var i := ColonAt(line);
      var v := line[i + 1..];
      if |v| > 0 && v[0] == ' ' then v[1..] else v
    else ""
  }

  function ColonAt(line: string): (i: nat)
    requires ':' in line
    ensures i < |line| && line[i] == ':' && ':' !in line[..i]
    decreases |line|
  {
    if line[0] == ':' then 0
    else
      var i := 1 + ColonAt(line[1..]);
      assert line[..i] == [line[0]] + line[1..][..i - 1];
      i
  }

  /**
   * Processing lines with the data buffer and event type buffer: a blank
   * line dispatches (nothing if the data buffer is empty), a line starting
   * with a colon is a comment, `data` appends its value and a LF, `event`
   * sets the type, other fields do not change what is dispatched.
   */
  function Interpret(lines: seq<string>, data: string, eventType: string): seq<Dispatched>
    decreases |lines|
  {
    if |lines| == 0 then []
    else
      var line := lines[0];
      if line == "" then
        var now := if data == "" then []
                   else [Dispatched(if eventType == "" then "message" else eventType, data[..|data| - 1])];
        now + Interpret(lines[1..], "", "")
      else if line[0] == ':' then Interpret(lines[1..], data, eventType)
      else if FieldName(line) == "data" then Interpret(lines[1..], data + FieldValue(line) + "\n", eventType)
      else if FieldName(line) == "event" then Interpret(lines[1..], data, FieldValue(line))
      else Interpret(lines[1..], data, eventType)
  }

  /** The events a subscriber's `EventSource` dispatches for a whole stream. */
  function Parse(s: string): seq<Dispatched> {
    Interpret(Lines(s), "", "")
  }

  /** What the frames should dispatch: one `message` event per data frame, comments nothing. */
  function Messages(frames: seq<Frame>): seq<Dispatched>
    decreases |frames|
  {
    if |frames| == 0 then []
    else
      match frames[0]
      case DataLine(p) => [Dispatched("message", p)] + Messages(frames[1..])
      case CommentLine(_) => Messages(frames[1..])
  }

  // ----- round trip -----

  lemma {:induction false} LineLengthOfLine(x: string, rest: string)
    requires NoLineBreak(x)
    ensures LineLength(x + "\n" + rest) == |x|
    decreases |x|
  {
    if |x| > 0 {
      assert (x + "\n" + rest)[1..] == x[1..] + "\n" + rest;
      LineLengthOfLine(x[1..], rest);
    }
  }

  /** A line of text ended by LF comes off the front of the stream as one line. */
  lemma LinesOfLine(x: string, rest: string)
    requires NoLineBreak(x)
    ensures Lines(x + "\n" + rest) == [x] + Lines(rest)
  {
    var s := x + "\n" + rest;
    LineLengthOfLine(x, rest);
    assert s[..|x|] == x;
    assert s[|x| + 1..] == rest;
  }

  /** A frame's text is two lines, its own and a blank one. */
  lemma LinesOfFrame(head: string, rest: string)
    requires NoLineBreak(head)
    ensures Lines(head + "\n\n" + rest) == [head, ""] + Lines(rest)
  {
    BlankLineAfter(head, rest);
    LinesOfLine(head, "\n" + rest);
    BlankLine(rest);
    PrependTwo(head, "", Lines(rest));
  }

  lemma PrependTwo(a: string, b: string, rest: seq<string>)
    ensures [a] + ([b] + rest) == [a, b] + rest
  {
    assert [a, b] == [a] + [b];
  }

  lemma BlankLineAfter(head: string, rest: string)
    ensures head + "\n\n" + rest == head + "\n" + ("\n" + rest)
  {
  }

  /** A LF at the front of the stream is an empty line. */
  lemma BlankLine(rest: string)
    ensures Lines("\n" + rest) == [""] + Lines(rest)
  {
    var s := "\n" + rest;
    assert LineLength(s) == 0;
    assert s[1..] == rest;
  }

  lemma DataHead(p: string)
    requires NoLineBreak(p)
    ensures NoLineBreak("data: " + p)
    ensures FieldName("data: " + p) == "data" && FieldValue("data: " + p) == p
  {
    var line := "data: " + p;
    forall k | 0 <= k < |line| ensures !IsLineBreak(line[k]) {
      if k >= 6 { assert line[k] == p[k - 6]; }
    }
    assert line[4] == ':';
    assert line[..4] == "data";
    assert ColonAt(line) == 4;
    assert line[5..] == " " + p;
  }

  lemma CommentHead(t: string)
    requires NoLineBreak(t)
    ensures NoLineBreak(":" + t)
  {
    var line := ":" + t;
    forall k | 0 <= k < |line| ensures !IsLineBreak(line[k]) {
      if k >= 1 { assert line[k] == t[k - 1]; }
    }
  }

  /** A data line and a blank line dispatch one `message` event and leave the buffers empty. */
  lemma InterpretData(p: string, rest: seq<string>)
    requires NoLineBreak(p)
    ensures Interpret([("data: " + p), ""] + rest, "", "") == [Dispatched("message", p)] + Interpret(rest, "", "")
  {
    DataHead(p);
    var ls := ["data: " + p, ""] + rest;
    assert ls[0] == "data: " + p && ls[1..] == [""] + rest;
    assert ([""] + rest)[1..] == rest;
    assert ("" + p + "\n")[..|p|] == p;
  }

  /** A comment line and a blank line dispatch nothing. */
  lemma InterpretComment(t: string, rest: seq<string>)
    ensures Interpret([":" + t, ""] + rest, "", "") == Interpret(rest, "", "")
  {
    var ls := [":" + t, ""] + rest;
    assert ls[0] == ":" + t && ls[1..] == [""] + rest;
    assert ([""] + rest)[1..] == rest;
  }

  /**
   * A well-formed data frame is dispatched as exactly one `message` event
   * whose data is the payload, and a comment, such as the heartbeat, as
   * nothing; so a subscriber's whole stream dispatches exactly the payloads
   * of its data frames, in order.
   */
  lemma {:induction false} WireParses(frames: seq<Frame>)
    requires forall k :: 0 <= k < |frames| ==> frames[k].WellFormed()
    ensures Parse(Wire(frames)) == Messages(frames)
    decreases |frames|
  {
    if |frames| > 0 {
      var rest := Wire(frames[1..]);
      WireParses(frames[1..]);
      match frames[0]
      case DataLine(p) =>
        DataHead(p);
        LinesOfFrame("data: " + p, rest);
        InterpretData(p, Lines(rest));
      case CommentLine(t) =>
        CommentHead(t);
        LinesOfFrame(":" + t, rest);
        InterpretComment(t, Lines(rest));
    }
  }

  /** Two data frames are two `message` events, in order. */
  lemma TwoDataMessages(p: string, q: string)
    ensures Messages([DataLine(p), DataLine(q)]) == [Dispatched("message", p), Dispatched("message", q)]
  {
    var fs := [DataLine(p), DataLine(q)];
    var none: seq<Frame> := [];
    assert fs[1..] == [DataLine(q)];
    assert fs[1..][1..] == none;
    assert Messages(fs[1..]) == [Dispatched("message", q)] + Messages(none);
  }

  /** One frame on its own: a data frame round-trips its payload. */
  lemma DataFrameRoundTrip(payload: string)
    requires NoLineBreak(payload)
    ensures Parse(DataLine(payload).Text()) == [Dispatched("message", payload)]
  {
    var fs := [DataLine(payload)];
    WireParses(fs);
    assert Wire(fs) == DataLine(payload).Text() + "";
    assert DataLine(payload).Text() + "" == DataLine(payload).Text();
  }
}
