/**
 * The browser side of the chat: the conversation history, the streamed reply
 * and how `sendMessage` turns the chunks of the response body into the
 * assistant's text.
 *
 * The response body is read chunk by chunk. Every chunk is split on '\n' by
 * itself. Nothing is carried over from one chunk to the next. Only lines that
 * start with `data:` are used, and a `[DONE]` payload ends the scan of its own
 * chunk, not the reading of the body.
 */
module ChatClient {
  import opened JsText

  /** The two roles of a `ChatMsg`. */
  datatype Role = User | Assistant

  /** One turn of the conversation, or the role and text of one bubble. */
  datatype ChatMsg = ChatMsg(role: Role, content: string)

  /** One element of a payload's `choices`, reduced to `delta.content` when
      that is a string. */
  datatype Choice = Choice(deltaContent: Option<string>)

  /** What the client reads from the result of `JSON.parse(payload)`.
      `Unparsable` stands for every payload whose handling throws: text that is
      not JSON, and the JSON value `null`, whose `.response` throws. */
  datatype Json = Unparsable | Obj(response: Option<string>, choices: seq<Choice>)

  /** What `fetch` and the body's reader deliver. */
  datatype Reply =
    | NetworkError                                    // `fetch` rejects
    | NoBody                                          // `response.body` is null
    | Streamed(chunks: seq<string>, readFails: bool)  // the decoded chunks, then `done` or a failing read

  /** The JSON body of the POST to `/api/chat`. */
  datatype Request = Request(messages: seq<ChatMsg>, model: string)

  const DataPrefix: string := "data:"
  const DoneMarker: string := "[DONE]"
  /** The fixed apology shown when the exchange fails. */
  const ErrorNotice: string := "عذراً، حدث خطأ في الاتصال بـ Astra AI. يرجى المحاولة مرة أخرى."

  /** `line.startsWith('data:')`. */
  predicate IsDataLine(line: string) {
    StartsWith(line, DataPrefix)
  }

  /** `line.slice(5).trim()` for a data line. */
  function Payload(line: string): (r: string)
    requires IsDataLine(line)
    ensures |r| <= |line| - |DataPrefix|
    ensures r != [] ==> !IsWhitespace(r[0]) && !IsWhitespace(r[|r| - 1])
  {
    Trim(line[|DataPrefix|..])
  }

  /** `json.choices?.[0]?.delta?.content`. */
  function FirstDeltaContent(choices: seq<Choice>): Option<string> {
    if choices == [] then None else choices[0].deltaContent
  }

  /** The text a parsed payload contributes,
      `json.response || json.choices?.[0]?.delta?.content || ""`, or None when
      handling the payload throws and the client skips it. */
  function Fragment(j: Json): (r: Option<string>)
    ensures r.None? <==> j.Unparsable?
    ensures j.Obj? && j.response.Some? && j.response.value != "" ==> r == j.response
    ensures j.Obj? && !(j.response.Some? && j.response.value != "") ==>
      r == Some(if j.choices != [] && j.choices[0].deltaContent.Some? then j.choices[0].deltaContent.value else "")
  {
    match j
    case Unparsable => None
    case Obj(response, choices) => Some(OrElse(response, OrElse(FirstDeltaContent(choices), "")))
  }

  /** The fragments the lines of one chunk contribute, in order: only data
      lines count, a payload that cannot be handled is skipped, and a `[DONE]`
      payload ends the scan of these lines. */
  function LineFragments(lines: seq<string>, parse: string -> Json): (r: seq<string>)
    ensures |r| <= |lines|
  {
    if lines == [] then
      []
    else if !IsDataLine(lines[0]) then
      LineFragments(lines[1..], parse)
    else if Payload(lines[0]) == DoneMarker then
      []
    else
      match Fragment(parse(Payload(lines[0])))
      case None => LineFragments(lines[1..], parse)
      case Some(f) => [f] + LineFragments(lines[1..], parse)
  }

  /** The fragments of one decoded chunk, `chunk.split('\n')` scanned by itself. */
  function ChunkFragments(chunk: string, parse: string -> Json): (r: seq<string>)
    ensures |r| <= |Split(chunk, '\n')|
  {
    LineFragments(Split(chunk, '\n'), parse)
  }

  /** The fragments of the whole body: every chunk's, in order. */
  function StreamFragments(chunks: seq<string>, parse: string -> Json): seq<string> {
    if chunks == [] then [] else ChunkFragments(chunks[0], parse) + StreamFragments(chunks[1..], parse)
  }

  /** The strings of `parts` one after the other. */
  function Concat(parts: seq<string>): string {
    if parts == [] then "" else parts[0] + Concat(parts[1..])
  }

  /** `aiFullText` once the reader reports `done`. */
  function StreamText(chunks: seq<string>, parse: string -> Json): string {
    Concat(StreamFragments(chunks, parse))
  }

  /** Whether the exchange ends in the `catch` block of `sendMessage`. */
  predicate Fails(reply: Reply) {
    reply.NetworkError? || reply.NoBody? || (reply.Streamed? && reply.readFails)
  }

  /** The assistant turn a send records in `history`: the full text, however
      empty, when the body was read to its end, and nothing when it failed. */
  function Recorded(reply: Reply, parse: string -> Json): (r: seq<ChatMsg>)
    ensures |r| <= 1
    ensures r != [] <==> !Fails(reply)
    ensures r != [] ==> r[0] == ChatMsg(Assistant, StreamText(reply.chunks, parse))
  {
    if Fails(reply) then [] else [ChatMsg(Assistant, StreamText(reply.chunks, parse))]
  }

  /** The bubbles a send adds after the user's: the assistant bubble with the
      accumulated text once a body is being read, and the apology when the
      exchange failed. */
  function Shown(reply: Reply, parse: string -> Json): (r: seq<ChatMsg>)
    ensures |r| == (if reply.Streamed? then 1 else 0) + (if Fails(reply) then 1 else 0)
    ensures reply.Streamed? ==> r[0] == ChatMsg(Assistant, StreamText(reply.chunks, parse))
    ensures Fails(reply) ==> r[|r| - 1] == ChatMsg(Assistant, ErrorNotice)
  {
    (if reply.Streamed? then [ChatMsg(Assistant, StreamText(reply.chunks, parse))] else [])
    + (if Fails(reply) then [ChatMsg(Assistant, ErrorNotice)] else [])
  }

  lemma {:induction false} ConcatAppend(a: seq<string>, b: seq<string>)
    ensures Concat(a + b) == Concat(a) + Concat(b)
  {
    if a != [] {
      ConcatAppend(a[1..], b);
      assert (a + b)[1..] == a[1..] + b;
    } else {
      assert a + b == b;
    }
  }

  /** Reading the body in two parts gives the fragments of the first part
      followed by those of the second: chunks are scanned independently. */
  lemma {:induction false} StreamFragmentsAppend(a: seq<string>, b: seq<string>, parse: string -> Json)
    ensures StreamFragments(a + b, parse) == StreamFragments(a, parse) + StreamFragments(b, parse)
  {
    if a != [] {
      StreamFragmentsAppend(a[1..], b, parse);
      assert (a + b)[1..] == a[1..] + b;
    } else {
      assert a + b == b;
    }
  }

  /** The accumulated text of a body read in two parts is the text of the
      first part followed by that of the second. */
  lemma StreamTextAppend(a: seq<string>, b: seq<string>, parse: string -> Json)
    ensures StreamText(a + b, parse) == StreamText(a, parse) + StreamText(b, parse)
  {
    StreamFragmentsAppend(a, b, parse);
    ConcatAppend(StreamFragments(a, parse), StreamFragments(b, parse));
  }

  /** The text the lines from `j` on contribute, in terms of line `j`: what
      one turn of the scan over a chunk's lines does. */
  lemma RemainingTextStep(lines: seq<string>, j: nat, parse: string -> Json)
    requires j < |lines|
    ensures Concat(LineFragments(lines[j..], parse)) ==
      if !IsDataLine(lines[j]) then Concat(LineFragments(lines[j + 1..], parse))
      else if Payload(lines[j]) == DoneMarker then ""
      else if Fragment(parse(Payload(lines[j]))).None? then Concat(LineFragments(lines[j + 1..], parse))
      else Fragment(parse(Payload(lines[j]))).value + Concat(LineFragments(lines[j + 1..], parse))
  {
    assert lines[j..][0] == lines[j] && lines[j..][1..] == lines[j + 1..];
  }

  /** Reading on from chunk `k`: that chunk's text, then the rest. */
  lemma StreamTextStep(chunks: seq<string>, k: nat, parse: string -> Json)
    requires k < |chunks|
    ensures StreamText(chunks[k..], parse) == Concat(ChunkFragments(chunks[k], parse)) + StreamText(chunks[k + 1..], parse)
  {
    assert chunks[k..][0] == chunks[k] && chunks[k..][1..] == chunks[k + 1..];
    ConcatAppend(ChunkFragments(chunks[k], parse), StreamFragments(chunks[k + 1..], parse));
  }

  /** A `[DONE]` line ends the scan of its chunk: the lines after it add nothing. */
  lemma {:induction false} DoneEndsLineScan(lines: seq<string>, k: nat, parse: string -> Json)
    requires k < |lines| && IsDataLine(lines[k]) && Payload(lines[k]) == DoneMarker
    ensures LineFragments(lines, parse) == LineFragments(lines[..k], parse)
  {
    if k > 0 {
      DoneEndsLineScan(lines[1..], k - 1, parse);
      assert lines[1..][..k - 1] == lines[..k][1..];
    }
  }

  /** A `[DONE]` line in one chunk does not stop the reading: the chunk
      contributes the fragments of the lines before it, and every later chunk
      is still scanned. */
  lemma DoneEndsOnlyItsChunk(before: seq<string>, chunk: string, after: seq<string>, k: nat, parse: string -> Json)
    requires k < |Split(chunk, '\n')|
    requires IsDataLine(Split(chunk, '\n')[k]) && Payload(Split(chunk, '\n')[k]) == DoneMarker
    ensures StreamFragments(before + [chunk] + after, parse)
         == StreamFragments(before, parse) + LineFragments(Split(chunk, '\n')[..k], parse) + StreamFragments(after, parse)
  {
    StreamFragmentsAppend(before + [chunk], after, parse);
    StreamFragmentsAppend(before, [chunk], parse);
    DoneEndsLineScan(Split(chunk, '\n'), k, parse);
    assert StreamFragments([chunk], parse) == ChunkFragments(chunk, parse) + StreamFragments([], parse);
  }

  /** A line that contributes nothing and does not end the scan: a line that
      does not start with `data:`, or a data line whose payload is not
      `[DONE]` and cannot be handled. */
  predicate IsSilent(line: string, parse: string -> Json) {
    !IsDataLine(line) || (Payload(line) != DoneMarker && parse(Payload(line)).Unparsable?)
  }

  /** Silent lines can be dropped anywhere without changing the fragments;
      in particular, lines without the `data:` prefix never contribute. */
  lemma {:induction false} SilentLineIgnored(pre: seq<string>, line: string, post: seq<string>, parse: string -> Json)
    requires IsSilent(line, parse)
    ensures LineFragments(pre + [line] + post, parse) == LineFragments(pre + post, parse)
  {
    if pre != [] {
      SilentLineIgnored(pre[1..], line, post, parse);
      var a, b := pre + [line] + post, pre + post;
      assert a[1..] == pre[1..] + [line] + post;
      assert b[1..] == pre[1..] + post;
      SameFirstLine(a, b, parse);
    } else {
      var a := [line] + post;
      assert a[1..] == post;
      assert pre + [line] + post == a && pre + post == post;
    }
  }

  /** Two scans that start at the same line agree when the rest agrees. */
  lemma SameFirstLine(a: seq<string>, b: seq<string>, parse: string -> Json)
    requires a != [] && b != [] && a[0] == b[0]
    requires LineFragments(a[1..], parse) == LineFragments(b[1..], parse)
    ensures LineFragments(a, parse) == LineFragments(b, parse)
  {
  }

  /** A data line whose payload is handled contributes its fragment in
      place, provided no `[DONE]` line ends the scan before it. */
  lemma {:induction false} DataLineContributes(pre: seq<string>, line: string, post: seq<string>, parse: string -> Json)
    requires forall k :: 0 <= k < |pre| ==> !(IsDataLine(pre[k]) && Payload(pre[k]) == DoneMarker)
    requires IsDataLine(line) && Payload(line) != DoneMarker && parse(Payload(line)).Obj?
    ensures LineFragments(pre + [line] + post, parse)
         == LineFragments(pre, parse) + [Fragment(parse(Payload(line))).value] + LineFragments(post, parse)
  {
    var f := Fragment(parse(Payload(line))).value;
    var a := pre + [line] + post;
    FirstLineStep(a, parse);
    if pre == [] {
      assert a[0] == line && a[1..] == post;
    } else {
      assert a[0] == pre[0] && a[1..] == pre[1..] + [line] + post;
      assert forall k :: 0 <= k < |pre[1..]| ==> pre[1..][k] == pre[k + 1];
      DataLineContributes(pre[1..], line, post, parse);
      FirstLineStep(pre, parse);
      var rest := LineFragments(pre[1..], parse);
      AppendAssoc(rest, [f], LineFragments(post, parse));
      if IsDataLine(pre[0]) && Fragment(parse(Payload(pre[0]))).Some? {
        // The first line contributes its own fragment in front of both sides.
        var g := Fragment(parse(Payload(pre[0]))).value;
        AppendAssoc([g], rest, [f] + LineFragments(post, parse));
        AppendAssoc([g] + rest, [f], LineFragments(post, parse));
      }
    }
  }

  /** One turn of the line scan, on the first line. */
  lemma FirstLineStep(lines: seq<string>, parse: string -> Json)
    requires lines != []
    ensures LineFragments(lines, parse) ==
      if !IsDataLine(lines[0]) then LineFragments(lines[1..], parse)
      else if Payload(lines[0]) == DoneMarker then []
      else if Fragment(parse(Payload(lines[0]))).None? then LineFragments(lines[1..], parse)
      else [Fragment(parse(Payload(lines[0]))).value] + LineFragments(lines[1..], parse)
  {
  }

  /** The payload of a data line is what follows `data:` with the white space
      at both of its ends removed. */
  lemma PayloadStripsPadding(lead: string, p: string, trail: string)
    requires AllWhitespace(lead) && AllWhitespace(trail)
    requires p != [] ==> !IsWhitespace(p[0]) && !IsWhitespace(p[|p| - 1])
    ensures IsDataLine(DataPrefix + lead + p + trail)
    ensures Payload(DataPrefix + lead + p + trail) == p
  {
    var line := DataPrefix + lead + p + trail;
    assert line[..|DataPrefix|] == DataPrefix;
    var rest := line[|DataPrefix|..];
    assert rest == lead + p + trail;
    assert rest[..|lead|] == lead;
    assert rest[|lead| + |p|..] == trail;
    TrimIsCore(rest, |lead|, |lead| + |p|);
    assert rest[|lead|..|lead| + |p|] == p;
  }

  /** A chunk without a line break is scanned as one line. */
  lemma SingleLineChunk(chunk: string, parse: string -> Json)
    requires '\n' !in chunk
    ensures ChunkFragments(chunk, parse) == LineFragments([chunk], parse)
  {
    SplitJoin([chunk], '\n');
  }

  /** There is no buffering across chunks: a data line whose payload is cut by
      a chunk boundary, so that neither part can be handled, contributes
      nothing, although the same text delivered in one chunk does. */
  lemma LineCutAcrossChunksIsLost(head: string, tail: string, parse: string -> Json)
    requires '\n' !in head && '\n' !in tail
    requires IsDataLine(head) && Payload(head) != DoneMarker && parse(Payload(head)).Unparsable?
    requires !IsDataLine(tail)
    requires Payload(head + tail) != DoneMarker && parse(Payload(head + tail)).Obj?
    ensures StreamFragments([head, tail], parse) == []
    ensures StreamFragments([head + tail], parse) == [Fragment(parse(Payload(head + tail))).value]
  {
    SingleLineChunk(head, parse);
    SingleLineChunk(tail, parse);
    assert '\n' !in head + tail;
    SingleLineChunk(head + tail, parse);
    assert (head + tail)[..|DataPrefix|] == head[..|DataPrefix|];
    assert [head, tail][1..] == [tail];
    assert StreamFragments([tail], parse) == ChunkFragments(tail, parse) + StreamFragments([], parse);
    assert StreamFragments([head + tail], parse) == ChunkFragments(head + tail, parse) + StreamFragments([], parse);
  }

  /** A chunk that opens with a `[DONE]` line (padded with any white space
      but a line break) contributes nothing, whatever follows it in the
      chunk; a body of such chunks alone ends with an empty `aiFullText`. */
  lemma DoneFirstChunkIsEmpty(lead: string, trail: string, rest: string, parse: string -> Json)
    requires AllWhitespace(lead) && AllWhitespace(trail)
    requires '\n' !in lead && '\n' !in trail
    ensures ChunkFragments(DataPrefix + lead + DoneMarker + trail + "\n" + rest, parse) == []
    ensures StreamText([DataPrefix + lead + DoneMarker + trail + "\n" + rest], parse) == ""
  {
    var line := DataPrefix + lead + DoneMarker + trail;
    PayloadStripsPadding(lead, DoneMarker, trail);
    NoBreakInDoneLine(lead, trail);
    FirstLine(line, rest);
    var chunk := line + "\n" + rest;
    DoneEndsLineScan(Split(chunk, '\n'), 0, parse);
    assert StreamFragments([chunk], parse) == ChunkFragments(chunk, parse) + StreamFragments([], parse);
  }

  lemma NoBreakInDoneLine(lead: string, trail: string)
    requires '\n' !in lead && '\n' !in trail
    ensures '\n' !in DataPrefix + lead + DoneMarker + trail
  {
    assert '\n' !in DataPrefix && '\n' !in DoneMarker;
  }

  /** The first piece of a chunk is the text before its first line break. */
  lemma FirstLine(line: string, rest: string)
    requires '\n' !in line
    ensures Split(line + "\n" + rest, '\n')[0] == line
  {
    SplitPiece(line, "\n" + rest, '\n');
    assert ("\n" + rest)[0] == '\n' && ("\n" + rest)[1..] == rest;
    assert line + "\n" + rest == line + ("\n" + rest);
  }

  /** The client's state: the module-level `history`, the chat box (one entry
      per bubble, with its role and current text), the requests handed to
      `fetch`, and the input controls. */
  class Session {
    var history: seq<ChatMsg>
    var bubbles: seq<ChatMsg>
    var sent: seq<Request>
    var inputValue: string
    var selectedModel: string
    var inputDisabled: bool
    var buttonDisabled: bool
    var indicatorVisible: bool
    var inputFocused: bool

    /** The page as loaded: empty history and chat box, controls enabled. */
    constructor (model: string)
      ensures history == [] && bubbles == [] && sent == []
      ensures inputValue == "" && selectedModel == model
      ensures !inputDisabled && !buttonDisabled && !indicatorVisible && !inputFocused
    {
      history, bubbles, sent := [], [], [];
      inputValue, selectedModel := "", model;
      inputDisabled, buttonDisabled, indicatorVisible, inputFocused := false, false, false, false;
    }

    /** Lines 51-85 of `sendMessage`: the assistant bubble is added empty,
        then the chunks are read one by one until the reader reports `done`. */
    method ReadBody(chunks: seq<string>, parse: string -> Json) returns (aiFullText: string)
      modifies this`bubbles
      ensures aiFullText == StreamText(chunks, parse)
      ensures bubbles == old(bubbles) + [ChatMsg(Assistant, aiFullText)]
    {
      aiFullText := "";
      bubbles := bubbles + [ChatMsg(Assistant, aiFullText)];
      var k := 0;
      while k < |chunks|
        invariant 0 <= k <= |chunks|
        invariant bubbles == old(bubbles) + [ChatMsg(Assistant, aiFullText)]
        invariant aiFullText + StreamText(chunks[k..], parse) == StreamText(chunks, parse)
      {
        ghost var before := aiFullText;
        aiFullText := ScanChunk(chunks[k], parse, aiFullText);
        StreamTextStep(chunks, k, parse);
        AppendAssoc(before, Concat(ChunkFragments(chunks[k], parse)), StreamText(chunks[k + 1..], parse));
        k := k + 1;
      }
      assert chunks[k..] == [];
    }

    /** Lines 63-84 of `sendMessage`: one chunk split on '\n' and scanned line
        by line; every fragment is appended to `aiFullText` and the last bubble,
        the assistant's, shows `aiFullText` after every fragment. */
    method ScanChunk(chunk: string, parse: string -> Json, text: string) returns (aiFullText: string)
      requires bubbles != [] && bubbles[|bubbles| - 1] == ChatMsg(Assistant, text)
      modifies this`bubbles
      ensures aiFullText == text + Concat(ChunkFragments(chunk, parse))
      ensures bubbles == old(bubbles)[|old(bubbles)| - 1 := ChatMsg(Assistant, aiFullText)]
    {
      aiFullText := text;
      var lines := Split(chunk, '\n');
      ghost var total := text + Concat(LineFragments(lines, parse));
      var ai := |bubbles| - 1;
      var j := 0;
      while j < |lines|
        invariant 0 <= j <= |lines|
        invariant bubbles == old(bubbles)[ai := ChatMsg(Assistant, aiFullText)]
        invariant total == aiFullText + Concat(LineFragments(lines[j..], parse))
      {
        var line := lines[j];
        RemainingTextStep(lines, j, parse);
        if IsDataLine(line) {
          var dataLine := Trim(line[|DataPrefix|..]);
          if dataLine == DoneMarker {
            break;
          }
          var content := Fragment(parse(dataLine));
          if content.Some? {
            AppendAssoc(aiFullText, content.value, Concat(LineFragments(lines[j + 1..], parse)));
            aiFullText := aiFullText + content.value;
            bubbles := bubbles[ai := ChatMsg(Assistant, aiFullText)];
          }
        }
        j := j + 1;
      }
    }

    /** `sendMessage`: `reply` is what `fetch` and the body's reader deliver
        and `parse` is `JSON.parse` as the client sees its result. */
    method SendMessage(reply: Reply, parse: string -> Json)
      modifies this
      // An input that trims to nothing changes nothing and sends nothing.
      ensures Trim(old(inputValue)) == "" ==> unchanged(this)
      // Otherwise the input is cleared, and exactly one user turn with the
      // trimmed text is appended before the request, which carries it.
      ensures Trim(old(inputValue)) != "" ==> inputValue == "" && selectedModel == old(selectedModel)
      ensures Trim(old(inputValue)) != "" ==>
        sent == old(sent) + [Request(old(history) + [ChatMsg(User, Trim(old(inputValue)))], old(selectedModel))]
      // The assistant turn is recorded only when the body was read to its end.
      ensures Trim(old(inputValue)) != "" ==>
        history == old(history) + [ChatMsg(User, Trim(old(inputValue)))] + Recorded(reply, parse)
      ensures Trim(old(inputValue)) != "" ==>
        bubbles == old(bubbles) + [ChatMsg(User, Trim(old(inputValue)))] + Shown(reply, parse)
      // The controls are released on every path that sent something.
      ensures Trim(old(inputValue)) != "" ==>
        !inputDisabled && !buttonDisabled && !indicatorVisible && inputFocused
    {
      var text := Trim(inputValue);
      var model := selectedModel;
      if text != "" {
        Exchange(text, model, reply, parse);
      }
    }

    /** Lines 29-97 of `sendMessage`, once the input is known not to be
        empty: the user turn is shown, recorded and sent, then the reply is
        read. */
    method Exchange(text: string, model: string, reply: Reply, parse: string -> Json)
      modifies this
      ensures inputValue == "" && selectedModel == old(selectedModel)
      ensures sent == old(sent) + [Request(old(history) + [ChatMsg(User, text)], model)]
      ensures history == old(history) + [ChatMsg(User, text)] + Recorded(reply, parse)
      ensures bubbles == old(bubbles) + [ChatMsg(User, text)] + Shown(reply, parse)
      ensures !inputDisabled && !buttonDisabled && !indicatorVisible && inputFocused
    {
      Submit(text, model);
      Receive(reply, parse);
    }

    /** Lines 29-47 of `sendMessage`: the user bubble is shown, the input is
        cleared and the controls disabled, the user turn is pushed onto
        `history`, and the whole history is sent with the selected model. */
    method Submit(text: string, model: string)
      modifies this
      ensures inputValue == "" && selectedModel == old(selectedModel)
      ensures history == old(history) + [ChatMsg(User, text)]
      ensures sent == old(sent) + [Request(history, model)]
      ensures bubbles == old(bubbles) + [ChatMsg(User, text)]
      ensures inputDisabled && buttonDisabled && indicatorVisible && inputFocused == old(inputFocused)
    {
      var user := ChatMsg(User, text);
      bubbles := bubbles + [user];
      inputValue := "";
      inputDisabled, buttonDisabled := true, true;
      indicatorVisible := true;
      history := history + [user];
      sent := sent + [Request(history, model)];
    }

    /** Lines 49-97 of `sendMessage`: the `try` block reads the reply; both
        ways of throwing (no body, a failing fetch or read) end in the
        `catch` block, which shows the apology and records nothing; the
        `finally` block releases the controls. */
    method Receive(reply: Reply, parse: string -> Json)
      modifies this
      ensures inputValue == old(inputValue) && selectedModel == old(selectedModel) && sent == old(sent)
      ensures history == old(history) + Recorded(reply, parse)
      ensures bubbles == old(bubbles) + Shown(reply, parse)
      ensures !inputDisabled && !buttonDisabled && !indicatorVisible && inputFocused
    {
      ghost var shownBefore := bubbles;
      var notice := ChatMsg(Assistant, ErrorNotice);
      if reply.Streamed? {
        var aiFullText := ReadBody(reply.chunks, parse);
        var ai := ChatMsg(Assistant, aiFullText);
        if reply.readFails {
          bubbles := bubbles + [notice];
          AppendAssoc(shownBefore, [ai], [notice]);
          assert Shown(reply, parse) == [ai] + [notice];
          assert Recorded(reply, parse) == [];
        } else {
          history := history + [ai];
          assert Shown(reply, parse) == [ai];
          assert Recorded(reply, parse) == [ai];
        }
      } else {
        bubbles := bubbles + [notice];
        assert Shown(reply, parse) == [notice];
        assert Recorded(reply, parse) == [];
      }
      inputDisabled, buttonDisabled := false, false;
      indicatorVisible := false;
      inputFocused := true;
    }
  }
}
