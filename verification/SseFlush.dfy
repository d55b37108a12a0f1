/** What the end-of-stream flush adds, what it keeps out of the log, and how relay and buffered reader
    compare on any body (src/proxy/handlers.rs, `handle_stream_response`, `parse_openai_sse_body`). */
module SseFlush {
  import opened Wrappers
  import opened Json
  import opened Text
  import opened SseRelay
  import opened SseTheorems
  import opened SseEvents
  import opened SseBody
  import Usage

  // ---------------------------------------------------------------- one more chunk

  lemma NoParts(kind: UpstreamKind)
    ensures Concat(Contents(kind, [])) == "" && Concat(Reasonings(kind, [])) == ""
  {
  }

  lemma PartsOfOne(kind: UpstreamKind, json: Value)
    ensures Concat(Contents(kind, [json])) == ContentPart(kind, json)
    ensures Concat(Reasonings(kind, [json])) == ReasoningPart(kind, json)
  {
    PartsOfSnoc(kind, [], json);
    NoParts(kind);
    assert [] + [json] == [json];
  }

  /** At most one chunk follows the others. */
  lemma PartsOfTail(kind: UpstreamKind, head: seq<Value>, tail: seq<Value>)
    requires |tail| <= 1
    ensures Concat(Contents(kind, head + tail)) == Concat(Contents(kind, head)) + Concat(Contents(kind, tail))
    ensures Concat(Reasonings(kind, head + tail)) == Concat(Reasonings(kind, head)) + Concat(Reasonings(kind, tail))
  {
    if tail == [] {
      assert head + tail == head;
      NoParts(kind);
    } else {
      assert tail == [tail[0]];
      PartsOfSnoc(kind, head, tail[0]);
      PartsOfOne(kind, tail[0]);
    }
  }

  lemma SamePrefix(head: string, a: string, b: string)
    ensures head + a == head + b <==> a == b
  {
    assert (head + a)[|head|..] == a && (head + b)[|head|..] == b;
  }

  // ---------------------------------------------------------------- OpenAI streams

  /** The chunk of one data line as the relay reads it. */
  function DataChunk(parse: Parser, line: string): seq<Value> {
    if !("data: " <= line) || line[6..] == "[DONE]" || parse(line[6..]).None? then []
    else [parse(line[6..]).value]
  }

  /** What the flush of an OpenAI stream collects: the trimmed rest, unless a marker line came before. */
  function FlushedChunk(parse: Parser, body: string): seq<Value> {
    if "data: [DONE]" in CompleteLines(body) then [] else DataChunk(parse, Trim(Residue(body)))
  }

  lemma FlushCollects(parse: Parser, p: Progress, rest: string)
    requires '\n' !in rest
    ensures var q, tail := Flush(OpenAi, parse, p, rest), if p.ended then [] else DataChunk(parse, Trim(rest));
            q.chunks == p.chunks + tail && q.reasoning == p.reasoning
  {
    assert p.chunks + [] == p.chunks;
    if Trim(rest) != "" && !p.ended {
      var line := Trim(rest);
      TrimmedRest(rest);
      assert [line][1..] == [];
      assert FlushLines(OpenAi, parse, p, [line]) == FlushLine(OpenAi, parse, p, line);
    }
  }

  /** An OpenAI stream in closed form. */
  lemma OpenAiCollects(parse: Parser, items: seq<StreamItem>)
    ensures var body := Concat(Texts(items));
            var live, p := ReceiveAll(OpenAi, parse, IDLE, items).progress, Collect(OpenAi, parse, items);
            && live == OnLines(OpenAi, parse, START, CompleteLines(body))
            && p.chunks == live.chunks + FlushedChunk(parse, body)
            && p.content == Concat(Contents(OpenAi, p.chunks))
            && p.reasoning == Concat(Reasonings(OpenAi, live.chunks))
  {
    var body := Concat(Texts(items));
    CollectedFromWholeText(OpenAi, parse, items);
    ReceiveAllIsOnePass(OpenAi, parse, IDLE, items);
    assert "" + body == body;
    var live := OnLines(OpenAi, parse, START, CompleteLines(body));
    CollectedIsPaired(OpenAi, parse, items);
    EndedIffMarkerLine(parse, START, CompleteLines(body));
    FlushCollects(parse, live, Residue(body));
  }

  /** The logged reasoning is complete if and only if the flush relayed no reasoning: a marker line came
      before, or the trimmed rest is no data line, is the marker, is not JSON, or carries no reasoning. */
  lemma LoggedReasoningIsCompleteIff(parse: Parser, items: seq<StreamItem>)
    ensures var out, body := StreamOutcome(OpenAi, parse, items), Concat(Texts(items));
            var rest := Trim(Residue(body));
            out.reasoning == Concat(Reasonings(OpenAi, out.chunks)) <==>
            || "data: [DONE]" in CompleteLines(body)
            || !("data: " <= rest)
            || rest[6..] == "[DONE]"
            || parse(rest[6..]).None?
            || ReasoningPart(OpenAi, parse(rest[6..]).value) == ""
  {
    var body := Concat(Texts(items));
    var live, tail := ReceiveAll(OpenAi, parse, IDLE, items).progress.chunks, FlushedChunk(parse, body);
    OpenAiCollects(parse, items);
    PartsOfTail(OpenAi, live, tail);
    if tail == [] {
      NoParts(OpenAi);
    } else {
      PartsOfOne(OpenAi, tail[0]);
    }
  }

  const REASONING_JSON := Obj(map["choices" := Arr([Obj(map["delta" := Obj(map["reasoning_content" := Str("r")])])])])

  /** An unterminated last line whose reasoning is relayed and not logged; `text` is any one-line text of
      the chunk above. */
  lemma FlushedReasoningIsNotLogged(parse: Parser, text: string)
    requires text != "[DONE]" && text != "" && Trimmed(text) && '\n' !in text && parse(text) == Some(REASONING_JSON)
    ensures var out := StreamOutcome(OpenAi, parse, [Data([], "data: " + text)]);
            out.chunks == [REASONING_JSON] && Concat(Reasonings(OpenAi, out.chunks)) == "r" && out.reasoning == ""
  {
    var line := "data: " + text;
    TextsOfOne(line);
    OnlyLineIsFlushed(parse, text);
    OpenAiCollects(parse, [Data([], line)]);
    PartsOfOne(OpenAi, REASONING_JSON);
    NoParts(OpenAi);
    ReasoningIsRead();
  }

  lemma ReasoningIsRead()
    ensures ReasoningPart(OpenAi, REASONING_JSON) == "r"
  {
  }

  lemma OnlyLineIsFlushed(parse: Parser, text: string)
    requires text != "[DONE]" && text != "" && Trimmed(text) && '\n' !in text && parse(text) == Some(REASONING_JSON)
    ensures CompleteLines("data: " + text) == []
    ensures FlushedChunk(parse, "data: " + text) == [REASONING_JSON]
  {
    var line := "data: " + text;
    NoLine(line);
    assert Trimmed(line) && line[6..] == text;
    TrimOfTrimmed(line);
  }

  lemma TextsOfOne(text: string)
    ensures Concat(Texts([Data([], text)])) == text
  {
    assert [Data([], text)][1..] == [];
    assert Texts([Data([], text)]) == [text];
    assert [text][1..] == [] && text + "" == text;
  }

  // ---------------------------------------------------------------- Anthropic streams

  /** The lines after the last empty one. */
  function OpenBlock(lines: seq<string>): seq<string> {
    if lines == [] || lines[|lines| - 1] == "" then []
    else OpenBlock(lines[..|lines| - 1]) + [lines[|lines| - 1]]
  }

  /** What the flush of an Anthropic stream relays: the open block with the trimmed rest as its last line,
      unless the rest is blank or a `message_stop` came before. */
  function PendingChunk(parse: Parser, body: string): seq<Value> {
    var rest, before := Trim(Residue(body)), CompleteLines(body);
    var data := DataOf(ReadLines(OpenBlock(before) + [rest]));
    if rest == "" || OnLines(Anthropic, parse, START, before).ended || data == [] then []
    else
      var json := parse(Join(data, "\n"));
      if json.None? then [] else [json.value]
  }

  lemma OpenBlockGrows(parse: Parser, p: Progress, block: seq<string>, line: string)
    requires p.dataLines == DataOf(ReadLines(block)) && p.eventName == NameOf(ReadLines(block))
    ensures var q, more := OnLine(Anthropic, parse, p, line), if line == "" then [] else block + [line];
            q.dataLines == DataOf(ReadLines(more)) && q.eventName == NameOf(ReadLines(more))
  {
    if line != "" {
      assert ReadLines(block + [line]) == ReadLines(block) + [FieldOf(line)];
      FieldsOfSnoc(ReadLines(block), FieldOf(line));
      assert DataOf(ReadLines(block)) + [] == DataOf(ReadLines(block));
      assert "data: "[0] != "event: "[0];
    }
  }

  lemma {:induction false} OpenBlockIsPending(parse: Parser, lines: seq<string>)
    ensures var p, block := OnLines(Anthropic, parse, START, lines), ReadLines(OpenBlock(lines));
            p.dataLines == DataOf(block) && p.eventName == NameOf(block)
  {
    if lines == [] {
    } else {
      var init, last := lines[..|lines| - 1], lines[|lines| - 1];
      SplitLast(lines);
      OpenBlockIsPending(parse, init);
      OnOneLine(Anthropic, parse, START, init, last);
      OpenBlockGrows(parse, OnLines(Anthropic, parse, START, init), OpenBlock(init), last);
    }
  }

  lemma FlushedLinePends(parse: Parser, p: Progress, block: seq<string>, line: string)
    requires p.dataLines == DataOf(ReadLines(block)) && Trim(line) == line
    ensures var q := FlushLine(Anthropic, parse, p, line);
            q == p.(eventName := q.eventName, dataLines := DataOf(ReadLines(block + [line])))
  {
    assert ReadLines(block + [line]) == ReadLines(block) + [FieldOf(line)];
    FieldsOfSnoc(ReadLines(block), FieldOf(line));
    assert DataOf(ReadLines(block)) + [] == DataOf(ReadLines(block));
    assert "data: "[0] != "event: "[0];
  }

  lemma PendingIsCollected(parse: Parser, body: string)
    ensures var p := OnLines(Anthropic, parse, START, CompleteLines(body));
            var q := Flush(Anthropic, parse, p, Residue(body));
            && q.chunks == p.chunks + PendingChunk(parse, body)
            && q.content == p.content && q.reasoning == p.reasoning
  {
    var p, rest := OnLines(Anthropic, parse, START, CompleteLines(body)), Residue(body);
    assert p.chunks + [] == p.chunks;
    if Trim(rest) != "" && !p.ended {
      var line := Trim(rest);
      TrimmedRest(rest);
      assert [line][1..] == [];
      assert FlushLines(Anthropic, parse, p, [line]) == FlushLine(Anthropic, parse, p, line);
      OpenBlockIsPending(parse, CompleteLines(body));
      FlushedLinePends(parse, p, OpenBlock(CompleteLines(body)), line);
    }
  }

  /** The Anthropic twin: neither the text nor the reasoning of the flushed event is logged, so each is
      complete if and only if the flush relays no event or one without such text. */
  lemma LoggedAnthropicTextIsCompleteIff(parse: Parser, items: seq<StreamItem>)
    ensures var out, body := StreamOutcome(Anthropic, parse, items), Concat(Texts(items));
            var live := OnLines(Anthropic, parse, START, CompleteLines(body)).chunks;
            var flushed := PendingChunk(parse, body);
            && out.chunks == live + flushed
            && out.content == Concat(Contents(Anthropic, live)) && out.reasoning == Concat(Reasonings(Anthropic, live))
            && (out.content == Concat(Contents(Anthropic, out.chunks)) <==>
                flushed == [] || ContentPart(Anthropic, flushed[0]) == "")
            && (out.reasoning == Concat(Reasonings(Anthropic, out.chunks)) <==>
                flushed == [] || ReasoningPart(Anthropic, flushed[0]) == "")
  {
    var body := Concat(Texts(items));
    var live, flushed := OnLines(Anthropic, parse, START, CompleteLines(body)).chunks, PendingChunk(parse, body);
    CollectedFromWholeText(Anthropic, parse, items);
    ReceiveAllIsOnePass(Anthropic, parse, IDLE, items);
    assert "" + body == body;
    CollectedIsPaired(Anthropic, parse, items);
    PendingIsCollected(parse, body);
    PartsOfTail(Anthropic, live, flushed);
    if flushed == [] {
      NoParts(Anthropic);
    } else {
      PartsOfOne(Anthropic, flushed[0]);
    }
  }

  const SPOKEN_JSON := Obj(map["delta" := Obj(map["text" := Str("t"), "thinking" := Str("r")])])

  /** An unterminated last line whose text and reasoning are relayed and not logged; `text` is any one-line
      text of the event above. */
  lemma FlushedTextIsNotLogged(parse: Parser, text: string)
    requires text != "" && Trimmed(text) && '\n' !in text && parse(text) == Some(SPOKEN_JSON)
    ensures var out := StreamOutcome(Anthropic, parse, [Data([], "data: " + text)]);
            && out.chunks == [SPOKEN_JSON] && out.content == "" && out.reasoning == ""
            && Concat(Contents(Anthropic, out.chunks)) == "t" && Concat(Reasonings(Anthropic, out.chunks)) == "r"
  {
    var line := "data: " + text;
    TextsOfOne(line);
    OnlyLineIsPending(parse, text, line);
    LoggedAnthropicTextIsCompleteIff(parse, [Data([], line)]);
    PartsOfOne(Anthropic, SPOKEN_JSON);
    NoParts(Anthropic);
    SpokenIsRead();
  }

  lemma SpokenIsRead()
    ensures ContentPart(Anthropic, SPOKEN_JSON) == "t" && ReasoningPart(Anthropic, SPOKEN_JSON) == "r"
  {
    var delta := Obj(map["text" := Str("t"), "thinking" := Str("r")]);
    assert SPOKEN_JSON.Get("delta") == Some(delta) && SPOKEN_JSON.Get("content_block") == None;
    assert delta.GetStr("text") == Some("t") && delta.GetStr("thinking") == Some("r");
    assert "t" + "" == "t";
  }

  lemma OnlyLineIsPending(parse: Parser, text: string, line: string)
    requires text != "" && Trimmed(text) && '\n' !in text && parse(text) == Some(SPOKEN_JSON) && line == "data: " + text
    ensures CompleteLines(line) == [] && PendingChunk(parse, line) == [SPOKEN_JSON]
  {
    NoLine(line);
    assert Trimmed(line) && line[6..] == text && line[0] == 'd';
    TrimOfTrimmed(line);
    assert [] + [line] == [line] && ReadLines([line]) == [] + [DataField(text)];
    FieldsOfSnoc([], DataField(text));
    assert [] + [text] == [text];
  }

  // ---------------------------------------------------------------- relay and buffered reader

  lemma DataChunkIsLineChunk(parse: Parser, line: string)
    requires RejectsMarker(parse)
    ensures DataChunk(parse, line) == LineChunk(parse, line)
  {
    TrimOfTrimmed("[DONE]");
  }

  /** The buffered reader reads the unterminated rest as it stands. */
  lemma BufferedChunks(parse: Parser, body: string)
    ensures LineChunks(parse, Lines(body)) == LineChunks(parse, CompleteLines(body)) + LineChunk(parse, Residue(body))
    ensures |LineChunk(parse, Residue(body))| <= 1
  {
    var lines := CompleteLines(body);
    assert LineChunks(parse, lines) + [] == LineChunks(parse, lines);
    if Residue(body) == "" {
      assert lines + [] == lines;
    } else {
      assert (lines + [Residue(body)])[..|lines|] == lines;
    }
  }

  /** For every body in any chunking: relay and buffered reader collect the same chunks from the complete
      lines, and differ in the rest. The relay drops it after a marker line and trims it otherwise; the
      buffered reader takes it as it stands. They agree on the chunks exactly when these rests agree, and
      then on the token counts; on the content exactly when the rests carry the same; on the reasoning
      exactly when the buffered rest carries none. */
  lemma StreamedEqualsBuffered(parse: Parser, items: seq<StreamItem>, now: int)
    requires RejectsMarker(parse)
    ensures var body := Concat(Texts(items));
            var out, buffered := StreamOutcome(OpenAi, parse, items), BufferedAnswer(parse, body, now);
            var head := LineChunks(parse, CompleteLines(body));
            var relayed, read := FlushedChunk(parse, body), LineChunk(parse, Residue(body));
            && out.chunks == head + relayed && LineChunks(parse, Lines(body)) == head + read
            && (out.chunks == LineChunks(parse, Lines(body)) <==> relayed == read)
            && (buffered.None? <==> head + read == [])
            && (buffered.Some? ==>
                  && (buffered.value.content.GetOr("") == out.content <==>
                      Concat(Contents(OpenAi, relayed)) == Concat(Contents(OpenAi, read)))
                  && (buffered.value.reasoning.GetOr("") == out.reasoning <==> Concat(Reasonings(OpenAi, read)) == "")
                  && (relayed == read ==>
                        && buffered.value.usage.promptTokens == out.inputTokens
                        && buffered.value.usage.completionTokens == out.outputTokens))
  {
    var body := Concat(Texts(items));
    var head := LineChunks(parse, CompleteLines(body));
    var relayed, read := FlushedChunk(parse, body), LineChunk(parse, Residue(body));
    ChunksOfBody(parse, items);
    SameTail(head, relayed, read);
    var p := Collect(OpenAi, parse, items);
    if head + read != [] {
      AnswersCompare(p, Broken(items), ReceiveAll(OpenAi, parse, IDLE, items).raw, head, relayed, read, now);
    }
  }

  lemma ChunksOfBody(parse: Parser, items: seq<StreamItem>)
    requires RejectsMarker(parse)
    ensures var body := Concat(Texts(items));
            var p, head := Collect(OpenAi, parse, items), LineChunks(parse, CompleteLines(body));
            && p.chunks == head + FlushedChunk(parse, body) && |FlushedChunk(parse, body)| <= 1
            && p.content == Concat(Contents(OpenAi, p.chunks)) && p.reasoning == Concat(Reasonings(OpenAi, head))
            && LineChunks(parse, Lines(body)) == head + LineChunk(parse, Residue(body))
            && |LineChunk(parse, Residue(body))| <= 1
  {
    OpenAiCollects(parse, items);
    LiveChunks(parse, Concat(Texts(items)));
    BufferedChunks(parse, Concat(Texts(items)));
  }

  lemma LiveChunks(parse: Parser, body: string)
    requires RejectsMarker(parse)
    ensures OnLines(OpenAi, parse, START, CompleteLines(body)).chunks == LineChunks(parse, CompleteLines(body))
    ensures |FlushedChunk(parse, body)| <= 1
  {
    RelayCollectsLineChunks(parse, CompleteLines(body));
  }

  lemma SameTail(head: seq<Value>, a: seq<Value>, b: seq<Value>)
    ensures head + a == head + b <==> a == b
  {
    assert (head + a)[|head|..] == a && (head + b)[|head|..] == b;
  }

  lemma AnswersCompare(p: Progress, broken: bool, raw: seq<bv8>, head: seq<Value>, relayed: seq<Value>,
                       read: seq<Value>, now: int)
    requires |relayed| <= 1 && |read| <= 1 && p.chunks == head + relayed
    requires p.content == Concat(Contents(OpenAi, p.chunks)) && p.reasoning == Concat(Reasonings(OpenAi, head))
    ensures var out, answer := OutcomeOf(OpenAi, p, broken, raw), AnswerOf(head + read, now);
            && (answer.content.GetOr("") == out.content <==>
                Concat(Contents(OpenAi, relayed)) == Concat(Contents(OpenAi, read)))
            && (answer.reasoning.GetOr("") == out.reasoning <==> Concat(Reasonings(OpenAi, read)) == "")
            && (relayed == read ==>
                  answer.usage.promptTokens == out.inputTokens && answer.usage.completionTokens == out.outputTokens)
  {
    PartsOfTail(OpenAi, head, relayed);
    PartsOfTail(OpenAi, head, read);
    AnswerTexts(head + read, now);
    SamePrefix(Concat(Contents(OpenAi, head)), Concat(Contents(OpenAi, relayed)), Concat(Contents(OpenAi, read)));
    SamePrefix(Concat(Reasonings(OpenAi, head)), Concat(Reasonings(OpenAi, read)), "");
    assert Concat(Reasonings(OpenAi, head)) + "" == Concat(Reasonings(OpenAi, head));
  }

  lemma AnswerTexts(chunks: seq<Value>, now: int)
    ensures var answer := AnswerOf(chunks, now);
            && answer.content.GetOr("") == Concat(Contents(OpenAi, chunks))
            && answer.reasoning.GetOr("") == Concat(Reasonings(OpenAi, chunks))
            && answer.usage == Usage.UsageOf(chunks)
  {
  }

  /** The bodies that reach the buffered reader have been trimmed. On those, the rests agree exactly when
      the rest is itself trimmed and carries no chunk after a marker line, or is not and the relay, which
      trims it, finds no chunk in it either. */
  lemma TrimmedBodiesAgreeIff(parse: Parser, body: string)
    requires RejectsMarker(parse) && Trimmed(body)
    ensures var rest, ended := Residue(body), "data: [DONE]" in CompleteLines(body);
            FlushedChunk(parse, body) == LineChunk(parse, rest) <==>
            if rest == "" || !IsWhitespace(rest[0]) then !ended || LineChunk(parse, rest) == []
            else ended || LineChunk(parse, Trim(rest)) == []
  {
    var rest := Residue(body);
    DataChunkIsLineChunk(parse, Trim(rest));
    ResidueEnds(body);
    if rest == "" || !IsWhitespace(rest[0]) {
      TrimOfTrimmed(rest);
    } else {
      assert !("data: " <= rest) by {
        assert "data: "[0] == 'd';
      }
    }
  }

  lemma {:induction false} ResidueEnds(s: string)
    ensures Residue(s) != "" ==> s != "" && Residue(s)[|Residue(s)| - 1] == s[|s| - 1]
  {
  }
}
