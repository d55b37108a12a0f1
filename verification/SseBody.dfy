/** The buffered reading of an event-stream body (src/proxy/handlers.rs, `parse_openai_sse_body`). */
module SseBody {
  import opened Wrappers
  import opened Json
  import opened Text
  import opened ToolCalls
  import opened SseRelay
  import opened SseTheorems
  import Usage

  datatype Answer = Answer(
    id: string, object_: string, created: int, model: string,
    content: Option<string>, reasoning: Option<string>, toolCalls: Option<seq<ToolCall>>,
    finishReason: Option<string>, usage: Usage.Usage)

  // ---------------------------------------------------------------- collecting the chunks

  function LineChunk(parse: Parser, line: string): seq<Value> {
    if !("data: " <= line) || Trim(line[6..]) == "[DONE]" then []
    else
      var json := parse(line[6..]);
      if json.None? then [] else [json.value]
  }

  function LineChunks(parse: Parser, lines: seq<string>): seq<Value> {
    if lines == [] then [] else LineChunks(parse, lines[..|lines| - 1]) + LineChunk(parse, lines[|lines| - 1])
  }

  // ---------------------------------------------------------------- folding them into one answer

  function FirstChoice(chunk: Value): Option<Value> {
    var choices :- chunk.GetArray("choices");
    if choices == [] then None else Some(choices[0])
  }

  /** The fragments in the `tool_calls` array of the first choice's delta. */
  function ToolDeltas(chunk: Value): seq<Value> {
    match FirstChoice(chunk)
    case None => []
    case Some(choice) =>
      var delta := choice.Get("delta");
      if delta.None? then [] else delta.value.GetArray("tool_calls").GetOr([])
  }

  function FragmentsOf(tcs: seq<Value>): seq<Fragment> {
    seq(|tcs|, i requires 0 <= i < |tcs| => FragmentOf(tcs[i]))
  }

  function AllFragments(chunks: seq<Value>): seq<Fragment> {
    if chunks == [] then []
    else AllFragments(chunks[..|chunks| - 1]) + FragmentsOf(ToolDeltas(chunks[|chunks| - 1]))
  }

  function LastStr(chunks: seq<Value>, key: string, default: string): string {
    if chunks == [] then default
    else chunks[|chunks| - 1].GetStr(key).GetOr(LastStr(chunks[..|chunks| - 1], key, default))
  }

  function LastInt(chunks: seq<Value>, key: string, default: int): int {
    if chunks == [] then default
    else chunks[|chunks| - 1].GetI64(key).GetOr(LastInt(chunks[..|chunks| - 1], key, default))
  }

  function ChunkFinish(chunk: Value): Option<string> {
    var choice :- FirstChoice(chunk);
    choice.GetStr("finish_reason")
  }

  function LastFinish(chunks: seq<Value>): Option<string> {
    if chunks == [] then None
    else
      var last := ChunkFinish(chunks[|chunks| - 1]);
      if last.Some? then last else LastFinish(chunks[..|chunks| - 1])
  }

  function NonEmpty(s: string): Option<string> {
    if s == "" then None else Some(s)
  }

  function ContentField(content: string, calls: seq<ToolCall>): Option<string> {
    if content == "" && calls != [] then None else Some(content)
  }

  /** The accumulators of the fold over the chunks. */
  datatype Fold = Fold(
    id: string, object_: string, created: int, model: string,
    content: string, reasoning: string, table: map<nat, ToolCall>, finishReason: Option<string>)

  /** What the accumulators mean: last headers, concatenated texts, reassembled tool calls. */
  ghost function FoldOf(chunks: seq<Value>, now: int): Fold {
    Fold(LastStr(chunks, "id", "chatcmpl-stream"), LastStr(chunks, "object", "chat.completion"),
         LastInt(chunks, "created", now), LastStr(chunks, "model", ""),
         Concat(Contents(OpenAi, chunks)), Concat(Reasonings(OpenAi, chunks)),
         Table(AllFragments(chunks)), LastFinish(chunks))
  }

  function Finalize(f: Fold, usage: Usage.Usage): Answer {
    var calls := CallsOf(f.table);
    Answer(f.id, f.object_, f.created, if f.model == "" then "unknown" else f.model,
           ContentField(f.content, calls), NonEmpty(f.reasoning),
           if calls == [] then None else Some(calls), f.finishReason, usage)
  }

  ghost function AnswerOf(chunks: seq<Value>, now: int): Answer {
    Finalize(FoldOf(chunks, now), Usage.UsageOf(chunks))
  }

  ghost function BufferedAnswer(parse: Parser, body: string, now: int): Option<Answer> {
    var chunks := LineChunks(parse, Lines(body));
    if chunks == [] then None else Some(AnswerOf(chunks, now))
  }

  method CollectChunks(parse: Parser, body: string) returns (chunks: seq<Value>)
    ensures chunks == LineChunks(parse, Lines(body))
  {
    chunks := [];
    var lines := Lines(body);
    for i := 0 to |lines|
      invariant chunks == LineChunks(parse, lines[..i])
    {
      assert lines[..i + 1][..i] == lines[..i];
      if "data: " <= lines[i] {
        var data := lines[i][6..];
        if Trim(data) == "[DONE]" {
          continue;
        }
        var json := parse(data);
        if json.Some? {
          chunks := chunks + [json.value];
        }
      }
    }
    assert lines[..|lines|] == lines;
  }

  /** Create the missing table entry, then update it field by field. */
  method AcceptToolDelta(table: map<nat, ToolCall>, tc: Value) returns (updated: map<nat, ToolCall>)
    ensures updated == Accept(table, FragmentOf(tc))
  {
    var idx := IndexOf(tc).GetOr(0);
    var entry := if idx in table then table[idx] else NO_CALL;
    var id := tc.GetStr("id");
    if id.Some? {
      entry := entry.(id := id.value);
    }
    var name := FunctionStr(tc, "name");
    if name.Some? {
      entry := entry.(name := name.value);
    }
    var arguments := FunctionStr(tc, "arguments");
    if arguments.Some? {
      entry := entry.(arguments := entry.arguments + arguments.value);
    }
    assert entry == Merge(if idx in table then table[idx] else NO_CALL, FragmentOf(tc));
    updated := table[idx := entry];
  }

  lemma FragmentsOfSnoc(before: seq<Fragment>, tcs: seq<Value>, tc: Value)
    ensures Table(before + FragmentsOf(tcs + [tc])) == Accept(Table(before + FragmentsOf(tcs)), FragmentOf(tc))
  {
    var seen := before + FragmentsOf(tcs);
    assert FragmentsOf(tcs + [tc]) == FragmentsOf(tcs) + [FragmentOf(tc)];
    assert before + FragmentsOf(tcs + [tc]) == seen + [FragmentOf(tc)];
    assert (seen + [FragmentOf(tc)])[..|seen|] == seen;
  }

  /** The loop over one `tool_calls` array. */
  method AcceptToolDeltas(table: map<nat, ToolCall>, tcs: seq<Value>, ghost before: seq<Fragment>)
    returns (updated: map<nat, ToolCall>)
    requires table == Table(before)
    ensures updated == Table(before + FragmentsOf(tcs))
  {
    updated := table;
    assert before + FragmentsOf(tcs[..0]) == before;
    for j := 0 to |tcs|
      invariant updated == Table(before + FragmentsOf(tcs[..j]))
    {
      assert tcs[..j + 1] == tcs[..j] + [tcs[j]];
      FragmentsOfSnoc(before, tcs[..j], tcs[j]);
      updated := AcceptToolDelta(updated, tcs[j]);
    }
    assert tcs[..|tcs|] == tcs;
  }

  /** The body of the loop over the chunks. */
  method FoldChunk(f: Fold, chunk: Value, ghost before: seq<Value>, ghost now: int) returns (g: Fold)
    requires f == FoldOf(before, now)
    ensures g == FoldOf(before + [chunk], now)
  {
    assert (before + [chunk])[..|before|] == before;
    PartsOfSnoc(OpenAi, before, chunk);
    g := f.(id := chunk.GetStr("id").GetOr(f.id),
            object_ := chunk.GetStr("object").GetOr(f.object_),
            created := chunk.GetI64("created").GetOr(f.created),
            model := chunk.GetStr("model").GetOr(f.model));
    var table := AcceptToolDeltas(f.table, ToolDeltas(chunk), AllFragments(before));
    g := g.(content := g.content + FirstDelta(chunk, "content").GetOr(""),
            reasoning := g.reasoning + FirstDelta(chunk, "reasoning_content").GetOr(""),
            table := table);
    if ChunkFinish(chunk).Some? {
      g := g.(finishReason := ChunkFinish(chunk));
    }
  }

  method FoldChunks(chunks: seq<Value>, now: int) returns (f: Fold)
    ensures f == FoldOf(chunks, now)
  {
    f := Fold("chatcmpl-stream", "chat.completion", now, "", "", "", map[], None);
    for i := 0 to |chunks|
      invariant f == FoldOf(chunks[..i], now)
    {
      assert chunks[..i + 1] == chunks[..i] + [chunks[i]];
      f := FoldChunk(f, chunks[i], chunks[..i], now);
    }
    assert chunks[..|chunks|] == chunks;
  }

  method ParseOpenAiSseBody(parse: Parser, body: string, now: int) returns (answer: Option<Answer>)
    ensures answer == BufferedAnswer(parse, body, now)
  {
    var chunks := CollectChunks(parse, body);
    if chunks == [] {
      return None;
    }
    var usage := Usage.FromStreamChunks(chunks);
    var f := FoldChunks(chunks, now);
    answer := Some(Finalize(f, usage));
  }

  // ---------------------------------------------------------------- streamed equals buffered

  /** The end marker is not JSON, however it is padded. */
  ghost predicate RejectsMarker(parse: Parser) {
    forall s: string :: Trim(s) == "[DONE]" ==> parse(s).None?
  }

  lemma OpenAiLineCollects(parse: Parser, p: Progress, line: string)
    requires RejectsMarker(parse)
    ensures OnLine(OpenAi, parse, p, line).chunks == p.chunks + LineChunk(parse, line)
  {
    TrimOfTrimmed("[DONE]");
    assert p.chunks + [] == p.chunks;
  }

  lemma {:induction false} RelayCollectsLineChunks(parse: Parser, lines: seq<string>)
    requires RejectsMarker(parse)
    ensures OnLines(OpenAi, parse, START, lines).chunks == LineChunks(parse, lines)
  {
    if lines == [] {
    } else {
      var init, last := lines[..|lines| - 1], lines[|lines| - 1];
      RelayCollectsLineChunks(parse, init);
      SplitLast(lines);
      OnLinesConcat(OpenAi, parse, START, init, [last]);
      var p := OnLines(OpenAi, parse, START, init);
      assert OnLines(OpenAi, parse, p, [last]) == OnLine(OpenAi, parse, p, last);
      OpenAiLineCollects(parse, p, last);
    }
  }

  // ---------------------------------------------------------------- when an OpenAI stream has ended

  lemma {:induction false} EndedIffMarkerLine(parse: Parser, p: Progress, lines: seq<string>)
    ensures OnLines(OpenAi, parse, p, lines).ended <==> p.ended || "data: [DONE]" in lines
    decreases |lines|
  {
    if lines == [] {
    } else {
      EndedIffMarkerLine(parse, OnLine(OpenAi, parse, p, lines[0]), lines[1..]);
      if "data: " <= lines[0] {
        MarkerData(lines[0]);
      }
    }
  }

  lemma MarkerData(line: string)
    requires "data: " <= line
    ensures line[6..] == "[DONE]" <==> line == "data: [DONE]"
  {
    assert line == "data: " + line[6..];
    assert "data: [DONE]" == "data: " + "[DONE]";
  }

  lemma FlushEndsIffMarker(parse: Parser, p: Progress, buffer: string)
    requires '\n' !in buffer
    ensures Flush(OpenAi, parse, p, buffer).ended <==> p.ended || Trim(buffer) == "data: [DONE]"
  {
    var rest := Trim(buffer);
    if rest != "" && !p.ended {
      var pre, post := TrimSplits(buffer);
      NoLine(rest);
      TrimOfTrimmed(rest);
      assert Lines(rest) == [rest];
      assert FlushLines(OpenAi, parse, p, [rest]) == FlushLine(OpenAi, parse, p, rest);
      if "data: " <= rest {
        MarkerData(rest);
      }
    }
  }

  /** An OpenAI stream has ended normally iff some complete line, or the trimmed unterminated rest,
      reads `data: [DONE]`. */
  lemma OpenAiEndedIff(parse: Parser, items: seq<StreamItem>)
    ensures var all := Concat(Texts(items));
            Collect(OpenAi, parse, items).ended <==>
            "data: [DONE]" in CompleteLines(all) || Trim(Residue(all)) == "data: [DONE]"
  {
    var all := Concat(Texts(items));
    CollectedFromWholeText(OpenAi, parse, items);
    EndedIffMarkerLine(parse, START, CompleteLines(all));
    FlushEndsIffMarker(parse, OnLines(OpenAi, parse, START, CompleteLines(all)), Residue(all));
  }
}
