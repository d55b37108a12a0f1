/** What the streamed conversion reports beside the content: header, finish reason and usage
    (src/proxy/upstream.rs, `convert_anthropic_stream_to_openai`). */
module AnthropicEnding {
  import opened Wrappers
  import opened Json
  import opened Text
  import SseRelay
  import opened SseBody
  import opened AnthropicConvert
  import opened AnthropicEvents
  import TokenEstimate
  import Usage

  // ---------------------------------------------------------------- finish reason

  /** The finish reason that the last `message_delta` or `message_stop` event is converted to. */
  function ClosingReason(events: seq<StreamEvent>): Option<string> {
    if events == [] then None
    else
      var last := events[|events| - 1];
      if last.name == "message_stop" then Some("stop")
      else if last.name == "message_delta" then Some(FinishReason(StopReason(last.data)))
      else ClosingReason(events[..|events| - 1])
  }

  lemma LastOf(chunks: seq<Value>, last: Value)
    ensures LastFinish(chunks + [last]) == if ChunkFinish(last).Some? then ChunkFinish(last) else LastFinish(chunks)
    ensures Usage.LastUsage(chunks + [last]) ==
            if last.Get("usage").Some? then last.Get("usage") else Usage.LastUsage(chunks)
  {
    assert (chunks + [last])[..|chunks|] == chunks;
  }

  lemma FinishOfChoice(chunk: Value, delta: Value, finish: Value)
    requires chunk.Get("choices") == Some(Arr([OneChoice(delta, finish)]))
    ensures ChunkFinish(chunk) == finish.AsStr()
  {
    assert OneChoice(delta, finish).Get("finish_reason") == Some(finish);
  }

  lemma DeltaChunkFields(h: Header, delta: map<string, Value>)
    ensures ChunkFinish(DeltaChunk(h, delta)) == None && DeltaChunk(h, delta).Get("usage") == None
  {
    var chunk := DeltaChunk(h, delta);
    assert OneChoice(Obj(delta), Null) == Obj(map["index" := Int(0), "finish_reason" := Null, "delta" := Obj(delta)]);
    assert chunk.Get("choices") == Some(Arr([OneChoice(Obj(delta), Null)]));
    FinishOfChoice(chunk, Obj(delta), Null);
  }

  /** A chunk converted from any other event reports neither a finish reason nor usage. */
  predicate Reports(e: StreamEvent) {
    e.name in ["message_delta", "message_stop"]
  }

  lemma OtherEventsReportNothing(h: Header, e: StreamEvent)
    requires !Reports(e)
    ensures var chunks := OneConverted(h, e);
            && |chunks| <= 1
            && (chunks != [] ==> ChunkFinish(chunks[0]) == None && chunks[0].Get("usage") == None)
  {
    var timed, chunks := h.(created := e.at), OneConverted(h, e);
    if chunks != [] {
      var delta := OnlyDelta(timed, e);
      DeltaChunkFields(timed, delta);
    }
  }

  lemma OnlyDelta(h: Header, e: StreamEvent) returns (delta: map<string, Value>)
    requires !Reports(e) && ConvertEvent(h, e.name, e.data) != []
    ensures ConvertEvent(h, e.name, e.data) == [DeltaChunk(h, delta)]
  {
    if e.name == "message_start" {
      delta := map["role" := Str("assistant"), "content" := Str("")];
    } else if e.name == "content_block_start" {
      delta := OpeningDelta(h, e.data);
    } else {
      delta := GrowthDelta(h, e.data);
    }
  }

  lemma OpeningDelta(h: Header, data: Value) returns (delta: map<string, Value>)
    requires BlockStart(h, data) != []
    ensures BlockStart(h, data) == [DeltaChunk(h, delta)]
  {
    var block := data.Get("content_block").GetOr(Null);
    if Kind(block) == "thinking" {
      delta := map["reasoning_content" := Str(block.GetStr("thinking").GetOr(""))];
    } else if Kind(block) == "tool_use" {
      delta := map["tool_calls" := Arr([
        ToolStart(EventIndex(data), block.GetStr("id").GetOr(""), block.GetStr("name").GetOr(""))])];
    } else {
      delta := map["content" := Str(block.GetStr("text").GetOr(""))];
    }
  }

  lemma GrowthDelta(h: Header, data: Value) returns (delta: map<string, Value>)
    requires BlockDelta(h, data) != []
    ensures BlockDelta(h, data) == [DeltaChunk(h, delta)]
  {
    var d := data.Get("delta").GetOr(Null);
    if Kind(d) == "thinking_delta" {
      delta := map["reasoning_content" := Str(d.GetStr("thinking").GetOr(""))];
    } else if Kind(d) == "input_json_delta" {
      delta := map["tool_calls" := Arr([ToolDelta(EventIndex(data), d.GetStr("partial_json").GetOr(""))])];
    } else {
      delta := map["content" := Str(d.GetStr("text").GetOr(""))];
    }
  }

  /** What the last `message_delta` event carries. */
  function LastReport(events: seq<StreamEvent>): Option<Value> {
    if events == [] then None
    else
      var last := events[|events| - 1];
      if last.name == "message_delta" then Some(last.data) else LastReport(events[..|events| - 1])
  }

  ghost predicate Reported(chunks: seq<Value>, events: seq<StreamEvent>) {
    && LastFinish(chunks) == ClosingReason(events)
    && Usage.LastUsage(chunks) ==
       (if LastReport(events).None? then None else Some(ReportedUsage(LastReport(events).value)))
  }

  lemma ReportsOfSnoc(events: seq<StreamEvent>, e: StreamEvent)
    ensures ClosingReason(events + [e]) ==
            if e.name == "message_stop" then Some("stop")
            else if e.name == "message_delta" then Some(FinishReason(StopReason(e.data))) else ClosingReason(events)
    ensures LastReport(events + [e]) == if e.name == "message_delta" then Some(e.data) else LastReport(events)
  {
    assert (events + [e])[..|events|] == events;
  }

  lemma DeltaReports(h: Header, data: Value, before: seq<Value>)
    ensures LastFinish(before + [MessageDelta(h, data)]) == Some(FinishReason(StopReason(data)))
    ensures Usage.LastUsage(before + [MessageDelta(h, data)]) == Some(ReportedUsage(data))
  {
    LastOf(before, MessageDelta(h, data));
    MessageDeltaChoices(h, data);
    FinishOfChoice(MessageDelta(h, data), Obj(map[]), Str(FinishReason(StopReason(data))));
  }

  lemma StopReports(h: Header, before: seq<Value>)
    ensures LastFinish(before + [StopChunk(h)]) == Some("stop")
    ensures Usage.LastUsage(before + [StopChunk(h)]) == Usage.LastUsage(before)
  {
    LastOf(before, StopChunk(h));
    StopChunkChoices(h);
    FinishOfChoice(StopChunk(h), Obj(map[]), Str("stop"));
  }

  lemma OthersReport(h: Header, e: StreamEvent, before: seq<Value>)
    requires !Reports(e)
    ensures LastFinish(before + OneConverted(h, e)) == LastFinish(before)
    ensures Usage.LastUsage(before + OneConverted(h, e)) == Usage.LastUsage(before)
  {
    var chunks := OneConverted(h, e);
    OtherEventsReportNothing(h, e);
    if chunks == [] {
      assert before + [] == before;
    } else {
      assert chunks == [chunks[0]];
      LastOf(before, chunks[0]);
    }
  }

  lemma OneMoreReport(h: Header, events: seq<StreamEvent>, e: StreamEvent)
    requires Reported(ConvertAll(h, events), events)
    ensures Reported(ConvertAll(h, events + [e]), events + [e])
  {
    var timed, before := h.(created := e.at), ConvertAll(h, events);
    ConvertAllSnoc(h, events, e);
    ReportsOfSnoc(events, e);
    if e.name == "message_delta" {
      DeltaReports(timed, e.data, before);
    } else if e.name == "message_stop" {
      StopReports(timed, before);
    } else {
      OthersReport(h, e, before);
    }
  }

  /** Finish reason and usage of a converted stream are those of the last events that report any. */
  lemma {:induction false} LastReportsDecide(h: Header, events: seq<StreamEvent>)
    ensures Reported(ConvertAll(h, events), events)
  {
    if events == [] {
      assert Converted(h, events) == [];
    } else {
      var init, last := events[..|events| - 1], events[|events| - 1];
      SplitLast(events);
      LastReportsDecide(h, init);
      OneMoreReport(h, init, last);
    }
  }

  /** `message_stop` comes, and no `message_delta` after it. */
  ghost predicate StopsLast(events: seq<StreamEvent>) {
    exists i :: 0 <= i < |events| && events[i].name == "message_stop"
                && forall j :: i < j < |events| ==> events[j].name != "message_delta"
  }

  lemma {:induction false} StopDecides(events: seq<StreamEvent>)
    requires StopsLast(events)
    ensures ClosingReason(events) == Some("stop")
  {
    var i :| 0 <= i < |events| && events[i].name == "message_stop"
             && forall j :: i < j < |events| ==> events[j].name != "message_delta";
    if i < |events| - 1 {
      var init := events[..|events| - 1];
      assert init[i] == events[i] && forall j :: i < j < |init| ==> init[j] == events[j];
      StopDecides(init);
    }
  }

  lemma MeansStop(stopReason: string)
    ensures FinishReason(stopReason) == "stop" <==> stopReason == "end_turn" || stopReason == "stop"
  {
  }

  /** The finish reason does not survive a stream that ends as it should: `message_stop` overwrites it with
      "stop", so both conversions agree on it exactly when the stop reason already means "stop". */
  lemma FinishReasonIsOverwritten(
      h: Header, events: seq<StreamEvent>, now: int, response: Value, model: string, id: string, toText: Printer)
    requires StopsLast(events)
    ensures var streamed := AnswerOf(ConvertAll(h, events), now).finishReason;
            var whole := ResponseOf(response, model, id, now, toText).finishReason;
            var reason := response.GetStr("stop_reason").GetOr("stop");
            && streamed == Some("stop")
            && (streamed == whole <==> reason == "end_turn" || reason == "stop")
  {
    LastReportsDecide(h, events);
    StopDecides(events);
    MeansStop(response.GetStr("stop_reason").GetOr("stop"));
  }

  // ---------------------------------------------------------------- usage

  /** The output tokens the stream reports last; zero if none are reported there. */
  function ReportedOutput(events: seq<StreamEvent>): int {
    AsI32(SseRelay.OutputTokens(LastReport(events).GetOr(Null)).GetOr(0))
  }

  /** The estimate that stands in for a stream that reports no output. */
  ghost function EstimatedOutput(text: string): int {
    AsI32(Usage.Max(TokenEstimate.Estimate(text), 1))
  }

  /** The prompt tokens do not survive either. Any stream that reports output tokens, or carries no text, is
      counted with no prompt tokens; one that reports none but carries text is estimated, with ten prompt
      tokens. So both conversions agree on the usage exactly when there are no input tokens and the output
      is reported or there is no text (or the estimate of a text of over 2^32 tokens wraps to zero). */
  lemma PromptTokensAreLost(
      h: Header, events: seq<StreamEvent>, now: int, response: Value, model: string, id: string, toText: Printer)
    requires TokenCount(response, "output_tokens") == ReportedOutput(events)
    ensures var streamed := AnswerOf(ConvertAll(h, events), now).usage;
            var whole := ResponseOf(response, model, id, now, toText).usage;
            var output, input := ReportedOutput(events), TokenCount(response, "input_tokens");
            var text, estimated := StreamGist(events).text, EstimatedOutput(StreamGist(events).text);
            && streamed == (if output != 0 || text == "" then Usage.Usage(0, output, output)
                            else Usage.Usage(10, estimated, AsI32(10 + estimated)))
            && (streamed == whole <==>
                if output != 0 || text == "" then input == 0 else input == 10 && estimated == 0)
            && (TokenEstimate.Estimate(text) < 0x1_0000_0000 ==>
                  (streamed == whole <==> input == 0 && (output != 0 || text == "")))
  {
    LastReportsDecide(h, events);
    ReportedUsageReads(events, Usage.LastUsage(ConvertAll(h, events)));
    StreamReads(h, events);
    GistIsTheFold(ConvertAll(h, events));
    UsageWithoutPrompt(ConvertAll(h, events), ReportedOutput(events));
    SmallEstimate(StreamGist(events).text);
  }

  lemma SmallEstimate(text: string)
    ensures TokenEstimate.Estimate(text) < 0x1_0000_0000 ==> EstimatedOutput(text) != 0
  {
  }

  lemma ReportedUsageReads(events: seq<StreamEvent>, usage: Option<Value>)
    requires usage == (if LastReport(events).None? then None else Some(ReportedUsage(LastReport(events).value)))
    ensures Usage.ReportedPrompt(usage) == 0 && Usage.ReportedCompletion(usage) == ReportedOutput(events)
  {
  }

  lemma UsageWithoutPrompt(chunks: seq<Value>, completion: int)
    requires Usage.ReportedPrompt(Usage.LastUsage(chunks)) == 0
    requires Usage.ReportedCompletion(Usage.LastUsage(chunks)) == completion && AsI32(completion) == completion
    ensures var text := Usage.StreamText(chunks);
            Usage.UsageOf(chunks) ==
            if completion != 0 || text == "" then Usage.Usage(0, completion, completion)
            else Usage.Usage(10, EstimatedOutput(text), AsI32(10 + EstimatedOutput(text)))
  {
  }

  // ---------------------------------------------------------------- header

  /** The time of the last event that is converted to a chunk. */
  function LastTime(h: Header, events: seq<StreamEvent>): Option<int> {
    if events == [] then None
    else
      var last := events[|events| - 1];
      if OneConverted(h, last) != [] then Some(last.at) else LastTime(h, events[..|events| - 1])
  }

  ghost predicate HasHeader(chunk: Value, h: Header) {
    && chunk.GetStr("id") == Some(h.id) && chunk.GetStr("object") == Some("chat.completion.chunk")
    && chunk.GetStr("model") == Some(h.model) && chunk.Get("created") == Some(Int(h.created))
  }

  lemma ChoiceChunkHasHeader(h: Header, delta: Value, finish: Value)
    ensures HasHeader(Obj(ChoiceChunk(h, delta, finish)), h)
  {
  }

  lemma MessageDeltaHasHeader(h: Header, data: Value)
    ensures HasHeader(MessageDelta(h, data), h)
  {
  }

  lemma EveryChunkHasHeader(h: Header, e: StreamEvent)
    requires OneConverted(h, e) != []
    ensures |OneConverted(h, e)| == 1 && HasHeader(OneConverted(h, e)[0], h.(created := e.at))
  {
    var timed := h.(created := e.at);
    if e.name == "message_delta" {
      MessageDeltaHasHeader(timed, e.data);
    } else if e.name == "message_stop" {
      ChoiceChunkHasHeader(timed, Obj(map[]), Str("stop"));
    } else {
      var delta := OnlyDelta(timed, e);
      ChoiceChunkHasHeader(timed, Obj(delta), Null);
    }
  }

  ghost predicate Headed(chunks: seq<Value>, h: Header, time: Option<int>) {
    if time.None? then chunks == [] else chunks != [] && HasHeader(chunks[|chunks| - 1], h.(created := time.value))
  }

  lemma {:induction false} LastChunkIsHeaded(h: Header, events: seq<StreamEvent>)
    ensures Headed(ConvertAll(h, events), h, LastTime(h, events))
  {
    if events == [] {
      assert Converted(h, events) == [];
    } else {
      var init, last := events[..|events| - 1], events[|events| - 1];
      SplitLast(events);
      LastChunkIsHeaded(h, init);
      ConvertAllSnoc(h, init, last);
      if OneConverted(h, last) != [] {
        EveryChunkHasHeader(h, last);
      }
    }
  }

  /** The header survives, except that the reassembled answer calls itself a chunk; it was created when the
      last event with a chunk was converted. */
  lemma HeaderSurvives(h: Header, events: seq<StreamEvent>, now: int)
    requires LastTime(h, events).Some?
    requires forall i :: 0 <= i < |events| ==> Int(events[i].at).AsI64().Some?
    ensures var answer := AnswerOf(ConvertAll(h, events), now);
            && answer.id == h.id && answer.model == (if h.model == "" then "unknown" else h.model)
            && answer.object_ == "chat.completion.chunk"
            && Some(answer.created) == LastTime(h, events)
  {
    LastChunkIsHeaded(h, events);
    LastTimeIsATime(h, events);
  }

  lemma {:induction false} LastTimeIsATime(h: Header, events: seq<StreamEvent>)
    requires LastTime(h, events).Some?
    ensures exists i :: 0 <= i < |events| && LastTime(h, events) == Some(events[i].at)
  {
    var last := events[|events| - 1];
    if OneConverted(h, last) == [] {
      var init := events[..|events| - 1];
      LastTimeIsATime(h, init);
      var i :| 0 <= i < |init| && LastTime(h, init) == Some(init[i].at);
      assert events[i] == init[i];
    } else {
      assert LastTime(h, events) == Some(events[|events| - 1].at);
    }
  }
}
