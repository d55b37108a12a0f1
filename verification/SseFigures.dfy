/** The figures a finished stream is logged with (src/proxy/handlers.rs, `handle_stream_response`;
    src/proxy/upstream.rs, `Usage::from_stream_chunks`). */
module SseFigures {
  import opened Wrappers
  import opened Json
  import opened Text
  import opened SseRelay
  import opened SseTheorems
  import opened SseEvents
  import opened Readings
  import TokenEstimate
  import Usage

  function InputCount(json: Value): Option<int> {
    NumberAt(json, INPUT_TOKENS)
  }

  function OutputCount(json: Value): Option<int> {
    NumberAt(json, OUTPUT_TOKENS)
  }

  lemma {:induction false} SameReading(sent: seq<Event>, chunks: seq<Value>, name: string,
                                       a: Value -> Option<int>, b: Value -> Option<int>)
    requires |sent| == |chunks| && forall json :: a(json) == b(json)
    ensures LastCount(sent, chunks, name, a) == LastCount(sent, chunks, name, b)
  {
    if sent == [] {
    } else {
      SameReading(sent[..|sent| - 1], chunks[..|sent| - 1], name, a, b);
    }
  }

  /** The counters of the relay in terms of the JSON that was relayed before the flush. */
  lemma CountersAreRead(parse: Parser, items: seq<StreamItem>)
    ensures var live, p := ReceiveAll(Anthropic, parse, IDLE, items).progress, Collect(Anthropic, parse, items);
            && |live.sent| == |live.chunks|
            && p.inputTokens == LastCount(live.sent, live.chunks, "message_start", InputCount)
            && p.outputTokens == LastCount(live.sent, live.chunks, "message_delta", OutputCount)
  {
    var live := ReceiveAll(Anthropic, parse, IDLE, items).progress;
    CountsAreReported(parse, items);
    forall json: Value ensures InputTokens(json) == InputCount(json) && OutputTokens(json) == OutputCount(json) {
      CountsAreRead(json);
    }
    SameReading(live.sent, live.chunks, "message_start", InputTokens, InputCount);
    SameReading(live.sent, live.chunks, "message_delta", OutputTokens, OutputCount);
  }

  lemma FiguresOfCounters(p: Progress, broken: bool, raw: seq<bv8>)
    ensures var out, usage := OutcomeOf(Anthropic, p, broken, raw), Usage.UsageOf(p.chunks);
            && out.chunks == p.chunks && out.totalTokens == out.inputTokens + out.outputTokens
            && (p.inputTokens > 0 || p.outputTokens > 0 ==>
                  out.inputTokens == AsI32(p.inputTokens) && out.outputTokens == AsI32(p.outputTokens))
            && (p.inputTokens <= 0 && p.outputTokens <= 0 ==>
                  out.inputTokens == usage.promptTokens && out.outputTokens == usage.completionTokens)
  {
  }

  /** An Anthropic stream is logged with the last input count of its `message_start` events as input and the
      last output count of its `message_delta` events as output, in 32 bits, as soon as one of them is
      positive, and with the figures of its chunks otherwise; the total is the sum. */
  lemma AnthropicFigures(parse: Parser, items: seq<StreamItem>)
    ensures var out := StreamOutcome(Anthropic, parse, items);
            var live, usage := ReceiveAll(Anthropic, parse, IDLE, items).progress, Usage.UsageOf(out.chunks);
            && |live.sent| == |live.chunks|
            && var input := LastCount(live.sent, live.chunks, "message_start", InputCount);
               var output := LastCount(live.sent, live.chunks, "message_delta", OutputCount);
               && (input > 0 || output > 0 ==> out.inputTokens == AsI32(input) && out.outputTokens == AsI32(output))
               && (input <= 0 && output <= 0 ==>
                     out.inputTokens == usage.promptTokens && out.outputTokens == usage.completionTokens)
               && out.totalTokens == out.inputTokens + out.outputTokens
  {
    CountersAreRead(parse, items);
    FiguresOfCounters(
        Collect(Anthropic, parse, items), Broken(items), ReceiveAll(Anthropic, parse, IDLE, items).raw);
  }

  /** An OpenAI stream is logged with the figures of its chunks. */
  lemma OpenAiFigures(parse: Parser, items: seq<StreamItem>)
    ensures var out := StreamOutcome(OpenAi, parse, items);
            && out.inputTokens == Usage.UsageOf(out.chunks).promptTokens
            && out.outputTokens == Usage.UsageOf(out.chunks).completionTokens
            && out.totalTokens == out.inputTokens + out.outputTokens
  {
  }

  /** The last chunk with a `usage` member. */
  ghost predicate ReportsLast(chunks: seq<Value>, i: nat) {
    && i < |chunks| && Along(chunks[i], Key("usage", Here)).Some?
    && forall j :: i < j < |chunks| ==> Along(chunks[j], Key("usage", Here)).None?
  }

  lemma {:induction false} LastUsageIsIt(chunks: seq<Value>, i: nat)
    requires ReportsLast(chunks, i)
    ensures Usage.LastUsage(chunks) == chunks[i].Get("usage")
  {
    assert forall j :: 0 <= j < |chunks| ==> chunks[j].Get("usage") == Along(chunks[j], Key("usage", Here));
    var n := |chunks| - 1;
    if i < n {
      assert chunks[..n][i] == chunks[i];
      LastUsageIsIt(chunks[..n], i);
    }
  }

  lemma {:induction false} NoUsageIsLast(chunks: seq<Value>)
    requires forall j :: 0 <= j < |chunks| ==> Along(chunks[j], Key("usage", Here)).None?
    ensures Usage.LastUsage(chunks) == None
  {
    if chunks == [] {
    } else {
      NoUsageIsLast(chunks[..|chunks| - 1]);
      assert chunks[|chunks| - 1].Get("usage") == Along(chunks[|chunks| - 1], Key("usage", Here));
    }
  }

  /** All counted texts of the chunks: the contents and the reasoning of every choice, in order. */
  function Words(chunks: seq<Value>): string {
    if chunks == [] then "" else Words(chunks[..|chunks| - 1]) + ChoiceWords(chunks[|chunks| - 1], 0)
  }

  function ChoiceWords(chunk: Value, i: nat): string
    decreases ChoiceCount(chunk) - i
  {
    if i >= ChoiceCount(chunk) then ""
    else
      TextAt(chunk, Key("choices", Element(i, Key("delta", Key("content", Here))))).GetOr("")
      + TextAt(chunk, Key("choices", Element(i, Key("delta", Key("reasoning_content", Here))))).GetOr("")
      + ChoiceWords(chunk, i + 1)
  }

  function ChoiceCount(chunk: Value): nat {
    match Along(chunk, Key("choices", Here))
    case Some(Arr(items)) => |items|
    case _ => 0
  }

  lemma ChoicesAreRead(chunk: Value)
    ensures |chunk.GetArray("choices").GetOr([])| == ChoiceCount(chunk)
  {
    LastKey(chunk, "choices");
  }

  lemma OneChoiceIsRead(chunk: Value, choices: seq<Value>, i: nat)
    requires choices == chunk.GetArray("choices").GetOr([]) && i < |choices|
    ensures Usage.DeltaText(choices[i]) ==
            TextAt(chunk, Key("choices", Element(i, Key("delta", Key("content", Here))))).GetOr("")
            + TextAt(chunk, Key("choices", Element(i, Key("delta", Key("reasoning_content", Here))))).GetOr("")
  {
    ChoiceStep(chunk, i, Key("delta", Key("content", Here)));
    ChoiceStep(chunk, i, Key("delta", Key("reasoning_content", Here)));
    TwoKeys(choices[i], "delta", "content");
    TwoKeys(choices[i], "delta", "reasoning_content");
    assert "" + "" == "";
  }

  lemma {:induction false} ChoiceWordsAreRead(chunk: Value, choices: seq<Value>, i: nat)
    requires choices == chunk.GetArray("choices").GetOr([]) && i <= |choices|
    ensures Usage.ChoicesText(choices) == Usage.ChoicesText(choices[..i]) + ChoiceWords(chunk, i)
    decreases |choices| - i
  {
    ChoicesAreRead(chunk);
    if i == |choices| {
      assert choices[..i] == choices;
    } else {
      OneChoiceIsRead(chunk, choices, i);
      ChoiceWordsAreRead(chunk, choices, i + 1);
      OneMoreChoice(choices, i);
      Assoc(Usage.ChoicesText(choices[..i]), Usage.DeltaText(choices[i]), ChoiceWords(chunk, i + 1));
    }
  }

  lemma OneMoreChoice(choices: seq<Value>, i: nat)
    requires i < |choices|
    ensures Usage.ChoicesText(choices[..i + 1]) == Usage.ChoicesText(choices[..i]) + Usage.DeltaText(choices[i])
  {
    assert choices[..i + 1][..i] == choices[..i];
  }

  lemma {:induction false} WordsAreRead(chunks: seq<Value>)
    ensures Usage.StreamText(chunks) == Words(chunks)
  {
    if chunks == [] {
    } else {
      var last := chunks[|chunks| - 1];
      WordsAreRead(chunks[..|chunks| - 1]);
      var choices := last.GetArray("choices").GetOr([]);
      ChoiceWordsAreRead(last, choices, 0);
      assert choices[..0] == [] && "" + ChoiceWords(last, 0) == ChoiceWords(last, 0);
    }
  }

  /** The figures of chunks: what the last `usage` member reports as `prompt_tokens` and `completion_tokens`,
      in 32 bits, or, when both are zero or absent and there is any text, ten and the estimate of the text. */
  lemma ChunkFigures(chunks: seq<Value>, i: nat)
    requires ReportsLast(chunks, i)
    ensures var u, text := Usage.UsageOf(chunks), Words(chunks);
            var prompt := AsI32(NumberAt(chunks[i], PROMPT_TOKENS).GetOr(0));
            var completion := AsI32(NumberAt(chunks[i], COMPLETION_TOKENS).GetOr(0));
            && (prompt != 0 || completion != 0 || text == "" ==>
                  u == Usage.Usage(prompt, completion, AsI32(prompt + completion)))
            && (prompt == 0 && completion == 0 && text != "" ==>
                  u.promptTokens == 10 && u.completionTokens == AsI32(Usage.Max(TokenEstimate.Estimate(text), 1)))
  {
    LastUsageIsIt(chunks, i);
    UsageIsRead(chunks[i]);
    WordsAreRead(chunks);
    FiguresOf(chunks, Words(chunks), AsI32(NumberAt(chunks[i], PROMPT_TOKENS).GetOr(0)),
              AsI32(NumberAt(chunks[i], COMPLETION_TOKENS).GetOr(0)));
  }

  lemma FiguresOf(chunks: seq<Value>, text: string, prompt: int, completion: int)
    requires Usage.StreamText(chunks) == text
    requires Usage.ReportedPrompt(Usage.LastUsage(chunks)) == prompt
    requires Usage.ReportedCompletion(Usage.LastUsage(chunks)) == completion
    ensures prompt != 0 || completion != 0 || text == "" ==>
              Usage.UsageOf(chunks) == Usage.Usage(prompt, completion, AsI32(prompt + completion))
    ensures prompt == 0 && completion == 0 && text != "" ==>
              && Usage.UsageOf(chunks).promptTokens == 10
              && Usage.UsageOf(chunks).completionTokens == AsI32(Usage.Max(TokenEstimate.Estimate(text), 1))
  {
  }

  /** Without any `usage` member the figures are zero, or ten and the estimate. */
  lemma SilentChunkFigures(chunks: seq<Value>)
    requires forall j :: 0 <= j < |chunks| ==> Along(chunks[j], Key("usage", Here)).None?
    ensures var u, text := Usage.UsageOf(chunks), Words(chunks);
            && (text == "" ==> u == Usage.Usage(0, 0, 0))
            && (text != "" ==>
                  u.promptTokens == 10 && u.completionTokens == AsI32(Usage.Max(TokenEstimate.Estimate(text), 1)))
  {
    NoUsageIsLast(chunks);
    WordsAreRead(chunks);
    FiguresOf(chunks, Words(chunks), 0, 0);
  }

  /** The closing events the gateway writes itself: a chunk that finishes with "stop" and says nothing, and an
      error that names the upstream. */
  lemma ClosingEventsRead()
    ensures TextAt(FINISH_JSON, Readings.FirstChoice(Key("finish_reason", Here))) == Some("stop")
    ensures ContentPart(OpenAi, FINISH_JSON) == "" && ReasoningPart(OpenAi, FINISH_JSON) == ""
    ensures TextAt(INTERRUPTED_JSON, Key("error", Key("type", Here))) == Some("upstream_error")
    ensures TextAt(INTERRUPTED_JSON, Key("error", Key("code", Here))) == Some("stream_interrupted")
  {
    FinishReads(FINISH_JSON);
    TwoKeys(INTERRUPTED_JSON, "error", "type");
    TwoKeys(INTERRUPTED_JSON, "error", "code");
  }

  lemma FinishReads(json: Value)
    requires json == FINISH_JSON
    ensures TextAt(json, Readings.FirstChoice(Key("finish_reason", Here))) == Some("stop")
    ensures ContentPart(OpenAi, json) == "" && ReasoningPart(OpenAi, json) == ""
  {
    ChoiceStep(json, 0, Key("finish_reason", Here));
    var choice := json.fields["choices"].items[0];
    LastKey(choice, "finish_reason");
  }
}
