/** Token usage of a streamed answer (src/proxy/upstream.rs, `Usage`). */
module Usage {
  import opened Wrappers
  import opened Json
  import opened Text
  import TokenEstimate

  datatype Usage = Usage(promptTokens: int, completionTokens: int, totalTokens: int)

  /** The text a single choice adds to the stream: its content, then its reasoning. */
  function DeltaText(choice: Value): string {
    match choice.Get("delta")
    case None => ""
    case Some(delta) => delta.GetStr("content").GetOr("") + delta.GetStr("reasoning_content").GetOr("")
  }

  function ChoicesText(choices: seq<Value>): string {
    if choices == [] then "" else ChoicesText(choices[..|choices| - 1]) + DeltaText(choices[|choices| - 1])
  }

  function ChunkText(chunk: Value): string {
    ChoicesText(chunk.GetArray("choices").GetOr([]))
  }

  function StreamText(chunks: seq<Value>): string {
    if chunks == [] then "" else StreamText(chunks[..|chunks| - 1]) + ChunkText(chunks[|chunks| - 1])
  }

  /** The last usage object reported by the stream. */
  function LastUsage(chunks: seq<Value>): Option<Value> {
    if chunks == [] then None
    else
      var usage := chunks[|chunks| - 1].Get("usage");
      if usage.Some? then usage else LastUsage(chunks[..|chunks| - 1])
  }

  function ReportedPrompt(usage: Option<Value>): int {
    if usage.None? then 0 else AsI32(usage.value.GetI64("prompt_tokens").GetOr(0))
  }

  function ReportedCompletion(usage: Option<Value>): int {
    if usage.None? then 0 else AsI32(usage.value.GetI64("completion_tokens").GetOr(0))
  }

  ghost function Max(a: int, b: int): int {
    if a < b then b else a
  }

  /** Reported tokens when the stream reports any, an estimate from its text otherwise. */
  ghost function UsageOf(chunks: seq<Value>): Usage {
    var usage := LastUsage(chunks);
    var estimated := ReportedPrompt(usage) == 0 && ReportedCompletion(usage) == 0 && StreamText(chunks) != "";
    var prompt := if estimated then 10 else ReportedPrompt(usage);
    var completion :=
      if estimated then AsI32(Max(TokenEstimate.Estimate(StreamText(chunks)), 1)) else ReportedCompletion(usage);
    Usage(prompt, completion, AsI32(prompt + completion))
  }

  lemma OneMoreChoice(before: string, choices: seq<Value>, j: nat)
    requires j < |choices|
    ensures before + ChoicesText(choices[..j + 1]) == before + ChoicesText(choices[..j]) + DeltaText(choices[j])
  {
    assert choices[..j + 1][..j] == choices[..j];
    Assoc(before, ChoicesText(choices[..j]), DeltaText(choices[j]));
  }

  method PushDelta(text: string, choice: Value) returns (extended: string)
    ensures extended == text + DeltaText(choice)
  {
    extended := text;
    var delta := choice.Get("delta");
    if delta.Some? {
      extended := extended + delta.value.GetStr("content").GetOr("");
      extended := extended + delta.value.GetStr("reasoning_content").GetOr("");
      Assoc(text, delta.value.GetStr("content").GetOr(""), delta.value.GetStr("reasoning_content").GetOr(""));
    }
  }

  method PushChoices(totalContent: string, choices: seq<Value>) returns (extended: string)
    ensures extended == totalContent + ChoicesText(choices)
  {
    extended := totalContent;
    for j := 0 to |choices|
      invariant extended == totalContent + ChoicesText(choices[..j])
    {
      OneMoreChoice(totalContent, choices, j);
      extended := PushDelta(extended, choices[j]);
    }
    assert choices[..|choices|] == choices;
  }

  method FromStreamChunks(chunks: seq<Value>) returns (u: Usage)
    ensures u == UsageOf(chunks)
  {
    var promptTokens, completionTokens := 0, 0;
    var totalContent := "";
    for i := 0 to |chunks|
      invariant promptTokens == ReportedPrompt(LastUsage(chunks[..i]))
      invariant completionTokens == ReportedCompletion(LastUsage(chunks[..i]))
      invariant totalContent == StreamText(chunks[..i])
    {
      var chunk := chunks[i];
      assert chunks[..i + 1][..i] == chunks[..i];
      var usage := chunk.Get("usage");
      if usage.Some? {
        promptTokens := AsI32(usage.value.GetI64("prompt_tokens").GetOr(0));
        completionTokens := AsI32(usage.value.GetI64("completion_tokens").GetOr(0));
      }
      totalContent := PushChoices(totalContent, chunk.GetArray("choices").GetOr([]));
    }
    assert chunks[..|chunks|] == chunks;
    if promptTokens == 0 && completionTokens == 0 && totalContent != "" {
      var estimated := TokenEstimate.EstimateTokensByRules(totalContent);
      completionTokens := AsI32(if estimated < 1 then 1 else estimated);
      promptTokens := 10;
    }
    u := Usage(promptTokens, completionTokens, AsI32(promptTokens + completionTokens));
  }
}
