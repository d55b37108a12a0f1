/** Where in a JSON value each figure and each text is read, said independently of the code that reads it
    (src/proxy/handlers.rs, src/proxy/upstream.rs). */
module Readings {
  import opened Wrappers
  import opened Json
  import opened SseRelay
  import opened SseTheorems
  import SseBody
  import AnthropicConvert
  import Usage

  /** A way into a JSON value. */
  datatype Path = Here | Key(name: string, rest: Path) | Element(i: nat, rest: Path)

  function Along(v: Value, path: Path): Option<Value> {
    match path
    case Here => Some(v)
    case Key(name, rest) =>
      if v.Obj? && name in v.fields then Along(v.fields[name], rest) else None
    case Element(i, rest) =>
      if v.Arr? && i < |v.items| then Along(v.items[i], rest) else None
  }

  function TextAt(v: Value, path: Path): Option<string> {
    match Along(v, path)
    case Some(Str(s)) => Some(s)
    case _ => None
  }

  /** A number that fits into 64 bits. */
  function NumberAt(v: Value, path: Path): Option<int> {
    match Along(v, path)
    case Some(Int(n)) => if -0x8000_0000_0000_0000 <= n < 0x8000_0000_0000_0000 then Some(n) else None
    case _ => None
  }

  const INPUT_TOKENS := Key("message", Key("usage", Key("input_tokens", Here)))
  const OUTPUT_TOKENS := Key("usage", Key("output_tokens", Here))
  const PROMPT_TOKENS := Key("usage", Key("prompt_tokens", Here))
  const COMPLETION_TOKENS := Key("usage", Key("completion_tokens", Here))

  function FirstChoice(rest: Path): Path {
    Key("choices", Element(0, rest))
  }

  lemma KeyStep(v: Value, name: string, rest: Path)
    ensures Along(v, Key(name, rest)) ==
            if v.Get(name).Some? then Along(v.Get(name).value, rest) else None
  {
  }

  lemma LastKey(v: Value, name: string)
    ensures Along(v, Key(name, Here)) == v.Get(name)
    ensures TextAt(v, Key(name, Here)) == v.GetStr(name) && NumberAt(v, Key(name, Here)) == v.GetI64(name)
  {
  }

  lemma TwoKeys(v: Value, outer: string, inner: string)
    ensures TextAt(v, Key(outer, Key(inner, Here))) == Nested(v, outer, inner)
    ensures NumberAt(v, Key(outer, Key(inner, Here))) ==
            if v.Get(outer).Some? then v.Get(outer).value.GetI64(inner) else None
  {
    KeyStep(v, outer, Key(inner, Here));
    if v.Get(outer).Some? {
      LastKey(v.Get(outer).value, inner);
    }
  }

  lemma ElementStep(v: Value, i: nat, rest: Path)
    ensures Along(v, Element(i, rest)) == if v.At(i).Some? then Along(v.At(i).value, rest) else None
  {
  }

  /** The choice at a position. */
  lemma ChoiceStep(v: Value, i: nat, rest: Path)
    ensures Along(v, Key("choices", Element(i, rest))) ==
            match v.GetArray("choices") {
              case Some(choices) => if i < |choices| then Along(choices[i], rest) else None
              case None => None
            }
  {
    KeyStep(v, "choices", Element(i, rest));
    if v.Get("choices").Some? {
      ElementStep(v.Get("choices").value, i, rest);
    }
  }

  /** The counts of an Anthropic stream. */
  lemma CountsAreRead(json: Value)
    ensures InputTokens(json) == NumberAt(json, INPUT_TOKENS)
    ensures OutputTokens(json) == NumberAt(json, OUTPUT_TOKENS)
  {
    KeyStep(json, "message", Key("usage", Key("input_tokens", Here)));
    if json.Get("message").Some? {
      TwoKeys(json.Get("message").value, "usage", "input_tokens");
    }
    TwoKeys(json, "usage", "output_tokens");
  }

  /** The usage of a chunk, in 32 bits. */
  lemma UsageIsRead(chunk: Value)
    ensures Usage.ReportedPrompt(chunk.Get("usage")) == AsI32(NumberAt(chunk, PROMPT_TOKENS).GetOr(0))
    ensures Usage.ReportedCompletion(chunk.Get("usage")) == AsI32(NumberAt(chunk, COMPLETION_TOKENS).GetOr(0))
  {
    TwoKeys(chunk, "usage", "prompt_tokens");
    TwoKeys(chunk, "usage", "completion_tokens");
  }

  lemma FirstDeltaIsRead(json: Value, key: string)
    ensures FirstDelta(json, key) == TextAt(json, FirstChoice(Key("delta", Key(key, Here))))
  {
    ChoiceStep(json, 0, Key("delta", Key(key, Here)));
    if json.GetArray("choices").Some? && json.GetArray("choices").value != [] {
      TwoKeys(json.GetArray("choices").value[0], "delta", key);
    }
  }

  /** The texts that are logged of an OpenAI chunk and of an Anthropic event. */
  lemma TextsAreRead(json: Value)
    ensures ContentPart(OpenAi, json) == TextAt(json, FirstChoice(Key("delta", Key("content", Here)))).GetOr("")
    ensures ReasoningPart(OpenAi, json) ==
            TextAt(json, FirstChoice(Key("delta", Key("reasoning_content", Here)))).GetOr("")
    ensures ContentPart(Anthropic, json) ==
            TextAt(json, Key("delta", Key("text", Here))).GetOr("")
            + TextAt(json, Key("content_block", Key("text", Here))).GetOr("")
    ensures ReasoningPart(Anthropic, json) == TextAt(json, Key("delta", Key("thinking", Here))).GetOr("")
  {
    FirstDeltaIsRead(json, "content");
    FirstDeltaIsRead(json, "reasoning_content");
    TwoKeys(json, "delta", "text");
    TwoKeys(json, "content_block", "text");
    TwoKeys(json, "delta", "thinking");
  }

  lemma FinishIsRead(chunk: Value)
    ensures SseBody.ChunkFinish(chunk) == TextAt(chunk, FirstChoice(Key("finish_reason", Here)))
  {
    ChoiceStep(chunk, 0, Key("finish_reason", Here));
    if chunk.GetArray("choices").Some? && chunk.GetArray("choices").value != [] {
      LastKey(chunk.GetArray("choices").value[0], "finish_reason");
    }
  }

  /** The usage of a one-shot Anthropic answer. */
  lemma AnswerUsageIsRead(response: Value, model: string, id: string, now: int, toText: Printer)
    ensures var u := AnthropicConvert.ResponseOf(response, model, id, now, toText).usage;
            && u.promptTokens == AsI32(NumberAt(response, Key("usage", Key("input_tokens", Here))).GetOr(0))
            && u.completionTokens == AsI32(NumberAt(response, Key("usage", Key("output_tokens", Here))).GetOr(0))
            && u.totalTokens == AsI32(u.promptTokens + u.completionTokens)
  {
    TwoKeys(response, "usage", "input_tokens");
    TwoKeys(response, "usage", "output_tokens");
  }

  /** The chunk that opens a tool call names a function, with its index and id, and no arguments yet. */
  lemma ToolStartIsFunction(index: int, id: string, name: string)
    ensures var start := AnthropicConvert.ToolStart(index, id, name);
            && TextAt(start, Key("type", Here)) == Some("function") && TextAt(start, Key("id", Here)) == Some(id)
            && Along(start, Key("index", Here)) == Some(Int(index))
            && TextAt(start, Key("function", Key("name", Here))) == Some(name)
            && TextAt(start, Key("function", Key("arguments", Here))) == Some("")
  {
    var start := AnthropicConvert.ToolStart(index, id, name);
    LastKey(start, "type");
    LastKey(start, "id");
    LastKey(start, "index");
    TwoKeys(start, "function", "name");
    TwoKeys(start, "function", "arguments");
  }
}
