/** Anthropic answers in OpenAI form, at once and as a stream
    (src/proxy/upstream.rs, `convert_anthropic_to_openai_response`, `convert_anthropic_stream_to_openai`). */
module AnthropicConvert {
  import opened Wrappers
  import opened Json
  import opened Text
  import opened ToolCalls
  import opened SseBody
  import Usage

  function FinishReason(stopReason: string): string {
    if stopReason == "end_turn" || stopReason == "stop" then "stop"
    else if stopReason == "max_tokens" then "length"
    else if stopReason == "tool_use" then "tool_calls"
    else stopReason
  }

  // ---------------------------------------------------------------- the whole answer at once

  function BlockText(block: Value): string {
    if block.GetStr("type") == Some("text") then block.GetStr("text").GetOr("") else ""
  }

  function BlockThinking(block: Value): string {
    if block.GetStr("type") == Some("thinking") then block.GetStr("thinking").GetOr("") else ""
  }

  function BlockCall(block: Value, toText: Printer): seq<ToolCall> {
    if block.GetStr("type") != Some("tool_use") then []
    else
      var input := block.Get("input");
      [ToolCall(block.GetStr("id").GetOr(""), block.GetStr("name").GetOr(""),
                if input.Some? then toText(input.value) else "")]
  }

  function AllText(blocks: seq<Value>): string {
    if blocks == [] then "" else AllText(blocks[..|blocks| - 1]) + BlockText(blocks[|blocks| - 1])
  }

  function AllThinking(blocks: seq<Value>): string {
    if blocks == [] then "" else AllThinking(blocks[..|blocks| - 1]) + BlockThinking(blocks[|blocks| - 1])
  }

  function AllCalls(blocks: seq<Value>, toText: Printer): seq<ToolCall> {
    if blocks == [] then []
    else AllCalls(blocks[..|blocks| - 1], toText) + BlockCall(blocks[|blocks| - 1], toText)
  }

  function TokenCount(response: Value, key: string): int {
    var usage := response.Get("usage");
    if usage.None? then 0 else AsI32(usage.value.GetI64(key).GetOr(0))
  }

  function ResponseOf(response: Value, model: string, id: string, now: int, toText: Printer): Answer {
    var blocks := response.GetArray("content").GetOr([]);
    var input, output := TokenCount(response, "input_tokens"), TokenCount(response, "output_tokens");
    Answer(id, "chat.completion", now, model,
           NonEmpty(AllText(blocks)), NonEmpty(AllThinking(blocks)),
           if AllCalls(blocks, toText) == [] then None else Some(AllCalls(blocks, toText)),
           Some(FinishReason(response.GetStr("stop_reason").GetOr("stop"))),
           Usage.Usage(input, output, AsI32(input + output)))
  }

  lemma PartsOfOneMore(blocks: seq<Value>, i: nat, toText: Printer)
    requires i < |blocks|
    ensures AllText(blocks[..i + 1]) == AllText(blocks[..i]) + BlockText(blocks[i])
    ensures AllThinking(blocks[..i + 1]) == AllThinking(blocks[..i]) + BlockThinking(blocks[i])
    ensures AllCalls(blocks[..i + 1], toText) == AllCalls(blocks[..i], toText) + BlockCall(blocks[i], toText)
  {
    assert blocks[..i + 1][..i] == blocks[..i];
  }

  method ConvertResponse(response: Value, model: string, id: string, now: int, toText: Printer) returns (answer: Answer)
    ensures answer == ResponseOf(response, model, id, now, toText)
  {
    var content, reasoning := "", "";
    var toolCalls: seq<ToolCall> := [];
    var blocks := response.GetArray("content").GetOr([]);
    for i := 0 to |blocks|
      invariant content == AllText(blocks[..i]) && reasoning == AllThinking(blocks[..i])
      invariant toolCalls == AllCalls(blocks[..i], toText)
    {
      PartsOfOneMore(blocks, i, toText);
      content := content + BlockText(blocks[i]);
      reasoning := reasoning + BlockThinking(blocks[i]);
      toolCalls := toolCalls + BlockCall(blocks[i], toText);
    }
    assert blocks[..|blocks|] == blocks;
    var input, output := TokenCount(response, "input_tokens"), TokenCount(response, "output_tokens");
    answer := Answer(id, "chat.completion", now, model, NonEmpty(content), NonEmpty(reasoning),
                     if toolCalls == [] then None else Some(toolCalls),
                     Some(FinishReason(response.GetStr("stop_reason").GetOr("stop"))),
                     Usage.Usage(input, output, AsI32(input + output)));
  }

  // ---------------------------------------------------------------- one stream event

  datatype Header = Header(id: string, model: string, created: int)

  function ChoiceChunk(h: Header, delta: Value, finish: Value): map<string, Value> {
    map["id" := Str(h.id), "object" := Str("chat.completion.chunk"), "created" := Int(h.created),
        "model" := Str(h.model),
        "choices" := Arr([Obj(map["index" := Int(0), "finish_reason" := finish, "delta" := delta])])]
  }

  function DeltaChunk(h: Header, delta: map<string, Value>): Value {
    Obj(ChoiceChunk(h, Obj(delta), Null))
  }

  function ToolStart(index: int, id: string, name: string): Value {
    Obj(map["type" := Str("function"), "index" := Int(index), "id" := Str(id),
            "function" := Obj(map["name" := Str(name), "arguments" := Str("")])])
  }

  function ToolDelta(index: int, arguments: string): Value {
    Obj(map["index" := Int(index), "function" := Obj(map["arguments" := Str(arguments)])])
  }

  function EventIndex(data: Value): int {
    AsI32(data.GetI64("index").GetOr(0))
  }

  function BlockStart(h: Header, data: Value): seq<Value> {
    var block := data.Get("content_block").GetOr(Null);
    var kind := block.GetStr("type").GetOr("");
    if kind == "thinking" then
      var thinking := block.GetStr("thinking").GetOr("");
      if thinking == "" then [] else [DeltaChunk(h, map["reasoning_content" := Str(thinking)])]
    else if kind == "tool_use" then
      [DeltaChunk(h, map["tool_calls" := Arr([
        ToolStart(EventIndex(data), block.GetStr("id").GetOr(""), block.GetStr("name").GetOr(""))])])]
    else
      var text := block.GetStr("text").GetOr("");
      if text == "" then [] else [DeltaChunk(h, map["content" := Str(text)])]
  }

  function BlockDelta(h: Header, data: Value): seq<Value> {
    var delta := data.Get("delta").GetOr(Null);
    var kind := delta.GetStr("type").GetOr("");
    if kind == "thinking_delta" then
      var thinking := delta.GetStr("thinking");
      if thinking.None? then [] else [DeltaChunk(h, map["reasoning_content" := Str(thinking.value)])]
    else if kind == "input_json_delta" then
      [DeltaChunk(h, map["tool_calls" := Arr([
        ToolDelta(EventIndex(data), delta.GetStr("partial_json").GetOr(""))])])]
    else
      var text := delta.GetStr("text");
      if text.None? then [] else [DeltaChunk(h, map["content" := Str(text.value)])]
  }

  function ReportedUsage(data: Value): Value {
    var usage := data.Get("usage");
    var output := if usage.None? then None else usage.value.GetI64("output_tokens");
    if output.None? then Obj(map[])
    else Obj(map["prompt_tokens" := Int(0), "completion_tokens" := Int(output.value),
                 "total_tokens" := Int(output.value)])
  }

  function MessageDelta(h: Header, data: Value): Value {
    var stopReason := data.Get("delta").GetOr(Null).GetStr("stop_reason").GetOr("stop");
    Obj(map["usage" := ReportedUsage(data)] + ChoiceChunk(h, Obj(map[]), Str(FinishReason(stopReason))))
  }

  function ConvertEvent(h: Header, name: string, data: Value): seq<Value> {
    if name == "message_start" then [DeltaChunk(h, map["role" := Str("assistant"), "content" := Str("")])]
    else if name == "content_block_start" then BlockStart(h, data)
    else if name == "content_block_delta" then BlockDelta(h, data)
    else if name == "message_delta" then [MessageDelta(h, data)]
    else if name == "message_stop" then [Obj(ChoiceChunk(h, Obj(map[]), Str("stop")))]
    else []
  }
}
