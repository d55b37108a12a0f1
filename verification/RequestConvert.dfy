/** The request conversion around the role merge (src/proxy/upstream.rs, `convert_openai_to_anthropic_request`). */
module RequestConvert {
  import opened Wrappers
  import opened Json
  import opened Text
  import opened ToolCalls
  import opened RoleMerge

  datatype Part = TextPart(text: string) | ImagePart(url: string) | AudioPart

  datatype ChatContent = PlainText(text: string) | Parts(parts: seq<Part>)

  datatype ChatMessage = ChatMessage(
    role: string, content: ChatContent,
    toolCalls: Option<seq<ToolCall>>, toolCallId: Option<string>)

  function PartTexts(parts: seq<Part>): string {
    if parts == [] then ""
    else
      var last := parts[|parts| - 1];
      PartTexts(parts[..|parts| - 1]) + if last.TextPart? then last.text else ""
  }

  /** `MessageContent::text_content` */
  function TextContent(c: ChatContent): string {
    if c.PlainText? then c.text else PartTexts(c.parts)
  }

  // ---------------------------------------------------------------- content

  function ImageSourceOf(url: string): ImageSource {
    if !("data:" <= url) then Url(url)
    else
      var rest := url[5..];
      var semicolon := Find(rest, ';');
      if semicolon < |rest| && "base64," <= rest[semicolon + 1..]
      then Base64(rest[..semicolon], rest[semicolon + 1..][7..])
      else Url(url)
  }

  /** A data URI is taken apart exactly, media type and payload, if and only if the media type has no
      parameters of its own. */
  lemma DataUriRoundTrip(mediaType: string, data: string)
    ensures ImageSourceOf("data:" + mediaType + ";base64," + data) == Base64(mediaType, data) <==> ';' !in mediaType
  {
    var rest := mediaType + ";base64," + data;
    var url := "data:" + mediaType + ";base64," + data;
    assert url == "data:" + rest;
    assert url[5..] == rest;
    if ';' !in mediaType {
      PlainDataUri(mediaType, data);
    }
  }

  lemma PlainDataUri(mediaType: string, data: string)
    requires ';' !in mediaType
    ensures var rest := mediaType + ";base64," + data;
            Find(rest, ';') == |mediaType| && rest[..|mediaType|] == mediaType
                && rest[|mediaType| + 1..] == "base64," + data
  {
    var rest := mediaType + ";base64," + data;
    assert rest[..|mediaType|] == mediaType;
    FindIsFirst(rest, ';', |mediaType|);
    assert ";base64," == ";" + "base64,";
    assert rest[|mediaType| + 1..] == "base64," + data;
  }

  function PartBlock(part: Part): seq<Block> {
    match part
    case TextPart(text) => [TextBlock(text)]
    case ImagePart(url) => [ImageBlock(ImageSourceOf(url))]
    case AudioPart => []
  }

  function PartBlocks(parts: seq<Part>): seq<Block> {
    if parts == [] then [] else PartBlocks(parts[..|parts| - 1]) + PartBlock(parts[|parts| - 1])
  }

  function ConvertContent(c: ChatContent): Content {
    if c.PlainText? then Plain(c.text)
    else
      var blocks := PartBlocks(c.parts);
      if blocks == [] then Plain("") else FromBlocks(blocks)
  }

  function ToolUses(parse: Parser, calls: seq<ToolCall>): seq<Block> {
    seq(|calls|, i requires 0 <= i < |calls| =>
      ToolUse(calls[i].id, calls[i].name, parse(calls[i].arguments).GetOr(Obj(map[]))))
  }

  /** A non-system message in Anthropic form. */
  function ConvertMessage(parse: Parser, m: ChatMessage): Message {
    if m.role == "tool" then
      Message("user", Blocks([ToolResult(m.toolCallId.GetOr(""), Some(ConvertContent(m.content)), None)]))
    else if m.role == "assistant" && m.toolCalls.Some? then
      var text := TextContent(m.content);
      Message("assistant",
          FromBlocks((if text == "" then [] else [TextBlock(text)]) + ToolUses(parse, m.toolCalls.value)))
    else Message(m.role, ConvertContent(m.content))
  }

  function Spoken(ms: seq<ChatMessage>): seq<ChatMessage> {
    if ms == [] then []
    else
      var last := ms[|ms| - 1];
      Spoken(ms[..|ms| - 1]) + if last.role == "system" then [] else [last]
  }

  function SystemTexts(ms: seq<ChatMessage>): seq<string> {
    if ms == [] then []
    else
      var last := ms[|ms| - 1];
      SystemTexts(ms[..|ms| - 1]) + if last.role == "system" then [TextContent(last.content)] else []
  }

  function ConvertAllMessages(parse: Parser, ms: seq<ChatMessage>): seq<Message> {
    seq(|ms|, i requires 0 <= i < |ms| => ConvertMessage(parse, ms[i]))
  }

  method ConvertContentBlocks(parts: seq<Part>) returns (blocks: seq<Block>)
    ensures blocks == PartBlocks(parts)
  {
    blocks := [];
    for i := 0 to |parts|
      invariant blocks == PartBlocks(parts[..i])
    {
      assert parts[..i + 1][..i] == parts[..i];
      match parts[i] {
        case TextPart(text) => blocks := blocks + [TextBlock(text)];
        case ImagePart(url) => blocks := blocks + [ImageBlock(ImageSourceOf(url))];
        case AudioPart =>
      }
    }
    assert parts[..|parts|] == parts;
  }

  method ConvertOpenAiContent(c: ChatContent) returns (content: Content)
    ensures content == ConvertContent(c)
  {
    match c
    case PlainText(text) => content := Plain(text);
    case Parts(parts) =>
      var blocks := ConvertContentBlocks(parts);
      content := if blocks == [] then Plain("") else FromBlocks(blocks);
  }

  method PushToolUses(parse: Parser, blocks: seq<Block>, calls: seq<ToolCall>) returns (pushed: seq<Block>)
    ensures pushed == blocks + ToolUses(parse, calls)
  {
    pushed := blocks;
    for i := 0 to |calls|
      invariant pushed == blocks + ToolUses(parse, calls[..i])
    {
      pushed := pushed + [ToolUse(calls[i].id, calls[i].name, parse(calls[i].arguments).GetOr(Obj(map[])))];
    }
    assert calls[..|calls|] == calls;
  }

  /** The branches for a tool result, an assistant message with tool calls, and any other message. */
  method ConvertSpoken(parse: Parser, m: ChatMessage) returns (message: Message)
    ensures message == ConvertMessage(parse, m)
  {
    if m.role == "assistant" && m.toolCalls.Some? {
      var text, blocks := TextContent(m.content), [];
      if text != "" {
        blocks := [TextBlock(text)];
      }
      blocks := PushToolUses(parse, blocks, m.toolCalls.value);
      return Message("assistant", FromBlocks(blocks));
    }
    var content := ConvertOpenAiContent(m.content);
    if m.role == "tool" {
      return Message("user", Blocks([ToolResult(m.toolCallId.GetOr(""), Some(content), None)]));
    }
    message := Message(m.role, content);
  }

  // ---------------------------------------------------------------- the whole request

  datatype ChatRequest = ChatRequest(
    model: string, messages: seq<ChatMessage>, temperature: Option<real>,
    maxTokens: Option<int>, maxCompletionTokens: Option<int>, stream: Option<bool>,
    tools: Option<seq<Value>>, toolChoice: Option<Value>)

  datatype Tool = Tool(name: string, description: Option<string>, schema: Value)

  datatype AnthropicRequest = AnthropicRequest(
    model: string, messages: seq<Message>, maxTokens: Option<int>, temperature: Option<real>, stream: Option<bool>,
    system: Option<string>, tools: Option<seq<Tool>>, toolChoice: Option<Value>)

  function ToolOf(tool: Value): Tool {
    var f := tool.Get("function").GetOr(Null);
    Tool(f.GetStr("name").GetOr(""), f.GetStr("description"), f.Get("parameters").GetOr(Obj(map[])))
  }

  function ToolsOf(tools: seq<Value>): seq<Tool> {
    seq(|tools|, i requires 0 <= i < |tools| => ToolOf(tools[i]))
  }

  function ToolChoiceOf(choice: Value): Option<Value> {
    if choice == Str("auto") then Some(Obj(map["type" := Str("auto")]))
    else if choice == Str("required") then Some(Obj(map["type" := Str("any")]))
    else if choice.Get("function").Some? then
      Some(Obj(map["type" := Str("tool"), "name" := Str(choice.Get("function").value.GetStr("name").GetOr(""))]))
    else None
  }

  const DEFAULT_MAX_TOKENS: int := 8192

  method ConvertTools(tools: seq<Value>) returns (converted: seq<Tool>)
    ensures converted == ToolsOf(tools)
  {
    converted := [];
    for i := 0 to |tools|
      invariant converted == ToolsOf(tools[..i])
    {
      converted := converted + [ToolOf(tools[i])];
    }
    assert tools[..|tools|] == tools;
  }

  /** The system field joins the system texts in order; the messages are the merged conversions of all others. */
  method ConvertRequest(parse: Parser, request: ChatRequest) returns (r: AnthropicRequest)
    ensures var systemTexts := SystemTexts(request.messages);
            r.system == if systemTexts == [] then None else Some(Join(systemTexts, "\n\n"))
    ensures r.messages == Merged(ConvertAllMessages(parse, Spoken(request.messages)))
    ensures r.model == request.model && r.temperature == request.temperature && r.stream == request.stream
    ensures r.maxTokens == Some(request.maxCompletionTokens.GetOr(request.maxTokens.GetOr(8192)))
    ensures r.tools.Some? == request.tools.Some? && (r.tools.Some? ==> r.tools.value == ToolsOf(request.tools.value))
    ensures r.toolChoice == if request.toolChoice.None? then None else ToolChoiceOf(request.toolChoice.value)
  {
    var systemParts: seq<string>, converted: seq<Message> := [], [];
    for i := 0 to |request.messages|
      invariant systemParts == SystemTexts(request.messages[..i])
      invariant converted == ConvertAllMessages(parse, Spoken(request.messages[..i]))
    {
      var m := request.messages[i];
      OneMoreMessage(parse, request.messages, i);
      if m.role == "system" {
        systemParts := systemParts + [TextContent(m.content)];
      } else {
        var message := ConvertSpoken(parse, m);
        converted := converted + [message];
      }
    }
    assert request.messages[..|request.messages|] == request.messages;
    var system := if systemParts == [] then None else Some(Join(systemParts, "\n\n"));
    var tools := None;
    if request.tools.Some? {
      var ts := ConvertTools(request.tools.value);
      tools := Some(ts);
    }
    var toolChoice := if request.toolChoice.None? then None else ToolChoiceOf(request.toolChoice.value);
    var messages := MergeConsecutiveRoles(converted);
    var limit := if request.maxCompletionTokens.Some? then request.maxCompletionTokens else request.maxTokens;
    r := AnthropicRequest(
      request.model, messages, if limit.Some? then limit else Some(DEFAULT_MAX_TOKENS),
      request.temperature, request.stream, system, tools, toolChoice);
  }

  lemma OneMoreMessage(parse: Parser, ms: seq<ChatMessage>, i: nat)
    requires i < |ms|
    ensures var m := ms[i];
            && SystemTexts(ms[..i + 1]) ==
               SystemTexts(ms[..i]) + (if m.role == "system" then [TextContent(m.content)] else [])
            && ConvertAllMessages(parse, Spoken(ms[..i + 1])) ==
               ConvertAllMessages(parse, Spoken(ms[..i])) +
                   (if m.role == "system" then [] else [ConvertMessage(parse, m)])
  {
    assert ms[..i + 1][..i] == ms[..i];
  }

  /** A function tool keeps its name, description and schema, and a choice of it still names it. */
  lemma ToolIsKept(name: string, description: string, schema: Value)
    ensures var f := Obj(map["name" := Str(name), "description" := Str(description), "parameters" := schema]);
            && ToolOf(Obj(map["type" := Str("function"), "function" := f])) == Tool(name, Some(description), schema)
            && ToolChoiceOf(Obj(map["type" := Str("function"), "function" := f])) ==
               Some(Obj(map["type" := Str("tool"), "name" := Str(name)]))
  {
  }

  /** What is not given gets an empty name, no description and an empty schema. */
  lemma ToolDefaults(tool: Value)
    ensures tool.Get("function").None? ==> ToolOf(tool) == Tool("", None, Obj(map[]))
    ensures tool.Get("function").Some? ==>
            var f := tool.Get("function").value;
            && (f.Get("name").None? ==> ToolOf(tool).name == "")
            && (f.Get("description").None? ==> ToolOf(tool).description == None)
            && (f.Get("parameters").None? ==> ToolOf(tool).schema == Obj(map[]))
  {
  }

  /** "auto" stays automatic, "required" becomes any tool, a function becomes that tool, and everything else,
      "none" included, leaves the choice open. */
  lemma ToolChoiceIsKept(choice: Value)
    ensures var kept := ToolChoiceOf(choice);
            && (kept == Some(Obj(map["type" := Str("auto")])) <==> choice == Str("auto"))
            && (kept == Some(Obj(map["type" := Str("any")])) <==> choice == Str("required"))
            && (kept.Some? <==>
                choice == Str("auto") || choice == Str("required") || (choice.Obj? && "function" in choice.fields))
            && (choice.Obj? && "function" in choice.fields ==>
                  && kept.value.GetStr("type") == Some("tool")
                  && kept.value.GetStr("name") == Some(choice.fields["function"].GetStr("name").GetOr("")))
  {
    var kept := ToolChoiceOf(choice);
    ChoiceObjectsDiffer(if choice.Get("function").Some? then choice.Get("function").value.GetStr("name").GetOr("")
                        else "");
  }

  lemma ChoiceObjectsDiffer(name: string)
    ensures var auto, any := Obj(map["type" := Str("auto")]), Obj(map["type" := Str("any")]);
            var tool := Obj(map["type" := Str("tool"), "name" := Str(name)]);
            && auto != any && auto != tool && any != tool && Str("auto") != Str("required")
            && tool.GetStr("type") == Some("tool") && tool.GetStr("name") == Some(name)
  {
    assert |"auto"| == 4 && |"any"| == 3 && |"required"| == 8;
    assert "name" in map["type" := Str("tool"), "name" := Str(name)] && "name" !in map["type" := Str("auto")]
           && "name" !in map["type" := Str("any")];
    assert map["type" := Str("auto")]["type"] != map["type" := Str("any")]["type"];
  }

  // ---------------------------------------------------------------- what becomes of each message

  /** System messages go to the system field, and all others stay messages. */
  lemma {:induction false} SystemIsSplitOff(ms: seq<ChatMessage>)
    ensures forall m :: m in Spoken(ms) <==> m in ms && m.role != "system"
    ensures |Spoken(ms)| + |SystemTexts(ms)| == |ms|
    ensures forall text :: text in SystemTexts(ms) <==>
              exists i :: 0 <= i < |ms| && ms[i].role == "system" && text == TextContent(ms[i].content)
  {
    if ms == [] {
    } else {
      var init, last := ms[..|ms| - 1], ms[|ms| - 1];
      SplitLast(ms);
      SystemIsSplitOff(init);
      assert forall i :: 0 <= i < |init| ==> ms[i] == init[i];
      assert ms[|init|] == last;
    }
  }

  /** A tool message answers, as the user, the call that it names, with its text. */
  lemma ToolResultAnswersCall(parse: Parser, m: ChatMessage)
    requires m.role == "tool"
    ensures var converted := ConvertMessage(parse, m);
            && converted.role == "user" && converted.content.Blocks? && |converted.content.blocks| == 1
            && var result := converted.content.blocks[0];
               && result.ToolResult? && result.content.Some? && TextOnly(result.content.value) == TextContent(m.content)
               && result.toolUseId == (if m.toolCallId.Some? then m.toolCallId.value else "")
  {
    ConvertContentKeepsText(m.content);
  }

  /** Without audio, the blocks are the parts one by one. */
  lemma {:induction false} PartsBecomeBlocks(parts: seq<Part>)
    requires forall i :: 0 <= i < |parts| ==> !parts[i].AudioPart?
    ensures var blocks := PartBlocks(parts);
            && |blocks| == |parts|
            && forall i :: 0 <= i < |parts| ==>
                 match parts[i]
                 case TextPart(text) => blocks[i] == TextBlock(text)
                 case ImagePart(url) => blocks[i].ImageBlock? && ("data:" <= url || blocks[i].source == Url(url))
                 case AudioPart => false
  {
    if parts == [] {
    } else {
      PartsBecomeBlocks(parts[..|parts| - 1]);
    }
  }

  // ---------------------------------------------------------------- what happens to the text

  /** The role a message speaks in, and the text it contributes; tool results contribute none. */
  function SpokenRole(m: ChatMessage): string {
    if m.role == "tool" then "user" else m.role
  }

  function SpokenText(m: ChatMessage): string {
    if m.role == "tool" then "" else TextContent(m.content)
  }

  lemma {:induction false} PartBlocksKeepText(parts: seq<Part>)
    ensures BlockTexts(PartBlocks(parts)) == PartTexts(parts)
  {
    if parts == [] {
    } else {
      var init, last := parts[..|parts| - 1], parts[|parts| - 1];
      PartBlocksKeepText(init);
      if PartBlock(last) != [] {
        assert (PartBlocks(init) + PartBlock(last))[..|PartBlocks(init)|] == PartBlocks(init);
      } else {
        assert PartBlocks(init) + [] == PartBlocks(init);
      }
    }
  }

  lemma FromBlocksKeepsText(blocks: seq<Block>)
    ensures TextOnly(FromBlocks(blocks)) == BlockTexts(blocks)
  {
    if |blocks| == 1 {
      assert blocks[..0] == [];
    }
  }

  lemma {:induction false} ToolUsesAreSilent(parse: Parser, blocks: seq<Block>, calls: seq<ToolCall>)
    ensures BlockTexts(blocks + ToolUses(parse, calls)) == BlockTexts(blocks)
  {
    if calls == [] {
      assert blocks + ToolUses(parse, calls) == blocks;
    } else {
      var init := calls[..|calls| - 1];
      ToolUsesAreSilent(parse, blocks, init);
      var all := blocks + ToolUses(parse, calls);
      assert all[..|all| - 1] == blocks + ToolUses(parse, init);
    }
  }

  lemma ConvertContentKeepsText(c: ChatContent)
    ensures TextOnly(ConvertContent(c)) == TextContent(c)
  {
    if c.Parts? {
      PartBlocksKeepText(c.parts);
      FromBlocksKeepsText(PartBlocks(c.parts));
    }
  }

  lemma ToolMessageIsSilent(block: Block)
    requires block.ToolResult?
    ensures TextOnly(Blocks([block])) == ""
  {
    assert [block][..0] == [];
    assert BlockTexts([block]) == BlockTexts([block][..0]) + "";
  }

  lemma AssistantKeepsText(parse: Parser, text: string, calls: seq<ToolCall>)
    ensures TextOnly(FromBlocks((if text == "" then [] else [TextBlock(text)]) + ToolUses(parse, calls))) == text
  {
    var head := if text == "" then [] else [TextBlock(text)];
    ToolUsesAreSilent(parse, head, calls);
    FromBlocksKeepsText(head + ToolUses(parse, calls));
    if head != [] {
      assert head[..0] == [];
    }
  }

  lemma ConvertMessageKeepsText(parse: Parser, m: ChatMessage)
    ensures ConvertMessage(parse, m).role == SpokenRole(m)
    ensures TextOnly(ConvertMessage(parse, m).content) == SpokenText(m)
  {
    ConvertContentKeepsText(m.content);
    if m.role == "tool" {
      ToolMessageIsSilent(ToolResult(m.toolCallId.GetOr(""), Some(ConvertContent(m.content)), None));
    } else if m.role == "assistant" && m.toolCalls.Some? {
      AssistantKeepsText(parse, TextContent(m.content), m.toolCalls.value);
    }
  }

  function SpokenTexts(ms: seq<ChatMessage>): seq<string> {
    seq(|ms|, i requires 0 <= i < |ms| => SpokenText(ms[i]))
  }

  /** Conversion keeps who spoke and what was said, message by message. */
  lemma ConversionKeepsTurns(parse: Parser, ms: seq<ChatMessage>)
    ensures var converted := ConvertAllMessages(parse, ms);
            && |converted| == |ms|
            && Texts(converted) == SpokenTexts(ms)
            && forall i :: 0 <= i < |ms| ==> converted[i].role == SpokenRole(ms[i])
  {
    forall i | 0 <= i < |ms|
      ensures ConvertMessage(parse, ms[i]).role == SpokenRole(ms[i])
      ensures TextOnly(ConvertMessage(parse, ms[i]).content) == SpokenText(ms[i])
    {
      ConvertMessageKeepsText(parse, ms[i]);
    }
  }

  lemma CollapseKeepsText(run: seq<Message>)
    requires run != []
    ensures Collapse(run).role == run[0].role
    ensures TextOnly(Collapse(run).content) == Join(Texts(run), "\n\n")
  {
  }

  lemma MergedRunByRun(ms: seq<Message>)
    ensures var runs, messages := Runs(ms), Merged(ms);
            && Grouped(runs)
            && var dropped := if runs != [] && runs[0][0].role == "assistant" then 1 else 0;
               && |messages| == |runs| - dropped
               && forall k :: 0 <= k < |messages| ==>
                    && messages[k].role == runs[k + dropped][0].role
                    && TextOnly(messages[k].content) == Join(Texts(runs[k + dropped]), "\n\n")
  {
    RunsGroup(ms);
    var runs := Runs(ms);
    forall i | 0 <= i < |runs|
      ensures Collapse(runs[i]).role == runs[i][0].role
      ensures TextOnly(Collapse(runs[i]).content) == Join(Texts(runs[i]), "\n\n")
    {
      CollapseKeepsText(runs[i]);
    }
  }

  /** Text preservation, run by run: cut the spoken messages into maximal runs of one speaker; the
      request carries one message per run with that speaker and the run's texts joined by blank
      lines, except that a leading assistant run is dropped. */
  lemma RequestKeepsTextRunByRun(parse: Parser, request: seq<ChatMessage>) returns (runs: seq<seq<Message>>)
    ensures var spoken, messages := Spoken(request), Merged(ConvertAllMessages(parse, Spoken(request)));
            && Grouped(runs)
            && |Concat(runs)| == |spoken|
            && Texts(Concat(runs)) == SpokenTexts(spoken)
            && (forall i :: 0 <= i < |spoken| ==> Concat(runs)[i].role == SpokenRole(spoken[i]))
            && var dropped := if runs != [] && runs[0][0].role == "assistant" then 1 else 0;
               && |messages| == |runs| - dropped
               && forall k :: 0 <= k < |messages| ==>
                    && messages[k].role == runs[k + dropped][0].role
                    && TextOnly(messages[k].content) == Join(Texts(runs[k + dropped]), "\n\n")
  {
    var converted := ConvertAllMessages(parse, Spoken(request));
    runs := Runs(converted);
    RunsGroup(converted);
    ConversionKeepsTurns(parse, Spoken(request));
    MergedRunByRun(converted);
  }
}
