/** What the chunks converted from a stream of Anthropic events amount to
    (src/proxy/upstream.rs, `convert_anthropic_stream_to_openai`). */
module AnthropicEvents {
  import opened Wrappers
  import opened Json
  import opened Text
  import opened ToolCalls
  import opened SseRelay
  import opened SseTheorems
  import opened SseBody
  import opened AnthropicConvert
  import Usage

  // ---------------------------------------------------------------- the stream and its conversion

  /** One event of a stream, with any payload, and the time at which it is converted. */
  datatype StreamEvent = StreamEvent(name: string, data: Value, at: int)

  /** The code reads the clock for every event. */
  function OneConverted(h: Header, e: StreamEvent): seq<Value> {
    ConvertEvent(h.(created := e.at), e.name, e.data)
  }

  function Converted(h: Header, events: seq<StreamEvent>): seq<seq<Value>> {
    seq(|events|, i requires 0 <= i < |events| => OneConverted(h, events[i]))
  }

  /** The chunks the client receives for a stream of events. */
  function ConvertAll(h: Header, events: seq<StreamEvent>): seq<Value> {
    Concat(Converted(h, events))
  }

  lemma ConvertAllSnoc(h: Header, events: seq<StreamEvent>, e: StreamEvent)
    ensures ConvertAll(h, events + [e]) == ConvertAll(h, events) + OneConverted(h, e)
  {
    assert Converted(h, events + [e]) == Converted(h, events) + [OneConverted(h, e)];
    ConcatSnoc(Converted(h, events), OneConverted(h, e));
  }

  // ---------------------------------------------------------------- what chunks amount to

  /** What the reassembly loop reads off a list of chunks, and the text for which tokens are estimated. */
  datatype Gist = Gist(content: string, reasoning: string, text: string, frags: seq<Fragment>) {
    function Then(g: Gist): Gist {
      Gist(content + g.content, reasoning + g.reasoning, text + g.text, frags + g.frags)
    }
  }

  const NOTHING := Gist("", "", "", [])

  function Total(gs: seq<Gist>): Gist {
    if gs == [] then NOTHING else Total(gs[..|gs| - 1]).Then(gs[|gs| - 1])
  }

  lemma ThenIsAssociative(a: Gist, b: Gist, c: Gist)
    ensures a.Then(b).Then(c) == a.Then(b.Then(c))
    ensures a.Then(NOTHING) == a && NOTHING.Then(a) == a
  {
    assert (a.content + b.content) + c.content == a.content + (b.content + c.content);
    assert (a.reasoning + b.reasoning) + c.reasoning == a.reasoning + (b.reasoning + c.reasoning);
    assert (a.text + b.text) + c.text == a.text + (b.text + c.text);
    assert (a.frags + b.frags) + c.frags == a.frags + (b.frags + c.frags);
  }

  lemma {:induction false} TotalOfConcat(a: seq<Gist>, b: seq<Gist>)
    ensures Total(a + b) == Total(a).Then(Total(b))
  {
    if b == [] {
      assert a + b == a;
      ThenIsAssociative(Total(a), NOTHING, NOTHING);
    } else {
      var b', last := b[..|b| - 1], b[|b| - 1];
      assert (a + b)[..|a + b| - 1] == a + b';
      TotalOfConcat(a, b');
      ThenIsAssociative(Total(a), Total(b'), last);
    }
  }

  function ChunkGist(chunk: Value): Gist {
    Gist(ContentPart(OpenAi, chunk), ReasoningPart(OpenAi, chunk), Usage.ChunkText(chunk),
         FragmentsOf(ToolDeltas(chunk)))
  }

  function ChunkGists(chunks: seq<Value>): seq<Gist> {
    seq(|chunks|, i requires 0 <= i < |chunks| => ChunkGist(chunks[i]))
  }

  function GistOf(chunks: seq<Value>): Gist {
    Total(ChunkGists(chunks))
  }

  lemma ChunkGistsConcat(a: seq<Value>, b: seq<Value>)
    ensures ChunkGists(a + b) == ChunkGists(a) + ChunkGists(b)
  {
  }

  lemma GistOfConcat(a: seq<Value>, b: seq<Value>)
    ensures GistOf(a + b) == GistOf(a).Then(GistOf(b))
  {
    ChunkGistsConcat(a, b);
    TotalOfConcat(ChunkGists(a), ChunkGists(b));
  }

  lemma {:induction false} GistIsTheFold(chunks: seq<Value>)
    ensures GistOf(chunks) ==
            Gist(Concat(Contents(OpenAi, chunks)), Concat(Reasonings(OpenAi, chunks)), Usage.StreamText(chunks),
                 AllFragments(chunks))
  {
    if chunks == [] {
    } else {
      var init, last := chunks[..|chunks| - 1], chunks[|chunks| - 1];
      GistIsTheFold(init);
      PartsOfSnoc(OpenAi, init, last);
      SplitLast(chunks);
      GistOfConcat(init, [last]);
      OneChunk(last);
    }
  }

  lemma TotalOfOne(g: Gist)
    ensures Total([g]) == g
  {
    assert [g][..0] == [];
    ThenIsAssociative(g, NOTHING, NOTHING);
  }

  lemma OneChunk(chunk: Value)
    ensures GistOf([chunk]) == ChunkGist(chunk)
  {
    assert ChunkGists([chunk]) == [ChunkGist(chunk)];
    TotalOfOne(ChunkGist(chunk));
  }

  lemma NoChunks()
    ensures GistOf([]) == NOTHING
  {
    assert ChunkGists([]) == [];
  }

  // ---------------------------------------------------------------- reading single chunks

  /** What a chunk with one choice amounts to depends on the delta alone. */
  function ChoiceGist(delta: Value): Gist {
    var content, reasoning := delta.GetStr("content").GetOr(""), delta.GetStr("reasoning_content").GetOr("");
    Gist(content, reasoning, content + reasoning, FragmentsOf(delta.GetArray("tool_calls").GetOr([])))
  }

  function OneChoice(delta: Value, finish: Value): Value {
    Obj(map["index" := Int(0), "finish_reason" := finish, "delta" := delta])
  }

  lemma TextOfOne(choice: Value)
    ensures Usage.ChoicesText([choice]) == Usage.DeltaText(choice)
  {
    assert [choice][..0] == [] && "" + Usage.DeltaText(choice) == Usage.DeltaText(choice);
  }

  lemma ChoiceIsRead(chunk: Value, delta: Value, finish: Value)
    requires chunk.Get("choices") == Some(Arr([OneChoice(delta, finish)]))
    ensures GistOf([chunk]) == ChoiceGist(delta)
  {
    var choice := OneChoice(delta, finish);
    TextOfOne(choice);
    assert choice.Get("delta") == Some(delta);
    OneChunk(chunk);
  }

  lemma ChunkIsRead(h: Header, delta: Value, finish: Value)
    ensures GistOf([Obj(ChoiceChunk(h, delta, finish))]) == ChoiceGist(delta)
  {
    var chunk := Obj(ChoiceChunk(h, delta, finish));
    assert OneChoice(delta, finish) == Obj(map["index" := Int(0), "finish_reason" := finish, "delta" := delta]);
    assert chunk.Get("choices") == Some(Arr([OneChoice(delta, finish)]));
    ChoiceIsRead(chunk, delta, finish);
  }

  lemma TextDelta(delta: Value, text: string)
    requires delta.GetStr("content") == Some(text)
    requires delta.Get("reasoning_content").None? && delta.Get("tool_calls").None?
    ensures ChoiceGist(delta) == Gist(text, "", text, [])
  {
    assert text + "" == text;
  }

  lemma ThinkingDelta(delta: Value, text: string)
    requires delta.GetStr("reasoning_content") == Some(text)
    requires delta.Get("content").None? && delta.Get("tool_calls").None?
    ensures ChoiceGist(delta) == Gist("", text, text, [])
  {
    assert "" + text == text;
  }

  lemma CallDelta(delta: Value, tc: Value)
    requires delta.GetArray("tool_calls") == Some([tc])
    requires delta.Get("content").None? && delta.Get("reasoning_content").None?
    ensures ChoiceGist(delta) == Gist("", "", "", [FragmentOf(tc)])
  {
    assert FragmentsOf([tc]) == [FragmentOf(tc)];
  }

  lemma ContentChunk(h: Header, text: string)
    ensures GistOf([DeltaChunk(h, map["content" := Str(text)])]) == Gist(text, "", text, [])
  {
    var delta := Obj(map["content" := Str(text)]);
    ChunkIsRead(h, delta, Null);
    TextDelta(delta, text);
  }

  lemma ReasoningChunk(h: Header, text: string)
    ensures GistOf([DeltaChunk(h, map["reasoning_content" := Str(text)])]) == Gist("", text, text, [])
  {
    var delta := Obj(map["reasoning_content" := Str(text)]);
    ChunkIsRead(h, delta, Null);
    ThinkingDelta(delta, text);
  }

  lemma ToolChunk(h: Header, tc: Value)
    ensures GistOf([DeltaChunk(h, map["tool_calls" := Arr([tc])])]) == Gist("", "", "", [FragmentOf(tc)])
  {
    var delta := Obj(map["tool_calls" := Arr([tc])]);
    ChunkIsRead(h, delta, Null);
    CallDelta(delta, tc);
  }

  // ---------------------------------------------------------------- what an event says

  /** What the conversion reads of a block event: the index, and the block or the delta. */
  datatype Signal = Opens(index: int, block: Value) | Grows(index: int, delta: Value)

  function RawIndex(data: Value): int {
    data.GetI64("index").GetOr(0)
  }

  /** All other events say nothing about the blocks: message events, ends of blocks, pings, unknown ones. */
  function SignalOf(e: StreamEvent): seq<Signal> {
    if e.name == "content_block_start" then [Opens(RawIndex(e.data), e.data.Get("content_block").GetOr(Null))]
    else if e.name == "content_block_delta" then [Grows(RawIndex(e.data), e.data.Get("delta").GetOr(Null))]
    else []
  }

  function Signals(events: seq<StreamEvent>): seq<Signal> {
    if events == [] then [] else Signals(events[..|events| - 1]) + SignalOf(events[|events| - 1])
  }

  function Kind(v: Value): string {
    v.GetStr("type").GetOr("")
  }

  /** The text or the thinking that comes with the start of a block. */
  function OpeningText(block: Value): string {
    if Kind(block) in ["thinking", "tool_use"] then "" else block.GetStr("text").GetOr("")
  }

  function OpeningThinking(block: Value): string {
    if Kind(block) == "thinking" then block.GetStr("thinking").GetOr("") else ""
  }

  function DeltaText(delta: Value): string {
    if Kind(delta) in ["thinking_delta", "input_json_delta"] then "" else delta.GetStr("text").GetOr("")
  }

  function DeltaThinking(delta: Value): string {
    if Kind(delta) == "thinking_delta" then delta.GetStr("thinking").GetOr("") else ""
  }

  function DeltaPieces(delta: Value): seq<string> {
    if Kind(delta) == "input_json_delta" then [delta.GetStr("partial_json").GetOr("")] else []
  }

  /** The index a fragment arrives with: cast to 32 bits, and a negative one is read as zero. */
  function FragmentIndex(index: int): (k: nat)
    ensures 0 <= index < 0x8000_0000 ==> k == index
  {
    if AsI32(index) >= 0 then AsI32(index) else 0
  }

  function OpeningFragments(k: nat, block: Value): seq<Fragment> {
    if Kind(block) == "tool_use" then
      [Fragment(k, Some(block.GetStr("id").GetOr("")), Some(block.GetStr("name").GetOr("")), Some(""))]
    else []
  }

  function DeltaFragments(k: nat, delta: Value): seq<Fragment> {
    if Kind(delta) == "input_json_delta" then [Fragment(k, None, None, Some(delta.GetStr("partial_json").GetOr("")))]
    else []
  }

  function SignalGist(s: Signal): Gist {
    match s
    case Opens(i, block) =>
      Gist(OpeningText(block), OpeningThinking(block), OpeningText(block) + OpeningThinking(block),
           OpeningFragments(FragmentIndex(i), block))
    case Grows(i, delta) =>
      Gist(DeltaText(delta), DeltaThinking(delta), DeltaText(delta) + DeltaThinking(delta),
           DeltaFragments(FragmentIndex(i), delta))
  }

  function SignalGists(signals: seq<Signal>): seq<Gist> {
    seq(|signals|, i requires 0 <= i < |signals| => SignalGist(signals[i]))
  }

  lemma ToolStartReads(i: int, id: string, name: string)
    ensures FragmentOf(ToolStart(AsI32(i), id, name)) == Fragment(FragmentIndex(i), Some(id), Some(name), Some(""))
  {
    var tc := ToolStart(AsI32(i), id, name);
    assert tc.Get("index") == Some(Int(AsI32(i))) && tc.GetStr("id") == Some(id);
    assert tc.Get("function") == Some(Obj(map["name" := Str(name), "arguments" := Str("")]));
  }

  lemma ToolDeltaReads(i: int, part: string)
    ensures FragmentOf(ToolDelta(AsI32(i), part)) == Fragment(FragmentIndex(i), None, None, Some(part))
  {
    var tc := ToolDelta(AsI32(i), part);
    assert tc.Get("index") == Some(Int(AsI32(i))) && tc.Get("id").None?;
    assert tc.Get("function") == Some(Obj(map["arguments" := Str(part)]));
  }

  lemma OpeningReads(h: Header, data: Value)
    ensures GistOf(BlockStart(h, data)) == SignalGist(Opens(RawIndex(data), data.Get("content_block").GetOr(Null)))
  {
    var block := data.Get("content_block").GetOr(Null);
    var text, thinking := OpeningText(block), OpeningThinking(block);
    assert text + "" == text && "" + thinking == thinking;
    NoChunks();
    if Kind(block) == "thinking" {
      ReasoningChunk(h, thinking);
    } else if Kind(block) == "tool_use" {
      var id, name := block.GetStr("id").GetOr(""), block.GetStr("name").GetOr("");
      ToolStartReads(RawIndex(data), id, name);
      ToolChunk(h, ToolStart(EventIndex(data), id, name));
    } else {
      ContentChunk(h, text);
    }
  }

  lemma GrowthReads(h: Header, data: Value)
    ensures GistOf(BlockDelta(h, data)) == SignalGist(Grows(RawIndex(data), data.Get("delta").GetOr(Null)))
  {
    var delta := data.Get("delta").GetOr(Null);
    var text, thinking := DeltaText(delta), DeltaThinking(delta);
    assert text + "" == text && "" + thinking == thinking;
    NoChunks();
    if Kind(delta) == "thinking_delta" {
      ReasoningChunk(h, thinking);
    } else if Kind(delta) == "input_json_delta" {
      var part := delta.GetStr("partial_json").GetOr("");
      ToolDeltaReads(RawIndex(data), part);
      ToolChunk(h, ToolDelta(EventIndex(data), part));
    } else {
      ContentChunk(h, text);
    }
  }

  // ---------------------------------------------------------------- message events

  lemma RoleReads(h: Header)
    ensures GistOf([DeltaChunk(h, map["role" := Str("assistant"), "content" := Str("")])]) == NOTHING
  {
    var delta := Obj(map["role" := Str("assistant"), "content" := Str("")]);
    ChunkIsRead(h, delta, Null);
    TextDelta(delta, "");
  }

  lemma FinishReads(chunk: Value, finish: Value)
    requires chunk.Get("choices") == Some(Arr([OneChoice(Obj(map[]), finish)]))
    ensures GistOf([chunk]) == NOTHING
  {
    ChoiceIsRead(chunk, Obj(map[]), finish);
    assert FragmentsOf([]) == [];
  }

  function StopReason(data: Value): string {
    data.Get("delta").GetOr(Null).GetStr("stop_reason").GetOr("stop")
  }

  function StopChunk(h: Header): Value {
    Obj(ChoiceChunk(h, Obj(map[]), Str("stop")))
  }

  lemma MessageDeltaChoices(h: Header, data: Value)
    ensures MessageDelta(h, data).Get("choices") ==
            Some(Arr([OneChoice(Obj(map[]), Str(FinishReason(StopReason(data))))]))
    ensures MessageDelta(h, data).Get("usage") == Some(ReportedUsage(data))
  {
  }

  lemma StopChunkChoices(h: Header)
    ensures StopChunk(h).Get("choices") == Some(Arr([OneChoice(Obj(map[]), Str("stop"))]))
    ensures StopChunk(h).Get("usage") == None
  {
  }

  lemma MessageReads(h: Header, e: StreamEvent)
    requires SignalOf(e) == []
    ensures GistOf(OneConverted(h, e)) == NOTHING
  {
    var timed := h.(created := e.at);
    NoChunks();
    if e.name == "message_start" {
      RoleReads(timed);
    } else if e.name == "message_delta" {
      MessageDeltaChoices(timed, e.data);
      FinishReads(MessageDelta(timed, e.data), Str(FinishReason(StopReason(e.data))));
    } else if e.name == "message_stop" {
      StopChunkChoices(timed);
      FinishReads(StopChunk(timed), Str("stop"));
    }
  }

  // ---------------------------------------------------------------- whole streams

  lemma OneEventReads(h: Header, e: StreamEvent)
    ensures GistOf(OneConverted(h, e)) == Total(SignalGists(SignalOf(e)))
  {
    var timed := h.(created := e.at);
    if SignalOf(e) == [] {
      assert SignalGists([]) == [];
      MessageReads(h, e);
    } else {
      var s := SignalOf(e)[0];
      assert SignalGists([s]) == [SignalGist(s)];
      TotalOfOne(SignalGist(s));
      OpeningReads(timed, e.data);
      GrowthReads(timed, e.data);
    }
  }

  lemma SignalsSnoc(events: seq<StreamEvent>, e: StreamEvent)
    ensures Signals(events + [e]) == Signals(events) + SignalOf(e)
  {
    assert (events + [e])[..|events|] == events;
  }

  lemma SignalGistsParts(a: seq<Signal>, b: seq<Signal>)
    ensures SignalGists(a + b) == SignalGists(a) + SignalGists(b)
  {
    forall i | 0 <= i < |a + b| ensures SignalGists(a + b)[i] == (SignalGists(a) + SignalGists(b))[i] {
      if i < |a| {
        assert (a + b)[i] == a[i];
      } else {
        assert (a + b)[i] == b[i - |a|];
      }
    }
  }

  lemma SignalGistsConcat(a: seq<Signal>, b: seq<Signal>)
    ensures Total(SignalGists(a + b)) == Total(SignalGists(a)).Then(Total(SignalGists(b)))
  {
    SignalGistsParts(a, b);
    TotalOfConcat(SignalGists(a), SignalGists(b));
  }

  /** What a stream amounts to: the texts, the thinking and the tool call fragments of its block events. */
  function StreamGist(events: seq<StreamEvent>): Gist {
    Total(SignalGists(Signals(events)))
  }

  lemma OneMoreEvent(h: Header, events: seq<StreamEvent>, e: StreamEvent)
    requires GistOf(ConvertAll(h, events)) == StreamGist(events)
    ensures GistOf(ConvertAll(h, events + [e])) == StreamGist(events + [e])
  {
    ConvertAllSnoc(h, events, e);
    GistOfConcat(ConvertAll(h, events), OneConverted(h, e));
    OneEventReads(h, e);
    SignalsSnoc(events, e);
    SignalGistsConcat(Signals(events), SignalOf(e));
  }

  /** Whatever the events, their payloads and their times: what the reassembly reads off the converted
      chunks is what the block events say. */
  lemma {:induction false} StreamReads(h: Header, events: seq<StreamEvent>)
    ensures GistOf(ConvertAll(h, events)) == StreamGist(events)
  {
    if events == [] {
      NoChunks();
      assert SignalGists([]) == [];
      assert Converted(h, events) == [];
    } else {
      var init, last := events[..|events| - 1], events[|events| - 1];
      SplitLast(events);
      StreamReads(h, init);
      OneMoreEvent(h, init, last);
    }
  }
}
