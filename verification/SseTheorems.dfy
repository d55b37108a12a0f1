/** What the event-stream relay guarantees on every input. */
module SseTheorems {
  import opened Wrappers
  import opened Json
  import opened Text
  import opened SseRelay
  import Usage

  // ---------------------------------------------------------------- chunking

  /** The texts, and the bytes, that arrive before the first transport error. */
  function Texts(items: seq<StreamItem>): seq<string> {
    if items == [] || items[0].Failed? then [] else [items[0].text] + Texts(items[1..])
  }

  function ByteRuns(items: seq<StreamItem>): seq<seq<bv8>> {
    if items == [] || items[0].Failed? then [] else [items[0].bytes] + ByteRuns(items[1..])
  }

  function FirstBytes(bytes: seq<bv8>): seq<bv8> {
    if |bytes| <= 65536 then bytes else bytes[..65536]
  }

  lemma ReceivingTwice(kind: UpstreamKind, parse: Parser, p: Progress, first: string, rest: string)
    ensures Residue(first + rest) == Residue(Residue(first) + rest)
    ensures OnLines(kind, parse, p, CompleteLines(first + rest)) ==
            OnLines(kind, parse, OnLines(kind, parse, p, CompleteLines(first)), CompleteLines(Residue(first) + rest))
  {
    LinesOfConcat(first, rest);
    OnLinesConcat(kind, parse, p, CompleteLines(first), CompleteLines(Residue(first) + rest));
  }

  /** The receive loop in closed form: it is one pass over the lines of the concatenated text. */
  lemma {:induction false} ReceiveAllIsOnePass(kind: UpstreamKind, parse: Parser, t: Task, items: seq<StreamItem>)
    requires '\n' !in t.buffer
    ensures var all := t.buffer + Concat(Texts(items));
            var t' := ReceiveAll(kind, parse, t, items);
            t'.buffer == Residue(all) && t'.progress == OnLines(kind, parse, t.progress, CompleteLines(all))
    decreases |items|
  {
    if items == [] || items[0].Failed? {
      NoLine(t.buffer);
      assert t.buffer + [] == t.buffer;
    } else {
      var text, rest := items[0].text, Concat(Texts(items[1..]));
      ReceiveAllIsOnePass(kind, parse, Receive(kind, parse, t, items[0].bytes, text), items[1..]);
      Assoc(t.buffer, text, rest);
      ReceivingTwice(kind, parse, t.progress, t.buffer + text, rest);
      assert Concat(Texts(items)) == text + rest;
    }
  }

  lemma KeepRawIsFirstBytes(seen: seq<bv8>, bytes: seq<bv8>)
    ensures KeepRaw(FirstBytes(seen), bytes) == FirstBytes(seen + bytes)
  {
  }

  lemma {:induction false} RawIsAPrefix(kind: UpstreamKind, parse: Parser, t: Task, items: seq<StreamItem>,
                                        seen: seq<bv8>)
    requires t.raw == FirstBytes(seen)
    ensures ReceiveAll(kind, parse, t, items).raw == FirstBytes(seen + Concat(ByteRuns(items)))
    decreases |items|
  {
    if items == [] || items[0].Failed? {
      assert seen + [] == seen;
    } else {
      var bytes := items[0].bytes;
      KeepRawIsFirstBytes(seen, bytes);
      RawIsAPrefix(kind, parse, Receive(kind, parse, t, bytes, items[0].text), items[1..], seen + bytes);
      assert seen + (bytes + Concat(ByteRuns(items[1..]))) == (seen + bytes) + Concat(ByteRuns(items[1..]));
    }
  }

  /** What the relay collects is a function of the concatenated text alone. */
  lemma CollectedFromWholeText(kind: UpstreamKind, parse: Parser, items: seq<StreamItem>)
    ensures var all := Concat(Texts(items));
            && ReceiveAll(kind, parse, IDLE, items).buffer == Residue(all)
            && Collect(kind, parse, items) ==
               Flush(kind, parse, OnLines(kind, parse, START, CompleteLines(all)), Residue(all))
    ensures ReceiveAll(kind, parse, IDLE, items).raw == FirstBytes(Concat(ByteRuns(items)))
  {
    ReceiveAllIsOnePass(kind, parse, IDLE, items);
    RawIsAPrefix(kind, parse, IDLE, items, []);
    assert "" + Concat(Texts(items)) == Concat(Texts(items));
    assert [] + Concat(ByteRuns(items)) == Concat(ByteRuns(items));
  }

  /** Chunking invariance: what is relayed, collected, counted, flushed, logged and recorded depends
      only on the concatenated text, on the concatenated bytes (of which the first 65536 are kept)
      and on whether the transport failed. */
  lemma ChunkingDoesNotMatter(kind: UpstreamKind, parse: Parser, a: seq<StreamItem>, b: seq<StreamItem>)
    requires Concat(Texts(a)) == Concat(Texts(b)) && Broken(a) == Broken(b)
    ensures ReceiveAll(kind, parse, IDLE, a).buffer == ReceiveAll(kind, parse, IDLE, b).buffer
    ensures StreamOutcome(kind, parse, a).raw == FirstBytes(Concat(ByteRuns(a)))
    ensures StreamOutcome(kind, parse, a).(raw := []) == StreamOutcome(kind, parse, b).(raw := [])
    ensures Concat(ByteRuns(a)) == Concat(ByteRuns(b)) ==>
            StreamOutcome(kind, parse, a) == StreamOutcome(kind, parse, b)
  {
    CollectedFromWholeText(kind, parse, a);
    CollectedFromWholeText(kind, parse, b);
    var p, broken := Collect(kind, parse, a), Broken(a);
    assert Collect(kind, parse, b) == p && Broken(b) == broken;
    OnlyRawDiffers(kind, p, broken, ReceiveAll(kind, parse, IDLE, a).raw, ReceiveAll(kind, parse, IDLE, b).raw);
  }

  lemma OnlyRawDiffers(kind: UpstreamKind, p: Progress, broken: bool, raw: seq<bv8>, raw': seq<bv8>)
    ensures OutcomeOf(kind, p, broken, raw).raw == raw
    ensures OutcomeOf(kind, p, broken, raw).(raw := []) == OutcomeOf(kind, p, broken, raw').(raw := [])
  {
  }

  // ---------------------------------------------------------------- what is collected

  /** Every relayed event carries the text of the chunk collected with it. */
  ghost predicate Paired(parse: Parser, p: Progress) {
    && |p.sent| == |p.chunks|
    && (forall i :: 0 <= i < |p.sent| ==> p.sent[i].Relayed? && parse(p.sent[i].data) == Some(p.chunks[i]))
    && (p.chunks == [] ==> p.content == "" && p.reasoning == "" && p.inputTokens == 0 && p.outputTokens == 0)
  }

  function ContentPart(kind: UpstreamKind, chunk: Value): string {
    if kind.Anthropic? then Nested(chunk, "delta", "text").GetOr("") + Nested(chunk, "content_block", "text").GetOr("")
    else FirstDelta(chunk, "content").GetOr("")
  }

  function ReasoningPart(kind: UpstreamKind, chunk: Value): string {
    if kind.Anthropic? then Nested(chunk, "delta", "thinking").GetOr("")
    else FirstDelta(chunk, "reasoning_content").GetOr("")
  }

  function Contents(kind: UpstreamKind, chunks: seq<Value>): seq<string> {
    seq(|chunks|, i requires 0 <= i < |chunks| => ContentPart(kind, chunks[i]))
  }

  function Reasonings(kind: UpstreamKind, chunks: seq<Value>): seq<string> {
    seq(|chunks|, i requires 0 <= i < |chunks| => ReasoningPart(kind, chunks[i]))
  }

  ghost predicate Accumulated(kind: UpstreamKind, p: Progress) {
    && p.content == Concat(Contents(kind, p.chunks))
    && p.reasoning == Concat(Reasonings(kind, p.chunks))
  }

  lemma PartsOfSnoc(kind: UpstreamKind, chunks: seq<Value>, json: Value)
    ensures Concat(Contents(kind, chunks + [json])) == Concat(Contents(kind, chunks)) + ContentPart(kind, json)
    ensures Concat(Reasonings(kind, chunks + [json])) == Concat(Reasonings(kind, chunks)) + ReasoningPart(kind, json)
  {
    assert Contents(kind, chunks + [json]) == Contents(kind, chunks) + [ContentPart(kind, json)];
    ConcatSnoc(Contents(kind, chunks), ContentPart(kind, json));
    assert Reasonings(kind, chunks + [json]) == Reasonings(kind, chunks) + [ReasoningPart(kind, json)];
    ConcatSnoc(Reasonings(kind, chunks), ReasoningPart(kind, json));
  }

  lemma RelayKeeps(kind: UpstreamKind, parse: Parser, p: Progress, q: Progress, json: Value, name: Option<string>,
                   data: string)
    requires Paired(parse, p) && Accumulated(kind, p) && parse(data) == Some(json)
    requires q.chunks == p.chunks && q.sent == p.sent
    requires q.content == p.content + ContentPart(kind, json) && q.reasoning == p.reasoning + ReasoningPart(kind, json)
    ensures Paired(parse, Relay(q, name, data, json)) && Accumulated(kind, Relay(q, name, data, json))
  {
    PartsOfSnoc(kind, p.chunks, json);
  }

  lemma AnthropicEventKeeps(parse: Parser, p: Progress, data: string, json: Value)
    requires Paired(parse, p) && Accumulated(Anthropic, p) && parse(data) == Some(json)
    ensures Paired(parse, AnthropicEvent(p, data, json)) && Accumulated(Anthropic, AnthropicEvent(p, data, json))
  {
    var q := AnthropicCounters(p, json).(
      content := p.content + ContentPart(Anthropic, json),
      reasoning := p.reasoning + ReasoningPart(Anthropic, json));
    RelayKeeps(Anthropic, parse, p, q, json, p.eventName, data);
    assert AnthropicEvent(p, data, json) == Relay(q, p.eventName, data, json);
  }

  lemma OpenAiDataKeeps(parse: Parser, p: Progress, data: string)
    requires Paired(parse, p) && Accumulated(OpenAi, p)
    ensures Paired(parse, OpenAiData(parse, p, data, true)) && Accumulated(OpenAi, OpenAiData(parse, p, data, true))
  {
    if data != "[DONE]" && parse(data).Some? {
      var json := parse(data).value;
      var q :=
          p.(content := p.content + ContentPart(OpenAi, json), reasoning := p.reasoning + ReasoningPart(OpenAi, json));
      RelayKeeps(OpenAi, parse, p, q, json, None, data);
    }
  }

  lemma OneLineKeeps(kind: UpstreamKind, parse: Parser, p: Progress, line: string)
    requires Paired(parse, p) && Accumulated(kind, p)
    ensures Paired(parse, OnLine(kind, parse, p, line)) && Accumulated(kind, OnLine(kind, parse, p, line))
  {
    if kind.Anthropic? {
      var data := Join(p.dataLines, "\n");
      if parse(data).Some? {
        AnthropicEventKeeps(parse, p, data, parse(data).value);
      }
    } else if "data: " <= line {
      OpenAiDataKeeps(parse, p, line[6..]);
    }
  }

  lemma {:induction false} LinesKeep(kind: UpstreamKind, parse: Parser, p: Progress, lines: seq<string>)
    requires Paired(parse, p) && Accumulated(kind, p)
    ensures Paired(parse, OnLines(kind, parse, p, lines)) && Accumulated(kind, OnLines(kind, parse, p, lines))
    decreases |lines|
  {
    if lines == [] {
    } else {
      OneLineKeeps(kind, parse, p, lines[0]);
      LinesKeep(kind, parse, OnLine(kind, parse, p, lines[0]), lines[1..]);
    }
  }

  /** The flush keeps the pairing, and for OpenAI streams the content; it only appends. */
  ghost predicate Flushed(kind: UpstreamKind, parse: Parser, p: Progress, q: Progress) {
    && Paired(parse, q)
    && p.chunks <= q.chunks && p.reasoning == q.reasoning && (p.ended ==> q.ended)
    && (kind.OpenAi? ==> q.content == Concat(Contents(kind, q.chunks)))
    && (kind.Anthropic? ==> q.content == p.content)
  }

  lemma FlushLineKeeps(kind: UpstreamKind, parse: Parser, p: Progress, q: Progress, line: string)
    requires Flushed(kind, parse, p, q)
    ensures Flushed(kind, parse, p, FlushLine(kind, parse, q, line))
  {
    var trimmed := Trim(line);
    if kind.OpenAi? && "data: " <= trimmed && parse(trimmed[6..]).Some? {
      PartsOfSnoc(kind, q.chunks, parse(trimmed[6..]).value);
    }
  }

  lemma {:induction false} FlushLinesKeep(kind: UpstreamKind, parse: Parser, p: Progress, q: Progress,
                                          lines: seq<string>)
    requires Flushed(kind, parse, p, q)
    ensures Flushed(kind, parse, p, FlushLines(kind, parse, q, lines))
    decreases |lines|
  {
    if lines == [] {
    } else {
      FlushLineKeeps(kind, parse, p, q, lines[0]);
      FlushLinesKeep(kind, parse, p, FlushLine(kind, parse, q, lines[0]), lines[1..]);
    }
  }

  lemma FlushKeeps(kind: UpstreamKind, parse: Parser, p: Progress, buffer: string)
    requires Paired(parse, p) && Accumulated(kind, p)
    ensures Flushed(kind, parse, p, Flush(kind, parse, p, buffer))
  {
    if Trim(buffer) != "" && !p.ended {
      FlushLinesKeep(kind, parse, p, p, Lines(Trim(buffer)));
    }
  }

  lemma CollectedIsPaired(kind: UpstreamKind, parse: Parser, items: seq<StreamItem>)
    ensures var t := ReceiveAll(kind, parse, IDLE, items);
            Accumulated(kind, t.progress) && Flushed(kind, parse, t.progress, Collect(kind, parse, items))
  {
    var t := ReceiveAll(kind, parse, IDLE, items);
    ReceiveAllIsOnePass(kind, parse, IDLE, items);
    var lines := CompleteLines("" + Concat(Texts(items)));
    assert t.progress == OnLines(kind, parse, START, lines);
    LinesKeep(kind, parse, START, lines);
    FlushKeeps(kind, parse, t.progress, t.buffer);
  }

  // ---------------------------------------------------------------- how a stream ends

  lemma NothingRelayedNothingCounted(kind: UpstreamKind, parse: Parser, p: Progress)
    requires Paired(parse, p) && p.chunks == []
    ensures StreamUsage(kind, p) == Usage.Usage(0, 0, 0)
  {
  }

  /** The two facts about JSON texts that keep `[DONE]` apart from every other payload: it does not
      parse, and what the gateway prints as JSON does. */
  ghost predicate MarkerIsNotJson(parse: Parser, toText: Printer) {
    parse("[DONE]").None? && parse(toText(FINISH_JSON)).Some? && parse(toText(INTERRUPTED_JSON)).Some?
  }

  /** The three ways to close a stream, each with its exact condition. */
  lemma ClosingIsExact(parse: Parser, p: Progress, broken: bool)
    requires Paired(parse, p)
    ensures var closing := Closing(p, broken);
            && closing in {[Done], [Interrupted, Done], [Finish, Done]}
            && (closing == [Interrupted, Done] <==> p.chunks == [] && !p.ended)
            && (closing == [Finish, Done] <==> p.chunks != [] && !p.ended && broken)
  {
    assert [Interrupted, Done][0] != [Finish, Done][0];
    assert |[Done]| != |[Finish, Done]| && |[Done]| != |[Interrupted, Done]|;
  }

  /** `[DONE]` comes once, as the last event, whatever the upstream sent. */
  lemma DoneIsLastAndOnce(parse: Parser, toText: Printer, p: Progress, broken: bool)
    requires Paired(parse, p) && MarkerIsNotJson(parse, toText)
    ensures var sent := p.sent + Closing(p, broken);
            && |sent| > |p.chunks|
            && forall i :: 0 <= i < |sent| ==> (sent[i].Payload(toText) == "[DONE]" <==> i == |sent| - 1)
  {
    var closing := Closing(p, broken);
    var sent := p.sent + closing;
    forall i | 0 <= i < |sent| ensures sent[i].Payload(toText) == "[DONE]" <==> i == |sent| - 1 {
      if i < |p.sent| {
        assert sent[i] == p.sent[i];
      } else {
        assert sent[i] == closing[i - |p.sent|];
      }
    }
  }

  /** Every run that is not given up sends `[DONE]` once, as its last event, after one event per collected
      chunk. The error event stands for "nothing relayed, no normal end", the synthetic finish chunk for "something
      relayed, no normal end, transport error". */
  lemma EveryStreamEndsOnce(kind: UpstreamKind, parse: Parser, toText: Printer, items: seq<StreamItem>)
    requires MarkerIsNotJson(parse, toText)
    ensures var out := StreamOutcome(kind, parse, items);
            var n, p := |out.chunks|, Collect(kind, parse, items);
            && n < |out.sent|
            && (forall i :: 0 <= i < |out.sent| ==> (out.sent[i].Payload(toText) == "[DONE]" <==> i == |out.sent| - 1))
            && (forall i :: 0 <= i < n ==> out.sent[i].Relayed? && parse(out.sent[i].data) == Some(out.chunks[i]))
            && out.sent[n..] in {[Done], [Interrupted, Done], [Finish, Done]}
            && (out.sent[n..] == [Interrupted, Done] <==> out.chunks == [] && !p.ended)
            && (out.sent[n..] == [Finish, Done] <==> out.chunks != [] && !p.ended && Broken(items))
  {
    var p := Collect(kind, parse, items);
    CollectedIsPaired(kind, parse, items);
    DoneIsLastAndOnce(parse, toText, p, Broken(items));
    ClosingIsExact(parse, p, Broken(items));
    assert (p.sent + Closing(p, Broken(items)))[|p.sent|..] == Closing(p, Broken(items));
  }

  /** The log says "failed" iff nothing was relayed; then no tokens are counted or recorded,
      otherwise exactly the logged total is recorded with the limiters. */
  lemma FailedIffNothingRelayed(kind: UpstreamKind, parse: Parser, items: seq<StreamItem>)
    ensures var out := StreamOutcome(kind, parse, items);
            && out.status == (if out.chunks == [] then "failed" else "success")
            && out.failedReason == (if out.chunks == [] then Some("Empty stream response") else None)
            && (out.chunks == [] ==> out.totalTokens == 0 && out.recorded.None?)
            && (out.chunks != [] ==> out.recorded == Some(out.totalTokens))
  {
    CollectedIsPaired(kind, parse, items);
    FailedIffNoChunk(kind, parse, Collect(kind, parse, items), Broken(items), ReceiveAll(kind, parse, IDLE, items).raw);
  }

  lemma FailedIffNoChunk(kind: UpstreamKind, parse: Parser, p: Progress, broken: bool, raw: seq<bv8>)
    requires Paired(parse, p)
    ensures var out := OutcomeOf(kind, p, broken, raw);
            && out.status == (if out.chunks == [] then "failed" else "success")
            && out.failedReason == (if out.chunks == [] then Some("Empty stream response") else None)
            && (out.chunks == [] ==> out.totalTokens == 0 && out.recorded.None?)
            && (out.chunks != [] ==> out.recorded == Some(out.totalTokens))
  {
    if p.chunks == [] {
      NothingRelayedNothingCounted(kind, parse, p);
    }
    assert "failed" != "success" by {
      assert "failed"[0] != "success"[0];
    }
  }
}
