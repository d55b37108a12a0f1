/** The event-stream relay (src/proxy/handlers.rs, `handle_stream_response`). */
module SseRelay {
  import opened Wrappers
  import opened Json
  import opened Text
  import Usage

  datatype UpstreamKind = Anthropic | OpenAi

  /** An event sent to the client: one passed on from the upstream, or one of the gateway's own. */
  datatype Event =
    | Relayed(name: Option<string>, data: string)
    | Done
    | Finish
    | Interrupted
  {
    /** The text after `data: ` on the wire. */
    function Payload(toText: Printer): string {
      match this
      case Relayed(_, data) => data
      case Done => "[DONE]"
      case Finish => toText(FINISH_JSON)
      case Interrupted => toText(INTERRUPTED_JSON)
    }
  }

  const FINISH_JSON := Obj(map["choices" := Arr([Obj(map[
    "delta" := Obj(map[]), "finish_reason" := Str("stop"), "index" := Int(0)])])])

  const INTERRUPTED_JSON := Obj(map["error" := Obj(map[
    "message" := Str("Stream interrupted: connection to upstream was lost or timed out"),
    "type" := Str("upstream_error"),
    "code" := Str("stream_interrupted")])])

  const RAW_LIMIT: nat := 65536

  /** What the relay task knows after some complete lines; `sent` holds the events relayed so far. */
  datatype Progress = Progress(
    eventName: Option<string>, dataLines: seq<string>,
    chunks: seq<Value>, sent: seq<Event>,
    content: string, reasoning: string,
    inputTokens: int, outputTokens: int,
    ended: bool)

  const START := Progress(None, [], [], [], "", "", 0, 0, false)

  // ---------------------------------------------------------------- one line

  /** `choices[0].delta.<key>`, when it is a string. */
  function FirstDelta(json: Value, key: string): Option<string> {
    var choices :- json.Get("choices");
    var first :- choices.At(0);
    var delta :- first.Get("delta");
    delta.GetStr(key)
  }

  function InputTokens(json: Value): Option<int> {
    var message :- json.Get("message");
    var usage :- message.Get("usage");
    usage.GetI64("input_tokens")
  }

  function OutputTokens(json: Value): Option<int> {
    var usage :- json.Get("usage");
    usage.GetI64("output_tokens")
  }

  function Nested(json: Value, outer: string, inner: string): Option<string> {
    var v :- json.Get(outer);
    v.GetStr(inner)
  }

  function Relay(p: Progress, name: Option<string>, data: string, json: Value): Progress {
    p.(chunks := p.chunks + [json], sent := p.sent + [Relayed(name, data)])
  }

  /** Usage and end marker of one Anthropic event, by event name. */
  function AnthropicCounters(p: Progress, json: Value): Progress {
    if p.eventName == Some("message_start") then p.(inputTokens := InputTokens(json).GetOr(p.inputTokens))
    else if p.eventName == Some("message_delta") then p.(outputTokens := OutputTokens(json).GetOr(p.outputTokens))
    else if p.eventName == Some("message_stop") then p.(ended := true)
    else p
  }

  function AnthropicEvent(p: Progress, data: string, json: Value): Progress {
    var texts := Nested(json, "delta", "text").GetOr("") + Nested(json, "content_block", "text").GetOr("");
    var q := AnthropicCounters(p, json).(
      content := p.content + texts,
      reasoning := p.reasoning + Nested(json, "delta", "thinking").GetOr(""));
    Relay(q, p.eventName, data, json)
  }

  function AnthropicLine(parse: Parser, p: Progress, line: string): Progress {
    if "event: " <= line then p.(eventName := Some(line[7..]))
    else if "data: " <= line then p.(dataLines := p.dataLines + [line[6..]])
    else if line != "" then p
    else if p.dataLines == [] then p.(eventName := None)
    else
      var data := Join(p.dataLines, "\n");
      var json := parse(data);
      var q := if json.Some? then AnthropicEvent(p, data, json.value) else p;
      q.(eventName := None, dataLines := [])
  }

  /** The payload of one `data: ` line of an OpenAI stream. At the end of the stream
      (`live == false`) the code does not collect reasoning text. */
  function OpenAiData(parse: Parser, p: Progress, data: string, live: bool): Progress {
    if data == "[DONE]" then p.(ended := true)
    else
      var json := parse(data);
      if json.None? then p
      else
        var q := p.(
          content := p.content + FirstDelta(json.value, "content").GetOr(""),
          reasoning := p.reasoning + if live then FirstDelta(json.value, "reasoning_content").GetOr("") else "");
        Relay(q, None, data, json.value)
  }

  function OpenAiLine(parse: Parser, p: Progress, line: string): Progress {
    if "data: " <= line then OpenAiData(parse, p, line[6..], true) else p
  }

  function OnLine(kind: UpstreamKind, parse: Parser, p: Progress, line: string): Progress {
    if kind.Anthropic? then AnthropicLine(parse, p, line) else OpenAiLine(parse, p, line)
  }

  function OnLines(kind: UpstreamKind, parse: Parser, p: Progress, lines: seq<string>): Progress
    decreases |lines|
  {
    if lines == [] then p else OnLines(kind, parse, OnLine(kind, parse, p, lines[0]), lines[1..])
  }

  lemma {:induction false} OnLinesConcat(kind: UpstreamKind, parse: Parser, p: Progress, a: seq<string>, b: seq<string>)
    ensures OnLines(kind, parse, p, a + b) == OnLines(kind, parse, OnLines(kind, parse, p, a), b)
    decreases |a|
  {
    if a == [] {
      assert a + b == b;
    } else {
      assert (a + b)[1..] == a[1..] + b;
      OnLinesConcat(kind, parse, OnLine(kind, parse, p, a[0]), a[1..], b);
    }
  }

  // ---------------------------------------------------------------- one network chunk

  datatype StreamItem =
    | Data(bytes: seq<bv8>, text: string)
    | Failed(message: string)

  datatype Task = Task(buffer: string, progress: Progress, raw: seq<bv8>)

  const IDLE := Task("", START, [])

  function KeepRaw(raw: seq<bv8>, bytes: seq<bv8>): seq<bv8> {
    if |raw| < RAW_LIMIT then
      var remaining := RAW_LIMIT - |raw|;
      raw + if |bytes| > remaining then bytes[..remaining] else bytes
    else raw
  }

  function Receive(kind: UpstreamKind, parse: Parser, t: Task, bytes: seq<bv8>, text: string): Task {
    Task(Residue(t.buffer + text),
         OnLines(kind, parse, t.progress, CompleteLines(t.buffer + text)),
         KeepRaw(t.raw, bytes))
  }

  /** The receive loop; a transport error ends it. */
  function ReceiveAll(kind: UpstreamKind, parse: Parser, t: Task, items: seq<StreamItem>): Task
    decreases |items|
  {
    if items == [] || items[0].Failed? then t
    else ReceiveAll(kind, parse, Receive(kind, parse, t, items[0].bytes, items[0].text), items[1..])
  }

  lemma NoLineFound(s: string)
    requires Find(s, '\n') == |s|
    ensures CompleteLines(s) == [] && Residue(s) == s
  {
    assert s[..|s|] == s;
    NoLine(s);
  }

  lemma SplitAtNewline(s: string, i: nat)
    requires i < |s| && s[i] == '\n'
    ensures s == s[..i] + "\n" + s[i + 1..]
  {
  }

  lemma OnFirstLine(kind: UpstreamKind, parse: Parser, p: Progress, line: string, rest: string)
    requires '\n' !in line
    ensures Residue(line + "\n" + rest) == Residue(rest)
    ensures OnLines(kind, parse, p, CompleteLines(line + "\n" + rest)) ==
            OnLines(kind, parse, OnLine(kind, parse, p, StripCr(line)), CompleteLines(rest))
  {
    FirstLine(line, rest);
    assert ([StripCr(line)] + CompleteLines(rest))[1..] == CompleteLines(rest);
  }

  // ---------------------------------------------------------------- what the web framework accepts

  /** The event builder of the web framework gives up, and with it the task, on a carriage return in a field. */
  predicate Deliverable(e: Event) {
    e.Relayed? ==> '\r' !in e.data && (e.name.Some? ==> '\r' !in e.name.value)
  }

  predicate AllDeliverable(sent: seq<Event>) {
    forall i | 0 <= i < |sent| :: Deliverable(sent[i])
  }

  /** The events before the first one that is refused. */
  function Delivered(sent: seq<Event>): seq<Event> {
    if sent == [] || !Deliverable(sent[0]) then [] else [sent[0]] + Delivered(sent[1..])
  }

  lemma {:induction false} DeliveredOfPrefix(a: seq<Event>, b: seq<Event>)
    requires a <= b && !AllDeliverable(a)
    ensures Delivered(a) == Delivered(b) && !AllDeliverable(b)
  {
    var i :| 0 <= i < |a| && !Deliverable(a[i]);
    assert a[0] == b[0] && b[i] == a[i];
    if Deliverable(a[0]) {
      assert !Deliverable(a[1..][i - 1]);
      DeliveredOfPrefix(a[1..], b[1..]);
    }
  }

  lemma OneLineSends(kind: UpstreamKind, parse: Parser, p: Progress, line: string)
    ensures var q := OnLine(kind, parse, p, line); p.sent <= q.sent && |q.sent| <= |p.sent| + 1
  {
  }

  lemma {:induction false} LinesSend(kind: UpstreamKind, parse: Parser, p: Progress, lines: seq<string>)
    ensures p.sent <= OnLines(kind, parse, p, lines).sent
    decreases |lines|
  {
    if lines == [] {
    } else {
      OneLineSends(kind, parse, p, lines[0]);
      LinesSend(kind, parse, OnLine(kind, parse, p, lines[0]), lines[1..]);
    }
  }

  lemma {:induction false} ReceivingSends(kind: UpstreamKind, parse: Parser, t: Task, items: seq<StreamItem>)
    ensures t.progress.sent <= ReceiveAll(kind, parse, t, items).progress.sent
    decreases |items|
  {
    if items == [] || items[0].Failed? {
    } else {
      LinesSend(kind, parse, t.progress, CompleteLines(t.buffer + items[0].text));
      ReceivingSends(kind, parse, Receive(kind, parse, t, items[0].bytes, items[0].text), items[1..]);
    }
  }

  predicate LastRefused(sent: seq<Event>) {
    sent != [] && !Deliverable(sent[|sent| - 1])
  }

  /** One line at a time, it is enough to look at the last event. */
  lemma LastDecides(kind: UpstreamKind, parse: Parser, p: Progress, line: string, lines: seq<string>)
    requires AllDeliverable(p.sent)
    ensures var q := OnLine(kind, parse, p, line);
            var all := OnLines(kind, parse, q, lines).sent;
            && (AllDeliverable(q.sent) <==> !LastRefused(q.sent))
            && (LastRefused(q.sent) ==> q.sent <= all && !AllDeliverable(all))
  {
    var q := OnLine(kind, parse, p, line);
    OneLineSends(kind, parse, p, line);
    LinesSend(kind, parse, q, lines);
    if LastRefused(q.sent) {
      DeliveredOfPrefix(q.sent, OnLines(kind, parse, q, lines).sent);
    }
  }

  /** The inner `while let Some(newline_pos) = buffer.find('\n')` loop; it stops at a refused event. */
  method DrainBuffer(kind: UpstreamKind, parse: Parser, text: string, p: Progress)
    returns (buffer: string, q: Progress, gaveUp: bool)
    requires AllDeliverable(p.sent)
    ensures gaveUp <==> !AllDeliverable(OnLines(kind, parse, p, CompleteLines(text)).sent)
    ensures gaveUp ==> !AllDeliverable(q.sent) && q.sent <= OnLines(kind, parse, p, CompleteLines(text)).sent
    ensures !gaveUp ==> buffer == Residue(text) && q == OnLines(kind, parse, p, CompleteLines(text))
  {
    buffer, q, gaveUp := text, p, false;
    while true
      invariant Residue(buffer) == Residue(text) && AllDeliverable(q.sent)
      invariant OnLines(kind, parse, q, CompleteLines(buffer)) == OnLines(kind, parse, p, CompleteLines(text))
      decreases |buffer|
    {
      var newlinePos := Find(buffer, '\n');
      if newlinePos == |buffer| {
        NoLineFound(buffer);
        break;
      }
      SplitAtNewline(buffer, newlinePos);
      OnFirstLine(kind, parse, q, buffer[..newlinePos], buffer[newlinePos + 1..]);
      var line := StripCr(buffer[..newlinePos]);
      buffer := buffer[newlinePos + 1..];
      LastDecides(kind, parse, q, line, CompleteLines(buffer));
      q := OnLine(kind, parse, q, line);
      if LastRefused(q.sent) {
        gaveUp := true;
        return;
      }
    }
  }

  // ---------------------------------------------------------------- end of the stream

  function FlushLine(kind: UpstreamKind, parse: Parser, p: Progress, rawLine: string): Progress {
    var line := Trim(rawLine);
    if kind.Anthropic? then
      if "event: " <= line then p.(eventName := Some(line[7..]))
      else if "data: " <= line then p.(dataLines := p.dataLines + [line[6..]])
      else p
    else if "data: " <= line then OpenAiData(parse, p, line[6..], false)
    else p
  }

  function FlushLines(kind: UpstreamKind, parse: Parser, p: Progress, lines: seq<string>): Progress
    decreases |lines|
  {
    if lines == [] then p else FlushLines(kind, parse, FlushLine(kind, parse, p, lines[0]), lines[1..])
  }

  /** The event left pending by an Anthropic stream; its texts and tokens are not counted any more. */
  function FlushEvent(parse: Parser, p: Progress): Progress {
    if p.dataLines == [] then p
    else
      var data := Join(p.dataLines, "\n");
      var json := parse(data);
      if json.None? then p
      else Relay(p.(ended := p.ended || p.eventName == Some("message_stop")), p.eventName, data, json.value)
  }

  function Flush(kind: UpstreamKind, parse: Parser, p: Progress, buffer: string): Progress {
    if Trim(buffer) == "" || p.ended then p
    else
      var q := FlushLines(kind, parse, p, Lines(Trim(buffer)));
      if kind.Anthropic? then FlushEvent(parse, q) else q
  }

  lemma FlushLineSends(kind: UpstreamKind, parse: Parser, p: Progress, line: string)
    ensures p.sent <= FlushLine(kind, parse, p, line).sent
  {
  }

  lemma {:induction false} FlushLinesSend(kind: UpstreamKind, parse: Parser, p: Progress, lines: seq<string>)
    ensures p.sent <= FlushLines(kind, parse, p, lines).sent
    decreases |lines|
  {
    if lines == [] {
    } else {
      FlushLineSends(kind, parse, p, lines[0]);
      FlushLinesSend(kind, parse, FlushLine(kind, parse, p, lines[0]), lines[1..]);
    }
  }

  lemma FlushSends(kind: UpstreamKind, parse: Parser, p: Progress, buffer: string)
    ensures p.sent <= Flush(kind, parse, p, buffer).sent
  {
    FlushLinesSend(kind, parse, p, Lines(Trim(buffer)));
  }

  method FlushBuffer(kind: UpstreamKind, parse: Parser, p: Progress, buffer: string) returns (q: Progress)
    ensures q == Flush(kind, parse, p, buffer)
  {
    q := p;
    if Trim(buffer) != "" && !p.ended {
      var remaining := Lines(Trim(buffer));
      for i := 0 to |remaining|
        invariant FlushLines(kind, parse, q, remaining[i..]) == FlushLines(kind, parse, p, remaining)
      {
        q := FlushLine(kind, parse, q, remaining[i]);
      }
      if kind.Anthropic? {
        q := FlushEvent(parse, q);
      }
    }
  }

  // ---------------------------------------------------------------- the whole task

  predicate Broken(items: seq<StreamItem>) {
    exists i :: 0 <= i < |items| && items[i].Failed?
  }

  /** Everything collected from the upstream, after the flush. */
  function Collect(kind: UpstreamKind, parse: Parser, items: seq<StreamItem>): Progress {
    var t := ReceiveAll(kind, parse, IDLE, items);
    Flush(kind, parse, t.progress, t.buffer)
  }

  /** The events that close the stream towards the client. */
  function Closing(p: Progress, broken: bool): seq<Event> {
    if p.ended || (!broken && p.chunks != []) then [Done]
    else if p.chunks == [] && p.content == "" then [Interrupted, Done]
    else [Finish, Done]
  }

  ghost function StreamUsage(kind: UpstreamKind, p: Progress): Usage.Usage {
    if kind.Anthropic? && (p.inputTokens > 0 || p.outputTokens > 0) then
      Usage.Usage(AsI32(p.inputTokens), AsI32(p.outputTokens), AsI32(p.inputTokens + p.outputTokens))
    else Usage.UsageOf(p.chunks)
  }

  datatype Outcome = Outcome(
    sent: seq<Event>, chunks: seq<Value>, content: string, reasoning: string, raw: seq<bv8>,
    inputTokens: int, outputTokens: int, totalTokens: int,
    status: string, failedReason: Option<string>, recorded: Option<int>)

  ghost function OutcomeOf(kind: UpstreamKind, p: Progress, broken: bool, raw: seq<bv8>): Outcome {
    var usage := StreamUsage(kind, p);
    var total := usage.promptTokens + usage.completionTokens;
    var failed := p.chunks == [] && total == 0 && p.content == "";
    Outcome(p.sent + Closing(p, broken), p.chunks, p.content, p.reasoning, raw,
            usage.promptTokens, usage.completionTokens, total,
            if failed then "failed" else "success",
            if failed then Some("Empty stream response") else None,
            if failed then None else Some(total))
  }

  ghost function StreamOutcome(kind: UpstreamKind, parse: Parser, items: seq<StreamItem>): Outcome {
    OutcomeOf(kind, Collect(kind, parse, items), Broken(items), ReceiveAll(kind, parse, IDLE, items).raw)
  }

  /** The task runs to its end, or gives up at the first event that is refused: nothing more is sent then,
      and nothing is written. */
  datatype Run = Finished(outcome: Outcome) | GaveUp(sent: seq<Event>)

  ghost function RunOf(kind: UpstreamKind, parse: Parser, items: seq<StreamItem>): Run {
    var out := StreamOutcome(kind, parse, items);
    if AllDeliverable(out.sent) then Finished(out) else GaveUp(Delivered(out.sent))
  }

  /** Whoever gives up early gives up. */
  lemma RefusedEarly(kind: UpstreamKind, parse: Parser, t: Task, items: seq<StreamItem>, sent: seq<Event>,
                     broken: bool)
    requires sent <= t.progress.sent && !AllDeliverable(sent)
    ensures var last := ReceiveAll(kind, parse, t, items);
            var all := Flush(kind, parse, last.progress, last.buffer);
            Delivered(all.sent + Closing(all, broken)) == Delivered(sent)
            && !AllDeliverable(all.sent + Closing(all, broken))
  {
    var last := ReceiveAll(kind, parse, t, items);
    var all := Flush(kind, parse, last.progress, last.buffer);
    ReceivingSends(kind, parse, t, items);
    FlushSends(kind, parse, last.progress, last.buffer);
    DeliveredOfPrefix(sent, all.sent + Closing(all, broken));
  }

  lemma ClosingIsDeliverable(p: Progress, broken: bool)
    ensures AllDeliverable(p.sent + Closing(p, broken)) <==> AllDeliverable(p.sent)
  {
    if AllDeliverable(p.sent + Closing(p, broken)) {
      forall i | 0 <= i < |p.sent| ensures Deliverable(p.sent[i]) {
        assert p.sent[i] == (p.sent + Closing(p, broken))[i];
      }
    }
  }

  method RelayStream(kind: UpstreamKind, parse: Parser, items: seq<StreamItem>) returns (run: Run)
    ensures run == RunOf(kind, parse, items)
  {
    var buffer, p, raw, broken := "", START, [], false;
    var i := 0;
    while i < |items|
      invariant 0 <= i <= |items| && AllDeliverable(p.sent)
      invariant !broken && !Broken(items[..i])
      invariant ReceiveAll(kind, parse, Task(buffer, p, raw), items[i..]) == ReceiveAll(kind, parse, IDLE, items)
    {
      if items[i].Failed? {
        broken := true;
        break;
      }
      assert items[i..][1..] == items[i + 1..];
      assert items[..i + 1] == items[..i] + [items[i]];
      raw := KeepRaw(raw, items[i].bytes);
      ghost var received := Receive(kind, parse, Task(buffer, p, raw), items[i].bytes, items[i].text);
      ghost var t := received.(raw := raw);
      var gaveUp;
      buffer, p, gaveUp := DrainBuffer(kind, parse, buffer + items[i].text, p);
      if gaveUp {
        RefusedEarly(kind, parse, t, items[i + 1..], p.sent, Broken(items));
        return GaveUp(Delivered(p.sent));
      }
      i := i + 1;
    }
    assert broken == Broken(items) by {
      assert !broken ==> items[..i] == items;
    }
    assert Task(buffer, p, raw) == ReceiveAll(kind, parse, IDLE, items);
    p := FlushBuffer(kind, parse, p, buffer);
    ClosingIsDeliverable(p, broken);
    if !AllDeliverable(p.sent) {
      DeliveredOfPrefix(p.sent, p.sent + Closing(p, broken));
      return GaveUp(Delivered(p.sent));
    }
    var out := CloseStream(kind, p, broken, raw);
    run := Finished(out);
  }

  method CloseStream(kind: UpstreamKind, p: Progress, broken: bool, raw: seq<bv8>) returns (out: Outcome)
    ensures out == OutcomeOf(kind, p, broken, raw)
  {
    var ended := p.ended;
    if !broken && !ended && p.chunks != [] {
      ended := true;
    }
    var sent := p.sent;
    if ended {
      sent := sent + [Done];
    } else if p.chunks == [] && p.content == "" {
      sent := sent + [Interrupted];
      sent := sent + [Done];
    } else {
      sent := sent + [Finish];
      sent := sent + [Done];
    }
    assert sent == p.sent + Closing(p, broken);
    var usage;
    if kind.Anthropic? && (p.inputTokens > 0 || p.outputTokens > 0) {
      usage := Usage.Usage(AsI32(p.inputTokens), AsI32(p.outputTokens), AsI32(p.inputTokens + p.outputTokens));
    } else {
      usage := Usage.FromStreamChunks(p.chunks);
    }
    var total := usage.promptTokens + usage.completionTokens;
    var failedReason := None;
    var recorded := Some(total);
    if p.chunks == [] && total == 0 && p.content == "" {
      failedReason := Some("Empty stream response");
      recorded := None;
    }
    out := Outcome(sent, p.chunks, p.content, p.reasoning, raw,
                   usage.promptTokens, usage.completionTokens, total,
                   if failedReason.Some? then "failed" else "success", failedReason, recorded);
  }
}
