/** What the relay makes of a stream of complete blocks, for the two fields that src/proxy/handlers.rs
    recognises, each written with a space after its colon. `SseStandard` compares this with the standard. */
module SseEvents {
  import opened Wrappers
  import opened Json
  import opened Text
  import opened SseRelay
  import opened SseTheorems

  // ---------------------------------------------------------------- the stream as it is written

  /** One line of an event block as the relay reads it; whatever it does not recognise is another line. */
  datatype Field = EventField(value: string) | DataField(value: string) | OtherField(line: string) {
    function Line(): string {
      match this
      case EventField(value) => "event: " + value
      case DataField(value) => "data: " + value
      case OtherField(line) => line
    }

    ghost predicate Valid() {
      && '\n' !in Line() && '\r' !in Line()
      && (OtherField? ==> line != "" && !("event: " <= line) && !("data: " <= line))
    }
  }

  ghost predicate AllValid(fields: seq<Field>) {
    forall i :: 0 <= i < |fields| ==> fields[i].Valid()
  }

  function FieldLines(fields: seq<Field>): seq<string> {
    seq(|fields|, i requires 0 <= i < |fields| => fields[i].Line())
  }

  /** Every block ends with an empty line. */
  function BlockLines(blocks: seq<seq<Field>>): seq<string> {
    if blocks == [] then [] else BlockLines(blocks[..|blocks| - 1]) + (FieldLines(blocks[|blocks| - 1]) + [""])
  }

  /** The text of terminated lines; `eol` is LF or CRLF. */
  function Wire(lines: seq<string>, eol: string): string {
    if lines == [] then "" else Wire(lines[..|lines| - 1], eol) + (lines[|lines| - 1] + eol)
  }

  // ---------------------------------------------------------------- one event per block with data

  /** The last `event` field of a block. */
  function NameOf(fields: seq<Field>): Option<string> {
    if fields == [] then None
    else
      var last := fields[|fields| - 1];
      if last.EventField? then Some(last.value) else NameOf(fields[..|fields| - 1])
  }

  /** All `data` fields of a block, in order. */
  function DataOf(fields: seq<Field>): seq<string> {
    if fields == [] then []
    else
      var last := fields[|fields| - 1];
      DataOf(fields[..|fields| - 1]) + if last.DataField? then [last.value] else []
  }

  /** A block with data is one event, relayed if its data is JSON; a block without data is none. */
  function Dispatch(parse: Parser, fields: seq<Field>): seq<Event> {
    var data := Join(DataOf(fields), "\n");
    if DataOf(fields) == [] || parse(data).None? then [] else [Relayed(NameOf(fields), data)]
  }

  function DispatchAll(parse: Parser, blocks: seq<seq<Field>>): seq<Event> {
    if blocks == [] then [] else DispatchAll(parse, blocks[..|blocks| - 1]) + Dispatch(parse, blocks[|blocks| - 1])
  }

  // ---------------------------------------------------------------- one block at a time

  lemma FieldsOfSnoc(fields: seq<Field>, f: Field)
    ensures FieldLines(fields + [f]) == FieldLines(fields) + [f.Line()]
    ensures NameOf(fields + [f]) == if f.EventField? then Some(f.value) else NameOf(fields)
    ensures DataOf(fields + [f]) == DataOf(fields) + if f.DataField? then [f.value] else []
  {
    assert (fields + [f])[..|fields|] == fields;
  }

  lemma OnOneLine(kind: UpstreamKind, parse: Parser, p: Progress, lines: seq<string>, line: string)
    ensures OnLines(kind, parse, p, lines + [line]) == OnLine(kind, parse, OnLines(kind, parse, p, lines), line)
  {
    OnLinesConcat(kind, parse, p, lines, [line]);
    var q := OnLines(kind, parse, p, lines);
    assert [line][1..] == [];
    assert OnLines(kind, parse, q, [line]) == OnLines(kind, parse, OnLine(kind, parse, q, line), []);
  }

  /** A field that was read but not dispatched yet. */
  function Pending(p: Progress, fields: seq<Field>): Progress {
    p.(eventName := if NameOf(fields).Some? then NameOf(fields) else p.eventName,
       dataLines := p.dataLines + DataOf(fields))
  }

  lemma OneFieldIsPending(parse: Parser, p: Progress, fields: seq<Field>, f: Field)
    requires f.Valid()
    ensures OnLine(Anthropic, parse, Pending(p, fields), f.Line()) == Pending(p, fields + [f])
  {
    FieldsOfSnoc(fields, f);
    var line := f.Line();
    match f
    case EventField(value) => assert line[7..] == value;
    case DataField(value) =>
      assert line[0] == 'd' && line[6..] == value;
      Assoc(p.dataLines, DataOf(fields), [value]);
    case OtherField(_) =>
  }

  lemma {:induction false} FieldsArePending(parse: Parser, p: Progress, fields: seq<Field>)
    requires AllValid(fields)
    ensures OnLines(Anthropic, parse, p, FieldLines(fields)) == Pending(p, fields)
  {
    if fields == [] {
      assert p.dataLines + [] == p.dataLines;
    } else {
      var init, last := fields[..|fields| - 1], fields[|fields| - 1];
      SplitLast(fields);
      FieldsArePending(parse, p, init);
      FieldsOfSnoc(init, last);
      OnOneLine(Anthropic, parse, p, FieldLines(init), last.Line());
      OneFieldIsPending(parse, p, init, last);
    }
  }

  ghost predicate Idle(p: Progress) {
    p.eventName.None? && p.dataLines == []
  }

  /** The empty line dispatches what is pending and leaves nothing pending. */
  lemma BlankLineDispatches(parse: Parser, p: Progress, fields: seq<Field>)
    requires Idle(p)
    ensures var q := OnLine(Anthropic, parse, Pending(p, fields), "");
            Idle(q) && q.sent == p.sent + Dispatch(parse, fields)
  {
    assert [] + DataOf(fields) == DataOf(fields);
    assert p.sent + [] == p.sent;
  }

  lemma OneBlock(parse: Parser, p: Progress, fields: seq<Field>)
    requires Idle(p) && AllValid(fields)
    ensures var q := OnLines(Anthropic, parse, p, FieldLines(fields) + [""]);
            Idle(q) && q.sent == p.sent + Dispatch(parse, fields)
  {
    FieldsArePending(parse, p, fields);
    OnOneLine(Anthropic, parse, p, FieldLines(fields), "");
    BlankLineDispatches(parse, p, fields);
  }

  lemma {:induction false} BlocksAreDispatched(parse: Parser, blocks: seq<seq<Field>>)
    requires forall i :: 0 <= i < |blocks| ==> AllValid(blocks[i])
    ensures var q := OnLines(Anthropic, parse, START, BlockLines(blocks));
            Idle(q) && q.sent == DispatchAll(parse, blocks)
  {
    if blocks == [] {
    } else {
      var init, last := blocks[..|blocks| - 1], blocks[|blocks| - 1];
      BlocksAreDispatched(parse, init);
      OnLinesConcat(Anthropic, parse, START, BlockLines(init), FieldLines(last) + [""]);
      OneBlock(parse, OnLines(Anthropic, parse, START, BlockLines(init)), last);
    }
  }

  // ---------------------------------------------------------------- from lines to text

  ghost predicate PlainLines(lines: seq<string>) {
    forall i :: 0 <= i < |lines| ==> '\n' !in lines[i] && '\r' !in lines[i]
  }

  lemma TerminatedLine(line: string, eol: string)
    requires eol in {"\n", "\r\n"} && '\n' !in line && '\r' !in line
    ensures CompleteLines(line + eol) == [line] && Residue(line + eol) == ""
  {
    var body := if eol == "\n" then line else line + "\r";
    assert eol == "\n" || eol == "\r" + "\n";
    assert line + eol == body + "\n" + "";
    FirstLine(body, "");
    NoLine("");
    if eol == "\n" {
      assert StripCr(body) == line;
    } else {
      assert body[..|line|] == line;
    }
    assert [line] + [] == [line];
  }

  lemma {:induction false} WireLines(lines: seq<string>, eol: string)
    requires eol in {"\n", "\r\n"} && PlainLines(lines)
    ensures CompleteLines(Wire(lines, eol)) == lines && Residue(Wire(lines, eol)) == ""
  {
    if lines == [] {
      NoLine("");
    } else {
      var init, last := lines[..|lines| - 1], lines[|lines| - 1];
      WireLines(init, eol);
      TerminatedLine(last, eol);
      LinesOfConcat(Wire(init, eol), last + eol);
      assert "" + (last + eol) == last + eol;
      SplitLast(lines);
    }
  }

  lemma {:induction false} BlockLinesArePlain(blocks: seq<seq<Field>>)
    requires forall i :: 0 <= i < |blocks| ==> AllValid(blocks[i])
    ensures PlainLines(BlockLines(blocks))
  {
    if blocks == [] {
    } else {
      var last := blocks[|blocks| - 1];
      BlockLinesArePlain(blocks[..|blocks| - 1]);
      assert AllValid(last);
      assert PlainLines(FieldLines(last));
    }
  }

  // ---------------------------------------------------------------- the interpretation

  /** An Anthropic stream of complete blocks, in any chunking and with either line ending, is relayed block
      by block: one event per block with recognised data, named by its last recognised `event` field, with
      its data lines joined by newlines, leaving out those whose data is not JSON. */
  lemma RelayDispatchesBlocks(parse: Parser, blocks: seq<seq<Field>>, eol: string, items: seq<StreamItem>)
    requires eol in {"\n", "\r\n"} && forall i :: 0 <= i < |blocks| ==> AllValid(blocks[i])
    requires Concat(Texts(items)) == Wire(BlockLines(blocks), eol)
    ensures Collect(Anthropic, parse, items).sent == DispatchAll(parse, blocks)
  {
    CollectedFromWholeText(Anthropic, parse, items);
    BlockLinesArePlain(blocks);
    WireLines(BlockLines(blocks), eol);
    BlocksAreDispatched(parse, blocks);
  }

  // ---------------------------------------------------------------- token counts and the normal end

  predicate IsNamed(e: Event, name: string) {
    e.Relayed? && e.name == Some(name)
  }

  ghost predicate Stopped(sent: seq<Event>) {
    exists i :: 0 <= i < |sent| && IsNamed(sent[i], "message_stop")
  }

  /** The last count found in the events of one name. */
  function LastCount(sent: seq<Event>, chunks: seq<Value>, name: string, read: Value -> Option<int>): int
    requires |sent| == |chunks|
  {
    if sent == [] then 0
    else
      var n := |sent| - 1;
      var before := LastCount(sent[..n], chunks[..n], name, read);
      if IsNamed(sent[n], name) then read(chunks[n]).GetOr(before) else before
  }

  ghost predicate Reported(p: Progress) {
    && |p.sent| == |p.chunks|
    && p.inputTokens == LastCount(p.sent, p.chunks, "message_start", InputTokens)
    && p.outputTokens == LastCount(p.sent, p.chunks, "message_delta", OutputTokens)
    && (p.ended <==> Stopped(p.sent))
  }

  lemma CountOfSnoc(sent: seq<Event>, chunks: seq<Value>, e: Event, json: Value, name: string,
                    read: Value -> Option<int>)
    requires |sent| == |chunks|
    ensures LastCount(sent + [e], chunks + [json], name, read) ==
            if IsNamed(e, name) then read(json).GetOr(LastCount(sent, chunks, name, read))
            else LastCount(sent, chunks, name, read)
  {
    assert (sent + [e])[..|sent|] == sent;
    assert (chunks + [json])[..|chunks|] == chunks;
  }

  lemma StoppedOfSnoc(sent: seq<Event>, e: Event)
    ensures Stopped(sent + [e]) <==> Stopped(sent) || IsNamed(e, "message_stop")
  {
    var sent' := sent + [e];
    if Stopped(sent) {
      var i :| 0 <= i < |sent| && IsNamed(sent[i], "message_stop");
      assert sent'[i] == sent[i];
    }
    assert sent'[|sent|] == e;
  }

  lemma OneEventIsReported(p: Progress, data: string, json: Value)
    requires Reported(p)
    ensures Reported(AnthropicEvent(p, data, json))
  {
    var e := Relayed(p.eventName, data);
    CountOfSnoc(p.sent, p.chunks, e, json, "message_start", InputTokens);
    CountOfSnoc(p.sent, p.chunks, e, json, "message_delta", OutputTokens);
    StoppedOfSnoc(p.sent, e);
  }

  lemma {:induction false} LinesAreReported(parse: Parser, p: Progress, lines: seq<string>)
    requires Reported(p)
    ensures Reported(OnLines(Anthropic, parse, p, lines))
    decreases |lines|
  {
    if lines == [] {
    } else {
      var data := Join(p.dataLines, "\n");
      if parse(data).Some? {
        OneEventIsReported(p, data, parse(data).value);
      }
      LinesAreReported(parse, OnLine(Anthropic, parse, p, lines[0]), lines[1..]);
    }
  }

  /** On every Anthropic stream the input count is the last one of a `message_start` event, the output
      count the last one of a `message_delta` event, and the stream has ended exactly when a
      `message_stop` event was relayed; the end-of-stream flush changes the end but no count. */
  lemma CountsAreReported(parse: Parser, items: seq<StreamItem>)
    ensures var live, p := ReceiveAll(Anthropic, parse, IDLE, items).progress, Collect(Anthropic, parse, items);
            && Reported(live)
            && p.inputTokens == live.inputTokens && p.outputTokens == live.outputTokens
            && (p.ended <==> Stopped(p.sent))
  {
    CollectedFromWholeText(Anthropic, parse, items);
    ReceiveAllIsOnePass(Anthropic, parse, IDLE, items);
    var t := ReceiveAll(Anthropic, parse, IDLE, items);
    var lines := CompleteLines("" + Concat(Texts(items)));
    assert t.progress == OnLines(Anthropic, parse, START, lines);
    LinesAreReported(parse, START, lines);
    FlushIsReported(parse, t.progress, t.buffer);
  }

  /** What the flush leaves as it is, and what is still pending before its last event. */
  ghost predicate SameButPending(p: Progress, q: Progress) {
    q == p.(eventName := q.eventName, dataLines := q.dataLines)
  }

  lemma {:induction false} FlushLinesOnlyPend(parse: Parser, p: Progress, q: Progress, lines: seq<string>)
    requires SameButPending(p, q)
    ensures SameButPending(p, FlushLines(Anthropic, parse, q, lines))
    decreases |lines|
  {
    if lines == [] {
    } else {
      FlushLinesOnlyPend(parse, p, FlushLine(Anthropic, parse, q, lines[0]), lines[1..]);
    }
  }

  lemma FlushIsReported(parse: Parser, p: Progress, buffer: string)
    requires p.ended <==> Stopped(p.sent)
    ensures var q := Flush(Anthropic, parse, p, buffer);
            q.inputTokens == p.inputTokens && q.outputTokens == p.outputTokens && (q.ended <==> Stopped(q.sent))
  {
    if Trim(buffer) != "" && !p.ended {
      var q := FlushLines(Anthropic, parse, p, Lines(Trim(buffer)));
      FlushLinesOnlyPend(parse, p, p, Lines(Trim(buffer)));
      StoppedOfSnoc(p.sent, Relayed(q.eventName, Join(q.dataLines, "\n")));
    }
  }

  // ---------------------------------------------------------------- a stream that breaks off

  /** How a line is read. */
  function FieldOf(line: string): Field {
    if "event: " <= line then EventField(line[7..])
    else if "data: " <= line then DataField(line[6..])
    else OtherField(line)
  }

  /** How the gateway reads lines. */
  function ReadLines(lines: seq<string>): seq<Field> {
    seq(|lines|, i requires 0 <= i < |lines| => FieldOf(lines[i]))
  }

  lemma MiddleKeepsOut(pre: string, s: string, post: string, c: char)
    requires c !in pre + s + post
    ensures c !in s
  {
  }

  lemma TrimmedRest(rest: string)
    requires '\n' !in rest && Trim(rest) != ""
    ensures Lines(Trim(rest)) == [Trim(rest)] && Trim(Trim(rest)) == Trim(rest)
  {
    var pre, post := TrimSplits(rest);
    MiddleKeepsOut(pre, Trim(rest), post, '\n');
    NoLine(Trim(rest));
    TrimOfTrimmed(Trim(rest));
    assert [] + [Trim(rest)] == [Trim(rest)];
  }

  lemma RestIsPending(parse: Parser, p: Progress, fields: seq<Field>, line: string)
    requires Trim(line) == line
    ensures FlushLine(Anthropic, parse, Pending(p, fields), line) == Pending(p, fields + [FieldOf(line)])
  {
    FieldsOfSnoc(fields, FieldOf(line));
    if "data: " <= line {
      assert line[0] == 'd';
      Assoc(p.dataLines, DataOf(fields), [line[6..]]);
    }
    assert p.dataLines + (DataOf(fields) + []) == p.dataLines + DataOf(fields);
  }

  lemma FlushDispatches(parse: Parser, p: Progress, fields: seq<Field>, rest: string)
    requires Idle(p) && '\n' !in rest
    ensures Flush(Anthropic, parse, Pending(p, fields), rest).sent ==
            p.sent + if Trim(rest) == "" || p.ended then [] else Dispatch(parse, fields + [FieldOf(Trim(rest))])
  {
    assert p.sent + [] == p.sent;
    if Trim(rest) != "" && !p.ended {
      var line, q := Trim(rest), Pending(p, fields);
      TrimmedRest(rest);
      RestIsPending(parse, p, fields, line);
      assert [line][1..] == [];
      assert FlushLines(Anthropic, parse, q, [line]) == FlushLine(Anthropic, parse, q, line);
      assert [] + DataOf(fields + [FieldOf(line)]) == DataOf(fields + [FieldOf(line)]);
    }
  }

  /** A stream that breaks off inside a block, in any chunking: the pending block is relayed as one event,
      with the trimmed unterminated line as its last field, exactly when that line is not blank and the
      stream has not ended yet. A pending block whose last line was still terminated is lost. */
  lemma BrokenOffBlock(parse: Parser, blocks: seq<seq<Field>>, fields: seq<Field>, rest: string, eol: string,
                       items: seq<StreamItem>)
    requires eol in {"\n", "\r\n"} && AllValid(fields) && '\n' !in rest
    requires forall i :: 0 <= i < |blocks| ==> AllValid(blocks[i])
    requires Concat(Texts(items)) == Wire(BlockLines(blocks) + FieldLines(fields), eol) + rest
    ensures Collect(Anthropic, parse, items).sent ==
            DispatchAll(parse, blocks) +
            if Trim(rest) == "" || Stopped(DispatchAll(parse, blocks)) then []
            else Dispatch(parse, fields + [FieldOf(Trim(rest))])
  {
    var lines := BlockLines(blocks) + FieldLines(fields);
    CollectedFromWholeText(Anthropic, parse, items);
    LinesThenRest(blocks, fields, rest, eol);
    OnLinesConcat(Anthropic, parse, START, BlockLines(blocks), FieldLines(fields));
    var p := OnLines(Anthropic, parse, START, BlockLines(blocks));
    BlocksAreDispatched(parse, blocks);
    LinesAreReported(parse, START, BlockLines(blocks));
    FieldsArePending(parse, p, fields);
    FlushDispatches(parse, p, fields, rest);
  }

  lemma WireThenRest(lines: seq<string>, rest: string, eol: string)
    requires eol in {"\n", "\r\n"} && PlainLines(lines) && '\n' !in rest
    ensures CompleteLines(Wire(lines, eol) + rest) == lines && Residue(Wire(lines, eol) + rest) == rest
  {
    WireLines(lines, eol);
    TextThenRest(Wire(lines, eol), lines, rest);
  }

  lemma TextThenRest(text: string, lines: seq<string>, rest: string)
    requires CompleteLines(text) == lines && Residue(text) == "" && '\n' !in rest
    ensures CompleteLines(text + rest) == lines && Residue(text + rest) == rest
  {
    LinesOfConcat(text, rest);
    NothingAdded("", rest);
    NothingAdded(lines, []);
    NoLine(rest);
  }

  lemma NothingAdded<T>(a: seq<T>, b: seq<T>)
    ensures a == [] ==> a + b == b
    ensures b == [] ==> a + b == a
  {
  }

  lemma PlainConcat(a: seq<string>, b: seq<string>)
    requires PlainLines(a) && PlainLines(b)
    ensures PlainLines(a + b)
  {
  }

  lemma FieldLinesArePlain(fields: seq<Field>)
    requires AllValid(fields)
    ensures PlainLines(FieldLines(fields))
  {
    forall i | 0 <= i < |fields| ensures '\n' !in FieldLines(fields)[i] && '\r' !in FieldLines(fields)[i] {
      assert fields[i].Valid();
    }
  }

  lemma LinesThenRest(blocks: seq<seq<Field>>, fields: seq<Field>, rest: string, eol: string)
    requires eol in {"\n", "\r\n"} && AllValid(fields) && '\n' !in rest
    requires forall i :: 0 <= i < |blocks| ==> AllValid(blocks[i])
    ensures var lines := BlockLines(blocks) + FieldLines(fields);
            CompleteLines(Wire(lines, eol) + rest) == lines && Residue(Wire(lines, eol) + rest) == rest
  {
    BlockLinesArePlain(blocks);
    FieldLinesArePlain(fields);
    PlainConcat(BlockLines(blocks), FieldLines(fields));
    WireThenRest(BlockLines(blocks) + FieldLines(fields), rest, eol);
  }

  // ---------------------------------------------------------------- OpenAI streams

  /** Each data line of an OpenAI stream is one payload; the end marker and what is not JSON are not relayed. */
  function Payloads(parse: Parser, fields: seq<Field>): seq<Event> {
    if fields == [] then []
    else
      var last := fields[|fields| - 1];
      Payloads(parse, fields[..|fields| - 1]) +
      if last.DataField? && last.value != "[DONE]" && parse(last.value).Some? then [Relayed(None, last.value)] else []
  }

  lemma OnePayload(parse: Parser, p: Progress, f: Field)
    requires f.Valid()
    ensures OnLine(OpenAi, parse, p, f.Line()).sent ==
            p.sent + if f.DataField? && f.value != "[DONE]" && parse(f.value).Some? then [Relayed(None, f.value)]
                else []
  {
    var line := f.Line();
    assert p.sent + [] == p.sent;
    match f
    case EventField(value) => assert line[0] == 'e';
    case DataField(value) => assert line[6..] == value;
    case OtherField(_) =>
  }

  lemma {:induction false} FieldsArePayloads(parse: Parser, p: Progress, fields: seq<Field>)
    requires AllValid(fields)
    ensures OnLines(OpenAi, parse, p, FieldLines(fields)).sent == p.sent + Payloads(parse, fields)
  {
    if fields == [] {
      assert p.sent + [] == p.sent;
    } else {
      var init, last := fields[..|fields| - 1], fields[|fields| - 1];
      SplitLast(fields);
      FieldsArePayloads(parse, p, init);
      FieldsOfSnoc(init, last);
      OnOneLine(OpenAi, parse, p, FieldLines(init), last.Line());
      OnePayload(parse, OnLines(OpenAi, parse, p, FieldLines(init)), last);
      Assoc(p.sent, Payloads(parse, init),
            if last.DataField? && last.value != "[DONE]" && parse(last.value).Some? then [Relayed(None, last.value)]
                else []);
    }
  }

  function AllPayloads(parse: Parser, blocks: seq<seq<Field>>): seq<Event> {
    if blocks == [] then [] else AllPayloads(parse, blocks[..|blocks| - 1]) + Payloads(parse, blocks[|blocks| - 1])
  }

  lemma {:induction false} BlocksArePayloads(parse: Parser, blocks: seq<seq<Field>>)
    requires forall i :: 0 <= i < |blocks| ==> AllValid(blocks[i])
    ensures OnLines(OpenAi, parse, START, BlockLines(blocks)).sent == AllPayloads(parse, blocks)
  {
    if blocks == [] {
    } else {
      var init, last := blocks[..|blocks| - 1], blocks[|blocks| - 1];
      BlocksArePayloads(parse, init);
      var p := OnLines(OpenAi, parse, START, BlockLines(init));
      OnLinesConcat(OpenAi, parse, START, BlockLines(init), FieldLines(last) + [""]);
      OnOneLine(OpenAi, parse, p, FieldLines(last), "");
      FieldsArePayloads(parse, p, last);
    }
  }

  /** A well-formed OpenAI stream, in any chunking and with either line ending, is relayed payload by
      payload, in order, wherever the empty lines fall. */
  lemma RelayPassesPayloads(parse: Parser, blocks: seq<seq<Field>>, eol: string, items: seq<StreamItem>)
    requires eol in {"\n", "\r\n"} && forall i :: 0 <= i < |blocks| ==> AllValid(blocks[i])
    requires Concat(Texts(items)) == Wire(BlockLines(blocks), eol)
    ensures Collect(OpenAi, parse, items).sent == AllPayloads(parse, blocks)
  {
    CollectedFromWholeText(OpenAi, parse, items);
    BlockLinesArePlain(blocks);
    WireLines(BlockLines(blocks), eol);
    BlocksArePayloads(parse, blocks);
  }
}
