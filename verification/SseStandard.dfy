/** The relay measured against section 9.2.6 of the WHATWG HTML Living Standard ("Interpreting an event stream"). */
module SseStandard {
  import opened Wrappers
  import opened Json
  import opened Text
  import opened SseRelay
  import opened SseTheorems
  import opened SseEvents

  // ---------------------------------------------------------------- the standard

  /** A line is split at its first colon, and one space after the colon is dropped; a line without a colon
      is a field name with an empty value. A comment, which starts with a colon, has an empty name. */
  function SplitField(line: string): (string, string) {
    var i := Find(line, ':');
    if i == |line| then (line, "")
    else
      var value := line[i + 1..];
      (line[..i], if value != "" && value[0] == ' ' then value[1..] else value)
  }

  datatype StandardEvent = StandardEvent(kind: string, data: string)

  /** The event type buffer after the lines of a block. */
  function TypeBuffer(lines: seq<string>): string {
    if lines == [] then ""
    else
      var (name, value) := SplitField(lines[|lines| - 1]);
      if name == "event" then value else TypeBuffer(lines[..|lines| - 1])
  }

  /** The values appended to the data buffer, each followed by a newline there. */
  function DataBuffer(lines: seq<string>): seq<string> {
    if lines == [] then []
    else
      var (name, value) := SplitField(lines[|lines| - 1]);
      DataBuffer(lines[..|lines| - 1]) + if name == "data" then [value] else []
  }

  /** At the empty line: nothing if the data buffer is empty, else an event without the last newline. An
      empty type stands for the default type. */
  function StandardDispatch(lines: seq<string>): seq<StandardEvent> {
    if DataBuffer(lines) == [] then [] else [StandardEvent(TypeBuffer(lines), Join(DataBuffer(lines), "\n"))]
  }

  function StandardEvents(blocks: seq<seq<string>>): seq<StandardEvent> {
    if blocks == [] then []
    else StandardEvents(blocks[..|blocks| - 1]) + StandardDispatch(blocks[|blocks| - 1])
  }

  /** The events whose data is JSON; the relay drops all others. */
  function JsonOnly(parse: Parser, events: seq<StandardEvent>): seq<StandardEvent> {
    if events == [] then []
    else
      var last := events[|events| - 1];
      JsonOnly(parse, events[..|events| - 1]) + if parse(last.data).Some? then [last] else []
  }

  // ---------------------------------------------------------------- the stream

  /** The lines of a block: none is empty, none contains a line end. */
  ghost predicate BlockOfLines(lines: seq<string>) {
    forall i :: 0 <= i < |lines| ==> lines[i] != "" && '\n' !in lines[i] && '\r' !in lines[i]
  }

  ghost predicate Blocks(blocks: seq<seq<string>>) {
    forall i :: 0 <= i < |blocks| ==> BlockOfLines(blocks[i])
  }

  /** The lines of a stream: every block is ended by an empty line. */
  function StreamLines(blocks: seq<seq<string>>): seq<string> {
    if blocks == [] then [] else StreamLines(blocks[..|blocks| - 1]) + (blocks[|blocks| - 1] + [""])
  }

  function AsRead(blocks: seq<seq<string>>): seq<seq<Field>> {
    seq(|blocks|, i requires 0 <= i < |blocks| => ReadLines(blocks[i]))
  }

  /** What a client sees of a relayed event. */
  function Seen(e: Event): StandardEvent {
    if e.Relayed? then StandardEvent(e.name.GetOr(""), e.data) else StandardEvent("", "")
  }

  function AllSeen(events: seq<Event>): seq<StandardEvent> {
    seq(|events|, i requires 0 <= i < |events| => Seen(events[i]))
  }

  lemma FieldOfIsValid(line: string)
    requires line != "" && '\n' !in line && '\r' !in line
    ensures FieldOf(line).Valid() && FieldOf(line).Line() == line
  {
    if "event: " <= line {
      assert line == "event: " + line[7..];
    } else if "data: " <= line {
      assert line == "data: " + line[6..];
    }
  }

  lemma ReadLinesAreValid(lines: seq<string>)
    requires BlockOfLines(lines)
    ensures AllValid(ReadLines(lines)) && FieldLines(ReadLines(lines)) == lines
  {
    forall i | 0 <= i < |lines| ensures FieldOf(lines[i]).Valid() && FieldOf(lines[i]).Line() == lines[i] {
      FieldOfIsValid(lines[i]);
    }
  }

  lemma AsReadSnoc(blocks: seq<seq<string>>, lines: seq<string>)
    ensures AsRead(blocks + [lines]) == AsRead(blocks) + [ReadLines(lines)]
    ensures AsRead(blocks + [lines])[..|blocks|] == AsRead(blocks)
  {
    assert AsRead(blocks + [lines]) == AsRead(blocks) + [ReadLines(lines)];
  }

  lemma {:induction false} AsReadKeepsLines(blocks: seq<seq<string>>)
    requires Blocks(blocks)
    ensures BlockLines(AsRead(blocks)) == StreamLines(blocks)
    ensures forall i :: 0 <= i < |blocks| ==> AllValid(AsRead(blocks)[i])
  {
    if blocks == [] {
    } else {
      var init, last := blocks[..|blocks| - 1], blocks[|blocks| - 1];
      SplitLast(blocks);
      AsReadKeepsLines(init);
      AsReadSnoc(init, last);
      ReadLinesAreValid(last);
    }
  }

  // ---------------------------------------------------------------- one line

  /** A `data` or `event` field that is not written with a colon and a space. */
  predicate Spaceless(line: string) {
    SplitField(line).0 in ["data", "event"] && !("data: " <= line) && !("event: " <= line)
  }

  /** How the standard reads a line, in the gateway's terms. */
  function StandardField(line: string): Field {
    var (name, value) := SplitField(line);
    if name == "event" then EventField(value) else if name == "data" then DataField(value) else OtherField(line)
  }

  lemma SplitOfPrefixed(name: string, value: string)
    requires ':' !in name
    ensures SplitField(name + ": " + value) == (name, value)
  {
    var line := name + ": " + value;
    assert line[..|name|] == name;
    FindIsFirst(line, ':', |name|);
    assert line[|name| + 1..] == " " + value;
  }

  /** The gateway reads a line as the standard does, except exactly the fields written without the space. */
  lemma LineIsReadAlikeIff(line: string)
    ensures FieldOf(line) == StandardField(line) <==> !Spaceless(line)
  {
    if "event: " <= line {
      assert line == "event" + ": " + line[7..];
      SplitOfPrefixed("event", line[7..]);
    } else if "data: " <= line {
      assert line == "data" + ": " + line[6..];
      SplitOfPrefixed("data", line[6..]);
    }
  }

  // ---------------------------------------------------------------- one block

  predicate DataSpaced(lines: seq<string>) {
    forall i | 0 <= i < |lines| :: SplitField(lines[i]).0 == "data" ==> "data: " <= lines[i]
  }

  /** The value of the last `event` field that is written with the space. */
  function SpacedType(lines: seq<string>): string {
    if lines == [] then ""
    else
      var last := lines[|lines| - 1];
      if "event: " <= last then last[7..] else SpacedType(lines[..|lines| - 1])
  }

  function LastType(lines: seq<string>): Option<string> {
    if lines == [] then None
    else
      var last := lines[|lines| - 1];
      if SplitField(last).0 == "event" then Some(last) else LastType(lines[..|lines| - 1])
  }

  /** The last `event` field of all has the space, or says the same as the last one that has it. */
  predicate TypeSpaced(lines: seq<string>) {
    match LastType(lines)
    case None => true
    case Some(line) => "event: " <= line || SplitField(line).1 == SpacedType(lines)
  }

  /** No data field lacks the space, and if there is any data, no type is lost for lack of it. */
  predicate Harmless(lines: seq<string>) {
    DataSpaced(lines) && (DataBuffer(lines) == [] || TypeSpaced(lines))
  }

  ghost predicate AllHarmless(blocks: seq<seq<string>>) {
    forall i :: 0 <= i < |blocks| ==> Harmless(blocks[i])
  }

  lemma BuffersOfSnoc(lines: seq<string>, line: string)
    ensures DataBuffer(lines + [line]) ==
            DataBuffer(lines) + if SplitField(line).0 == "data" then [SplitField(line).1] else []
    ensures ReadLines(lines + [line]) == ReadLines(lines) + [FieldOf(line)]
  {
    assert (lines + [line])[..|lines|] == lines;
  }

  lemma DataLineIsRead(line: string)
    ensures "data: " <= line ==> SplitField(line) == ("data", line[6..])
  {
    if "data: " <= line {
      assert line == "data" + ": " + line[6..];
      SplitOfPrefixed("data", line[6..]);
    }
  }

  lemma DataSpacedOfSnoc(lines: seq<string>, line: string)
    ensures DataSpaced(lines + [line]) <==> DataSpaced(lines) && (SplitField(line).0 == "data" ==> "data: " <= line)
  {
    var more := lines + [line];
    assert more[|lines|] == line;
    assert forall i :: 0 <= i < |lines| ==> more[i] == lines[i];
  }

  /** The gateway never reads more data lines than the standard, and as many exactly when none lacks the
      space; then it reads the same. */
  lemma {:induction false} DataIsReadAlikeIff(lines: seq<string>)
    ensures var read, buffer := DataOf(ReadLines(lines)), DataBuffer(lines);
            && |read| <= |buffer|
            && (|read| == |buffer| <==> DataSpaced(lines))
            && (DataSpaced(lines) ==> read == buffer)
  {
    if lines == [] {
    } else {
      var init, last := lines[..|lines| - 1], lines[|lines| - 1];
      SplitLast(lines);
      DataIsReadAlikeIff(init);
      BuffersOfSnoc(init, last);
      FieldsOfSnoc(ReadLines(init), FieldOf(last));
      DataLineIsRead(last);
      DataSpacedOfSnoc(init, last);
      EventIsNoData(last);
    }
  }

  lemma EventIsNoData(line: string)
    ensures "event: " <= line ==> SplitField(line).0 == "event" && !("data: " <= line)
  {
    if "event: " <= line {
      assert line == "event" + ": " + line[7..];
      SplitOfPrefixed("event", line[7..]);
      assert line[0] == 'e';
    }
  }

  lemma TypesOfSnoc(lines: seq<string>, line: string)
    ensures TypeBuffer(lines + [line]) ==
            if SplitField(line).0 == "event" then SplitField(line).1 else TypeBuffer(lines)
    ensures SpacedType(lines + [line]) == if "event: " <= line then line[7..] else SpacedType(lines)
    ensures LastType(lines + [line]) == if SplitField(line).0 == "event" then Some(line) else LastType(lines)
  {
    assert (lines + [line])[..|lines|] == lines;
  }

  lemma EventLineIsRead(line: string)
    ensures "event: " <= line ==> SplitField(line) == ("event", line[7..])
  {
    if "event: " <= line {
      assert line == "event" + ": " + line[7..];
      SplitOfPrefixed("event", line[7..]);
    }
  }

  /** What both readings make of the type, in terms of the lines. */
  lemma {:induction false} TypesOfLines(lines: seq<string>)
    ensures NameOf(ReadLines(lines)).GetOr("") == SpacedType(lines)
    ensures TypeBuffer(lines) == match LastType(lines) case None => "" case Some(line) => SplitField(line).1
    ensures LastType(lines) == None ==> SpacedType(lines) == ""
    ensures LastType(lines).Some? && "event: " <= LastType(lines).value ==> TypeBuffer(lines) == SpacedType(lines)
  {
    if lines == [] {
    } else {
      var init, last := lines[..|lines| - 1], lines[|lines| - 1];
      SplitLast(lines);
      TypesOfLines(init);
      TypesOfSnoc(init, last);
      EventLineIsRead(last);
      BuffersOfSnoc(init, last);
      FieldsOfSnoc(ReadLines(init), FieldOf(last));
    }
  }

  lemma TypeIsReadAlikeIff(lines: seq<string>)
    ensures NameOf(ReadLines(lines)).GetOr("") == TypeBuffer(lines) <==> TypeSpaced(lines)
  {
    TypesOfLines(lines);
  }

  /** The number of joined lines can be read off the joined text. */
  lemma {:induction false} JoinedLines(lines: seq<string>)
    requires lines != [] && forall i :: 0 <= i < |lines| ==> '\n' !in lines[i]
    ensures |CompleteLines(Join(lines, "\n"))| == |lines| - 1
  {
    if |lines| == 1 {
      NoLine(lines[0]);
    } else {
      var init, last := lines[..|lines| - 1], lines[|lines| - 1];
      SplitLast(lines);
      JoinedLines(init);
      JoinSnoc(init, last, "\n");
      LinesOfSnoc(Join(init, "\n"), '\n');
      LinesOfConcat(Join(init, "\n") + "\n", last);
      assert "" + last == last;
      NoLine(last);
    }
  }

  lemma {:induction false} DataHasNoNewlines(lines: seq<string>)
    requires forall i :: 0 <= i < |lines| ==> '\n' !in lines[i]
    ensures forall i :: 0 <= i < |DataBuffer(lines)| ==> '\n' !in DataBuffer(lines)[i]
    ensures forall i :: 0 <= i < |DataOf(ReadLines(lines))| ==> '\n' !in DataOf(ReadLines(lines))[i]
  {
    if lines == [] {
    } else {
      var init, last := lines[..|lines| - 1], lines[|lines| - 1];
      SplitLast(lines);
      DataHasNoNewlines(init);
      BuffersOfSnoc(init, last);
      FieldsOfSnoc(ReadLines(init), FieldOf(last));
    }
  }

  /** What a client sees of one block when every text is taken for JSON. */
  function BlockSeen(lines: seq<string>): seq<StandardEvent> {
    var fields := ReadLines(lines);
    if DataOf(fields) == [] then [] else [StandardEvent(NameOf(fields).GetOr(""), Join(DataOf(fields), "\n"))]
  }

  /** A block is seen as the standard dispatches it if and only if it is harmless. */
  lemma BlockIsSeenAlikeIff(lines: seq<string>)
    requires BlockOfLines(lines)
    ensures |BlockSeen(lines)| <= |StandardDispatch(lines)|
    ensures BlockSeen(lines) == StandardDispatch(lines) <==> Harmless(lines)
  {
    DataIsReadAlikeIff(lines);
    TypeIsReadAlikeIff(lines);
    var read, buffer := DataOf(ReadLines(lines)), DataBuffer(lines);
    if read != [] {
      DataHasNoNewlines(lines);
      JoinedLines(read);
      JoinedLines(buffer);
    }
  }

  // ---------------------------------------------------------------- whole streams

  function AllBlocksSeen(blocks: seq<seq<string>>): seq<StandardEvent> {
    if blocks == [] then [] else AllBlocksSeen(blocks[..|blocks| - 1]) + BlockSeen(blocks[|blocks| - 1])
  }

  lemma JsonOnlyConcat(parse: Parser, events: seq<StandardEvent>, more: seq<StandardEvent>)
    requires |more| <= 1
    ensures JsonOnly(parse, events + more) ==
            JsonOnly(parse, events) + if more != [] && parse(more[0].data).Some? then more else []
  {
    if more == [] {
      assert events + more == events;
    } else {
      assert more == [more[0]];
      assert (events + more)[..|events|] == events;
    }
  }

  lemma SeenConcat(a: seq<Event>, b: seq<Event>)
    ensures AllSeen(a + b) == AllSeen(a) + AllSeen(b)
  {
  }

  lemma DispatchSeen(parse: Parser, lines: seq<string>)
    ensures |BlockSeen(lines)| <= 1
    ensures AllSeen(Dispatch(parse, ReadLines(lines))) ==
            if BlockSeen(lines) != [] && parse(BlockSeen(lines)[0].data).Some? then BlockSeen(lines) else []
  {
  }

  lemma OneBlockIsSeen(parse: Parser, seen: seq<StandardEvent>, sent: seq<Event>, lines: seq<string>)
    requires AllSeen(sent) == JsonOnly(parse, seen)
    ensures AllSeen(sent + Dispatch(parse, ReadLines(lines))) == JsonOnly(parse, seen + BlockSeen(lines))
  {
    DispatchSeen(parse, lines);
    SeenConcat(sent, Dispatch(parse, ReadLines(lines)));
    JsonOnlyConcat(parse, seen, BlockSeen(lines));
  }

  lemma SnocOfBlocks(parse: Parser, blocks: seq<seq<string>>, lines: seq<string>)
    ensures DispatchAll(parse, AsRead(blocks + [lines])) ==
            DispatchAll(parse, AsRead(blocks)) + Dispatch(parse, ReadLines(lines))
    ensures AllBlocksSeen(blocks + [lines]) == AllBlocksSeen(blocks) + BlockSeen(lines)
    ensures StandardEvents(blocks + [lines]) == StandardEvents(blocks) + StandardDispatch(lines)
  {
    AsReadSnoc(blocks, lines);
    assert (blocks + [lines])[..|blocks|] == blocks;
  }

  /** What the relay dispatches, as a client sees it. */
  lemma {:induction false} DispatchIsSeen(parse: Parser, blocks: seq<seq<string>>)
    ensures AllSeen(DispatchAll(parse, AsRead(blocks))) == JsonOnly(parse, AllBlocksSeen(blocks))
  {
    if blocks == [] {
    } else {
      var init, last := blocks[..|blocks| - 1], blocks[|blocks| - 1];
      SplitLast(blocks);
      DispatchIsSeen(parse, init);
      SnocOfBlocks(parse, init, last);
      OneBlockIsSeen(parse, AllBlocksSeen(init), DispatchAll(parse, AsRead(init)), last);
    }
  }

  lemma {:induction false} HarmlessIsSeenAlike(blocks: seq<seq<string>>)
    requires Blocks(blocks) && AllHarmless(blocks)
    ensures AllBlocksSeen(blocks) == StandardEvents(blocks)
  {
    if blocks == [] {
    } else {
      HarmlessIsSeenAlike(blocks[..|blocks| - 1]);
      BlockIsSeenAlikeIff(blocks[|blocks| - 1]);
    }
  }

  lemma SamePieces<T>(a: seq<T>, b: seq<T>, x: seq<T>, y: seq<T>)
    requires |a| <= |b| && |x| <= |y| && a + x == b + y
    ensures a == b && x == y
  {
    assert |a| == |b| && |x| == |y|;
    assert (a + x)[..|a|] == a && (b + y)[..|a|] == b;
    assert (a + x)[|a|..] == x && (b + y)[|a|..] == y;
  }

  lemma {:induction false} FewerAreSeen(blocks: seq<seq<string>>)
    requires Blocks(blocks)
    ensures |AllBlocksSeen(blocks)| <= |StandardEvents(blocks)|
  {
    if blocks == [] {
    } else {
      FewerAreSeen(blocks[..|blocks| - 1]);
      BlockIsSeenAlikeIff(blocks[|blocks| - 1]);
    }
  }

  lemma {:induction false} SeenAlikeIsHarmless(blocks: seq<seq<string>>)
    requires Blocks(blocks) && AllBlocksSeen(blocks) == StandardEvents(blocks)
    ensures AllHarmless(blocks)
  {
    if blocks == [] {
    } else {
      var init, last := blocks[..|blocks| - 1], blocks[|blocks| - 1];
      SplitLast(blocks);
      SnocOfBlocks(s => None, init, last);
      FewerAreSeen(init);
      BlockIsSeenAlikeIff(last);
      SamePieces(AllBlocksSeen(init), StandardEvents(init), BlockSeen(last), StandardDispatch(last));
      SeenAlikeIsHarmless(init);
      HarmlessSnoc(init, last);
    }
  }

  lemma HarmlessSnoc(blocks: seq<seq<string>>, lines: seq<string>)
    requires AllHarmless(blocks) && Harmless(lines)
    ensures AllHarmless(blocks + [lines])
  {
  }

  lemma {:induction false} EverythingIsJson(parse: Parser, events: seq<StandardEvent>)
    requires forall s :: parse(s).Some?
    ensures JsonOnly(parse, events) == events
  {
    if events == [] {
    } else {
      SplitLast(events);
      EverythingIsJson(parse, events[..|events| - 1]);
    }
  }

  /** The events of a stream as a client of the gateway sees them. */
  ghost function ClientSees(parse: Parser, items: seq<StreamItem>): seq<StandardEvent> {
    AllSeen(Collect(Anthropic, parse, items).sent)
  }

  lemma ClientSeesBlocks(parse: Parser, blocks: seq<seq<string>>, eol: string, items: seq<StreamItem>)
    requires eol in {"\n", "\r\n"} && Blocks(blocks) && Concat(Texts(items)) == Wire(StreamLines(blocks), eol)
    ensures ClientSees(parse, items) == JsonOnly(parse, AllBlocksSeen(blocks))
  {
    AsReadKeepsLines(blocks);
    RelayDispatchesBlocks(parse, AsRead(blocks), eol, items);
    DispatchIsSeen(parse, blocks);
  }

  lemma HarmlessMeetsStandard(parse: Parser, blocks: seq<seq<string>>, eol: string, items: seq<StreamItem>)
    requires eol in {"\n", "\r\n"} && Blocks(blocks) && Concat(Texts(items)) == Wire(StreamLines(blocks), eol)
    requires AllHarmless(blocks)
    ensures ClientSees(parse, items) == JsonOnly(parse, StandardEvents(blocks))
  {
    ClientSeesBlocks(parse, blocks, eol, items);
    HarmlessIsSeenAlike(blocks);
  }

  /** A parser that takes every text for JSON tells all blocks apart. */
  lemma MeetingStandardIsHarmless(all: Parser, blocks: seq<seq<string>>, eol: string, items: seq<StreamItem>)
    requires eol in {"\n", "\r\n"} && Blocks(blocks) && Concat(Texts(items)) == Wire(StreamLines(blocks), eol)
    requires (forall s :: all(s).Some?) && ClientSees(all, items) == JsonOnly(all, StandardEvents(blocks))
    ensures AllHarmless(blocks)
  {
    ClientSeesBlocks(all, blocks, eol, items);
    EverythingIsJson(all, AllBlocksSeen(blocks));
    EverythingIsJson(all, StandardEvents(blocks));
    SeenAlikeIsHarmless(blocks);
  }

  ghost predicate MeetsStandard(parse: Parser, blocks: seq<seq<string>>, items: seq<StreamItem>) {
    ClientSees(parse, items) == JsonOnly(parse, StandardEvents(blocks))
  }

  /** The relay against the standard: for a stream of complete blocks, in any chunking and with either line
      ending, clients see exactly the standard's events that are JSON, whatever counts as JSON, if and only
      if every block is harmless: no data field lacks the space after the colon, and where there is data the
      last `event` field has it, or says what the last one that has it says. */
  lemma RelayMeetsStandardIff(blocks: seq<seq<string>>, eol: string, items: seq<StreamItem>)
    requires eol in {"\n", "\r\n"} && Blocks(blocks) && Concat(Texts(items)) == Wire(StreamLines(blocks), eol)
    ensures (forall parse: Parser :: MeetsStandard(parse, blocks, items)) <==> AllHarmless(blocks)
  {
    if AllHarmless(blocks) {
      forall parse: Parser ensures MeetsStandard(parse, blocks, items) {
        HarmlessMeetsStandard(parse, blocks, eol, items);
      }
    } else {
      HarmIsSeen(blocks, eol, items);
    }
  }

  lemma HarmIsSeen(blocks: seq<seq<string>>, eol: string, items: seq<StreamItem>)
    requires eol in {"\n", "\r\n"} && Blocks(blocks) && Concat(Texts(items)) == Wire(StreamLines(blocks), eol)
    requires !AllHarmless(blocks)
    ensures exists parse: Parser :: !MeetsStandard(parse, blocks, items)
  {
    var all: Parser := s => Some(Null);
    if MeetsStandard(all, blocks, items) {
      MeetingStandardIsHarmless(all, blocks, eol, items);
    }
  }

  /** A stream that uses the space throughout is relayed as the standard says. */
  lemma SpacedStreamsMeetStandard(parse: Parser, blocks: seq<seq<string>>, eol: string, items: seq<StreamItem>)
    requires eol in {"\n", "\r\n"} && Blocks(blocks) && Concat(Texts(items)) == Wire(StreamLines(blocks), eol)
    requires forall i, j :: 0 <= i < |blocks| && 0 <= j < |blocks[i]| ==> !Spaceless(blocks[i][j])
    ensures ClientSees(parse, items) == JsonOnly(parse, StandardEvents(blocks))
  {
    forall i | 0 <= i < |blocks| ensures Harmless(blocks[i]) {
      SpacedIsHarmless(blocks[i]);
    }
    HarmlessMeetsStandard(parse, blocks, eol, items);
  }

  lemma {:induction false} SpacedIsHarmless(lines: seq<string>)
    requires forall j :: 0 <= j < |lines| ==> !Spaceless(lines[j])
    ensures Harmless(lines) && NameOf(ReadLines(lines)).GetOr("") == TypeBuffer(lines)
  {
    if lines == [] {
    } else {
      var init, last := lines[..|lines| - 1], lines[|lines| - 1];
      SplitLast(lines);
      SpacedIsHarmless(init);
      BuffersOfSnoc(init, last);
      FieldsOfSnoc(ReadLines(init), FieldOf(last));
      LineIsReadAlikeIff(last);
      forall i | 0 <= i < |lines| && SplitField(lines[i]).0 == "data" ensures "data: " <= lines[i] {
        assert !Spaceless(lines[i]);
        EventIsNoData(lines[i]);
        assert "data"[0] != "event"[0];
      }
      TypeIsReadAlikeIff(lines);
    }
  }

  lemma NotSpaced(line: string)
    ensures |line| > 5 && line[5] != ' ' ==> !("data: " <= line)
    ensures |line| > 6 && line[6] != ' ' ==> !("event: " <= line)
    ensures line != "" && line[0] == 'd' ==> !("event: " <= line)
    ensures line != "" && line[0] == 'e' ==> !("data: " <= line)
  {
    assert "data: "[5] == ' ' && "event: "[6] == ' ' && "event: "[0] == 'e' && "data: "[0] == 'd';
  }

  /** The smallest departures: data written without the space is lost, and so is a type. */
  lemma SpacelessDataIsLost(data: string)
    requires data != "" && data[0] != ' '
    ensures BlockSeen(["data:" + data]) == [] && StandardDispatch(["data:" + data]) == [StandardEvent("", data)]
  {
    var line := "data:" + data;
    SpacelessDataIsSkipped(data, line);
    BuffersOfOne(line);
  }

  lemma BuffersOfOne(line: string)
    ensures var (name, value) := SplitField(line);
            && DataBuffer([line]) == (if name == "data" then [value] else [])
            && TypeBuffer([line]) == (if name == "event" then value else "")
    ensures var f := FieldOf(line);
            && DataOf(ReadLines([line])) == (if f.DataField? then [f.value] else [])
            && NameOf(ReadLines([line])) == (if f.EventField? then Some(f.value) else None)
    ensures |"data"| != |"event"|
  {
    OneLine(line);
    assert [] + [line] == [line];
    BuffersOfSnoc([], line);
    FieldsOfSnoc([], FieldOf(line));
    assert [] + [FieldOf(line)] == [FieldOf(line)];
  }

  lemma SpacelessDataIsSkipped(data: string, line: string)
    requires data != "" && data[0] != ' ' && line == "data:" + data
    ensures FieldOf(line) == OtherField(line) && SplitField(line) == ("data", data)
  {
    assert line == "data" + ":" + data;
    SplitOfSpaceless("data", data);
    assert line[5] == data[0] && line[0] == 'd';
    NotSpaced(line);
  }

  lemma SpacelessTypeIsLost(kind: string, data: string)
    requires kind != "" && kind[0] != ' '
    ensures BlockSeen(["event:" + kind, "data: " + data]) == [StandardEvent("", data)]
    ensures StandardDispatch(["event:" + kind, "data: " + data]) == [StandardEvent(kind, data)]
  {
    var first, second := "event:" + kind, "data: " + data;
    assert [first, second] == [first] + [second];
    SpacelessTypeIsSkipped(kind, first);
    DataIsTaken(data, second);
    BuffersOfOne(first);
    OneLine(first);
    BuffersOfSnoc([first], second);
    FieldsOfSnoc([FieldOf(first)], FieldOf(second));
    assert [first, second][..1] == [first];
    assert [] + [data] == [data];
  }

  lemma SpacelessTypeIsSkipped(kind: string, line: string)
    requires kind != "" && kind[0] != ' ' && line == "event:" + kind
    ensures FieldOf(line) == OtherField(line) && SplitField(line) == ("event", kind)
  {
    assert line == "event" + ":" + kind;
    SplitOfSpaceless("event", kind);
    assert line[6] == kind[0] && line[0] == 'e';
    NotSpaced(line);
  }

  lemma DataIsTaken(data: string, line: string)
    requires line == "data: " + data
    ensures FieldOf(line) == DataField(data) && SplitField(line) == ("data", data)
  {
    DataLineIsRead(line);
    NotSpaced(line);
    assert line[6..] == data;
  }

  lemma SplitOfSpaceless(name: string, value: string)
    requires ':' !in name && value != "" && value[0] != ' '
    ensures SplitField(name + ":" + value) == (name, value)
  {
    var line := name + ":" + value;
    assert line[..|name|] == name;
    FindIsFirst(line, ':', |name|);
    assert line[|name| + 1..] == value;
  }

  lemma OneLine(line: string)
    ensures [line][..0] == [] && ReadLines([line]) == [FieldOf(line)] && [FieldOf(line)][..0] == []
  {
  }
}
