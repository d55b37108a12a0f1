/** Runs of the relay task, which the web framework ends early when an event contains a carriage return
    (src/proxy/handlers.rs, `handle_stream_response`). */
module SseDelivery {
  import opened Wrappers
  import opened Json
  import opened Text
  import opened SseRelay
  import opened SseTheorems
  import opened SseEvents
  import opened SseBody
  import opened SseFlush

  // ---------------------------------------------------------------- how a run ends

  lemma {:induction false} DeliveredIsAPrefix(sent: seq<Event>)
    ensures Delivered(sent) <= sent && AllDeliverable(Delivered(sent))
    ensures Delivered(sent) != sent ==> LastRefused(sent[..|Delivered(sent)| + 1])
  {
    if sent == [] || !Deliverable(sent[0]) {
    } else {
      DeliveredIsAPrefix(sent[1..]);
      var rest := Delivered(sent[1..]);
      assert sent == [sent[0]] + sent[1..];
      if rest != sent[1..] {
        assert sent[|rest| + 1] == sent[1..][..|rest| + 1][|rest|];
      }
    }
  }

  lemma {:induction false} DeliveredIsAllIff(sent: seq<Event>)
    ensures Delivered(sent) == sent <==> AllDeliverable(sent)
  {
    DeliveredIsAPrefix(sent);
    if Delivered(sent) == sent {
    } else {
      var n := |Delivered(sent)|;
      assert sent[..n + 1][n] == sent[n];
    }
  }

  /** Every run either ends by sending `[DONE]` once, as its last event, or was given up: then it sent the
      events before the first one with a carriage return, all relayed ones, and neither `[DONE]` nor any
      other closing event. It is given up if and only if some event to be relayed has a carriage return. */
  lemma EveryRunEndsOnceOrGivesUp(kind: UpstreamKind, parse: Parser, toText: Printer, items: seq<StreamItem>)
    requires MarkerIsNotJson(parse, toText)
    ensures var run, relayed := RunOf(kind, parse, items), Collect(kind, parse, items).sent;
            && (run.GaveUp? <==> exists i :: 0 <= i < |relayed| && !Deliverable(relayed[i]))
            && match run
               case Finished(out) =>
                 && relayed <= out.sent && |relayed| < |out.sent|
                 && forall i :: 0 <= i < |out.sent| ==>
                      (out.sent[i].Payload(toText) == "[DONE]" <==> i == |out.sent| - 1)
               case GaveUp(sent) =>
                 && sent <= relayed && |sent| < |relayed| && !Deliverable(relayed[|sent|])
                 && forall i :: 0 <= i < |sent| ==> sent[i].Relayed? && sent[i].Payload(toText) != "[DONE]"
  {
    var p, broken := Collect(kind, parse, items), Broken(items);
    CollectedIsPaired(kind, parse, items);
    ClosingIsDeliverable(p, broken);
    if AllDeliverable(p.sent) {
      DoneIsLastAndOnce(parse, toText, p, broken);
    } else {
      DeliveredOfPrefix(p.sent, p.sent + Closing(p, broken));
      RefusedEventIsNotSent(parse, toText, p);
    }
  }

  lemma RefusedEventIsNotSent(parse: Parser, toText: Printer, p: Progress)
    requires Paired(parse, p) && MarkerIsNotJson(parse, toText) && !AllDeliverable(p.sent)
    ensures var sent := Delivered(p.sent);
            && sent <= p.sent && |sent| < |p.sent| && !Deliverable(p.sent[|sent|])
            && forall i :: 0 <= i < |sent| ==> sent[i].Relayed? && sent[i].Payload(toText) != "[DONE]"
  {
    DeliveredIsAPrefix(p.sent);
    DeliveredIsAllIff(p.sent);
    var n := |Delivered(p.sent)|;
    assert p.sent[..n + 1][n] == p.sent[n];
    assert forall i :: 0 <= i < n ==> Delivered(p.sent)[i] == p.sent[i];
  }

  // ---------------------------------------------------------------- streams without stray carriage returns

  ghost predicate Plain(s: string) {
    '\r' !in s
  }

  ghost predicate Clean(p: Progress) {
    && (p.eventName.Some? ==> Plain(p.eventName.value))
    && (forall i :: 0 <= i < |p.dataLines| ==> Plain(p.dataLines[i]))
    && AllDeliverable(p.sent)
  }

  lemma {:induction false} JoinIsPlain(lines: seq<string>)
    requires forall i :: 0 <= i < |lines| ==> Plain(lines[i])
    ensures Plain(Join(lines, "\n"))
  {
    if |lines| <= 1 {
    } else {
      JoinIsPlain(lines[1..]);
    }
  }

  lemma LineKeepsClean(kind: UpstreamKind, parse: Parser, p: Progress, line: string)
    requires Clean(p) && Plain(line)
    ensures Clean(OnLine(kind, parse, p, line))
  {
    JoinIsPlain(p.dataLines);
  }

  lemma {:induction false} LinesKeepClean(kind: UpstreamKind, parse: Parser, p: Progress, lines: seq<string>)
    requires Clean(p) && forall i :: 0 <= i < |lines| ==> Plain(lines[i])
    ensures Clean(OnLines(kind, parse, p, lines))
    decreases |lines|
  {
    if lines == [] {
    } else {
      LineKeepsClean(kind, parse, p, lines[0]);
      LinesKeepClean(kind, parse, OnLine(kind, parse, p, lines[0]), lines[1..]);
    }
  }

  lemma FlushKeepsClean(kind: UpstreamKind, parse: Parser, p: Progress, rest: string)
    requires Clean(p) && '\n' !in rest && Plain(Trim(rest))
    ensures Clean(Flush(kind, parse, p, rest))
  {
    var line := Trim(rest);
    if line != "" && !p.ended {
      TrimmedRest(rest);
      assert [line][1..] == [];
      var q := FlushLine(kind, parse, p, line);
      assert FlushLines(kind, parse, p, [line]) == q;
      FlushLineKeepsClean(kind, parse, p, line);
      JoinIsPlain(q.dataLines);
    }
  }

  lemma FlushLineKeepsClean(kind: UpstreamKind, parse: Parser, p: Progress, line: string)
    requires Clean(p) && Plain(line) && Trim(line) == line
    ensures Clean(FlushLine(kind, parse, p, line))
  {
  }

  /** A stream whose carriage returns all stand before newlines, or are trimmed off its end, is relayed to
      its end, whatever else it contains. */
  lemma PlainStreamsFinish(kind: UpstreamKind, parse: Parser, items: seq<StreamItem>)
    requires var all := Concat(Texts(items));
             Plain(Trim(Residue(all)))
             && forall i :: 0 <= i < |CompleteLines(all)| ==> Plain(CompleteLines(all)[i])
    ensures RunOf(kind, parse, items) == Finished(StreamOutcome(kind, parse, items))
  {
    var all := Concat(Texts(items));
    CollectedFromWholeText(kind, parse, items);
    LinesKeepClean(kind, parse, START, CompleteLines(all));
    FlushKeepsClean(kind, parse, OnLines(kind, parse, START, CompleteLines(all)), Residue(all));
    ClosingIsDeliverable(Collect(kind, parse, items), Broken(items));
  }

  // ---------------------------------------------------------------- OpenAI streams, exactly

  /** A data line whose payload is relayed although it cannot be sent. */
  predicate Refused(parse: Parser, line: string) {
    "data: " <= line && line[6..] != "[DONE]" && parse(line[6..]).Some? && '\r' in line
  }

  predicate AnyRefused(parse: Parser, lines: seq<string>) {
    exists i | 0 <= i < |lines| :: Refused(parse, lines[i])
  }

  lemma DeliverableSnoc(sent: seq<Event>, e: Event)
    ensures AllDeliverable(sent + [e]) <==> AllDeliverable(sent) && Deliverable(e)
  {
    assert forall i :: 0 <= i < |sent| ==> (sent + [e])[i] == sent[i];
    assert (sent + [e])[|sent|] == e;
  }

  lemma DataIsRefusedIff(parse: Parser, p: Progress, line: string, live: bool)
    requires "data: " <= line
    ensures AllDeliverable(OpenAiData(parse, p, line[6..], live).sent) <==>
            AllDeliverable(p.sent) && !Refused(parse, line)
  {
    var data := line[6..];
    assert '\r' in line <==> '\r' in data by {
      assert line == "data: " + data;
    }
    DeliverableSnoc(p.sent, Relayed(None, data));
  }

  lemma {:induction false} LinesAreRefusedIff(parse: Parser, p: Progress, lines: seq<string>)
    ensures AllDeliverable(OnLines(OpenAi, parse, p, lines).sent) <==>
            AllDeliverable(p.sent) && !AnyRefused(parse, lines)
    decreases |lines|
  {
    if lines == [] {
    } else {
      var q := OnLine(OpenAi, parse, p, lines[0]);
      LinesAreRefusedIff(parse, q, lines[1..]);
      if "data: " <= lines[0] {
        DataIsRefusedIff(parse, p, lines[0], true);
      }
      AnyRefusedCons(parse, lines);
    }
  }

  lemma AnyRefusedCons(parse: Parser, lines: seq<string>)
    requires lines != []
    ensures AnyRefused(parse, lines) <==> Refused(parse, lines[0]) || AnyRefused(parse, lines[1..])
  {
    if AnyRefused(parse, lines[1..]) {
      var i :| 0 <= i < |lines[1..]| && Refused(parse, lines[1..][i]);
      assert Refused(parse, lines[i + 1]);
    }
    if AnyRefused(parse, lines) && !Refused(parse, lines[0]) {
      var i :| 0 <= i < |lines| && Refused(parse, lines[i]);
      assert lines[1..][i - 1] == lines[i];
    }
  }

  lemma FlushIsRefusedIff(parse: Parser, p: Progress, rest: string)
    requires '\n' !in rest
    ensures AllDeliverable(Flush(OpenAi, parse, p, rest).sent) <==>
            AllDeliverable(p.sent) && (p.ended || !Refused(parse, Trim(rest)))
  {
    var line := Trim(rest);
    if line != "" && !p.ended {
      TrimmedRest(rest);
      assert [line][1..] == [];
      assert FlushLines(OpenAi, parse, p, [line]) == FlushLine(OpenAi, parse, p, line);
      if "data: " <= line {
        DataIsRefusedIff(parse, p, line, false);
      }
    }
  }

  /** An OpenAI stream is relayed to its end if and only if no data line that is JSON has a carriage return
      in it; the trimmed rest counts as such a line unless a marker line came before. */
  lemma OpenAiFinishesIff(parse: Parser, items: seq<StreamItem>)
    ensures var all := Concat(Texts(items));
            RunOf(OpenAi, parse, items).Finished? <==>
            && !AnyRefused(parse, CompleteLines(all))
            && ("data: [DONE]" in CompleteLines(all) || !Refused(parse, Trim(Residue(all))))
  {
    var all := Concat(Texts(items));
    var live := OnLines(OpenAi, parse, START, CompleteLines(all));
    CollectedFromWholeText(OpenAi, parse, items);
    LinesAreRefusedIff(parse, START, CompleteLines(all));
    EndedIffMarkerLine(parse, START, CompleteLines(all));
    FlushIsRefusedIff(parse, live, Residue(all));
    ClosingIsDeliverable(Collect(OpenAi, parse, items), Broken(items));
  }

  /** JSON allows a carriage return between its tokens: one such line, and the client gets nothing at all. */
  lemma CarriageReturnEndsTheRun(parse: Parser, text: string)
    requires '\n' !in text && '\r' in text && Trimmed(text) && parse(text).Some? && text != "[DONE]"
    ensures RunOf(OpenAi, parse, [Data([], "data: " + text + "\n")]) == GaveUp([])
  {
    var line := "data: " + text;
    var items := [Data([], line + "\n")];
    TextsOfOne(line + "\n");
    OneLineOfText(line);
    CollectedFromWholeText(OpenAi, parse, items);
    OneDataLine(parse, text, line);
    FirstIsRefused(Collect(OpenAi, parse, items), Relayed(None, text), Broken(items));
  }

  lemma OneDataLine(parse: Parser, text: string, line: string)
    requires line == "data: " + text && parse(text).Some? && text != "[DONE]"
    ensures Flush(OpenAi, parse, OnLines(OpenAi, parse, START, [line]), "").sent == [Relayed(None, text)]
  {
    assert [line][1..] == [] && line[6..] == text;
    assert OnLines(OpenAi, parse, START, [line]) == OnLine(OpenAi, parse, START, line);
    assert [] + [Relayed(None, text)] == [Relayed(None, text)];
  }

  lemma FirstIsRefused(p: Progress, e: Event, broken: bool)
    requires p.sent == [e] && !Deliverable(e)
    ensures Delivered(p.sent + Closing(p, broken)) == [] && !AllDeliverable(p.sent + Closing(p, broken))
  {
    var sent := p.sent + Closing(p, broken);
    assert sent[0] == e;
  }

  lemma OneLineOfText(line: string)
    requires '\n' !in line && Trimmed(line)
    ensures CompleteLines(line + "\n") == [line] && Residue(line + "\n") == ""
  {
    NoLine(line);
    LinesOfSnoc(line, '\n');
    assert [] + [line] == [line];
  }
}
