/** What becomes of the stop reason of an Anthropic answer (src/proxy/upstream.rs). */
module FinishReasons {
  import opened Wrappers
  import opened Json
  import opened AnthropicConvert
  import opened Readings

  /** The finish reason that stands for a stop reason: three are renamed, an absent one means "stop", and
      all others are kept. */
  ghost predicate StandsFor(finish: Option<string>, reason: Option<string>) {
    && finish.Some?
    && (finish == Some("stop") <==> reason in {None, Some("end_turn"), Some("stop")})
    && (finish == Some("length") <==> reason in {Some("max_tokens"), Some("length")})
    && (finish == Some("tool_calls") <==> reason in {Some("tool_use"), Some("tool_calls")})
    && (reason.Some? && reason !in {Some("end_turn"), Some("max_tokens"), Some("tool_use")} ==> finish == reason)
  }

  lemma RenamedReasons(reason: Option<string>)
    ensures StandsFor(Some(FinishReason(reason.GetOr("stop"))), reason)
  {
    assert |"stop"| == 4 && |"length"| == 6 && |"max_tokens"| == 10 && |"end_turn"| == 8;
    assert "tool_use"[0] != "end_turn"[0] && "tool_calls"[0] != "max_tokens"[0] && |"tool_use"| != |"tool_calls"|;
  }

  /** The finish reason of a one-shot answer. */
  lemma AnswerFinishes(response: Value, model: string, id: string, now: int, toText: Printer)
    ensures StandsFor(ResponseOf(response, model, id, now, toText).finishReason,
                      TextAt(response, Key("stop_reason", Here)))
  {
    LastKey(response, "stop_reason");
    RenamedReasons(TextAt(response, Key("stop_reason", Here)));
  }

  /** The finish reason of the chunk that a `message_delta` event is converted to. */
  lemma DeltaFinishes(h: Header, data: Value)
    ensures var chunks := ConvertEvent(h, "message_delta", data);
            && |chunks| == 1
            && StandsFor(TextAt(chunks[0], FirstChoice(Key("finish_reason", Here))),
                         TextAt(data, Key("delta", Key("stop_reason", Here))))
  {
    var reason := TextAt(data, Key("delta", Key("stop_reason", Here)));
    TwoKeys(data, "delta", "stop_reason");
    RenamedReasons(reason);
    ChunkOfDelta(h, data, FinishReason(reason.GetOr("stop")));
  }

  lemma ChunkOfDelta(h: Header, data: Value, finish: string)
    requires finish == FinishReason(data.Get("delta").GetOr(Null).GetStr("stop_reason").GetOr("stop"))
    ensures TextAt(MessageDelta(h, data), FirstChoice(Key("finish_reason", Here))) == Some(finish)
  {
    var chunk := MessageDelta(h, data);
    var choice := Obj(map["index" := Int(0), "finish_reason" := Str(finish), "delta" := Obj(map[])]);
    assert chunk.fields["choices"] == Arr([choice]);
    ChoiceStep(chunk, 0, Key("finish_reason", Here));
    LastKey(choice, "finish_reason");
  }
}
