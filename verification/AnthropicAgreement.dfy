/** When the streamed and the one-shot conversion of an Anthropic answer mean the same. */
module AnthropicAgreement {
  import opened Wrappers
  import opened Json
  import opened Text
  import opened ToolCalls
  import opened SseRelay
  import opened SseTheorems
  import opened SseBody
  import opened AnthropicConvert
  import opened AnthropicEvents

  // ---------------------------------------------------------------- the blocks of a stream

  /** A content block as it is streamed: the `content_block` of its start event, then the `delta` of each
      of its delta events. Both may be any JSON. */
  datatype BlockStream = BlockStream(start: Value, deltas: seq<Value>)

  function BlockSignals(i: nat, b: BlockStream): seq<Signal> {
    [Opens(i, b.start)] + seq(|b.deltas|, k requires 0 <= k < |b.deltas| => Grows(i, b.deltas[k]))
  }

  function AllBlockSignals(bs: seq<BlockStream>): seq<Signal> {
    if bs == [] then [] else AllBlockSignals(bs[..|bs| - 1]) + BlockSignals(|bs| - 1, bs[|bs| - 1])
  }

  /** The block events come block by block, numbered from zero. Their payloads may have any other members,
      and any other events may stand anywhere. */
  ghost predicate Carries(events: seq<StreamEvent>, bs: seq<BlockStream>) {
    Signals(events) == AllBlockSignals(bs)
  }

  // ---------------------------------------------------------------- what one block amounts to

  function Texts(deltas: seq<Value>): string {
    if deltas == [] then "" else Texts(deltas[..|deltas| - 1]) + DeltaText(deltas[|deltas| - 1])
  }

  function Thinkings(deltas: seq<Value>): string {
    if deltas == [] then "" else Thinkings(deltas[..|deltas| - 1]) + DeltaThinking(deltas[|deltas| - 1])
  }

  /** The pieces of tool input. */
  function Pieces(deltas: seq<Value>): seq<string> {
    if deltas == [] then [] else Pieces(deltas[..|deltas| - 1]) + DeltaPieces(deltas[|deltas| - 1])
  }

  function StreamedText(b: BlockStream): string {
    OpeningText(b.start) + Texts(b.deltas)
  }

  function StreamedThinking(b: BlockStream): string {
    OpeningThinking(b.start) + Thinkings(b.deltas)
  }

  function Fragments(k: nat, deltas: seq<Value>): seq<Fragment> {
    if deltas == [] then [] else Fragments(k, deltas[..|deltas| - 1]) + DeltaFragments(k, deltas[|deltas| - 1])
  }

  function BlockFragments(k: nat, b: BlockStream): seq<Fragment> {
    OpeningFragments(k, b.start) + Fragments(k, b.deltas)
  }

  /** The call a block is reassembled to: tool use makes one, and so do pieces of input in any other block. */
  function StreamedCalls(b: BlockStream): seq<ToolCall> {
    var isTool := Kind(b.start) == "tool_use";
    if !isTool && Pieces(b.deltas) == [] then []
    else [ToolCall(if isTool then b.start.GetStr("id").GetOr("") else "",
                   if isTool then b.start.GetStr("name").GetOr("") else "",
                   Concat(Pieces(b.deltas)))]
  }

  ghost predicate SaysBlock(g: Gist, k: nat, b: BlockStream) {
    g.content == StreamedText(b) && g.reasoning == StreamedThinking(b) && g.frags == BlockFragments(k, b)
  }

  function BlockGist(i: nat, b: BlockStream): Gist {
    Total(SignalGists(BlockSignals(i, b)))
  }

  lemma BlockSignalsSnoc(i: nat, start: Value, deltas: seq<Value>, d: Value)
    ensures BlockGist(i, BlockStream(start, deltas + [d])) ==
            BlockGist(i, BlockStream(start, deltas)).Then(SignalGist(Grows(i, d)))
  {
    var before, b := BlockStream(start, deltas), BlockStream(start, deltas + [d]);
    assert BlockSignals(i, b) == BlockSignals(i, before) + [Grows(i, d)];
    SignalGistsConcat(BlockSignals(i, before), [Grows(i, d)]);
    OneSignal(Grows(i, d));
  }

  lemma OneSignal(s: Signal)
    ensures Total(SignalGists([s])) == SignalGist(s)
  {
    assert SignalGists([s]) == [SignalGist(s)];
    TotalOfOne(SignalGist(s));
  }

  lemma SaysMore(g: Gist, k: nat, start: Value, deltas: seq<Value>, d: Value, more: Gist)
    requires SaysBlock(g, k, BlockStream(start, deltas))
    requires more.content == DeltaText(d) && more.reasoning == DeltaThinking(d) && more.frags == DeltaFragments(k, d)
    ensures SaysBlock(g.Then(more), k, BlockStream(start, deltas + [d]))
  {
    assert (deltas + [d])[..|deltas|] == deltas;
    Assoc(OpeningText(start), Texts(deltas), DeltaText(d));
    Assoc(OpeningThinking(start), Thinkings(deltas), DeltaThinking(d));
    Assoc(OpeningFragments(k, start), Fragments(k, deltas), DeltaFragments(k, d));
  }

  lemma {:induction false} BlockReads(i: nat, b: BlockStream)
    ensures SaysBlock(BlockGist(i, b), FragmentIndex(i), b)
    decreases |b.deltas|
  {
    if b.deltas == [] {
      assert BlockSignals(i, b) == [Opens(i, b.start)];
      OneSignal(Opens(i, b.start));
      assert OpeningText(b.start) + "" == OpeningText(b.start);
      assert OpeningThinking(b.start) + "" == OpeningThinking(b.start);
      assert OpeningFragments(FragmentIndex(i), b.start) + [] == OpeningFragments(FragmentIndex(i), b.start);
    } else {
      var init, last := b.deltas[..|b.deltas| - 1], b.deltas[|b.deltas| - 1];
      SplitLast(b.deltas);
      var before := BlockStream(b.start, init);
      assert b == BlockStream(b.start, init + [last]);
      BlockReads(i, before);
      BlockSignalsSnoc(i, b.start, init, last);
      SaysMore(BlockGist(i, before), FragmentIndex(i), b.start, init, last, SignalGist(Grows(i, last)));
    }
  }

  // ---------------------------------------------------------------- the call of one block

  lemma {:induction false} AllOfOneIndex(fs: seq<Fragment>, k: nat)
    requires forall j :: 0 <= j < |fs| ==> fs[j].index == k
    ensures Only(fs, k) == fs && forall k': nat :: k' != k ==> Only(fs, k') == []
  {
    if fs == [] {
    } else {
      SplitLast(fs);
      AllOfOneIndex(fs[..|fs| - 1], k);
    }
  }

  /** The fragments of a block, taken together, and whether there are any. */
  ghost predicate MakesCall(k: nat, start: Value, deltas: seq<Value>) {
    var fs := BlockFragments(k, BlockStream(start, deltas));
    var isTool := Kind(start) == "tool_use";
    && (fs == [] <==> !isTool && Pieces(deltas) == [])
    && (forall j :: 0 <= j < |fs| ==> fs[j].index == k)
    && Whole(fs) == ToolCall(if isTool then start.GetStr("id").GetOr("") else "",
                             if isTool then start.GetStr("name").GetOr("") else "",
                             Concat(Pieces(deltas)))
  }

  lemma OpeningMakesCall(k: nat, start: Value)
    ensures MakesCall(k, start, [])
  {
    var fs := OpeningFragments(k, start);
    assert fs + [] == fs;
    assert Whole([]) == NO_CALL;
    if Kind(start) == "tool_use" {
      assert fs == [] + [fs[0]];
      WholeOfSnoc([], fs[0]);
    }
  }

  lemma DeltaMakesCall(k: nat, start: Value, deltas: seq<Value>, d: Value)
    requires MakesCall(k, start, deltas)
    ensures MakesCall(k, start, deltas + [d])
  {
    var before := BlockFragments(k, BlockStream(start, deltas));
    assert (deltas + [d])[..|deltas|] == deltas;
    Assoc(OpeningFragments(k, start), Fragments(k, deltas), DeltaFragments(k, d));
    if Kind(d) == "input_json_delta" {
      WholeOfSnoc(before, DeltaFragments(k, d)[0]);
      ConcatSnoc(Pieces(deltas), DeltaPieces(d)[0]);
    } else {
      assert before + [] == before && Pieces(deltas) + [] == Pieces(deltas);
    }
  }

  lemma {:induction false} FragmentsMakeCall(k: nat, start: Value, deltas: seq<Value>)
    ensures MakesCall(k, start, deltas)
  {
    if deltas == [] {
      OpeningMakesCall(k, start);
    } else {
      SplitLast(deltas);
      FragmentsMakeCall(k, start, deltas[..|deltas| - 1]);
      DeltaMakesCall(k, start, deltas[..|deltas| - 1], deltas[|deltas| - 1]);
    }
  }

  ghost predicate KeysBelow(frags: seq<Fragment>, n: nat) {
    forall k :: k in Table(frags) ==> k < n
  }

  /** The fragments of block n follow those of smaller indices and add its call at the end. */
  lemma BlockAppendsItsCall(before: seq<Fragment>, n: nat, b: BlockStream)
    requires KeysBelow(before, n)
    ensures CallsOf(Table(before + BlockFragments(n, b))) == CallsOf(Table(before)) + StreamedCalls(b)
    ensures KeysBelow(before + BlockFragments(n, b), n + 1)
  {
    var fs := BlockFragments(n, b);
    assert b == BlockStream(b.start, b.deltas);
    FragmentsMakeCall(n, b.start, b.deltas);
    if fs == [] {
      assert before + fs == before;
    } else {
      AllOfOneIndex(fs, n);
      FreshRun(before, fs, n);
    }
  }

  // ---------------------------------------------------------------- a whole stream in closed form

  function PerBlock<T>(bs: seq<BlockStream>, f: BlockStream -> seq<T>): seq<seq<T>> {
    seq(|bs|, i requires 0 <= i < |bs| => f(bs[i]))
  }

  lemma PerBlockSnoc<T>(bs: seq<BlockStream>, b: BlockStream, f: BlockStream -> seq<T>)
    ensures Concat(PerBlock(bs + [b], f)) == Concat(PerBlock(bs, f)) + f(b)
  {
    assert PerBlock(bs + [b], f) == PerBlock(bs, f) + [f(b)];
    ConcatSnoc(PerBlock(bs, f), f(b));
  }

  /** Texts and thinking one after the other, and one call per block that makes one, in block order. */
  ghost predicate SaysBlocks(g: Gist, bs: seq<BlockStream>) {
    && g.content == Concat(PerBlock(bs, StreamedText))
    && g.reasoning == Concat(PerBlock(bs, StreamedThinking))
    && CallsOf(Table(g.frags)) == Concat(PerBlock(bs, StreamedCalls))
    && KeysBelow(g.frags, |bs|)
  }

  lemma SaysOneMore(g: Gist, bs: seq<BlockStream>, b: BlockStream, more: Gist)
    requires SaysBlocks(g, bs) && SaysBlock(more, |bs|, b)
    ensures SaysBlocks(g.Then(more), bs + [b])
  {
    PerBlockSnoc(bs, b, StreamedText);
    PerBlockSnoc(bs, b, StreamedThinking);
    PerBlockSnoc(bs, b, StreamedCalls);
    BlockAppendsItsCall(g.frags, |bs|, b);
  }

  lemma AllBlockSignalsSnoc(bs: seq<BlockStream>, b: BlockStream)
    ensures AllBlockSignals(bs + [b]) == AllBlockSignals(bs) + BlockSignals(|bs|, b)
  {
    assert (bs + [b])[..|bs|] == bs;
  }

  lemma {:induction false} BlocksRead(bs: seq<BlockStream>)
    requires |bs| <= 0x8000_0000
    ensures SaysBlocks(Total(SignalGists(AllBlockSignals(bs))), bs)
  {
    if bs == [] {
      assert SignalGists([]) == [];
      assert PerBlock(bs, StreamedCalls) == [];
    } else {
      var init, last := bs[..|bs| - 1], bs[|bs| - 1];
      SplitLast(bs);
      BlocksRead(init);
      BlockReads(|init|, last);
      AllBlockSignalsSnoc(init, last);
      SignalGistsConcat(AllBlockSignals(init), BlockSignals(|init|, last));
      SaysOneMore(Total(SignalGists(AllBlockSignals(init))), init, last, BlockGist(|init|, last));
    }
  }

  /** The reassembled answer of any stream of blocks, in any fragmentation. */
  lemma StreamInClosedForm(h: Header, events: seq<StreamEvent>, bs: seq<BlockStream>, now: int)
    requires Carries(events, bs) && |bs| <= 0x8000_0000
    ensures var answer, calls := AnswerOf(ConvertAll(h, events), now), Concat(PerBlock(bs, StreamedCalls));
            && answer.content == ContentField(Concat(PerBlock(bs, StreamedText)), calls)
            && answer.reasoning == NonEmpty(Concat(PerBlock(bs, StreamedThinking)))
            && answer.toolCalls == if calls == [] then None else Some(calls)
  {
    StreamReads(h, events);
    BlocksRead(bs);
    AnswerOfGist(ConvertAll(h, events), now, StreamGist(events));
  }

  /** The parts of an answer that depend on the gist alone. */
  lemma AnswerOfGist(chunks: seq<Value>, now: int, gist: Gist)
    requires GistOf(chunks) == gist
    ensures var answer, calls := AnswerOf(chunks, now), CallsOf(Table(gist.frags));
            && answer.content == ContentField(gist.content, calls)
            && answer.reasoning == NonEmpty(gist.reasoning)
            && answer.toolCalls == if calls == [] then None else Some(calls)
  {
    GistIsTheFold(chunks);
  }

  // ---------------------------------------------------------------- the same blocks in one piece

  function WholeTexts(blocks: seq<Value>): seq<string> {
    seq(|blocks|, i requires 0 <= i < |blocks| => BlockText(blocks[i]))
  }

  function WholeThinkings(blocks: seq<Value>): seq<string> {
    seq(|blocks|, i requires 0 <= i < |blocks| => BlockThinking(blocks[i]))
  }

  function WholeCalls(blocks: seq<Value>, toText: Printer): seq<seq<ToolCall>> {
    seq(|blocks|, i requires 0 <= i < |blocks| => BlockCall(blocks[i], toText))
  }

  lemma WholeTextsSnoc(blocks: seq<Value>, block: Value)
    ensures Concat(WholeTexts(blocks + [block])) == Concat(WholeTexts(blocks)) + BlockText(block)
    ensures Concat(WholeThinkings(blocks + [block])) == Concat(WholeThinkings(blocks)) + BlockThinking(block)
  {
    assert WholeTexts(blocks + [block]) == WholeTexts(blocks) + [BlockText(block)];
    ConcatSnoc(WholeTexts(blocks), BlockText(block));
    assert WholeThinkings(blocks + [block]) == WholeThinkings(blocks) + [BlockThinking(block)];
    ConcatSnoc(WholeThinkings(blocks), BlockThinking(block));
  }

  lemma WholeCallsSnoc(blocks: seq<Value>, block: Value, toText: Printer)
    ensures Concat(WholeCalls(blocks + [block], toText)) ==
            Concat(WholeCalls(blocks, toText)) + BlockCall(block, toText)
  {
    assert WholeCalls(blocks + [block], toText) == WholeCalls(blocks, toText) + [BlockCall(block, toText)];
    ConcatSnoc(WholeCalls(blocks, toText), BlockCall(block, toText));
  }

  lemma {:induction false} WholeBlocksRead(blocks: seq<Value>, toText: Printer)
    ensures AllText(blocks) == Concat(WholeTexts(blocks)) && AllThinking(blocks) == Concat(WholeThinkings(blocks))
    ensures AllCalls(blocks, toText) == Concat(WholeCalls(blocks, toText))
  {
    if blocks == [] {
    } else {
      var init, last := blocks[..|blocks| - 1], blocks[|blocks| - 1];
      SplitLast(blocks);
      WholeBlocksRead(init, toText);
      WholeTextsSnoc(init, last);
      WholeCallsSnoc(init, last, toText);
    }
  }

  /** The parts of a one-shot answer that depend on its content blocks alone. */
  lemma ResponseOfBlocks(response: Value, blocks: seq<Value>, model: string, id: string, now: int, toText: Printer)
    requires response.GetArray("content") == Some(blocks)
    ensures var answer, calls := ResponseOf(response, model, id, now, toText), AllCalls(blocks, toText);
            && answer.content == NonEmpty(AllText(blocks))
            && answer.reasoning == NonEmpty(AllThinking(blocks))
            && answer.toolCalls == if calls == [] then None else Some(calls)
  {
  }

  function OwnText(delta: Value): string {
    if Kind(delta) == "text_delta" then delta.GetStr("text").GetOr("") else ""
  }

  /** The text of the deltas made for text blocks, and for thinking blocks. */
  function OwnTexts(deltas: seq<Value>): string {
    if deltas == [] then "" else OwnTexts(deltas[..|deltas| - 1]) + OwnText(deltas[|deltas| - 1])
  }

  function OwnThinkings(deltas: seq<Value>): string {
    if deltas == [] then ""
    else
      var last := deltas[|deltas| - 1];
      OwnThinkings(deltas[..|deltas| - 1]) +
      if Kind(last) == "thinking_delta" then last.GetStr("thinking").GetOr("") else ""
  }

  /** `whole` is what the upstream sends for the block when it does not stream: the same kind, the same
      name and id, the opening text with its deltas added. The input of a tool is not compared here. */
  ghost predicate IsWhole(whole: Value, b: BlockStream) {
    && Kind(whole) == Kind(b.start)
    && (Kind(b.start) == "text" ==>
          whole.GetStr("text").GetOr("") == b.start.GetStr("text").GetOr("") + OwnTexts(b.deltas))
    && (Kind(b.start) == "thinking" ==>
          whole.GetStr("thinking").GetOr("") == b.start.GetStr("thinking").GetOr("") + OwnThinkings(b.deltas))
    && (Kind(b.start) == "tool_use" ==>
          && whole.GetStr("id").GetOr("") == b.start.GetStr("id").GetOr("")
          && whole.GetStr("name").GetOr("") == b.start.GetStr("name").GetOr(""))
  }

  ghost predicate AreWhole(wholes: seq<Value>, bs: seq<BlockStream>) {
    |wholes| == |bs| && forall i :: 0 <= i < |bs| ==> IsWhole(wholes[i], bs[i])
  }

  // ---------------------------------------------------------------- when a block is converted alike

  ghost predicate TextDeltaFits(delta: Value) {
    Kind(delta) == "text_delta" || DeltaText(delta) == ""
  }

  ghost predicate NoText(deltas: seq<Value>) {
    forall k :: 0 <= k < |deltas| ==> DeltaText(deltas[k]) == ""
  }

  /** Text is streamed in text deltas of text blocks only. */
  ghost predicate TextFits(b: BlockStream) {
    if Kind(b.start) == "text" then
      forall k :: 0 <= k < |b.deltas| ==> TextDeltaFits(b.deltas[k])
    else OpeningText(b.start) == "" && NoText(b.deltas)
  }

  /** Thinking is streamed in thinking blocks only. */
  ghost predicate ThinkingFits(b: BlockStream) {
    Kind(b.start) == "thinking" || forall k :: 0 <= k < |b.deltas| ==> DeltaThinking(b.deltas[k]) == ""
  }

  /** The pieces of a tool's input spell the input as it is printed, and no other block has such pieces. */
  ghost predicate CallFits(b: BlockStream, whole: Value, toText: Printer) {
    if Kind(b.start) == "tool_use" then
      Concat(Pieces(b.deltas)) == (if whole.Get("input").Some? then toText(whole.Get("input").value) else "")
    else forall k :: 0 <= k < |b.deltas| ==> Kind(b.deltas[k]) != "input_json_delta"
  }

  lemma OneTextFits(d: Value)
    ensures |DeltaText(d)| >= |OwnText(d)| && (DeltaText(d) == OwnText(d) <==> TextDeltaFits(d))
  {
  }

  lemma {:induction false} TextsFit(deltas: seq<Value>)
    ensures |Texts(deltas)| >= |OwnTexts(deltas)|
    ensures Texts(deltas) == OwnTexts(deltas) <==> forall k :: 0 <= k < |deltas| ==> TextDeltaFits(deltas[k])
  {
    if deltas == [] {
    } else {
      var init, last := deltas[..|deltas| - 1], deltas[|deltas| - 1];
      TextsFit(init);
      OneTextFits(last);
      LongerParts(Texts(init), DeltaText(last), OwnTexts(init), OwnText(last));
      SplitLast(deltas);
      ForAllSnoc(init, last, TextDeltaFits);
    }
  }

  lemma {:induction false} TextsVanish(deltas: seq<Value>)
    ensures Texts(deltas) == "" <==> NoText(deltas)
  {
    if deltas == [] {
    } else {
      var init, last := deltas[..|deltas| - 1], deltas[|deltas| - 1];
      TextsVanish(init);
      SplitLast(deltas);
      ForAllSnoc(init, last, d => DeltaText(d) == "");
    }
  }

  lemma ForAllSnoc(deltas: seq<Value>, d: Value, p: Value -> bool)
    ensures (forall k :: 0 <= k < |deltas + [d]| ==> p((deltas + [d])[k])) <==>
            p(d) && forall k :: 0 <= k < |deltas| ==> p(deltas[k])
  {
    var all := deltas + [d];
    assert all[|deltas|] == d && forall k :: 0 <= k < |deltas| ==> all[k] == deltas[k];
  }

  lemma LongerParts<T>(a: seq<T>, a': seq<T>, w: seq<T>, w': seq<T>)
    requires |a| >= |w| && |a'| >= |w'|
    ensures a + a' == w + w' <==> a == w && a' == w'
  {
    if a + a' == w + w' {
      assert |a + a'| == |w + w'|;
      assert a == (a + a')[..|a|] && w == (w + w')[..|a|];
      assert a' == (a + a')[|a|..] && w' == (w + w')[|a|..];
    }
  }

  lemma {:induction false} ThinkingsFit(deltas: seq<Value>)
    ensures Thinkings(deltas) == OwnThinkings(deltas)
    ensures Thinkings(deltas) == "" <==> forall k :: 0 <= k < |deltas| ==> DeltaThinking(deltas[k]) == ""
  {
    if deltas == [] {
    } else {
      var init := deltas[..|deltas| - 1];
      ThinkingsFit(init);
      assert forall k :: 0 <= k < |init| ==> deltas[k] == init[k];
    }
  }

  lemma {:induction false} PiecesFit(deltas: seq<Value>)
    ensures Pieces(deltas) == [] <==> forall k :: 0 <= k < |deltas| ==> Kind(deltas[k]) != "input_json_delta"
  {
    if deltas == [] {
    } else {
      var init := deltas[..|deltas| - 1];
      PiecesFit(init);
      assert forall k :: 0 <= k < |init| ==> deltas[k] == init[k];
    }
  }

  lemma TextAgreesIff(b: BlockStream, whole: Value)
    requires IsWhole(whole, b)
    ensures |StreamedText(b)| >= |BlockText(whole)|
    ensures StreamedText(b) == BlockText(whole) <==> TextFits(b)
  {
    TextsFit(b.deltas);
    TextsVanish(b.deltas);
    if Kind(b.start) == "text" {
      assert whole.GetStr("type") == Some("text");
      LongerParts(OpeningText(b.start), Texts(b.deltas), OpeningText(b.start), OwnTexts(b.deltas));
    } else {
      LongerParts(OpeningText(b.start), Texts(b.deltas), "", "");
      assert BlockText(whole) == "" + "";
    }
  }

  lemma ThinkingAgreesIff(b: BlockStream, whole: Value)
    requires IsWhole(whole, b)
    ensures |StreamedThinking(b)| >= |BlockThinking(whole)|
    ensures StreamedThinking(b) == BlockThinking(whole) <==> ThinkingFits(b)
  {
    ThinkingsFit(b.deltas);
    if Kind(b.start) == "thinking" {
      assert whole.GetStr("type") == Some("thinking");
    } else {
      assert "" + Thinkings(b.deltas) == Thinkings(b.deltas);
    }
  }

  lemma CallAgreesIff(b: BlockStream, whole: Value, toText: Printer)
    requires IsWhole(whole, b)
    ensures |StreamedCalls(b)| >= |BlockCall(whole, toText)|
    ensures StreamedCalls(b) == BlockCall(whole, toText) <==> CallFits(b, whole, toText)
  {
    PiecesFit(b.deltas);
    assert Kind(whole) == "tool_use" <==> whole.GetStr("type") == Some("tool_use");
    if Kind(b.start) == "tool_use" {
      assert StreamedCalls(b)[0].arguments == Concat(Pieces(b.deltas));
    }
  }

  // ---------------------------------------------------------------- agreement

  /** Pieces that are never shorter concatenate to the same only if they are the same. */
  lemma {:induction false} ConcatAgreesIff<T>(a: seq<seq<T>>, w: seq<seq<T>>)
    requires |a| == |w| && forall i :: 0 <= i < |a| ==> |a[i]| >= |w[i]|
    ensures |Concat(a)| >= |Concat(w)|
    ensures Concat(a) == Concat(w) <==> forall i :: 0 <= i < |a| ==> a[i] == w[i]
  {
    if a == [] {
    } else {
      ConcatAgreesIff(a[1..], w[1..]);
      LongerParts(a[0], Concat(a[1..]), w[0], Concat(w[1..]));
      assert forall i :: 0 < i < |a| ==> a[i] == a[1..][i - 1] && w[i] == w[1..][i - 1];
    }
  }

  lemma TextsAgreeIff(bs: seq<BlockStream>, wholes: seq<Value>)
    requires AreWhole(wholes, bs)
    ensures Concat(PerBlock(bs, StreamedText)) == Concat(WholeTexts(wholes)) <==>
            forall i :: 0 <= i < |bs| ==> TextFits(bs[i])
  {
    var a, w := PerBlock(bs, StreamedText), WholeTexts(wholes);
    forall i | 0 <= i < |bs| ensures |a[i]| >= |w[i]| && (a[i] == w[i] <==> TextFits(bs[i])) {
      TextAgreesIff(bs[i], wholes[i]);
    }
    ConcatAgreesIff(a, w);
  }

  lemma ThinkingsAgreeIff(bs: seq<BlockStream>, wholes: seq<Value>)
    requires AreWhole(wholes, bs)
    ensures Concat(PerBlock(bs, StreamedThinking)) == Concat(WholeThinkings(wholes)) <==>
            forall i :: 0 <= i < |bs| ==> ThinkingFits(bs[i])
  {
    var a, w := PerBlock(bs, StreamedThinking), WholeThinkings(wholes);
    forall i | 0 <= i < |bs| ensures |a[i]| >= |w[i]| && (a[i] == w[i] <==> ThinkingFits(bs[i])) {
      ThinkingAgreesIff(bs[i], wholes[i]);
    }
    ConcatAgreesIff(a, w);
  }

  lemma CallsAgreeIff(bs: seq<BlockStream>, wholes: seq<Value>, toText: Printer)
    requires AreWhole(wholes, bs)
    ensures Concat(PerBlock(bs, StreamedCalls)) == Concat(WholeCalls(wholes, toText)) <==>
            forall i :: 0 <= i < |bs| ==> CallFits(bs[i], wholes[i], toText)
  {
    var a, w := PerBlock(bs, StreamedCalls), WholeCalls(wholes, toText);
    forall i | 0 <= i < |bs| ensures |a[i]| >= |w[i]| && (a[i] == w[i] <==> CallFits(bs[i], wholes[i], toText)) {
      CallAgreesIff(bs[i], wholes[i], toText);
    }
    ConcatAgreesIff(a, w);
  }

  /** Converting a stream event by event and reassembling the chunks, and converting the whole answer at
      once: for all blocks of all kinds in all fragmentations, the exact conditions under which the two
      agree. An empty content without tool calls is Some("") in the stream and None in one shot. */
  lemma StreamAgreesWithOneShot(
      h: Header, events: seq<StreamEvent>, bs: seq<BlockStream>, now: int, response: Value, wholes: seq<Value>,
      model: string, id: string, toText: Printer)
    requires Carries(events, bs) && |bs| <= 0x8000_0000
    requires response.GetArray("content") == Some(wholes) && AreWhole(wholes, bs)
    ensures var streamed := AnswerOf(ConvertAll(h, events), now);
            var whole := ResponseOf(response, model, id, now, toText);
            var textFits := forall i :: 0 <= i < |bs| ==> TextFits(bs[i]);
            && (streamed.content.GetOr("") == whole.content.GetOr("") <==> textFits)
            && (streamed.content == whole.content <==>
                  textFits && (whole.content.Some? || streamed.toolCalls.Some?))
            && (streamed.reasoning == whole.reasoning <==> forall i :: 0 <= i < |bs| ==> ThinkingFits(bs[i]))
            && (streamed.toolCalls == whole.toolCalls <==>
                  forall i :: 0 <= i < |bs| ==> CallFits(bs[i], wholes[i], toText))
  {
    StreamInClosedForm(h, events, bs, now);
    ResponseOfBlocks(response, wholes, model, id, now, toText);
    WholeBlocksRead(wholes, toText);
    TextsAgreeIff(bs, wholes);
    ThinkingsAgreeIff(bs, wholes);
    CallsAgreeIff(bs, wholes, toText);
  }

  // ---------------------------------------------------------------- where they do not agree

  /** The events of one block with one delta. */
  function OneBlock(b: BlockStream): seq<StreamEvent>
    requires |b.deltas| == 1
  {
    [StreamEvent("content_block_start",
                 Obj(map["index" := Int(0), "type" := Str("content_block_start"), "content_block" := b.start]), 0),
     StreamEvent("content_block_delta",
                 Obj(map["index" := Int(0), "type" := Str("content_block_delta"), "delta" := b.deltas[0]]), 0)]
  }

  lemma OneBlockIsCarried(b: BlockStream)
    requires |b.deltas| == 1
    ensures Carries(OneBlock(b), [b])
  {
    var events := OneBlock(b);
    assert events[..1][..0] == [] && [b][..0] == [];
    assert SignalOf(events[0]) == [Opens(0, b.start)] && SignalOf(events[1]) == [Grows(0, b.deltas[0])];
    assert Signals(events[..1]) == [Opens(0, b.start)];
    assert Signals(events) == [Opens(0, b.start)] + [Grows(0, b.deltas[0])];
    assert AllBlockSignals([b]) == [] + BlockSignals(0, b) == [Opens(0, b.start)] + [Grows(0, b.deltas[0])];
  }

  const PIECE := Obj(map["type" := Str("input_json_delta"), "partial_json" := Str("{}")])

  /** The use of a tool on the server becomes a nameless tool call in the stream, and nothing in one shot. */
  lemma ServerToolIsLeaked(h: Header, now: int)
    ensures var b := BlockStream(Obj(map["type" := Str("server_tool_use")]), [PIECE]);
            && AnswerOf(ConvertAll(h, OneBlock(b)), now).toolCalls == Some([ToolCall("", "", "{}")])
            && forall whole, toText: Printer :: IsWhole(whole, b) ==> BlockCall(whole, toText) == []
  {
    var b := BlockStream(Obj(map["type" := Str("server_tool_use")]), [PIECE]);
    assert Kind(b.start) == "server_tool_use";
    OnePiece(b);
    OneBlockIsCarried(b);
    OneBlockCalls(h, OneBlock(b), b, now);
  }

  lemma OnePiece(b: BlockStream)
    requires b.deltas == [PIECE]
    ensures Concat(Pieces(b.deltas)) == "{}" && Pieces(b.deltas) != []
  {
    assert Kind(PIECE) == "input_json_delta" && PIECE.GetStr("partial_json") == Some("{}");
    assert [PIECE][..0] == [] && Pieces([PIECE]) == [] + ["{}"];
    assert Concat(["{}"]) == "{}" + Concat<char>([]);
  }

  lemma CallsOfOne(b: BlockStream)
    ensures Concat(PerBlock([b], StreamedCalls)) == StreamedCalls(b)
  {
    PerBlockSnoc([], b, StreamedCalls);
    assert [] + [b] == [b] && PerBlock([], StreamedCalls) == [];
  }

  lemma OneBlockCalls(h: Header, events: seq<StreamEvent>, b: BlockStream, now: int)
    requires Carries(events, [b])
    ensures var calls := StreamedCalls(b);
            AnswerOf(ConvertAll(h, events), now).toolCalls == if calls == [] then None else Some(calls)
  {
    var bs := [b];
    StreamInClosedForm(h, events, bs, now);
    CallsOfOne(b);
  }
}
