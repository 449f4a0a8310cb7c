/** Streaming an Anthropic message and parsing it whole give the client the same reply. */
module StreamMessage {
  import opened Common
  import opened StreamTypes
  import opened StreamWriter
  import opened StreamDecoder
  import opened StreamRoundTrip

  /**
    * A content block of a complete message; a tool's input is its JSON text. A block of another type may
    * carry a text field too.
    */
  datatype ContentBlock =
    | TextContent(text: string)
    | ToolUseContent(id: string, name: string, input: string)
    | OtherContent(text: string)

  datatype Message = Message(id: string, model: string, content: seq<ContentBlock>, stopReason: Option<StopReason>)

  datatype ParsedTool = ParsedTool(id: string, name: string, arguments: string)

  /** The parsed reply; `content` stays absent while no text block has been seen. */
  datatype Parsed = Parsed(content: Option<string>, tools: seq<ParsedTool>, finish: FinishReason)

  // ----- What a complete message says -----

  function BlockText(b: ContentBlock): string {
    if b.ToolUseContent? then "" else b.text
  }

  function MessageText(blocks: seq<ContentBlock>): string {
    if blocks == [] then "" else MessageText(blocks[..|blocks| - 1]) + BlockText(blocks[|blocks| - 1])
  }

  /** The tool_use blocks, in order. */
  function ToolUses(blocks: seq<ContentBlock>): (r: seq<ContentBlock>)
    ensures forall k :: 0 <= k < |r| ==> r[k].ToolUseContent?
  {
    if blocks == [] then []
    else
      var b := blocks[|blocks| - 1];
      ToolUses(blocks[..|blocks| - 1]) + (if b.ToolUseContent? then [b] else [])
  }

  /** An input that is missing or null is presented as an empty object. */
  function ParsedArguments(input: string): string {
    if input != "" && input != "null" then input else "{}"
  }

  /** The tool calls are these blocks, in order. */
  ghost predicate AreParsed(tools: seq<ParsedTool>, uses: seq<ContentBlock>)
    requires forall k :: 0 <= k < |uses| ==> uses[k].ToolUseContent?
  {
    && |tools| == |uses|
    && forall k :: 0 <= k < |tools| ==>
         tools[k] == ParsedTool(uses[k].id, uses[k].name, ParsedArguments(uses[k].input))
  }

  lemma AreParsedSnoc(tools: seq<ParsedTool>, uses: seq<ContentBlock>, b: ContentBlock)
    requires forall k :: 0 <= k < |uses| ==> uses[k].ToolUseContent?
    requires AreParsed(tools, uses) && b.ToolUseContent?
    ensures AreParsed(tools + [ParsedTool(b.id, b.name, ParsedArguments(b.input))], uses + [b])
  {
    hide ParsedArguments;
  }

  lemma TextSnoc(blocks: seq<ContentBlock>, i: nat)
    requires i < |blocks|
    ensures MessageText(blocks[..i + 1]) == MessageText(blocks[..i]) + BlockText(blocks[i])
    ensures ToolUses(blocks[..i + 1]) == ToolUses(blocks[..i]) + (if blocks[i].ToolUseContent? then [blocks[i]] else [])
  {
    assert blocks[..i + 1][..i] == blocks[..i];
  }

  /** The non-streaming parser (pkg/adapter/anthropic.go, AnthropicParseResponse). */
  method ParseResponse(m: Message) returns (r: Parsed)
    ensures r.content == None <==> forall i :: 0 <= i < |m.content| ==> m.content[i].ToolUseContent?
    ensures r.content.Some? ==> r.content.value == MessageText(m.content)
    ensures AreParsed(r.tools, ToolUses(m.content))
    ensures r.finish == MapAnthropicStopReason(m.stopReason)
  {
    hide MessageText, ToolUses, AreParsed;
    var content: Option<string> := None;
    var tools: seq<ParsedTool> := [];
    NothingParsed(m.content);
    for i := 0 to |m.content|
      invariant content == None <==> forall j :: 0 <= j < i ==> m.content[j].ToolUseContent?
      invariant MessageText(m.content[..i]) == if content.Some? then content.value else ""
      invariant AreParsed(tools, ToolUses(m.content[..i]))
    {
      var b := m.content[i];
      TextSnoc(m.content, i);
      if b.ToolUseContent? {
        var args := "{}";
        if |b.input| > 0 && b.input != "null" {
          args := b.input;
        }
        AreParsedSnoc(tools, ToolUses(m.content[..i]), b);
        tools := tools + [ParsedTool(b.id, b.name, args)];
      } else {
        assert ToolUses(m.content[..i + 1]) == ToolUses(m.content[..i]);
        if content == None {
          content := Some(b.text);
        } else if b.text != "" {
          content := Some(content.value + b.text);
        }
      }
    }
    assert m.content[..|m.content|] == m.content;
    r := Parsed(content, tools, MapAnthropicStopReason(m.stopReason));
  }

  lemma NothingParsed(blocks: seq<ContentBlock>)
    ensures MessageText(blocks[..0]) == "" && AreParsed([], ToolUses(blocks[..0]))
  {
  }

  // ----- Any way of streaming it -----

  /** Between two deltas of a block an upstream may send pings. */
  datatype Piece = Ping | Part(text: string)

  function Joined(pieces: seq<Piece>): string {
    if pieces == [] then ""
    else
      var p := pieces[|pieces| - 1];
      Joined(pieces[..|pieces| - 1]) + PieceText(p)
  }

  /** The pieces spell the block's text, or its input, however it is cut. */
  predicate Spells(pieces: seq<Piece>, b: ContentBlock) {
    match b
    case TextContent(text) => Joined(pieces) == text
    case ToolUseContent(_, _, input) => Joined(pieces) == input
    case OtherContent(_) => true
  }

  function StartOf(b: ContentBlock): Block {
    match b
    case TextContent(_) => TextBlock("")
    case ToolUseContent(id, name, _) => ToolUseBlock(id, name)
    case OtherContent(_) => OtherBlock
  }

  function PieceEvent(index: int, b: ContentBlock, p: Piece): Event {
    if p.Ping? then OtherEvent
    else BlockDelta(index, match b
                           case TextContent(_) => TextDelta(p.text)
                           case ToolUseContent(_, _, _) => InputJsonDelta(p.text)
                           case OtherContent(_) => OtherDelta)
  }

  function PieceEvents(index: int, b: ContentBlock, pieces: seq<Piece>): seq<Event> {
    if pieces == [] then []
    else PieceEvents(index, b, pieces[..|pieces| - 1]) + [PieceEvent(index, b, pieces[|pieces| - 1])]
  }

  function BlockEvents(index: int, b: ContentBlock, pieces: seq<Piece>): seq<Event> {
    [BlockStart(index, StartOf(b))] + PieceEvents(index, b, pieces) + [BlockStop(index)]
  }

  function BlocksEvents(blocks: seq<ContentBlock>, cuts: seq<seq<Piece>>): seq<Event>
    requires |cuts| == |blocks|
  {
    if blocks == [] then []
    else
      var n := |blocks| - 1;
      BlocksEvents(blocks[..n], cuts[..n]) + BlockEvents(n, blocks[n], cuts[n])
  }

  /** The event stream of a message, cut into the given pieces. */
  function StreamOf(m: Message, cuts: seq<seq<Piece>>, outputTokens: int): seq<Event>
    requires |cuts| == |m.content|
  {
    [MessageStart(m.id, m.model)] + BlocksEvents(m.content, cuts)
    + ([MessageDelta(m.stopReason, outputTokens)] + [MessageStop])
  }

  // ----- Reading it back -----

  /** The text that arrives in text deltas: that of text blocks. */
  function SpokenBlock(b: ContentBlock): string {
    if b.TextContent? then b.text else ""
  }

  function StreamedText(blocks: seq<ContentBlock>): string {
    if blocks == [] then "" else StreamedText(blocks[..|blocks| - 1]) + SpokenBlock(blocks[|blocks| - 1])
  }

  function StreamedTool(k: int, b: ContentBlock): Tool
    requires b.ToolUseContent?
  {
    Tool(k, b.id, b.name, b.input)
  }

  /** After `n` blocks the decoder has numbered exactly the tool blocks among them. */
  ghost predicate Caught(d: DecoderState, got: Reply, blocks: seq<ContentBlock>, n: nat)
    requires n <= |blocks|
  {
    && !d.stopSent && got.finish == Unset
    && got.text == StreamedText(blocks[..n])
    && d.nextTool == |got.tools| == |ToolUses(blocks[..n])|
    && (forall k :: 0 <= k < |got.tools| ==> got.tools[k] == StreamedTool(k, ToolUses(blocks[..n])[k]))
    && (forall ci :: ci in d.toolIdx ==> ci < n)
  }

  /** Reading one more event after a run of events. */
  lemma {:induction false} ReadMore(d: DecoderState, got: Reply, events: seq<Event>, e: Event)
    ensures var read := DecodeAll(d, events);
            && DecodeAll(d, events + [e]).d == Decode(read.d, Some(e)).d
            && AccumulateOn(got, DecodeAll(d, events + [e]).chunks)
            == Got(read.d, AccumulateOn(got, read.chunks), e)
  {
    var read := DecodeAll(d, events);
    ReadOne(read.d, AccumulateOn(got, read.chunks), e);
    DecodeAllAppend(d, events, [e]);
    AccumulateOnAppend(got, read.chunks, DecodeAll(read.d, [e]).chunks);
  }

  lemma {:induction false} ReadMoreAs(
    d: DecoderState, got: Reply, events: seq<Event>, e: Event, d': DecoderState, got': Reply)
    requires DecodeAll(d, events).d == d'
    requires AccumulateOn(got, DecodeAll(d, events).chunks) == got'
    ensures DecodeAll(d, events + [e]).d == Decode(d', Some(e)).d
    ensures AccumulateOn(got, DecodeAll(d, events + [e]).chunks) == Got(d', got', e)
  {
    ReadMore(d, got, events, e);
  }

  /** The reply with more arguments for its last tool call. */
  function WithArguments(got: Reply, more: string): Reply
    requires |got.tools| > 0
  {
    var k := |got.tools| - 1;
    got.(tools := got.tools[k := got.tools[k].(arguments := got.tools[k].arguments + more)])
  }

  lemma {:induction false} WithArgumentsTwice(got: Reply, a: string, b: string)
    requires |got.tools| > 0
    ensures WithArguments(WithArguments(got, a), b) == WithArguments(got, a + b)
    ensures WithArguments(got, "") == got
  {
    var k := |got.tools| - 1;
    assert got.tools[k].arguments + a + b == got.tools[k].arguments + (a + b);
    assert got.tools[k].arguments + "" == got.tools[k].arguments;
  }

  function PieceText(p: Piece): string {
    if p.Part? then p.text else ""
  }

  lemma {:induction false} ToolPiece(d: DecoderState, got: Reply, index: int, b: ContentBlock, p: Piece)
    requires b.ToolUseContent?
    requires |got.tools| > 0 && index in d.toolIdx && d.toolIdx[index] == |got.tools| - 1
    requires Find(got.tools, |got.tools| - 1) == |got.tools| - 1
    ensures Decode(d, Some(PieceEvent(index, b, p))).d == d
    ensures Got(d, got, PieceEvent(index, b, p)) == WithArguments(got, PieceText(p))
  {
    if p.Part? {
      GotTool(got, ToolDelta(|got.tools| - 1, "", "", p.text));
    } else {
      WithArgumentsTwice(got, "", "");
    }
  }

  /** Pieces of a tool block extend the last tool call's arguments. */
  lemma {:induction false} ToolPieces(d: DecoderState, got: Reply, index: int, b: ContentBlock, pieces: seq<Piece>)
    requires b.ToolUseContent?
    requires |got.tools| > 0 && index in d.toolIdx && d.toolIdx[index] == |got.tools| - 1
    requires forall k :: 0 <= k < |got.tools| ==> got.tools[k].index == k
    ensures DecodeAll(d, PieceEvents(index, b, pieces)).d == d
    ensures AccumulateOn(got, DecodeAll(d, PieceEvents(index, b, pieces)).chunks) == WithArguments(got, Joined(pieces))
  {
    if pieces == [] {
      WithArgumentsTwice(got, "", "");
    } else {
      var init, p := pieces[..|pieces| - 1], pieces[|pieces| - 1];
      var events, e := PieceEvents(index, b, init), PieceEvent(index, b, p);
      var mid := WithArguments(got, Joined(init));
      ToolPieces(d, got, index, b, init);
      assert Got(d, mid, e) == WithArguments(got, Joined(pieces)) && Decode(d, Some(e)).d == d by {
        assert mid.tools[|mid.tools| - 1].index == |mid.tools| - 1;
        assert Find(mid.tools, |mid.tools| - 1) == |mid.tools| - 1;
        ToolPiece(d, mid, index, b, p);
        WithArgumentsTwice(got, Joined(init), PieceText(p));
      }
      ReadMoreAs(d, got, events, e, d, mid);
    }
  }

  function SpokenText(b: ContentBlock, s: string): string {
    if b.TextContent? then s else ""
  }

  lemma {:induction false} SpokenTwice(before: string, b: ContentBlock, x: string, y: string)
    ensures before + SpokenText(b, x) + SpokenText(b, y) == before + SpokenText(b, x + y)
  {
  }

  lemma {:induction false} OtherPiece(d: DecoderState, got: Reply, index: int, b: ContentBlock, p: Piece)
    requires !b.ToolUseContent?
    ensures Decode(d, Some(PieceEvent(index, b, p))).d == d
    ensures Got(d, got, PieceEvent(index, b, p)) == got.(text := got.text + SpokenText(b, PieceText(p)))
  {
    assert got.text + "" == got.text;
    if p.Part? && b.TextContent? {
      AddOneChoice(got, TextChoice(p.text));
    }
  }

  /** Pieces of a text block extend the text; those of an unknown block say nothing. */
  lemma {:induction false} OtherPieces(d: DecoderState, got: Reply, index: int, b: ContentBlock, pieces: seq<Piece>)
    requires !b.ToolUseContent?
    ensures DecodeAll(d, PieceEvents(index, b, pieces)).d == d
    ensures AccumulateOn(got, DecodeAll(d, PieceEvents(index, b, pieces)).chunks)
         == got.(text := got.text + SpokenText(b, Joined(pieces)))
  {
    if pieces == [] {
      assert got.text + "" == got.text;
    } else {
      var init, p := pieces[..|pieces| - 1], pieces[|pieces| - 1];
      var events, e := PieceEvents(index, b, init), PieceEvent(index, b, p);
      var mid := got.(text := got.text + SpokenText(b, Joined(init)));
      OtherPieces(d, got, index, b, init);
      assert Got(d, mid, e) == got.(text := got.text + SpokenText(b, Joined(pieces))) && Decode(d, Some(e)).d == d by {
        OtherPiece(d, mid, index, b, p);
        SpokenTwice(got.text, b, Joined(init), PieceText(p));
      }
      ReadMoreAs(d, got, events, e, d, mid);
    }
  }

  /** Reading three runs of events one after the other. */
  lemma {:induction false} ReadThree(d: DecoderState, got: Reply, a: seq<Event>, b: seq<Event>, c: seq<Event>)
    ensures var ra := DecodeAll(d, a);
            var rb := DecodeAll(ra.d, b);
            var rc := DecodeAll(rb.d, c);
            && DecodeAll(d, a + b + c).d == rc.d
            && AccumulateOn(got, DecodeAll(d, a + b + c).chunks)
            == AccumulateOn(AccumulateOn(AccumulateOn(got, ra.chunks), rb.chunks), rc.chunks)
  {
    var ra := DecodeAll(d, a);
    var rb := DecodeAll(ra.d, b);
    var rc := DecodeAll(rb.d, c);
    DecodeAllAppend(d, a, b);
    DecodeAllAppend(d, a + b, c);
    AccumulateOnAppend(got, ra.chunks, rb.chunks);
    AccumulateOnAppend(got, ra.chunks + rb.chunks, rc.chunks);
  }

  /** The start of a tool block adds a tool call without arguments. */
  lemma {:induction false} ToolStartRead(d: DecoderState, got: Reply, n: nat, b: ContentBlock)
    requires b.ToolUseContent? && n !in d.toolIdx && d.nextTool == |got.tools|
    requires forall k :: 0 <= k < |got.tools| ==> got.tools[k].index == k
    ensures var e := BlockStart(n, StartOf(b));
            && Decode(d, Some(e)).d == WithToolIndex(d, n)
            && Got(d, got, e) == got.(tools := got.tools + [Tool(|got.tools|, b.id, b.name, "")])
  {
    GotTool(got, ToolDelta(|got.tools|, b.id, b.name, ""));
    assert Find(got.tools, |got.tools|) == |got.tools|;
  }

  lemma {:induction false} ReadBlockAs(
    d: DecoderState, got: Reply, start: Event, events: seq<Event>, n: nat, d': DecoderState, got1: Reply, got2: Reply)
    requires DecodeAll(d, [start]).d == d' && AccumulateOn(got, DecodeAll(d, [start]).chunks) == got1
    requires DecodeAll(d', events).d == d' && AccumulateOn(got1, DecodeAll(d', events).chunks) == got2
    ensures DecodeAll(d, [start] + events + [BlockStop(n)]).d == d'
    ensures AccumulateOn(got, DecodeAll(d, [start] + events + [BlockStop(n)]).chunks) == got2
  {
    ReadOne(d', got2, BlockStop(n));
    ReadThree(d, got, [start], events, [BlockStop(n)]);
  }

  lemma {:induction false} ToolEventsRead(d: DecoderState, got: Reply, n: nat, b: ContentBlock, pieces: seq<Piece>)
    requires b.ToolUseContent? && n !in d.toolIdx && d.nextTool == |got.tools| && Joined(pieces) == b.input
    requires forall k :: 0 <= k < |got.tools| ==> got.tools[k].index == k
    ensures DecodeAll(d, BlockEvents(n, b, pieces)).d == WithToolIndex(d, n)
    ensures AccumulateOn(got, DecodeAll(d, BlockEvents(n, b, pieces)).chunks)
         == got.(tools := got.tools + [StreamedTool(|got.tools|, b)])
  {
    hide DecodeAll, Decode, Got, AccumulateOn, PieceEvents, Joined;
    var start := BlockStart(n, StartOf(b));
    var d1, got1 := WithToolIndex(d, n), got.(tools := got.tools + [Tool(|got.tools|, b.id, b.name, "")]);
    ReadOne(d, got, start);
    ToolStartRead(d, got, n, b);
    ToolPieces(d1, got1, n, b, pieces);
    var got2 := got.(tools := got.tools + [StreamedTool(|got.tools|, b)]);
    assert WithArguments(got1, Joined(pieces)) == got2 by {
      assert "" + Joined(pieces) == b.input;
    }
    ReadBlockAs(d, got, start, PieceEvents(n, b, pieces), n, d1, got1, got2);
  }

  lemma {:induction false} ToolBlockRead(
    d: DecoderState, got: Reply, blocks: seq<ContentBlock>, n: nat, pieces: seq<Piece>)
    requires n < |blocks| && Caught(d, got, blocks, n) && Spells(pieces, blocks[n]) && blocks[n].ToolUseContent?
    ensures var read := DecodeAll(d, BlockEvents(n, blocks[n], pieces));
            Caught(read.d, AccumulateOn(got, read.chunks), blocks, n + 1)
  {
    ToolEventsRead(d, got, n, blocks[n], pieces);
    assert blocks[..n + 1][..n] == blocks[..n];
    assert StreamedText(blocks[..n]) + "" == StreamedText(blocks[..n]);
  }

  /** The start of a block that is not a tool's says nothing. */
  lemma OtherStartRead(d: DecoderState, got: Reply, n: nat, b: ContentBlock)
    requires !b.ToolUseContent?
    ensures var e := BlockStart(n, StartOf(b));
            Decode(d, Some(e)).d == d && Got(d, got, e) == got
  {
  }

  lemma SpelledText(b: ContentBlock, pieces: seq<Piece>)
    requires Spells(pieces, b) && !b.ToolUseContent?
    ensures SpokenText(b, Joined(pieces)) == SpokenBlock(b)
  {
  }

  lemma {:induction false} OtherEventsRead(d: DecoderState, got: Reply, n: nat, b: ContentBlock, pieces: seq<Piece>)
    requires !b.ToolUseContent? && Spells(pieces, b)
    ensures DecodeAll(d, BlockEvents(n, b, pieces)).d == d
    ensures AccumulateOn(got, DecodeAll(d, BlockEvents(n, b, pieces)).chunks) == got.(text := got.text + SpokenBlock(b))
  {
    hide DecodeAll, Decode, Got, AccumulateOn, PieceEvents, Joined, Spells, SpokenText, SpokenBlock;
    var start := BlockStart(n, StartOf(b));
    ReadOne(d, got, start);
    OtherStartRead(d, got, n, b);
    OtherPieces(d, got, n, b, pieces);
    SpelledText(b, pieces);
    ReadBlockAs(d, got, start, PieceEvents(n, b, pieces), n, d, got, got.(text := got.text + SpokenBlock(b)));
  }

  lemma {:induction false} OtherBlockRead(
    d: DecoderState, got: Reply, blocks: seq<ContentBlock>, n: nat, pieces: seq<Piece>)
    requires n < |blocks| && Caught(d, got, blocks, n) && Spells(pieces, blocks[n]) && !blocks[n].ToolUseContent?
    ensures var read := DecodeAll(d, BlockEvents(n, blocks[n], pieces));
            Caught(read.d, AccumulateOn(got, read.chunks), blocks, n + 1)
  {
    hide DecodeAll, AccumulateOn, BlockEvents, Spells;
    OtherEventsRead(d, got, n, blocks[n], pieces);
    assert blocks[..n + 1][..n] == blocks[..n];
  }

  lemma {:induction false} BlocksRead(
    d: DecoderState, got: Reply, blocks: seq<ContentBlock>, cuts: seq<seq<Piece>>, n: nat)
    requires n <= |blocks| == |cuts| && Caught(d, got, blocks, 0)
    requires forall i :: 0 <= i < |blocks| ==> Spells(cuts[i], blocks[i])
    ensures var read := DecodeAll(d, BlocksEvents(blocks[..n], cuts[..n]));
            Caught(read.d, AccumulateOn(got, read.chunks), blocks, n)
  {
    if n > 0 {
      BlocksRead(d, got, blocks, cuts, n - 1);
      var events := BlocksEvents(blocks[..n - 1], cuts[..n - 1]);
      var read := DecodeAll(d, events);
      var mid := AccumulateOn(got, read.chunks);
      if blocks[n - 1].ToolUseContent? {
        ToolBlockRead(read.d, mid, blocks, n - 1, cuts[n - 1]);
      } else {
        OtherBlockRead(read.d, mid, blocks, n - 1, cuts[n - 1]);
      }
      var more := BlockEvents(n - 1, blocks[n - 1], cuts[n - 1]);
      assert blocks[..n][..n - 1] == blocks[..n - 1] && cuts[..n][..n - 1] == cuts[..n - 1];
      DecodeAllAppend(d, events, more);
      AccumulateOnAppend(got, read.chunks, DecodeAll(read.d, more).chunks);
    }
  }

  /** The reply a client assembles from any streaming of the message. */
  lemma {:induction false} StreamedReply(m: Message, cuts: seq<seq<Piece>>, outputTokens: int)
    requires |cuts| == |m.content|
    requires forall i :: 0 <= i < |m.content| ==> Spells(cuts[i], m.content[i])
    ensures var got := Accumulate(DecodeAll(FreshDecoder, StreamOf(m, cuts, outputTokens)).chunks);
            && got.text == StreamedText(m.content)
            && got.finish == MapAnthropicStopReason(m.stopReason)
            && |got.tools| == |ToolUses(m.content)|
            && forall k :: 0 <= k < |got.tools| ==> got.tools[k] == StreamedTool(k, ToolUses(m.content)[k])
  {
    var start := MessageStart(m.id, m.model);
    var d1 := Decode(FreshDecoder, Some(start)).d;
    var n := |m.content|;
    StartRead(m);
    assert m.content[..n] == m.content && cuts[..n] == cuts;
    BlocksRead(d1, EmptyReply, m.content, cuts, n);
    var events := BlocksEvents(m.content, cuts);
    var read := DecodeAll(d1, events);
    var mid := AccumulateOn(EmptyReply, read.chunks);
    StopRead(read.d, mid, m.stopReason, outputTokens);
    ReadThree(FreshDecoder, EmptyReply, [start], events, [MessageDelta(m.stopReason, outputTokens)] + [MessageStop]);
    AccumulateFromEmpty(DecodeAll(FreshDecoder, StreamOf(m, cuts, outputTokens)).chunks);
  }

  lemma {:induction false} StartRead(m: Message)
    ensures var start := MessageStart(m.id, m.model);
            var read := DecodeAll(FreshDecoder, [start]);
            && read.d == Decode(FreshDecoder, Some(start)).d
            && AccumulateOn(EmptyReply, read.chunks) == EmptyReply
            && Caught(read.d, EmptyReply, m.content, 0)
  {
    ReadOne(FreshDecoder, EmptyReply, MessageStart(m.id, m.model));
    AddOneChoice(EmptyReply, Choice(Assistant, NoContent, [], None));
  }

  lemma {:induction false} StopRead(d: DecoderState, got: Reply, reason: Option<StopReason>, outputTokens: int)
    requires !d.stopSent && got.finish == Unset
    ensures var tail := [MessageDelta(reason, outputTokens)] + [MessageStop];
            AccumulateOn(got, DecodeAll(d, tail).chunks) == got.(finish := MapAnthropicStopReason(reason))
  {
    ReadTwo(d, got, MessageDelta(reason, outputTokens), MessageStop);
    AddOneChoice(got, Choice(NoRole, NoContent, [], Some(MapAnthropicStopReason(reason))));
    assert got.text + "" == got.text;
  }

  /** The reply the non-streaming parser gives for the whole message. */
  function WholeReply(m: Message): Reply {
    var uses := ToolUses(m.content);
    Reply(
      MessageText(m.content),
      seq(|uses|, k requires 0 <= k < |uses| => Tool(k, uses[k].id, uses[k].name, ParsedArguments(uses[k].input))),
      MapAnthropicStopReason(m.stopReason))
  }

  /** `WholeReply` is what `ParseResponse` returns, its tool calls numbered in order. */
  method ParsedIsWhole(m: Message) returns (r: Parsed)
    ensures WholeReply(m).text == (if r.content.Some? then r.content.value else "")
    ensures WholeReply(m).finish == r.finish
    ensures |WholeReply(m).tools| == |r.tools|
    ensures forall k :: 0 <= k < |r.tools| ==>
              WholeReply(m).tools[k] == Tool(k, r.tools[k].id, r.tools[k].name, r.tools[k].arguments)
  {
    r := ParseResponse(m);
    if r.content == None {
      AllToolsNoText(m.content);
    }
  }

  /** In the whole reply an input that is missing or null is an object without members, any other as it came. */
  lemma WholeInputs(m: Message, k: nat)
    requires k < |ToolUses(m.content)|
    ensures var given, shown := ToolUses(m.content)[k].input, WholeReply(m).tools[k].arguments;
            if |given| == 0 || given == "null" then shown == "{}" else shown == given
  {
  }

  lemma {:induction false} AllToolsNoText(blocks: seq<ContentBlock>)
    requires forall i :: 0 <= i < |blocks| ==> blocks[i].ToolUseContent?
    ensures MessageText(blocks) == ""
  {
    if blocks != [] { AllToolsNoText(blocks[..|blocks| - 1]); }
  }

  /** Only text blocks carry text: the deltas of other blocks are not text deltas. */
  predicate OnlyTextSpeaks(blocks: seq<ContentBlock>) {
    forall b :: b in blocks && b.OtherContent? ==> b.text == ""
  }

  lemma {:induction false} TextsAgreeIff(blocks: seq<ContentBlock>)
    ensures |StreamedText(blocks)| <= |MessageText(blocks)|
    ensures StreamedText(blocks) == MessageText(blocks) <==> OnlyTextSpeaks(blocks)
    ensures |StreamedText(blocks)| == |MessageText(blocks)| ==> OnlyTextSpeaks(blocks)
  {
    if blocks != [] {
      var init, b := blocks[..|blocks| - 1], blocks[|blocks| - 1];
      TextsAgreeIff(init);
      assert blocks == init + [b];
    }
  }

  /** The whole parser presents an empty or null tool input as an empty object. */
  predicate InputsGiven(blocks: seq<ContentBlock>) {
    forall b :: b in blocks && b.ToolUseContent? ==> b.input != "" && b.input != "null"
  }

  /**
    * Streaming agrees with non-streaming: however the blocks are cut, the finish reason is that of the whole
    * message, the text is exactly when no block of another type carries text, the tool calls are exactly when
    * no tool input is empty or null.
    */
  lemma {:induction false} StreamingAgrees(m: Message, cuts: seq<seq<Piece>>, outputTokens: int)
    requires |cuts| == |m.content|
    requires forall i :: 0 <= i < |m.content| ==> Spells(cuts[i], m.content[i])
    ensures var got := Accumulate(DecodeAll(FreshDecoder, StreamOf(m, cuts, outputTokens)).chunks);
            && got.finish == WholeReply(m).finish
            && (got.text == WholeReply(m).text <==> OnlyTextSpeaks(m.content))
            && (got.tools == WholeReply(m).tools <==> InputsGiven(m.content))
  {
    StreamedReply(m, cuts, outputTokens);
    TextsAgreeIff(m.content);
    var got := Accumulate(DecodeAll(FreshDecoder, StreamOf(m, cuts, outputTokens)).chunks);
    var uses := ToolUses(m.content);
    UsesAreBlocks(m.content);
    if got.tools == WholeReply(m).tools {
      forall b | b in m.content && b.ToolUseContent? ensures b.input != "" && b.input != "null" {
        var k :| 0 <= k < |uses| && uses[k] == b;
        assert got.tools[k] == WholeReply(m).tools[k];
      }
    }
    if InputsGiven(m.content) {
      forall k | 0 <= k < |uses| ensures got.tools[k] == WholeReply(m).tools[k] {
        assert uses[k] in m.content;
      }
    }
  }

  lemma {:induction false} UsesAreBlocks(blocks: seq<ContentBlock>)
    ensures forall b :: b in ToolUses(blocks) <==> b in blocks && b.ToolUseContent?
  {
    if blocks != [] {
      var init := blocks[..|blocks| - 1];
      UsesAreBlocks(init);
      assert blocks == init + [blocks[|blocks| - 1]];
    }
  }

  // ----- The audit's reassembled text -----

  /** Every choice's content decodes as a string, where there is one. */
  predicate AllStrings(chs: seq<Choice>) {
    forall ch :: ch in chs ==> !ch.content.NonText?
  }

  /** The first choice's string content; a chunk that does not decode, one choice being enough, contributes nothing. */
  function FirstText(c: Option<Chunk>): string {
    if c.Some? && c.value.choices != [] && AllStrings(c.value.choices) then TextOf(c.value.choices[0].content) else ""
  }

  function Reassembled(chunks: seq<Option<Chunk>>): string {
    if chunks == [] then "" else Reassembled(chunks[..|chunks| - 1]) + FirstText(chunks[|chunks| - 1])
  }

  /** Decoding a chunk's choices with string contents: it fails at the first that is something else. */
  method DecodeStrings(c: Option<Chunk>) returns (ok: bool)
    ensures ok <==> c.Some? && AllStrings(c.value.choices)
  {
    if c.None? {
      return false;
    }
    var chs := c.value.choices;
    for i := 0 to |chs|
      invariant AllStrings(chs[..i])
    {
      if chs[i].content.NonText? {
        assert chs[i] in chs;
        return false;
      }
      assert chs[..i + 1] == chs[..i] + [chs[i]];
    }
    assert chs[..|chs|] == chs;
    return true;
  }

  /** pkg/core/sse_reassembler.go, Reassemble. */
  method Reassemble(chunks: seq<Option<Chunk>>) returns (text: string)
    ensures text == Reassembled(chunks)
  {
    text := "";
    for i := 0 to |chunks|
      invariant text == Reassembled(chunks[..i])
    {
      assert chunks[..i + 1][..i] == chunks[..i];
      var ok := DecodeStrings(chunks[i]);
      if ok && |chunks[i].value.choices| > 0 {
        text := text + TextOf(chunks[i].value.choices[0].content);
      }
    }
    assert chunks[..|chunks|] == chunks;
  }

  /**
    * A chunk adds the text of its first choice, when it has one and all its contents are absent or strings; any
    * other adds nothing.
    */
  lemma ReassembledNext(chunks: seq<Option<Chunk>>, c: Option<Chunk>)
    ensures var added := Reassembled(chunks + [c])[|Reassembled(chunks)|..];
            && Reassembled(chunks) <= Reassembled(chunks + [c])
            && added == if c.None? || c.value.choices == [] || !c.value.choices[0].content.Text?
                           || (exists ch :: ch in c.value.choices && ch.content.NonText?)
                        then "" else c.value.choices[0].content.text
  {
    assert (chunks + [c])[..|chunks|] == chunks;
  }

  function Stored(chunks: seq<Chunk>): (r: seq<Option<Chunk>>)
    ensures |r| == |chunks| && forall i :: 0 <= i < |r| ==> r[i] == Some(chunks[i])
  {
    seq(|chunks|, i requires 0 <= i < |chunks| => Some(chunks[i]))
  }

  lemma {:induction false} SingleChoices(d: DecoderState, events: seq<Event>)
    ensures forall c :: c in DecodeAll(d, events).chunks ==> |c.choices| == 1
  {
    if events != [] { SingleChoices(d, events[..|events| - 1]); }
  }

  lemma {:induction false} ReassembledIsText(chunks: seq<Chunk>)
    requires forall c :: c in chunks ==> |c.choices| == 1
    ensures Reassembled(Stored(chunks)) == Accumulate(chunks).text
  {
    if chunks != [] {
      var init, c := chunks[..|chunks| - 1], chunks[|chunks| - 1];
      ReassembledIsText(init);
      assert Stored(chunks)[..|chunks| - 1] == Stored(init);
      assert c in chunks && c.choices == [c.choices[0]];
      AddOneChoice(Accumulate(init), c.choices[0]);
    }
  }

  /** The text reassembled from the decoded chunks is the streamed text: the message's, when only text blocks carry text. */
  lemma {:induction false} ReassembledAgrees(m: Message, cuts: seq<seq<Piece>>, outputTokens: int)
    requires |cuts| == |m.content|
    requires forall i :: 0 <= i < |m.content| ==> Spells(cuts[i], m.content[i])
    ensures var text := Reassembled(Stored(DecodeAll(FreshDecoder, StreamOf(m, cuts, outputTokens)).chunks));
            text == StreamedText(m.content) && (text == WholeReply(m).text <==> OnlyTextSpeaks(m.content))
  {
    var chunks := DecodeAll(FreshDecoder, StreamOf(m, cuts, outputTokens)).chunks;
    SingleChoices(FreshDecoder, StreamOf(m, cuts, outputTokens));
    ReassembledIsText(chunks);
    StreamedReply(m, cuts, outputTokens);
    TextsAgreeIff(m.content);
  }
}
