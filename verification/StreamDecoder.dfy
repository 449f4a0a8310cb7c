/** The decoder of Anthropic events as OpenAI chunks (pkg/adapter/anthropic_stream.go, AnthropicStreamDecoder). */
module StreamDecoder {
  import opened Common
  import opened StreamTypes

  datatype DecoderState = DecoderState(
    id: string, model: string, toolIdx: map<int, int>, nextTool: int, stopSent: bool)

  const FreshDecoder := DecoderState("", "", map[], 0, false)

  datatype Decoded = Decoded(d: DecoderState, chunks: seq<Chunk>)

  function ChunkOf(d: DecoderState, ch: Choice): seq<Chunk> {
    [Chunk(d.id, d.model, [ch], None)]
  }

  function TextChoice(text: string): Choice {
    Choice(NoRole, Text(text), [], None)
  }

  function ToolChoice(t: ToolDelta): Choice {
    Choice(NoRole, NoContent, [t], None)
  }

  /** The state after the block has been given an OpenAI tool index, on its first use only. */
  function WithToolIndex(d: DecoderState, block: int): DecoderState {
    if block in d.toolIdx then d
    else d.(nextTool := d.nextTool + 1, toolIdx := d.toolIdx[block := d.nextTool])
  }

  function Decode(d: DecoderState, payload: Option<Event>): Decoded {
    match payload
    case None => Decoded(d, [])
    case Some(MessageStart(id, model)) =>
      var named := d.(id := id, model := model);
      Decoded(named, ChunkOf(named, Choice(Assistant, NoContent, [], None)))
    case Some(BlockStart(index, ToolUseBlock(id, name))) =>
      var next := WithToolIndex(d, index);
      Decoded(next, ChunkOf(next, ToolChoice(ToolDelta(next.toolIdx[index], id, name, ""))))
    case Some(BlockDelta(index, TextDelta(text))) => Decoded(d, ChunkOf(d, TextChoice(text)))
    case Some(BlockDelta(index, InputJsonDelta(json))) =>
      var next := WithToolIndex(d, index);
      Decoded(next, ChunkOf(next, ToolChoice(ToolDelta(next.toolIdx[index], "", "", json))))
    case Some(MessageDelta(reason, _)) =>
      if d.stopSent then Decoded(d, [])
      else
        Decoded(d.(stopSent := true),
                ChunkOf(d, Choice(NoRole, NoContent, [], Some(MapAnthropicStopReason(reason)))))
    case Some(_) => Decoded(d, [])
  }

  function DecodeAll(d: DecoderState, events: seq<Event>): Decoded {
    if events == [] then Decoded(d, [])
    else
      var before := DecodeAll(d, events[..|events| - 1]);
      var last := Decode(before.d, Some(events[|events| - 1]));
      Decoded(last.d, before.chunks + last.chunks)
  }

  lemma {:induction false} DecodeAllAppend(d: DecoderState, a: seq<Event>, b: seq<Event>)
    ensures DecodeAll(d, a + b).d == DecodeAll(DecodeAll(d, a).d, b).d
    ensures DecodeAll(d, a + b).chunks == DecodeAll(d, a).chunks + DecodeAll(DecodeAll(d, a).d, b).chunks
  {
    hide Decode;
    if b == [] {
      assert a + b == a;
    } else {
      var init, last := b[..|b| - 1], b[|b| - 1];
      DecodeAllAppend(d, a, init);
      assert a + b == (a + init) + [last];
      assert ((a + init) + [last])[..|a + init|] == a + init;
    }
  }

  lemma {:induction false} DecodeOne(d: DecoderState, e: Event)
    ensures DecodeAll(d, [e]) == Decode(d, Some(e))
  {
    assert [e][..0] == [];
    assert [] + Decode(d, Some(e)).chunks == Decode(d, Some(e)).chunks;
  }

  /** One request's stream decoder. */
  class AnthropicStreamDecoder {
    var id: string
    var model: string
    var toolIdx: map<int, int>
    var nextTool: int
    var stopSent: bool

    function State(): DecoderState
      reads this
    {
      DecoderState(id, model, toolIdx, nextTool, stopSent)
    }

    constructor ()
      ensures State() == FreshDecoder
    {
      id, model, toolIdx, nextTool, stopSent := "", "", map[], 0, false;
    }

    method OpenAIToolIndex(block: int) returns (oi: int)
      modifies this`nextTool, this`toolIdx
      ensures State() == WithToolIndex(old(State()), block)
      ensures block in toolIdx && oi == toolIdx[block]
    {
      if block in toolIdx {
        return toolIdx[block];
      }
      oi := nextTool;
      nextTool := nextTool + 1;
      toolIdx := toolIdx[block := oi];
    }

    /** Translates one payload; an undecodable one is an error and changes nothing. */
    method DecodePayload(payload: Option<Event>) returns (chunks: seq<Chunk>, err: bool)
      modifies this
      ensures err == payload.None?
      ensures Decoded(State(), chunks) == Decode(old(State()), payload)
    {
      chunks, err := [], false;
      match payload {
        case None =>
          err := true;
        case Some(MessageStart(newId, newModel)) =>
          id, model := newId, newModel;
          chunks := [Chunk(id, model, [Choice(Assistant, NoContent, [], None)], None)];
        case Some(BlockStart(index, block)) =>
          if !block.ToolUseBlock? {
            return;
          }
          var oi := OpenAIToolIndex(index);
          chunks := [Chunk(id, model, [ToolChoice(ToolDelta(oi, block.id, block.name, ""))], None)];
        case Some(BlockDelta(index, delta)) =>
          if delta.TextDelta? {
            chunks := [Chunk(id, model, [TextChoice(delta.text)], None)];
          } else if delta.InputJsonDelta? {
            var oi := OpenAIToolIndex(index);
            chunks := [Chunk(id, model, [ToolChoice(ToolDelta(oi, "", "", delta.partialJson))], None)];
          }
        case Some(MessageDelta(reason, _)) =>
          if stopSent {
            return;
          }
          stopSent := true;
          var fr := MapAnthropicStopReason(reason);
          chunks := [Chunk(id, model, [Choice(NoRole, NoContent, [], Some(fr))], None)];
        case Some(_) =>
      }
    }
  }
}
