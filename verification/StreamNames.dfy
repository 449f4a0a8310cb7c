/** What each single chunk of a decoded stream bears, from the history of the events alone. */
module StreamNames {
  import opened Common
  import opened StreamTypes
  import opened StreamWriter
  import opened StreamShape
  import opened StreamDecoder
  import opened StreamRoundTrip

  // ----- What the events so far say -----

  /** The id of the latest message_start. */
  function IdOf(events: seq<Event>): string {
    if events == [] then ""
    else
      var e := events[|events| - 1];
      if e.MessageStart? then e.id else IdOf(events[..|events| - 1])
  }

  function ModelOf(events: seq<Event>): string {
    if events == [] then ""
    else
      var e := events[|events| - 1];
      if e.MessageStart? then e.model else ModelOf(events[..|events| - 1])
  }

  predicate OfTool(e: Event) {
    (e.BlockStart? && e.block.ToolUseBlock?) || (e.BlockDelta? && e.delta.InputJsonDelta?)
  }

  /** The blocks of tools, in the order in which they first appear. */
  function ToolBlocks(events: seq<Event>): seq<int> {
    if events == [] then []
    else
      var known, e := ToolBlocks(events[..|events| - 1]), events[|events| - 1];
      if OfTool(e) && e.index !in known then known + [e.index] else known
  }

  predicate Stopped(events: seq<Event>) {
    exists e :: e in events && e.MessageDelta?
  }

  ghost predicate KnowsTools(d: DecoderState, tools: seq<int>) {
    && d.nextTool == |tools|
    && (forall b :: b in d.toolIdx <==> b in tools)
    && (forall n :: 0 <= n < |tools| ==> tools[n] in d.toolIdx && d.toolIdx[tools[n]] == n)
  }

  /** The decoder knows just that. */
  ghost predicate Knows(d: DecoderState, events: seq<Event>) {
    && d.id == IdOf(events) && d.model == ModelOf(events) && d.stopSent == Stopped(events)
    && KnowsTools(d, ToolBlocks(events))
  }

  lemma {:induction false} KnowsNewTool(d: DecoderState, tools: seq<int>, block: int)
    requires KnowsTools(d, tools)
    ensures KnowsTools(WithToolIndex(d, block), if block in tools then tools else tools + [block])
  {
  }

  lemma {:induction false} ToolsNamed(d: DecoderState, e: Event)
    ensures var d' := Decode(d, Some(e)).d;
            var known := if OfTool(e) then WithToolIndex(d, e.index) else d;
            && d'.toolIdx == known.toolIdx && d'.nextTool == known.nextTool
            && d'.id == (if e.MessageStart? then e.id else d.id)
            && d'.model == (if e.MessageStart? then e.model else d.model)
            && d'.stopSent == (d.stopSent || e.MessageDelta?)
  {
  }

  lemma {:induction false} KnowsMore(d: DecoderState, events: seq<Event>, e: Event)
    requires Knows(d, events)
    ensures Knows(Decode(d, Some(e)).d, events + [e])
  {
    hide Decode, KnowsTools, WithToolIndex, Stopped;
    var all := events + [e];
    assert all[..|events|] == events && all[|events|] == e;
    ToolsNamed(d, e);
    if OfTool(e) {
      KnowsNewTool(d, ToolBlocks(events), e.index);
    }
    SameTable(Decode(d, Some(e)).d, if OfTool(e) then WithToolIndex(d, e.index) else d, ToolBlocks(all));
    StoppedBy(events, e);
  }

  lemma SameTable(d: DecoderState, e: DecoderState, tools: seq<int>)
    requires d.toolIdx == e.toolIdx && d.nextTool == e.nextTool
    ensures KnowsTools(d, tools) <==> KnowsTools(e, tools)
  {
  }

  lemma StoppedBy(events: seq<Event>, e: Event)
    ensures Stopped(events + [e]) <==> Stopped(events) || e.MessageDelta?
  {
    assert e in events + [e];
    if Stopped(events) {
      var x :| x in events && x.MessageDelta?;
      assert x in events + [e];
    }
  }

  lemma {:induction false} DecoderKnows(events: seq<Event>)
    ensures Knows(DecodeAll(FreshDecoder, events).d, events)
  {
    hide Knows, Decode;
    if events == [] {
      NothingKnown();
    } else {
      var before, e := events[..|events| - 1], events[|events| - 1];
      DecoderKnows(before);
      KnowsMore(DecodeAll(FreshDecoder, before).d, before, e);
      assert events == before + [e];
    }
  }

  lemma NothingKnown()
    ensures Knows(FreshDecoder, [])
  {
  }

  // ----- The chunk of each event -----

  /** A chunk with one choice under the names of the latest message_start. */
  predicate Bears(c: Chunk, events: seq<Event>, ch: Choice) {
    c.id == IdOf(events) && c.model == ModelOf(events) && c.choices == [ch] && c.usage == None
  }

  /** The tool's number is its place among the tools of the stream. */
  predicate Numbers(events: seq<Event>, block: int, n: int) {
    0 <= n < |ToolBlocks(events)| && ToolBlocks(events)[n] == block
  }

  function Reason(stop: Option<StopReason>): FinishReason {
    if stop == None then Unset
    else if stop == Some(MaxTokens) then Length
    else if stop == Some(ToolUse) then ToolCalls
    else if stop == Some(Filtered) then ContentFilter
    else Stop
  }

  /**
    * For every event sequence, the chunk of the next event: it bears the id and model of the latest
    * message_start, itself included; only a message_start has a role; text, tool starts and tool inputs are
    * given as they come, each tool under its place in the stream; only the first message_delta reports a reason.
    */
  lemma {:induction false} ChunkOfEvent(before: seq<Event>, e: Event)
    ensures var chunks, all := Decode(DecodeAll(FreshDecoder, before).d, Some(e)).chunks, before + [e];
            match e
            case MessageStart(_, _) => |chunks| == 1 && Bears(chunks[0], all, Choice(Assistant, NoContent, [], None))
            case BlockStart(block, ToolUseBlock(id, name)) =>
              && |chunks| == 1
              && exists n :: Numbers(all, block, n)
                  && Bears(chunks[0], all, Choice(NoRole, NoContent, [ToolDelta(n, id, name, "")], None))
            case BlockDelta(_, TextDelta(text)) =>
              |chunks| == 1 && Bears(chunks[0], all, Choice(NoRole, Text(text), [], None))
            case BlockDelta(block, InputJsonDelta(json)) =>
              && |chunks| == 1
              && exists n :: Numbers(all, block, n)
                  && Bears(chunks[0], all, Choice(NoRole, NoContent, [ToolDelta(n, "", "", json)], None))
            case MessageDelta(stop, _) =>
              if Stopped(before) then chunks == []
              else |chunks| == 1 && Bears(chunks[0], all, Choice(NoRole, NoContent, [], Some(Reason(stop))))
            case _ => chunks == []
  {
    var d := DecodeAll(FreshDecoder, before).d;
    DecoderKnows(before);
    KnowsMore(d, before, e);
    assert (before + [e])[..|before|] == before;
    if OfTool(e) {
      assert Numbers(before + [e], e.index, Decode(d, Some(e)).d.toolIdx[e.index]);
    }
  }

  // ----- The names of a whole stream -----

  ghost predicate AllNamed(chunks: seq<Chunk>, id: string, model: string) {
    forall c :: c in chunks ==> c.id == id && c.model == model
  }

  lemma {:induction false} NamesKept(d: DecoderState, events: seq<Event>)
    requires forall e :: e in events ==> !e.MessageStart?
    ensures AllNamed(DecodeAll(d, events).chunks, d.id, d.model)
    ensures DecodeAll(d, events).d.id == d.id && DecodeAll(d, events).d.model == d.model
  {
    if events != [] {
      NamesKept(d, events[..|events| - 1]);
    }
  }

  /** Every chunk of a decoded complete stream carries the id and model that the writer was given. */
  lemma {:induction false} TranscriptIsNamed(id: string, model: string, ps: seq<Option<Chunk>>)
    ensures AllNamed(DecodeAll(FreshDecoder, Transcript(id, model, ps)).chunks, id, model)
  {
    hide Decode, EmitAll, StreamAtoms, Transcript, IsBody;
    var body, blocks := TranscriptIsComplete(id, model, ps);
    var events := Transcript(id, model, ps);
    var rest := body + Stops(UpTo(blocks)) + events[1 + |body| + blocks..];
    assert events == [MessageStart(id, model)] + rest;
    BodyHasNoStart(body, blocks);
    DecodeAllAppend(FreshDecoder, [MessageStart(id, model)], rest);
    DecodeOne(FreshDecoder, MessageStart(id, model));
    StartIsNamed(id, model);
    NamesKept(Decode(FreshDecoder, Some(MessageStart(id, model))).d, rest);
  }

  lemma BodyHasNoStart(body: seq<Event>, blocks: nat)
    requires IsBody(body, blocks)
    ensures forall e :: e in body ==> !e.MessageStart?
  {
  }

  lemma StartIsNamed(id: string, model: string)
    ensures var out := Decode(FreshDecoder, Some(MessageStart(id, model)));
            out.d.id == id && out.d.model == model && AllNamed(out.chunks, id, model)
  {
  }
}
