/** What every complete Anthropic event stream produced by the writer looks like. */
module StreamShape {
  import opened Common
  import opened StreamTypes
  import opened StreamWriter

  ghost predicate KindMatches(b: Block, d: Delta) {
    (b.TextBlock? && d.TextDelta?) || (b.ToolUseBlock? && d.InputJsonDelta?)
  }

  /** Event j of `body` starts block `index`. */
  ghost predicate StartsAt(body: seq<Event>, j: int, index: int) {
    0 <= j < |body| && body[j].BlockStart? && body[j].index == index
  }

  /** The indices of the block starts, in order. */
  function StartIndices(body: seq<Event>): seq<int> {
    if body == [] then []
    else
      var last := body[|body| - 1];
      StartIndices(body[..|body| - 1]) + (if last.BlockStart? then [last.index] else [])
  }

  function UpTo(n: nat): (r: seq<int>)
    ensures |r| == n && forall i :: 0 <= i < n ==> r[i] == i
  {
    seq(n, i => i)
  }

  /**
    * A body: block starts and deltas only, the starts numbered 0, 1, 2, ..., and every delta
    * preceded by the start of its own block, of the matching kind.
    */
  ghost predicate IsBody(body: seq<Event>, blocks: nat) {
    && (forall j :: 0 <= j < |body| ==> body[j].BlockStart? || body[j].BlockDelta?)
    && StartIndices(body) == UpTo(blocks)
    && (forall j :: 0 <= j < |body| && body[j].BlockDelta? ==>
          exists i :: i < j && StartsAt(body, i, body[j].index) && KindMatches(body[i].block, body[j].delta))
  }

  /** A complete stream: one message_start, a body, one stop for each block, message_delta, message_stop. */
  ghost predicate IsCompleteStream(
    events: seq<Event>, id: string, model: string, body: seq<Event>, blocks: nat, stop: StopReason, tokens: int)
  {
    && IsBody(body, blocks)
    && events == [MessageStart(id, model)] + body + Stops(UpTo(blocks))
                 + [MessageDelta(Some(stop), tokens), MessageStop]
  }

  /** The block `index` has been opened as a text block (or as a tool block). */
  ghost predicate Opened(body: seq<Event>, index: int, text: bool) {
    exists i :: StartsAt(body, i, index) && (if text then body[i].block.TextBlock? else body[i].block.ToolUseBlock?)
  }

  /** What the writer knows about the body it has sent so far. */
  ghost predicate Tracks(w: WriterState, body: seq<Event>) {
    && w.nextBlock >= 0
    && IsBody(body, w.nextBlock)
    && w.openBlocks == UpTo(w.nextBlock)
    && (w.textOpen ==> Opened(body, w.textIndex, true))
    && (forall oi :: oi in w.toolIdx ==> Opened(body, w.toolIdx[oi], false))
  }

  lemma {:induction false} StartIndicesSnoc(body: seq<Event>, e: Event)
    ensures StartIndices(body + [e]) == StartIndices(body) + (if e.BlockStart? then [e.index] else [])
  {
    assert (body + [e])[..|body|] == body;
  }

  lemma {:induction false} OpenedExtends(body: seq<Event>, e: Event, index: int, text: bool)
    requires Opened(body, index, text)
    ensures Opened(body + [e], index, text)
  {
    var i :| StartsAt(body, i, index) && (if text then body[i].block.TextBlock? else body[i].block.ToolUseBlock?);
    assert StartsAt(body + [e], i, index);
  }

  lemma {:induction false} DeltasExtend(body: seq<Event>, e: Event, blocks: nat)
    requires IsBody(body, blocks)
    ensures forall j :: 0 <= j < |body| && (body + [e])[j].BlockDelta? ==>
              exists i :: i < j && StartsAt(body + [e], i, (body + [e])[j].index)
                          && KindMatches((body + [e])[i].block, (body + [e])[j].delta)
  {
    forall j | 0 <= j < |body| && (body + [e])[j].BlockDelta?
      ensures exists i :: i < j && StartsAt(body + [e], i, (body + [e])[j].index)
                          && KindMatches((body + [e])[i].block, (body + [e])[j].delta)
    {
      var i :| i < j && StartsAt(body, i, body[j].index) && KindMatches(body[i].block, body[j].delta);
      assert StartsAt(body + [e], i, (body + [e])[j].index);
    }
  }

  lemma {:induction false} StartKeepsBody(body: seq<Event>, blocks: nat, b: Block)
    requires IsBody(body, blocks)
    ensures IsBody(body + [BlockStart(blocks, b)], blocks + 1)
    ensures StartsAt(body + [BlockStart(blocks, b)], |body|, blocks)
  {
    StartIndicesSnoc(body, BlockStart(blocks, b));
    DeltasExtend(body, BlockStart(blocks, b), blocks);
    assert UpTo(blocks) + [blocks] == UpTo(blocks + 1);
  }

  lemma {:induction false} DeltaKeepsBody(body: seq<Event>, blocks: nat, index: int, d: Delta, text: bool)
    requires IsBody(body, blocks) && Opened(body, index, text)
    requires if text then d.TextDelta? else d.InputJsonDelta?
    ensures IsBody(body + [BlockDelta(index, d)], blocks)
  {
    var e := BlockDelta(index, d);
    StartIndicesSnoc(body, e);
    DeltasExtend(body, e, blocks);
    var i :| StartsAt(body, i, index) && (if text then body[i].block.TextBlock? else body[i].block.ToolUseBlock?);
    assert StartsAt(body + [e], i, index);
  }

  /** The events of one atom, other than message_start, keep the writer's picture of the body right. */
  lemma {:induction false} StartTracks(w: WriterState, body: seq<Event>, b: Block)
    requires Tracks(w, body)
    ensures IsBody(body + [BlockStart(w.nextBlock, b)], w.nextBlock + 1)
    ensures Open(w).openBlocks == UpTo(w.nextBlock + 1)
    ensures b.TextBlock? ==> Opened(body + [BlockStart(w.nextBlock, b)], w.nextBlock, true)
    ensures b.ToolUseBlock? ==> Opened(body + [BlockStart(w.nextBlock, b)], w.nextBlock, false)
    ensures w.textOpen ==> Opened(body + [BlockStart(w.nextBlock, b)], w.textIndex, true)
    ensures forall oi :: oi in w.toolIdx ==> Opened(body + [BlockStart(w.nextBlock, b)], w.toolIdx[oi], false)
  {
    var e := BlockStart(w.nextBlock, b);
    StartKeepsBody(body, w.nextBlock, b);
    assert UpTo(w.nextBlock) + [w.nextBlock] == UpTo(w.nextBlock + 1);
    if w.textOpen {
      OpenedExtends(body, e, w.textIndex, true);
    }
    forall oi | oi in w.toolIdx ensures Opened(body + [e], w.toolIdx[oi], false) {
      OpenedExtends(body, e, w.toolIdx[oi], false);
    }
  }

  lemma {:induction false} DeltaTracks(w: WriterState, body: seq<Event>, index: int, d: Delta, text: bool)
    requires Tracks(w, body) && Opened(body, index, text)
    requires if text then d.TextDelta? else d.InputJsonDelta?
    ensures Tracks(w, body + [BlockDelta(index, d)])
  {
    var e := BlockDelta(index, d);
    DeltaKeepsBody(body, w.nextBlock, index, d, text);
    if w.textOpen {
      OpenedExtends(body, e, w.textIndex, true);
    }
    forall oi | oi in w.toolIdx ensures Opened(body + [e], w.toolIdx[oi], false) {
      OpenedExtends(body, e, w.toolIdx[oi], false);
    }
  }

  lemma {:induction false} EmitTracks(w: WriterState, body: seq<Event>, a: Atom)
    requires Tracks(w, body) && a != Begin
    ensures Tracks(Emit(w, a).w, body + Emit(w, a).events)
    ensures Emit(w, a).w.started == w.started && Emit(w, a).w.finished == w.finished
  {
    hide IsBody, Opened;
    var out := Emit(w, a);
    match a
    case End(_) =>
      assert body + [] == body;
    case Usage(_) =>
      assert body + [] == body;
    case Say(text) =>
      var b, mid := body, w;
      if !w.textOpen {
        StartTracks(w, body, TextBlock(""));
        b, mid := body + [BlockStart(w.nextBlock, TextBlock(""))], out.w;
      }
      DeltaTracks(mid, b, out.w.textIndex, TextDelta(text), true);
      assert body + out.events == b + [BlockDelta(out.w.textIndex, TextDelta(text))];
    case Call(t) =>
      var b, mid := body, w;
      var block := ToolUseBlock(t.id, NameOrDefault(t.name));
      if t.index !in w.toolIdx {
        StartTracks(w, body, block);
        b, mid := body + [BlockStart(w.nextBlock, block)], out.w;
      }
      assert Tracks(mid, b);
      if t.arguments == "" {
        assert body + out.events == b;
      } else {
        DeltaTracks(mid, b, out.w.toolIdx[t.index], InputJsonDelta(t.arguments), false);
        assert body + out.events == b + [BlockDelta(out.w.toolIdx[t.index], InputJsonDelta(t.arguments))];
      }
  }

  function Head(w: WriterState): seq<Event> {
    if w.started then [MessageStart(w.id, w.model)] else []
  }

  /** Until the first payload nothing is sent; from then on the output is message_start and a body. */
  lemma {:induction false} RunShape(id: string, model: string, atoms: seq<Atom>) returns (body: seq<Event>)
    requires atoms != [] ==> atoms[0] == Begin
    ensures var run := EmitAll(Fresh(id, model), atoms);
            && run.events == Head(run.w) + body
            && Tracks(run.w, body)
            && run.w.id == id && run.w.model == model && !run.w.finished
            && (run.w.started <==> atoms != [])
  {
    if atoms == [] {
      body := [];
      assert StartIndices([]) == UpTo(0);
    } else {
      var init, a := atoms[..|atoms| - 1], atoms[|atoms| - 1];
      var before := RunShape(id, model, init);
      var run := EmitAll(Fresh(id, model), init);
      if a == Begin {
        body := before;
        if init == [] {
          assert before == [] by { assert run.events == Head(run.w) + before; }
        }
      } else {
        EmitTracks(run.w, before, a);
        body := before + Emit(run.w, a).events;
        assert Head(run.w) + before + Emit(run.w, a).events == Head(run.w) + body;
      }
    }
  }

  lemma {:induction false} StreamAtomsBegin(ps: seq<Option<Chunk>>)
    ensures StreamAtoms(ps) != [] ==> StreamAtoms(ps)[0] == Begin
  {
    if ps != [] {
      StreamAtomsBegin(ps[..|ps| - 1]);
    }
  }

  /** The finish closes what is open: it turns message_start and a body into a complete stream. */
  lemma {:induction false} FinishCompletes(w: WriterState, body: seq<Event>)
    requires Tracks(w, body) && !w.finished && (!w.started ==> body == [])
    ensures IsCompleteStream(
              Head(w) + body + Finish(w).events, w.id, w.model, body, w.nextBlock, FinalStop(w), w.usageOut)
  {
    var tail := Stops(w.openBlocks) + [MessageDelta(Some(FinalStop(w)), w.usageOut), MessageStop];
    assert Finish(w).events == Emit(w, Begin).events + tail;
    if w.started {
      assert Head(w) + body + ([] + tail) == [MessageStart(w.id, w.model)] + body + tail;
    } else {
      assert [] + [] + ([MessageStart(w.id, w.model)] + tail) == [MessageStart(w.id, w.model)] + [] + tail;
    }
  }

  /**
    * Every run of any payloads followed by the finish is a complete stream: one message_start first,
    * blocks numbered 0, 1, 2, ..., deltas only to an opened block of their kind, one stop for each
    * block, then one message_delta and one message_stop. A second finish sends nothing.
    */
  lemma {:induction false} TranscriptIsComplete(id: string, model: string, ps: seq<Option<Chunk>>)
    returns (body: seq<Event>, blocks: nat)
    ensures var run := EmitAll(Fresh(id, model), StreamAtoms(ps));
            && IsCompleteStream(Transcript(id, model, ps), id, model, body, blocks, FinalStop(run.w), run.w.usageOut)
            && Finish(Finish(run.w).w) == Out(Finish(run.w).w, [])
  {
    StreamAtomsBegin(ps);
    var run := EmitAll(Fresh(id, model), StreamAtoms(ps));
    body := RunShape(id, model, StreamAtoms(ps));
    blocks := run.w.nextBlock;
    if StreamAtoms(ps) == [] {
      assert run.events == [];
      assert Head(run.w) + body == body;
    }
    FinishCompletes(run.w, body);
  }
}
