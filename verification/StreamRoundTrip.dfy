/** Encoding a chunk stream as Anthropic events and decoding it again keeps what the stream says. */
module StreamRoundTrip {
  import opened Common
  import opened StreamTypes
  import opened StreamWriter
  import opened StreamDecoder
  import opened StreamShape

  // ----- A chunk stream and its atoms say the same -----

  function AddAtom(r: Reply, a: Atom): Reply {
    match a
    case Say(text) => r.(text := r.text + text)
    case Call(t) => r.(tools := AddTool(r.tools, t))
    case End(reason) => r.(finish := reason)
    case _ => r
  }

  function AddAtoms(r: Reply, atoms: seq<Atom>): Reply {
    if atoms == [] then r else AddAtom(AddAtoms(r, atoms[..|atoms| - 1]), atoms[|atoms| - 1])
  }

  lemma {:induction false} AddAtomsAppend(r: Reply, a: seq<Atom>, b: seq<Atom>)
    ensures AddAtoms(r, a + b) == AddAtoms(AddAtoms(r, a), b)
  {
    if b == [] {
      assert a + b == a;
    } else {
      AddAtomsAppend(r, a, b[..|b| - 1]);
      assert (a + b)[..|a + b| - 1] == a + b[..|b| - 1];
    }
  }

  lemma {:induction false} AddOne(r: Reply, a: Atom)
    ensures AddAtoms(r, [a]) == AddAtom(r, a)
  {
    assert [a][..0] == [];
  }

  lemma {:induction false} CallsAreTools(r: Reply, ts: seq<ToolDelta>)
    ensures AddAtoms(r, CallAtoms(ts)) == r.(tools := AddTools(r.tools, ts))
  {
    if ts != [] {
      CallsAreTools(r, ts[..|ts| - 1]);
      assert CallAtoms(ts)[..|ts| - 1] == CallAtoms(ts[..|ts| - 1]);
    }
  }

  lemma {:induction false} ContentIsText(r: Reply, c: Content)
    ensures AddAtoms(r, ContentAtoms(c)) == r.(text := r.text + TextOf(c))
  {
    if ContentAtoms(c) != [] {
      AddOne(r, Say(c.text));
    } else {
      assert r.text + "" == r.text;
    }
  }

  lemma {:induction false} ReasonIsFinish(r: Reply, reason: Option<FinishReason>)
    ensures AddAtoms(r, ReasonAtoms(reason))
         == r.(finish := if reason.Some? && reason.value != Unset then reason.value else r.finish)
  {
    if ReasonAtoms(reason) != [] {
      AddOne(r, End(reason.value));
    }
  }

  lemma {:induction false} ChoiceSays(r: Reply, ch: Choice)
    ensures AddAtoms(r, ChoiceAtoms(ch)) == AddChoice(r, ch)
  {
    ContentIsText(r, ch.content);
    var r1 := AddAtoms(r, ContentAtoms(ch.content));
    CallsAreTools(r1, ch.toolCalls);
    var r2 := AddAtoms(r1, CallAtoms(ch.toolCalls));
    ReasonIsFinish(r2, ch.finishReason);
    AddAtomsAppend(r, ContentAtoms(ch.content), CallAtoms(ch.toolCalls));
    AddAtomsAppend(r, ContentAtoms(ch.content) + CallAtoms(ch.toolCalls), ReasonAtoms(ch.finishReason));
  }

  lemma {:induction false} ChoicesSay(r: Reply, chs: seq<Choice>)
    ensures AddAtoms(r, ChoicesAtoms(chs)) == AddChoices(r, chs)
  {
    if chs != [] {
      var init, last := chs[..|chs| - 1], chs[|chs| - 1];
      ChoicesSay(r, init);
      ChoiceSays(AddChoices(r, init), last);
      AddAtomsAppend(r, ChoicesAtoms(init), ChoiceAtoms(last));
    }
  }

  lemma {:induction false} ChunkSays(r: Reply, c: Chunk)
    ensures AddAtoms(r, ChunkAtoms(c)) == AddChoices(r, c.choices)
  {
    AddOne(r, Begin);
    if c.usage.Some? && c.choices == [] {
      AddOne(r, Usage(c.usage.value));
      AddAtomsAppend(r, [Begin], [Usage(c.usage.value)]);
    } else {
      ChoicesSay(r, c.choices);
      AddAtomsAppend(r, [Begin], ChoicesAtoms(c.choices));
    }
  }

  /** The chunks among the payloads: those that could be decoded. */
  function ValidChunks(ps: seq<Option<Chunk>>): seq<Chunk> {
    if ps == [] then []
    else
      var p := ps[|ps| - 1];
      ValidChunks(ps[..|ps| - 1]) + (if p.Some? then [p.value] else [])
  }

  lemma {:induction false} StreamSays(ps: seq<Option<Chunk>>)
    ensures AddAtoms(EmptyReply, StreamAtoms(ps)) == Accumulate(ValidChunks(ps))
  {
    if ps != [] {
      var init, p := ps[..|ps| - 1], ps[|ps| - 1];
      StreamSays(init);
      AddAtomsAppend(EmptyReply, StreamAtoms(init), PayloadAtoms(p));
      if p.Some? {
        ChunkSays(Accumulate(ValidChunks(init)), p.value);
        AccumulateAppend(ValidChunks(init), p.value);
      } else {
        assert ValidChunks(ps) == ValidChunks(init);
      }
    }
  }

  // ----- The simulation: writer and decoder in step -----

  /** The tool call a client sees again: renumbered by first appearance, with a name. */
  function Renumbered(k: int, t: Tool): Tool {
    Tool(k, t.id, if t.name == "" then "function" else t.name, t.arguments)
  }

  /** Where the k-th tool call of the stream lives on both sides. */
  ghost predicate Routed(w: WriterState, d: DecoderState, k: int, t: Tool) {
    && t.index in w.toolIdx
    && w.toolIdx[t.index] in d.toolIdx
    && d.toolIdx[w.toolIdx[t.index]] == k
  }

  /**
    * `sent` has been written by `w`, `got` has been read back by `d`: same text, the same tool calls
    * in order of first appearance, and both index maps agree on which call is which.
    */
  ghost predicate InStep(w: WriterState, d: DecoderState, sent: Reply, got: Reply) {
    && got.text == sent.text && got.finish == Unset && !d.stopSent
    && w.stopReason == (if sent.finish == Unset then None else Some(MapOpenAIToAnthropicStop(sent.finish)))
    && d.nextTool == |got.tools| == |sent.tools|
    && (forall k :: 0 <= k < |sent.tools| ==> Routed(w, d, k, sent.tools[k]))
    && (forall k :: 0 <= k < |sent.tools| ==> got.tools[k] == Renumbered(k, sent.tools[k]))
    && (forall oi :: oi in w.toolIdx ==> Find(sent.tools, oi) < |sent.tools|)
    && (forall ci :: ci in d.toolIdx ==> ci < w.nextBlock)
  }

  /** Reading one more event back. */
  function Got(d: DecoderState, got: Reply, e: Event): Reply {
    var chunks := Decode(d, Some(e)).chunks;
    if chunks == [] then got else AddChoices(got, chunks[0].choices)
  }

  lemma {:induction false} AddOneChoice(r: Reply, ch: Choice)
    ensures AddChoices(r, [ch]) == AddChoice(r, ch)
  {
    assert [ch][..0] == [];
  }

  lemma {:induction false} AddOneTool(tools: seq<Tool>, t: ToolDelta)
    ensures AddTools(tools, [t]) == AddTool(tools, t)
  {
    assert [t][..0] == [];
  }

  /** A chunk that carries one tool fragment adds just that. */
  lemma {:induction false} GotTool(got: Reply, t: ToolDelta)
    ensures AddChoices(got, [ToolChoice(t)]) == got.(tools := AddTool(got.tools, t))
  {
    AddOneChoice(got, ToolChoice(t));
    AddOneTool(got.tools, t);
    assert got.text + "" == got.text;
  }

  /** A text delta read back. */
  lemma {:induction false} TextInStep(w: WriterState, d: DecoderState, sent: Reply, got: Reply, index: int, s: string)
    requires InStep(w, d, sent, got)
    ensures Decode(d, Some(BlockDelta(index, TextDelta(s)))).d == d
    ensures InStep(w, d, sent.(text := sent.text + s), Got(d, got, BlockDelta(index, TextDelta(s))))
  {
    AddOneChoice(got, TextChoice(s));
  }

  lemma {:induction false} NotYetSent(w: WriterState, d: DecoderState, sent: Reply, got: Reply, index: int)
    requires InStep(w, d, sent, got) && index !in w.toolIdx
    ensures Find(sent.tools, index) == |sent.tools|
  {
    var k := Find(sent.tools, index);
    assert k < |sent.tools| ==> Routed(w, d, k, sent.tools[k]);
  }

  /** The start of a new tool call, read back: the decoder gives it the next number. */
  lemma {:induction false} OpenReadBack(
    w: WriterState, d: DecoderState, sent: Reply, got: Reply, id: string, name: string)
    requires InStep(w, d, sent, got)
    ensures var e, n := BlockStart(w.nextBlock, ToolUseBlock(id, name)), |got.tools|;
            && Decode(d, Some(e)).d == d.(nextTool := n + 1, toolIdx := d.toolIdx[w.nextBlock := n])
            && Got(d, got, e) == got.(tools := got.tools + [Tool(n, id, name, "")])
  {
    var n := |got.tools|;
    assert w.nextBlock !in d.toolIdx;
    GotTool(got, ToolDelta(n, id, name, ""));
    assert Find(got.tools, n) == n;
  }

  lemma NameIsGiven(name: string)
    ensures NameOrDefault(name) == if name == "" then "function" else name
  {
  }

  /** A new tool call: both sides give it the next number. */
  lemma {:induction false} OpenInStep(
    w: WriterState, w': WriterState, d: DecoderState, sent: Reply, got: Reply, t: ToolDelta)
    requires InStep(w, d, sent, got) && t.index !in w.toolIdx
    requires w'.toolIdx == w.toolIdx[t.index := w.nextBlock]
    requires w'.nextBlock == w.nextBlock + 1 && w'.stopReason == w.stopReason
    ensures var e := BlockStart(w.nextBlock, ToolUseBlock(t.id, NameOrDefault(t.name)));
            InStep(w', Decode(d, Some(e)).d, sent.(tools := AddTool(sent.tools, t.(arguments := ""))), Got(d, got, e))
  {
    hide Decode, Got, NameOrDefault, Find;
    var e := BlockStart(w.nextBlock, ToolUseBlock(t.id, NameOrDefault(t.name)));
    var d' := Decode(d, Some(e)).d;
    var n := |sent.tools|;
    NameIsGiven(t.name);
    OpenReadBack(w, d, sent, got, t.id, NameOrDefault(t.name));
    NotYetSent(w, d, sent, got, t.index);
    var sent' := sent.tools + [Tool(t.index, t.id, t.name, "")];
    assert AddTool(sent.tools, t.(arguments := "")) == sent';
    forall k | 0 <= k < |sent'| ensures Routed(w', d', k, sent'[k]) {
      if k < n {
        RoutedStill(w, w', d, d', k, sent.tools[k], t.index);
      }
    }
    forall oi | oi in w'.toolIdx ensures Find(sent', oi) < |sent'| {
      FoundStill(sent.tools, sent'[n], oi);
    }
  }

  /** A call that is known stays where it was when another one opens. */
  lemma RoutedStill(w: WriterState, w': WriterState, d: DecoderState, d': DecoderState, k: int, t: Tool, index: int)
    requires Routed(w, d, k, t) && index !in w.toolIdx && w'.toolIdx == w.toolIdx[index := w.nextBlock]
    requires d'.toolIdx == d.toolIdx[w.nextBlock := d.nextTool] && w.nextBlock !in d.toolIdx
    ensures Routed(w', d', k, t)
  {
  }

  lemma FoundStill(tools: seq<Tool>, t: Tool, index: int)
    requires Find(tools, index) < |tools| || t.index == index
    ensures Find(tools + [t], index) < |tools| + 1
  {
    var k := if t.index == index then |tools| else Find(tools, index);
    assert (tools + [t])[k].index == index;
  }

  /** More arguments of a known tool call. */
  lemma {:induction false} ArgumentsInStep(w: WriterState, d: DecoderState, sent: Reply, got: Reply, t: ToolDelta)
    requires InStep(w, d, sent, got) && t.index in w.toolIdx
    ensures var e := BlockDelta(w.toolIdx[t.index], InputJsonDelta(t.arguments));
            && Decode(d, Some(e)).d == d
            && InStep(w, d, sent.(tools := AddTool(sent.tools, t)), Got(d, got, e))
  {
    var k := Find(sent.tools, t.index);
    assert Routed(w, d, k, sent.tools[k]);
    GotTool(got, ToolDelta(k, "", "", t.arguments));
    assert Find(got.tools, k) == k by {
      assert got.tools[k].index == k;
    }
    var sent' := AddTool(sent.tools, t);
    assert sent' == sent.tools[k := sent.tools[k].(arguments := sent.tools[k].arguments + t.arguments)];
    forall j | 0 <= j < |sent'| ensures Routed(w, d, j, sent'[j]) {
      assert Routed(w, d, j, sent.tools[j]);
    }
    forall oi | oi in w.toolIdx ensures Find(sent', oi) < |sent'| {
      assert sent'[Find(sent.tools, oi)].index == oi;
    }
  }

  function AccumulateOn(got: Reply, chunks: seq<Chunk>): Reply {
    if chunks == [] then got
    else AddChoices(AccumulateOn(got, chunks[..|chunks| - 1]), chunks[|chunks| - 1].choices)
  }

  lemma {:induction false} AccumulateOnAppend(got: Reply, a: seq<Chunk>, b: seq<Chunk>)
    ensures AccumulateOn(got, a + b) == AccumulateOn(AccumulateOn(got, a), b)
  {
    if b == [] {
      assert a + b == a;
    } else {
      AccumulateOnAppend(got, a, b[..|b| - 1]);
      assert (a + b)[..|a + b| - 1] == a + b[..|b| - 1];
    }
  }

  lemma {:induction false} AccumulateFromEmpty(chunks: seq<Chunk>)
    ensures AccumulateOn(EmptyReply, chunks) == Accumulate(chunks)
  {
    if chunks != [] { AccumulateFromEmpty(chunks[..|chunks| - 1]); }
  }

  lemma {:induction false} ReadOne(d: DecoderState, got: Reply, e: Event)
    ensures DecodeAll(d, [e]).d == Decode(d, Some(e)).d
    ensures AccumulateOn(got, DecodeAll(d, [e]).chunks) == Got(d, got, e)
  {
    DecodeOne(d, e);
    var chunks := Decode(d, Some(e)).chunks;
    if chunks != [] {
      assert chunks[..0] == [];
    }
  }

  lemma {:induction false} ReadTwo(d: DecoderState, got: Reply, e: Event, f: Event)
    ensures var mid := Decode(d, Some(e)).d;
            && DecodeAll(d, [e] + [f]).d == Decode(mid, Some(f)).d
            && AccumulateOn(got, DecodeAll(d, [e] + [f]).chunks) == Got(mid, Got(d, got, e), f)
  {
    ReadOne(d, got, e);
    ReadOne(Decode(d, Some(e)).d, Got(d, got, e), f);
    DecodeAllAppend(d, [e], [f]);
    AccumulateOnAppend(got, DecodeAll(d, [e]).chunks, DecodeAll(Decode(d, Some(e)).d, [f]).chunks);
  }

  lemma {:induction false} ReadNone(d: DecoderState, got: Reply)
    ensures DecodeAll(d, []).d == d && AccumulateOn(got, DecodeAll(d, []).chunks) == got
  {
  }

  ghost predicate StepKeeps(w: WriterState, d: DecoderState, sent: Reply, got: Reply, a: Atom) {
    var out := Emit(w, a);
    InStep(out.w, DecodeAll(d, out.events).d, AddAtom(sent, a),
           AccumulateOn(got, DecodeAll(d, out.events).chunks))
  }

  lemma {:induction false} SayInStep(w: WriterState, d: DecoderState, sent: Reply, got: Reply, text: string)
    requires InStep(w, d, sent, got)
    ensures StepKeeps(w, d, sent, got, Say(text))
  {
    var out := Emit(w, Say(text));
    var f := BlockDelta(out.w.textIndex, TextDelta(text));
    TextInStep(w, d, sent, got, out.w.textIndex, text);
    if w.textOpen {
      assert out.events == [f];
      ReadOne(d, got, f);
    } else {
      var e := BlockStart(out.w.textIndex, TextBlock(""));
      assert out.events == [e] + [f];
      ReadTwo(d, got, e, f);
    }
  }

  lemma {:induction false} KnownCallInStep(w: WriterState, d: DecoderState, sent: Reply, got: Reply, t: ToolDelta)
    requires InStep(w, d, sent, got) && t.index in w.toolIdx
    ensures StepKeeps(w, d, sent, got, Call(t))
  {
    var f := BlockDelta(w.toolIdx[t.index], InputJsonDelta(t.arguments));
    ArgumentsInStep(w, d, sent, got, t);
    if t.arguments == "" {
      assert Emit(w, Call(t)) == Out(w, []);
      ReadNone(d, got);
      var k := Find(sent.tools, t.index);
      assert sent.tools[k].arguments + "" == sent.tools[k].arguments;
      assert AddTool(sent.tools, t) == sent.tools;
    } else {
      assert Emit(w, Call(t)) == Out(w, [f]);
      ReadOne(d, got, f);
    }
  }

  /** Opening a call and then giving its first arguments is adding its first fragment. */
  lemma {:induction false} AddInTwo(tools: seq<Tool>, t: ToolDelta)
    requires Find(tools, t.index) == |tools|
    ensures AddTool(AddTool(tools, t.(arguments := "")), t) == AddTool(tools, t)
  {
    var once := tools + [Tool(t.index, t.id, t.name, "")];
    assert Find(once, t.index) == |tools| by {
      assert once[|tools|].index == t.index;
      assert forall j :: 0 <= j < |tools| ==> once[j] == tools[j];
    }
    assert "" + t.arguments == t.arguments;
  }

  lemma {:induction false} NewCallInStep(w: WriterState, d: DecoderState, sent: Reply, got: Reply, t: ToolDelta)
    requires InStep(w, d, sent, got) && t.index !in w.toolIdx
    ensures StepKeeps(w, d, sent, got, Call(t))
  {
    var w' := Emit(w, Call(t)).w;
    var e := BlockStart(w.nextBlock, ToolUseBlock(t.id, NameOrDefault(t.name)));
    var f := BlockDelta(w.nextBlock, InputJsonDelta(t.arguments));
    OpenInStep(w, w', d, sent, got, t);
    if t.arguments == "" {
      assert Emit(w, Call(t)).events == [e];
      ReadOne(d, got, e);
      assert t.(arguments := "") == t;
    } else {
      assert Emit(w, Call(t)).events == [e] + [f];
      ReadTwo(d, got, e, f);
      NotYetSent(w, d, sent, got, t.index);
      AddInTwo(sent.tools, t);
      var begun := sent.(tools := AddTool(sent.tools, t.(arguments := "")));
      ArgumentsInStep(w', Decode(d, Some(e)).d, begun, Got(d, got, e), t);
    }
  }

  lemma {:induction false} BeginInStep(w: WriterState, d: DecoderState, sent: Reply, got: Reply)
    requires InStep(w, d, sent, got)
    ensures StepKeeps(w, d, sent, got, Begin)
  {
    hide DecodeAll;
    if w.started {
      ReadNone(d, got);
    } else {
      var e := MessageStart(w.id, w.model);
      ReadOne(d, got, e);
      AddOneChoice(got, Choice(Assistant, NoContent, [], None));
      assert got.text + "" == got.text;
    }
  }

  /** A finish reason and a usage report send nothing yet. */
  lemma {:induction false} QuietInStep(w: WriterState, d: DecoderState, sent: Reply, got: Reply, a: Atom)
    requires InStep(w, d, sent, got) && (a.Usage? || (a.End? && a.reason != Unset))
    ensures StepKeeps(w, d, sent, got, a)
  {
    hide DecodeAll;
    ReadNone(d, got);
  }

  lemma {:induction false} EmitInStep(w: WriterState, d: DecoderState, sent: Reply, got: Reply, a: Atom)
    requires InStep(w, d, sent, got)
    requires a.End? ==> a.reason != Unset
    ensures StepKeeps(w, d, sent, got, a)
  {
    hide InStep, StepKeeps;
    match a
    case Say(text) => SayInStep(w, d, sent, got, text);
    case Call(t) =>
      if t.index in w.toolIdx { KnownCallInStep(w, d, sent, got, t); } else { NewCallInStep(w, d, sent, got, t); }
    case Begin => BeginInStep(w, d, sent, got);
    case _ => QuietInStep(w, d, sent, got, a);
  }

  ghost predicate ReasonsGiven(atoms: seq<Atom>) {
    forall i :: 0 <= i < |atoms| && atoms[i].End? ==> atoms[i].reason != Unset
  }

  lemma {:induction false} ChoicesReasons(chs: seq<Choice>)
    ensures ReasonsGiven(ChoicesAtoms(chs))
  {
    if chs != [] { ChoicesReasons(chs[..|chs| - 1]); }
  }

  lemma {:induction false} StreamReasons(ps: seq<Option<Chunk>>)
    ensures ReasonsGiven(StreamAtoms(ps))
  {
    if ps != [] {
      StreamReasons(ps[..|ps| - 1]);
      var p := ps[|ps| - 1];
      if p.Some? { ChoicesReasons(p.value.choices); }
    }
  }

  lemma {:induction false} RunInStep(id: string, model: string, atoms: seq<Atom>)
    requires ReasonsGiven(atoms)
    ensures var run := EmitAll(Fresh(id, model), atoms);
            var back := DecodeAll(FreshDecoder, run.events);
            InStep(run.w, back.d, AddAtoms(EmptyReply, atoms), AccumulateOn(EmptyReply, back.chunks))
  {
    if atoms != [] {
      var init, a := atoms[..|atoms| - 1], atoms[|atoms| - 1];
      RunInStep(id, model, init);
      var run := EmitAll(Fresh(id, model), init);
      var back := DecodeAll(FreshDecoder, run.events);
      EmitInStep(run.w, back.d, AddAtoms(EmptyReply, init), AccumulateOn(EmptyReply, back.chunks), a);
      DecodeAllAppend(FreshDecoder, run.events, Emit(run.w, a).events);
      AccumulateOnAppend(EmptyReply, back.chunks, DecodeAll(back.d, Emit(run.w, a).events).chunks);
    }
  }

  // ----- The finish -----

  lemma {:induction false} StopsAreSilent(d: DecoderState, blocks: seq<int>)
    ensures DecodeAll(d, Stops(blocks)) == Decoded(d, [])
  {
    if blocks != [] {
      assert Stops(blocks)[..|blocks| - 1] == Stops(blocks[..|blocks| - 1]);
      StopsAreSilent(d, blocks[..|blocks| - 1]);
    }
  }

  /** The finish reasons a client can see again. */
  function NormalReason(reason: FinishReason): FinishReason {
    if reason == Length || reason == ToolCalls || reason == ContentFilter then reason else Stop
  }

  lemma {:induction false} BeginIsSilent(w: WriterState, d: DecoderState, got: Reply)
    ensures var begun := Emit(w, Begin).events;
            && AccumulateOn(got, DecodeAll(d, begun).chunks) == got
            && DecodeAll(d, begun).d.stopSent == d.stopSent
  {
    if w.started {
      ReadNone(d, got);
    } else {
      ReadOne(d, got, MessageStart(w.id, w.model));
      AddOneChoice(got, Choice(Assistant, NoContent, [], None));
      assert got.text + "" == got.text;
    }
  }

  /** The first message_delta gives its reason, mapped, and message_stop says nothing. */
  lemma {:induction false} DeltaReadBack(d: DecoderState, got: Reply, stop: StopReason, tokens: int)
    requires !d.stopSent
    ensures var e := MessageDelta(Some(stop), tokens);
            && Got(d, got, e) == got.(finish := MapAnthropicStopReason(Some(stop)))
            && forall r: Reply :: Got(Decode(d, Some(e)).d, r, MessageStop) == r
  {
    hide MapAnthropicStopReason, AddTools;
    AddOneChoice(got, Choice(NoRole, NoContent, [], Some(MapAnthropicStopReason(Some(stop)))));
    MappedIsSet(stop);
    assert got.text + "" == got.text;
    assert AddTools(got.tools, []) == got.tools by {
      AddNoTools(got.tools);
    }
  }

  lemma MappedIsSet(stop: StopReason)
    ensures MapAnthropicStopReason(Some(stop)) != Unset
  {
  }

  lemma AddNoTools(tools: seq<Tool>)
    ensures AddTools(tools, []) == tools
  {
  }

  lemma {:induction false} StopReadBack(w: WriterState, d: DecoderState, got: Reply, reason: FinishReason)
    requires !d.stopSent
    requires w.stopReason == (if reason == Unset then None else Some(MapOpenAIToAnthropicStop(reason)))
    ensures var tail := [MessageDelta(Some(FinalStop(w)), w.usageOut)] + [MessageStop];
            AccumulateOn(got, DecodeAll(d, tail).chunks) == got.(finish := NormalReason(reason))
  {
    hide Decode, Got, DecodeAll, AccumulateOn;
    ReadTwo(d, got, MessageDelta(Some(FinalStop(w)), w.usageOut), MessageStop);
    DeltaReadBack(d, got, FinalStop(w), w.usageOut);
  }

  lemma {:induction false} FinishReadBack(w: WriterState, d: DecoderState, sent: Reply, got: Reply)
    requires InStep(w, d, sent, got) && !w.finished
    ensures AccumulateOn(got, DecodeAll(d, Finish(w).events).chunks) == got.(finish := NormalReason(sent.finish))
  {
    var begun, stops := Emit(w, Begin).events, Stops(w.openBlocks);
    var tail := [MessageDelta(Some(FinalStop(w)), w.usageOut)] + [MessageStop];
    var d1 := DecodeAll(d, begun).d;
    assert Finish(w).events == (begun + stops) + tail;
    BeginIsSilent(w, d, got);
    StopsAreSilent(d1, w.openBlocks);
    StopReadBack(w, d1, got, sent.finish);
    DecodeAllAppend(d, begun, stops);
    DecodeAllAppend(d, begun + stops, tail);
    var chunks0 := DecodeAll(d, begun).chunks;
    assert chunks0 + [] == chunks0;
    AccumulateOnAppend(got, chunks0, DecodeAll(d1, tail).chunks);
  }

  lemma {:induction false} NeverFinished(w: WriterState, atoms: seq<Atom>)
    ensures EmitAll(w, atoms).w.finished == w.finished
  {
    hide Emit;
    if atoms != [] {
      NeverFinished(w, atoms[..|atoms| - 1]);
      EmitDoesNotFinish(EmitAll(w, atoms[..|atoms| - 1]).w, atoms[|atoms| - 1]);
    }
  }

  lemma EmitDoesNotFinish(w: WriterState, a: Atom)
    ensures Emit(w, a).w.finished == w.finished
  {
    hide NameOrDefault, MapOpenAIToAnthropicStop;
  }

  /**
    * The round trip: for every stream of payloads, a client of the decoded event stream assembles the
    * text, the tool calls in order of first appearance and the finish reason that a client of the
    * chunks assembles.
    */
  lemma {:induction false} StreamRoundTrip(id: string, model: string, ps: seq<Option<Chunk>>)
    ensures var sent := Accumulate(ValidChunks(ps));
            var got := Accumulate(DecodeAll(FreshDecoder, Transcript(id, model, ps)).chunks);
            && got.text == sent.text
            && got.finish == NormalReason(sent.finish)
            && |got.tools| == |sent.tools|
            && forall k :: 0 <= k < |sent.tools| ==> got.tools[k] == Renumbered(k, sent.tools[k])
  {
    var atoms := StreamAtoms(ps);
    var run := EmitAll(Fresh(id, model), atoms);
    var back := DecodeAll(FreshDecoder, run.events);
    var sent, got := AddAtoms(EmptyReply, atoms), AccumulateOn(EmptyReply, back.chunks);
    StreamReasons(ps);
    RunInStep(id, model, atoms);
    StreamSays(ps);
    NeverFinished(Fresh(id, model), atoms);
    FinishReadBack(run.w, back.d, sent, got);
    DecodeAllAppend(FreshDecoder, run.events, Finish(run.w).events);
    AccumulateOnAppend(EmptyReply, back.chunks, DecodeAll(back.d, Finish(run.w).events).chunks);
    AccumulateFromEmpty(DecodeAll(FreshDecoder, Transcript(id, model, ps)).chunks);
  }

  // ----- What the closing events report -----

  /** The tokens of the last usage-only chunk, 0 when there is none. */
  function LastUsage(ps: seq<Option<Chunk>>): int {
    if ps == [] then 0
    else
      var p := ps[|ps| - 1];
      if p.Some? && p.value.usage.Some? && p.value.choices == [] then p.value.usage.value
      else LastUsage(ps[..|ps| - 1])
  }

  lemma {:induction false} ChoiceKeepsUsage(w: WriterState, ch: Choice)
    ensures EmitAll(w, ChoiceAtoms(ch)).w.usageOut == w.usageOut
  {
    NoUsageKeeps(w, ChoiceAtoms(ch));
  }

  lemma {:induction false} ChoicesKeepUsage(w: WriterState, chs: seq<Choice>)
    ensures EmitAll(w, ChoicesAtoms(chs)).w.usageOut == w.usageOut
  {
    hide Emit, ChoiceAtoms;
    if chs != [] {
      var init, last := chs[..|chs| - 1], chs[|chs| - 1];
      ChoicesKeepUsage(w, init);
      EmitAllAppend(w, ChoicesAtoms(init), ChoiceAtoms(last));
      ChoiceKeepsUsage(EmitAll(w, ChoicesAtoms(init)).w, last);
    }
  }

  lemma {:induction false} NoUsageKeeps(w: WriterState, atoms: seq<Atom>)
    requires forall i :: 0 <= i < |atoms| ==> !atoms[i].Usage?
    ensures EmitAll(w, atoms).w.usageOut == w.usageOut
  {
    hide Emit;
    if atoms != [] {
      NoUsageKeeps(w, atoms[..|atoms| - 1]);
      OnlyUsageCounts(EmitAll(w, atoms[..|atoms| - 1]).w, atoms[|atoms| - 1]);
    }
  }

  lemma OnlyUsageCounts(w: WriterState, a: Atom)
    requires !a.Usage?
    ensures Emit(w, a).w.usageOut == w.usageOut
  {
    hide NameOrDefault, MapOpenAIToAnthropicStop;
  }

  lemma {:induction false} UsageReported(w: WriterState, ps: seq<Option<Chunk>>)
    requires w.usageOut == 0
    ensures EmitAll(w, StreamAtoms(ps)).w.usageOut == LastUsage(ps)
  {
    if ps != [] {
      var init, p := ps[..|ps| - 1], ps[|ps| - 1];
      UsageReported(w, init);
      var w1 := EmitAll(w, StreamAtoms(init)).w;
      EmitAllAppend(w, StreamAtoms(init), PayloadAtoms(p));
      if p.Some? {
        EmitAllSnoc(w1, [], Begin);
        assert [] + [Begin] == [Begin];
        if p.value.usage.Some? && p.value.choices == [] {
          EmitAllSnoc(w1, [Begin], Usage(p.value.usage.value));
        } else {
          EmitAllAppend(w1, [Begin], ChoicesAtoms(p.value.choices));
          ChoicesKeepUsage(EmitAll(w1, [Begin]).w, p.value.choices);
        }
      }
    }
  }

  /**
    * Every complete run is one well-formed Anthropic stream whose closing message_delta carries the
    * stop reason of the last finish reason in the stream and the tokens of its last usage chunk.
    */
  lemma {:induction false} TranscriptReports(id: string, model: string, ps: seq<Option<Chunk>>)
    returns (body: seq<Event>, blocks: nat)
    ensures var last := Accumulate(ValidChunks(ps)).finish;
            var stop := if last == Length then MaxTokens
                        else if last == ToolCalls then ToolUse
                        else if last == ContentFilter then Filtered
                        else EndTurn;
            IsCompleteStream(Transcript(id, model, ps), id, model, body, blocks, stop, LastUsage(ps))
  {
    body, blocks := TranscriptIsComplete(id, model, ps);
    StreamReasons(ps);
    RunInStep(id, model, StreamAtoms(ps));
    StreamSays(ps);
    UsageReported(Fresh(id, model), ps);
  }
}
