/** The encoder of OpenAI chunks as Anthropic events (pkg/adapter/anthropic_stream.go, AnthropicSSEWriter). */
module StreamWriter {
  import opened Common
  import opened StreamTypes

  datatype WriterState = WriterState(
    id: string, model: string,
    started: bool,
    textOpen: bool, textIndex: int,
    nextBlock: int,
    toolIdx: map<int, int>,
    openBlocks: seq<int>,
    stopReason: Option<StopReason>,
    usageOut: int,
    finished: bool)

  function Fresh(id: string, model: string): WriterState {
    WriterState(id, model, false, false, 0, 0, map[], [], None, 0, false)
  }

  /** The elementary things a stream of chunks says, in order. */
  datatype Atom = Begin | Say(text: string) | Call(tool: ToolDelta) | End(reason: FinishReason) | Usage(tokens: int)

  function CallAtoms(ts: seq<ToolDelta>): (r: seq<Atom>)
    ensures |r| == |ts|
    ensures forall i :: 0 <= i < |ts| ==> r[i] == Call(ts[i])
  {
    seq(|ts|, i requires 0 <= i < |ts| => Call(ts[i]))
  }

  function ContentAtoms(c: Content): seq<Atom> {
    if c.Text? && c.text != "" then [Say(c.text)] else []
  }

  function ReasonAtoms(reason: Option<FinishReason>): seq<Atom> {
    if reason.Some? && reason.value != Unset then [End(reason.value)] else []
  }

  function ChoiceAtoms(ch: Choice): seq<Atom> {
    ContentAtoms(ch.content) + CallAtoms(ch.toolCalls) + ReasonAtoms(ch.finishReason)
  }

  function ChoicesAtoms(chs: seq<Choice>): seq<Atom> {
    if chs == [] then [] else ChoicesAtoms(chs[..|chs| - 1]) + ChoiceAtoms(chs[|chs| - 1])
  }

  function ChunkAtoms(c: Chunk): seq<Atom> {
    [Begin] + (if c.usage.Some? && c.choices == [] then [Usage(c.usage.value)] else ChoicesAtoms(c.choices))
  }

  /** A payload that is not decodable says nothing. */
  function PayloadAtoms(p: Option<Chunk>): seq<Atom> {
    if p.Some? then ChunkAtoms(p.value) else []
  }

  function StreamAtoms(ps: seq<Option<Chunk>>): seq<Atom> {
    if ps == [] then [] else StreamAtoms(ps[..|ps| - 1]) + PayloadAtoms(ps[|ps| - 1])
  }

  datatype Out = Out(w: WriterState, events: seq<Event>)

  /** The placeholder given to a tool whose first fragment carries no name. */
  function NameOrDefault(name: string): string {
    if name == "" then "function" else name
  }

  function Open(w: WriterState): WriterState {
    w.(nextBlock := w.nextBlock + 1, openBlocks := w.openBlocks + [w.nextBlock])
  }

  function Emit(w: WriterState, a: Atom): Out {
    match a
    case Begin =>
      if w.started then Out(w, []) else Out(w.(started := true), [MessageStart(w.id, w.model)])
    case Say(text) =>
      var next := if w.textOpen then w else Open(w).(textOpen := true, textIndex := w.nextBlock);
      Out(next,
          (if w.textOpen then [] else [BlockStart(next.textIndex, TextBlock(""))])
          + [BlockDelta(next.textIndex, TextDelta(text))])
    case Call(t) =>
      var known := t.index in w.toolIdx;
      var next := if known then w else Open(w).(toolIdx := w.toolIdx[t.index := w.nextBlock]);
      var ci := next.toolIdx[t.index];
      Out(next,
          (if known then [] else [BlockStart(ci, ToolUseBlock(t.id, NameOrDefault(t.name)))])
          + (if t.arguments == "" then [] else [BlockDelta(ci, InputJsonDelta(t.arguments))]))
    case End(reason) => Out(w.(stopReason := Some(MapOpenAIToAnthropicStop(reason))), [])
    case Usage(tokens) => Out(w.(usageOut := tokens), [])
  }

  function EmitAll(w: WriterState, atoms: seq<Atom>): Out {
    if atoms == [] then Out(w, [])
    else
      var before := EmitAll(w, atoms[..|atoms| - 1]);
      var last := Emit(before.w, atoms[|atoms| - 1]);
      Out(last.w, before.events + last.events)
  }

  function Stops(blocks: seq<int>): (r: seq<Event>)
    ensures |r| == |blocks|
    ensures forall i :: 0 <= i < |blocks| ==> r[i] == BlockStop(blocks[i])
  {
    seq(|blocks|, i requires 0 <= i < |blocks| => BlockStop(blocks[i]))
  }

  function FinalStop(w: WriterState): StopReason {
    if w.stopReason == None then EndTurn else w.stopReason.value
  }

  function Finish(w: WriterState): Out {
    if w.finished then Out(w, [])
    else
      var begun := Emit(w, Begin);
      Out(begun.w.(finished := true),
          begun.events + Stops(w.openBlocks) + [MessageDelta(Some(FinalStop(w)), w.usageOut), MessageStop])
  }

  /** Everything one request's writer sends for a complete stream: every payload, then the finish. */
  function Transcript(id: string, model: string, ps: seq<Option<Chunk>>): seq<Event> {
    var run := EmitAll(Fresh(id, model), StreamAtoms(ps));
    run.events + Finish(run.w).events
  }

  lemma {:induction false} EmitAllSnoc(w: WriterState, atoms: seq<Atom>, a: Atom)
    ensures EmitAll(w, atoms + [a])
         == Out(Emit(EmitAll(w, atoms).w, a).w, EmitAll(w, atoms).events + Emit(EmitAll(w, atoms).w, a).events)
  {
    assert (atoms + [a])[..|atoms|] == atoms;
  }

  lemma {:induction false} EmitAllExtend(w: WriterState, atoms: seq<Atom>, a: Atom, before: Out, last: Out)
    requires before == EmitAll(w, atoms)
    requires last == Emit(before.w, a)
    ensures EmitAll(w, atoms + [a]) == Out(last.w, before.events + last.events)
  {
    EmitAllSnoc(w, atoms, a);
  }

  /** Emitting two runs of atoms one after the other is emitting their concatenation. */
  lemma {:induction false} EmitAllAppend(w: WriterState, a: seq<Atom>, b: seq<Atom>)
    ensures EmitAll(w, a + b).w == EmitAll(EmitAll(w, a).w, b).w
    ensures EmitAll(w, a + b).events == EmitAll(w, a).events + EmitAll(EmitAll(w, a).w, b).events
  {
    hide Emit;
    if b == [] {
      assert a + b == a;
    } else {
      var init, last := b[..|b| - 1], b[|b| - 1];
      EmitAllAppend(w, a, init);
      EmitAllSnoc(w, a + init, last);
      assert a + b == (a + init) + [last];
    }
  }

  /** One request's stream encoder. */
  class AnthropicSSEWriter {
    const id: string
    const model: string
    var started: bool
    var textOpen: bool
    var textIndex: int
    var nextBlock: int
    var toolIdx: map<int, int>
    var openBlocks: seq<int>
    var stopReason: Option<StopReason>
    var usageOut: int
    var finished: bool

    function State(): WriterState
      reads this
    {
      WriterState(id, model, started, textOpen, textIndex, nextBlock, toolIdx, openBlocks, stopReason, usageOut, finished)
    }

    constructor (id: string, model: string)
      ensures State() == Fresh(id, model)
    {
      this.id, this.model := id, model;
      started, textOpen, textIndex, nextBlock := false, false, 0, 0;
      toolIdx, openBlocks := map[], [];
      stopReason, usageOut, finished := None, 0, false;
    }

    method AllocBlock() returns (i: int)
      modifies this`nextBlock
      ensures i == old(nextBlock) && nextBlock == i + 1
    {
      i := nextBlock;
      nextBlock := nextBlock + 1;
    }

    /** Writes the deltas of one tool-call fragment, opening its block on the first one. */
    method WriteTool(tc: ToolDelta) returns (out: seq<Event>)
      modifies this
      ensures Out(State(), out) == Emit(old(State()), Call(tc))
    {
      out := [];
      var ci;
      if tc.index in toolIdx {
        ci := toolIdx[tc.index];
      } else {
        ci := AllocBlock();
        toolIdx := toolIdx[tc.index := ci];
        openBlocks := openBlocks + [ci];
        var name := tc.name;
        if name == "" {
          name := "function";
        }
        out := out + [BlockStart(ci, ToolUseBlock(tc.id, name))];
      }
      if tc.arguments != "" {
        out := out + [BlockDelta(ci, InputJsonDelta(tc.arguments))];
      }
    }

    /** Writes a choice's text, if it has any, opening the text block on the first piece. */
    method WriteContent(c: Content) returns (out: seq<Event>)
      modifies this
      ensures Out(State(), out) == EmitAll(old(State()), ContentAtoms(c))
    {
      out := [];
      if c.Text? && c.text != "" {
        ghost var before := State();
        if !textOpen {
          textOpen := true;
          textIndex := AllocBlock();
          openBlocks := openBlocks + [textIndex];
          out := out + [BlockStart(textIndex, TextBlock(""))];
        }
        out := out + [BlockDelta(textIndex, TextDelta(c.text))];
        EmitAllExtend(before, [], Say(c.text), Out(before, []), Out(State(), out));
        assert [] + [Say(c.text)] == ContentAtoms(c);
        assert [] + out == out;
      }
    }

    /** Remembers a choice's finish reason, if it has one. */
    method RecordReason(reason: Option<FinishReason>)
      modifies this
      ensures Out(State(), []) == EmitAll(old(State()), ReasonAtoms(reason))
    {
      if reason.Some? && reason.value != Unset {
        ghost var before := State();
        stopReason := Some(MapOpenAIToAnthropicStop(reason.value));
        EmitAllExtend(before, [], End(reason.value), Out(before, []), Out(State(), []));
        assert [] + [End(reason.value)] == ReasonAtoms(reason);
      }
    }

    /** Writes the tool-call fragments of one choice, in order. */
    method WriteTools(tcs: seq<ToolDelta>) returns (out: seq<Event>)
      modifies this
      ensures Out(State(), out) == EmitAll(old(State()), CallAtoms(tcs))
    {
      ghost var w, calls := State(), CallAtoms(tcs);
      out := [];
      for i := 0 to |tcs|
        invariant Out(State(), out) == EmitAll(w, calls[..i])
      {
        ghost var before := State();
        var more := WriteTool(tcs[i]);
        assert Out(State(), out + more) == EmitAll(w, calls[..i + 1]) by {
          EmitAllExtend(w, calls[..i], Call(tcs[i]), Out(before, out), Out(State(), more));
          assert calls[..i + 1] == calls[..i] + [Call(tcs[i])];
        }
        out := out + more;
      }
      assert calls[..|tcs|] == calls;
    }

    /** Writes one choice of a chunk: its text, its tool-call fragments, its finish reason. */
    method WriteChoice(ch: Choice) returns (out: seq<Event>)
      modifies this
      ensures Out(State(), out) == EmitAll(old(State()), ChoiceAtoms(ch))
    {
      ghost var w := State();
      out := WriteContent(ch.content);
      var calls := WriteTools(ch.toolCalls);
      out := out + calls;
      EmitAllAppend(w, ContentAtoms(ch.content), CallAtoms(ch.toolCalls));
      RecordReason(ch.finishReason);
      EmitAllAppend(w, ContentAtoms(ch.content) + CallAtoms(ch.toolCalls), ReasonAtoms(ch.finishReason));
    }

    /** Writes every choice of a chunk, in order. */
    method WriteChoices(chs: seq<Choice>) returns (out: seq<Event>)
      modifies this
      ensures Out(State(), out) == EmitAll(old(State()), ChoicesAtoms(chs))
    {
      ghost var w := State();
      out := [];
      for i := 0 to |chs|
        invariant Out(State(), out) == EmitAll(w, ChoicesAtoms(chs[..i]))
      {
        ghost var before := State();
        var more := WriteChoice(chs[i]);
        assert Out(State(), out + more) == EmitAll(w, ChoicesAtoms(chs[..i + 1])) by {
          assert chs[..i + 1][..i] == chs[..i];
          EmitAllAppend(w, ChoicesAtoms(chs[..i]), ChoiceAtoms(chs[i]));
        }
        out := out + more;
      }
      assert chs[..|chs|] == chs;
    }

    /** Translates one payload; an undecodable one is an error and changes nothing. */
    method Process(payload: Option<Chunk>) returns (out: seq<Event>, err: bool)
      modifies this
      ensures err == payload.None?
      ensures Out(State(), out) == EmitAll(old(State()), PayloadAtoms(payload))
    {
      out, err := [], false;
      if payload.None? {
        err := true;
        return;
      }
      var u := payload.value;
      ghost var w0 := State();
      if !started {
        started := true;
        out := out + [MessageStart(id, model)];
      }
      ghost var w1, head := State(), out;
      EmitAllExtend(w0, [], Begin, Out(w0, []), Out(w1, head));
      assert [] + [Begin] == [Begin];
      assert [] + head == head;
      assert EmitAll(w0, [Begin]) == Out(w1, head);
      if u.usage.Some? && |u.choices| == 0 {
        usageOut := u.usage.value;
        EmitAllExtend(w0, [Begin], Usage(u.usage.value), Out(w1, head), Out(State(), []));
        assert head + [] == head;
        return;
      }
      var more := WriteChoices(u.choices);
      EmitAllAppend(w0, [Begin], ChoicesAtoms(u.choices));
      out := out + more;
    }

    /** Closes the stream: message_start if nothing was ever sent, the block stops, message_delta, message_stop. */
    method FinishStream() returns (out: seq<Event>)
      modifies this
      ensures Out(State(), out) == Finish(old(State()))
    {
      out := [];
      if finished {
        return;
      }
      finished := true;
      if !started {
        started := true;
        out := out + [MessageStart(id, model)];
      }
      ghost var head := out;
      for i := 0 to |openBlocks|
        invariant out == head + Stops(openBlocks)[..i]
      {
        out := out + [BlockStop(openBlocks[i])];
      }
      assert Stops(openBlocks)[..|openBlocks|] == Stops(openBlocks);
      var stop := EndTurn;
      if stopReason != None {
        stop := stopReason.value;
      }
      out := out + [MessageDelta(Some(stop), usageOut)];
      out := out + [MessageStop];
    }
  }
}
