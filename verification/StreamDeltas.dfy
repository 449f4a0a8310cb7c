/** What the writer sends piece by piece: one delta for each non-empty piece, and how blocks start. */
module StreamDeltas {
  import opened Common
  import opened StreamTypes
  import opened StreamWriter
  import opened StreamRoundTrip

  function Deltas(events: seq<Event>): seq<Delta> {
    if events == [] then []
    else
      var e := events[|events| - 1];
      Deltas(events[..|events| - 1]) + (if e.BlockDelta? then [e.delta] else [])
  }

  function Inputs(calls: seq<ToolDelta>): seq<Delta> {
    if calls == [] then []
    else
      var t := calls[|calls| - 1];
      Inputs(calls[..|calls| - 1]) + (if t.arguments == "" then [] else [InputJsonDelta(t.arguments)])
  }

  /** The pieces of a choice: its text unless empty, then the arguments of its tool fragments unless empty. */
  function ChoicePieces(ch: Choice): seq<Delta> {
    (if ch.content.Text? && ch.content.text != "" then [TextDelta(ch.content.text)] else []) + Inputs(ch.toolCalls)
  }

  function ChoicesPieces(chs: seq<Choice>): seq<Delta> {
    if chs == [] then [] else ChoicesPieces(chs[..|chs| - 1]) + ChoicePieces(chs[|chs| - 1])
  }

  function Pieces(ps: seq<Option<Chunk>>): seq<Delta> {
    if ps == [] then []
    else
      var p := ps[|ps| - 1];
      Pieces(ps[..|ps| - 1]) + (if p.Some? then ChoicesPieces(p.value.choices) else [])
  }

  lemma {:induction false} DeltasAppend(a: seq<Event>, b: seq<Event>)
    ensures Deltas(a + b) == Deltas(a) + Deltas(b)
  {
    if b == [] {
      assert a + b == a;
    } else {
      DeltasAppend(a, b[..|b| - 1]);
      assert (a + b)[..|a + b| - 1] == a + b[..|b| - 1];
    }
  }

  function AtomPieces(a: Atom): seq<Delta> {
    match a
    case Say(text) => [TextDelta(text)]
    case Call(t) => if t.arguments == "" then [] else [InputJsonDelta(t.arguments)]
    case _ => []
  }

  function AtomsPieces(atoms: seq<Atom>): seq<Delta> {
    if atoms == [] then [] else AtomsPieces(atoms[..|atoms| - 1]) + AtomPieces(atoms[|atoms| - 1])
  }

  lemma {:induction false} AtomsPiecesAppend(a: seq<Atom>, b: seq<Atom>)
    ensures AtomsPieces(a + b) == AtomsPieces(a) + AtomsPieces(b)
  {
    hide AtomPieces;
    if b == [] {
      assert a + b == a;
    } else {
      AtomsPiecesAppend(a, b[..|b| - 1]);
      assert (a + b)[..|a + b| - 1] == a + b[..|b| - 1];
    }
  }

  lemma OneDelta(e: Event)
    ensures Deltas([e]) == (if e.BlockDelta? then [e.delta] else [])
  {
    assert [e][..0] == [];
  }

  lemma {:induction false} EmitSends(w: WriterState, a: Atom)
    ensures Deltas(Emit(w, a).events) == AtomPieces(a)
  {
    hide Deltas, Open;
    var events := Emit(w, a).events;
    assert Deltas([]) == [] by {
      NoDeltas([]);
    }
    if |events| >= 1 {
      OneDelta(events[0]);
    }
    if |events| == 1 {
      assert events == [events[0]];
    } else if |events| == 2 {
      OneDelta(events[1]);
      assert events == [events[0]] + [events[1]];
      DeltasAppend([events[0]], [events[1]]);
    }
  }

  lemma {:induction false} EmitAllSends(w: WriterState, atoms: seq<Atom>)
    ensures Deltas(EmitAll(w, atoms).events) == AtomsPieces(atoms)
  {
    hide Emit, AtomPieces;
    if atoms == [] {
      NoDeltas([]);
    } else {
      var before := EmitAll(w, atoms[..|atoms| - 1]);
      var last := Emit(before.w, atoms[|atoms| - 1]);
      EmitAllSends(w, atoms[..|atoms| - 1]);
      EmitSends(before.w, atoms[|atoms| - 1]);
      DeltasAppend(before.events, last.events);
    }
  }

  lemma {:induction false} CallPieces(calls: seq<ToolDelta>)
    ensures AtomsPieces(CallAtoms(calls)) == Inputs(calls)
  {
    if calls != [] {
      CallPieces(calls[..|calls| - 1]);
      assert CallAtoms(calls)[..|calls| - 1] == CallAtoms(calls[..|calls| - 1]);
    }
  }

  lemma OneAtom(a: Atom)
    ensures AtomsPieces([a]) == AtomPieces(a)
  {
    assert [a][..0] == [];
  }

  lemma {:induction false} ChoiceSays(ch: Choice)
    ensures AtomsPieces(ChoiceAtoms(ch)) == ChoicePieces(ch)
  {
    hide AtomsPieces, Inputs;
    var content, reason := ContentAtoms(ch.content), ReasonAtoms(ch.finishReason);
    assert AtomsPieces([]) == [] by {
      NoAtoms();
    }
    if content != [] {
      OneAtom(content[0]);
      assert content == [content[0]];
    }
    if reason != [] {
      OneAtom(reason[0]);
      assert reason == [reason[0]];
    }
    CallPieces(ch.toolCalls);
    AtomsPiecesAppend(content, CallAtoms(ch.toolCalls));
    AtomsPiecesAppend(content + CallAtoms(ch.toolCalls), reason);
  }

  lemma NoAtoms()
    ensures AtomsPieces([]) == []
  {
  }

  lemma {:induction false} ChoicesSay(chs: seq<Choice>)
    ensures AtomsPieces(ChoicesAtoms(chs)) == ChoicesPieces(chs)
  {
    hide AtomsPieces, ChoiceAtoms, ChoicePieces;
    if chs == [] {
      NoAtoms();
    } else {
      ChoicesSay(chs[..|chs| - 1]);
      ChoiceSays(chs[|chs| - 1]);
      AtomsPiecesAppend(ChoicesAtoms(chs[..|chs| - 1]), ChoiceAtoms(chs[|chs| - 1]));
    }
  }

  lemma {:induction false} StreamSaysPieces(ps: seq<Option<Chunk>>)
    ensures AtomsPieces(StreamAtoms(ps)) == Pieces(ps)
  {
    hide AtomsPieces, ChoicesAtoms, ChoicesPieces;
    if ps == [] {
      NoAtoms();
    } else {
      var init, p := ps[..|ps| - 1], ps[|ps| - 1];
      StreamSaysPieces(init);
      AtomsPiecesAppend(StreamAtoms(init), PayloadAtoms(p));
      if p.None? {
        NoAtoms();
      } else {
        ChunkSaysPieces(p.value);
      }
    }
  }

  lemma {:induction false} ChunkSaysPieces(c: Chunk)
    ensures AtomsPieces(ChunkAtoms(c)) == ChoicesPieces(c.choices)
  {
    hide AtomsPieces, ChoicesAtoms;
    OneAtom(Begin);
    if c.usage.Some? && c.choices == [] {
      OneAtom(Usage(c.usage.value));
      AtomsPiecesAppend([Begin], [Usage(c.usage.value)]);
    } else {
      ChoicesSay(c.choices);
      AtomsPiecesAppend([Begin], ChoicesAtoms(c.choices));
    }
  }

  lemma {:induction false} NoDeltas(events: seq<Event>)
    requires forall e :: e in events ==> !e.BlockDelta?
    ensures Deltas(events) == []
  {
    if events != [] {
      NoDeltas(events[..|events| - 1]);
    }
  }

  /** A complete stream sends exactly the non-empty pieces of the decodable chunks, each once and in order. */
  lemma {:induction false} DeltasAreSent(id: string, model: string, ps: seq<Option<Chunk>>)
    ensures Deltas(Transcript(id, model, ps)) == Pieces(ps)
  {
    hide Deltas, Pieces, EmitAll, StreamAtoms;
    var run := EmitAll(Fresh(id, model), StreamAtoms(ps));
    EmitAllSends(Fresh(id, model), StreamAtoms(ps));
    StreamSaysPieces(ps);
    NoDeltas(Finish(run.w).events);
    DeltasAppend(run.events, Finish(run.w).events);
  }

  // ----- Block starts -----

  /** A text block starts empty, a tool block with a name. */
  predicate StartsWell(e: Event) {
    e.BlockStart? ==> e.block == TextBlock("") || (e.block.ToolUseBlock? && e.block.name != "")
  }

  lemma {:induction false} EmitStartsWell(w: WriterState, atoms: seq<Atom>)
    ensures forall e :: e in EmitAll(w, atoms).events ==> StartsWell(e)
  {
    hide StartsWell;
    if atoms != [] {
      EmitStartsWell(w, atoms[..|atoms| - 1]);
      OneStartsWell(EmitAll(w, atoms[..|atoms| - 1]).w, atoms[|atoms| - 1]);
    }
  }

  lemma OneStartsWell(w: WriterState, a: Atom)
    ensures forall e :: e in Emit(w, a).events ==> StartsWell(e)
  {
  }

  lemma {:induction false} BlocksStartWell(id: string, model: string, ps: seq<Option<Chunk>>)
    ensures forall e :: e in Transcript(id, model, ps) ==> StartsWell(e)
  {
    hide EmitAll, StreamAtoms;
    EmitStartsWell(Fresh(id, model), StreamAtoms(ps));
  }
}
