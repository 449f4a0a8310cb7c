/** What every conversation keeps on its trip through the Anthropic format, normal form or not. */
module Conservation {
  import opened Common
  import opened Conversation
  import opened NormalForm

  /** Everything one side says, in order, as content blocks. */
  function SideBlocks(ms: seq<Message>, side: Role): seq<Block> {
    if ms == [] then []
    else SideBlocks(ms[..|ms| - 1], side) + (if SideOf(ms[|ms| - 1]) == side then BlocksOf(ms[|ms| - 1]) else [])
  }

  function TurnBlocks(ts: seq<Turn>, side: Role): seq<Block> {
    if ts == [] then []
    else
      var t := ts[|ts| - 1];
      TurnBlocks(ts[..|ts| - 1], side) + (if t.role == side && t.content.Some? then t.content.value else [])
  }

  /** The text of one side, its pieces on separate lines. */
  function SpokenText(blocks: seq<Block>): string {
    JoinLines(TextParts(blocks))
  }

  /** What is said apart from text: the tool results and the tool calls, in order. */
  predicate SameTools(a: seq<Block>, b: seq<Block>) {
    ToolMessages(a) == ToolMessages(b) && ToolCallsOf(a) == ToolCallsOf(b)
  }

  predicate SaysTheSame(a: seq<Block>, b: seq<Block>) {
    SameTools(a, b) && SpokenText(a) == SpokenText(b)
  }

  lemma {:induction false} SideBlocksAppend(a: seq<Message>, b: seq<Message>, side: Role)
    ensures SideBlocks(a + b, side) == SideBlocks(a, side) + SideBlocks(b, side)
  {
    hide BlocksOf, SideOf;
    if b == [] {
      assert a + b == a;
    } else {
      SideBlocksAppend(a, b[..|b| - 1], side);
      assert (a + b)[..|a + b| - 1] == a + b[..|b| - 1];
    }
  }

  lemma {:induction false} OneMessage(m: Message, side: Role)
    ensures SideBlocks([m], side) == (if SideOf(m) == side then BlocksOf(m) else [])
  {
    assert [m][..0] == [];
  }

  lemma {:induction false} PushKeepsBlocks(ts: seq<Turn>, role: Role, blocks: seq<Block>, side: Role)
    ensures TurnBlocks(Push(ts, role, blocks), side) == TurnBlocks(ts, side) + (if role == side then blocks else [])
  {
    var ts' := Push(ts, role, blocks);
    if blocks != [] {
      if |ts'| == |ts| {
        assert ts'[..|ts| - 1] == ts[..|ts| - 1];
      } else {
        assert ts'[..|ts|] == ts;
      }
    }
  }

  /** Encoding moves blocks into turns and loses none. */
  lemma {:induction false} EncodingKeepsBlocks(ms: seq<Message>, side: Role)
    ensures TurnBlocks(TurnsOf(ms), side) == SideBlocks(ms, side)
  {
    hide Push, BlocksOf, SideOf;
    if ms != [] {
      var m := ms[|ms| - 1];
      EncodingKeepsBlocks(ms[..|ms| - 1], side);
      PushKeepsBlocks(TurnsOf(ms[..|ms| - 1]), SideOf(m), BlocksOf(m), side);
    }
  }

  function Glue(x: string, y: string): string {
    if x == "" then y else if y == "" then x else x + "\n" + y
  }

  lemma {:induction false} JoinAppend(a: seq<string>, b: seq<string>)
    requires NoBlank(a) && NoBlank(b)
    ensures JoinLines(a + b) == Glue(JoinLines(a), JoinLines(b))
  {
    if b == [] {
      assert a + b == a;
    } else if a == [] {
      assert a + b == b;
    } else {
      var init, last := b[..|b| - 1], b[|b| - 1];
      assert (a + b)[..|a + b| - 1] == a + init;
      JoinAppend(a, init);
      JoinedIsBlank(a);
      JoinedIsBlank(init);
      assert JoinLines(a + b) == JoinLines(a + init) + "\n" + last;
      if init != [] {
        assert JoinLines(a) + "\n" + JoinLines(init) + "\n" + last
            == JoinLines(a) + "\n" + (JoinLines(init) + "\n" + last);
      }
    }
  }

  lemma {:induction false} SpokenAppend(a: seq<Block>, b: seq<Block>)
    ensures SpokenText(a + b) == Glue(SpokenText(a), SpokenText(b))
  {
    TextPartsAppend(a, b);
    TextIsSaid(a);
    TextIsSaid(b);
    JoinAppend(TextParts(a), TextParts(b));
  }

  lemma {:induction false} SameAppend(a: seq<Block>, a': seq<Block>, b: seq<Block>, b': seq<Block>)
    requires SaysTheSame(a, a') && SaysTheSame(b, b')
    ensures SaysTheSame(a + b, a' + b')
  {
    hide SpokenText, ToolMessages, ToolCallsOf;
    SpokenAppend(a, b);
    SpokenAppend(a', b');
    ToolMessagesAppend(a, b);
    ToolMessagesAppend(a', b');
    ToolCallsAppend(a, b);
    ToolCallsAppend(a', b');
  }

  /** One more message of the user's side adds its one block. */
  lemma {:induction false} AddUserBlock(ms: seq<Message>, m: Message, b: Block)
    requires SideOf(m) == User && BlocksOf(m) == [b]
    ensures var before, after := SideBlocks(ms, User), SideBlocks(ms + [m], User);
            && after == before + [b]
            && ToolMessages(after) == ToolMessages(before) + (if b.ToolResult?
                then [ToolMessage(b.toolUseId, b.text)] else [])
            && ToolCallsOf(after) == ToolCallsOf(before) + (if b.ToolUse?
                then [ToolCall(b.id, b.name, Wellformed(b.input))] else [])
            && TextParts(after) == TextParts(before) + (if b.TextBlock? && b.text != "" then [b.text] else [])
    ensures SideBlocks(ms + [m], Assistant) == SideBlocks(ms, Assistant)
  {
    hide BlocksOf, SideOf, ToolMessages, ToolCallsOf, TextParts;
    var before := SideBlocks(ms, User);
    SideBlocksAppend(ms, [m], User);
    SideBlocksAppend(ms, [m], Assistant);
    OneMessage(m, User);
    OneMessage(m, Assistant);
    OneBlock(b);
    ToolMessagesAppend(before, [b]);
    ToolCallsAppend(before, [b]);
    TextPartsAppend(before, [b]);
  }

  ghost predicate JustResults(ms: seq<Message>) {
    && ToolMessages(SideBlocks(ms, User)) == ms
    && ToolCallsOf(SideBlocks(ms, User)) == [] && TextParts(SideBlocks(ms, User)) == []
    && SideBlocks(ms, Assistant) == []
  }

  lemma {:induction false} AddResult(ms: seq<Message>, b: Block)
    requires JustResults(ms) && b.ToolResult?
    ensures JustResults(ms + [ToolMessage(b.toolUseId, b.text)])
  {
    hide SideBlocks, ToolMessages, ToolCallsOf, TextParts;
    AddUserBlock(ms, ToolMessage(b.toolUseId, b.text), b);
  }

  /** The messages read from tool results say those results again. */
  lemma {:induction false} ResultsSayTheSame(blocks: seq<Block>)
    ensures JustResults(ToolMessages(blocks))
  {
    if blocks != [] {
      hide JustResults;
      var init, b := blocks[..|blocks| - 1], blocks[|blocks| - 1];
      ResultsSayTheSame(init);
      if b.ToolResult? {
        AddResult(ToolMessages(init), b);
      } else {
        assert ToolMessages(blocks) == ToolMessages(init);
      }
    }
  }

  lemma {:induction false} UserTurnSaysTheSame(blocks: seq<Block>)
    requires forall b :: b in blocks ==> b.TextBlock? || b.ToolResult?
    ensures SaysTheSame(SideBlocks(UserMessages(blocks), User), blocks)
    ensures SideBlocks(UserMessages(blocks), Assistant) == []
  {
    hide SideBlocks, ToolMessages, ToolCallsOf, TextParts;
    var results, text := ToolMessages(blocks), SpokenText(blocks);
    ResultsSayTheSame(blocks);
    ToolsAreKept(blocks);
    if text == "" {
      assert UserMessages(blocks) == results;
    } else {
      assert UserMessages(blocks) == results + [UserMessage(text)];
      AddUserBlock(results, UserMessage(text), TextBlock(text));
      assert [] + [text] == [text];
    }
  }

  /** What is read from an assistant turn has the shape the parser gives. */
  lemma {:induction false} AssistantIsCanonical(blocks: seq<Block>)
    requires blocks != [] && forall b :: b in blocks ==> Loud(b)
    ensures Canonical(AssistantMessage(blocks)) && ToolMessages(blocks) == []
  {
    hide TextParts, ToolCallsOf, ToolMessages, KnownCall;
    CallsKnown(blocks);
    ToolsAreKept(blocks);
    TextIsSaid(blocks);
    JoinedIsBlank(TextParts(blocks));
    assert blocks[0] in blocks;
  }

  /** Blocks read as the same assistant message say the same. */
  lemma {:induction false} SameMessageSaysTheSame(a: seq<Block>, b: seq<Block>)
    requires AssistantMessage(a) == AssistantMessage(b) && ToolMessages(a) == [] && ToolMessages(b) == []
    ensures SaysTheSame(a, b)
  {
    hide TextParts, ToolCallsOf, ToolMessages, JoinLines;
  }

  lemma {:induction false} AssistantTurnSaysTheSame(blocks: seq<Block>)
    requires blocks != [] && forall b :: b in blocks ==> Loud(b)
    ensures SaysTheSame(SideBlocks([AssistantMessage(blocks)], Assistant), blocks)
    ensures SideBlocks([AssistantMessage(blocks)], User) == []
  {
    hide SideBlocks, AssistantBlocks, Canonical, TextParts, ToolCallsOf, ToolMessages, CallBlocks;
    hide SaysTheSame, JoinLines, Loud;
    var m := AssistantMessage(blocks);
    OneMessage(m, Assistant);
    OneMessage(m, User);
    AssistantIsCanonical(blocks);
    AssistantReadBack(m);
    AssistantBlocksLoud(m);
    AssistantIsCanonical(AssistantBlocks(m));
    SameMessageSaysTheSame(AssistantBlocks(m), blocks);
  }

  lemma {:induction false} AssistantBlocksLoud(m: Message)
    ensures forall b :: b in AssistantBlocks(m) ==> Loud(b)
  {
    CallBlocksLoud(m.toolCalls);
  }

  lemma {:induction false} TurnSaysTheSame(t: Turn, side: Role)
    requires GoodTurn(t) && (side == User || side == Assistant)
    ensures SaysTheSame(SideBlocks(ParseTurn(t), side), if t.role == side then t.content.value else [])
  {
    hide SaysTheSame, UserMessages, AssistantMessage;
    Nothing();
    if t.role == User {
      UserTurnSaysTheSame(t.content.value);
    } else {
      AssistantTurnSaysTheSame(t.content.value);
    }
  }

  lemma {:induction false} Nothing()
    ensures SaysTheSame([], [])
  {
  }

  lemma {:induction false} ParsingSaysTheSame(ts: seq<Turn>, side: Role)
    requires Alternating(ts) && (side == User || side == Assistant)
    ensures SaysTheSame(SideBlocks(ParseTurns(ts), side), TurnBlocks(ts, side))
  {
    if ts == [] {
      Nothing();
    } else {
      hide SaysTheSame, SideBlocks, ParseTurn, GoodTurn;
      var init, t := ts[..|ts| - 1], ts[|ts| - 1];
      assert Alternating(init) by {
        forall i ensures SideChanges(init, i) { assert SideChanges(ts, i); }
      }
      ParsingSaysTheSame(init, side);
      TurnSaysTheSame(t, side);
      SideBlocksAppend(ParseTurns(init), ParseTurn(t), side);
      TurnHasContent(t);
      SameAppend(SideBlocks(ParseTurns(init), side), TurnBlocks(init, side),
                 SideBlocks(ParseTurn(t), side), if t.role == side then t.content.value else []);
    }
  }

  lemma {:induction false} TurnHasContent(t: Turn)
    requires GoodTurn(t)
    ensures t.content.Some?
  {
  }

  /** System text, gathered from wherever it stands. */
  function SystemText(ms: seq<Message>): string {
    JoinLines(SystemParts(ms))
  }

  lemma {:induction false} NoSystem(ms: seq<Message>)
    requires forall i :: 0 <= i < |ms| ==> !IsSystem(ms[i])
    ensures SystemParts(ms) == []
  {
    if ms != [] { NoSystem(ms[..|ms| - 1]); }
  }

  lemma {:induction false} ParsedHasNoSystem(ts: seq<Turn>)
    ensures forall i :: 0 <= i < |ParseTurns(ts)| ==> !IsSystem(ParseTurns(ts)[i])
  {
    if ts != [] {
      var t := ts[|ts| - 1];
      ParsedHasNoSystem(ts[..|ts| - 1]);
      if t.content.Some? { ToolMessagesCanonical(t.content.value); }
    }
  }

  lemma {:induction false} SystemFirst(s: string, ms: seq<Message>, side: Role)
    requires s != "" && forall i :: 0 <= i < |ms| ==> !IsSystem(ms[i])
    ensures SystemParts([SystemMessage(s)] + ms) == [s]
    ensures SideBlocks([SystemMessage(s)] + ms, side) == SideBlocks(ms, side)
  {
    if ms == [] {
      assert [SystemMessage(s)] + ms == [SystemMessage(s)];
      assert [SystemMessage(s)][..0] == [];
    } else {
      var all := [SystemMessage(s)] + ms;
      SystemFirst(s, ms[..|ms| - 1], side);
      assert all[..|all| - 1] == [SystemMessage(s)] + ms[..|ms| - 1];
    }
  }

  /**
    * Whatever the conversation, the trip keeps the system text, and for each side the tool results,
    * the tool calls and the text, in order (text pieces on separate lines).
    */
  lemma {:induction false} RoundKeepsSpeech(ms: seq<Message>, side: Role)
    requires side == User || side == Assistant
    ensures SystemText(Round(ms)) == SystemText(ms)
    ensures SaysTheSame(SideBlocks(Round(ms), side), SideBlocks(ms, side))
  {
    hide SaysTheSame, SideBlocks, ParseTurns, TurnsOf, SystemParts;
    var ts, s := TurnsOf(ms), SystemText(ms);
    EncodedAlternates(ms);
    ParsingSaysTheSame(ts, side);
    EncodingKeepsBlocks(ms, side);
    ParsedHasNoSystem(ts);
    if s != "" {
      SystemFirst(s, ParseTurns(ts), side);
    } else {
      NoSystem(ParseTurns(ts));
      assert Round(ms) == ParseTurns(ts);
    }
  }
}
