/** What becomes of the words and the arguments of a message, without reference to how they are flattened. */
module Wording {
  import opened Common
  import opened Conversation
  import opened NormalForm
  import opened Conservation

  // ----- Content in parts -----

  function Length(texts: seq<string>): nat {
    if texts == [] then 0 else Length(texts[..|texts| - 1]) + |texts[|texts| - 1]|
  }

  /** The i-th part stands in `whole` right after those before it. */
  predicate StandsIn(whole: string, texts: seq<string>, i: nat)
    requires i < |texts|
  {
    var from := Length(texts[..i]);
    from + |texts[i]| <= |whole| && whole[from..from + |texts[i]|] == texts[i]
  }

  /** These are the parts one after the other, and nothing else. */
  predicate IsWhole(whole: string, texts: seq<string>) {
    |whole| == Length(texts) && forall i :: 0 <= i < |texts| ==> StandsIn(whole, texts, i)
  }

  lemma {:induction false} OneWhole(whole: string, texts: seq<string>)
    requires IsWhole(whole, texts)
    ensures whole == Concat(texts)
    decreases |texts|
  {
    if texts != [] {
      var n := |texts| - 1;
      var front := whole[..Length(texts[..n])];
      assert StandsIn(whole, texts, n);
      assert whole == front + texts[n];
      forall i | 0 <= i < n ensures StandsIn(front, texts[..n], i) {
        assert StandsIn(whole, texts, i) && texts[..n][..i] == texts[..i];
        LengthGrows(texts, i + 1, n);
        assert texts[..i + 1][..i] == texts[..i];
      }
      OneWhole(front, texts[..n]);
    }
  }

  lemma {:induction false} LengthGrows(texts: seq<string>, i: nat, n: nat)
    requires i <= n <= |texts|
    ensures Length(texts[..i]) <= Length(texts[..n])
  {
    if i < n {
      LengthGrows(texts, i, n - 1);
      assert texts[..n][..n - 1] == texts[..n - 1];
    }
  }

  lemma {:induction false} SameEncoded(before: seq<Message>, m: Message, m': Message, after: seq<Message>)
    requires m'.role == m.role && BlocksOf(m') == BlocksOf(m)
    requires FlattenText(m'.content) == FlattenText(m.content)
    ensures Encode(before + [m'] + after) == Encode(before + [m] + after)
  {
    hide BlocksOf, FlattenText, JoinLines, Push;
    var a, b := before + [m] + after, before + [m'] + after;
    if after == [] {
      assert a == before + [m] && b == before + [m'];
      assert a[..|before|] == before && b[..|before|] == before;
    } else {
      var n := |after| - 1;
      assert a[..|a| - 1] == before + [m] + after[..n] && b[..|b| - 1] == before + [m'] + after[..n];
      SameParts(before, m, m', after);
      SameTurns(before, m, m', after);
    }
  }

  lemma {:induction false} SameParts(before: seq<Message>, m: Message, m': Message, after: seq<Message>)
    requires m'.role == m.role && FlattenText(m'.content) == FlattenText(m.content)
    ensures SystemParts(before + [m'] + after) == SystemParts(before + [m] + after)
  {
    hide FlattenText;
    var a, b := before + [m] + after, before + [m'] + after;
    if after == [] {
      assert a[..|a| - 1] == before && b[..|b| - 1] == before;
    } else {
      var n := |after| - 1;
      assert a[..|a| - 1] == before + [m] + after[..n] && b[..|b| - 1] == before + [m'] + after[..n];
      SameParts(before, m, m', after[..n]);
    }
  }

  lemma {:induction false} SameTurns(before: seq<Message>, m: Message, m': Message, after: seq<Message>)
    requires m'.role == m.role && BlocksOf(m') == BlocksOf(m)
    ensures TurnsOf(before + [m'] + after) == TurnsOf(before + [m] + after)
  {
    hide BlocksOf, Push;
    var a, b := before + [m] + after, before + [m'] + after;
    if after == [] {
      assert a[..|a| - 1] == before && b[..|b| - 1] == before;
    } else {
      var n := |after| - 1;
      assert a[..|a| - 1] == before + [m] + after[..n] && b[..|b| - 1] == before + [m'] + after[..n];
      SameTurns(before, m, m', after[..n]);
    }
  }

  /**
    * In every conversation a message of any role whose content comes in parts is sent as the one with the single
    * string in which those parts stand one after the other.
    */
  lemma PartsAreJoined(
    before: seq<Message>, m: Message, after: seq<Message>, texts: seq<string>, whole: string)
    requires m.content == Parts(texts) && IsWhole(whole, texts)
    ensures Encode(before + [m] + after) == Encode(before + [m.(content := Str(whole))] + after)
  {
    hide Encode, CallBlocks;
    OneWhole(whole, texts);
    SameEncoded(before, m, m.(content := Str(whole)), after);
  }

  /** Content that is some other JSON value is sent as its text, absent content as an empty string. */
  lemma OtherContentIsItsText(before: seq<Message>, m: Message, after: seq<Message>)
    requires m.content.OtherJson? || m.content.Absent?
    ensures var text := if m.content.OtherJson? then m.content.json else "";
            Encode(before + [m] + after) == Encode(before + [m.(content := Str(text))] + after)
  {
    hide Encode, CallBlocks;
    SameEncoded(before, m, m.(content := Str(if m.content.OtherJson? then m.content.json else "")), after);
  }

  lemma {:induction false} SameCalls(calls: seq<ToolCall>, i: nat, tc: ToolCall)
    requires i < |calls| && tc.id == calls[i].id && tc.name == calls[i].name
    requires InputOf(tc.arguments) == InputOf(calls[i].arguments)
    ensures CallBlocks(calls[i := tc]) == CallBlocks(calls)
  {
    hide InputOf;
    var n := |calls| - 1;
    if i < n {
      SameCalls(calls[..n], i, tc);
      assert calls[i := tc][..n] == calls[..n][i := tc];
    } else {
      assert calls[i := tc][..n] == calls[..n];
    }
  }

  /** Arguments that are blank or not JSON are sent as the object without members. */
  lemma NoArgumentsAreEmptyObject(before: seq<Message>, m: Message, after: seq<Message>, i: nat)
    requires i < |m.toolCalls| && !m.toolCalls[i].arguments.Wellformed?
    ensures var tc := m.toolCalls[i].(arguments := Wellformed(Json("{}")));
            Encode(before + [m] + after) == Encode(before + [m.(toolCalls := m.toolCalls[i := tc])] + after)
  {
    hide Encode, CallBlocks, FlattenText;
    var tc := m.toolCalls[i].(arguments := Wellformed(Json("{}")));
    SameCalls(m.toolCalls, i, tc);
    SameEncoded(before, m, m.(toolCalls := m.toolCalls[i := tc]), after);
  }

  // ----- Texts put together -----

  lemma {:induction false} PartsAreLoud(ms: seq<Message>)
    ensures NoBlank(SystemParts(ms))
  {
    if ms != [] {
      PartsAreLoud(ms[..|ms| - 1]);
    }
  }

  /** A system or developer message adds its text to the system text on a line of its own, and no turn. */
  lemma SystemTextIsAdded(ms: seq<Message>, role: Role, text: string, m: Message)
    requires (role == System || role == Developer) && m.role == role && m.content == Str(text)
    ensures Encode(ms + [m]) == Encoded(Glue(Encode(ms).system, text), Encode(ms).turns)
  {
    hide JoinLines;
    assert (ms + [m])[..|ms|] == ms;
    PartsAreLoud(ms);
    PartsAreLoud(ms + [m]);
    var more := if text == "" then [] else [text];
    assert SystemParts(ms + [m]) == SystemParts(ms) + more;
    JoinAppend(SystemParts(ms), more);
    JoinedFew(text);
  }

  lemma JoinedFew(text: string)
    ensures JoinLines([]) == "" && JoinLines([text]) == text
  {
  }

  lemma {:induction false} TextsAreLoud(blocks: seq<Block>)
    ensures NoBlank(TextParts(blocks))
  {
    if blocks != [] {
      TextsAreLoud(blocks[..|blocks| - 1]);
    }
  }

  lemma {:induction false} TextOfMore(blocks: seq<Block>, text: string)
    ensures JoinLines(TextParts(blocks + [TextBlock(text)])) == Glue(JoinLines(TextParts(blocks)), text)
  {
    hide JoinLines;
    var more := if text == "" then [] else [text];
    assert (blocks + [TextBlock(text)])[..|blocks|] == blocks;
    TextsAreLoud(blocks);
    TextsAreLoud(blocks + [TextBlock(text)]);
    assert TextParts(blocks + [TextBlock(text)]) == TextParts(blocks) + more;
    JoinAppend(TextParts(blocks), more);
    JoinedFew(text);
  }

  function SaidBy(m: Message): string {
    if m.content.Str? then m.content.text else ""
  }

  /** One more text block in an assistant turn is one more line of the message read from it. */
  lemma AssistantTextIsAdded(blocks: seq<Block>, text: string)
    ensures var was := ParseTurn(Turn(Assistant, Some(blocks)));
            var now := ParseTurn(Turn(Assistant, Some(blocks + [TextBlock(text)])));
            && |was| == |now| == 1
            && SaidBy(now[0]) == Glue(SaidBy(was[0]), text)
            && now[0] == was[0].(content := if SaidBy(now[0]) == "" then Absent else Str(SaidBy(now[0])))
  {
    hide JoinLines, TextParts;
    TextOfMore(blocks, text);
    assert (blocks + [TextBlock(text)])[..|blocks|] == blocks;
  }

  /** What a user turn says itself: its tool messages, and then at most one message with its text. */
  predicate ReadAs(ms: seq<Message>, results: seq<Message>, text: string) {
    ms == results + (if text == "" then [] else [Message(User, Str(text), "", [])])
  }

  /** Likewise in a user turn, where the text comes last, after the tool results. */
  lemma UserTextIsAdded(blocks: seq<Block>, text: string) returns (results: seq<Message>, said: string)
    ensures forall m :: m in results ==> m.role == Tool
    ensures ReadAs(ParseTurn(Turn(User, Some(blocks))), results, said)
    ensures ReadAs(ParseTurn(Turn(User, Some(blocks + [TextBlock(text)]))), results, Glue(said, text))
  {
    hide JoinLines, TextParts;
    TextOfMore(blocks, text);
    assert (blocks + [TextBlock(text)])[..|blocks|] == blocks;
    results, said := ToolMessages(blocks), JoinLines(TextParts(blocks));
    ResultsAreTools(blocks);
  }

  lemma {:induction false} ResultsAreTools(blocks: seq<Block>)
    ensures forall m :: m in ToolMessages(blocks) ==> m.role == Tool
  {
    if blocks != [] {
      ResultsAreTools(blocks[..|blocks| - 1]);
    }
  }

  // ----- The other blocks -----

  lemma OneMoreBlock(blocks: seq<Block>, b: Block)
    ensures b.ToolResult? ==>
              ToolMessages(blocks + [b]) == ToolMessages(blocks) + [Message(Tool, Str(b.text), b.toolUseId, [])]
    ensures !b.ToolResult? ==> ToolMessages(blocks + [b]) == ToolMessages(blocks)
    ensures b.ToolUse? ==>
              ToolCallsOf(blocks + [b])
              == ToolCallsOf(blocks) + [ToolCall(b.id, b.name, Wellformed(b.input), FunctionCall, 0)]
    ensures !b.ToolUse? ==> ToolCallsOf(blocks + [b]) == ToolCallsOf(blocks)
    ensures !b.TextBlock? ==> TextParts(blocks + [b]) == TextParts(blocks)
  {
    assert (blocks + [b])[..|blocks|] == blocks;
  }

  /** A turn of role tool is read as its tool results alone, in their order. */
  lemma ToolTurnIsRead(blocks: seq<Block>, b: Block)
    ensures ParseTurn(Turn(Tool, Some(blocks + [b])))
         == ParseTurn(Turn(Tool, Some(blocks)))
            + (if b.ToolResult? then [Message(Tool, Str(b.text), b.toolUseId, [])] else [])
  {
    hide ToolMessages;
    OneMoreBlock(blocks, b);
    assert ToolMessages(blocks) + [] == ToolMessages(blocks);
  }

  /** In an assistant's turn a tool use is one more call; tool results and other blocks say nothing. */
  lemma AssistantTurnIsRead(blocks: seq<Block>, b: Block)
    requires !b.TextBlock?
    ensures var was, now := ParseTurn(Turn(Assistant, Some(blocks))), ParseTurn(Turn(Assistant, Some(blocks + [b])));
            && |was| == |now| == 1
            && now[0].(toolCalls := []) == was[0].(toolCalls := [])
            && now[0].toolCalls == was[0].toolCalls + (if b.ToolUse?
                                                       then [ToolCall(b.id, b.name, Wellformed(b.input), FunctionCall, 0)]
                                                       else [])
  {
    hide ToolCallsOf, TextParts, JoinLines;
    OneMoreBlock(blocks, b);
  }

  /** In a user's turn a tool result comes before the text, after those before it; other blocks say nothing. */
  lemma UserTurnIsRead(blocks: seq<Block>, b: Block) returns (results: seq<Message>, said: string)
    requires !b.TextBlock?
    ensures ReadAs(ParseTurn(Turn(User, Some(blocks))), results, said)
    ensures ReadAs(ParseTurn(Turn(User, Some(blocks + [b]))),
                   results + (if b.ToolResult? then [Message(Tool, Str(b.text), b.toolUseId, [])] else []), said)
  {
    hide ToolMessages, TextParts, JoinLines;
    OneMoreBlock(blocks, b);
    results, said := ToolMessages(blocks), JoinLines(TextParts(blocks));
    assert results + [] == results;
  }

  /** A turn whose content cannot be decoded says nothing. */
  lemma UndecodableIsSkipped(ts: seq<Turn>, role: Role)
    ensures ParseTurns(ts + [Turn(role, None)]) == ParseTurns(ts)
  {
    assert (ts + [Turn(role, None)])[..|ts|] == ts;
  }
}
