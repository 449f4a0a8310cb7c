/** Which conversations survive the trip through the Anthropic format, and when a second trip changes nothing. */
module NormalForm {
  import opened Common
  import opened Conversation

  // ----- Encoded requests alternate -----

  predicate Loud(b: Block) {
    (b.TextBlock? && b.text != "") || (b.ToolUse? && !(b.id == "" && b.name == ""))
  }

  /** A turn the encoder can produce. */
  predicate GoodTurn(t: Turn) {
    && t.content.Some? && t.content.value != []
    && (t.role == User || t.role == Assistant)
    && (t.role == User ==> forall b :: b in t.content.value ==> b.TextBlock? || b.ToolResult?)
    && (t.role == Assistant ==> forall b :: b in t.content.value ==> Loud(b))
  }

  /** The other side speaks after turn i. */
  predicate SideChanges(ts: seq<Turn>, i: int) {
    0 <= i < |ts| - 1 ==> ts[i].role != ts[i + 1].role
  }

  /** User and assistant turns strictly alternate, and none is empty. */
  ghost predicate Alternating(ts: seq<Turn>) {
    && (forall i :: 0 <= i < |ts| ==> GoodTurn(ts[i]))
    && (forall i :: SideChanges(ts, i))
  }

  lemma {:induction false} CallBlocksLoud(calls: seq<ToolCall>)
    ensures forall b :: b in CallBlocks(calls) ==> Loud(b) && b.ToolUse?
  {
    if calls != [] { CallBlocksLoud(calls[..|calls| - 1]); }
  }

  lemma {:induction false} PushAlternates(ts: seq<Turn>, role: Role, blocks: seq<Block>)
    requires Alternating(ts)
    requires blocks != [] ==> GoodTurn(Turn(role, Some(blocks)))
    ensures Alternating(Push(ts, role, blocks))
  {
    var n, ts' := |ts|, Push(ts, role, blocks);
    if blocks != [] && n > 0 && ts[n - 1].role == role {
      assert GoodTurn(ts[n - 1]);
      assert GoodTurn(Turn(role, Some(ts[n - 1].content.value + blocks)));
    }
    forall i ensures SideChanges(ts', i) { assert SideChanges(ts, i); }
  }

  /** However the roles of the messages mix, the encoded turns alternate. */
  lemma {:induction false} EncodedAlternates(ms: seq<Message>)
    ensures Alternating(Encode(ms).turns)
  {
    if ms != [] {
      var m := ms[|ms| - 1];
      EncodedAlternates(ms[..|ms| - 1]);
      CallBlocksLoud(m.toolCalls);
      PushAlternates(TurnsOf(ms[..|ms| - 1]), SideOf(m), BlocksOf(m));
    }
  }

  // ----- Normal form -----

  predicate KnownCall(tc: ToolCall) {
    tc.arguments.Wellformed? && !(tc.id == "" && tc.name == "") && tc.kind == FunctionCall && tc.index == 0
  }

  predicate SaidText(c: Content) {
    c.Str? && c.text != ""
  }

  /** A message in the shape the parser gives it. */
  predicate Canonical(m: Message) {
    m.name == "" && m.refusal == "" &&
    if m.role == System || m.role == User then SaidText(m.content) && m.toolCallId == "" && m.toolCalls == []
    else if m.role == Tool then m.content.Str? && m.toolCalls == []
    else
      && m.role == Assistant && m.toolCallId == ""
      && (m.content == Absent || SaidText(m.content))
      && (forall i :: 0 <= i < |m.toolCalls| ==> KnownCall(m.toolCalls[i]))
      && (m.content == Absent ==> m.toolCalls != [])
  }

  /** Neighbours: a user message is answered, an assistant does not speak twice, system only comes first. */
  predicate MayFollow(a: Message, b: Message) {
    && b.role != System
    && (a.role == User ==> b.role == Assistant)
    && (a.role == Assistant ==> b.role != Assistant)
  }

  predicate InOrder(ms: seq<Message>, i: int) {
    0 <= i < |ms| - 1 ==> MayFollow(ms[i], ms[i + 1])
  }

  /**
    * One optional system message, then assistant turns alternating with user turns, each of these
    * being tool messages followed by at most one user message.
    */
  ghost predicate IsNormal(ms: seq<Message>) {
    && (forall i :: 0 <= i < |ms| ==> Canonical(ms[i]))
    && (forall i :: InOrder(ms, i))
  }

  // ----- Normal conversations are kept -----

  lemma {:induction false} TextPartsAppend(a: seq<Block>, b: seq<Block>)
    ensures TextParts(a + b) == TextParts(a) + TextParts(b)
  {
    if b == [] {
      assert a + b == a;
    } else {
      TextPartsAppend(a, b[..|b| - 1]);
      assert (a + b)[..|a + b| - 1] == a + b[..|b| - 1];
    }
  }

  lemma {:induction false} ToolMessagesAppend(a: seq<Block>, b: seq<Block>)
    ensures ToolMessages(a + b) == ToolMessages(a) + ToolMessages(b)
  {
    if b == [] {
      assert a + b == a;
    } else {
      ToolMessagesAppend(a, b[..|b| - 1]);
      assert (a + b)[..|a + b| - 1] == a + b[..|b| - 1];
    }
  }

  lemma {:induction false} ToolCallsAppend(a: seq<Block>, b: seq<Block>)
    ensures ToolCallsOf(a + b) == ToolCallsOf(a) + ToolCallsOf(b)
  {
    if b == [] {
      assert a + b == a;
    } else {
      ToolCallsAppend(a, b[..|b| - 1]);
      assert (a + b)[..|a + b| - 1] == a + b[..|b| - 1];
    }
  }

  lemma {:induction false} OneBlock(b: Block)
    ensures TextParts([b]) == (if b.TextBlock? && b.text != "" then [b.text] else [])
    ensures ToolMessages([b]) == (if b.ToolResult? then [ToolMessage(b.toolUseId, b.text)] else [])
    ensures ToolCallsOf([b]) == (if b.ToolUse? then [ToolCall(b.id, b.name, Wellformed(b.input))] else [])
  {
    assert [b][..0] == [];
  }

  lemma {:induction false} OneCall(tc: ToolCall)
    requires KnownCall(tc)
    ensures ToolCall(tc.id, tc.name, Wellformed(InputOf(tc.arguments))) == tc
  {
  }

  lemma {:induction false} CallsReadBack(calls: seq<ToolCall>)
    requires forall i :: 0 <= i < |calls| ==> KnownCall(calls[i])
    ensures ToolCallsOf(CallBlocks(calls)) == calls
    ensures TextParts(CallBlocks(calls)) == []
    ensures calls != [] ==> CallBlocks(calls) != []
  {
    if calls != [] {
      var init, tc := calls[..|calls| - 1], calls[|calls| - 1];
      CallsReadBack(init);
      var b := ToolUse(tc.id, tc.name, InputOf(tc.arguments));
      assert KnownCall(tc);
      assert CallBlocks(calls) == CallBlocks(init) + [b];
      assert calls == init + [tc];
      hide *;
      TextPartsAppend(CallBlocks(init), [b]);
      ToolCallsAppend(CallBlocks(init), [b]);
      OneBlock(b);
      OneCall(tc);
    }
  }

  lemma {:induction false} AssistantReadBack(m: Message)
    requires Canonical(m) && m.role == Assistant
    ensures AssistantBlocks(m) != [] && AssistantMessage(AssistantBlocks(m)) == m
  {
    hide CallBlocks, TextParts, ToolCallsOf;
    CallsReadBack(m.toolCalls);
    if SaidText(m.content) {
      var b := TextBlock(m.content.text);
      TextPartsAppend([b], CallBlocks(m.toolCalls));
      ToolCallsAppend([b], CallBlocks(m.toolCalls));
      OneBlock(b);
      assert TextParts(AssistantBlocks(m)) == [m.content.text];
      assert ToolCallsOf(AssistantBlocks(m)) == m.toolCalls;
    } else {
      assert AssistantBlocks(m) == CallBlocks(m.toolCalls);
    }
  }

  predicate OnlyResults(blocks: seq<Block>) {
    forall b :: b in blocks ==> b.ToolResult?
  }

  lemma {:induction false} ResultsHaveNoText(blocks: seq<Block>)
    requires OnlyResults(blocks)
    ensures TextParts(blocks) == []
  {
    if blocks != [] {
      assert blocks[|blocks| - 1] in blocks;
      ResultsHaveNoText(blocks[..|blocks| - 1]);
    }
  }

  /** A tool or user message added after tool results is read back after them. */
  lemma {:induction false} UserBlockReadBack(blocks: seq<Block>, m: Message)
    requires OnlyResults(blocks) && Canonical(m) && (m.role == Tool || m.role == User)
    ensures UserMessages(blocks + BlocksOf(m)) == UserMessages(blocks) + [m]
    ensures UserMessages(BlocksOf(m)) == [m]
    ensures m.role == Tool ==> OnlyResults(blocks + BlocksOf(m))
  {
    hide ToolMessages, TextParts, KnownCall;
    var b := BlocksOf(m)[0];
    assert BlocksOf(m) == [b];
    OneBlock(b);
    ResultsHaveNoText(blocks);
    TextPartsAppend(blocks, [b]);
    ToolMessagesAppend(blocks, [b]);
    if m.role == Tool {
      assert TextParts(blocks + [b]) == [] && ToolMessages(blocks + [b]) == ToolMessages(blocks) + [m];
    } else {
      assert TextParts(blocks + [b]) == [m.content.text] && ToolMessages(blocks + [b]) == ToolMessages(blocks);
      assert m == UserMessage(m.content.text);
    }
  }

  lemma {:induction false} ParseTurnsSnoc(ts: seq<Turn>, t: Turn)
    ensures ParseTurns(ts + [t]) == ParseTurns(ts) + ParseTurn(t)
  {
    assert (ts + [t])[..|ts|] == ts;
  }

  /** The last turn after a normal prefix: it holds the last message, and only tool results if that is one. */
  ghost predicate LastTurn(ts: seq<Turn>, m: Message) {
    && ts != []
    && var last := ts[|ts| - 1];
       && last.role == SideOf(m) && last.content.Some?
       && (m.role == Tool ==> OnlyResults(last.content.value))
  }

  function SystemCount(ms: seq<Message>): nat {
    if ms != [] && ms[0].role == System then 1 else 0
  }

  lemma {:induction false} NewTurnReadBack(m: Message)
    requires Canonical(m) && m.role != System
    ensures BlocksOf(m) != [] && ParseTurn(Turn(SideOf(m), Some(BlocksOf(m)))) == [m]
    ensures m.role == Tool ==> OnlyResults(BlocksOf(m))
  {
    hide AssistantBlocks, AssistantMessage, UserMessages, FlattenText, KnownCall, SaidText;
    if m.role == Assistant {
      AssistantReadBack(m);
    } else {
      UserBlockReadBack([], m);
      assert [] + BlocksOf(m) == BlocksOf(m);
    }
  }

  /** A message on the other side starts a turn, which is read back as that message. */
  lemma {:induction false} NewTurnStep(ts: seq<Turn>, m: Message)
    requires Canonical(m) && m.role != System
    requires ts == [] || ts[|ts| - 1].role != SideOf(m)
    ensures var ts' := Push(ts, SideOf(m), BlocksOf(m));
            ParseTurns(ts') == ParseTurns(ts) + [m] && LastTurn(ts', m)
  {
    hide Canonical, AssistantBlocks, AssistantMessage, UserMessages, OnlyResults;
    var t := Turn(SideOf(m), Some(BlocksOf(m)));
    NewTurnReadBack(m);
    ParseTurnsSnoc(ts, t);
    assert Push(ts, SideOf(m), BlocksOf(m)) == ts + [t];
  }

  /** A tool or user message joins a turn of tool results, and is read back after them. */
  lemma {:induction false} MergeStep(ts: seq<Turn>, m: Message)
    requires Canonical(m) && (m.role == Tool || m.role == User)
    requires ts != [] && ts[|ts| - 1].role == User && ts[|ts| - 1].content.Some?
    requires OnlyResults(ts[|ts| - 1].content.value)
    ensures var ts' := Push(ts, SideOf(m), BlocksOf(m));
            ParseTurns(ts') == ParseTurns(ts) + [m] && LastTurn(ts', m)
  {
    hide UserMessages, OnlyResults, Canonical;
    var init, last := ts[..|ts| - 1], ts[|ts| - 1];
    var merged := Turn(User, Some(last.content.value + BlocksOf(m)));
    UserBlockReadBack(last.content.value, m);
    ParseTurnsSnoc(init, merged);
    ParseTurnsSnoc(init, last);
    assert ts == init + [last];
    assert Push(ts, SideOf(m), BlocksOf(m)) == init + [merged];
  }

  lemma {:induction false} Neighbours(ms: seq<Message>, k: nat)
    requires IsNormal(ms) && SystemCount(ms) <= k < |ms|
    ensures Canonical(ms[k]) && ms[k].role != System
    ensures k > SystemCount(ms) ==> MayFollow(ms[k - 1], ms[k]) && Canonical(ms[k - 1]) && ms[k - 1].role != System
  {
    assert InOrder(ms, k - 1) && InOrder(ms, k - 2);
  }

  /** One more message of a normal conversation. */
  lemma {:induction false} NormalStep(ts: seq<Turn>, before: Message, m: Message)
    requires ts != [] && LastTurn(ts, before)
    requires Canonical(before) && Canonical(m) && before.role != System && m.role != System && MayFollow(before, m)
    ensures var ts' := Push(ts, SideOf(m), BlocksOf(m));
            ParseTurns(ts') == ParseTurns(ts) + [m] && LastTurn(ts', m)
  {
    hide Push, BlocksOf, OnlyResults, ParseTurns;
    if ts[|ts| - 1].role == SideOf(m) {
      MergeStep(ts, m);
    } else {
      NewTurnStep(ts, m);
    }
  }

  lemma {:induction false} NormalPrefix(ms: seq<Message>, k: nat)
    requires IsNormal(ms) && SystemCount(ms) <= k <= |ms|
    ensures ParseTurns(TurnsOf(ms[..k])) == ms[SystemCount(ms)..k]
    ensures if k > SystemCount(ms) then LastTurn(TurnsOf(ms[..k]), ms[k - 1]) else TurnsOf(ms[..k]) == []
  {
    hide *;
    var s := SystemCount(ms);
    NothingYet(ms);
    if k > s {
      var ts, m := TurnsOf(ms[..k - 1]), ms[k - 1];
      NormalPrefix(ms, k - 1);
      Neighbours(ms, k - 1);
      TurnsOfSnoc(ms, k - 1);
      if k - 1 > s {
        NormalStep(ts, ms[k - 2], m);
      } else {
        NewTurnStep(ts, m);
      }
      assert ms[s..k - 1] + [m] == ms[s..k];
    }
  }

  lemma {:induction false} NothingYet(ms: seq<Message>)
    requires SystemCount(ms) <= |ms|
    ensures TurnsOf(ms[..SystemCount(ms)]) == [] && ParseTurns([]) == []
  {
    if SystemCount(ms) == 1 {
      assert ms[..1][..0] == [];
    }
  }

  lemma {:induction false} TurnsOfSnoc(ms: seq<Message>, k: nat)
    requires k < |ms|
    ensures TurnsOf(ms[..k + 1]) == Push(TurnsOf(ms[..k]), SideOf(ms[k]), BlocksOf(ms[k]))
  {
    assert ms[..k + 1][..k] == ms[..k];
  }

  lemma {:induction false} NoMoreSystem(ms: seq<Message>, k: nat)
    requires IsNormal(ms) && SystemCount(ms) <= k <= |ms|
    ensures SystemParts(ms[..k]) == (if SystemCount(ms) == 1 then [ms[0].content.text] else [])
  {
    if k > SystemCount(ms) {
      NoMoreSystem(ms, k - 1);
      assert ms[..k][..k - 1] == ms[..k - 1];
      Neighbours(ms, k - 1);
    } else if k == 1 {
      assert Canonical(ms[0]);
      assert ms[..1][..0] == [];
    }
  }

  /** A normal conversation comes back unchanged. */
  lemma {:induction false} NormalIsKept(ms: seq<Message>)
    requires IsNormal(ms)
    ensures Round(ms) == ms
  {
    assert ms[..|ms|] == ms;
    NormalPrefix(ms, |ms|);
    NoMoreSystem(ms, |ms|);
    if SystemCount(ms) == 1 {
      assert Canonical(ms[0]);
      assert Round(ms) == [ms[0]] + ms[1..];
    }
  }

  // ----- The shape of every parsed conversation -----

  /** A user turn that says nothing: the parser drops it. */
  predicate Silent(t: Turn) {
    t.role == User && t.content.Some? && forall b :: b in t.content.value ==> b.TextBlock? && b.text == ""
  }

  /** Some silent user turn stands between two other turns. */
  predicate SilentInside(ts: seq<Turn>) {
    exists i :: 0 < i < |ts| - 1 && Silent(ts[i])
  }

  predicate NoBlank(parts: seq<string>) {
    forall i :: 0 <= i < |parts| ==> parts[i] != ""
  }

  lemma {:induction false} TextIsSaid(blocks: seq<Block>)
    ensures TextParts(blocks) != [] <==> exists b :: b in blocks && b.TextBlock? && b.text != ""
    ensures NoBlank(TextParts(blocks))
  {
    if blocks != [] {
      var init, last := blocks[..|blocks| - 1], blocks[|blocks| - 1];
      TextIsSaid(init);
      assert blocks == init + [last];
    }
  }

  lemma {:induction false} JoinedIsBlank(parts: seq<string>)
    requires NoBlank(parts)
    ensures JoinLines(parts) == "" <==> parts == []
  {
  }

  lemma {:induction false} ToolsAreKept(blocks: seq<Block>)
    ensures ToolMessages(blocks) != [] <==> exists b :: b in blocks && b.ToolResult?
    ensures ToolCallsOf(blocks) != [] <==> exists b :: b in blocks && b.ToolUse?
  {
    if blocks != [] {
      var init, last := blocks[..|blocks| - 1], blocks[|blocks| - 1];
      ToolsAreKept(init);
      assert blocks == init + [last];
    }
  }

  lemma {:induction false} ToolMessagesCanonical(blocks: seq<Block>)
    ensures forall i :: 0 <= i < |ToolMessages(blocks)| ==>
              Canonical(ToolMessages(blocks)[i]) && ToolMessages(blocks)[i].role == Tool
  {
    if blocks != [] { ToolMessagesCanonical(blocks[..|blocks| - 1]); }
  }

  lemma {:induction false} CallsKnown(blocks: seq<Block>)
    requires forall b :: b in blocks ==> Loud(b)
    ensures forall i :: 0 <= i < |ToolCallsOf(blocks)| ==> KnownCall(ToolCallsOf(blocks)[i])
  {
    if blocks != [] {
      assert Loud(blocks[|blocks| - 1]);
      CallsKnown(blocks[..|blocks| - 1]);
    }
  }

  /** What one turn is read as: a user turn as tools and then at most one user, an assistant turn as itself. */
  lemma {:induction false} TurnReadAs(t: Turn)
    requires GoodTurn(t)
    ensures IsNormal(ParseTurn(t))
    ensures t.role == Assistant ==> |ParseTurn(t)| == 1 && ParseTurn(t)[0].role == Assistant
    ensures t.role == User ==>
              forall i :: 0 <= i < |ParseTurn(t)| ==> ParseTurn(t)[i].role == Tool || ParseTurn(t)[i].role == User
    ensures ParseTurn(t) == [] <==> Silent(t)
  {
    hide JoinLines, TextParts, ToolMessages, ToolCallsOf;
    var blocks := t.content.value;
    TextIsSaid(blocks);
    JoinedIsBlank(TextParts(blocks));
    ToolsAreKept(blocks);
    if t.role == Assistant {
      CallsKnown(blocks);
      assert blocks[0] in blocks;
    } else {
      ToolMessagesCanonical(blocks);
    }
  }

  lemma {:induction false} NormalAppend(a: seq<Message>, b: seq<Message>)
    requires IsNormal(a) && IsNormal(b)
    requires a != [] && b != [] ==> MayFollow(a[|a| - 1], b[0])
    ensures IsNormal(a + b)
  {
    var c := a + b;
    forall i ensures InOrder(c, i) {
      assert InOrder(a, i) && InOrder(b, i - |a|);
    }
  }

  lemma {:induction false} SilentPrefix(ts: seq<Turn>)
    requires ts != [] && SilentInside(ts[..|ts| - 1])
    ensures SilentInside(ts)
  {
    var init := ts[..|ts| - 1];
    var i :| 0 < i < |init| - 1 && Silent(init[i]);
    assert Silent(ts[i]);
  }

  /** What is known after reading turns with no silence inside. */
  ghost predicate ReadNormally(ts: seq<Turn>) {
    var ms := ParseTurns(ts);
    && IsNormal(ms)
    && (forall i :: 0 <= i < |ms| ==> ms[i].role != System)
    && (ts != [] && !Silent(ts[|ts| - 1]) ==>
          ms != [] && (ms[|ms| - 1].role == Assistant <==> ts[|ts| - 1].role == Assistant))
    && (|ts| == 1 && Silent(ts[0]) ==> ms == [])
  }

  lemma {:induction false} ReadOneMore(init: seq<Turn>, t: Turn)
    requires ReadNormally(init) && GoodTurn(t)
    requires init != [] ==> GoodTurn(init[|init| - 1]) && init[|init| - 1].role != t.role
    requires |init| > 1 ==> !Silent(init[|init| - 1])
    ensures ReadNormally(init + [t])
  {
    hide Silent, ParseTurn, Canonical;
    var before, more := ParseTurns(init), ParseTurn(t);
    TurnReadAs(t);
    ParseTurnsSnoc(init, t);
    if before != [] && more != [] {
      assert init != [];
      assert !Silent(init[|init| - 1]);
      assert MayFollow(before[|before| - 1], more[0]);
    }
    NormalAppend(before, more);
    if more != [] {
      assert (before + more)[|before + more| - 1] == more[|more| - 1];
    }
  }

  /** With no silent turn inside, alternating turns are read as a normal conversation. */
  lemma {:induction false} SpokenIsNormal(ts: seq<Turn>)
    requires Alternating(ts) && !SilentInside(ts)
    ensures ReadNormally(ts)
  {
    hide GoodTurn, Silent, ParseTurn;
    if ts != [] {
      var n := |ts| - 1;
      var init, t := ts[..n], ts[n];
      if SilentInside(init) { SilentPrefix(ts); }
      assert SideChanges(ts, n - 1);
      assert Alternating(init) by {
        forall i ensures SideChanges(init, i) { assert SideChanges(ts, i); }
      }
      SpokenIsNormal(init);
      assert n > 1 && Silent(ts[n - 1]) ==> SilentInside(ts);
      ReadOneMore(init, t);
      assert ts == init + [t];
    }
  }

  lemma {:induction false} ParsePrefix(ts: seq<Turn>, k: nat)
    requires k <= |ts|
    ensures |ParseTurns(ts[..k])| <= |ParseTurns(ts)|
    ensures ParseTurns(ts)[..|ParseTurns(ts[..k])|] == ParseTurns(ts[..k])
    decreases |ts|
  {
    if k == |ts| {
      assert ts[..k] == ts;
    } else {
      var init := ts[..|ts| - 1];
      ParsePrefix(init, k);
      assert init[..k] == ts[..k];
      assert ParseTurns(ts) == ParseTurns(init) + ParseTurn(ts[|ts| - 1]);
    }
  }

  /** A silent turn inside leaves two assistant messages side by side. */
  lemma {:induction false} SilenceJoins(ts: seq<Turn>) returns (p: nat)
    requires Alternating(ts) && SilentInside(ts)
    ensures p + 1 < |ParseTurns(ts)|
    ensures ParseTurns(ts)[p].role == Assistant && ParseTurns(ts)[p + 1].role == Assistant
    ensures Canonical(ParseTurns(ts)[p]) && Canonical(ParseTurns(ts)[p + 1])
  {
    hide ParseTurn, Canonical, ParseTurns;
    var i :| 0 < i < |ts| - 1 && Silent(ts[i]);
    assert SideChanges(ts, i - 1) && SideChanges(ts, i);
    TurnReadAs(ts[i - 1]);
    TurnReadAs(ts[i]);
    TurnReadAs(ts[i + 1]);
    var before := ParseTurns(ts[..i - 1]);
    p := |before|;
    assert ts[..i] == ts[..i - 1] + [ts[i - 1]];
    ParseTurnsSnoc(ts[..i - 1], ts[i - 1]);
    assert ts[..i + 1] == ts[..i] + [ts[i]];
    ParseTurnsSnoc(ts[..i], ts[i]);
    assert ts[..i + 2] == ts[..i + 1] + [ts[i + 1]];
    ParseTurnsSnoc(ts[..i + 1], ts[i + 1]);
    var upTo := ParseTurns(ts[..i + 2]);
    assert upTo == before + ParseTurn(ts[i - 1]) + [] + ParseTurn(ts[i + 1]);
    ParsePrefix(ts, i + 2);
    assert ParseTurns(ts)[p] == upTo[p] && ParseTurns(ts)[p + 1] == upTo[p + 1];
  }

  // ----- Counting assistant messages -----

  function AssistantMessages(ms: seq<Message>): nat {
    if ms == [] then 0
    else AssistantMessages(ms[..|ms| - 1]) + (if ms[|ms| - 1].role == Assistant then 1 else 0)
  }

  function AssistantTurns(ts: seq<Turn>): nat {
    if ts == [] then 0
    else AssistantTurns(ts[..|ts| - 1]) + (if ts[|ts| - 1].role == Assistant then 1 else 0)
  }

  lemma {:induction false} CountAppend(a: seq<Message>, b: seq<Message>)
    ensures AssistantMessages(a + b) == AssistantMessages(a) + AssistantMessages(b)
  {
    if b == [] {
      assert a + b == a;
    } else {
      CountAppend(a, b[..|b| - 1]);
      assert (a + b)[..|a + b| - 1] == a + b[..|b| - 1];
    }
  }

  lemma {:induction false} NoAssistants(ms: seq<Message>)
    requires forall i :: 0 <= i < |ms| ==> ms[i].role != Assistant
    ensures AssistantMessages(ms) == 0
  {
    if ms != [] { NoAssistants(ms[..|ms| - 1]); }
  }

  lemma {:induction false} TurnCounts(t: Turn)
    requires GoodTurn(t)
    ensures AssistantMessages(ParseTurn(t)) == (if t.role == Assistant then 1 else 0)
  {
    TurnReadAs(t);
    if t.role == Assistant {
      assert ParseTurn(t)[..0] == [];
    } else {
      NoAssistants(ParseTurn(t));
    }
  }

  lemma {:induction false} TurnsCountMessages(ts: seq<Turn>)
    requires Alternating(ts)
    ensures AssistantMessages(ParseTurns(ts)) == AssistantTurns(ts)
  {
    if ts != [] {
      var init, t := ts[..|ts| - 1], ts[|ts| - 1];
      assert Alternating(init) by {
        forall i ensures SideChanges(init, i) { assert SideChanges(ts, i); }
      }
      TurnsCountMessages(init);
      TurnCounts(t);
      CountAppend(ParseTurns(init), ParseTurn(t));
    }
  }

  lemma {:induction false} CountTurnsSnoc(ts: seq<Turn>, t: Turn)
    ensures AssistantTurns(ts + [t]) == AssistantTurns(ts) + (if t.role == Assistant then 1 else 0)
  {
    assert (ts + [t])[..|ts|] == ts;
  }

  lemma {:induction false} PushCounts(ts: seq<Turn>, role: Role, blocks: seq<Block>)
    ensures AssistantTurns(Push(ts, role, blocks)) <= AssistantTurns(ts) + (if role == Assistant then 1 else 0)
    ensures ts != [] && ts[|ts| - 1].role == role && ts[|ts| - 1].content.Some? ==>
              AssistantTurns(Push(ts, role, blocks)) == AssistantTurns(ts)
  {
    hide AssistantTurns;
    if blocks != [] {
      if ts != [] && ts[|ts| - 1].role == role && ts[|ts| - 1].content.Some? {
        var init, last := ts[..|ts| - 1], ts[|ts| - 1];
        var merged := Turn(role, Some(last.content.value + blocks));
        CountTurnsSnoc(init, last);
        CountTurnsSnoc(init, merged);
        assert ts == init + [last] && Push(ts, role, blocks) == init + [merged];
      } else {
        CountTurnsSnoc(ts, Turn(role, Some(blocks)));
      }
    }
  }

  /** Encoding never makes more assistant turns than there are assistant messages. */
  lemma {:induction false} TurnsAtMostMessages(ms: seq<Message>)
    ensures AssistantTurns(TurnsOf(ms)) <= AssistantMessages(ms)
  {
    if ms != [] {
      var m := ms[|ms| - 1];
      TurnsAtMostMessages(ms[..|ms| - 1]);
      PushCounts(TurnsOf(ms[..|ms| - 1]), SideOf(m), BlocksOf(m));
    }
  }

  lemma {:induction false} PushedLast(ts: seq<Turn>, role: Role, blocks: seq<Block>)
    requires blocks != []
    ensures var ts' := Push(ts, role, blocks);
            ts' != [] && ts'[|ts'| - 1].role == role && ts'[|ts'| - 1].content.Some?
  {
  }

  /** Two assistant messages side by side become one turn. */
  lemma {:induction false} NeighboursMerge(ms: seq<Message>, p: nat)
    requires p + 1 < |ms|
    requires ms[p].role == ms[p + 1].role == Assistant && AssistantBlocks(ms[p]) != []
    ensures AssistantTurns(TurnsOf(ms)) < AssistantMessages(ms)
    decreases |ms|
  {
    hide Push, AssistantTurns, AssistantBlocks;
    var n := |ms| - 1;
    var init, m := ms[..n], ms[n];
    var ts := TurnsOf(init);
    PushCounts(ts, SideOf(m), BlocksOf(m));
    if p + 1 < n {
      NeighboursMerge(init, p);
    } else {
      TurnsAtMostMessages(init);
      assert ts == Push(TurnsOf(init[..p]), Assistant, BlocksOf(init[p]));
      PushedLast(TurnsOf(init[..p]), Assistant, BlocksOf(init[p]));
    }
  }

  // ----- The main results -----

  /** A conversation is kept by the trip exactly when it is in normal form. */
  lemma {:induction false} KeptIffNormal(ms: seq<Message>)
    ensures Round(ms) == ms <==> IsNormal(ms)
  {
    hide ParseTurn, ParseTurns, IsNormal, Canonical, MayFollow, AssistantBlocks, AssistantMessage;
    if IsNormal(ms) {
      NormalIsKept(ms);
    }
    if Round(ms) == ms {
      var ts := TurnsOf(ms);
      EncodedAlternates(ms);
      if SilentInside(ts) {
        var p := SilenceJoins(ts);
        var s := if Encode(ms).system != "" then [SystemMessage(Encode(ms).system)] else [];
        assert ms == s + ParseTurns(ts);
        var q := |s| + p;
        assert ms[q] == ParseTurns(ts)[p] && ms[q + 1] == ParseTurns(ts)[p + 1];
        AssistantReadBack(ms[q]);
        NeighboursMerge(ms, q);
        TurnsCountMessages(ts);
        CountAppend(s, ParseTurns(ts));
        NoAssistants(s);
        assert false;
      }
      RoundIsNormal(ms);
    }
  }

  lemma {:induction false} RoundIsNormal(ms: seq<Message>)
    ensures IsNormal(Round(ms)) <==> !SilentInside(Encode(ms).turns)
  {
    hide ParseTurn, ParseTurns, TurnsOf;
    var e := Encode(ms);
    EncodedAlternates(ms);
    var s := if e.system != "" then [SystemMessage(e.system)] else [];
    assert Round(ms) == s + ParseTurns(e.turns);
    if SilentInside(e.turns) {
      var p := SilenceJoins(e.turns);
      var q := |s| + p;
      assert !InOrder(Round(ms), q);
    } else {
      SpokenIsNormal(e.turns);
      NormalAppend(s, ParseTurns(e.turns));
    }
  }

  /** A second trip changes nothing exactly when no silent user turn stands inside the encoded request. */
  lemma {:induction false} IdempotentIffNotSilent(ms: seq<Message>)
    ensures Round(Round(ms)) == Round(ms) <==> !SilentInside(Encode(ms).turns)
  {
    KeptIffNormal(Round(ms));
    RoundIsNormal(ms);
  }
}
