/** OpenAI messages to and from Anthropic turns (pkg/adapter/anthropic.go). */
module Conversation {
  import opened Common

  /** Message content: absent, a string, the texts of content parts, or another JSON value (its text). */
  datatype Content = Absent | Str(text: string) | Parts(texts: seq<string>) | OtherJson(json: string)

  /** A JSON value, identified by its canonical text. */
  datatype Json = Json(canonical: string)

  const EMPTY_OBJECT := Json("{}")

  /** The arguments string of a tool call, as the encoder sees it: blank, not JSON, or JSON. */
  datatype Arguments = Blank | Malformed(raw: string) | Wellformed(value: Json)

  /** A message's role; `OtherRole` is any string the translation does not know. */
  datatype Role = System | Developer | User | Assistant | Tool | OtherRole(name: string)

  /** The type of a tool call. */
  datatype CallType = FunctionCall | OtherType(name: string)

  datatype ToolCall = ToolCall(
    id: string, name: string, arguments: Arguments, kind: CallType := FunctionCall, index: int := 0)

  datatype Message = Message(
    role: Role, content: Content, toolCallId: string, toolCalls: seq<ToolCall>, name: string := "", refusal: string := "")

  datatype Block =
    | TextBlock(text: string)
    | ToolUse(id: string, name: string, input: Json)
    | ToolResult(toolUseId: string, text: string)
    | OtherBlock

  /** One Anthropic message; `content` is None when its content cannot be decoded. */
  datatype Turn = Turn(role: Role, content: Option<seq<Block>>)

  datatype Encoded = Encoded(system: string, turns: seq<Turn>)

  // ----- Text -----

  function Concat(texts: seq<string>): string {
    if texts == [] then "" else Concat(texts[..|texts| - 1]) + texts[|texts| - 1]
  }

  function FlattenText(c: Content): string {
    match c
    case Absent => ""
    case Str(text) => text
    case Parts(texts) => Concat(texts)
    case OtherJson(json) => json
  }

  /** strings.Join(parts, "\n"). */
  function JoinLines(parts: seq<string>): string {
    if parts == [] then ""
    else if |parts| == 1 then parts[0]
    else JoinLines(parts[..|parts| - 1]) + "\n" + parts[|parts| - 1]
  }

  // ----- Encoding -----

  predicate IsSystem(m: Message) {
    m.role == System || m.role == Developer
  }

  function InputOf(a: Arguments): Json {
    if a.Wellformed? then a.value else EMPTY_OBJECT
  }

  /** The tool_use blocks of the calls that carry an id or a name. */
  function CallBlocks(calls: seq<ToolCall>): seq<Block> {
    if calls == [] then []
    else
      var tc := calls[|calls| - 1];
      CallBlocks(calls[..|calls| - 1])
      + (if tc.name == "" && tc.id == "" then [] else [ToolUse(tc.id, tc.name, InputOf(tc.arguments))])
  }

  function AssistantBlocks(m: Message): seq<Block> {
    (if FlattenText(m.content) != "" then [TextBlock(FlattenText(m.content))] else []) + CallBlocks(m.toolCalls)
  }

  function SideOf(m: Message): Role {
    if m.role == Assistant then Assistant else User
  }

  function BlocksOf(m: Message): seq<Block> {
    if IsSystem(m) then []
    else if m.role == Assistant then AssistantBlocks(m)
    else if m.role == Tool then [ToolResult(m.toolCallId, FlattenText(m.content))]
    else [TextBlock(FlattenText(m.content))]
  }

  /** Adds blocks to the last turn when it has the same role, else starts a new one. */
  function Push(turns: seq<Turn>, role: Role, blocks: seq<Block>): seq<Turn> {
    var n := |turns|;
    if blocks == [] then turns
    else if n > 0 && turns[n - 1].role == role && turns[n - 1].content.Some? then
      turns[n - 1 := Turn(role, Some(turns[n - 1].content.value + blocks))]
    else turns + [Turn(role, Some(blocks))]
  }

  function TurnsOf(ms: seq<Message>): seq<Turn> {
    if ms == [] then []
    else Push(TurnsOf(ms[..|ms| - 1]), SideOf(ms[|ms| - 1]), BlocksOf(ms[|ms| - 1]))
  }

  function SystemParts(ms: seq<Message>): seq<string> {
    if ms == [] then []
    else
      var m := ms[|ms| - 1];
      SystemParts(ms[..|ms| - 1])
      + (if IsSystem(m) && FlattenText(m.content) != "" then [FlattenText(m.content)] else [])
  }

  function Encode(ms: seq<Message>): Encoded {
    Encoded(JoinLines(SystemParts(ms)), TurnsOf(ms))
  }

  // ----- Parsing -----

  function TextParts(blocks: seq<Block>): seq<string> {
    if blocks == [] then []
    else
      var b := blocks[|blocks| - 1];
      TextParts(blocks[..|blocks| - 1]) + (if b.TextBlock? && b.text != "" then [b.text] else [])
  }

  function ToolMessage(id: string, text: string): Message {
    Message(Tool, Str(text), id, [])
  }

  function UserMessage(text: string): Message {
    Message(User, Str(text), "", [])
  }

  function SystemMessage(text: string): Message {
    Message(System, Str(text), "", [])
  }

  function ToolMessages(blocks: seq<Block>): seq<Message> {
    if blocks == [] then []
    else
      var b := blocks[|blocks| - 1];
      ToolMessages(blocks[..|blocks| - 1]) + (if b.ToolResult? then [ToolMessage(b.toolUseId, b.text)] else [])
  }

  function ToolCallsOf(blocks: seq<Block>): seq<ToolCall> {
    if blocks == [] then []
    else
      var b := blocks[|blocks| - 1];
      ToolCallsOf(blocks[..|blocks| - 1]) + (if b.ToolUse? then [ToolCall(b.id, b.name, Wellformed(b.input))] else [])
  }

  function UserMessages(blocks: seq<Block>): seq<Message> {
    var text := JoinLines(TextParts(blocks));
    ToolMessages(blocks) + (if text != "" then [UserMessage(text)] else [])
  }

  function AssistantMessage(blocks: seq<Block>): Message {
    var text := JoinLines(TextParts(blocks));
    Message(Assistant, if text != "" then Str(text) else Absent, "", ToolCallsOf(blocks))
  }

  function ParseTurn(t: Turn): seq<Message> {
    if t.content.None? then []
    else if t.role == Assistant then [AssistantMessage(t.content.value)]
    else if t.role == Tool then ToolMessages(t.content.value)
    else UserMessages(t.content.value)
  }

  function ParseTurns(ts: seq<Turn>): seq<Message> {
    if ts == [] then [] else ParseTurns(ts[..|ts| - 1]) + ParseTurn(ts[|ts| - 1])
  }

  function Parse(e: Encoded): seq<Message> {
    (if e.system != "" then [SystemMessage(e.system)] else []) + ParseTurns(e.turns)
  }

  /** What an OpenAI conversation becomes after a trip through the Anthropic format. */
  function Round(ms: seq<Message>): seq<Message> {
    Parse(Encode(ms))
  }

  // ----- The source's loops -----

  method PushBlocks(conv: seq<Turn>, role: Role, blocks: seq<Block>) returns (r: seq<Turn>)
    ensures r == Push(conv, role, blocks)
  {
    r := conv;
    if |blocks| == 0 {
      return;
    }
    var n := |r|;
    if n > 0 && r[n - 1].role == role && r[n - 1].content.Some? {
      r := r[n - 1 := Turn(role, Some(r[n - 1].content.value + blocks))];
      return;
    }
    r := r + [Turn(role, Some(blocks))];
  }

  method BuildAssistantBlocks(m: Message) returns (out: seq<Block>)
    ensures out == AssistantBlocks(m)
  {
    out := [];
    var s := FlattenText(m.content);
    if s != "" {
      out := out + [TextBlock(s)];
    }
    ghost var head := out;
    for i := 0 to |m.toolCalls|
      invariant out == head + CallBlocks(m.toolCalls[..i])
    {
      assert m.toolCalls[..i + 1][..i] == m.toolCalls[..i];
      var tc := m.toolCalls[i];
      if tc.name == "" && tc.id == "" {
        continue;
      }
      var input := EMPTY_OBJECT;
      if tc.arguments.Wellformed? {
        input := tc.arguments.value;
      }
      out := out + [ToolUse(tc.id, tc.name, input)];
    }
    assert m.toolCalls[..|m.toolCalls|] == m.toolCalls;
  }

  /** pkg/adapter/anthropic.go, the message part of AnthropicEncodeRequest. */
  method EncodeRequest(messages: seq<Message>) returns (e: Encoded)
    ensures e == Encode(messages)
  {
    var systemParts: seq<string> := [];
    var conv: seq<Turn> := [];
    for i := 0 to |messages|
      invariant systemParts == SystemParts(messages[..i])
      invariant conv == TurnsOf(messages[..i])
    {
      assert messages[..i + 1][..i] == messages[..i];
      var m := messages[i];
      if m.role == System || m.role == Developer {
        var s := FlattenText(m.content);
        if s != "" {
          systemParts := systemParts + [s];
        }
      } else if m.role == Tool {
        conv := PushBlocks(conv, User, [ToolResult(m.toolCallId, FlattenText(m.content))]);
      } else if m.role == Assistant {
        var blocks := BuildAssistantBlocks(m);
        conv := PushBlocks(conv, Assistant, blocks);
      } else {
        conv := PushBlocks(conv, User, [TextBlock(FlattenText(m.content))]);
      }
    }
    assert messages[..|messages|] == messages;
    var system := "";
    if |systemParts| > 0 {
      system := JoinLines(systemParts);
    }
    e := Encoded(system, conv);
  }

  method AppendUserFromAnthropic(msgs: seq<Message>, content: seq<Block>) returns (r: seq<Message>)
    ensures r == msgs + UserMessages(content)
  {
    var textParts: seq<string> := [];
    var tools: seq<Message> := [];
    for i := 0 to |content|
      invariant textParts == TextParts(content[..i])
      invariant tools == ToolMessages(content[..i])
    {
      assert content[..i + 1][..i] == content[..i];
      var b := content[i];
      if b.ToolResult? {
        tools := tools + [ToolMessage(b.toolUseId, b.text)];
      } else if b.TextBlock? && b.text != "" {
        textParts := textParts + [b.text];
      }
    }
    assert content[..|content|] == content;
    r := msgs + tools;
    var t := JoinLines(textParts);
    if t != "" {
      r := r + [UserMessage(t)];
    }
  }

  method AppendToolResults(msgs: seq<Message>, content: seq<Block>) returns (r: seq<Message>)
    ensures r == msgs + ToolMessages(content)
  {
    r := msgs;
    for i := 0 to |content|
      invariant r == msgs + ToolMessages(content[..i])
    {
      assert content[..i + 1][..i] == content[..i];
      if content[i].ToolResult? {
        r := r + [ToolMessage(content[i].toolUseId, content[i].text)];
      }
    }
    assert content[..|content|] == content;
  }

  method AssistantFromAnthropic(content: seq<Block>) returns (m: Message)
    ensures m == AssistantMessage(content)
  {
    var textParts: seq<string> := [];
    var toolCalls: seq<ToolCall> := [];
    for i := 0 to |content|
      invariant textParts == TextParts(content[..i])
      invariant toolCalls == ToolCallsOf(content[..i])
    {
      assert content[..i + 1][..i] == content[..i];
      var b := content[i];
      if b.ToolUse? {
        toolCalls := toolCalls + [ToolCall(b.id, b.name, Wellformed(b.input))];
      } else if b.TextBlock? && b.text != "" {
        textParts := textParts + [b.text];
      }
    }
    assert content[..|content|] == content;
    m := Message(Assistant, Absent, "", []);
    var t := JoinLines(textParts);
    if t != "" {
      m := m.(content := Str(t));
    }
    if |toolCalls| > 0 {
      m := m.(toolCalls := toolCalls);
    }
  }

  method AppendTurn(msgs: seq<Message>, t: Turn) returns (r: seq<Message>)
    ensures r == msgs + ParseTurn(t)
  {
    r := msgs;
    if t.content.None? {
      return;
    }
    if t.role == Assistant {
      var m := AssistantFromAnthropic(t.content.value);
      r := r + [m];
    } else if t.role == Tool {
      r := AppendToolResults(msgs, t.content.value);
    } else {
      r := AppendUserFromAnthropic(msgs, t.content.value);
    }
  }

  method AppendTurns(msgs: seq<Message>, turns: seq<Turn>) returns (r: seq<Message>)
    ensures r == msgs + ParseTurns(turns)
  {
    hide ParseTurn;
    r := msgs;
    for i := 0 to |turns|
      invariant r == msgs + ParseTurns(turns[..i])
    {
      assert turns[..i + 1][..i] == turns[..i];
      r := AppendTurn(r, turns[i]);
    }
    assert turns[..|turns|] == turns;
  }

  /** pkg/adapter/anthropic.go, the message part of ParseAnthropicRequest. */
  method ParseRequest(e: Encoded) returns (messages: seq<Message>)
    ensures messages == Parse(e)
  {
    messages := [];
    if e.system != "" {
      messages := messages + [SystemMessage(e.system)];
    }
    messages := AppendTurns(messages, e.turns);
  }
}
