/** The two streaming vocabularies: OpenAI chunks and Anthropic events, with JSON text abstracted away. */
module StreamTypes {
  import opened Common

  /** `Message.Content` of a delta: absent, a string, or some other JSON value. */
  datatype Content = NoContent | Text(text: string) | NonText

  datatype ToolDelta = ToolDelta(index: int, id: string, name: string, arguments: string)

  datatype Role = NoRole | Assistant | OtherRole(name: string)

  /** An OpenAI finish reason; `Unset` is the empty string. */
  datatype FinishReason = Unset | Stop | Length | ToolCalls | ContentFilter | OtherReason(name: string)

  /** An Anthropic stop reason. */
  datatype StopReason = EndTurn | StopSequence | MaxTokens | ToolUse | Filtered | OtherStop(name: string)

  datatype Choice = Choice(
    role: Role, content: Content, toolCalls: seq<ToolDelta>, finishReason: Option<FinishReason>)

  /** `usage` holds the completion tokens of a chunk that reports usage. */
  datatype Chunk = Chunk(id: string, model: string, choices: seq<Choice>, usage: Option<int>)

  datatype Block = TextBlock(text: string) | ToolUseBlock(id: string, name: string) | OtherBlock

  datatype Delta = TextDelta(text: string) | InputJsonDelta(partialJson: string) | OtherDelta

  datatype Event =
    | MessageStart(id: string, model: string)
    | BlockStart(index: int, block: Block)
    | BlockDelta(index: int, delta: Delta)
    | BlockStop(index: int)
    | MessageDelta(stopReason: Option<StopReason>, outputTokens: int)
    | MessageStop
    | OtherEvent

  /** OpenAI finish reason to Anthropic stop reason. */
  function MapOpenAIToAnthropicStop(reason: FinishReason): StopReason {
    match reason
    case Length => MaxTokens
    case ToolCalls => ToolUse
    case ContentFilter => Filtered
    case _ => EndTurn
  }

  /** Anthropic stop reason to OpenAI finish reason; a missing one stays empty. */
  function MapAnthropicStopReason(reason: Option<StopReason>): FinishReason {
    match reason
    case None => Unset
    case Some(MaxTokens) => Length
    case Some(ToolUse) => ToolCalls
    case Some(EndTurn) => Stop
    case Some(StopSequence) => Stop
    case Some(Filtered) => ContentFilter
    case Some(OtherStop(_)) => Stop
  }

  // ----- What a client makes of a chunk stream -----

  /** One tool call as a client assembles it: the first fragment names it, later ones extend its arguments. */
  datatype Tool = Tool(index: int, id: string, name: string, arguments: string)

  /** The assembled reply. `finish` is the last finish reason that is set. */
  datatype Reply = Reply(text: string, tools: seq<Tool>, finish: FinishReason)

  const EmptyReply := Reply("", [], Unset)

  /** Position of the tool with this index, or |tools| when it has not appeared yet. */
  function Find(tools: seq<Tool>, index: int): (k: nat)
    ensures k <= |tools|
    ensures k < |tools| ==> tools[k].index == index
    ensures forall j :: 0 <= j < k ==> tools[j].index != index
  {
    if tools == [] then 0
    else if tools[0].index == index then 0
    else
      var k := Find(tools[1..], index);
      assert forall j :: 1 <= j < k + 1 ==> tools[j] == tools[1..][j - 1];
      k + 1
  }

  function AddTool(tools: seq<Tool>, t: ToolDelta): seq<Tool> {
    var k := Find(tools, t.index);
    if k < |tools| then tools[k := tools[k].(arguments := tools[k].arguments + t.arguments)]
    else tools + [Tool(t.index, t.id, t.name, t.arguments)]
  }

  function AddTools(tools: seq<Tool>, ts: seq<ToolDelta>): seq<Tool> {
    if ts == [] then tools else AddTool(AddTools(tools, ts[..|ts| - 1]), ts[|ts| - 1])
  }

  function TextOf(c: Content): string {
    if c.Text? then c.text else ""
  }

  function AddChoice(r: Reply, ch: Choice): Reply {
    Reply(
      r.text + TextOf(ch.content),
      AddTools(r.tools, ch.toolCalls),
      if ch.finishReason.Some? && ch.finishReason.value != Unset then ch.finishReason.value else r.finish)
  }

  function AddChoices(r: Reply, chs: seq<Choice>): Reply {
    if chs == [] then r else AddChoice(AddChoices(r, chs[..|chs| - 1]), chs[|chs| - 1])
  }

  /** The reply assembled from a stream of chunks. */
  function Accumulate(chunks: seq<Chunk>): Reply {
    if chunks == [] then EmptyReply
    else AddChoices(Accumulate(chunks[..|chunks| - 1]), chunks[|chunks| - 1].choices)
  }

  lemma {:induction false} AccumulateAppend(a: seq<Chunk>, c: Chunk)
    ensures Accumulate(a + [c]) == AddChoices(Accumulate(a), c.choices)
  {
    assert (a + [c])[..|a|] == a;
  }
}
