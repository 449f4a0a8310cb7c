/** When a second trip through the Anthropic format changes nothing, read off the messages themselves. */
module Idempotence {
  import opened Common
  import opened Conversation
  import opened NormalForm

  /** An assistant message with something to send: text, or a call with an id or a name. */
  predicate Speaks(m: Message) {
    m.role == Assistant
    && (FlattenText(m.content) != "" || exists tc :: tc in m.toolCalls && !(tc.name == "" && tc.id == ""))
  }

  /** A message that leaves no block: a system message, or an assistant one with nothing to send. */
  predicate Skipped(m: Message) {
    IsSystem(m) || (m.role == Assistant && !Speaks(m))
  }

  /** Messages the encoder sends as user text. */
  predicate IsUserText(m: Message) {
    !IsSystem(m) && m.role != Tool && m.role != Assistant
  }

  predicate BlankUser(m: Message) {
    IsUserText(m) && FlattenText(m.content) == ""
  }

  /** From i to k, both excluded: only messages that leave no block and blank user texts, at least one of these. */
  ghost predicate OnlyBlanks(ms: seq<Message>, i: int, k: int)
    requires 0 <= i < k <= |ms|
  {
    && (forall j :: i < j < k ==> Skipped(ms[j]) || BlankUser(ms[j]))
    && (exists j :: i < j < k && BlankUser(ms[j]))
  }

  /** Two assistant messages with nothing but blank user texts between them. */
  ghost predicate BlankBetween(ms: seq<Message>) {
    exists i, k :: 0 <= i < k < |ms| && OnlyBlanks(ms, i, k) && Speaks(ms[i]) && Speaks(ms[k])
  }

  /** The last message with blocks is an assistant's. */
  ghost predicate EndsAssistant(ms: seq<Message>) {
    exists i :: 0 <= i < |ms| && Speaks(ms[i]) && forall j :: i < j < |ms| ==> Skipped(ms[j])
  }

  /** Since the last assistant's message only blank user texts have come. */
  ghost predicate EndsBlank(ms: seq<Message>) {
    exists i :: 0 <= i < |ms| && OnlyBlanks(ms, i, |ms|) && Speaks(ms[i])
  }

  lemma {:induction false} CallsLeaveBlocks(calls: seq<ToolCall>)
    ensures CallBlocks(calls) != [] <==> exists tc :: tc in calls && !(tc.name == "" && tc.id == "")
  {
    if calls != [] {
      var init, tc := calls[..|calls| - 1], calls[|calls| - 1];
      CallsLeaveBlocks(init);
      assert calls == init + [tc];
    }
  }

  lemma BlocksLeft(m: Message)
    ensures BlocksOf(m) == [] <==> Skipped(m)
    ensures m.role == Assistant && BlocksOf(m) != [] <==> Speaks(m)
  {
    CallsLeaveBlocks(m.toolCalls);
  }

  // ----- One more message -----

  lemma EndsAssistantNext(ms: seq<Message>, m: Message)
    ensures EndsAssistant(ms + [m]) <==> Speaks(m) || (Skipped(m) && EndsAssistant(ms))
  {
    hide Speaks, Skipped;
    var all, n := ms + [m], |ms|;
    if EndsAssistant(all) && !Speaks(m) {
      var i :| 0 <= i < |all| && Speaks(all[i]) && forall j :: i < j < |all| ==> Skipped(all[j]);
      assert all[n] == m && all[i] == ms[i];
      assert forall j :: i < j < n ==> all[j] == ms[j];
    }
    if Skipped(m) && EndsAssistant(ms) {
      var i :| 0 <= i < |ms| && Speaks(ms[i]) && forall j :: i < j < |ms| ==> Skipped(ms[j]);
      assert Speaks(all[i]);
    }
    if Speaks(m) {
      assert Speaks(all[n]);
    }
  }

  lemma BlanksShared(ms: seq<Message>, m: Message, i: int, k: int)
    requires 0 <= i < k <= |ms|
    ensures OnlyBlanks(ms + [m], i, k) <==> OnlyBlanks(ms, i, k)
  {
    hide Skipped, BlankUser;
    var all := ms + [m];
    assert forall j :: i < j < k && 0 <= i ==> all[j] == ms[j];
    if OnlyBlanks(ms, i, k) {
      var j :| i < j < k && BlankUser(ms[j]);
      assert BlankUser(all[j]);
    }
  }

  lemma OneMoreBlank(ms: seq<Message>, m: Message, i: int)
    requires 0 <= i < |ms|
    ensures OnlyBlanks(ms + [m], i, |ms| + 1) <==>
            || (Skipped(m) && OnlyBlanks(ms, i, |ms|))
            || (BlankUser(m) && forall j :: i < j < |ms| ==> Skipped(ms[j]) || BlankUser(ms[j]))
    ensures BlankUser(m) && OnlyBlanks(ms, i, |ms|) ==> OnlyBlanks(ms + [m], i, |ms| + 1)
  {
    hide Speaks, Skipped, BlankUser;
    DisjointKinds(m);
    var all, n := ms + [m], |ms|;
    assert all[n] == m && forall j :: i < j < n ==> all[j] == ms[j];
    if OnlyBlanks(all, i, n + 1) && !BlankUser(m) {
      var j :| i < j < n + 1 && BlankUser(all[j]);
      assert BlankUser(ms[j]);
    }
    if Skipped(m) && OnlyBlanks(ms, i, n) {
      var j :| i < j < n && BlankUser(ms[j]);
      assert BlankUser(all[j]);
    }
    if BlankUser(m) {
      assert BlankUser(all[n]);
    }
  }

  lemma DisjointKinds(m: Message)
    ensures !(Skipped(m) && BlankUser(m)) && !(Speaks(m) && Skipped(m)) && !(Speaks(m) && BlankUser(m))
  {
  }

  /** From an assistant's message on, blank texts and skipped messages either include a blank text or they do not. */
  lemma EndsBlankNext(ms: seq<Message>, m: Message)
    ensures EndsBlank(ms + [m]) <==>
            (Skipped(m) && EndsBlank(ms)) || (BlankUser(m) && (EndsBlank(ms) || EndsAssistant(ms)))
  {
    hide Speaks, Skipped, BlankUser, OnlyBlanks;
    var all, n := ms + [m], |ms|;
    DisjointKinds(m);
    if EndsBlank(all) {
      var i :| 0 <= i < n + 1 && OnlyBlanks(all, i, n + 1) && Speaks(all[i]);
      SpeakerIsOlder(ms, m, i);
      OneMoreBlank(ms, m, i);
      if BlankUser(m) {
        BlankOrNone(ms, i);
      }
    }
    if (Skipped(m) || BlankUser(m)) && EndsBlank(ms) {
      var i :| 0 <= i < n && OnlyBlanks(ms, i, n) && Speaks(ms[i]);
      OneMoreBlank(ms, m, i);
      assert |all| == n + 1 && all[i] == ms[i];
      assert OnlyBlanks(all, i, n + 1) && Speaks(all[i]);
    }
    if BlankUser(m) && EndsAssistant(ms) {
      var i :| 0 <= i < |ms| && Speaks(ms[i]) && forall j :: i < j < |ms| ==> Skipped(ms[j]);
      OneMoreBlank(ms, m, i);
      assert |all| == n + 1 && all[i] == ms[i];
      assert OnlyBlanks(all, i, n + 1) && Speaks(all[i]);
    }
  }

  lemma SpeakerIsOlder(ms: seq<Message>, m: Message, i: int)
    requires 0 <= i <= |ms| && OnlyBlanks(ms + [m], i, |ms| + 1)
    ensures 0 <= i < |ms| && (ms + [m])[i] == ms[i]
  {
  }

  lemma BlankOrNone(ms: seq<Message>, i: int)
    requires 0 <= i < |ms| && Speaks(ms[i]) && forall j :: i < j < |ms| ==> Skipped(ms[j]) || BlankUser(ms[j])
    ensures EndsBlank(ms) || EndsAssistant(ms)
  {
    hide Speaks, Skipped, BlankUser;
    if exists j :: i < j < |ms| && BlankUser(ms[j]) {
      assert OnlyBlanks(ms, i, |ms|);
    }
  }

  lemma BetweenNext(ms: seq<Message>, m: Message)
    ensures BlankBetween(ms + [m]) <==> BlankBetween(ms) || (Speaks(m) && EndsBlank(ms))
  {
    hide Speaks, Skipped, BlankUser, OnlyBlanks;
    var all, n := ms + [m], |ms|;
    if BlankBetween(all) {
      var i, k :| 0 <= i < k < |all| && OnlyBlanks(all, i, k) && Speaks(all[i]) && Speaks(all[k]);
      BlanksShared(ms, m, i, k);
      assert all[i] == ms[i];
    }
    if BlankBetween(ms) {
      var i, k :| 0 <= i < k < |ms| && OnlyBlanks(ms, i, k) && Speaks(ms[i]) && Speaks(ms[k]);
      BlanksShared(ms, m, i, k);
      assert all[i] == ms[i] && all[k] == ms[k];
    }
    if Speaks(m) && EndsBlank(ms) {
      var i :| 0 <= i < n && OnlyBlanks(ms, i, n) && Speaks(ms[i]);
      BlanksShared(ms, m, i, n);
      assert all[i] == ms[i] && all[n] == m;
    }
  }

  // ----- The encoded turns -----

  /** The last of two or more turns is a silent user turn. */
  predicate LastSilent(ts: seq<Turn>) {
    |ts| > 1 && Silent(ts[|ts| - 1])
  }

  predicate LastAssistant(ts: seq<Turn>) {
    ts != [] && ts[|ts| - 1].role == Assistant
  }

  lemma PushBlocksTurn(ts: seq<Turn>, m: Message)
    requires Alternating(ts) && !Skipped(m)
    ensures var ts' := Push(ts, SideOf(m), BlocksOf(m));
            && LastAssistant(ts') == Speaks(m)
            && (LastSilent(ts') <==> BlankUser(m) && (LastSilent(ts) || LastAssistant(ts)))
            && (SilentInside(ts') <==> SilentInside(ts) || (Speaks(m) && LastSilent(ts)))
  {
    hide Skipped, Speaks, AssistantBlocks;
    BlocksLeft(m);
    var ts', n := Push(ts, SideOf(m), BlocksOf(m)), |ts|;
    SideKinds(m);
    if n > 0 && ts[n - 1].role == SideOf(m) && ts[n - 1].content.Some? {
      MergedInside(ts, ts');
      if !Speaks(m) {
        MergedSilent(ts[n - 1].content.value, m);
      }
    } else {
      assert ts' == ts + [Turn(SideOf(m), Some(BlocksOf(m)))];
      AddedInside(ts, ts'[n]);
      if !Speaks(m) {
        MergedSilent([], m);
      }
      assert [] + BlocksOf(m) == BlocksOf(m);
      LastHasContent(ts);
    }
  }

  lemma SideKinds(m: Message)
    requires !Skipped(m)
    ensures SideOf(m) == (if Speaks(m) then Assistant else User) && (BlankUser(m) ==> !Speaks(m))
  {
  }

  lemma LastHasContent(ts: seq<Turn>)
    requires Alternating(ts)
    ensures ts != [] ==> ts[|ts| - 1].content.Some? && (ts[|ts| - 1].role == User || ts[|ts| - 1].role == Assistant)
  {
  }

  lemma MergedSilent(blocks: seq<Block>, m: Message)
    requires !Skipped(m) && !Speaks(m)
    ensures Silent(Turn(User, Some(blocks + BlocksOf(m)))) <==> Silent(Turn(User, Some(blocks))) && BlankUser(m)
  {
  }

  lemma MergedInside(ts: seq<Turn>, ts': seq<Turn>)
    requires |ts| == |ts'| > 0 && ts[..|ts| - 1] == ts'[..|ts| - 1]
    ensures SilentInside(ts') <==> SilentInside(ts)
  {
    hide Silent;
    forall i | 0 < i < |ts| - 1 ensures ts[i] == ts'[i] {
      assert ts[i] == ts[..|ts| - 1][i];
    }
  }

  lemma AddedInside(ts: seq<Turn>, t: Turn)
    ensures SilentInside(ts + [t]) <==> SilentInside(ts) || LastSilent(ts)
  {
    hide Silent;
    var all := ts + [t];
    if SilentInside(ts) {
      var i :| 0 < i < |ts| - 1 && Silent(ts[i]);
      assert Silent(all[i]);
    }
    if LastSilent(ts) {
      assert Silent(all[|ts| - 1]);
    }
    if SilentInside(all) {
      var i :| 0 < i < |all| - 1 && Silent(all[i]);
      assert all[i] == ts[i];
    }
  }

  /** The encoded turns have a silent user turn inside exactly when the messages have only blanks between two speakers. */
  lemma {:induction false} SilentIffBlank(ms: seq<Message>)
    ensures var ts := TurnsOf(ms);
            && (LastAssistant(ts) <==> EndsAssistant(ms)) && (LastSilent(ts) <==> EndsBlank(ms))
            && (SilentInside(ts) <==> BlankBetween(ms))
  {
    if ms == [] {
    } else {
      hide Speaks, Skipped, BlankUser, EndsAssistant, EndsBlank, BlankBetween;
      hide LastAssistant, LastSilent, SilentInside, Alternating;
      var init, m := ms[..|ms| - 1], ms[|ms| - 1];
      assert ms == init + [m];
      SilentIffBlank(init);
      EncodedAlternates(init);
      EndsAssistantNext(init, m);
      EndsBlankNext(init, m);
      BetweenNext(init, m);
      DisjointKinds(m);
      BlocksLeft(m);
      if !Skipped(m) {
        PushBlocksTurn(TurnsOf(init), m);
      }
    }
  }

  /**
    * A second trip through the Anthropic format changes nothing exactly when no two assistant messages with
    * something to send have between them only blank user texts, at least one, and messages that leave no block.
    */
  lemma IdempotentIff(ms: seq<Message>)
    ensures Round(Round(ms)) == Round(ms) <==> !BlankBetween(ms)
  {
    hide Round, BlankBetween, SilentInside;
    SilentIffBlank(ms);
    IdempotentIffNotSilent(ms);
  }

  /** So a second trip changes nothing when every message sent as user text has text. */
  lemma IdempotentWhenUsersSpeak(ms: seq<Message>)
    requires forall i :: 0 <= i < |ms| && IsUserText(ms[i]) ==> FlattenText(ms[i].content) != ""
    ensures Round(Round(ms)) == Round(ms)
  {
    hide Round, Speaks, Skipped;
    IdempotentIff(ms);
  }

  /** A blank user message between two assistant messages with text: the second trip merges those. */
  lemma BlankUserIsNotIdempotent(a: string, b: string)
    requires a != "" && b != ""
    ensures var ms := [Said(Assistant, a), Said(User, ""), Said(Assistant, b)];
            Round(Round(ms)) != Round(ms)
  {
    hide Round;
    var ms := [Said(Assistant, a), Said(User, ""), Said(Assistant, b)];
    assert BlankUser(ms[1]);
    assert OnlyBlanks(ms, 0, 2) && Speaks(ms[0]) && Speaks(ms[2]);
    IdempotentIff(ms);
  }

  function Said(role: Role, text: string): Message {
    Message(role, Str(text), "", [])
  }
}
