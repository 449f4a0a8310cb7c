/** Events of several data lines, and what a line may look like (section 9.2.6 of the WHATWG HTML Living Standard). */
module SseLines {
  import opened Common
  import opened Sse

  /** How a data line is written: with or without a space after the colon, ended by LF or by CR LF. */
  datatype Line = Line(value: Text, spaced: bool, crlf: bool)

  /** The value shows as it is. */
  predicate Plain(l: Line) {
    && 10 !in l.value && (l.value != [] && !l.crlf ==> l.value[|l.value| - 1] != 13)
    && (!l.spaced && l.value != [] ==> l.value[0] != 32)
  }

  /** "data:", perhaps a space, the value, perhaps a CR. */
  function Body(l: Line): Text {
    [100, 97, 116, 97, 58] + (if l.spaced then [32] else []) + l.value + (if l.crlf then [13] else [])
  }

  function Written(ls: seq<Line>): Text {
    if ls == [] then [] else Written(ls[..|ls| - 1]) + Body(ls[|ls| - 1]) + [10]
  }

  /** The values on lines of their own; those before the first that is not empty leave none. */
  function Joined(ls: seq<Line>): Text {
    if ls == [] then []
    else
      var before, l := Joined(ls[..|ls| - 1]), ls[|ls| - 1];
      if before == [] then l.value else before + [10] + l.value
  }

  function Rest(l: Line): Text {
    (if l.spaced then [32] else []) + l.value
  }

  lemma BodyTrimmed(l: Line)
    requires Plain(l)
    ensures TrimSuffix(Body(l), CR) == DATA + Rest(l) && 10 !in Body(l)
  {
    var line := DATA + Rest(l);
    assert Body(l) == line + (if l.crlf then [13] else []);
    assert line[|line| - 1] == if l.value != [] then l.value[|l.value| - 1] else if l.spaced then 32 else 58;
    assert 10 !in DATA && 10 !in Rest(l);
  }

  lemma FieldIsValue(l: Line)
    requires Plain(l)
    ensures DATA <= DATA + Rest(l) && TrimField(DATA + Rest(l)) == l.value
  {
    var rest := Rest(l);
    assert (DATA + rest)[..|DATA|] == DATA && (DATA + rest)[|DATA|..] == rest;
    if l.spaced {
      assert rest[0] == 32 && rest[1..] == l.value;
    } else {
      assert rest == l.value;
    }
  }

  lemma LineIsRead(l: Line, data: Text)
    requires Plain(l)
    ensures var line := TrimSuffix(Body(l), CR);
            10 !in Body(l) && line != [] && Gather(data, line) == if data == [] then l.value else data + [10] + l.value
  {
    hide TrimSuffix, Body, Plain, TrimField, Rest;
    BodyTrimmed(l);
    FieldIsValue(l);
  }

  /** Data lines add to the event that is being read. */
  lemma {:induction false} LinesAreGathered(ls: seq<Line>, rest: Text, ending: Ending)
    requires forall l :: l in ls ==> Plain(l)
    ensures Next(Written(ls) + rest, [], ending) == Next(rest, Joined(ls), ending)
  {
    hide Next, Gather, TrimSuffix, Body, Plain;
    if ls == [] {
      assert Written(ls) + rest == rest;
    } else {
      var init, l := ls[..|ls| - 1], ls[|ls| - 1];
      assert l in ls;
      assert Written(ls) + rest == Written(init) + (Body(l) + [LF] + rest);
      LinesAreGathered(init, Body(l) + [LF] + rest, ending);
      LineIsRead(l, Joined(init));
      NextLine(Body(l), rest, Joined(init), ending);
    }
  }

  /** An event of data lines is read as their values joined by line feeds, unless all are empty. */
  lemma DataLinesAreJoined(ls: seq<Line>, rest: Text, ending: Ending)
    requires forall l :: l in ls ==> Plain(l)
    ensures Next(Written(ls) + [10] + rest, [], ending)
         == if Joined(ls) != [] then Message(Joined(ls), rest) else Next(rest, [], ending)
  {
    hide Next, Joined;
    LinesAreGathered(ls, [10] + rest, ending);
    assert Written(ls) + [10] + rest == Written(ls) + ([10] + rest);
    assert [] + [LF] + rest == [10] + rest;
    NextLine([], rest, Joined(ls), ending);
  }

  /** An event that the stream ends in is dropped, whether or not its last line is finished. */
  lemma UnfinishedIsDropped(ls: seq<Line>, partial: Text, ending: Ending)
    requires (forall l :: l in ls ==> Plain(l)) && 10 !in partial && TrimSuffix(partial, 13) != []
    ensures Next(Written(ls), [], ending) == Next(Written(ls) + partial, [], ending)
         == (if ending == Eof then Done else Failed)
  {
    hide Joined, Written, Gather;
    LinesAreGathered(ls, [], ending);
    LinesAreGathered(ls, partial, ending);
    assert Written(ls) + [] == Written(ls);
    LastLine(partial);
    assert partial[|partial|..] == [] && partial[..|partial|] == partial;
  }

  lemma {:induction false} LastLine(s: Text)
    requires 10 !in s
    ensures LineLength(s) == |s|
  {
    if s != [] {
      LastLine(s[1..]);
    }
  }

  /** A line that starts with a colon is a comment, and any other line without "data:" is skipped, within an event too. */
  lemma OtherLinesAreSkipped(line: Text, rest: Text, data: Text, ending: Ending)
    requires 10 !in line && TrimSuffix(line, 13) != [] && !([100, 97, 116, 97, 58] <= line)
    ensures Next(line + [10] + rest, data, ending) == Next(rest, data, ending)
  {
    hide Next;
    NextLine(line, rest, data, ending);
    TrimmedNoise(line);
  }

  /** The bytes of an ASCII text. */
  function Bytes(s: string): Text
    requires forall i :: 0 <= i < |s| ==> s[i] < 128 as char
  {
    seq(|s|, i requires 0 <= i < |s| => s[i] as int)
  }

  /** What is written for a payload. */
  lemma FrameIsText(payload: Text)
    ensures Frame(payload) == Bytes("event: message\ndata: ") + payload + Bytes("\n\n")
  {
    assert Bytes("event: message\ndata: ") == EVENT + [LF] + DATA + [SPACE];
    assert Bytes("\n\n") == [LF, LF];
  }
}
