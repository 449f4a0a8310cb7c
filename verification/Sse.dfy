/** Server-sent event frames as the MCP relay writes and reads them (pkg/mcp/sse.go). */
module Sse {
  import opened Common

  const LF: Byte := 10
  const CR: Byte := 13
  const SPACE: Byte := 32
  const COLON: Byte := 58

  /** "data:" */
  const DATA: Text := [100, 97, 116, 97, 58]

  /** "event: message" */
  const EVENT: Text := [101, 118, 101, 110, 116, 58, 32, 109, 101, 115, 115, 97, 103, 101]

  // ----- Writing -----

  function Frame(payload: Text): Text {
    EVENT + [LF] + DATA + [SPACE] + payload + [LF, LF]
  }

  /** Where frames go; it takes `room` more writes and fails from then on. */
  class Writer {
    var out: Text
    var room: nat

    constructor (room: nat)
      ensures out == [] && this.room == room
    {
      out, this.room := [], room;
    }

    method Write(p: Text) returns (ok: bool)
      modifies this
      ensures ok == (old(room) > 0)
      ensures out == old(out) + (if ok then p else []) && room == old(room) - (if ok then 1 else 0)
    {
      if room == 0 {
        return false;
      }
      out, room := out + p, room - 1;
      return true;
    }
  }

  method WriteSSEMessage(w: Writer, payload: Text) returns (ok: bool)
    modifies w
    ensures ok == (old(w.room) >= 3)
    ensures old(w.out) <= w.out <= old(w.out) + Frame(payload)
    ensures ok ==> w.out == old(w.out) + Frame(payload)
  {
    ok := w.Write(EVENT + [LF] + DATA + [SPACE]);
    if !ok {
      return;
    }
    ok := w.Write(payload);
    if !ok {
      return;
    }
    ok := w.Write([LF, LF]);
  }

  // ----- Reading -----

  /** What a read finds after the last byte. */
  datatype Ending = Eof | Broken

  /** The bytes up to and with the first line feed, or all of them. */
  function LineLength(s: Text): (n: nat)
    ensures n <= |s| && (s != [] ==> n > 0)
  {
    if s == [] then 0 else if s[0] == LF then 1 else 1 + LineLength(s[1..])
  }

  function TrimSuffix(s: Text, b: Byte): Text {
    if s != [] && s[|s| - 1] == b then s[..|s| - 1] else s
  }

  function TrimCRLF(line: Text): Text {
    TrimSuffix(TrimSuffix(line, LF), CR)
  }

  function TrimField(line: Text): Text
    requires DATA <= line
  {
    var value := line[|DATA|..];
    if value != [] && value[0] == SPACE then value[1..] else value
  }

  /** The data after one more line. */
  function Gather(data: Text, line: Text): Text {
    if DATA <= line then data + (if |data| > 0 then [LF] else []) + TrimField(line) else data
  }

  datatype Read = Message(payload: Text, rest: Text) | Done | Failed

  /** The next message of the remaining bytes, given the data of the event so far. */
  function Next(s: Text, data: Text, ending: Ending): (r: Read)
    ensures r.Message? ==> |r.rest| < |s|
    decreases |s|
  {
    if s == [] then if ending.Eof? then Done else Failed
    else
      var line, rest := TrimCRLF(s[..LineLength(s)]), s[LineLength(s)..];
      if line != [] then Next(rest, Gather(data, line), ending)
      else if |data| > 0 then Message(data, rest)
      else Next(rest, data, ending)
  }

  /** A buffered reader over bytes that end in a certain way. */
  class Reader {
    var rest: Text
    const ending: Ending

    constructor (bytes: Text, ending: Ending)
      ensures rest == bytes && this.ending == ending
    {
      rest, this.ending := bytes, ending;
    }

    /** Reads through the next line feed; without one, all that is left together with the ending. */
    method ReadLine() returns (line: Text, stop: Option<Ending>)
      modifies this
      ensures line == old(rest)[..LineLength(old(rest))] && rest == old(rest)[LineLength(old(rest))..]
      ensures stop == (if line != [] && line[|line| - 1] == LF then None else Some(ending))
    {
      var n := 0;
      while n < |rest| && rest[n] != LF
        invariant 0 <= n <= |rest| && LineLength(rest) == n + LineLength(rest[n..]) && LF !in rest[..n]
      {
        assert rest[n..][1..] == rest[n + 1..];
        n := n + 1;
      }
      if n < |rest| {
        line, rest := rest[..n + 1], rest[n + 1..];
        return line, None;
      }
      line, rest := rest, [];
      stop := Some(ending);
    }
  }

  method NextSSEMessage(r: Reader) returns (payload: Text, more: bool, error: bool)
    modifies r
    ensures match Next(old(r.rest), [], r.ending)
            case Message(m, rest) => payload == m && more && !error && r.rest == rest
            case Done => !more && !error && r.rest == []
            case Failed => !more && error && r.rest == []
  {
    var data: Text := [];
    while true
      invariant Next(r.rest, data, r.ending) == Next(old(r.rest), [], r.ending)
      decreases |r.rest|
    {
      var line, stop := r.ReadLine();
      if |line| == 0 && stop.Some? {
        return [], false, stop == Some(Broken);
      }
      line := TrimCRLF(line);
      if line == [] {
        if |data| > 0 {
          return data, true, false;
        }
      } else if line[0] == COLON {
      } else if DATA <= line {
        var value := TrimField(line);
        if |data| > 0 {
          data := data + [LF];
        }
        data := data + value;
      }
    }
  }

  /** All messages up to the end, and whether that end was clean. */
  function ReadAll(s: Text, ending: Ending): (seq<Text>, bool)
    decreases |s|
  {
    match Next(s, [], ending)
    case Message(m, rest) => var (more, clean) := ReadAll(rest, ending); ([m] + more, clean)
    case Done => ([], true)
    case Failed => ([], false)
  }

  // ----- Lines -----

  lemma {:induction false} FirstLine(line: Text, rest: Text)
    requires LF !in line
    ensures LineLength(line + [LF] + rest) == |line| + 1
  {
    if line == [] {
      assert (line + [LF] + rest)[0] == LF;
    } else {
      assert (line + [LF] + rest)[1..] == line[1..] + [LF] + rest;
      FirstLine(line[1..], rest);
    }
  }

  /** Reading one line that is there. */
  lemma NextLine(line: Text, rest: Text, data: Text, ending: Ending)
    requires LF !in line
    ensures var trimmed := TrimSuffix(line, CR);
            Next(line + [LF] + rest, data, ending)
            == (if trimmed != [] then Next(rest, Gather(data, trimmed), ending)
                else if |data| > 0 then Message(data, rest)
                else Next(rest, data, ending))
  {
    hide Gather;
    var s := line + [LF] + rest;
    FirstLine(line, rest);
    assert s[..|line| + 1] == line + [LF] && s[|line| + 1..] == rest;
    assert TrimSuffix(line + [LF], LF) == line;
  }

  // ----- Round trip -----

  /** What the writer's framing can carry. */
  predicate Carried(p: Text) {
    p != [] && LF !in p && p[|p| - 1] != CR
  }

  /** A line between frames: a comment, another field or an empty line. */
  predicate Noise(line: Text) {
    LF !in line && !(DATA <= line)
  }

  function Lines(ls: seq<Text>): Text {
    if ls == [] then [] else ls[0] + [LF] + Lines(ls[1..])
  }

  lemma TrimmedNoise(line: Text)
    ensures DATA <= TrimSuffix(line, CR) ==> DATA <= line
  {
  }

  lemma {:induction false} NoiseIsSkipped(ls: seq<Text>, rest: Text, ending: Ending)
    requires forall l :: l in ls ==> Noise(l)
    ensures Next(Lines(ls) + rest, [], ending) == Next(rest, [], ending)
  {
    if ls == [] {
      assert Lines(ls) + rest == rest;
    } else {
      var line := ls[0];
      assert line in ls;
      TrimmedNoise(line);
      assert Lines(ls) + rest == line + [LF] + (Lines(ls[1..]) + rest);
      NextLine(line, Lines(ls[1..]) + rest, [], ending);
      NoiseIsSkipped(ls[1..], rest, ending);
    }
  }

  lemma FrameIsRead(p: Text, rest: Text, ending: Ending)
    requires Carried(p)
    ensures Next(Frame(p) + rest, [], ending) == Message(p, rest)
  {
    hide Next, LineLength;
    var line := DATA + [SPACE] + p;
    assert Frame(p) == EVENT + [LF] + (line + [LF] + [LF]);
    assert Frame(p) + rest == EVENT + [LF] + (line + [LF] + ([] + [LF] + rest));
    NextLine(EVENT, line + [LF] + ([] + [LF] + rest), [], ending);
    assert LF !in EVENT && EVENT[0] != DATA[0];
    assert line[|line| - 1] == p[|p| - 1] && LF !in line;
    NextLine(line, [] + [LF] + rest, [], ending);
    assert line[..|DATA|] == DATA && line[|DATA|..] == [SPACE] + p && TrimField(line) == p;
    assert Gather([], line) == p;
    NextLine([], rest, p, ending);
  }

  /** The frames of the payloads, each after some noise. */
  function Stream(ps: seq<Text>, noise: seq<seq<Text>>): Text
    requires |noise| == |ps|
  {
    if ps == [] then [] else Lines(noise[0]) + Frame(ps[0]) + Stream(ps[1..], noise[1..])
  }

  /** Whatever the writer frames is read back exactly, and then the stream ends as it does. */
  lemma {:induction false} FramesRoundTrip(ps: seq<Text>, noise: seq<seq<Text>>, tail: seq<Text>, ending: Ending)
    requires |noise| == |ps| && forall p :: p in ps ==> Carried(p)
    requires forall ls, l :: ls in noise && l in ls ==> Noise(l)
    requires forall l :: l in tail ==> Noise(l)
    ensures ReadAll(Stream(ps, noise) + Lines(tail), ending) == (ps, ending.Eof?)
  {
    hide Next, Frame, Lines, Noise;
    if ps == [] {
      assert Stream(ps, noise) + Lines(tail) == Lines(tail) + [] == Lines(tail);
      NoiseIsSkipped(tail, [], ending);
      NothingLeft(ending);
      assert ReadAll(Lines(tail), ending) == ([], ending.Eof?);
    } else {
      var rest := Stream(ps[1..], noise[1..]) + Lines(tail);
      assert Stream(ps, noise) + Lines(tail) == Lines(noise[0]) + (Frame(ps[0]) + rest);
      assert noise[0] in noise;
      NoiseIsSkipped(noise[0], Frame(ps[0]) + rest, ending);
      FrameIsRead(ps[0], rest, ending);
      FramesRoundTrip(ps[1..], noise[1..], tail, ending);
      assert ps == [ps[0]] + ps[1..];
    }
  }

  lemma NothingLeft(ending: Ending)
    ensures Next([], [], ending) == (if ending.Eof? then Done else Failed)
  {
  }

  // ----- What the framing cannot carry -----

  /** All messages, continuing an event with the data gathered so far. */
  function Drain(s: Text, data: Text, ending: Ending): seq<Text> {
    var r := Next(s, data, ending);
    if r.Message? then [r.payload] + ReadAll(r.rest, ending).0 else []
  }

  function Total(ms: seq<Text>): nat {
    if ms == [] then 0 else |ms[0]| + Total(ms[1..])
  }

  lemma DrainIsReadAll(s: Text, ending: Ending)
    ensures Drain(s, [], ending) == ReadAll(s, ending).0
  {
  }

  /** A line with text goes to the data; an empty line hands the data out and starts afresh. */
  lemma DrainLine(line: Text, rest: Text, data: Text, ending: Ending)
    requires LF !in line
    ensures var trimmed := TrimSuffix(line, CR);
            Total(Drain(line + [LF] + rest, data, ending))
            == (if trimmed != [] then Total(Drain(rest, Gather(data, trimmed), ending))
                else |data| + Total(Drain(rest, [], ending)))
  {
    hide Next, Gather;
    NextLine(line, rest, data, ending);
    DrainIsReadAll(rest, ending);
    assert data == [] || ([data] + ReadAll(rest, ending).0)[1..] == ReadAll(rest, ending).0;
  }

  lemma GatherAdds(data: Text, line: Text)
    ensures |Gather(data, TrimSuffix(line, CR))| <= |data| + |line|
  {
  }

  lemma LineSplits(q: Text) returns (line: Text, more: Text)
    requires LF in q
    ensures q == line + [LF] + more && LF !in line
  {
    if q[0] == LF {
      line, more := [], q[1..];
    } else {
      line, more := LineSplits(q[1..]);
      line := [q[0]] + line;
    }
  }

  /** However a text is cut by line feeds, no more comes out of it than its bytes. */
  lemma {:induction false} TailShrinks(q: Text, data: Text, rest: Text, ending: Ending)
    ensures Total(Drain(q + [LF] + ([LF] + rest), data, ending)) <= |data| + |q| + Total(Drain(rest, [], ending))
    decreases |q|
  {
    hide Drain, Total, Gather, Next;
    if LF in q {
      var line, more := LineSplits(q);
      var after := more + [LF] + ([LF] + rest);
      assert q + [LF] + ([LF] + rest) == line + [LF] + after;
      DrainLine(line, after, data, ending);
      GatherAdds(data, line);
      TailShrinks(more, Gather(data, TrimSuffix(line, CR)), rest, ending);
      TailShrinks(more, [], rest, ending);
    } else {
      DrainLine(q, [LF] + rest, data, ending);
      GatherAdds(data, q);
      assert [LF] + rest == [] + [LF] + rest;
      DrainLine([], rest, Gather(data, TrimSuffix(q, CR)), ending);
      DrainLine([], rest, [], ending);
    }
  }

  /** A frame gives back no more than its payload, and less of one it cannot carry. */
  lemma FrameShrinks(p: Text, rest: Text, ending: Ending)
    ensures Total(Drain(Frame(p) + rest, [], ending))
            <= |p| + Total(Drain(rest, [], ending)) - (if p != [] && !Carried(p) then 1 else 0)
  {
    hide Drain, Total, Next;
    var body := DATA + [SPACE] + p;
    assert Frame(p) + rest == EVENT + [LF] + (body + [LF] + ([LF] + rest));
    assert LF !in EVENT && EVENT[0] != DATA[0];
    DrainLine(EVENT, body + [LF] + ([LF] + rest), [], ending);
    if LF in p {
      var line, more := LineSplits(p);
      var after := more + [LF] + ([LF] + rest);
      assert body + [LF] + ([LF] + rest) == DATA + [SPACE] + line + [LF] + after;
      DrainLine(DATA + [SPACE] + line, after, [], ending);
      DataLine(line);
      TailShrinks(more, Gather([], TrimSuffix(DATA + [SPACE] + line, CR)), rest, ending);
    } else {
      DrainLine(body, [LF] + rest, [], ending);
      DataLine(p);
      assert [LF] + rest == [] + [LF] + rest;
      DrainLine([], rest, Gather([], TrimSuffix(body, CR)), ending);
    }
  }

  lemma DataLine(value: Text)
    requires LF !in value
    ensures var line := DATA + [SPACE] + value;
            LF !in line && TrimSuffix(line, CR) != [] && Gather([], TrimSuffix(line, CR)) == TrimSuffix(value, CR)
  {
    var line := DATA + [SPACE] + value;
    assert line[..|DATA|] == DATA && line[|DATA|..] == [SPACE] + value;
    if value != [] && value[|value| - 1] == CR {
      assert TrimSuffix(line, CR) == DATA + [SPACE] + TrimSuffix(value, CR);
    }
  }

  lemma {:induction false} StreamShrinks(ps: seq<Text>, noise: seq<seq<Text>>, tail: seq<Text>, ending: Ending)
    requires |noise| == |ps|
    requires forall ls, l :: ls in noise && l in ls ==> Noise(l)
    requires forall l :: l in tail ==> Noise(l)
    ensures var read := Total(Drain(Stream(ps, noise) + Lines(tail), [], ending));
            read <= Total(ps) && ((exists p :: p in ps && p != [] && !Carried(p)) ==> read < Total(ps))
  {
    hide Next, Frame, Lines, Noise, Carried;
    if ps == [] {
      assert Stream(ps, noise) + Lines(tail) == Lines(tail) + [];
      NoiseIsSkipped(tail, [], ending);
      NothingLeft(ending);
    } else {
      var rest := Stream(ps[1..], noise[1..]) + Lines(tail);
      assert Stream(ps, noise) + Lines(tail) == Lines(noise[0]) + (Frame(ps[0]) + rest);
      assert noise[0] in noise;
      NoiseIsSkipped(noise[0], Frame(ps[0]) + rest, ending);
      FrameShrinks(ps[0], rest, ending);
      StreamShrinks(ps[1..], noise[1..], tail, ending);
      assert forall p :: p in ps ==> p == ps[0] || p in ps[1..];
    }
  }

  /** Messages are never empty. */
  lemma {:induction false} MessagesAreNotEmpty(s: Text, ending: Ending)
    ensures [] !in ReadAll(s, ending).0
    decreases |s|
  {
    hide Next;
    var r := Next(s, [], ending);
    if r.Message? {
      MessageIsNotEmpty(s, [], ending);
      MessagesAreNotEmpty(r.rest, ending);
    }
  }

  lemma {:induction false} MessageIsNotEmpty(s: Text, data: Text, ending: Ending)
    ensures var r := Next(s, data, ending); r.Message? ==> r.payload != []
    decreases |s|
  {
    hide Gather, TrimCRLF, LineLength;
    if s != [] {
      var line, rest := TrimCRLF(s[..LineLength(s)]), s[LineLength(s)..];
      MessageIsNotEmpty(rest, if line != [] then Gather(data, line) else data, ending);
    }
  }

  /**
    * The frames of a list of payloads, with noise between them, are read back as that list exactly when no
    * payload is empty, contains a line feed or ends in a carriage return.
    */
  lemma RoundTripIff(ps: seq<Text>, noise: seq<seq<Text>>, tail: seq<Text>, ending: Ending)
    requires |noise| == |ps|
    requires forall ls, l :: ls in noise && l in ls ==> Noise(l)
    requires forall l :: l in tail ==> Noise(l)
    ensures ReadAll(Stream(ps, noise) + Lines(tail), ending) == (ps, ending.Eof?) <==> forall p :: p in ps ==> Carried(p)
  {
    hide Next, Stream, Lines, Noise, ReadAll, Drain;
    var s := Stream(ps, noise) + Lines(tail);
    if forall p :: p in ps ==> Carried(p) {
      FramesRoundTrip(ps, noise, tail, ending);
    } else {
      StreamShrinks(ps, noise, tail, ending);
      DrainIsReadAll(s, ending);
      MessagesAreNotEmpty(s, ending);
    }
  }
}
