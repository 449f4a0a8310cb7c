/** The signed payload of a license (pkg/license/license.go): which licenses share one. */
module License {
  import opened Common

  const COLON: Byte := 58
  const SEMICOLON: Byte := 59
  const COMMA: Byte := 44
  const MINUS: Byte := 45
  const ZERO: Byte := 48

  /** The two times are their texts in UTC. */
  datatype Info = Info(
    licenseKey: Text, productName: Text, customerName: Text, maxNodes: int, maxTenants: int,
    issuedAt: Text, expiresAt: Text, features: seq<Text>, isOffline: bool, machineId: Text)

  // ----- The payload -----

  function Digits(n: nat): Text {
    if n < 10 then [ZERO + n] else Digits(n / 10) + [ZERO + n % 10]
  }

  function Itoa(n: int): Text {
    if n < 0 then [MINUS] + Digits(-n) else Digits(n)
  }

  function Join(fs: seq<Text>): Text {
    if fs == [] then [] else if |fs| == 1 then fs[0] else fs[0] + [COMMA] + Join(fs[1..])
  }

  function FormatBool(b: bool): Text {
    if b then [116, 114, 117, 101] else [102, 97, 108, 115, 101]
  }

  function Fields(i: Info): seq<Text> {
    [i.licenseKey, i.productName, i.customerName, Itoa(i.maxNodes), Itoa(i.maxTenants),
     i.issuedAt, i.expiresAt, Join(i.features), FormatBool(i.isOffline)]
    + (if i.machineId != [] then [i.machineId] else [])
  }

  function Frame(f: Text): Text {
    Digits(|f|) + [COLON] + f + [SEMICOLON]
  }

  function Frames(fs: seq<Text>): Text {
    if fs == [] then [] else Frame(fs[0]) + Frames(fs[1..])
  }

  lemma {:induction false} FramesSnoc(fs: seq<Text>, f: Text)
    ensures Frames(fs + [f]) == Frames(fs) + Frame(f)
  {
    if fs == [] {
      assert fs + [f] == [f] && Frames([f][1..]) == [];
    } else {
      assert (fs + [f])[1..] == fs[1..] + [f];
      FramesSnoc(fs[1..], f);
    }
  }

  method CanonicalPayload(i: Info) returns (buf: Text)
    ensures buf == Frames(Fields(i))
  {
    hide Frame;
    var fields := [i.licenseKey, i.productName, i.customerName, Itoa(i.maxNodes), Itoa(i.maxTenants),
                   i.issuedAt, i.expiresAt, Join(i.features), FormatBool(i.isOffline)];
    if i.machineId != [] {
      fields := fields + [i.machineId];
    }
    assert fields == Fields(i);
    buf := [];
    for n := 0 to |fields|
      invariant buf == Frames(fields[..n])
    {
      FramesSnoc(fields[..n], fields[n]);
      assert fields[..n + 1] == fields[..n] + [fields[n]];
      buf := buf + Frame(fields[n]);
    }
    assert fields[..|fields|] == fields;
  }

  // ----- A decoder of the framing -----

  predicate IsDigit(b: Byte) {
    ZERO <= b < ZERO + 10
  }

  function Value(b: Byte): nat
    requires IsDigit(b)
  {
    b - ZERO
  }

  /** Reads digits up to a colon, continuing from `sofar`. */
  function ReadLength(s: Text, sofar: nat): (r: Option<(nat, Text)>)
    ensures r.Some? ==> |r.value.1| < |s|
  {
    if s == [] then None
    else if s[0] == COLON then Some((sofar, s[1..]))
    else if IsDigit(s[0]) then ReadLength(s[1..], 10 * sofar + Value(s[0]))
    else None
  }

  function Decode(s: Text): Option<seq<Text>>
    decreases |s|
  {
    if s == [] then Some([])
    else
      var read := ReadLength(s, 0);
      if read.None? || |read.value.1| <= read.value.0 || read.value.1[read.value.0] != SEMICOLON then None
      else
        var (n, rest) := read.value;
        var more := Decode(rest[n + 1..]);
        if more.None? then None else Some([rest[..n]] + more.value)
  }

  /** The number a digit text stands for after `sofar`. */
  function Number(ds: Text, sofar: nat): nat
    requires forall b :: b in ds ==> IsDigit(b)
  {
    if ds == [] then sofar else Number(ds[1..], 10 * sofar + Value(ds[0]))
  }

  lemma {:induction false} NumberSnoc(ds: Text, d: Byte, sofar: nat)
    requires IsDigit(d) && forall b :: b in ds ==> IsDigit(b)
    ensures Number(ds + [d], sofar) == 10 * Number(ds, sofar) + Value(d)
  {
    if ds == [] {
      assert Number([d], sofar) == Number([d][1..], 10 * sofar + Value(d));
    } else {
      assert (ds + [d])[1..] == ds[1..] + [d];
      NumberSnoc(ds[1..], d, 10 * sofar + Value(ds[0]));
    }
  }

  lemma {:induction false} DigitsAreNumber(n: nat)
    ensures forall b :: b in Digits(n) ==> IsDigit(b)
    ensures |Digits(n)| > 0 && Number(Digits(n), 0) == n
  {
    if n < 10 {
      assert Number([ZERO + n], 0) == Number([ZERO + n][1..], n);
    } else {
      DigitsAreNumber(n / 10);
      NumberSnoc(Digits(n / 10), ZERO + n % 10, 0);
    }
  }

  lemma {:induction false} ReadsDigits(ds: Text, rest: Text, sofar: nat)
    requires forall b :: b in ds ==> IsDigit(b)
    ensures ReadLength(ds + [COLON] + rest, sofar) == Some((Number(ds, sofar), rest))
  {
    if ds == [] {
      assert ds + [COLON] + rest == [COLON] + rest;
    } else {
      assert (ds + [COLON] + rest)[1..] == ds[1..] + [COLON] + rest;
      ReadsDigits(ds[1..], rest, 10 * sofar + Value(ds[0]));
    }
  }

  /** The framing decodes to the fields, whatever they contain: colons, semicolons and digits included. */
  lemma {:induction false} FramingDecodes(fs: seq<Text>)
    ensures Decode(Frames(fs)) == Some(fs)
  {
    if fs != [] {
      var f, more := fs[0], Frames(fs[1..]);
      var body := f + [SEMICOLON] + more;
      DigitsAreNumber(|f|);
      ReadsDigits(Digits(|f|), body, 0);
      assert Frames(fs) == Digits(|f|) + [COLON] + body;
      assert body[..|f|] == f && body[|f| + 1..] == more;
      FramingDecodes(fs[1..]);
      assert fs == [f] + fs[1..];
    }
  }

  // ----- The fields determine the license, but for the joined features -----

  lemma SignShows(n: int)
    ensures |Itoa(n)| > 0 && (n < 0 <==> Itoa(n)[0] == MINUS)
  {
    DigitsAreNumber(if n < 0 then -n else n);
    assert n >= 0 ==> Itoa(n)[0] in Digits(n);
  }

  lemma ItoaInjective(m: int, n: int)
    requires Itoa(m) == Itoa(n)
    ensures m == n
  {
    hide Number;
    SignShows(m);
    SignShows(n);
    DigitsAreNumber(if m < 0 then -m else m);
    DigitsAreNumber(if n < 0 then -n else n);
    if m < 0 {
      assert Itoa(m)[1..] == Digits(-m) && Itoa(n)[1..] == Digits(-n);
    }
  }

  /** A text cut at its commas. */
  function Cut(s: Text): (ps: seq<Text>)
    ensures |ps| > 0
  {
    if s == [] then [[]]
    else
      var more := Cut(s[1..]);
      if s[0] == COMMA then [[]] + more else [[s[0]] + more[0]] + more[1..]
  }

  /** A feature list cut at every comma; no features at all is one empty piece. */
  function Pieces(fs: seq<Text>): seq<Text> {
    if fs == [] then [[]] else if |fs| == 1 then Cut(fs[0]) else Cut(fs[0]) + Pieces(fs[1..])
  }

  lemma {:induction false} CutConcat(s: Text, t: Text)
    ensures Cut(s + [COMMA] + t) == Cut(s) + Cut(t)
  {
    if s == [] {
      assert s + [COMMA] + t == [COMMA] + t;
      assert (s + [COMMA] + t)[1..] == t;
    } else {
      assert (s + [COMMA] + t)[1..] == s[1..] + [COMMA] + t;
      CutConcat(s[1..], t);
    }
  }

  lemma {:induction false} CutJoin(fs: seq<Text>)
    ensures Cut(Join(fs)) == Pieces(fs)
  {
    if |fs| > 1 {
      CutConcat(fs[0], Join(fs[1..]));
      CutJoin(fs[1..]);
    }
  }

  lemma {:induction false} JoinCut(s: Text)
    ensures Join(Cut(s)) == s
  {
    if s != [] {
      var more := Cut(s[1..]);
      JoinCut(s[1..]);
      if s[0] == COMMA {
        assert Cut(s)[1..] == more;
        assert Join(Cut(s)) == [] + [COMMA] + Join(more);
      } else {
        assert Cut(s)[1..] == more[1..];
      }
    }
  }

  /** Two feature lists are joined to the same text exactly when they are the same once cut at every comma. */
  lemma JoinsEqualIff(a: seq<Text>, b: seq<Text>)
    ensures Join(a) == Join(b) <==> Pieces(a) == Pieces(b)
  {
    hide Join, Cut, Pieces;
    CutJoin(a);
    CutJoin(b);
    JoinCut(Join(a));
    JoinCut(Join(b));
  }

  /** Features without commas are their own pieces, so that only the empty list and [""] are confused. */
  lemma {:induction false} CommaFreePieces(fs: seq<Text>)
    requires forall f :: f in fs ==> COMMA !in f
    ensures Pieces(fs) == if fs == [] then [[]] else fs
  {
    if |fs| == 1 {
      CutCommaFree(fs[0]);
    } else if |fs| > 1 {
      CutCommaFree(fs[0]);
      CommaFreePieces(fs[1..]);
      assert fs == [fs[0]] + fs[1..];
    }
  }

  lemma {:induction false} CutCommaFree(s: Text)
    requires COMMA !in s
    ensures Cut(s) == [s]
  {
    if s != [] {
      CutCommaFree(s[1..]);
      assert s == [s[0]] + s[1..];
    }
  }

  /**
    * Two licenses have the same payload exactly when they agree on everything but their features, and their
    * features agree once cut at every comma. The shapes with and without a machine id never meet.
    */
  lemma SamePayloadIff(a: Info, b: Info)
    ensures Frames(Fields(a)) == Frames(Fields(b)) <==>
            a.(features := b.features) == b && Pieces(a.features) == Pieces(b.features)
  {
    hide Frames, Decode, Itoa, Join, Pieces;
    FramingDecodes(Fields(a));
    FramingDecodes(Fields(b));
    JoinsEqualIff(a.features, b.features);
    if Fields(a) == Fields(b) {
      SameFields(a, b);
    }
  }

  lemma SameFields(a: Info, b: Info)
    requires Fields(a) == Fields(b)
    ensures a.(features := b.features) == b && Join(a.features) == Join(b.features)
  {
    hide Itoa, Join;
    var x, y := Fields(a), Fields(b);
    assert |x| == |y|;
    assert x[0] == y[0] && x[1] == y[1] && x[2] == y[2] && x[3] == y[3] && x[4] == y[4];
    assert x[5] == y[5] && x[6] == y[6] && x[7] == y[7] && x[8] == y[8];
    if a.machineId != [] {
      assert x[9] == y[9];
    }
    ItoaInjective(a.maxNodes, b.maxNodes);
    ItoaInjective(a.maxTenants, b.maxTenants);
    assert FormatBool(true)[0] != FormatBool(false)[0];
  }

  /** For features without commas the payload tells all licenses apart, except no feature from one empty feature. */
  lemma PayloadTellsApart(a: Info, b: Info)
    requires forall f :: f in a.features || f in b.features ==> COMMA !in f
    ensures Frames(Fields(a)) == Frames(Fields(b)) <==>
            a == b || (a.(features := b.features) == b && a.features in {[], [[]]} && b.features in {[], [[]]})
  {
    hide Frames, Fields, Pieces;
    SamePayloadIff(a, b);
    CommaFreePieces(a.features);
    CommaFreePieces(b.features);
  }

  /** A comma inside a feature confuses it with two features. */
  lemma CommaConfuses(a: Info, f: Text, g: Text)
    ensures Frames(Fields(a.(features := [f + [COMMA] + g]))) == Frames(Fields(a.(features := [f, g])))
  {
    hide Frames, Fields;
    assert [f, g][1..] == [g];
    CutConcat(f, g);
    SamePayloadIff(a.(features := [f + [COMMA] + g]), a.(features := [f, g]));
  }

  // ----- The order of the fields -----

  /** A decimal text: an optional minus and the digits of a number. */
  predicate Denotes(t: Text, n: int) {
    var ds := if n < 0 && t != [] then t[1..] else t;
    && (n < 0 ==> t != [] && t[0] == 45)
    && ds != [] && (forall b :: b in ds ==> IsDigit(b)) && Number(ds, 0) == if n < 0 then -n else n
  }

  lemma ItoaDenotes(n: int)
    ensures Denotes(Itoa(n), n)
  {
    hide Number;
    DigitsAreNumber(if n < 0 then -n else n);
    if n < 0 {
      assert Itoa(n)[1..] == Digits(-n);
    }
  }

  /**
    * The payload is decoded to the key, the product, the customer, the two limits in decimal, the two times, the
    * features, "true" or "false", and the machine id if there is one, in this order.
    */
  lemma FieldsInOrder(i: Info) returns (fs: seq<Text>)
    ensures Decode(Frames(Fields(i))) == Some(fs) && |fs| == (if i.machineId == [] then 9 else 10)
    ensures fs[0] == i.licenseKey && fs[1] == i.productName && fs[2] == i.customerName
    ensures Denotes(fs[3], i.maxNodes) && Denotes(fs[4], i.maxTenants)
    ensures fs[5] == i.issuedAt && fs[6] == i.expiresAt
    ensures Cut(fs[7]) == Pieces(i.features)
    ensures fs[8] == if i.isOffline then [116, 114, 117, 101] else [102, 97, 108, 115, 101]
    ensures i.machineId != [] ==> fs[9] == i.machineId
  {
    hide Frames, Decode, Itoa, Join, Pieces, Cut, Denotes;
    fs := Fields(i);
    FramingDecodes(fs);
    ItoaDenotes(i.maxNodes);
    ItoaDenotes(i.maxTenants);
    CutJoin(i.features);
  }

  /** One field in bytes: its length in decimal, a colon, the field and a semicolon. */
  lemma FrameInBytes(f: Text) returns (length: Text)
    ensures Frames([f]) == length + [58] + f + [59] && Denotes(length, |f|)
  {
    hide Number;
    length := Digits(|f|);
    DigitsAreNumber(|f|);
    assert [f][1..] == [];
  }
}
