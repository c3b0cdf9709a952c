/** What the sample digest of the budget report hashes, and which raw metric
    files can reach it (tools/llm-budget/verify.py). */
module GenerationDigest {
  import opened LlmTypes

  type Byte = n: nat | n < 256

  type Bytes = seq<Byte>

  // ---------------------------------------------------------------- framing

  /** `n` in `width` bytes, most significant first. */
  function BigEndian(n: nat, width: nat): (b: Bytes)
    ensures |b| == width
  {
    if width == 0 then [] else BigEndian(n / 256, width - 1) + [n % 256]
  }

  function Value(b: Bytes): nat {
    if b == [] then 0 else 256 * Value(b[..|b| - 1]) + b[|b| - 1]
  }

  function Pow256(width: nat): nat {
    if width == 0 then 1 else 256 * Pow256(width - 1)
  }

  lemma {:induction false} ValueOfBigEndian(n: nat, width: nat)
    requires n < Pow256(width)
    ensures Value(BigEndian(n, width)) == n
  {
    if width > 0 {
      ValueOfBigEndian(n / 256, width - 1);
      var b := BigEndian(n, width);
      assert b[..|b| - 1] == BigEndian(n / 256, width - 1);
    }
  }

  lemma EightBytes()
    ensures Pow256(8) == U64_SIZE
  {
    assert Pow256(2) == 65536;
    assert Pow256(4) == 65536 * 65536;
    assert Pow256(6) == 65536 * 65536 * 65536;
  }

  function Frames(gens: seq<Bytes>): Bytes {
    if gens == [] then [] else BigEndian(|gens[0]|, 8) + gens[0] + Frames(gens[1..])
  }

  /** The length prefix of the encoder has eight bytes; a longer file would be
      an error there. */
  predicate Framable(gens: seq<Bytes>) {
    forall g <- gens :: |g| < U64_SIZE
  }

  /** Length-prefixed framing is uniquely decodable. */
  lemma {:induction false} FramesInjective(a: seq<Bytes>, b: seq<Bytes>)
    requires Framable(a) && Framable(b) && Frames(a) == Frames(b)
    ensures a == b
  {
    if a == [] || b == [] {
      assert |Frames(a)| == 0;
    } else {
      FirstFrame(a, b);
      FramesInjective(a[1..], b[1..]);
      assert a == [a[0]] + a[1..] && b == [b[0]] + b[1..];
    }
  }

  lemma FirstFrame(a: seq<Bytes>, b: seq<Bytes>)
    requires a != [] && b != [] && Framable(a) && Framable(b) && Frames(a) == Frames(b)
    ensures a[0] == b[0] && Frames(a[1..]) == Frames(b[1..])
  {
    EightBytes();
    var f := Frames(a);
    assert f[..8] == BigEndian(|a[0]|, 8) && f[..8] == BigEndian(|b[0]|, 8);
    ValueOfBigEndian(|a[0]|, 8);
    ValueOfBigEndian(|b[0]|, 8);
    var end := 8 + |a[0]|;
    assert f[8..end] == a[0] && f[8..end] == b[0];
    assert f[end..] == Frames(a[1..]) && f[end..] == Frames(b[1..]);
  }

  /** "novelworld-metric-generations-v1" and a zero byte. */
  function Tag(): Bytes {
    [
    110, 111, 118, 101, 108, 119, 111, 114, 108, 100, 45,
    109, 101, 116, 114, 105, 99, 45,
    103, 101, 110, 101, 114, 97, 116, 105, 111, 110, 115, 45, 118, 49, 0]
  }

  function Preimage(gens: seq<Bytes>): Bytes {
    if |gens| == 1 then gens[0] else Tag() + Frames(gens)
  }

  // ----------------------------------------------------- accepted raw files

  type Text = seq<nat>     // code points

  predicate Continuation(b: Byte) {
    0x80 <= b < 0xC0
  }

  /** How many bytes the well-formed UTF-8 sequence at the head of `b` has. */
  function SequenceLength(b: Bytes): nat
    requires b != []
  {
    if b[0] < 0x80 then 1
    else if 0xC2 <= b[0] < 0xE0 && |b| >= 2 && Continuation(b[1]) then 2
    else if 0xE0 <= b[0] < 0xF0 && |b| >= 3 && Continuation(b[1]) && Continuation(b[2])
            && (b[0] == 0xE0 ==> b[1] >= 0xA0) && (b[0] == 0xED ==> b[1] < 0xA0) then 3
    else if 0xF0 <= b[0] < 0xF5 && |b| >= 4 && Continuation(b[1]) && Continuation(b[2]) && Continuation(b[3])
            && (b[0] == 0xF0 ==> b[1] >= 0x90) && (b[0] == 0xF4 ==> b[1] < 0x90) then 4
    else 0
  }

  function CodePoint(b: Bytes): nat
    requires b != [] && SequenceLength(b) > 0
  {
    match SequenceLength(b)
    case 1 => b[0]
    case 2 => (b[0] as int - 0xC0) * 64 + (b[1] as int - 0x80)
    case 3 => ((b[0] as int - 0xE0) * 64 + (b[1] as int - 0x80)) * 64 + (b[2] as int - 0x80)
    case _ =>
      (((b[0] as int - 0xF0) * 64 + (b[1] as int - 0x80)) * 64 + (b[2] as int - 0x80)) * 64
      + (b[3] as int - 0x80)
  }

  function Decode(b: Bytes): Option<Text> {
    if b == [] then Some([])
    else if SequenceLength(b) == 0 then None
    else
      var rest := Decode(b[SequenceLength(b)..]);
      if rest.None? then None else Some([CodePoint(b)] + rest.value)
  }

  predicate LineBreak(c: nat) {
    0x0A <= c <= 0x0D || 0x1C <= c <= 0x1E || c == 0x85 || c == 0x2028 || c == 0x2029
  }

  predicate Space(c: nat) {
    || 0x09 <= c <= 0x0D || 0x1C <= c <= 0x20 || c == 0x85 || c == 0xA0 || c == 0x1680
    || 0x2000 <= c <= 0x200A || c == 0x2028 || c == 0x2029 || c == 0x202F || c == 0x205F || c == 0x3000
  }

  function LineEnd(t: Text): (n: nat)
    ensures n <= |t|
    ensures forall i :: 0 <= i < n ==> !LineBreak(t[i])
    ensures n < |t| ==> LineBreak(t[n])
  {
    if t == [] || LineBreak(t[0]) then 0 else 1 + LineEnd(t[1..])
  }

  function Lines(t: Text): seq<Text>
    decreases |t|
  {
    if t == [] then []
    else
      var n := LineEnd(t);
      var next := if n + 1 < |t| && t[n] == 0x0D && t[n + 1] == 0x0A then n + 2 else if n < |t| then n + 1 else n;
      [t[..n]] + (if next == 0 then [] else Lines(t[next..]))
  }

  function StripStart(t: Text): Text {
    if t != [] && Space(t[0]) then StripStart(t[1..]) else t
  }

  function StripEnd(t: Text): Text {
    if t != [] && Space(t[|t| - 1]) then StripEnd(t[..|t| - 1]) else t
  }

  predicate NameChar(c: nat) {
    (97 <= c <= 122) || (65 <= c <= 90) || c == 95 || c == 58 || (48 <= c <= 57)
  }

  /** A sample line: a metric name, optional braces, blanks and a value. */
  ghost predicate SampleLine(t: Text) {
    exists name, tags, blanks :: SampleParts(t, name, tags, blanks)
  }

  predicate SampleParts(t: Text, name: int, tags: int, blanks: int) {
    && 0 < name <= tags < blanks < |t|
    && (forall i :: 0 <= i < name ==> NameChar(t[i])) && !(48 <= t[0] <= 57)
    && (tags == name || (tags >= name + 2 && t[name] == 123 && t[tags - 1] == 125))
    && (forall i :: tags <= i < blanks ==> Space(t[i]))
    && (forall i :: blanks <= i < |t| ==> !Space(t[i]))
  }

  ghost predicate LineAccepted(line: Text) {
    var t := StripEnd(StripStart(line));
    t == [] || t[0] == 35 || SampleLine(t)
  }

  /** The shape every accepted metrics file has: UTF-8 text whose lines are
      blank, comments or samples. */
  ghost predicate ShapeAccepted(data: Bytes) {
    Decode(data).Some? && forall line <- Lines(Decode(data).value) :: LineAccepted(line)
  }

  lemma {:induction false} DecodeAscii(prefix: Bytes, rest: Bytes)
    requires forall b <- prefix :: b < 0x80
    requires Decode(prefix + rest).Some?
    ensures |Decode(prefix + rest).value| >= |prefix| && Decode(prefix + rest).value[..|prefix|] == prefix
  {
    if prefix != [] {
      var all := prefix + rest;
      assert all[0] == prefix[0] && prefix[0] in prefix;
      assert all[1..] == prefix[1..] + rest;
      assert forall b <- prefix[1..] :: b in prefix;
      DecodeAscii(prefix[1..], rest);
    }
  }

  predicate StartsWithTag(t: Text) {
    |Tag()| <= |t| && t[..|Tag()|] == Tag()
  }

  lemma TagIsPlain()
    ensures |Tag()| == 33 && (forall b <- Tag() :: b < 0x80 && !LineBreak(b)) && Tag()[32] == 0 && Tag()[10] == 45
    ensures forall i :: 0 <= i < 11 ==> !Space(Tag()[i]) && Tag()[i] != 123 && Tag()[i] != 35
  {
  }

  lemma {:induction false} StripKeepsTag(t: Text)
    requires StartsWithTag(t)
    ensures StartsWithTag(StripEnd(t)) && StripStart(t) == t
  {
    TagIsPlain();
    assert t[0] == t[..|Tag()|][0] && t[32] == t[..|Tag()|][32];
    assert !Space(Tag()[0]);
    if Space(t[|t| - 1]) {
      var init := t[..|t| - 1];
      assert init[..|Tag()|] == t[..|Tag()|];
      StripKeepsTag(init);
    }
  }

  lemma TagIsNoSample(t: Text)
    requires StartsWithTag(t)
    ensures !LineAccepted(t)
  {
    TagIsPlain();
    hide Tag;
    StripKeepsTag(t);
    var s := StripEnd(StripStart(t));
    assert forall i :: 0 <= i < 11 ==> s[i] == s[..|Tag()|][i];
    forall name, tags, blanks
      ensures !SampleParts(s, name, tags, blanks)
    {
      TagCutsName(s, name, tags, blanks);
    }
  }

  /** The tag's hyphen is no name character, and nothing before it is a blank
      or a brace. */
  lemma TagCutsName(s: Text, name: int, tags: int, blanks: int)
    requires |s| > 10 && s[10] == 45 && forall i :: 0 <= i < 11 ==> !Space(s[i]) && s[i] != 123
    ensures !SampleParts(s, name, tags, blanks)
  {
    assert !NameChar(s[10]);
  }

  /** The first line of a text that starts with the tag does so too. */
  lemma FirstLineHasTag(t: Text)
    requires StartsWithTag(t)
    ensures StartsWithTag(t[..LineEnd(t)])
  {
    TagIsPlain();
    hide Tag;
    var n := LineEnd(t);
    assert forall i | 0 <= i < |Tag()| :: t[i] == t[..|Tag()|][i] && Tag()[i] in Tag();
    assert t[..n][..|Tag()|] == t[..|Tag()|];
  }

  /** No accepted file begins with the domain tag. */
  lemma TaggedFileIsRefused(data: Bytes)
    requires Tag() <= data
    ensures !ShapeAccepted(data)
  {
    TagIsPlain();
    hide Tag, LineAccepted, StartsWithTag;
    if Decode(data).Some? {
      var t := Decode(data).value;
      assert data == Tag() + data[|Tag()|..];
      DecodeAscii(Tag(), data[|Tag()|..]);
      TagFound(t);
      FirstLineHasTag(t);
      TagIsNoSample(t[..LineEnd(t)]);
      assert Lines(t)[0] == t[..LineEnd(t)];
      assert Lines(t)[0] in Lines(t);
    }
  }

  lemma TagFound(t: Text)
    requires |t| >= |Tag()| && t[..|Tag()|] == Tag()
    ensures StartsWithTag(t) && t != []
  {
  }

  /** Different nonempty lists of accepted generations never share a digest
      preimage, whatever their number. */
  lemma PreimageInjective(a: seq<Bytes>, b: seq<Bytes>)
    requires a != [] && b != [] && Framable(a) && Framable(b)
    requires (forall g <- a :: ShapeAccepted(g)) && (forall g <- b :: ShapeAccepted(g))
    requires Preimage(a) == Preimage(b)
    ensures a == b
  {
    if |a| == 1 && |b| == 1 {
      assert a == [a[0]] && b == [b[0]];
    } else if |a| == 1 {
      assert a[0] in a;
      TaggedFileIsRefused(a[0]);
    } else if |b| == 1 {
      assert b[0] in b;
      TaggedFileIsRefused(b[0]);
    } else {
      assert Preimage(a)[|Tag()|..] == Frames(a) && Preimage(b)[|Tag()|..] == Frames(b);
      FramesInjective(a, b);
    }
  }

  // ------------------------------------------------- what the shape accepts

  /** A Unicode scalar value. */
  predicate Scalar(c: nat) {
    c < 0xD800 || 0xE000 <= c < 0x11_0000
  }

  /** The encoding of RFC 3629, section 3. */
  function EncodeOne(c: nat): (b: Bytes)
    requires Scalar(c)
    ensures b != []
  {
    if c < 0x80 then [c]
    else if c < 0x800 then [0xC0 + c / 64, 0x80 + c % 64]
    else if c < 0x1_0000 then [0xE0 + c / 4096, 0x80 + c / 64 % 64, 0x80 + c % 64]
    else [0xF0 + c / 262144, 0x80 + c / 4096 % 64, 0x80 + c / 64 % 64, 0x80 + c % 64]
  }

  function EncodeAll(t: Text): Bytes
    requires forall c <- t :: Scalar(c)
  {
    if t == [] then [] else assert t[0] in t; EncodeOne(t[0]) + EncodeAll(t[1..])
  }

  lemma DecodesOne(c: nat, rest: Bytes)
    requires Scalar(c)
    ensures SequenceLength(EncodeOne(c) + rest) == |EncodeOne(c)| && CodePoint(EncodeOne(c) + rest) == c
  {
    var e, b := EncodeOne(c), EncodeOne(c) + rest;
    assert forall i :: 0 <= i < |e| ==> b[i] == e[i];
    EncodedDigits(c);
    hide EncodeOne;
  }

  /** The bytes of an encoding, as the digits of the scalar value. */
  lemma EncodedDigits(c: nat)
    requires Scalar(c)
    ensures var e := EncodeOne(c);
      && |e| <= 4 && (|e| == 1 ==> e[0] == c < 0x80)
      && (|e| == 2 ==> 0xC2 <= e[0] < 0xE0 && Continuation(e[1])
                       && (e[0] as int - 0xC0) * 64 + (e[1] as int - 0x80) == c)
      && (|e| == 3 ==> 0xE0 <= e[0] < 0xF0 && Continuation(e[1]) && Continuation(e[2])
                       && (e[0] == 0xE0 ==> e[1] >= 0xA0) && (e[0] == 0xED ==> e[1] < 0xA0)
                       && ((e[0] as int - 0xE0) * 64 + (e[1] as int - 0x80)) * 64 + (e[2] as int - 0x80) == c)
      && (|e| == 4 ==> 0xF0 <= e[0] < 0xF5 && Continuation(e[1]) && Continuation(e[2]) && Continuation(e[3])
                       && (e[0] == 0xF0 ==> e[1] >= 0x90) && (e[0] == 0xF4 ==> e[1] < 0x90)
                       && (((e[0] as int - 0xF0) * 64 + (e[1] as int - 0x80)) * 64 + (e[2] as int - 0x80)) * 64
                          + (e[3] as int - 0x80) == c)
  {
    if c >= 0x1_0000 {
      assert c / 4096 == c / 64 / 64 && c / 262144 == c / 4096 / 64;
    } else if c >= 0x800 {
      assert c / 4096 == c / 64 / 64;
    }
  }

  lemma EncodesOne(b: Bytes)
    requires b != [] && SequenceLength(b) > 0
    ensures SequenceLength(b) <= |b| && Scalar(CodePoint(b)) && EncodeOne(CodePoint(b)) == b[..SequenceLength(b)]
  {
    var n := SequenceLength(b);
    if n == 1 {
      assert b[..1] == [b[0]];
    } else if n == 2 {
      TwoBytes(b[0], b[1]);
      assert b[..2] == [b[0], b[1]];
    } else if n == 3 {
      ThreeBytes(b[0], b[1], b[2]);
      assert b[..3] == [b[0], b[1], b[2]];
    } else {
      FourBytes(b[0], b[1], b[2], b[3]);
      assert b[..4] == [b[0], b[1], b[2], b[3]];
    }
  }

  lemma TwoBytes(x: Byte, y: Byte)
    requires 0xC2 <= x < 0xE0 && Continuation(y)
    ensures var c := (x as int - 0xC0) * 64 + (y as int - 0x80);
            0x80 <= c < 0x800 && EncodeOne(c) == [x, y]
  {
  }

  lemma ThreeBytes(x: Byte, y: Byte, z: Byte)
    requires 0xE0 <= x < 0xF0 && Continuation(y) && Continuation(z)
    requires (x == 0xE0 ==> y >= 0xA0) && (x == 0xED ==> y < 0xA0)
    ensures var c := ((x as int - 0xE0) * 64 + (y as int - 0x80)) * 64 + (z as int - 0x80);
            0x800 <= c < 0x1_0000 && Scalar(c) && EncodeOne(c) == [x, y, z]
  {
    var c := ((x as int - 0xE0) * 64 + (y as int - 0x80)) * 64 + (z as int - 0x80);
    assert c / 64 == (x as int - 0xE0) * 64 + (y as int - 0x80);
  }

  lemma FourBytes(x: Byte, y: Byte, z: Byte, w: Byte)
    requires 0xF0 <= x < 0xF5 && Continuation(y) && Continuation(z) && Continuation(w)
    requires (x == 0xF0 ==> y >= 0x90) && (x == 0xF4 ==> y < 0x90)
    ensures var c := (((x as int - 0xF0) * 64 + (y as int - 0x80)) * 64 + (z as int - 0x80)) * 64 + (w as int - 0x80);
            0x1_0000 <= c < 0x11_0000 && EncodeOne(c) == [x, y, z, w]
  {
    var c := (((x as int - 0xF0) * 64 + (y as int - 0x80)) * 64 + (z as int - 0x80)) * 64 + (w as int - 0x80);
    assert c / 64 == ((x as int - 0xF0) * 64 + (y as int - 0x80)) * 64 + (z as int - 0x80);
    assert c / 64 / 64 == (x as int - 0xF0) * 64 + (y as int - 0x80);
    assert c / 4096 == c / 64 / 64 && c / 262144 == c / 4096 / 64;
  }

  lemma {:induction false} DecodesAll(t: Text)
    requires forall c <- t :: Scalar(c)
    ensures Decode(EncodeAll(t)) == Some(t)
  {
    hide SequenceLength, CodePoint, EncodeOne, Scalar;
    if t != [] {
      assert t[0] in t;
      var rest := EncodeAll(t[1..]);
      DecodesOne(t[0], rest);
      DecodesAll(t[1..]);
      assert (EncodeOne(t[0]) + rest)[|EncodeOne(t[0])|..] == rest;
      assert [t[0]] + t[1..] == t;
    }
  }

  lemma {:induction false} EncodesAll(b: Bytes)
    requires Decode(b).Some?
    ensures (forall c <- Decode(b).value :: Scalar(c)) && EncodeAll(Decode(b).value) == b
  {
    hide SequenceLength, CodePoint, EncodeOne, Scalar;
    if b != [] {
      var n := SequenceLength(b);
      EncodesOne(b);
      EncodesAll(b[n..]);
      var t := Decode(b).value;
      assert t[1..] == Decode(b[n..]).value;
      assert b == b[..n] + b[n..];
    }
  }

  /** A file decodes to a text exactly when it is that text's encoding. */
  lemma DecodeExactly(b: Bytes, t: Text)
    ensures Decode(b) == Some(t) <==> (forall c <- t :: Scalar(c)) && b == EncodeAll(t)
  {
    if forall c <- t :: Scalar(c) { DecodesAll(t); }
    if Decode(b) == Some(t) { EncodesAll(b); }
  }

  /** A line without breaks is split off with the character that closes it. */
  lemma LineExactly(line: Text, stop: nat, rest: Text)
    requires (forall c <- line :: !LineBreak(c)) && LineBreak(stop)
    requires stop == 0x0D ==> rest == [] || rest[0] != 0x0A
    ensures Lines(line + [stop] + rest) == [line] + Lines(rest)
  {
    var t := line + [stop] + rest;
    EndAfter(line, [stop] + rest);
    hide LineBreak, LineEnd;
    assert t == line + ([stop] + rest);
    assert t[..|line|] == line && t[|line| + 1..] == rest && t[|line|] == stop;
    assert |line| + 1 < |t| ==> t[|line| + 1] == rest[0];
  }

  /** A carriage return and a line feed close a line together. */
  lemma LineBreakOfTwo(line: Text, rest: Text)
    requires forall c <- line :: !LineBreak(c)
    ensures Lines(line + [0x0D, 0x0A] + rest) == [line] + Lines(rest)
  {
    var t := line + [0x0D, 0x0A] + rest;
    EndAfter(line, [0x0D, 0x0A] + rest);
    hide LineBreak, LineEnd;
    assert t == line + ([0x0D, 0x0A] + rest);
    assert t[..|line|] == line && t[|line| + 2..] == rest && t[|line|] == 0x0D && t[|line| + 1] == 0x0A;
  }

  lemma {:induction false} EndAfter(line: Text, rest: Text)
    requires (forall c <- line :: !LineBreak(c)) && (rest == [] || LineBreak(rest[0]))
    ensures LineEnd(line + rest) == |line|
  {
    hide LineBreak;
    if line == [] {
      assert line + rest == rest;
    } else {
      assert line[0] in line && (line + rest)[1..] == line[1..] + rest;
      EndAfter(line[1..], rest);
    }
  }

  /** There are accepted files: "up 1" on a line of its own is one. */
  lemma SampleIsAccepted()
    ensures ShapeAccepted([117, 112, 32, 49, 10])
  {
    var line: Text := [117, 112, 32, 49];
    var text := line + [10] + [];
    assert text == [117, 112, 32, 49, 10];
    LineExactly(line, 10, []);
    DecodeAsciiText(text);
    LineIsAccepted();
    hide LineAccepted, Lines, Decode;
    NoLines();
    assert Lines(text) == [line] + Lines([]);
  }

  lemma NoLines()
    ensures Lines([]) == []
  {
  }

  lemma LineIsAccepted()
    ensures LineAccepted([117, 112, 32, 49])
  {
    var line: Text := [117, 112, 32, 49];
    assert StripStart(line) == line && StripEnd(line) == line;
    assert SampleParts(line, 2, 2, 3);
  }

  lemma {:induction false} DecodeAsciiText(t: Bytes)
    requires forall b <- t :: b < 0x80
    ensures Decode(t) == Some(t)
  {
    if t != [] {
      assert t[0] in t && forall b <- t[1..] :: b in t;
      DecodeAsciiText(t[1..]);
      assert [t[0]] + t[1..] == t;
    }
  }

  // ------------------------------------------------------- what is hashed

  /** The tag spells its name in ASCII and ends in a zero byte. */
  lemma TagText()
    ensures var name := "novelworld-metric-generations-v1";
            |Tag()| == |name| + 1 && Tag()[|name|] == 0 && forall i :: 0 <= i < |name| ==> Tag()[i] == name[i] as int
  {
  }

  /** One generation is hashed as it is. */
  lemma OneGenerationIsPlain(g: Bytes)
    ensures Preimage([g]) == g
  {
  }

  /** Where the frame of generation `k` starts behind the tag. */
  function FrameStart(gens: seq<Bytes>, k: nat): nat
    requires k <= |gens|
  {
    if k == 0 then 0 else FrameStart(gens, k - 1) + 8 + |gens[k - 1]|
  }

  lemma {:induction false} StartShifts(gens: seq<Bytes>, k: nat)
    requires gens != [] && k < |gens|
    ensures FrameStart(gens, k + 1) == 8 + |gens[0]| + FrameStart(gens[1..], k)
  {
    if k > 0 { StartShifts(gens, k - 1); }
  }

  /** The frame at this place of `b` is that of `g`. */
  predicate FrameAt(b: Bytes, from: nat, g: Bytes) {
    && from + 8 + |g| <= |b|
    && Value(b[from..from + 8]) == |g| && b[from + 8..from + 8 + |g|] == g
  }

  lemma FirstFrameAt(gens: seq<Bytes>)
    requires gens != [] && Framable(gens)
    ensures FrameAt(Frames(gens), 0, gens[0])
    ensures Frames(gens) == BigEndian(|gens[0]|, 8) + gens[0] + Frames(gens[1..])
  {
    EightBytes();
    ValueOfBigEndian(|gens[0]|, 8);
    var prefix, rest := BigEndian(|gens[0]|, 8), Frames(gens[1..]);
    var f := Frames(gens);
    hide BigEndian, Value, Pow256, Frames;
    assert f == prefix + gens[0] + rest;
    assert f[0..8] == prefix && f[8..8 + |gens[0]|] == gens[0];
  }

  lemma FrameBehind(head: Bytes, b: Bytes, from: nat, g: Bytes)
    requires FrameAt(b, from, g)
    ensures FrameAt(head + b, |head| + from, g)
  {
    hide Value;
    var all, at := head + b, |head| + from;
    assert all[at..at + 8] == b[from..from + 8] && all[at + 8..at + 8 + |g|] == b[from + 8..from + 8 + |g|];
  }

  /** Every generation lies whole behind its length in eight bytes, in order. */
  lemma {:induction false} FrameExactly(gens: seq<Bytes>, k: nat)
    requires k < |gens| && Framable(gens)
    ensures |Frames(gens)| == FrameStart(gens, |gens|) && FrameAt(Frames(gens), FrameStart(gens, k), gens[k])
  {
    hide Frames, FrameAt, BigEndian, FrameStart;
    FirstFrameAt(gens);
    StartShifts(gens, |gens| - 1);
    StartAtZero(gens);
    var rest := gens[1..];
    StartAtZero(rest);
    if rest != [] {
      FrameExactly(rest, if k == 0 then 0 else k - 1);
    }
    if k > 0 {
      StartShifts(gens, k - 1);
      FrameBehind(BigEndian(|gens[0]|, 8) + gens[0], Frames(rest), FrameStart(rest, k - 1), rest[k - 1]);
    }
  }

  lemma StartAtZero(gens: seq<Bytes>)
    ensures FrameStart(gens, 0) == 0 && (gens == [] ==> |Frames(gens)| == 0)
  {
  }

  /** Several generations are hashed as the tag and their frames. */
  lemma ManyGenerations(gens: seq<Bytes>, k: nat)
    requires |gens| >= 2 && k < |gens| && Framable(gens)
    ensures Tag() <= Preimage(gens) && |Preimage(gens)| == |Tag()| + FrameStart(gens, |gens|)
    ensures FrameAt(Preimage(gens), |Tag()| + FrameStart(gens, k), gens[k])
  {
    hide Frames, Tag, FrameAt, FrameStart, Framable;
    FrameExactly(gens, k);
    assert Preimage(gens) == Tag() + Frames(gens);
    FrameBehind(Tag(), Frames(gens), FrameStart(gens, k), gens[k]);
  }
}
