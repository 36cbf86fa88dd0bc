/** UTF-8 strings as byte sequences, blankness, and the two separator-flag name scanners. */
module Text {
  import opened Bytes

  // ---------------------------------------------------------------- UTF-8, section 4 of RFC 3629

  predicate Tail(b: byte) { 0x80 <= b <= 0xBF }

  predicate ThreeByteHead(a: byte, b: byte) {
    || (a == 0xE0 && 0xA0 <= b <= 0xBF)
    || (0xE1 <= a <= 0xEC && Tail(b))
    || (a == 0xED && 0x80 <= b <= 0x9F)
    || (0xEE <= a <= 0xEF && Tail(b))
  }

  predicate FourByteHead(a: byte, b: byte) {
    || (a == 0xF0 && 0x90 <= b <= 0xBF)
    || (0xF1 <= a <= 0xF3 && Tail(b))
    || (a == 0xF4 && 0x80 <= b <= 0x8F)
  }

  /** Length of the well-formed scalar `s` starts with, or 0 when it starts with none. */
  function ScalarLength(s: seq<byte>): (n: nat)
    ensures n <= |s| && n <= 4
    ensures forall i :: 1 <= i < n ==> Tail(s[i])
    ensures n > 0 ==> !Tail(s[0])
  {
    if |s| >= 1 && s[0] < 0x80 then 1
    else if |s| >= 2 && 0xC2 <= s[0] <= 0xDF && Tail(s[1]) then 2
    else if |s| >= 3 && ThreeByteHead(s[0], s[1]) && Tail(s[2]) then 3
    else if |s| >= 4 && FourByteHead(s[0], s[1]) && Tail(s[2]) && Tail(s[3]) then 4
    else 0
  }

  predicate ValidUtf8(s: seq<byte>) {
    s == [] || (ScalarLength(s) > 0 && ValidUtf8(s[ScalarLength(s)..]))
  }

  type Text = s: seq<byte> | ValidUtf8(s)

  // ---------------------------------------------------------------- the same by code points

  type CodePoint = c: int | 0 <= c < 0x11_0000

  predicate IsScalar(c: CodePoint) { c < 0xD800 || 0xE000 <= c }

  /** The bytes of one code point, as the table in section 3 of RFC 3629 lays out its bits. */
  function Encoded(c: CodePoint): (s: seq<byte>)
    ensures 1 <= |s| <= 4
  {
    if c < 0x80 then [c]
    else if c < 0x800 then [0xC0 + c / 64, 0x80 + c % 64]
    else if c < 0x1_0000 then [0xE0 + c / 4096, 0x80 + c / 64 % 64, 0x80 + c % 64]
    else [0xF0 + c / 262144, 0x80 + c / 4096 % 64, 0x80 + c / 64 % 64, 0x80 + c % 64]
  }

  function EncodedAll(cs: seq<CodePoint>): seq<byte> {
    if cs == [] then [] else Encoded(cs[0]) + EncodedAll(cs[1..])
  }

  predicate AllScalars(cs: seq<CodePoint>) { forall i :: 0 <= i < |cs| ==> IsScalar(cs[i]) }

  /** The code point whose bytes `s` starts with: the payload bits of its bytes, six for each tail. */
  function Decoded(s: seq<byte>): CodePoint
    requires ScalarLength(s) > 0
  {
    var n := ScalarLength(s);
    if n == 1 then s[0]
    else if n == 2 then Bits(s[0] as int - 0xC0, s[1])
    else if n == 3 then Bits(Bits(s[0] as int - 0xE0, s[1]), s[2])
    else Bits(Bits(Bits(s[0] as int - 0xF0, s[1]), s[2]), s[3])
  }

  /** Six more bits. */
  function Bits(high: nat, tail: byte): (n: nat)
    requires Tail(tail)
    ensures n / 64 == high && n % 64 == tail as int - 0x80 && n == high * 64 + (tail as int - 0x80)
  {
    high * 64 + (tail as int - 0x80)
  }

  lemma Divisions(n: nat)
    ensures n / 4096 == n / 64 / 64 && n / 262144 == n / 64 / 64 / 64
  {
  }

  lemma DecodedEncodes(s: seq<byte>)
    requires ScalarLength(s) > 0
    ensures IsScalar(Decoded(s)) && Encoded(Decoded(s)) == s[..ScalarLength(s)]
  {
    hide Bits;
    Divisions(Decoded(s));
  }

  lemma EncodedIsScalar(c: CodePoint, rest: seq<byte>)
    requires IsScalar(c)
    ensures ScalarLength(Encoded(c) + rest) == |Encoded(c)|
  {
    var s := Encoded(c) + rest;
    assert forall i :: 0 <= i < |Encoded(c)| ==> s[i] == Encoded(c)[i];
  }

  /** A byte string is accepted as UTF-8 exactly when it is the encoding of a sequence of Unicode scalar values. */
  lemma Utf8IsScalars(s: seq<byte>)
    ensures ValidUtf8(s) <==> exists cs: seq<CodePoint> :: AllScalars(cs) && EncodedAll(cs) == s
  {
    if ValidUtf8(s) {
      var cs := ScalarsOf(s);
    }
    if cs: seq<CodePoint> :| AllScalars(cs) && EncodedAll(cs) == s {
      ScalarsAreUtf8(cs);
    }
  }

  lemma {:induction false} ScalarsOf(s: seq<byte>) returns (cs: seq<CodePoint>)
    requires ValidUtf8(s)
    ensures AllScalars(cs) && EncodedAll(cs) == s
  {
    hide Encoded, Decoded;
    if s == [] {
      cs := [];
    } else {
      var n := ScalarLength(s);
      DecodedEncodes(s);
      var more := ScalarsOf(s[n..]);
      cs := [Decoded(s)] + more;
      assert cs[1..] == more && s[..n] + s[n..] == s;
    }
  }

  lemma {:induction false} ScalarsAreUtf8(cs: seq<CodePoint>)
    requires AllScalars(cs)
    ensures ValidUtf8(EncodedAll(cs))
  {
    hide Encoded, ScalarLength;
    if cs != [] {
      ScalarsAreUtf8(cs[1..]);
      EncodedIsScalar(cs[0], EncodedAll(cs[1..]));
      var s := EncodedAll(cs);
      assert s[|Encoded(cs[0])|..] == EncodedAll(cs[1..]);
    }
  }

  predicate IsCharBoundary(s: seq<byte>, i: nat) {
    i == 0 || i == |s| || (i < |s| && !Tail(s[i]))
  }

  /** Cutting at a boundary never splits a scalar. */
  lemma {:induction false} BoundaryPrefixIsValid(s: seq<byte>, i: nat)
    requires ValidUtf8(s) && i <= |s| && IsCharBoundary(s, i)
    ensures ValidUtf8(s[..i])
  {
    if i > 0 {
      var n := ScalarLength(s);
      assert i >= n;
      BoundaryPrefixIsValid(s[n..], i - n);
      assert ScalarLength(s[..i]) == n;
      assert s[..i][n..] == s[n..][..i - n];
    }
  }

  /** Walking back from any index meets a boundary within three bytes. */
  lemma {:induction false} BoundaryWithinThree(s: seq<byte>, i: nat) returns (j: nat)
    requires ValidUtf8(s) && i <= |s|
    ensures j <= i <= j + 3 && IsCharBoundary(s, j)
  {
    var n := if s == [] then 0 else ScalarLength(s);
    if i < n || i == 0 {
      j := 0;
    } else {
      var k := BoundaryWithinThree(s[n..], i - n);
      j := k + n;
      if k == 0 && n < |s| {
        assert ValidUtf8(s[n..]) && s[n..][0] == s[n];
        assert ScalarLength(s[n..]) > 0;
      }
    }
  }

  const MAX_MESSAGE: nat := 4096

  /** Cuts an over-long message at the last character boundary not beyond 4096 bytes. */
  method Truncate(message: Text) returns (r: Text)
    ensures r <= message && |r| <= MAX_MESSAGE && ValidUtf8(r)
    ensures |message| <= MAX_MESSAGE ==> r == message
    ensures |message| > MAX_MESSAGE ==> |r| >= MAX_MESSAGE - 3
    ensures forall i :: |r| < i <= MAX_MESSAGE && i <= |message| ==> !IsCharBoundary(message, i)
  {
    if |message| <= MAX_MESSAGE {
      return message;
    }
    var end := MAX_MESSAGE;
    ghost var stop := BoundaryWithinThree(message, MAX_MESSAGE);
    while !IsCharBoundary(message, end)
      invariant stop <= end <= MAX_MESSAGE
      invariant forall i :: end < i <= MAX_MESSAGE ==> !IsCharBoundary(message, i)
      decreases end
    {
      end := end - 1;
    }
    BoundaryPrefixIsValid(message, end);
    r := message[..end];
  }

  // ---------------------------------------------------------------- blankness

  /** One scalar with the Unicode White_Space property, in UTF-8. */
  predicate Whitespace(c: seq<byte>) {
    || (|c| == 1 && (0x09 <= c[0] <= 0x0D || c[0] == 0x20))
    || (|c| == 2 && c[0] == 0xC2 && (c[1] == 0x85 || c[1] == 0xA0))
    || c == [0xE1, 0x9A, 0x80]
    || (|c| == 3 && c[0] == 0xE2 && c[1] == 0x80
        && (0x80 <= c[2] <= 0x8A || c[2] == 0xA8 || c[2] == 0xA9 || c[2] == 0xAF))
    || c == [0xE2, 0x81, 0x9F]
    || c == [0xE3, 0x80, 0x80]
  }

  /** Nothing is left after trimming. */
  predicate Blank(s: seq<byte>)
    decreases |s|
  {
    s == []
    || (var n := ScalarLength(s); n > 0 && Whitespace(s[..n]) && Blank(s[n..]))
  }

  /** The code points with the Unicode White_Space property. */
  predicate WhiteSpace(c: CodePoint) {
    || 0x09 <= c <= 0x0D || c == 0x20 || c == 0x85 || c == 0xA0 || c == 0x1680 || 0x2000 <= c <= 0x200A
    || c == 0x2028 || c == 0x2029 || c == 0x202F || c == 0x205F || c == 0x3000
  }

  lemma WhitespaceIsWhiteSpace(c: CodePoint)
    ensures Whitespace(Encoded(c)) <==> WhiteSpace(c)
  {
  }

  predicate AllWhiteSpace(cs: seq<CodePoint>) { forall i :: 0 <= i < |cs| ==> WhiteSpace(cs[i]) }

  /** Blank is exactly a sequence of white-space code points, the empty one included. */
  lemma BlankIsWhiteSpace(s: seq<byte>)
    ensures Blank(s) <==> exists cs: seq<CodePoint> :: AllWhiteSpace(cs) && EncodedAll(cs) == s
  {
    if Blank(s) {
      var cs := WhiteSpaceOf(s);
    }
    if cs: seq<CodePoint> :| AllWhiteSpace(cs) && EncodedAll(cs) == s {
      WhiteSpaceIsBlank(cs);
    }
  }

  lemma {:induction false} WhiteSpaceOf(s: seq<byte>) returns (cs: seq<CodePoint>)
    requires Blank(s)
    ensures AllWhiteSpace(cs) && EncodedAll(cs) == s
    decreases |s|
  {
    hide Encoded, Decoded, Whitespace, WhiteSpace;
    if s == [] {
      cs := [];
    } else {
      var n := ScalarLength(s);
      DecodedEncodes(s);
      WhitespaceIsWhiteSpace(Decoded(s));
      var more := WhiteSpaceOf(s[n..]);
      cs := [Decoded(s)] + more;
      assert cs[1..] == more && s[..n] + s[n..] == s;
    }
  }

  lemma WhiteSpaceIsScalar(c: CodePoint)
    requires WhiteSpace(c)
    ensures IsScalar(c)
  {
  }

  lemma {:induction false} WhiteSpaceIsBlank(cs: seq<CodePoint>)
    requires AllWhiteSpace(cs)
    ensures Blank(EncodedAll(cs))
  {
    hide Encoded, ScalarLength, Whitespace, WhiteSpace;
    if cs != [] {
      var c, more := cs[0], EncodedAll(cs[1..]);
      WhiteSpaceIsBlank(cs[1..]);
      WhiteSpaceIsScalar(c);
      WhitespaceIsWhiteSpace(c);
      EncodedIsScalar(c, more);
      var s := EncodedAll(cs);
      assert s[..|Encoded(c)|] == Encoded(c) && s[|Encoded(c)|..] == more;
    }
  }

  // ---------------------------------------------------------------- ASCII literals

  function Ascii(s: string): (r: seq<byte>)
    ensures |r| == |s|
  {
    seq(|s|, i requires 0 <= i < |s| => s[i] as int % 128)
  }

  lemma {:induction false} AsciiIsUtf8(s: string)
    ensures ValidUtf8(Ascii(s))
  {
    if s != "" {
      AsciiIsUtf8(s[1..]);
      assert Ascii(s)[1..] == Ascii(s[1..]);
    }
  }

  function Lit(s: string): Text {
    AsciiIsUtf8(s);
    Ascii(s)
  }

  // ---------------------------------------------------------------- names

  const DOT: byte := 0x2E
  const DASH: byte := 0x2D

  predicate Lower(b: byte) { 0x61 <= b <= 0x7A }
  predicate Alnum(b: byte) { Lower(b) || 0x30 <= b <= 0x39 }

  /** What a scan with one separator flag can see: neighbouring bytes only. */
  predicate Scanned(s: seq<byte>, seps: set<byte>) {
    && s != [] && Lower(s[0]) && s[|s| - 1] !in seps
    && (forall i :: 0 <= i < |s| ==> Alnum(s[i]) || s[i] in seps)
    && (forall i :: 0 <= i < |s| - 1 ==> s[i] !in seps || s[i + 1] !in seps)
  }

  /** The grammar: alphanumeric runs joined by single separators. */
  datatype Name = Last(run: seq<byte>) | Joined(run: seq<byte>, sep: byte, rest: Name)

  function Render(n: Name): seq<byte> {
    match n
    case Last(run) => run
    case Joined(run, sep, rest) => run + [sep] + Render(rest)
  }

  predicate WellShaped(n: Name, seps: set<byte>) {
    && n.run != [] && (forall i :: 0 <= i < |n.run| ==> Alnum(n.run[i]))
    && (n.Joined? ==> n.sep in seps && WellShaped(n.rest, seps))
  }

  ghost predicate IsName(s: seq<byte>, seps: set<byte>) {
    s != [] && Lower(s[0]) && exists n: Name :: WellShaped(n, seps) && Render(n) == s
  }

  predicate Seps(seps: set<byte>) { forall b :: b in seps ==> !Alnum(b) }

  predicate NeighbourRule(s: seq<byte>, seps: set<byte>) {
    && s != [] && s[0] !in seps && s[|s| - 1] !in seps
    && (forall i :: 0 <= i < |s| ==> Alnum(s[i]) || s[i] in seps)
    && (forall i :: 0 <= i < |s| - 1 ==> s[i] !in seps || s[i + 1] !in seps)
  }

  lemma {:induction false} RenderObeysNeighbours(n: Name, seps: set<byte>)
    requires Seps(seps) && WellShaped(n, seps)
    ensures NeighbourRule(Render(n), seps)
  {
    if n.Joined? {
      RenderObeysNeighbours(n.rest, seps);
      var s, k := Render(n), |n.run|;
      assert forall i :: 0 <= i < |s| ==>
        s[i] == if i < k then n.run[i] else if i == k then n.sep else Render(n.rest)[i - k - 1];
    }
  }

  lemma {:induction false} NeighboursParse(s: seq<byte>, seps: set<byte>) returns (n: Name)
    requires Seps(seps) && NeighbourRule(s, seps)
    ensures WellShaped(n, seps) && Render(n) == s
  {
    if |s| == 1 {
      n := Last(s);
    } else if s[1] in seps {
      var rest := NeighboursParse(s[2..], seps);
      n := Joined(s[..1], s[1], rest);
    } else {
      var m := NeighboursParse(s[1..], seps);
      n := if m.Last? then Last(s[..1] + m.run) else Joined(s[..1] + m.run, m.sep, m.rest);
      assert s == s[..1] + s[1..];
      if m.Joined? {
        assert Render(n) == s[..1] + Render(m);
      }
    }
  }

  /** A neighbour scan accepts exactly the grammar. */
  lemma ScannedIffName(s: seq<byte>, seps: set<byte>)
    requires Seps(seps)
    ensures Scanned(s, seps) <==> IsName(s, seps)
  {
    if Scanned(s, seps) {
      var n := NeighboursParse(s, seps);
    }
    if IsName(s, seps) {
      var n: Name :| WellShaped(n, seps) && Render(n) == s;
      RenderObeysNeighbours(n, seps);
    }
  }

  predicate TypeName(s: seq<byte>) { |s| <= 128 && Scanned(s, {DOT, DASH}) }
  predicate IsErrorCode(s: seq<byte>) { |s| <= 128 && Scanned(s, {DASH}) }

  /** Every error code is a type name without dots, and conversely. */
  lemma ErrorCodesAreDotlessTypeNames(s: seq<byte>)
    ensures IsErrorCode(s) <==> TypeName(s) && DOT !in s
  {
    if TypeName(s) && DOT !in s {
      assert forall i :: 0 <= i < |s| ==> s[i] != DOT;
    }
  }

  method IsValidTypeName(value: Text) returns (ok: bool)
    ensures ok <==> TypeName(value)
    ensures ok <==> |value| <= 128 && IsName(value, {DOT, DASH})
  {
    ScannedIffName(value, {DOT, DASH});
    if |value| == 0 || |value| > 128 {
      return false;
    }
    if !Lower(value[0]) {
      return false;
    }
    var separator := false;
    for i := 1 to |value|
      invariant separator <==> value[i - 1] in {DOT, DASH}
      invariant forall k :: 0 <= k < i ==> Alnum(value[k]) || value[k] in {DOT, DASH}
      invariant forall k :: 0 <= k < i - 1 ==> value[k] !in {DOT, DASH} || value[k + 1] !in {DOT, DASH}
    {
      var b := value[i];
      if b == DOT || b == DASH {
        if separator {
          return false;
        }
        separator := true;
      } else if Alnum(b) {
        separator := false;
      } else {
        return false;
      }
    }
    ok := !separator;
  }

  method RequireCode(code: Text) returns (ok: bool)
    ensures ok <==> IsErrorCode(code)
    ensures ok <==> |code| <= 128 && IsName(code, {DASH})
  {
    ScannedIffName(code, {DASH});
    if |code| == 0 || !Lower(code[0]) {
      return false;
    }
    var separator := false;
    for i := 1 to |code|
      invariant separator <==> code[i - 1] == DASH
      invariant forall k :: 0 <= k < i ==> Alnum(code[k]) || code[k] == DASH
      invariant forall k :: 0 <= k < i - 1 ==> code[k] != DASH || code[k + 1] != DASH
    {
      var b := code[i];
      if b == DASH {
        if separator {
          return false;
        }
        separator := true;
      } else if Alnum(b) {
        separator := false;
      } else {
        return false;
      }
    }
    ok := !separator && |code| <= 128;
  }
}
