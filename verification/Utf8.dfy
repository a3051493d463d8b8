/** UTF-8 as the runtime encodes strings: surrogate pairs take four bytes, a lone surrogate is replaced. */
module Utf8 {
  import opened JsonSyntax

  type Byte = b: int | 0 <= b < 256

  predicate IsHigh(u: Unit) { 0xD800 <= u < 0xDC00 }
  predicate IsLow(u: Unit) { 0xDC00 <= u < 0xE000 }
  predicate IsPair(t: Text) { |t| >= 2 && IsHigh(t[0]) && IsLow(t[1]) }

  /** What one character takes: a surrogate pair is one character. */
  function FirstLength(t: Text): nat
    requires t != []
  {
    if IsPair(t) then 2 else 1
  }

  function CodePoint(high: int, low: int): (point: int)
    requires 0xD800 <= high < 0xDC00 <= low < 0xE000
    ensures 0x1_0000 <= point < 0x11_0000
  {
    0x1_0000 + (high - 0xD800) * 0x400 + (low - 0xDC00)
  }

  function EncodeWide(point: int): (bytes: seq<Byte>)
    requires 0x1_0000 <= point < 0x11_0000
  {
    [0xF0 + point / 64 / 64 / 64, 0x80 + point / 64 / 64 % 64, 0x80 + point / 64 % 64, 0x80 + point % 64]
  }

  function EncodeFirst(t: Text): (bytes: seq<Byte>)
    requires t != []
  {
    var u: int := t[0];
    if IsPair(t) then EncodeWide(CodePoint(u, t[1]))
    else if IsHigh(u) || IsLow(u) then [0xEF, 0xBF, 0xBD]
    else if u < 0x80 then [u]
    else if u < 0x800 then [0xC0 + u / 64, 0x80 + u % 64]
    else [0xE0 + u / 64 / 64, 0x80 + u / 64 % 64, 0x80 + u % 64]
  }

  function Encode(t: Text): (bytes: seq<Byte>) {
    if t == [] then [] else EncodeFirst(t) + Encode(t[FirstLength(t)..])
  }

  /** No lone surrogates. */
  predicate WellFormed(t: Text) {
    t != [] ==> (IsPair(t) || !(IsHigh(t[0]) || IsLow(t[0]))) && WellFormed(t[FirstLength(t)..])
  }

  /** A text after which any other may be put without making a surrogate pair. */
  predicate Closed(t: Text) { t != [] ==> !IsHigh(t[|t| - 1]) }

  lemma {:induction false} EncodeJoins(a: Text, b: Text)
    requires Closed(a)
    ensures Encode(a + b) == Encode(a) + Encode(b)
    decreases |a|
  {
    hide EncodeFirst, FirstLength, Closed;
    if a == [] {
      assert a + b == b;
    } else {
      FirstOfJoined(a, b);
      var n := FirstLength(a);
      EncodeJoins(a[n..], b);
      Regroup(EncodeFirst(a), Encode(a[n..]), Encode(b));
    }
  }

  lemma Regroup(a: seq<Byte>, b: seq<Byte>, c: seq<Byte>)
    ensures (a + b) + c == a + (b + c)
  {
  }

  lemma FirstOfJoined(a: Text, b: Text)
    requires a != [] && Closed(a)
    ensures IsPair(a + b) == IsPair(a) && 0 < FirstLength(a + b) == FirstLength(a) <= |a| &&
              EncodeFirst(a + b) == EncodeFirst(a)
    ensures var n := FirstLength(a); Closed(a[n..]) && (a + b)[n..] == a[n..] + b
  {
    assert |a| == 1 ==> !IsHigh(a[0]);
  }

  lemma {:induction false} WellFormedJoins(a: Text, b: Text)
    requires WellFormed(a) && WellFormed(b) && Closed(a)
    ensures WellFormed(a + b)
    decreases |a|
  {
    if a == [] {
      assert a + b == b;
    } else {
      FirstOfJoined(a, b);
      WellFormedJoins(a[FirstLength(a)..], b);
    }
  }

  lemma {:induction false} EncodeIsNoShorter(t: Text)
    ensures |Encode(t)| >= |t|
    decreases |t|
  {
    if t != [] { EncodeIsNoShorter(t[FirstLength(t)..]); }
  }

  /** The character at the start of a byte string. */
  function DecodeFirst(bytes: seq<Byte>): (t: Text)
    requires bytes != [] && |bytes| >= DecodeFirstLength(bytes[0])
  {
    var b: int := bytes[0];
    if b < 0x80 then [b]
    else if b < 0xC0 then []
    else if b < 0xE0 then [(b - 0xC0) * 64 + Low6(bytes[1])]
    else if b < 0xF0 then [((b - 0xE0) * 64 + Low6(bytes[1])) * 64 + Low6(bytes[2])]
    else DecodeWide((((b - 0xF0) * 64 + Low6(bytes[1])) * 64 + Low6(bytes[2])) * 64 + Low6(bytes[3]))
  }

  function Low6(b: Byte): int { b % 64 }

  function DecodeWide(point: int): Text {
    if 0x1_0000 <= point < 0x11_0000 then [0xD800 + (point - 0x1_0000) / 0x400, 0xDC00 + (point - 0x1_0000) % 0x400]
        else []
  }

  function DecodeFirstLength(b: Byte): nat { if b < 0x80 then 1 else if b < 0xE0 then 2 else if b < 0xF0 then 3 else 4 }

  /** What a decoder reads back from a well-formed text. */
  function Decode(bytes: seq<Byte>): (t: Text)
    decreases |bytes|
  {
    if bytes == [] || |bytes| < DecodeFirstLength(bytes[0]) then []
    else DecodeFirst(bytes) + Decode(bytes[DecodeFirstLength(bytes[0])..])
  }

  lemma SixBitsAtATime(n: int)
    requires n >= 0
    ensures ((n / 64 / 64 / 64 * 64 + n / 64 / 64 % 64) * 64 + n / 64 % 64) * 64 + n % 64 == n
  {
    var q := n / 64;
    assert (q / 64 / 64 * 64 + q / 64 % 64) * 64 + q % 64 == q;
  }

  lemma WideIsPair(high: int, low: int)
    requires 0xD800 <= high < 0xDC00 <= low < 0xE000
    ensures DecodeWide(CodePoint(high, low)) == [high, low]
  {
  }

  lemma Low6Of(n: int)
    requires 0 <= n < 64
    ensures Low6(0x80 + n) == n
  {
  }

  lemma DecodeEncodeWide(high: int, low: int, rest: seq<Byte>)
    requires 0xD800 <= high < 0xDC00 <= low < 0xE000
    ensures var bytes := EncodeWide(CodePoint(high, low));
            |bytes| == DecodeFirstLength(bytes[0]) && DecodeFirst(bytes + rest) == [high, low]
  {
    hide CodePoint, DecodeWide, Low6;
    var n := CodePoint(high, low);
    var bytes := EncodeWide(n) + rest;
    WideIsPair(high, low);
    SixBitsAtATime(n);
    Low6Of(n / 64 / 64 % 64);
    Low6Of(n / 64 % 64);
    Low6Of(n % 64);
    assert bytes[..4] == EncodeWide(n);
    assert bytes[0] as int - 0xF0 == n / 64 / 64 / 64;
  }

  lemma DecodeEncodeNarrow(u: Unit, rest: seq<Byte>)
    requires !IsHigh(u) && !IsLow(u)
    ensures var bytes := EncodeFirst([u]); |bytes| == DecodeFirstLength(bytes[0]) && DecodeFirst(bytes + rest) == [u]
  {
    hide EncodeWide, CodePoint, DecodeWide, Low6;
    var n: int := u;
    Low6Of(n % 64);
    Low6Of(n / 64 % 64);
    var bytes := EncodeFirst([u]);
    assert (bytes + rest)[..|bytes|] == bytes;
    assert n / 64 * 64 + n % 64 == n;
    assert n / 64 / 64 * 64 + n / 64 % 64 == n / 64;
  }

  lemma DecodeEncodeFirst(t: Text, rest: seq<Byte>)
    requires t != [] && (IsPair(t) || !(IsHigh(t[0]) || IsLow(t[0])))
    ensures var bytes := EncodeFirst(t);
            |bytes| == DecodeFirstLength(bytes[0]) && DecodeFirst(bytes + rest) == t[..FirstLength(t)]
  {
    hide DecodeFirst, EncodeWide;
    if IsPair(t) { DecodeEncodeWide(t[0], t[1], rest); } else { DecodeEncodeNarrow(t[0], rest); }
  }

  /** Encoding loses nothing of a well-formed text. */
  lemma {:induction false} DecodeEncode(t: Text)
    requires WellFormed(t)
    ensures Decode(Encode(t)) == t
    decreases |t|
  {
    hide EncodeFirst, DecodeFirst;
    if t != [] {
      var n := FirstLength(t);
      var first, rest := EncodeFirst(t), Encode(t[n..]);
      DecodeEncodeFirst(t, rest);
      DecodeEncode(t[n..]);
      assert (first + rest)[|first|..] == rest;
      assert t == t[..n] + t[n..];
    }
  }
}
