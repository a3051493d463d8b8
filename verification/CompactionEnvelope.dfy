/**
 The compaction envelope: a prefix and the base64 encoding (section 4 of RFC 4648) of a summary in UTF-8. Only
 canonical encodings (section 3.5) are taken back.
 */
module CompactionEnvelope {
  import opened Options
  import opened JsonSyntax
  import opened Utf8
  import opened Trimming

  const PAD: Unit := 0x3D
  const PLUS_SIGN: Unit := 0x2B

  /** "Token1:" */
  const PREFIX: Text := [0x54, 0x6F, 0x6B, 0x65, 0x6E, 0x31, 0x3A]

  // ----------------------------------------------------------------- base64

  function Symbol(n: int): (u: Unit)
    requires 0 <= n < 64
  {
    if n < 26 then 0x41 + n else if n < 52 then 0x61 + (n - 26) else if n < 62 then 0x30 + (n - 52)
    else if n == 62 then PLUS_SIGN else SLASH
  }

  predicate IsSymbol(u: Unit) {
    0x41 <= u <= 0x5A || 0x61 <= u <= 0x7A || 0x30 <= u <= 0x39 || u == PLUS_SIGN || u == SLASH
  }

  function Code(u: Unit): (n: int)
    requires IsSymbol(u)
    ensures 0 <= n < 64
  {
    if 0x41 <= u <= 0x5A then u - 0x41 else if 0x61 <= u <= 0x7A then u - 0x61 + 26
    else if 0x30 <= u <= 0x39 then u - 0x30 + 52 else if u == PLUS_SIGN then 62 else 63
  }

  function EncodeBytes(b: seq<Byte>): (t: Text) {
    if b == [] then []
    else if |b| == 1 then [Symbol(b[0] / 4), Symbol(b[0] % 4 * 16), PAD, PAD]
    else if |b| == 2 then [Symbol(b[0] / 4), Symbol(b[0] % 4 * 16 + b[1] / 16), Symbol(b[1] % 16 * 4), PAD]
    else EncodeThree(b[0], b[1], b[2]) + EncodeBytes(b[3..])
  }

  function EncodeThree(a: int, b: int, c: int): (t: Text)
    requires 0 <= a < 256 && 0 <= b < 256 && 0 <= c < 256
  {
    [Symbol(a / 4), Symbol(a % 4 * 16 + b / 16), Symbol(b % 16 * 4 + c / 64), Symbol(c % 64)]
  }

  predicate FourSymbols(t: Text) {
    |t| >= 4 && IsSymbol(t[0]) && IsSymbol(t[1]) && IsSymbol(t[2]) && IsSymbol(t[3])
  }

  /** Groups of four symbols, the last of which may be padded. */
  predicate Matches(t: Text) {
    t == []
    || (|t| == 4 && IsSymbol(t[0]) && IsSymbol(t[1]) && (t[2..] == [PAD, PAD] || (IsSymbol(t[2]) && t[3] == PAD)))
    || (FourSymbols(t) && Matches(t[4..]))
  }

  function DecodeFour(a: int, b: int, c: int, d: int): seq<Byte>
    requires 0 <= a < 64 && 0 <= b < 64 && 0 <= c < 64 && 0 <= d < 64
  {
    [a * 4 + b / 16, b % 16 * 16 + c / 4, c % 4 * 64 + d]
  }

  /** What a buffer makes of a text that matches; bits that do not fill a byte are dropped. */
  function DecodeText(t: Text): seq<Byte>
    requires Matches(t)
  {
    if t == [] then []
    else if t[3] == PAD && t[2] == PAD then [Code(t[0]) * 4 + Code(t[1]) / 16]
    else if t[3] == PAD then [Code(t[0]) * 4 + Code(t[1]) / 16, Code(t[1]) % 16 * 16 + Code(t[2]) / 4]
    else DecodeFour(Code(t[0]), Code(t[1]), Code(t[2]), Code(t[3])) + DecodeText(t[4..])
  }

  lemma SymbolCode(n: int)
    requires 0 <= n < 64
    ensures IsSymbol(Symbol(n)) && Code(Symbol(n)) == n && Symbol(n) != PAD
  {
  }

  lemma SplitAfterSix(a: int, x: int)
    requires 0 <= a < 256 && 0 <= x < 16
    ensures var n := a % 4 * 16 + x; n < 64 && a / 4 * 4 + n / 16 == a && n % 16 == x
  {
  }

  lemma SplitAfterTwelve(b: int, y: int)
    requires 0 <= b < 256 && 0 <= y < 4
    ensures var n := b % 16 * 4 + y; n < 64 && b / 16 * 16 + n / 4 == b && n % 4 == y
  {
  }

  lemma ThreeRoundTrip(a: int, b: int, c: int)
    requires 0 <= a < 256 && 0 <= b < 256 && 0 <= c < 256
    ensures var t := EncodeThree(a, b, c);
            FourSymbols(t) && t[3] != PAD && DecodeFour(Code(t[0]), Code(t[1]), Code(t[2]), Code(t[3])) == [a, b, c]
  {
    hide Symbol, Code, IsSymbol;
    var (p, q, r, s) := (a / 4, a % 4 * 16 + b / 16, b % 16 * 4 + c / 64, c % 64);
    SplitAfterSix(a, b / 16);
    SplitAfterTwelve(b, c / 64);
    SymbolCode(p);
    SymbolCode(q);
    SymbolCode(r);
    SymbolCode(s);
    DecodedFour(p, q, r, s, a, b, c);
  }

  lemma DecodedFour(p: int, q: int, r: int, s: int, a: Byte, b: Byte, c: Byte)
    requires 0 <= p < 64 && 0 <= q < 64 && 0 <= r < 64 && 0 <= s < 64
    requires p * 4 + q / 16 == a && q % 16 * 16 + r / 4 == b && r % 4 * 64 + s == c
    ensures DecodeFour(p, q, r, s) == [a, b, c]
  {
  }

  lemma TwoRoundTrip(a: Byte, b: Byte)
    ensures Matches(EncodeBytes([a, b])) && DecodeText(EncodeBytes([a, b])) == [a, b]
  {
    hide Symbol, Code, IsSymbol;
    SymbolCode(a / 4);
    SymbolCode(a % 4 * 16 + b / 16);
    SymbolCode(b % 16 * 4);
  }

  lemma OneRoundTrip(a: Byte)
    ensures Matches(EncodeBytes([a])) && DecodeText(EncodeBytes([a])) == [a]
  {
    hide Symbol, Code, IsSymbol;
    SymbolCode(a / 4);
    SymbolCode(a % 4 * 16);
  }

  /** The symbols are the upper-case letters, the lower-case ones, the digits, "+" and "/", in this order, as in table 1
      of RFC 4648. */
  lemma SymbolsAreStandard(n: nat)
    requires n < 64
    ensures Symbol(0) == 'A' as int && Symbol(26) == 'a' as int && Symbol(52) == '0' as int
    ensures Symbol(62) == '+' as int && Symbol(63) == '/' as int
    ensures n < 61 && n != 25 && n != 51 ==> Symbol(n + 1) == Symbol(n) + 1
  {
  }

  /** Three bytes are four symbols: the same number, in the base of bytes and in that of symbols, with the most
      significant part first. */
  lemma ThreeBytesAreFourSymbols(a: int, b: int, c: int)
    requires 0 <= a < 256 && 0 <= b < 256 && 0 <= c < 256
    ensures var t := EncodeThree(a, b, c);
            && |t| == 4 && FourSymbols(t)
            && ((Code(t[0]) * 64 + Code(t[1])) * 64 + Code(t[2])) * 64 + Code(t[3]) == (a * 256 + b) * 256 + c
  {
    hide Symbol, Code, IsSymbol;
    SplitAfterSix(a, b / 16);
    SplitAfterTwelve(b, c / 64);
    SymbolCode(a / 4);
    SymbolCode(a % 4 * 16 + b / 16);
    SymbolCode(b % 16 * 4 + c / 64);
    SymbolCode(c % 64);
  }

  /** What is left at the end is encoded as if zeros followed, which are then left out. */
  lemma RestIsPadded(a: Byte, b: Byte)
    ensures EncodeBytes([a]) == EncodeThree(a, 0, 0)[..2] + [PAD, PAD]
    ensures EncodeBytes([a, b]) == EncodeThree(a, b, 0)[..3] + [PAD]
  {
    hide Symbol;
  }

  /** Decoding gives back what was encoded. */
  lemma {:induction false} BytesRoundTrip(b: seq<Byte>)
    ensures Matches(EncodeBytes(b)) && DecodeText(EncodeBytes(b)) == b
    decreases |b|
  {
    if |b| == 1 {
      assert b == [b[0]];
      OneRoundTrip(b[0]);
    } else if |b| == 2 {
      assert b == [b[0], b[1]];
      TwoRoundTrip(b[0], b[1]);
    } else if |b| > 2 {
      hide Symbol, Code, IsSymbol, EncodeThree, DecodeFour;
      ThreeRoundTrip(b[0], b[1], b[2]);
      BytesRoundTrip(b[3..]);
      LongerMatches(EncodeThree(b[0], b[1], b[2]), EncodeBytes(b[3..]));
      assert b == [b[0], b[1], b[2]] + b[3..];
    }
  }

  lemma LongerMatches(head: Text, rest: Text)
    requires |head| == 4 && FourSymbols(head) && head[3] != PAD && Matches(rest)
    ensures Matches(head + rest)
    ensures DecodeText(head + rest) == DecodeFour(Code(head[0]), Code(head[1]), Code(head[2]), Code(head[3])) +
              DecodeText(rest)
  {
    hide Code, IsSymbol, DecodeFour;
    assert (head + rest)[4..] == rest;
    assert (head + rest)[..4] == head;
  }

  /** What the base64 stage takes: the pattern, and nothing but the canonical spelling. */
  predicate Canonical(t: Text) { t != [] && Matches(t) && EncodeBytes(DecodeText(t)) == t }

  /** The base64 stage takes exactly the encodings of non-empty byte strings. */
  lemma CanonicalIsEncoding(t: Text)
    ensures Canonical(t) <==> exists b: seq<Byte> :: b != [] && EncodeBytes(b) == t
  {
    hide Matches, DecodeText;
    if Canonical(t) {
      assert EncodeBytes(DecodeText(t)) == t;
    }
    if b: seq<Byte> :| b != [] && EncodeBytes(b) == t {
      BytesRoundTrip(b);
    }
  }

  // --------------------------------------------------------------- envelopes

  predicate IsBlankUnit(u: Unit) { BlankCode(u) }

  /** A decoder that fails on anything but well-formed UTF-8. */
  function DecodeStrictly(bytes: seq<Byte>): Option<Text> {
    var t := Utf8.Decode(bytes);
    if WellFormed(t) && Utf8.Encode(t) == bytes then Some(t) else None
  }

  lemma DecodeStrictlyIsExact(bytes: seq<Byte>, t: Text)
    ensures DecodeStrictly(bytes) == Some(t) <==> WellFormed(t) && Utf8.Encode(t) == bytes
  {
    hide Utf8.Encode, Utf8.Decode, WellFormed;
    if WellFormed(t) { Utf8.DecodeEncode(t); }
  }

  function EncodeSummary(summary: Text): Text { PREFIX + EncodeBytes(Utf8.Encode(summary)) }

  function DecodeSummary(t: Text): Option<Text> {
    if !(PREFIX <= t) then None
    else
      var payload := t[|PREFIX|..];
      if payload == [] || !Canonical(payload) then None
      else
        match DecodeStrictly(DecodeText(payload))
        case None => None
        case Some(decoded) =>
          var summary := TrimBy(decoded, IsBlankUnit);
          if summary == [] then None else Some(summary)
  }

  /** A summary as the gateway makes it: trimmed, not empty, and without lone surrogates. */
  predicate Proper(summary: Text) { summary != [] && WellFormed(summary) && TrimBy(summary, IsBlankUnit) == summary }

  lemma SomethingIsEncoded(t: Text)
    requires t != []
    ensures Utf8.Encode(t) != []
  {
    hide Utf8.Encode;
    EncodeIsNoShorter(t);
  }

  /** An envelope opens to exactly the summary that was put in. */
  lemma SummaryRoundTrip(summary: Text)
    requires Proper(summary)
    ensures DecodeSummary(EncodeSummary(summary)) == Some(summary)
  {
    hide Utf8.Encode, DecodeStrictly, WellFormed, EncodeBytes, Matches, DecodeText, IsBlankUnit, TrimBy;
    var bytes := Utf8.Encode(summary);
    SomethingIsEncoded(summary);
    BytesRoundTrip(bytes);
    EncodingIsNotEmpty(bytes);
    DecodeStrictlyIsExact(bytes, summary);
    var t := EncodeSummary(summary);
    assert t[|PREFIX|..] == EncodeBytes(bytes);
  }

  lemma EncodingIsNotEmpty(b: seq<Byte>)
    requires b != []
    ensures EncodeBytes(b) != []
  {
  }

  /** An envelope opens exactly if it carries a text that is not blank; then it gives that text, trimmed. */
  lemma OpensExactly(t: Text, summary: Text)
    ensures DecodeSummary(t) == Some(summary) <==>
            exists carried: Text :: WellFormed(carried) && t == EncodeSummary(carried) && summary != []
                                    && summary == TrimBy(carried, IsBlankUnit)
  {
    hide Utf8.Encode, DecodeStrictly, WellFormed, EncodeBytes, Matches, DecodeText, IsBlankUnit, TrimBy;
    if DecodeSummary(t) == Some(summary) {
      var payload := t[|PREFIX|..];
      var carried := DecodeStrictly(DecodeText(payload)).value;
      DecodeStrictlyIsExact(DecodeText(payload), carried);
      assert t == PREFIX + payload;
      assert EncodeSummary(carried) == t;
    }
    if carried: Text :|
      WellFormed(carried) && t == EncodeSummary(carried) && summary != [] && summary == TrimBy(carried, IsBlankUnit)
    {
      NotBlankIsNotEmpty(carried);
      var bytes := Utf8.Encode(carried);
      SomethingIsEncoded(carried);
      BytesRoundTrip(bytes);
      EncodingIsNotEmpty(bytes);
      DecodeStrictlyIsExact(bytes, carried);
      assert t[|PREFIX|..] == EncodeBytes(bytes);
    }
  }

  lemma NotBlankIsNotEmpty(t: Text)
    requires TrimBy(t, IsBlankUnit) != []
    ensures t != []
  {
  }

  // --------------------------------------------------------------- expansion

  /** An item of a request's input, as far as expansion looks at it. */
  datatype Item =
    | Compaction(summaryKind: bool, content: Option<Text>, rest: Text)
    | UserMessage(text: Text)
    | OtherItem(rest: Text)

  predicate Expands(i: Item) { i.Compaction? && i.content.Some? && DecodeSummary(i.content.value).Some? }

  function ExpandItem(i: Item, before: Text, after: Text): Item {
    if Expands(i) then UserMessage(before + DecodeSummary(i.content.value).value + after) else i
  }

  /** Every compaction item that opens becomes a message with its summary; every other item stays as it is. */
  function ExpandEnvelopes(input: seq<Item>, before: Text, after: Text): (out: seq<Item>)
    ensures |out| == |input|
    ensures forall k :: 0 <= k < |input| ==> (out[k] != input[k] <==> Expands(input[k]))
    ensures forall k :: 0 <= k < |input| && Expands(input[k]) ==>
              input[k].Compaction? && out[k] == UserMessage(before + DecodeSummary(input[k].content.value).value +
                  after)
  {
    seq(|input|, k requires 0 <= k < |input| => ExpandItem(input[k], before, after))
  }

  /** What was compacted comes back as plain text in its place. */
  lemma CompactedComesBack(input: seq<Item>, k: nat, summary: Text, before: Text, after: Text)
    requires k < |input| && Proper(summary) && input[k].Compaction? && input[k].content == Some(EncodeSummary(summary))
    ensures ExpandEnvelopes(input, before, after)[k] == UserMessage(before + summary + after)
  {
    hide DecodeSummary, EncodeSummary, Proper;
    SummaryRoundTrip(summary);
  }
}
