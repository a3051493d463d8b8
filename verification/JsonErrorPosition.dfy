/**
 What a reported error means. The text can be completed to a JSON text up to some position and no further; this
 module says where that position is from the reported one, and which characters could have stood there instead.
 */
module JsonErrorPosition {
  import opened JsonSyntax
  import opened JsonScanner
  import opened JsonRecogniser

  const BANG: Unit := 0x21

  ghost predicate Completable(t: Text) { exists u: Text :: IsJson(t + u) }

  /** The first `n` characters can be completed to a JSON text, and no more than these. */
  ghost predicate LongestPrefix(t: Text, n: nat) {
    n <= |t| && Completable(t[..n]) && (n < |t| ==> !Completable(t[..n + 1]))
  }

  /** What the report says of the text around the position `n` that it can be completed to: an error in an escape, a
      word or a string that is left open is reported where these begin, any other at `n` itself. */
  ghost predicate PointsAt(t: Text, at: nat, r: Reason, n: nat) {
    && at <= n <= |t|
    && match r
       case UnexpectedEnd => at == n == |t|
       case UnterminatedString =>
         n == |t| && Here(t, at, QUOTE) && exists s :: CharsOk(s) && t[at + 1..] == CharsText(s)
       case InvalidEscape => Here(t, at, BACKSLASH) && n == at + 1
       case InvalidHex =>
         && at + 2 <= n < at + 6 && t[at] == BACKSLASH && t[at + 1] == LOWER_U
         && (forall k :: at + 2 <= k < n ==> IsHex(t[k])) && (n < |t| ==> !IsHex(t[n]))
       case ExpectedWord(w) => at < n < at + |w.Spelling()| && t[at..n] == w.Spelling()[..n - at]
       case ControlCharacter => at == n < |t| && t[at] < 0x20
       case DigitAfterZero => at == n < |t| && at > 0 && t[at - 1] == ZERO && IsDigit(t[at])
       case InvalidNumber => at == n > 0 && t[at - 1] == MINUS
       case NoFractionDigit => at == n > 0 && t[at - 1] == DOT
       case NoExponentDigit => at == n > 0 && t[at - 1] in [LOWER_E, UPPER_E, PLUS, MINUS]
       case UnexpectedCharacter(u) => at == n && Here(t, at, u)
       case TrailingContent => at == n < |t| && IsJson(t[..at])
       case _ => at == n
  }

  /** Something that could have stood at the reported position, up to which the text is kept. A line feed can stand
      between tokens only, and an exclamation mark only in a string. */
  predicate CouldStand(r: Reason, c: Text) {
    match r
    case UnterminatedString => c == [LF]
    case InvalidEscape | InvalidHex | ControlCharacter => c == [BANG]
    case UnexpectedEnd | UnexpectedCharacter(_) | ExpectedWord(_) => c == [LF, ZERO]
    case InvalidNumber => c == [ZERO, DOT, ZERO]
    case NoFractionDigit => c == [ZERO]
    case NoExponentDigit => c == [ZERO, ZERO]
    case NoPropertyName => c == [LF, QUOTE, QUOTE, COLON]
    case NoColon => c == [LF, COLON]
    case NoCommaOrBrace => c == [LF, COMMA] || c == [LF, RBRACE]
    case NoCommaOrBracket => c == [LF, COMMA] || c == [LF, RBRACKET]
    case DigitAfterZero | TrailingContent => false
  }

  /** The report is the right one. */
  ghost predicate ErrorIsRight(t: Text, at: nat, r: Reason) {
    && (exists n :: LongestPrefix(t, n) && PointsAt(t, at, r, n))
    && at <= |t| && forall c :: CouldStand(r, c) ==> Completable(t[..at] + c)
  }

  // ------------------------------------------------- how far a text is good

  function HexStop(t: Text, i: nat, left: nat): (n: nat)
    ensures i <= n <= i + left && (i <= |t| ==> n <= |t|)
    ensures forall k :: i <= k < n ==> k < |t| && IsHex(t[k])
    ensures n < i + left && n < |t| ==> !IsHex(t[n])
    decreases left
  {
    if left == 0 || i >= |t| || !IsHex(t[i]) then i else HexStop(t, i + 1, left - 1)
  }

  function Matched(t: Text, i: nat, word: Text): (n: nat)
    ensures n <= |word| && (i <= |t| ==> i + n <= |t|)
    ensures i <= |t| ==> t[i..i + n] == word[..n]
    ensures n < |word| && i + n < |t| ==> t[i + n] != word[n]
    decreases |word|
  {
    if word == [] || i >= |t| || t[i] != word[0] then 0
    else
      assert word[1..][..Matched(t, i + 1, word[1..])] == word[1..1 + Matched(t, i + 1, word[1..])];
      1 + Matched(t, i + 1, word[1..])
  }

  /** How far the text can be completed, if this is the error in it. */
  function Limit(t: Text, at: nat, r: Reason): (n: nat)
    ensures at <= n
  {
    match r
    case UnterminatedString => if at <= |t| then |t| else at
    case InvalidEscape => at + 1
    case InvalidHex => HexStop(t, at + 2, 4)
    case ExpectedWord(w) => at + Matched(t, at, w.Spelling())
    case _ => at
  }

  /** The positions up to which the text is kept, and what is put there then, in what follows. */
  predicate Kept(t: Text, o: Outcome, p: nat, c: Text)
    requires o.Bad?
  {
    (p == Limit(t, o.at, o.reason) && c == []) || (p == o.at && CouldStand(o.reason, c))
  }

  /** From `i` up to `p`, and then `u` instead of what follows, the text reads `a`. */
  predicate Reads(t: Text, i: nat, p: nat, u: Text, a: Text) { i <= p <= |t| && t[i..p] + u == a }

  lemma ReadsOn(t: Text, i: nat, p: nat, u: Text, a: Text, b: Text)
    requires At(t, i, a) && i + |a| <= p && Reads(t, i + |a|, p, u, b)
    ensures Reads(t, i, p, u, a + b)
  {
    assert t[i..p] == t[i..i + |a|] + t[i + |a|..p];
  }

  lemma ReadsMore(t: Text, i: nat, p: nat, u: Text, a: Text, b: Text)
    requires Reads(t, i, p, u, a)
    ensures Reads(t, i, p, u + b, a + b)
  {
  }

  lemma ReadsOnly(t: Text, p: nat, u: Text)
    requires p <= |t|
    ensures Reads(t, p, p, u, u)
  {
    assert t[p..p] == [];
  }

  /** The text up to `p` is kept, and `b` put in place of the rest. */
  lemma ReadsThen(t: Text, i: nat, a: Text, b: Text)
    requires At(t, i, a)
    ensures Reads(t, i, i + |a|, b, a + b)
  {
  }

  const ZERO_VALUE: Value := Number(false, [ZERO], [], NoExponent)

  lemma ZeroText()
    ensures ValueOk(ZERO_VALUE) && ValueText(ZERO_VALUE) == [ZERO]
  {
  }

  // ------------------------------------------------------ strings and numbers

  predicate CharIsBad(t: Text, i: nat) {
    i >= |t| || t[i] < 0x20 ||
    (t[i] == BACKSLASH && !(i + 1 < |t| && IsEscape(t[i + 1])) &&
     !(Here(t, i + 1, LOWER_U) && i + 6 <= |t| && IsHex(t[i + 2]) && IsHex(t[i + 3]) && IsHex(t[i + 4]) &&
         IsHex(t[i + 5])))
  }

  lemma NoCharsText()
    ensures CharsText([]) + [QUOTE] == [QUOTE]
  {
  }

  /** A good character of a string that goes wrong later. */
  lemma CharHere(t: Text, i: nat, start: nat) returns (c: Char)
    requires start < i <= |t| && ScanChars(t, i, start).Bad? && !CharIsBad(t, i)
    ensures CharOk(c) && At(t, i, CharText(c)) && |CharText(c)| > 0 && i + |CharText(c)| <= |t|
    ensures ScanChars(t, i, start) == ScanChars(t, i + |CharText(c)|, start)
  {
    hide IsHex, IsEscape, At, CharText;
    if t[i] == BACKSLASH && i + 1 < |t| && IsEscape(t[i + 1]) {
      c := Escaped(t[i + 1]);
      EscapeSound(t, i);
    } else if t[i] == BACKSLASH {
      c := Hex(t[i + 2..i + 6]);
      HexSound(t, i);
    } else {
      c := PlainSound(t, i);
    }
  }

  lemma {:induction false} BadWithin(t: Text, i: nat, start: nat)
    requires start < i <= |t| && ScanChars(t, i, start).Bad?
    ensures var o := ScanChars(t, i, start); if o.reason.UnterminatedString? then o.at == start else i <= o.at
    decreases |t| - i
  {
    if !CharIsBad(t, i) {
      var c := CharHere(t, i, start);
      BadWithin(t, i + |CharText(c)|, start);
    }
  }

  /** The fault in a string mended. */
  lemma BadCharViable(t: Text, i: nat, start: nat, p: nat, c: Text) returns (s: seq<Char>, u: Text)
    requires start < i <= |t| && ScanChars(t, i, start).Bad? && CharIsBad(t, i)
    requires Kept(t, ScanChars(t, i, start), p, c) && p > start
    ensures CharsOk(s) && c <= u && Reads(t, i, p, u, CharsText(s) + [QUOTE])
  {
    hide Matched, HexStop;
    if p == i && i < |t| {
      s, u := [Plain(BANG)], [BANG, QUOTE];
      assert CharsText(s) == [BANG] + CharsText([]);
      ReadsOnly(t, i, u);
    } else if p == i {
      s, u := [], [QUOTE];
      ReadsOnly(t, i, u);
    } else if ScanChars(t, i, start).reason == InvalidHex {
      s, u := HexMended(t, i);
    } else {
      s, u := [Escaped(QUOTE)], [QUOTE, QUOTE];
      assert CharsText(s) == [BACKSLASH, QUOTE] + CharsText([]);
      assert t[i..i + 1] == [BACKSLASH];
    }
  }

  lemma HexMended(t: Text, i: nat) returns (s: seq<Char>, u: Text)
    requires i + 2 <= |t| && t[i] == BACKSLASH && t[i + 1] == LOWER_U
    ensures CharsOk(s) && Reads(t, i, HexStop(t, i + 2, 4), u, CharsText(s) + [QUOTE])
  {
    hide IsHex, CharText;
    var n := HexStop(t, i + 2, 4);
    var digits := HexPadded(t, i + 2, n);
    s, u := [Hex(digits)], digits[n - i - 2..] + [QUOTE];
    HexChar(digits);
    assert t[i..n] == [BACKSLASH, LOWER_U] + t[i + 2..n];
    assert digits == t[i + 2..n] + digits[n - i - 2..];
  }

  lemma HexPadded(t: Text, i: nat, n: nat) returns (digits: Text)
    requires i <= n <= |t| && n <= i + 4 && forall k :: i <= k < n ==> IsHex(t[k])
    ensures |digits| == 4 && (forall k :: 0 <= k < 4 ==> IsHex(digits[k])) && digits[..n - i] == t[i..n]
  {
    digits := t[i..n];
    while |digits| < 4
      invariant n - i <= |digits| <= 4 && digits[..n - i] == t[i..n]
      invariant forall k :: 0 <= k < |digits| ==> IsHex(digits[k])
    {
      digits := digits + [ZERO];
    }
  }

  lemma HexChar(digits: Text)
    requires |digits| == 4 && forall k :: 0 <= k < 4 ==> IsHex(digits[k])
    ensures CharOk(Hex(digits)) && CharsText([Hex(digits)]) == [BACKSLASH, LOWER_U] + digits
  {
    hide IsHex;
    assert CharsText([]) == [];
    assert [Hex(digits)][1..] == [];
  }

  lemma {:induction false} CharsViable(t: Text, i: nat, start: nat, p: nat, c: Text) returns (s: seq<Char>, u: Text)
    requires start < i <= |t| && ScanChars(t, i, start).Bad? && Kept(t, ScanChars(t, i, start), p, c) && p > start
    ensures CharsOk(s) && c <= u && Reads(t, i, p, u, CharsText(s) + [QUOTE])
    decreases |t| - i
  {
    hide At, CharsText, CharText, CharOk, IsHex, IsEscape, Reads, CouldStand, Limit;
    if CharIsBad(t, i) {
      s, u := BadCharViable(t, i, start, p, c);
    } else {
      var first := CharHere(t, i, start);
      var rest;
      rest, u := CharsViable(t, i + |CharText(first)|, start, p, c);
      s := [first] + rest;
      CharsTextOfMore(first, rest, [QUOTE]);
      KeptWithin(t, i + |CharText(first)|, start, p, c);
      ReadsOn(t, i, p, u, CharText(first), CharsText(rest) + [QUOTE]);
    }
  }

  lemma KeptWithin(t: Text, i: nat, start: nat, p: nat, c: Text)
    requires start < i <= |t| && ScanChars(t, i, start).Bad? && Kept(t, ScanChars(t, i, start), p, c) && p > start
    ensures i <= p
  {
    hide ScanChars, CouldStand, HexStop, Matched;
    BadWithin(t, i, start);
  }

  lemma StringViable(t: Text, i: nat, p: nat, c: Text) returns (s: seq<Char>, u: Text)
    requires Here(t, i, QUOTE) && ScanString(t, i).Bad? && Kept(t, ScanString(t, i), p, c) && p > i
    ensures CharsOk(s) && c <= u && Reads(t, i, p, u, StringText(s))
  {
    hide At, CharsText, ScanChars, CharsOk, Reads, CouldStand, Limit;
    s, u := CharsViable(t, i + 1, i, p, c);
    KeptWithin(t, i + 1, i, p, c);
    AtOne(t, i, QUOTE);
    ReadsOn(t, i, p, u, [QUOTE], CharsText(s) + [QUOTE]);
  }

  lemma NoCharsOk()
    ensures CharsOk([])
  {
  }

  lemma ExponentViable(t: Text, i: nat, p: nat, c: Text) returns (e: Exponent, u: Text)
    requires i <= |t| && ScanExponent(t, i).Bad? && Kept(t, ScanExponent(t, i), p, c)
    ensures ExponentOk(e) && c <= u && Reads(t, i, p, u, ExponentText(e))
  {
    var j := MarkSound(t, i);
    e, u := Exponent(t[i], t[i + 1..j], [ZERO, ZERO]), [ZERO, ZERO];
    ReadsThen(t, i, [t[i]] + t[i + 1..j], [ZERO, ZERO]);
  }

  lemma FractionViable(t: Text, i: nat, p: nat, c: Text) returns (f: Text, e: Exponent, u: Text)
    requires i <= |t| && ScanFraction(t, i).Bad? && Kept(t, ScanFraction(t, i), p, c)
    ensures AllDigits(f) && ExponentOk(e) && c <= u && Reads(t, i, p, u, FractionText(f) + ExponentText(e))
  {
    hide At, AllDigits, ExponentText, ExponentOk, ScanExponent, SkipDigits, Reads, Kept, FractionText;
    if !Here(t, i, DOT) {
      f := [];
      NoDigits();
      e, u := ExponentViable(t, i, p, c);
      NoFraction(e);
    } else if DigitHere(t, i + 1) {
      f, e, u := DigitsViable(t, i, p, c);
    } else {
      FractionFaultAt(t, i, p, c);
      f, e, u := [ZERO], NoExponent, [ZERO];
      AtOne(t, i, DOT);
      ReadsThen(t, i, [DOT], [ZERO]);
      OneZero();
    }
  }

  lemma NoFraction(e: Exponent)
    ensures FractionText([]) + ExponentText(e) == ExponentText(e)
  {
  }

  lemma FractionFaultAt(t: Text, i: nat, p: nat, c: Text)
    requires i <= |t| && Here(t, i, DOT) && !DigitHere(t, i + 1) && Kept(t, ScanFraction(t, i), p, c)
    ensures p == i + 1 && c <= [ZERO]
  {
  }

  lemma DigitsViable(t: Text, i: nat, p: nat, c: Text) returns (f: Text, e: Exponent, u: Text)
    requires i <= |t| && Here(t, i, DOT) && DigitHere(t, i + 1) && ScanFraction(t, i).Bad?
    requires Kept(t, ScanFraction(t, i), p, c)
    ensures AllDigits(f) && ExponentOk(e) && c <= u && Reads(t, i, p, u, FractionText(f) + ExponentText(e))
  {
    hide At, AllDigits, ExponentText, ExponentOk, ScanExponent, SkipDigits, Reads, Kept;
    var n := SkipDigits(t, i + 1);
    DigitsSound(t, i + 1, n);
    f := t[i + 1..n];
    SomeDigits(t, i + 1);
    e, u := ExponentViable(t, n, p, c);
    AtOne(t, i, DOT);
    AtParts(t, i, [DOT], f);
    ExponentFaultAt(t, n, p, c);
    ReadsOn(t, i, p, u, [DOT] + f, ExponentText(e));
  }

  lemma ExponentFaultAt(t: Text, i: nat, p: nat, c: Text)
    requires i <= |t| && ScanExponent(t, i).Bad? && Kept(t, ScanExponent(t, i), p, c)
    ensures i <= p
  {
  }

  lemma OneZero()
    ensures AllDigits([ZERO]) && ExponentOk(NoExponent) && WholeOk([ZERO])
    ensures FractionText([ZERO]) + ExponentText(NoExponent) == [DOT] + [ZERO]
    ensures [ZERO] + (FractionText([]) + ExponentText(NoExponent)) == [ZERO]
  {
  }

  lemma NumberViable(t: Text, i: nat, p: nat, c: Text) returns (v: Value, u: Text)
    requires i < |t| && ScanNumber(t, i).Bad? && Kept(t, ScanNumber(t, i), p, c)
    ensures ValueOk(v) && c <= u && Reads(t, i, p, u, ValueText(v))
  {
    hide At, AllDigits, ExponentText, ExponentOk, WholeOk, FractionText, ScanFraction, SkipDigits, Reads, Kept;
    var minus := t[i] == MINUS;
    var j := if minus then i + 1 else i;
    if minus { AtOne(t, i, MINUS); } else { AtNothing(t, i); }
    NoDigits();
    OneZero();
    if (Here(t, j, ZERO) && DigitHere(t, j + 1)) || !DigitHere(t, j) {
      NumberFaultAt(t, i, p, c);
      v, u := NumberMended(t, i, p, c);
    } else {
      var n := if Here(t, j, ZERO) then j + 1 else SkipDigits(t, j + 1);
      WholeSound(t, j, n);
      var f, e;
      f, e, u := FractionViable(t, n, p, c);
      v := Number(minus, t[j..n], f, e);
      var rest := FractionText(f) + ExponentText(e);
      FractionFaultWithin(t, n, p, c);
      ReadsOn(t, j, p, u, t[j..n], rest);
      ReadsOn(t, i, p, u, SignText(minus), t[j..n] + rest);
    }
  }

  lemma FractionFaultWithin(t: Text, i: nat, p: nat, c: Text)
    requires i <= |t| && ScanFraction(t, i).Bad? && Kept(t, ScanFraction(t, i), p, c)
    ensures i <= p
  {
    hide SkipDigits;
  }

  lemma NumberFaultAt(t: Text, i: nat, p: nat, c: Text)
    requires i < |t| && ScanNumber(t, i).Bad? && Kept(t, ScanNumber(t, i), p, c)
    requires var j := if t[i] == MINUS then i + 1 else i; (Here(t, j, ZERO) && DigitHere(t, j + 1)) || !DigitHere(t, j)
    ensures var j := if t[i] == MINUS then i + 1 else i;
            if DigitHere(t, j) then p == j + 1 && c == [] else p == j && c <= [ZERO, DOT, ZERO]
  {
    hide ScanFraction;
  }

  /** A digit after a leading zero, or no digit at all. */
  lemma NumberMended(t: Text, i: nat, p: nat, c: Text) returns (v: Value, u: Text)
    requires i < |t|
    requires var j := if t[i] == MINUS then i + 1 else i;
             if Here(t, j, ZERO) then p == j + 1 && c == [] else p == j && c <= [ZERO, DOT, ZERO]
    ensures ValueOk(v) && c <= u && Reads(t, i, p, u, ValueText(v))
  {
    hide At, AllDigits, ExponentText, ExponentOk, WholeOk, FractionText, Reads;
    var minus := t[i] == MINUS;
    var j := if minus then i + 1 else i;
    if minus { AtOne(t, i, MINUS); } else { AtNothing(t, i); }
    NoDigits();
    OneZero();
    if Here(t, j, ZERO) {
      v, u := Number(minus, [ZERO], [], NoExponent), [];
      AtOne(t, j, ZERO);
      AtParts(t, i, SignText(minus), [ZERO]);
      ReadsThen(t, i, SignText(minus) + [ZERO], []);
      assert SignText(minus) + [ZERO] + [] == ValueText(v);
    } else {
      v, u := Number(minus, [ZERO], [ZERO], NoExponent), [ZERO, DOT, ZERO];
      assert [ZERO] + (FractionText([ZERO]) + ExponentText(NoExponent)) == u;
      ReadsThen(t, i, SignText(minus), u);
    }
  }

  lemma WordViable(t: Text, i: nat, w: Word, p: nat) returns (u: Text)
    requires i < |t| && p == i + Matched(t, i, w.Spelling())
    ensures Reads(t, i, p, u, w.Spelling())
  {
    u := w.Spelling()[p - i..];
  }

  // ------------------------------------------------------------------- values

  /** What the recogniser stops in while it looks for a value can be completed to a value. */
  lemma {:induction false} ValueViable(t: Text, i: nat, p: nat, c: Text) returns (before: Text, v: Value, u: Text)
    requires i <= |t| && ScanValue(t, i).Bad? && Kept(t, ScanValue(t, i), p, c)
    ensures AllSpace(before) && ValueOk(v) && c <= u && Reads(t, i, p, u, before + ValueText(v))
    decreases |t| - i, 2
  {
    hide At, ValueText, ValueOk, SkipSpace, ScanValue, AllSpace, Reads, Kept;
    var k := SkipSpace(t, i);
    SpaceSound(t, i, k);
    ValueFaultAt(t, i, p, c);
    if p == k {
      before, v, u := t[i..k] + [LF], ZERO_VALUE, [LF, ZERO];
      ZeroText();
      MoreSpace(t[i..k]);
      ReadsThen(t, i, t[i..k], u);
      assert t[i..k] + u == before + [ZERO];
    } else {
      before := t[i..k];
      v, u := BareViable(t, i, k, p, c);
      ReadsOn(t, i, p, u, before, ValueText(v));
    }
  }

  lemma MoreSpace(space: Text)
    requires AllSpace(space)
    ensures AllSpace(space + [LF])
  {
  }

  /** Only a value that is missing, or a word or string as a whole, is reported where a value begins. */
  lemma ValueFaultAt(t: Text, i: nat, p: nat, c: Text)
    requires i <= |t| && ScanValue(t, i).Bad? && Kept(t, ScanValue(t, i), p, c)
    ensures SkipSpace(t, i) <= p && (p == SkipSpace(t, i) ==> c <= [LF, ZERO])
  {
    hide SkipSpace, ScanChars, ScanFraction, ScanMembers, ScanItems, Matched, HexStop;
    var k := SkipSpace(t, i);
    if Here(t, k, QUOTE) { StringFaultAt(t, k); }
  }

  lemma StringFaultAt(t: Text, i: nat)
    requires Here(t, i, QUOTE) && ScanString(t, i).Bad?
    ensures ScanString(t, i).at == i ==> ScanString(t, i).reason == UnterminatedString
  {
    hide ScanChars;
    BadWithin(t, i + 1, i);
  }

  lemma {:induction false} BareViable(t: Text, i: nat, k: nat, p: nat, c: Text) returns (v: Value, u: Text)
    requires i <= k < p && k <= |t| && k == SkipSpace(t, i) && ScanValue(t, i).Bad? && Kept(t, ScanValue(t, i), p, c)
    ensures ValueOk(v) && c <= u && Reads(t, k, p, u, ValueText(v))
    decreases |t| - k, 1
  {
    hide At, ValueText, SkipSpace, ScanNumber, ScanString, ScanObject, ScanArray, ItemsOk, MembersOk, AllDigits,
         WholeOk, ExponentOk, AllSpace, Reads, CharsOk, StringText, Matched, HexStop;
    if t[k] == LBRACE {
      v, u := ObjectViable(t, k, p, c);
    } else if t[k] == LBRACKET {
      v, u := ArrayViable(t, k, p, c);
    } else if t[k] == QUOTE {
      var s;
      s, u := StringViable(t, k, p, c);
      v := String(s);
      TextOfString(s);
    } else if t[k] == MINUS || IsDigit(t[k]) {
      v, u := NumberViable(t, k, p, c);
    } else {
      var w := ScanValue(t, i).reason.word;
      v := Literal(w);
      u := WordViable(t, k, w, p);
      TextOfWord(w);
    }
  }

  lemma TextOfWord(w: Word)
    ensures ValueText(Literal(w)) == w.Spelling() && ValueOk(Literal(w))
  {
  }

  lemma TextOfString(s: seq<Char>)
    ensures ValueText(String(s)) == StringText(s) && (ValueOk(String(s)) <==> CharsOk(s))
  {
  }

  lemma {:induction false} ArrayViable(t: Text, i: nat, p: nat, c: Text) returns (v: Value, u: Text)
    requires Here(t, i, LBRACKET) && ScanArray(t, i).Bad? && Kept(t, ScanArray(t, i), p, c)
    ensures ValueOk(v) && c <= u && Reads(t, i, p, u, ValueText(v))
    decreases |t| - i, 0
  {
    hide At, ItemsText, SkipSpace, ScanItems, ItemsOk, AllSpace, Reads, CouldStand, Limit;
    var k := SkipSpace(t, i + 1);
    SpaceSound(t, i + 1, k);
    var items;
    items, u := ItemsViable(t, k, p, c);
    var padded := PadItems(t[i + 1..k], items);
    v := Array(padded);
    AtOne(t, i, LBRACKET);
    ReadsOn(t, i + 1, p, u, t[i + 1..k], ItemsText(items));
    ReadsOn(t, i, p, u, [LBRACKET], ItemsText(padded));
  }

  lemma PadItems(space: Text, items: Items) returns (padded: Items)
    requires ItemsOk(items) && AllSpace(space)
    ensures ItemsOk(padded) && ItemsText(padded) == space + ItemsText(items)
  {
    hide ValueText, ValueOk;
    var first := items.item.(before := space + items.item.before);
    padded := if items.LastItem? then LastItem(first) else MoreItems(first, items.items);
    assert ItemText(first) == space + ItemText(items.item);
  }

  lemma {:induction false} ItemsViable(t: Text, i: nat, p: nat, c: Text) returns (items: Items, u: Text)
    requires i <= |t| && ScanItems(t, i).Bad? && Kept(t, ScanItems(t, i), p, c)
    ensures ItemsOk(items) && c <= u && Reads(t, i, p, u, ItemsText(items))
    decreases |t| - i, 3
  {
    hide At, ValueText, ValueOk, SkipSpace, ScanValue, AllSpace, Reads, CouldStand, Limit;
    if ScanValue(t, i).Bad? {
      var before, v, u1 := ValueViable(t, i, p, c);
      items, u := LastItem(Item(before, v, [])), u1 + [RBRACKET];
      NoSpace();
      assert ItemsText(items) == (before + ValueText(v)) + [RBRACKET];
      ReadsMore(t, i, p, u1, before + ValueText(v), [RBRACKET]);
    } else {
      var before, v := ValueSound(t, i);
      var n := ScanValue(t, i).next;
      var e := SkipSpace(t, n);
      SpaceSound(t, n, e);
      AtParts(t, i, before + ValueText(v), t[n..e]);
      if Here(t, e, COMMA) {
        var item := Item(before, v, t[n..e]);
        var rest;
        rest, u := ItemsViable(t, e + 1, p, c);
        items := MoreItems(item, rest);
        AtOne(t, e, COMMA);
        ReadsOn(t, e, p, u, [COMMA], ItemsText(rest));
        ReadsOn(t, i, p, u, ItemText(item), [COMMA] + ItemsText(rest));
      } else {
        items, u := ItemsMended(t, i, before, v, n, e, c);
        KeptHere(t, ScanItems(t, i), p, c);
      }
    }
  }

  /** Where a comma or bracket is missing, either can be put after a line feed. */
  lemma ItemsMended(t: Text, i: nat, before: Text, v: Value, n: nat, e: nat, c: Text) returns (items: Items, u: Text)
    requires i <= n <= e <= |t| && AllSpace(before) && ValueOk(v) && AllSpace(t[n..e])
    requires At(t, i, before + ValueText(v) + t[n..e]) && n == i + |before + ValueText(v)|
    requires c == [] || CouldStand(NoCommaOrBracket, c)
    ensures ItemsOk(items) && c <= u && Reads(t, i, e, u, ItemsText(items))
  {
    hide At, ValueText, ValueOk, AllSpace, Reads;
    var item := Item(before, v, t[n..e] + [LF]);
    MoreSpace(t[n..e]);
    var written := before + ValueText(v) + t[n..e];
    assert ItemText(item) == written + [LF] && ItemOk(item);
    if c == [LF, COMMA] {
      ZeroText();
      NoSpace();
      var zero := Item([], ZERO_VALUE, []);
      items, u := MoreItems(item, LastItem(zero)), [LF, COMMA, ZERO, RBRACKET];
      assert ItemText(zero) == [ZERO] && ItemsOk(LastItem(zero));
      assert ItemsText(items) == written + u;
    } else {
      items, u := LastItem(item), [LF, RBRACKET];
      assert ItemsText(items) == written + u;
    }
    ReadsThen(t, i, written, u);
  }

  /** An error between two tokens is where the text stops being good. */
  lemma KeptHere(t: Text, o: Outcome, p: nat, c: Text)
    requires o.Bad? && Kept(t, o, p, c) && (o.reason.NoCommaOrBracket? || o.reason.NoCommaOrBrace? || o.reason.NoColon?
               || o.reason.NoPropertyName?)
    ensures p == o.at && (c == [] || CouldStand(o.reason, c))
  {
  }

  lemma NoSpace()
    ensures AllSpace([])
  {
  }

  lemma {:induction false} ObjectViable(t: Text, i: nat, p: nat, c: Text) returns (v: Value, u: Text)
    requires Here(t, i, LBRACE) && ScanObject(t, i).Bad? && Kept(t, ScanObject(t, i), p, c)
    ensures ValueOk(v) && c <= u && Reads(t, i, p, u, ValueText(v))
    decreases |t| - i, 0
  {
    hide At, MembersText, SkipSpace, ScanMembers, MembersOk, AllSpace, Reads, CouldStand, Limit;
    var k := SkipSpace(t, i + 1);
    SpaceSound(t, i + 1, k);
    var members;
    members, u := MembersViable(t, k, p, c);
    var padded := PadMembers(t[i + 1..k], members);
    v := Object(padded);
    AtOne(t, i, LBRACE);
    ReadsOn(t, i + 1, p, u, t[i + 1..k], MembersText(members));
    ReadsOn(t, i, p, u, [LBRACE], MembersText(padded));
  }

  lemma PadMembers(space: Text, members: Members) returns (padded: Members)
    requires MembersOk(members) && AllSpace(space)
    ensures MembersOk(padded) && MembersText(padded) == space + MembersText(members)
  {
    hide ItemText, ItemOk, StringText, CharsOk;
    var first := members.member.(before := space + members.member.before);
    padded := if members.LastMember? then LastMember(first) else MoreMembers(first, members.members);
    assert MemberText(first) == space + MemberText(members.member);
  }

  lemma {:induction false} MembersViable(t: Text, i: nat, p: nat, c: Text) returns (members: Members, u: Text)
    requires i <= |t| && ScanMembers(t, i).Bad? && Kept(t, ScanMembers(t, i), p, c)
    ensures MembersOk(members) && c <= u && Reads(t, i, p, u, MembersText(members))
    decreases |t| - i, 4
  {
    hide At, MemberHead, MemberText, MemberOk, SkipSpace, ScanMember, AllSpace, Reads, CouldStand, Limit;
    if ScanMember(t, i).Bad? {
      var m, u1 := MemberViable(t, i, p, c);
      members, u := LastMember(m), u1 + [RBRACE];
      ReadsMore(t, i, p, u1, MemberText(m), [RBRACE]);
    } else {
      var n := ScanMember(t, i).next;
      var e := SkipSpace(t, n);
      SpaceSound(t, n, e);
      if Here(t, e, COMMA) {
        var m := MemberSound(t, i, t[n..e]);
        MemberHeadThenSpace(m);
        AtParts(t, i, MemberHead(m), t[n..e]);
        var rest;
        rest, u := MembersViable(t, e + 1, p, c);
        members := MoreMembers(m, rest);
        AtOne(t, e, COMMA);
        ReadsOn(t, e, p, u, [COMMA], MembersText(rest));
        ReadsOn(t, i, p, u, MemberText(m), [COMMA] + MembersText(rest));
      } else {
        KeptHere(t, ScanMembers(t, i), p, c);
        members, u := MembersMended(t, i, e, c);
      }
    }
  }

  /** Where a comma or brace is missing, either can be put after a line feed. */
  lemma MembersMended(t: Text, i: nat, e: nat, c: Text) returns (members: Members, u: Text)
    requires i <= |t| && ScanMember(t, i).Ok? && e == SkipSpace(t, ScanMember(t, i).next)
    requires c == [] || CouldStand(NoCommaOrBrace, c)
    ensures MembersOk(members) && c <= u && Reads(t, i, e, u, MembersText(members))
  {
    hide At, MemberHead, MemberText, MemberOk, SkipSpace, ScanMember, AllSpace, Reads;
    var n := ScanMember(t, i).next;
    SpaceSound(t, n, e);
    MoreSpace(t[n..e]);
    var m := MemberSound(t, i, t[n..e] + [LF]);
    MemberHeadThenSpace(m);
    AtParts(t, i, MemberHead(m), t[n..e]);
    var written := MemberHead(m) + t[n..e];
    assert MemberText(m) == written + [LF];
    if c == [LF, COMMA] {
      NoSpace();
      NoCharsOk();
      ZeroMemberText([], [], []);
      var zero := ZeroMember([], [], []);
      members, u := MoreMembers(m, LastMember(zero)), [LF, COMMA] + MemberText(zero) + [RBRACE];
      assert MembersText(members) == written + u;
    } else {
      members, u := LastMember(m), [LF, RBRACE];
      assert MembersText(members) == written + u;
    }
    ReadsThen(t, i, written, u);
  }

  /** A member with the value zero. */
  function ZeroMember(before: Text, name: seq<Char>, after: Text): Member {
    Member(before, name, after, Item([], ZERO_VALUE, []))
  }

  lemma ZeroMemberText(before: Text, name: seq<Char>, after: Text)
    ensures MemberText(ZeroMember(before, name, after)) == before + (StringText(name) + (after + [COLON, ZERO]))
    ensures AllSpace(before) && CharsOk(name) && AllSpace(after) ==> MemberOk(ZeroMember(before, name, after))
  {
    hide StringText, ValueText, ValueOk, CharsOk;
    ZeroText();
    assert [COLON] + ItemText(Item([], ZERO_VALUE, [])) == [COLON, ZERO];
  }

  lemma {:induction false} MemberViable(t: Text, i: nat, p: nat, c: Text) returns (m: Member, u: Text)
    requires i <= |t| && ScanMember(t, i).Bad? && Kept(t, ScanMember(t, i), p, c)
    ensures MemberOk(m) && c <= u && Reads(t, i, p, u, MemberText(m))
    decreases |t| - i, 3
  {
    hide At, StringText, ValueText, ValueOk, CharsOk, SkipSpace, ScanValue, ScanString, AllSpace, Reads, MemberText,
         MemberOk, Limit;
    var k := SkipSpace(t, i);
    SpaceSound(t, i, k);
    NoSpace();
    if !Here(t, k, QUOTE) {
      KeptHere(t, ScanMember(t, i), p, c);
      m, u := NameMended(t, i, k);
    } else if ScanString(t, k).Bad? && p == k {
      NameFaultAt(t, k, p, c);
      m, u := NameMended(t, i, k);
    } else if ScanString(t, k).Bad? {
      NameFaultAt(t, k, p, c);
      var name, u1 := StringViable(t, k, p, c);
      m, u := ZeroMember(t[i..k], name, []), u1 + ([] + [COLON, ZERO]);
      ZeroMemberText(t[i..k], name, []);
      ReadsMore(t, k, p, u1, StringText(name), [] + [COLON, ZERO]);
      ReadsOn(t, i, p, u, t[i..k], StringText(name) + ([] + [COLON, ZERO]));
    } else {
      m, u := NamedMemberViable(t, i, k, p, c);
    }
  }

  lemma NameFaultAt(t: Text, k: nat, p: nat, c: Text)
    requires Here(t, k, QUOTE) && ScanString(t, k).Bad? && Kept(t, ScanString(t, k), p, c)
    ensures k <= p && (p == k ==> c <= [LF])
  {
    hide ScanChars, HexStop, Matched;
    BadWithin(t, k + 1, k);
  }

  /** Where a name is missing, one can be put after a line feed. */
  lemma NameMended(t: Text, i: nat, k: nat) returns (m: Member, u: Text)
    requires i <= k <= |t| && AllSpace(t[i..k])
    ensures MemberOk(m) && [LF, QUOTE, QUOTE, COLON] <= u && Reads(t, i, k, u, MemberText(m))
  {
    hide At, StringText, MemberText, MemberOk, AllSpace, Reads, CharsOk;
    NoSpace();
    NoCharsOk();
    MoreSpace(t[i..k]);
    ZeroMemberText(t[i..k] + [LF], [], []);
    EmptyString();
    m, u := ZeroMember(t[i..k] + [LF], [], []), [LF, QUOTE, QUOTE, COLON, ZERO];
    AtSlice(t, i, k);
    ReadsThen(t, i, t[i..k], u);
    assert (t[i..k] + [LF]) + (StringText([]) + ([] + [COLON, ZERO])) == t[i..k] + u;
  }

  lemma AtSlice(t: Text, i: nat, k: nat)
    requires i <= k <= |t|
    ensures At(t, i, t[i..k])
  {
  }

  lemma EmptyString()
    ensures StringText([]) == [QUOTE, QUOTE]
  {
  }

  /** The part of a member after its name. */
  lemma {:induction false} NamedMemberViable(t: Text, i: nat, k: nat, p: nat, c: Text) returns (m: Member, u: Text)
    requires i <= k <= |t| && k == SkipSpace(t, i) && Here(t, k, QUOTE) && ScanString(t, k).Ok? && ScanMember(t, i).Bad?
    requires Kept(t, ScanMember(t, i), p, c)
    ensures MemberOk(m) && c <= u && Reads(t, i, p, u, MemberText(m))
    decreases |t| - i, 2
  {
    hide At, StringText, ValueText, ValueOk, CharsOk, SkipSpace, ScanValue, ScanString, AllSpace, Reads, MemberText,
         MemberOk, ItemText, ItemOk, ZeroMember, Limit;
    SpaceSound(t, i, k);
    var name := StringSound(t, k);
    var n := ScanString(t, k).next;
    var e := SkipSpace(t, n);
    SpaceSound(t, n, e);
    var after := t[n..e];
    var rest: Text;
    if Here(t, e, COLON) {
      var before, v;
      before, v, u := ValueViable(t, e + 1, p, c);
      m, rest := MemberOfParts(t[i..k], name, after, before, v);
      AtOne(t, e, COLON);
      ReadsOn(t, e, p, u, [COLON], before + ValueText(v));
      ReadsOn(t, n, p, u, after, rest);
    } else {
      KeptHere(t, ScanMember(t, i), p, c);
      after, rest, u := t[n..e] + [LF], [COLON, ZERO], [LF, COLON, ZERO];
      m := ZeroMember(t[i..k], name, after);
      MoreSpace(t[n..e]);
      ZeroMemberText(t[i..k], name, after);
      ReadsThen(t, n, t[n..e], u);
      assert t[n..e] + u == after + rest;
    }
    ReadsOn(t, k, p, u, StringText(name), after + rest);
    ReadsOn(t, i, p, u, t[i..k], StringText(name) + (after + rest));
  }

  lemma MemberOfParts(space: Text, name: seq<Char>, after: Text, before: Text, v: Value) returns (m: Member, rest: Text)
    requires AllSpace(space) && CharsOk(name) && AllSpace(after) && AllSpace(before) && ValueOk(v)
    ensures MemberOk(m) && MemberText(m) == space + (StringText(name) + (after + rest))
    ensures rest == [COLON] + (before + ValueText(v))
  {
    hide StringText, ValueText, ValueOk, CharsOk;
    m, rest := Member(space, name, after, Item(before, v, [])), [COLON] + (before + ValueText(v));
    assert ItemText(m.item) == before + ValueText(v);
  }
}
