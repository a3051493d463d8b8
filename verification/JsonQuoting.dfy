/** `JSON.stringify` on a string: which characters are escaped, and how. */
module JsonQuoting {
  import opened JsonSyntax
  import opened Utf8

  function HexDigit(n: int): Unit
    requires 0 <= n < 16
  {
    if n < 10 then 0x30 + n else 0x57 + n
  }

  function HexValue(d: Unit): (n: nat)
    requires IsHex(d)
    ensures n < 16
  {
    if IsDigit(d) then d - 0x30 else if d < 0x61 then d - 0x37 else d - 0x57
  }

  function HexOf(u: Unit): Text {
    [HexDigit(u / 16 / 16 / 16), HexDigit(u / 16 / 16 % 16), HexDigit(u / 16 % 16), HexDigit(u % 16)]
  }

  function QuoteUnit(u: Unit): (c: Char) {
    if u == QUOTE || u == BACKSLASH then Escaped(u)
    else if u == 0x08 then Escaped(0x62)
    else if u == TAB then Escaped(LOWER_T)
    else if u == LF then Escaped(LOWER_N)
    else if u == 0x0C then Escaped(LOWER_F)
    else if u == CR then Escaped(0x72)
    else if u < 0x20 || IsHigh(u) || IsLow(u) then Hex(HexOf(u))
    else Plain(u)
  }

  function QuoteFirst(s: Text): seq<Char>
    requires s != []
  {
    if IsPair(s) then [Plain(s[0]), Plain(s[1])] else [QuoteUnit(s[0])]
  }

  function Quote(s: Text): seq<Char> {
    if s == [] then [] else QuoteFirst(s) + Quote(s[FirstLength(s)..])
  }

  /** The character that a string character stands for (section 7 of RFC 8259). */
  function CharMeaning(c: Char): Unit
    requires CharOk(c)
  {
    match c
    case Plain(u) => u
    case Escaped(u) =>
      if u == 0x62 then 0x08 else if u == LOWER_F then 0x0C else if u == LOWER_N then LF
      else if u == 0x72 then CR else if u == LOWER_T then TAB else u
    case Hex(d) => ((HexValue(d[0]) * 16 + HexValue(d[1])) * 16 + HexValue(d[2])) * 16 + HexValue(d[3])
  }

  function CharsMeaning(s: seq<Char>): Text
    requires CharsOk(s)
  {
    if s == [] then [] else [CharMeaning(s[0])] + CharsMeaning(s[1..])
  }

  lemma HexDigitMeans(n: int)
    requires 0 <= n < 16
    ensures IsHex(HexDigit(n)) && HexValue(HexDigit(n)) == n
  {
  }

  lemma HexOfMeans(u: Unit)
    ensures CharOk(Hex(HexOf(u))) && CharMeaning(Hex(HexOf(u))) == u
  {
    hide HexDigit, HexValue, IsHex;
    var (a, b, c, d) := (u / 16 / 16 / 16, u / 16 / 16 % 16, u / 16 % 16, u % 16);
    HexDigitMeans(a);
    HexDigitMeans(b);
    HexDigitMeans(c);
    HexDigitMeans(d);
    assert (a * 16 + b) * 16 + c == u / 16;
  }

  lemma QuoteUnitMeans(u: Unit)
    ensures CharOk(QuoteUnit(u)) && CharMeaning(QuoteUnit(u)) == u
  {
    hide HexOf;
    HexOfMeans(u);
  }

  lemma {:induction false} MeaningJoins(a: seq<Char>, b: seq<Char>)
    requires CharsOk(a) && CharsOk(b)
    ensures CharsMeaning(a + b) == CharsMeaning(a) + CharsMeaning(b)
    decreases |a|
  {
    hide CharMeaning;
    if a == [] {
      assert a + b == b;
    } else {
      assert (a + b)[1..] == a[1..] + b;
      MeaningJoins(a[1..], b);
    }
  }

  lemma QuoteFirstMeans(s: Text)
    requires s != []
    ensures CharsOk(QuoteFirst(s)) && CharsMeaning(QuoteFirst(s)) == s[..FirstLength(s)]
  {
    QuoteUnitMeans(s[0]);
    if IsPair(s) {
      assert QuoteFirst(s)[1..] == [Plain(s[1])];
      assert CharsMeaning([Plain(s[1])]) == [s[1]];
    }
  }

  /** A quoted string stands for the string that was quoted. */
  lemma {:induction false} QuoteMeans(s: Text)
    ensures CharsOk(Quote(s)) && CharsMeaning(Quote(s)) == s
    decreases |s|
  {
    hide QuoteFirst, CharMeaning, CharOk;
    if s != [] {
      var n := FirstLength(s);
      QuoteFirstMeans(s);
      QuoteMeans(s[n..]);
      MeaningJoins(QuoteFirst(s), Quote(s[n..]));
      assert s == s[..n] + s[n..];
    }
  }

  /** No character is written longer than it must be. A lone surrogate, which no text in UTF-8 can hold, is written with
      the digits of its code; and the digits that are letters are lower-case ones. */
  lemma QuoteUnitIsShortest(u: Unit, c: Char)
    requires CharOk(c) && CharMeaning(c) == u && !IsHigh(u) && !IsLow(u)
    ensures |CharText(QuoteUnit(u))| <= |CharText(c)|
  {
    hide HexDigit;
  }

  lemma SurrogatesAreWrittenOut(u: Unit)
    ensures IsHigh(u) || IsLow(u) ==> QuoteUnit(u).Hex?
    ensures QuoteUnit(u).Hex? ==> forall k :: 0 <= k < 4 ==>
              IsDigit(QuoteUnit(u).digits[k]) || 0x61 <= QuoteUnit(u).digits[k] <= 0x66
  {
  }

  lemma {:induction false} CharsTextJoins(a: seq<Char>, b: seq<Char>)
    ensures CharsText(a + b) == CharsText(a) + CharsText(b)
    decreases |a|
  {
    hide CharText;
    if a == [] {
      assert a + b == b;
    } else {
      assert (a + b)[1..] == a[1..] + b;
      CharsTextJoins(a[1..], b);
    }
  }

  /** The text of one quoted character: no shorter than the character, and with no lone surrogate. */
  lemma QuoteFirstText(s: Text)
    requires s != []
    ensures var t := CharsText(QuoteFirst(s)); |t| >= FirstLength(s) && WellFormed(t) && Closed(t)
  {
    if IsPair(s) {
      assert QuoteFirst(s)[1..] == [Plain(s[1])];
      assert CharsText([Plain(s[1])]) == [s[1]];
      assert CharsText(QuoteFirst(s)) == [s[0], s[1]];
      assert WellFormed([s[0], s[1]]);
    } else {
      var t := CharText(QuoteUnit(s[0]));
      assert CharsText(QuoteFirst(s)) == t;
      PlainIsWellFormed(t);
    }
  }

  lemma {:induction false} PlainIsWellFormed(t: Text)
    requires forall i :: 0 <= i < |t| ==> !IsHigh(t[i]) && !IsLow(t[i])
    ensures WellFormed(t)
    decreases |t|
  {
    if t != [] { PlainIsWellFormed(t[1..]); }
  }

  /** Quoting never shortens a string, and leaves no lone surrogate. */
  lemma {:induction false} QuoteText(s: Text)
    ensures |CharsText(Quote(s))| >= |s| && WellFormed(CharsText(Quote(s))) && Closed(CharsText(Quote(s)))
    decreases |s|
  {
    hide QuoteFirst, CharText;
    if s != [] {
      var (first, rest) := (QuoteFirst(s), Quote(s[FirstLength(s)..]));
      QuoteFirstText(s);
      QuoteText(s[FirstLength(s)..]);
      CharsTextJoins(first, rest);
      WellFormedJoins(CharsText(first), CharsText(rest));
    }
  }
}
