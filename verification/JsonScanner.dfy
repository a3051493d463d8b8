/**
 The hand-written JSON recogniser: where the text from a position on stops being JSON, as functions; and
 the recogniser itself, a cursor over the text, proved to compute them.
 */
module JsonScanner {
  import opened JsonSyntax

  datatype Reason =
    | UnexpectedEnd | UnterminatedString | InvalidHex | InvalidEscape | ControlCharacter
    | DigitAfterZero | InvalidNumber | NoFractionDigit | NoExponentDigit | ExpectedWord(word: Word)
    | UnexpectedCharacter(u: Unit) | NoPropertyName | NoColon | NoCommaOrBrace | NoCommaOrBracket | TrailingContent

  /** The position after what was recognised, or the position and reason of the first error. */
  datatype Outcome = Ok(next: nat) | Bad(at: nat, reason: Reason)

  predicate Within(t: Text, i: nat, o: Outcome) {
    match o
    case Ok(n) => i < n <= |t|
    case Bad(p, _) => i <= p <= |t|
  }

  predicate Here(t: Text, i: nat, u: Unit) { i < |t| && t[i] == u }
  predicate DigitHere(t: Text, i: nat) { i < |t| && IsDigit(t[i]) }

  function SkipSpace(t: Text, i: nat): (n: nat)
    requires i <= |t|
    ensures i <= n <= |t|
    decreases |t| - i
  {
    if i < |t| && IsSpace(t[i]) then SkipSpace(t, i + 1) else i
  }

  function SkipDigits(t: Text, i: nat): (n: nat)
    requires i <= |t|
    ensures i <= n <= |t|
    decreases |t| - i
  {
    if DigitHere(t, i) then SkipDigits(t, i + 1) else i
  }

  /** From inside a string that was opened at `start`. */
  function ScanChars(t: Text, i: nat, start: nat): (o: Outcome)
    requires start < i <= |t|
    ensures Within(t, start, o) && (o.Ok? ==> i < o.next)
    decreases |t| - i
  {
    if i >= |t| then Bad(start, UnterminatedString)
    else if t[i] == QUOTE then Ok(i + 1)
    else if t[i] == BACKSLASH then
      if i + 1 < |t| && IsEscape(t[i + 1]) then ScanChars(t, i + 2, start)
      else if Here(t, i + 1, LOWER_U) then
        if i + 6 <= |t| && IsHex(t[i + 2]) && IsHex(t[i + 3]) && IsHex(t[i + 4]) &&
            IsHex(t[i + 5]) then ScanChars(t, i + 6, start)
        else Bad(i, InvalidHex)
      else Bad(i, InvalidEscape)
    else if t[i] < 0x20 then Bad(i, ControlCharacter)
    else ScanChars(t, i + 1, start)
  }

  function ScanString(t: Text, i: nat): (o: Outcome)
    requires Here(t, i, QUOTE)
    ensures Within(t, i, o)
  {
    ScanChars(t, i + 1, i)
  }

  function ScanExponent(t: Text, i: nat): (o: Outcome)
    requires i <= |t|
    ensures o.Ok? ==> i <= o.next <= |t|
    ensures o.Bad? ==> i <= o.at <= |t|
  {
    if !Here(t, i, LOWER_E) && !Here(t, i, UPPER_E) then Ok(i)
    else
      var j := if Here(t, i + 1, PLUS) || Here(t, i + 1, MINUS) then i + 2 else i + 1;
      if DigitHere(t, j) then Ok(SkipDigits(t, j)) else Bad(j, NoExponentDigit)
  }

  function ScanFraction(t: Text, i: nat): (o: Outcome)
    requires i <= |t|
    ensures o.Ok? ==> i <= o.next <= |t|
    ensures o.Bad? ==> i <= o.at <= |t|
  {
    if !Here(t, i, DOT) then ScanExponent(t, i)
    else if DigitHere(t, i + 1) then ScanExponent(t, SkipDigits(t, i + 1))
    else Bad(i + 1, NoFractionDigit)
  }

  function ScanNumber(t: Text, i: nat): (o: Outcome)
    requires i < |t|
    ensures Within(t, i, o)
  {
    var j := if t[i] == MINUS then i + 1 else i;
    if Here(t, j, ZERO) then
      if DigitHere(t, j + 1) then Bad(j + 1, DigitAfterZero) else ScanFraction(t, j + 1)
    else if DigitHere(t, j) then ScanFraction(t, SkipDigits(t, j + 1))
    else Bad(j, InvalidNumber)
  }

  predicate At(t: Text, i: nat, part: Text) { i + |part| <= |t| && t[i..i + |part|] == part }

  function ScanWord(t: Text, i: nat, w: Word): (o: Outcome)
    requires i < |t|
    ensures Within(t, i, o)
  {
    if At(t, i, w.Spelling()) then Ok(i + |w.Spelling()|) else Bad(i, ExpectedWord(w))
  }

  function ScanValue(t: Text, i: nat): (o: Outcome)
    requires i <= |t|
    ensures Within(t, i, o)
    decreases |t| - i, 1
  {
    var k := SkipSpace(t, i);
    if k >= |t| then Bad(|t|, UnexpectedEnd)
    else if t[k] == LBRACE then ScanObject(t, k)
    else if t[k] == LBRACKET then ScanArray(t, k)
    else if t[k] == QUOTE then ScanString(t, k)
    else if t[k] == LOWER_T then ScanWord(t, k, True)
    else if t[k] == LOWER_F then ScanWord(t, k, False)
    else if t[k] == LOWER_N then ScanWord(t, k, Null)
    else if t[k] == MINUS || IsDigit(t[k]) then ScanNumber(t, k)
    else Bad(k, UnexpectedCharacter(t[k]))
  }

  function ScanObject(t: Text, i: nat): (o: Outcome)
    requires Here(t, i, LBRACE)
    ensures Within(t, i, o)
    decreases |t| - i, 0
  {
    var k := SkipSpace(t, i + 1);
    if Here(t, k, RBRACE) then Ok(k + 1) else ScanMembers(t, k)
  }

  /** One property: white space, a name, a colon and a value. */
  function ScanMember(t: Text, i: nat): (o: Outcome)
    requires i <= |t|
    ensures Within(t, i, o)
    decreases |t| - i, 2
  {
    var k := SkipSpace(t, i);
    if !Here(t, k, QUOTE) then Bad(k, NoPropertyName)
    else
      match ScanString(t, k)
      case Bad(p, r) => Bad(p, r)
      case Ok(n) =>
        var c := SkipSpace(t, n);
        if Here(t, c, COLON) then ScanValue(t, c + 1) else Bad(c, NoColon)
  }

  /** The loop of an object: from the white space before a property name to the closing brace. */
  function ScanMembers(t: Text, i: nat): (o: Outcome)
    requires i <= |t|
    ensures Within(t, i, o)
    decreases |t| - i, 3
  {
    match ScanMember(t, i)
    case Bad(p, r) => Bad(p, r)
    case Ok(v) =>
      var e := SkipSpace(t, v);
      if Here(t, e, COMMA) then ScanMembers(t, e + 1)
      else if Here(t, e, RBRACE) then Ok(e + 1)
      else Bad(e, NoCommaOrBrace)
  }

  function ScanArray(t: Text, i: nat): (o: Outcome)
    requires Here(t, i, LBRACKET)
    ensures Within(t, i, o)
    decreases |t| - i, 0
  {
    var k := SkipSpace(t, i + 1);
    if Here(t, k, RBRACKET) then Ok(k + 1) else ScanItems(t, k)
  }

  /** The loop of an array: from the white space before a value to the closing bracket. */
  function ScanItems(t: Text, i: nat): (o: Outcome)
    requires i <= |t|
    ensures Within(t, i, o)
    decreases |t| - i, 2
  {
    match ScanValue(t, i)
    case Bad(p, r) => Bad(p, r)
    case Ok(v) =>
      var e := SkipSpace(t, v);
      if Here(t, e, COMMA) then ScanItems(t, e + 1)
      else if Here(t, e, RBRACKET) then Ok(e + 1)
      else Bad(e, NoCommaOrBracket)
  }

  /** The whole text; `Ok` when no error is found. */
  function ScanText(t: Text): (o: Outcome)
    ensures o.Bad? ==> o.at <= |t|
  {
    match ScanValue(t, 0)
    case Bad(p, r) => Bad(p, r)
    case Ok(n) =>
      var k := SkipSpace(t, n);
      if k < |t| then Bad(k, TrailingContent) else Ok(k)
  }

  // ------------------------------------------------------------ the cursor

  datatype Found = Nothing | Error(at: nat, reason: Reason)

  /** What a parse function leaves behind: the cursor after the construct, or the error. */
  predicate Agrees(o: Outcome, index: nat, e: Found) {
    match o
    case Ok(n) => e == Nothing && index == n
    case Bad(p, r) => e == Error(p, r)
  }

  class Scanner {
    const text: Text
    var index: nat

    constructor (text: Text)
      ensures this.text == text && index == 0
    {
      this.text := text;
      index := 0;
    }

    method SkipWhitespace()
      requires index <= |text|
      modifies this
      ensures index == SkipSpace(text, old(index))
    {
      while index < |text| && IsSpace(text[index])
        invariant index <= |text|
        invariant SkipSpace(text, index) == SkipSpace(text, old(index))
      {
        index := index + 1;
      }
    }

    method SkipDigitRun()
      requires index <= |text|
      modifies this
      ensures index == SkipDigits(text, old(index))
    {
      while DigitHere(text, index)
        invariant index <= |text|
        invariant SkipDigits(text, index) == SkipDigits(text, old(index))
        decreases |text| - index
      {
        index := index + 1;
      }
    }

    method ParseString() returns (e: Found)
      requires Here(text, index, QUOTE)
      modifies this
      ensures Agrees(ScanString(text, old(index)), index, e)
    {
      var start := index;
      index := index + 1;
      while true
        invariant start < index <= |text|
        invariant ScanChars(text, index, start) == ScanString(text, start)
        decreases |text| - index
      {
        if index >= |text| { return Error(start, UnterminatedString); }
        var u := text[index];
        if u == QUOTE {
          index := index + 1;
          return Nothing;
        }
        if u == BACKSLASH {
          if index + 1 < |text| && IsEscape(text[index + 1]) {
            index := index + 2;
            continue;
          }
          if Here(text, index + 1, LOWER_U) {
            if index + 6 <= |text| && IsHex(text[index + 2]) && IsHex(text[index + 3]) && IsHex(text[index + 4]) &&
                IsHex(text[index + 5]) {
              index := index + 6;
              continue;
            }
            return Error(index, InvalidHex);
          }
          return Error(index, InvalidEscape);
        }
        if u < 0x20 { return Error(index, ControlCharacter); }
        index := index + 1;
      }
    }

    method ParseNumber() returns (e: Found)
      requires index < |text|
      modifies this
      ensures Agrees(ScanNumber(text, old(index)), index, e)
    {
      if text[index] == MINUS { index := index + 1; }
      if Here(text, index, ZERO) {
        index := index + 1;
        if DigitHere(text, index) { return Error(index, DigitAfterZero); }
      } else if DigitHere(text, index) {
        index := index + 1;
        SkipDigitRun();
      } else {
        return Error(index, InvalidNumber);
      }
      e := ParseFraction();
    }

    method ParseFraction() returns (e: Found)
      requires index <= |text|
      modifies this
      ensures Agrees(ScanFraction(text, old(index)), index, e)
    {
      if Here(text, index, DOT) {
        index := index + 1;
        if !DigitHere(text, index) { return Error(index, NoFractionDigit); }
        SkipDigitRun();
      }
      e := ParseExponent();
    }

    method ParseExponent() returns (e: Found)
      requires index <= |text|
      modifies this
      ensures Agrees(ScanExponent(text, old(index)), index, e)
    {
      if Here(text, index, LOWER_E) || Here(text, index, UPPER_E) {
        index := index + 1;
        if Here(text, index, PLUS) || Here(text, index, MINUS) { index := index + 1; }
        if !DigitHere(text, index) { return Error(index, NoExponentDigit); }
        SkipDigitRun();
      }
      return Nothing;
    }

    method ParseLiteral(w: Word) returns (e: Found)
      requires index < |text|
      modifies this
      ensures Agrees(ScanWord(text, old(index), w), index, e)
    {
      if At(text, index, w.Spelling()) {
        index := index + |w.Spelling()|;
        return Nothing;
      }
      return Error(index, ExpectedWord(w));
    }

    method ParseValue() returns (e: Found)
      requires index <= |text|
      modifies this
      ensures Agrees(ScanValue(text, old(index)), index, e)
      decreases |text| - index, 1
    {
      SkipWhitespace();
      if index >= |text| { return Error(|text|, UnexpectedEnd); }
      var u := text[index];
      if u == LBRACE { e := ParseObject(); }
      else if u == LBRACKET { e := ParseArray(); }
      else if u == QUOTE { e := ParseString(); }
      else if u == LOWER_T { e := ParseLiteral(True); }
      else if u == LOWER_F { e := ParseLiteral(False); }
      else if u == LOWER_N { e := ParseLiteral(Null); }
      else if u == MINUS || IsDigit(u) { e := ParseNumber(); }
      else { e := Error(index, UnexpectedCharacter(u)); }
    }

    method ParseObject() returns (e: Found)
      requires Here(text, index, LBRACE)
      modifies this
      ensures Agrees(ScanObject(text, old(index)), index, e)
      decreases |text| - index, 0
    {
      ghost var start := index;
      index := index + 1;
      SkipWhitespace();
      if Here(text, index, RBRACE) {
        index := index + 1;
        return Nothing;
      }
      while true
        invariant start < index <= |text|
        invariant ScanMembers(text, index) == ScanObject(text, start)
        decreases |text| - index
      {
        e := ParseMember();
        if e != Nothing { return; }
        SkipWhitespace();
        if Here(text, index, COMMA) {
          index := index + 1;
        } else if Here(text, index, RBRACE) {
          index := index + 1;
          return Nothing;
        } else {
          return Error(index, NoCommaOrBrace);
        }
      }
    }

    method ParseMember() returns (e: Found)
      requires index <= |text|
      modifies this
      ensures Agrees(ScanMember(text, old(index)), index, e)
      decreases |text| - index, 2
    {
      SkipWhitespace();
      if !Here(text, index, QUOTE) { return Error(index, NoPropertyName); }
      e := ParseString();
      if e != Nothing { return; }
      SkipWhitespace();
      if !Here(text, index, COLON) { return Error(index, NoColon); }
      index := index + 1;
      e := ParseValue();
    }

    method ParseArray() returns (e: Found)
      requires Here(text, index, LBRACKET)
      modifies this
      ensures Agrees(ScanArray(text, old(index)), index, e)
      decreases |text| - index, 0
    {
      ghost var start := index;
      index := index + 1;
      SkipWhitespace();
      if Here(text, index, RBRACKET) {
        index := index + 1;
        return Nothing;
      }
      while true
        invariant start < index <= |text|
        invariant ScanItems(text, index) == ScanArray(text, start)
        decreases |text| - index
      {
        e := ParseValue();
        if e != Nothing { return; }
        SkipWhitespace();
        if Here(text, index, COMMA) {
          index := index + 1;
        } else if Here(text, index, RBRACKET) {
          index := index + 1;
          return Nothing;
        } else {
          return Error(index, NoCommaOrBracket);
        }
      }
    }
  }
}
