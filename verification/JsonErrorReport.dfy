/**
 The report of the first error in a text is the right one: nothing that follows the position that the text is good up
 to has a say in it, and no text that has the next character as well is JSON.
 */
module JsonErrorReport {
  import opened JsonSyntax
  import opened JsonScanner
  import opened JsonRecogniser
  import opened JsonErrorPosition

  // ------------------------------------------------ what comes later has no say

  predicate SameUpTo(t: Text, s: Text, m: nat) {
    m <= |t| && m <= |s| && forall k :: 0 <= k < m ==> t[k] == s[k]
  }

  /** The outcome rests on the first `m` characters only. */
  predicate Settled(t: Text, o: Outcome, m: nat) {
    match o
    case Ok(n) => n < m
    case Bad(at, r) => Limit(t, at, r) < m
  }

  lemma {:induction false} SpaceSame(t: Text, s: Text, i: nat, m: nat)
    requires SameUpTo(t, s, m) && i <= |t| && SkipSpace(t, i) < m
    ensures i <= |s| && SkipSpace(s, i) == SkipSpace(t, i)
    decreases |t| - i
  {
    if i < |t| && IsSpace(t[i]) { SpaceSame(t, s, i + 1, m); }
  }

  lemma {:induction false} DigitsSame(t: Text, s: Text, i: nat, m: nat)
    requires SameUpTo(t, s, m) && i <= |t| && SkipDigits(t, i) < m
    ensures i <= |s| && SkipDigits(s, i) == SkipDigits(t, i)
    decreases |t| - i
  {
    if DigitHere(t, i) { DigitsSame(t, s, i + 1, m); }
  }

  lemma {:induction false} CharsSame(t: Text, s: Text, i: nat, start: nat, m: nat)
    requires SameUpTo(t, s, m) && start < i <= |t| && Settled(t, ScanChars(t, i, start), m)
    ensures i <= |s| && ScanChars(s, i, start) == ScanChars(t, i, start)
    decreases |t| - i
  {
    hide IsHex, IsEscape, Matched, HexStop;
    if ScanChars(t, i, start).Bad? { BadWithin(t, i, start); }
    if i < |t| && t[i] != QUOTE && !CharIsBad(t, i) {
      var n := if t[i] != BACKSLASH then i + 1 else if IsEscape(t[i + 1]) then i + 2 else i + 6;
      if ScanChars(t, n, start).Bad? { BadWithin(t, n, start); }
      CharsSame(t, s, n, start, m);
    }
  }

  lemma ExponentSame(t: Text, s: Text, i: nat, m: nat)
    requires SameUpTo(t, s, m) && i <= |t| && Settled(t, ScanExponent(t, i), m)
    ensures i <= |s| && ScanExponent(s, i) == ScanExponent(t, i)
  {
    hide SkipDigits, Matched, HexStop;
    if Here(t, i, LOWER_E) || Here(t, i, UPPER_E) {
      var j := if Here(t, i + 1, PLUS) || Here(t, i + 1, MINUS) then i + 2 else i + 1;
      if DigitHere(t, j) { DigitsSame(t, s, j, m); }
    }
  }

  lemma FractionSame(t: Text, s: Text, i: nat, m: nat)
    requires SameUpTo(t, s, m) && i <= |t| && Settled(t, ScanFraction(t, i), m)
    ensures i <= |s| && ScanFraction(s, i) == ScanFraction(t, i)
  {
    hide SkipDigits, ScanExponent, Matched, HexStop;
    if !Here(t, i, DOT) {
      ExponentSame(t, s, i, m);
    } else if DigitHere(t, i + 1) {
      ExponentSame(t, s, SkipDigits(t, i + 1), m);
      DigitsSame(t, s, i + 1, m);
    }
  }

  lemma NumberSame(t: Text, s: Text, i: nat, m: nat)
    requires SameUpTo(t, s, m) && i < |t| && Settled(t, ScanNumber(t, i), m)
    ensures i < |s| && ScanNumber(s, i) == ScanNumber(t, i)
  {
    hide SkipDigits, ScanFraction, Matched, HexStop;
    var j := if t[i] == MINUS then i + 1 else i;
    if Here(t, j, ZERO) && !DigitHere(t, j + 1) {
      FractionSame(t, s, j + 1, m);
    } else if DigitHere(t, j) && !Here(t, j, ZERO) {
      FractionSame(t, s, SkipDigits(t, j + 1), m);
      DigitsSame(t, s, j + 1, m);
    }
  }

  lemma {:induction false} MatchedSame(t: Text, s: Text, i: nat, word: Text, m: nat)
    requires SameUpTo(t, s, m) && i <= |t| && i + Matched(t, i, word) < m
    ensures Matched(s, i, word) == Matched(t, i, word)
    decreases |word|
  {
    if word != [] && i < |t| && t[i] == word[0] { MatchedSame(t, s, i + 1, word[1..], m); }
  }

  lemma {:induction false} AtIsMatched(t: Text, i: nat, word: Text)
    requires i <= |t|
    ensures At(t, i, word) <==> Matched(t, i, word) == |word|
    decreases |word|
  {
    var n := Matched(t, i, word);
    if n < |word| && i + |word| <= |t| { assert t[i..i + |word|][n] == t[i + n]; }
  }

  lemma WordSame(t: Text, s: Text, i: nat, w: Word, m: nat)
    requires SameUpTo(t, s, m) && i < |t| && Settled(t, ScanWord(t, i, w), m)
    ensures i < |s| && ScanWord(s, i, w) == ScanWord(t, i, w)
  {
    hide At, Matched;
    AtIsMatched(t, i, w.Spelling());
    MatchedSame(t, s, i, w.Spelling(), m);
    AtIsMatched(s, i, w.Spelling());
  }

  lemma {:induction false} ValueSame(t: Text, s: Text, i: nat, m: nat)
    requires SameUpTo(t, s, m) && i <= |t| && Settled(t, ScanValue(t, i), m)
    ensures i <= |s| && ScanValue(s, i) == ScanValue(t, i)
    decreases |t| - i, 1
  {
    hide SkipSpace, ScanObject, ScanArray, ScanChars, ScanWord, ScanNumber, Matched, HexStop;
    var k := SkipSpace(t, i);
    SpaceSame(t, s, i, m);
    if k < |t| {
      if t[k] == LBRACE { ObjectSame(t, s, k, m); }
      else if t[k] == LBRACKET { ArraySame(t, s, k, m); }
      else if t[k] == QUOTE { CharsSame(t, s, k + 1, k, m); }
      else if t[k] == LOWER_T { WordSame(t, s, k, True, m); }
      else if t[k] == LOWER_F { WordSame(t, s, k, False, m); }
      else if t[k] == LOWER_N { WordSame(t, s, k, Null, m); }
      else if t[k] == MINUS || IsDigit(t[k]) { NumberSame(t, s, k, m); }
    }
  }

  lemma {:induction false} ArraySame(t: Text, s: Text, i: nat, m: nat)
    requires SameUpTo(t, s, m) && Here(t, i, LBRACKET) && Settled(t, ScanArray(t, i), m)
    ensures Here(s, i, LBRACKET) && ScanArray(s, i) == ScanArray(t, i)
    decreases |t| - i, 0
  {
    hide SkipSpace, ScanItems, Matched, HexStop;
    var k := SkipSpace(t, i + 1);
    SpaceSame(t, s, i + 1, m);
    if !Here(t, k, RBRACKET) { ItemsSame(t, s, k, m); }
  }

  lemma {:induction false} ItemsSame(t: Text, s: Text, i: nat, m: nat)
    requires SameUpTo(t, s, m) && i <= |t| && Settled(t, ScanItems(t, i), m)
    ensures i <= |s| && ScanItems(s, i) == ScanItems(t, i)
    decreases |t| - i, 2
  {
    hide SkipSpace, ScanValue, Matched, HexStop;
    if ScanValue(t, i).Ok? {
      var v := ScanValue(t, i).next;
      var e := SkipSpace(t, v);
      if Here(t, e, COMMA) { ItemsSame(t, s, e + 1, m); }
      SpaceSame(t, s, v, m);
    }
    ValueSame(t, s, i, m);
  }

  lemma {:induction false} ObjectSame(t: Text, s: Text, i: nat, m: nat)
    requires SameUpTo(t, s, m) && Here(t, i, LBRACE) && Settled(t, ScanObject(t, i), m)
    ensures Here(s, i, LBRACE) && ScanObject(s, i) == ScanObject(t, i)
    decreases |t| - i, 0
  {
    hide SkipSpace, ScanMembers, Matched, HexStop;
    var k := SkipSpace(t, i + 1);
    SpaceSame(t, s, i + 1, m);
    if !Here(t, k, RBRACE) { MembersSame(t, s, k, m); }
  }

  lemma {:induction false} MembersSame(t: Text, s: Text, i: nat, m: nat)
    requires SameUpTo(t, s, m) && i <= |t| && Settled(t, ScanMembers(t, i), m)
    ensures i <= |s| && ScanMembers(s, i) == ScanMembers(t, i)
    decreases |t| - i, 3
  {
    hide SkipSpace, ScanMember, Matched, HexStop;
    if ScanMember(t, i).Ok? {
      var v := ScanMember(t, i).next;
      var e := SkipSpace(t, v);
      if Here(t, e, COMMA) { MembersSame(t, s, e + 1, m); }
      SpaceSame(t, s, v, m);
    }
    MemberSame(t, s, i, m);
  }

  lemma {:induction false} MemberSame(t: Text, s: Text, i: nat, m: nat)
    requires SameUpTo(t, s, m) && i <= |t| && Settled(t, ScanMember(t, i), m)
    ensures i <= |s| && ScanMember(s, i) == ScanMember(t, i)
    decreases |t| - i, 2
  {
    hide SkipSpace, ScanValue, ScanChars, Matched, HexStop;
    var k := SkipSpace(t, i);
    if Here(t, k, QUOTE) {
      if ScanString(t, k).Ok? {
        var n := ScanString(t, k).next;
        var c := SkipSpace(t, n);
        if Here(t, c, COLON) { ValueSame(t, s, c + 1, m); }
        SpaceSame(t, s, n, m);
      }
      NameSame(t, s, k, m);
    }
    SpaceSame(t, s, i, m);
  }

  lemma NameSame(t: Text, s: Text, k: nat, m: nat)
    requires SameUpTo(t, s, m) && Here(t, k, QUOTE) && Settled(t, ScanString(t, k), m)
    ensures Here(s, k, QUOTE) && ScanString(s, k) == ScanString(t, k)
  {
    hide ScanChars, Matched, HexStop;
    CharsSame(t, s, k + 1, k, m);
  }

  /** With the next character as well, no text is JSON. */
  lemma NoMoreThanLimit(t: Text)
    requires ScanText(t).Bad? && Limit(t, ScanText(t).at, ScanText(t).reason) < |t|
    ensures !Completable(t[..Limit(t, ScanText(t).at, ScanText(t).reason) + 1])
  {
    hide IsJson, ScanValue, SkipSpace, Matched, HexStop;
    var m := Limit(t, ScanText(t).at, ScanText(t).reason) + 1;
    forall u: Text ensures !IsJson(t[..m] + u) {
      var s := t[..m] + u;
      ValueSame(t, s, 0, m);
      if ScanValue(t, 0).Ok? { SpaceSame(t, s, ScanValue(t, 0).next, m); }
      RecogniserIsExact(s);
    }
  }

  // --------------------------------------------------- what the report says

  /** An error is reported where it is said to be. */
  ghost predicate Pointed(t: Text, o: Outcome) {
    o.Bad? ==> PointsAt(t, o.at, o.reason, Limit(t, o.at, o.reason))
  }

  /** An open string goes on to the end of the text. */
  lemma {:induction false} CharsToEnd(t: Text, i: nat, start: nat) returns (s: seq<Char>)
    requires start < i <= |t| && ScanChars(t, i, start).Bad? && ScanChars(t, i, start).reason.UnterminatedString?
    ensures CharsOk(s) && t[i..] == CharsText(s)
    decreases |t| - i
  {
    hide CharsText, CharText, CharOk, IsHex, IsEscape, At;
    if i == |t| {
      s := [];
      NoCharsText();
    } else {
      var first := CharHere(t, i, start);
      var n := i + |CharText(first)|;
      var rest := CharsToEnd(t, n, start);
      s := [first] + rest;
      CharsTextOfMore(first, rest, []);
      RestAfter(t, i, CharText(first));
      assert CharsText(s) == CharsText(s) + [];
      assert CharsText(rest) == CharsText(rest) + [];
    }
  }

  lemma RestAfter(t: Text, i: nat, a: Text)
    requires At(t, i, a)
    ensures t[i..] == a + t[i + |a|..]
  {
  }

  lemma {:induction false} CharsPointed(t: Text, i: nat, start: nat)
    requires start < i <= |t| && Here(t, start, QUOTE)
    ensures ScanChars(t, i, start).Bad? && !ScanChars(t, i, start).reason.UnterminatedString? ==>
              Pointed(t, ScanChars(t, i, start))
    decreases |t| - i
  {
    hide IsHex, IsEscape, Matched;
    if i < |t| && t[i] != QUOTE && !CharIsBad(t, i) {
      var n := if t[i] != BACKSLASH then i + 1 else if IsEscape(t[i + 1]) then i + 2 else i + 6;
      CharsPointed(t, n, start);
    }
  }

  lemma StringPointed(t: Text, i: nat)
    requires Here(t, i, QUOTE)
    ensures Pointed(t, ScanString(t, i))
  {
    hide ScanChars, Matched, HexStop;
    CharsPointed(t, i + 1, i);
    var o := ScanString(t, i);
    if o.Bad? && o.reason.UnterminatedString? {
      BadWithin(t, i + 1, i);
      var s := CharsToEnd(t, i + 1, i);
    }
  }

  lemma ExponentPointed(t: Text, i: nat)
    requires i <= |t|
    ensures Pointed(t, ScanExponent(t, i))
  {
    hide SkipDigits, Matched, HexStop;
  }

  lemma FractionPointed(t: Text, i: nat)
    requires i <= |t|
    ensures Pointed(t, ScanFraction(t, i))
  {
    hide SkipDigits, ScanExponent, Matched, HexStop;
    if !Here(t, i, DOT) {
      ExponentPointed(t, i);
    } else if DigitHere(t, i + 1) {
      ExponentPointed(t, SkipDigits(t, i + 1));
    }
  }

  lemma NumberPointed(t: Text, i: nat)
    requires i < |t|
    requires t[i] == MINUS || IsDigit(t[i])
    ensures Pointed(t, ScanNumber(t, i))
  {
    hide SkipDigits, ScanFraction, Matched, HexStop;
    var j := if t[i] == MINUS then i + 1 else i;
    if Here(t, j, ZERO) && !DigitHere(t, j + 1) {
      FractionPointed(t, j + 1);
    } else if DigitHere(t, j) && !Here(t, j, ZERO) {
      FractionPointed(t, SkipDigits(t, j + 1));
    }
  }

  lemma WordPointed(t: Text, i: nat, w: Word)
    requires i < |t| && t[i] == w.Spelling()[0]
    ensures Pointed(t, ScanWord(t, i, w))
  {
    hide At;
    AtIsMatched(t, i, w.Spelling());
  }

  lemma {:induction false} ValuePointed(t: Text, i: nat)
    requires i <= |t|
    ensures Pointed(t, ScanValue(t, i))
    decreases |t| - i, 1
  {
    hide SkipSpace, ScanObject, ScanArray, ScanChars, ScanWord, ScanNumber, Matched, HexStop;
    var k := SkipSpace(t, i);
    if k < |t| {
      if t[k] == LBRACE { ObjectPointed(t, k); }
      else if t[k] == LBRACKET { ArrayPointed(t, k); }
      else if t[k] == QUOTE { StringPointed(t, k); }
      else if t[k] == LOWER_T { WordPointed(t, k, True); }
      else if t[k] == LOWER_F { WordPointed(t, k, False); }
      else if t[k] == LOWER_N { WordPointed(t, k, Null); }
      else if t[k] == MINUS || IsDigit(t[k]) { NumberPointed(t, k); }
    }
  }

  lemma {:induction false} ArrayPointed(t: Text, i: nat)
    requires Here(t, i, LBRACKET)
    ensures Pointed(t, ScanArray(t, i))
    decreases |t| - i, 0
  {
    hide SkipSpace, ScanItems, Pointed;
    var k := SkipSpace(t, i + 1);
    if !Here(t, k, RBRACKET) { ItemsPointed(t, k); } else { OkIsPointed(t, k + 1); }
  }

  lemma OkIsPointed(t: Text, n: nat)
    ensures Pointed(t, Ok(n))
  {
  }

  lemma {:induction false} ItemsPointed(t: Text, i: nat)
    requires i <= |t|
    ensures Pointed(t, ScanItems(t, i))
    decreases |t| - i, 2
  {
    hide SkipSpace, ScanValue, Matched, HexStop;
    ValuePointed(t, i);
    if ScanValue(t, i).Ok? {
      var e := SkipSpace(t, ScanValue(t, i).next);
      if Here(t, e, COMMA) { ItemsPointed(t, e + 1); }
    }
  }

  lemma {:induction false} ObjectPointed(t: Text, i: nat)
    requires Here(t, i, LBRACE)
    ensures Pointed(t, ScanObject(t, i))
    decreases |t| - i, 0
  {
    hide SkipSpace, ScanMembers, Pointed;
    var k := SkipSpace(t, i + 1);
    if !Here(t, k, RBRACE) { MembersPointed(t, k); } else { OkIsPointed(t, k + 1); }
  }

  lemma {:induction false} MembersPointed(t: Text, i: nat)
    requires i <= |t|
    ensures Pointed(t, ScanMembers(t, i))
    decreases |t| - i, 3
  {
    hide SkipSpace, ScanMember, Matched, HexStop;
    MemberPointed(t, i);
    if ScanMember(t, i).Ok? {
      var e := SkipSpace(t, ScanMember(t, i).next);
      if Here(t, e, COMMA) { MembersPointed(t, e + 1); }
    }
  }

  lemma {:induction false} MemberPointed(t: Text, i: nat)
    requires i <= |t|
    ensures Pointed(t, ScanMember(t, i))
    decreases |t| - i, 2
  {
    hide SkipSpace, ScanValue, ScanString, Matched, HexStop;
    var k := SkipSpace(t, i);
    if Here(t, k, QUOTE) {
      StringPointed(t, k);
      if ScanString(t, k).Ok? {
        var c := SkipSpace(t, ScanString(t, k).next);
        if Here(t, c, COLON) { ValuePointed(t, c + 1); }
      }
    }
  }

  // ---------------------------------------------------------------- theorem

  /** The text that is kept can be completed by what can stand there. */
  lemma KeptIsCompletable(t: Text, p: nat, c: Text)
    requires ScanValue(t, 0).Bad? && Kept(t, ScanValue(t, 0), p, c)
    ensures p <= |t| && Completable(t[..p] + c)
  {
    hide ValueText, ValueOk, AllSpace, ScanValue, Kept;
    var before, v, u := ValueViable(t, 0, p, c);
    NoSpace();
    var item := Item(before, v, []);
    assert t[..p] + c + u[|c|..] == t[0..p] + u;
    assert ItemOk(item) && ItemText(item) == t[..p] + c + u[|c|..];
    assert IsJson(t[..p] + c + u[|c|..]);
  }

  lemma TrailingIsJson(t: Text)
    requires ScanValue(t, 0).Ok? && ScanText(t).Bad?
    ensures IsJson(t[..ScanText(t).at])
  {
    hide ValueText, ValueOk, AllSpace, SkipSpace, ScanValue;
    var p := ScanText(t).at;
    var before, v := ValueSound(t, 0);
    var n := ScanValue(t, 0).next;
    SpaceSound(t, n, p);
    var item := Item(before, v, t[n..p]);
    assert t[..p] == t[0..n] + t[n..p];
    assert ItemOk(item) && ItemText(item) == t[..p];
  }

  /** Whatever error is found, its position and its reason are right. */
  lemma ErrorsAreRight(t: Text)
    requires ScanText(t).Bad?
    ensures ErrorIsRight(t, ScanText(t).at, ScanText(t).reason)
  {
    hide ScanValue, IsJson, PointsAt, SkipSpace, Matched, HexStop;
    var (at, r) := (ScanText(t).at, ScanText(t).reason);
    var n := Limit(t, at, r);
    if n < |t| { NoMoreThanLimit(t); }
    if ScanValue(t, 0).Bad? {
      ValuePointed(t, 0);
      KeptIsCompletable(t, n, []);
      assert t[..n] + [] == t[..n];
      forall c | CouldStand(r, c) ensures Completable(t[..at] + c) { KeptIsCompletable(t, at, c); }
    } else {
      TrailingIsJson(t);
      TrailingIsPointed(t);
      assert t[..n] + [] == t[..n];
    }
    assert LongestPrefix(t, n) && PointsAt(t, at, r, n);
  }

  lemma TrailingIsPointed(t: Text)
    requires ScanValue(t, 0).Ok? && ScanText(t).Bad? && IsJson(t[..ScanText(t).at])
    ensures PointsAt(t, ScanText(t).at, ScanText(t).reason, ScanText(t).at)
  {
    hide IsJson, ScanValue, SkipSpace;
  }

  /** The recogniser: it finds no error exactly in the JSON texts, and the error that it finds is the right one. */
  method FirstJsonSyntaxError(text: Text) returns (e: Found)
    ensures e == Nothing <==> IsJson(text)
    ensures e.Error? ==> ErrorIsRight(text, e.at, e.reason)
  {
    hide IsJson, ScanValue, SkipSpace, ErrorIsRight;
    RecogniserIsExact(text);
    if ScanText(text).Bad? { ErrorsAreRight(text); }
    var scanner := new Scanner(text);
    e := scanner.ParseValue();
    if e != Nothing { return; }
    scanner.SkipWhitespace();
    if scanner.index < |text| { return Error(scanner.index, TrailingContent); }
    return Nothing;
  }
}
