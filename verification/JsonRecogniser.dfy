/** The recogniser accepts exactly the JSON texts. */
module JsonRecogniser {
  import opened JsonSyntax
  import opened JsonScanner

  // ------------------------------------------------------------------ parts

  lemma AtParts(t: Text, i: nat, a: Text, b: Text)
    ensures At(t, i, a + b) <==> At(t, i, a) && At(t, i + |a|, b)
  {
    if i + |a| + |b| <= |t| {
      assert t[i..i + |a| + |b|] == t[i..i + |a|] + t[i + |a|..i + |a| + |b|];
      if At(t, i, a + b) {
        assert t[i..i + |a|] == (a + b)[..|a|] == a;
        assert t[i + |a|..i + |a| + |b|] == (a + b)[|a|..] == b;
      }
    }
  }

  lemma AtFirst(t: Text, i: nat, a: Text)
    requires At(t, i, a) && |a| > 0
    ensures i < |t| && t[i] == a[0]
  {
    assert t[i..i + |a|][0] == t[i];
  }

  lemma {:induction false} SkipSpaceStops(t: Text, i: nat)
    requires i <= |t|
    ensures var n := SkipSpace(t, i); AllSpace(t[i..n]) && (n < |t| ==> !IsSpace(t[n]))
    decreases |t| - i
  {
    if i < |t| && IsSpace(t[i]) {
      SkipSpaceStops(t, i + 1);
      assert t[i..SkipSpace(t, i)] == [t[i]] + t[i + 1..SkipSpace(t, i)];
    }
  }

  lemma {:induction false} SkipSpaceExactly(t: Text, i: nat, s: Text)
    requires AllSpace(s) && At(t, i, s) && (i + |s| < |t| ==> !IsSpace(t[i + |s|]))
    ensures SkipSpace(t, i) == i + |s|
    decreases |s|
  {
    if s != [] {
      AtFirst(t, i, s);
      assert s == [s[0]] + s[1..];
      AtParts(t, i, [s[0]], s[1..]);
      SkipSpaceExactly(t, i + 1, s[1..]);
    }
  }

  lemma {:induction false} SkipDigitsStops(t: Text, i: nat)
    requires i <= |t|
    ensures var n := SkipDigits(t, i); AllDigits(t[i..n]) && !DigitHere(t, n)
    decreases |t| - i
  {
    if DigitHere(t, i) {
      SkipDigitsStops(t, i + 1);
      assert t[i..SkipDigits(t, i)] == [t[i]] + t[i + 1..SkipDigits(t, i)];
    }
  }

  lemma {:induction false} SkipDigitsExactly(t: Text, i: nat, s: Text)
    requires AllDigits(s) && At(t, i, s) && !DigitHere(t, i + |s|)
    ensures SkipDigits(t, i) == i + |s|
    decreases |s|
  {
    if s != [] {
      AtFirst(t, i, s);
      assert s == [s[0]] + s[1..];
      AtParts(t, i, [s[0]], s[1..]);
      SkipDigitsExactly(t, i + 1, s[1..]);
    }
  }

  // -------------------------------------------------------------- soundness

  lemma HexSound(t: Text, i: nat)
    requires Here(t, i, BACKSLASH) && Here(t, i + 1, LOWER_U) && i + 6 <= |t|
    requires IsHex(t[i + 2]) && IsHex(t[i + 3]) && IsHex(t[i + 4]) && IsHex(t[i + 5])
    ensures var c := Hex(t[i + 2..i + 6]); CharOk(c) && At(t, i, CharText(c)) && |CharText(c)| == 6
  {
    hide IsHex;
    assert t[i..i + 6] == [BACKSLASH, LOWER_U] + t[i + 2..i + 6];
  }

  lemma EscapeSound(t: Text, i: nat)
    requires Here(t, i, BACKSLASH) && i + 1 < |t| && IsEscape(t[i + 1])
    ensures var c := Escaped(t[i + 1]); CharOk(c) && At(t, i, CharText(c)) && |CharText(c)| == 2
  {
    hide IsEscape;
    assert t[i..i + 2] == [BACKSLASH, t[i + 1]];
  }

  lemma CharSound(t: Text, i: nat, start: nat) returns (c: Char)
    requires start < i <= |t| && ScanChars(t, i, start).Ok? && t[i] != QUOTE
    ensures CharOk(c) && At(t, i, CharText(c))
    ensures ScanChars(t, i, start) == ScanChars(t, i + |CharText(c)|, start)
  {
    hide IsHex, IsEscape, At, CharText;
    if t[i] == BACKSLASH && i + 1 < |t| && IsEscape(t[i + 1]) {
      c := Escaped(t[i + 1]);
      EscapeSound(t, i);
    } else if t[i] == BACKSLASH {
      c := Hex(t[i + 2..i + 6]);
      HexSound(t, i);
    } else {
      c := PlainSound(t, i);
    }
  }

  lemma PlainSound(t: Text, i: nat) returns (c: Char)
    requires i < |t| && t[i] >= 0x20 && t[i] != QUOTE && t[i] != BACKSLASH
    ensures CharOk(c) && At(t, i, CharText(c)) && |CharText(c)| == 1
  {
    c := Plain(t[i]);
    AtOne(t, i, t[i]);
  }

  lemma CharsTextOfMore(c: Char, rest: seq<Char>, tail: Text)
    ensures CharsText([c] + rest) + tail == CharText(c) + (CharsText(rest) + tail)
  {
    assert ([c] + rest)[1..] == rest;
  }

  lemma {:induction false} CharsSound(t: Text, i: nat, start: nat) returns (s: seq<Char>)
    requires start < i <= |t| && ScanChars(t, i, start).Ok?
    ensures CharsOk(s) && At(t, i, CharsText(s) + [QUOTE]) && ScanChars(t, i, start).next == i + |CharsText(s)| + 1
    decreases |t| - i
  {
    hide At, CharsText, CharOk, IsHex, IsEscape;
    if t[i] == QUOTE {
      s := [];
      NoChars(t, i);
    } else {
      var c := CharSound(t, i, start);
      var rest := CharsSound(t, i + |CharText(c)|, start);
      s := [c] + rest;
      CharsTextOfMore(c, rest, [QUOTE]);
      AtParts(t, i, CharText(c), CharsText(rest) + [QUOTE]);
    }
  }

  lemma NoChars(t: Text, i: nat)
    requires Here(t, i, QUOTE)
    ensures |CharsText([])| == 0 && At(t, i, CharsText([]) + [QUOTE])
  {
    assert CharsText([]) + [QUOTE] == [QUOTE] == t[i..i + 1];
  }

  /** The mark of an exponent with its sign. */
  lemma MarkSound(t: Text, i: nat) returns (j: nat)
    requires Here(t, i, LOWER_E) || Here(t, i, UPPER_E)
    ensures i < j <= |t| && j == if Here(t, i + 1, PLUS) || Here(t, i + 1, MINUS) then i + 2 else i + 1
    ensures t[i + 1..j] == [] || t[i + 1..j] == [PLUS] || t[i + 1..j] == [MINUS]
    ensures At(t, i, [t[i]] + t[i + 1..j])
  {
    j := if Here(t, i + 1, PLUS) || Here(t, i + 1, MINUS) then i + 2 else i + 1;
    assert t[i..j] == [t[i]] + t[i + 1..j];
  }

  lemma ExponentSound(t: Text, i: nat) returns (e: Exponent)
    requires i <= |t| && ScanExponent(t, i).Ok?
    ensures ExponentOk(e) && At(t, i, ExponentText(e)) && ScanExponent(t, i).next == i + |ExponentText(e)|
  {
    hide At, AllDigits, SkipDigits;
    if !Here(t, i, LOWER_E) && !Here(t, i, UPPER_E) {
      e := NoExponent;
      AtNothing(t, i);
    } else {
      var j := MarkSound(t, i);
      var n := SkipDigits(t, j);
      DigitsSound(t, j, n);
      SomeDigits(t, j);
      e := Exponent(t[i], t[i + 1..j], t[j..n]);
      AtParts(t, i, [t[i]] + t[i + 1..j], t[j..n]);
    }
  }

  lemma DigitsSound(t: Text, i: nat, j: nat)
    requires i <= j <= |t| && j == SkipDigits(t, i)
    ensures AllDigits(t[i..j]) && At(t, i, t[i..j])
  {
    SkipDigitsStops(t, i);
  }

  lemma FractionSound(t: Text, i: nat) returns (f: Text, e: Exponent)
    requires i <= |t| && ScanFraction(t, i).Ok?
    ensures AllDigits(f) && ExponentOk(e)
    ensures var part := FractionText(f) + ExponentText(e); At(t, i, part) && ScanFraction(t, i).next == i + |part|
  {
    hide At, AllDigits, ExponentText, ExponentOk, ScanExponent, SkipDigits;
    if !Here(t, i, DOT) {
      f := [];
      NoDigits();
      e := ExponentSound(t, i);
      assert FractionText(f) + ExponentText(e) == ExponentText(e);
    } else {
      var n := SkipDigits(t, i + 1);
      DigitsSound(t, i + 1, n);
      f := t[i + 1..n];
      SomeDigits(t, i + 1);
      e := ExponentSound(t, n);
      AtOne(t, i, DOT);
      AtParts(t, i, [DOT], f);
      AtParts(t, i, [DOT] + f, ExponentText(e));
    }
  }

  lemma NoDigits()
    ensures AllDigits([])
  {
  }

  lemma SomeDigits(t: Text, i: nat)
    requires DigitHere(t, i)
    ensures SkipDigits(t, i) > i
  {
  }

  lemma AtOne(t: Text, i: nat, u: Unit)
    requires Here(t, i, u)
    ensures At(t, i, [u])
  {
    assert t[i..i + 1] == [u];
  }

  /** The digits before the fraction: one zero, or digits that do not start with zero. */
  lemma WholeSound(t: Text, j: nat, n: nat)
    requires DigitHere(t, j) && n == if Here(t, j, ZERO) then j + 1 else SkipDigits(t, j + 1)
    ensures j < n <= |t| && WholeOk(t[j..n]) && At(t, j, t[j..n])
  {
    if !Here(t, j, ZERO) {
      SkipDigitsStops(t, j + 1);
      assert t[j..n] == [t[j]] + t[j + 1..n];
    }
  }

  lemma NumberSound(t: Text, i: nat) returns (v: Value)
    requires i < |t| && ScanNumber(t, i).Ok?
    ensures ValueOk(v) && At(t, i, ValueText(v)) && ScanNumber(t, i).next == i + |ValueText(v)|
  {
    hide At, AllDigits, ExponentText, ExponentOk, WholeOk, FractionText, ScanFraction, SkipDigits;
    var minus := t[i] == MINUS;
    var j := if minus then i + 1 else i;
    if minus { AtOne(t, i, MINUS); } else { AtNothing(t, i); }
    var n := if Here(t, j, ZERO) then j + 1 else SkipDigits(t, j + 1);
    WholeSound(t, j, n);
    var f, e := FractionSound(t, n);
    v := Number(minus, t[j..n], f, e);
    AtParts(t, j, t[j..n], FractionText(f) + ExponentText(e));
    AtParts(t, i, SignText(minus), t[j..n] + (FractionText(f) + ExponentText(e)));
  }

  lemma AtNothing(t: Text, i: nat)
    requires i <= |t|
    ensures At(t, i, [])
  {
  }

  lemma StringSound(t: Text, i: nat) returns (s: seq<Char>)
    requires Here(t, i, QUOTE) && ScanString(t, i).Ok?
    ensures CharsOk(s) && At(t, i, StringText(s)) && ScanString(t, i).next == i + |StringText(s)|
  {
    hide At, CharsText, ScanChars, CharsOk;
    s := CharsSound(t, i + 1, i);
    AtOne(t, i, QUOTE);
    AtParts(t, i, [QUOTE], CharsText(s) + [QUOTE]);
  }

  lemma SpaceSound(t: Text, i: nat, k: nat)
    requires i <= k <= |t| && k == SkipSpace(t, i)
    ensures AllSpace(t[i..k]) && At(t, i, t[i..k])
  {
    SkipSpaceStops(t, i);
  }

  lemma WordSound(t: Text, i: nat, w: Word)
    requires i < |t| && ScanWord(t, i, w).Ok?
    ensures At(t, i, ValueText(Literal(w))) && ScanWord(t, i, w).next == i + |ValueText(Literal(w))|
  {
  }

  /** What the recogniser takes for a value is white space and the text of a value. */
  lemma {:induction false} ValueSound(t: Text, i: nat) returns (before: Text, v: Value)
    requires i <= |t| && ScanValue(t, i).Ok?
    ensures AllSpace(before) && ValueOk(v)
    ensures At(t, i, before + ValueText(v)) && ScanValue(t, i).next == i + |before + ValueText(v)|
    decreases |t| - i, 2
  {
    hide At, ValueText, ValueOk, SkipSpace, ScanValue, AllSpace;
    var k := SkipSpace(t, i);
    SpaceSound(t, i, k);
    before := t[i..k];
    v := BareSound(t, i, k);
    AtParts(t, i, before, ValueText(v));
  }

  lemma {:induction false} BareSound(t: Text, i: nat, k: nat) returns (v: Value)
    requires i <= k <= |t| && k == SkipSpace(t, i) && ScanValue(t, i).Ok?
    ensures ValueOk(v) && At(t, k, ValueText(v)) && ScanValue(t, i).next == k + |ValueText(v)|
    decreases |t| - k, 1
  {
    hide At, ValueText, SkipSpace, ScanNumber, ScanString, ScanObject, ScanArray, ScanWord, ItemsOk, MembersOk,
         AllDigits, WholeOk, ExponentOk, AllSpace;
    if t[k] == LBRACE { v := ObjectSound(t, k); }
    else if t[k] == LBRACKET { v := ArraySound(t, k); }
    else if t[k] == QUOTE { v := QuotedSound(t, k); }
    else if t[k] == LOWER_T { v := Literal(True); WordSound(t, k, True); }
    else if t[k] == LOWER_F { v := Literal(False); WordSound(t, k, False); }
    else if t[k] == LOWER_N { v := Literal(Null); WordSound(t, k, Null); }
    else { v := NumberSound(t, k); }
  }

  lemma QuotedSound(t: Text, i: nat) returns (v: Value)
    requires Here(t, i, QUOTE) && ScanString(t, i).Ok?
    ensures ValueOk(v) && At(t, i, ValueText(v)) && ScanString(t, i).next == i + |ValueText(v)|
  {
    hide At, StringText, ScanString, CharsOk;
    var s := StringSound(t, i);
    v := String(s);
  }

  lemma {:induction false} ArraySound(t: Text, i: nat) returns (v: Value)
    requires Here(t, i, LBRACKET) && ScanArray(t, i).Ok?
    ensures ValueOk(v) && At(t, i, ValueText(v)) && ScanArray(t, i).next == i + |ValueText(v)|
    decreases |t| - i, 0
  {
    hide At, ItemsText, SkipSpace, ScanItems, ItemsOk, AllSpace;
    var k := SkipSpace(t, i + 1);
    SpaceSound(t, i + 1, k);
    var space := t[i + 1..k];
    AtOne(t, i, LBRACKET);
    if Here(t, k, RBRACKET) {
      v := EmptyArray(space);
      AtOne(t, k, RBRACKET);
      AtParts(t, i + 1, space, [RBRACKET]);
      AtParts(t, i, [LBRACKET], space + [RBRACKET]);
    } else {
      var items := ItemsSound(t, k);
      items := ItemsAfterSpace(t, i + 1, space, items);
      v := Array(items);
      AtParts(t, i, [LBRACKET], ItemsText(items));
    }
  }

  lemma ItemsAfterSpace(t: Text, i: nat, space: Text, items: Items) returns (padded: Items)
    requires ItemsOk(items) && AllSpace(space) && At(t, i, space) && At(t, i + |space|, ItemsText(items))
    ensures ItemsOk(padded) && At(t, i, ItemsText(padded)) && |ItemsText(padded)| == |space| + |ItemsText(items)|
  {
    hide At, ValueText, ValueOk;
    var first := items.item.(before := space + items.item.before);
    padded := if items.LastItem? then LastItem(first) else MoreItems(first, items.items);
    assert ItemText(first) == space + ItemText(items.item);
    assert ItemsText(padded) == space + ItemsText(items);
    AtParts(t, i, space, ItemsText(items));
  }

  lemma {:induction false} ItemsSound(t: Text, i: nat) returns (items: Items)
    requires i <= |t| && ScanItems(t, i).Ok?
    ensures ItemsOk(items) && At(t, i, ItemsText(items)) && ScanItems(t, i).next == i + |ItemsText(items)|
    decreases |t| - i, 3
  {
    hide At, ValueText, ValueOk, SkipSpace, ScanValue, AllSpace;
    var before, v := ValueSound(t, i);
    var n := ScanValue(t, i).next;
    var e := SkipSpace(t, n);
    SpaceSound(t, n, e);
    var item := Item(before, v, t[n..e]);
    AtParts(t, i, before + ValueText(v), t[n..e]);
    if Here(t, e, COMMA) {
      var rest := ItemsSound(t, e + 1);
      items := MoreItems(item, rest);
      AtOne(t, e, COMMA);
      AtParts(t, e, [COMMA], ItemsText(rest));
      AtParts(t, i, ItemText(item), [COMMA] + ItemsText(rest));
    } else {
      items := LastItem(item);
      AtOne(t, e, RBRACKET);
      AtParts(t, i, ItemText(item), [RBRACKET]);
    }
  }

  lemma {:induction false} ObjectSound(t: Text, i: nat) returns (v: Value)
    requires Here(t, i, LBRACE) && ScanObject(t, i).Ok?
    ensures ValueOk(v) && At(t, i, ValueText(v)) && ScanObject(t, i).next == i + |ValueText(v)|
    decreases |t| - i, 0
  {
    hide At, MembersText, SkipSpace, ScanMembers, MembersOk, AllSpace;
    var k := SkipSpace(t, i + 1);
    SpaceSound(t, i + 1, k);
    var space := t[i + 1..k];
    AtOne(t, i, LBRACE);
    if Here(t, k, RBRACE) {
      v := EmptyObject(space);
      AtOne(t, k, RBRACE);
      AtParts(t, i + 1, space, [RBRACE]);
      AtParts(t, i, [LBRACE], space + [RBRACE]);
    } else {
      var members := MembersSound(t, k);
      members := MembersAfterSpace(t, i + 1, space, members);
      v := Object(members);
      AtParts(t, i, [LBRACE], MembersText(members));
    }
  }

  lemma MembersAfterSpace(t: Text, i: nat, space: Text, members: Members) returns (padded: Members)
    requires MembersOk(members) && AllSpace(space) && At(t, i, space) && At(t, i + |space|, MembersText(members))
    ensures MembersOk(padded) && At(t, i, MembersText(padded)) &&
              |MembersText(padded)| == |space| + |MembersText(members)|
  {
    hide At, ItemText, ItemOk, StringText, CharsOk;
    var first := members.member.(before := space + members.member.before);
    padded := if members.LastMember? then LastMember(first) else MoreMembers(first, members.members);
    assert MemberText(first) == space + MemberText(members.member);
    assert MembersText(padded) == space + MembersText(members);
    AtParts(t, i, space, MembersText(members));
  }

  /** The text of a member up to the end of its value. */
  function MemberHead(m: Member): Text {
    m.before + (StringText(m.name) + (m.after + ([COLON] + (m.item.before + ValueText(m.item.value)))))
  }

  lemma MemberHeadThenSpace(m: Member)
    ensures MemberText(m) == MemberHead(m) + m.item.after
  {
    hide StringText, ValueText;
    var (value, after) := (m.item.before + ValueText(m.item.value), m.item.after);
    Regroup([COLON], value, after);
    Regroup(m.after, [COLON] + value, after);
    Regroup(StringText(m.name), m.after + ([COLON] + value), after);
    Regroup(m.before, StringText(m.name) + (m.after + ([COLON] + value)), after);
  }

  lemma Regroup(a: Text, b: Text, c: Text)
    ensures (a + b) + c == a + (b + c)
  {
  }

  lemma {:induction false} MemberSound(t: Text, i: nat, after: Text) returns (m: Member)
    requires i <= |t| && ScanMember(t, i).Ok? && AllSpace(after)
    ensures MemberOk(m) && m.item.after == after && At(t, i, MemberHead(m)) &&
              ScanMember(t, i).next == i + |MemberHead(m)|
    decreases |t| - i, 3
  {
    hide At, StringText, ValueText, ValueOk, CharsOk, SkipSpace, ScanValue, ScanString, AllSpace;
    var k := SkipSpace(t, i);
    SpaceSound(t, i, k);
    var name := StringSound(t, k);
    var n := ScanString(t, k).next;
    var c := SkipSpace(t, n);
    SpaceSound(t, n, c);
    var before, v := ValueSound(t, c + 1);
    m := Member(t[i..k], name, t[n..c], Item(before, v, after));
    AtOne(t, c, COLON);
    var value := before + ValueText(v);
    AtParts(t, c, [COLON], value);
    AtParts(t, n, m.after, [COLON] + value);
    AtParts(t, k, StringText(name), m.after + ([COLON] + value));
    AtParts(t, i, m.before, StringText(name) + (m.after + ([COLON] + value)));
  }

  lemma {:induction false} MembersSound(t: Text, i: nat) returns (members: Members)
    requires i <= |t| && ScanMembers(t, i).Ok?
    ensures MembersOk(members) && At(t, i, MembersText(members)) && ScanMembers(t, i).next == i + |MembersText(members)|
    decreases |t| - i, 4
  {
    hide At, MemberHead, MemberText, MemberOk, SkipSpace, ScanMember, AllSpace;
    var n := ScanMember(t, i).next;
    var e := SkipSpace(t, n);
    SpaceSound(t, n, e);
    var m := MemberSound(t, i, t[n..e]);
    MemberHeadThenSpace(m);
    AtParts(t, i, MemberHead(m), t[n..e]);
    if Here(t, e, COMMA) {
      var rest := MembersSound(t, e + 1);
      members := MoreMembers(m, rest);
      AtOne(t, e, COMMA);
      AtParts(t, e, [COMMA], MembersText(rest));
      AtParts(t, i, MemberText(m), [COMMA] + MembersText(rest));
    } else {
      members := LastMember(m);
      AtOne(t, e, RBRACE);
      AtParts(t, i, MemberText(m), [RBRACE]);
    }
  }

  // ----------------------------------------------------------- completeness

  /** Where a value may end: at the end of the text, or before white space, a comma or a closing bracket. */
  predicate Follows(t: Text, i: nat) {
    i < |t| ==> IsSpace(t[i]) || t[i] == COMMA || t[i] == RBRACKET || t[i] == RBRACE
  }

  lemma HexAt(t: Text, i: nat, d: Text)
    requires CharOk(Hex(d)) && At(t, i, [BACKSLASH, LOWER_U] + d)
    ensures i + 6 <= |t| && t[i] == BACKSLASH && t[i + 1] == LOWER_U
    ensures IsHex(t[i + 2]) && IsHex(t[i + 3]) && IsHex(t[i + 4]) && IsHex(t[i + 5])
  {
    hide IsHex;
    var x := [BACKSLASH, LOWER_U] + d;
    assert forall n :: 0 <= n < 6 ==> t[i + n] == t[i..i + 6][n] == x[n];
  }

  lemma CharComplete(t: Text, i: nat, start: nat, c: Char)
    requires start < i && CharOk(c) && At(t, i, CharText(c))
    ensures i + |CharText(c)| <= |t| && ScanChars(t, i, start) == ScanChars(t, i + |CharText(c)|, start)
  {
    hide IsHex, At;
    AtEnd(t, i, CharText(c));
    match c
    case Plain(u) => AtFirst(t, i, [u]);
    case Escaped(u) =>
      assert [BACKSLASH, u] == [BACKSLASH] + [u];
      AtParts(t, i, [BACKSLASH], [u]);
      AtFirst(t, i, [BACKSLASH]);
      AtFirst(t, i + 1, [u]);
    case Hex(d) => HexAt(t, i, d);
  }

  lemma {:induction false} CharsComplete(t: Text, i: nat, start: nat, s: seq<Char>)
    requires start < i && CharsOk(s) && At(t, i, CharsText(s) + [QUOTE])
    ensures ScanChars(t, i, start) == Ok(i + |CharsText(s)| + 1)
    decreases |s|
  {
    hide At, CharOk, CharText, CharsText, IsHex, IsEscape;
    if s == [] {
      NoCharsHere(t, i);
    } else {
      assert s == [s[0]] + s[1..];
      CharsTextOfMore(s[0], s[1..], [QUOTE]);
      AtParts(t, i, CharText(s[0]), CharsText(s[1..]) + [QUOTE]);
      CharComplete(t, i, start, s[0]);
      CharsComplete(t, i + |CharText(s[0])|, start, s[1..]);
    }
  }

  lemma NoCharsHere(t: Text, i: nat)
    requires At(t, i, CharsText([]) + [QUOTE])
    ensures Here(t, i, QUOTE) && |CharsText([])| == 0
  {
    AtFirst(t, i, CharsText([]) + [QUOTE]);
  }

  lemma ExponentComplete(t: Text, i: nat, e: Exponent)
    requires ExponentOk(e) && At(t, i, ExponentText(e)) && Follows(t, i + |ExponentText(e)|)
    ensures ScanExponent(t, i) == Ok(i + |ExponentText(e)|)
  {
    hide At, SkipDigits;
    if e.Exponent? {
      AtParts(t, i, [e.mark] + e.sign, e.digits);
      AtParts(t, i, [e.mark], e.sign);
      AtFirst(t, i, [e.mark]);
      AtFirst(t, i + 1 + |e.sign|, e.digits);
      if e.sign != [] { AtFirst(t, i + 1, e.sign); }
      SkipDigitsExactly(t, i + 1 + |e.sign|, e.digits);
    } else {
      AtEnd(t, i, []);
    }
  }

  lemma AtEnd(t: Text, i: nat, a: Text)
    requires At(t, i, a)
    ensures i + |a| <= |t|
  {
  }

  lemma FractionComplete(t: Text, i: nat, f: Text, e: Exponent)
    requires AllDigits(f) && ExponentOk(e)
    requires At(t, i, FractionText(f) + ExponentText(e)) && Follows(t, i + |FractionText(f) + ExponentText(e)|)
    ensures ScanFraction(t, i) == Ok(i + |FractionText(f) + ExponentText(e)|)
    ensures !DigitHere(t, i)
  {
    hide At, SkipDigits, ScanExponent;
    AtParts(t, i, FractionText(f), ExponentText(e));
    var x := i + |FractionText(f)|;
    AtEnd(t, x, ExponentText(e));
    if e.Exponent? { AtFirst(t, x, ExponentText(e)); }
    ExponentComplete(t, x, e);
    if f != [] {
      AtParts(t, i, [DOT], f);
      AtFirst(t, i, [DOT]);
      AtFirst(t, i + 1, f);
      SkipDigitsExactly(t, i + 1, f);
    }
  }

  lemma WholeComplete(t: Text, j: nat, whole: Text)
    requires WholeOk(whole) && At(t, j, whole) && !DigitHere(t, j + |whole|)
    ensures DigitHere(t, j)
    ensures Here(t, j, ZERO) ==> |whole| == 1
    ensures !Here(t, j, ZERO) ==> SkipDigits(t, j + 1) == j + |whole|
  {
    hide At, SkipDigits;
    AtFirst(t, j, whole);
    if whole != [ZERO] {
      assert whole == [whole[0]] + whole[1..];
      AtParts(t, j, [whole[0]], whole[1..]);
      SkipDigitsExactly(t, j + 1, whole[1..]);
    }
  }

  lemma NumberComplete(t: Text, i: nat, v: Value)
    requires v.Number? && ValueOk(v) && At(t, i, ValueText(v)) && Follows(t, i + |ValueText(v)|)
    ensures i < |t| && ScanNumber(t, i) == Ok(i + |ValueText(v)|)
  {
    hide At, SkipDigits, ScanFraction, FractionText, ExponentText, WholeOk, ExponentOk, AllDigits;
    var rest := FractionText(v.fraction) + ExponentText(v.exponent);
    AtParts(t, i, SignText(v.minus), v.whole + rest);
    var j := i + |SignText(v.minus)|;
    AtParts(t, j, v.whole, rest);
    if v.minus { AtFirst(t, i, [MINUS]); }
    FractionComplete(t, j + |v.whole|, v.fraction, v.exponent);
    WholeComplete(t, j, v.whole);
  }

  lemma StringComplete(t: Text, i: nat, s: seq<Char>)
    requires CharsOk(s) && At(t, i, StringText(s))
    ensures Here(t, i, QUOTE) && ScanString(t, i) == Ok(i + |StringText(s)|)
  {
    hide At, CharsText, ScanChars, CharsOk;
    AtParts(t, i, [QUOTE], CharsText(s) + [QUOTE]);
    AtFirst(t, i, [QUOTE]);
    CharsComplete(t, i + 1, i, s);
  }

  /** The character that a value starts with decides what the recogniser tries. */
  lemma FirstOfValue(v: Value)
    requires ValueOk(v)
    ensures |ValueText(v)| > 0 && !IsSpace(ValueText(v)[0]) && ValueText(v)[0] != RBRACKET
    ensures var u := ValueText(v)[0];
            && ((v.EmptyArray? || v.Array?) <==> u == LBRACKET)
            && ((v.EmptyObject? || v.Object?) <==> u == LBRACE)
            && (v.String? <==> u == QUOTE)
            && (v == Literal(True) <==> u == LOWER_T)
            && (v == Literal(False) <==> u == LOWER_F)
            && (v == Literal(Null) <==> u == LOWER_N)
            && (v.Number? ==> u == MINUS || IsDigit(u))
  {
    hide ItemsText, MembersText, CharsText, FractionText, ExponentText;
  }

  /** The recogniser finds the whole of any value, with the white space before it. */
  lemma {:induction false} ValueComplete(t: Text, i: nat, before: Text, v: Value)
    requires AllSpace(before) && ValueOk(v) && At(t, i, before + ValueText(v)) &&
               Follows(t, i + |before + ValueText(v)|)
    ensures ScanValue(t, i) == Ok(i + |before + ValueText(v)|)
    decreases v, 1
  {
    hide At, ValueText, ValueOk, AllSpace, SkipSpace, ScanNumber, ScanString, ScanObject, ScanArray, Follows;
    AtParts(t, i, before, ValueText(v));
    var k := i + |before|;
    FirstOfValue(v);
    AtFirst(t, k, ValueText(v));
    SkipSpaceExactly(t, i, before);
    match v
    case Literal(w) => WordComplete(t, k, w);
    case Number(_, _, _, _) => NumberComplete(t, k, v);
    case String(s) => QuotedComplete(t, k, v);
    case EmptyArray(space) => ArrayComplete(t, k, v);
    case Array(items) => ArrayComplete(t, k, v);
    case EmptyObject(space) => ObjectComplete(t, k, v);
    case Object(members) => ObjectComplete(t, k, v);
  }

  lemma WordComplete(t: Text, i: nat, w: Word)
    requires At(t, i, ValueText(Literal(w)))
    ensures i < |t| && ScanWord(t, i, w) == Ok(i + |ValueText(Literal(w))|)
  {
  }

  lemma QuotedComplete(t: Text, i: nat, v: Value)
    requires v.String? && ValueOk(v) && At(t, i, ValueText(v))
    ensures Here(t, i, QUOTE) && ScanString(t, i) == Ok(i + |ValueText(v)|)
  {
    hide At, StringText, ScanString;
    StringComplete(t, i, v.chars);
  }

  /** White space up to a closing bracket or brace. */
  lemma SpaceComplete(t: Text, i: nat, space: Text, u: Unit)
    requires AllSpace(space) && At(t, i, space + [u]) && !IsSpace(u)
    ensures i <= |t| && SkipSpace(t, i) == i + |space| && Here(t, i + |space|, u)
  {
    hide At, SkipSpace;
    AtEnd(t, i, space + [u]);
    AtParts(t, i, space, [u]);
    AtFirst(t, i + |space|, [u]);
    SkipSpaceExactly(t, i, space);
  }

  lemma {:induction false} ArrayComplete(t: Text, i: nat, v: Value)
    requires (v.Array? || v.EmptyArray?) && ValueOk(v) && At(t, i, ValueText(v))
    ensures Here(t, i, LBRACKET) && ScanArray(t, i) == Ok(i + |ValueText(v)|)
    decreases v, 0
  {
    hide At, ItemsText, ItemsOk, AllSpace, SkipSpace, ScanItems;
    if v.EmptyArray? {
      AtParts(t, i, [LBRACKET], v.space + [RBRACKET]);
      AtFirst(t, i, [LBRACKET]);
      SpaceComplete(t, i + 1, v.space, RBRACKET);
    } else {
      AtParts(t, i, [LBRACKET], ItemsText(v.items));
      AtFirst(t, i, [LBRACKET]);
      ItemsNotEmpty(t, i + 1, v.items);
      ItemsComplete(t, i + 1, v.items);
      SkippedItems(t, i + 1);
    }
  }

  lemma {:induction false} ObjectComplete(t: Text, i: nat, v: Value)
    requires (v.Object? || v.EmptyObject?) && ValueOk(v) && At(t, i, ValueText(v))
    ensures Here(t, i, LBRACE) && ScanObject(t, i) == Ok(i + |ValueText(v)|)
    decreases v, 0
  {
    hide At, MembersText, MembersOk, AllSpace, SkipSpace, ScanMembers;
    if v.EmptyObject? {
      AtParts(t, i, [LBRACE], v.space + [RBRACE]);
      AtFirst(t, i, [LBRACE]);
      SpaceComplete(t, i + 1, v.space, RBRACE);
    } else {
      AtParts(t, i, [LBRACE], MembersText(v.members));
      AtFirst(t, i, [LBRACE]);
      MembersNotEmpty(t, i + 1, v.members);
      MembersComplete(t, i + 1, v.members);
      SkippedMembers(t, i + 1);
    }
  }

  /** The items of an array after the first value and the white space around it. */
  function ItemsTail(items: Items): Text {
    if items.LastItem? then [RBRACKET] else [COMMA] + ItemsText(items.items)
  }

  lemma ItemsHeadAndTail(items: Items)
    ensures var item := items.item; var value := item.before + ValueText(item.value);
            ItemsText(items) == value + (item.after + ItemsTail(items))
  {
    hide ValueText;
    Regroup(items.item.before + ValueText(items.item.value), items.item.after, ItemsTail(items));
  }

  lemma ItemsNotEmpty(t: Text, i: nat, items: Items)
    requires ItemsOk(items) && At(t, i, ItemsText(items))
    ensures i <= |t| && var n := SkipSpace(t, i); n < |t| && t[n] != RBRACKET
  {
    hide At, ValueText, ItemsText, ItemsTail, ValueOk, AllSpace, SkipSpace;
    var item := items.item;
    var rest := ValueText(item.value) + (item.after + ItemsTail(items));
    ItemsHeadAndTail(items);
    AtEnd(t, i, ItemsText(items));
    Regroup(item.before, ValueText(item.value), item.after + ItemsTail(items));
    AtParts(t, i, item.before, rest);
    FirstOfValue(item.value);
    assert rest[0] == ValueText(item.value)[0];
    AtFirst(t, i + |item.before|, rest);
    SkipSpaceExactly(t, i, item.before);
  }

  /** Leading white space may be skipped before the loop of an array, or of an object. */
  lemma SkippedItems(t: Text, i: nat)
    requires i <= |t|
    ensures ScanItems(t, SkipSpace(t, i)) == ScanItems(t, i)
  {
    hide SkipSpace, ScanValue;
    SkipTwice(t, i);
    assert ScanItems(t, i) == ScanItems(t, SkipSpace(t, i));
  }

  lemma SkipTwice(t: Text, i: nat)
    requires i <= |t|
    ensures ScanValue(t, SkipSpace(t, i)) == ScanValue(t, i)
    ensures ScanMember(t, SkipSpace(t, i)) == ScanMember(t, i)
  {
    hide ScanNumber, ScanString, ScanObject, ScanArray, ScanWord;
    SkipSpaceStops(t, i);
    assert SkipSpace(t, SkipSpace(t, i)) == SkipSpace(t, i);
  }

  lemma SkippedMembers(t: Text, i: nat)
    requires i <= |t|
    ensures ScanMembers(t, SkipSpace(t, i)) == ScanMembers(t, i)
  {
    hide SkipSpace, ScanMember;
    SkipTwice(t, i);
    assert ScanMembers(t, i) == ScanMembers(t, SkipSpace(t, i));
  }

  /** A value, or the last of several, is followed by white space and then by what closes or separates. */
  lemma AfterValue(t: Text, n: nat, after: Text, tail: Text)
    requires AllSpace(after) && At(t, n, after + tail) && |tail| > 0
    requires tail[0] == COMMA || tail[0] == RBRACKET || tail[0] == RBRACE
    ensures n <= |t| && SkipSpace(t, n) == n + |after| && Here(t, n + |after|, tail[0]) && Follows(t, n)
  {
    hide At, SkipSpace;
    AtEnd(t, n, after + tail);
    AtParts(t, n, after, tail);
    AtFirst(t, n + |after|, tail);
    if after != [] { AtFirst(t, n, after); }
    SkipSpaceExactly(t, n, after);
  }

  lemma {:induction false} ItemsComplete(t: Text, i: nat, items: Items)
    requires ItemsOk(items) && At(t, i, ItemsText(items))
    ensures i <= |t| && ScanItems(t, i) == Ok(i + |ItemsText(items)|)
    decreases items, 2
  {
    hide At, ValueText, ItemsText, ValueOk, AllSpace, SkipSpace, ScanValue, Follows;
    var item := items.item;
    var value := item.before + ValueText(item.value);
    var tail := ItemsTail(items);
    ItemsHeadAndTail(items);
    AtEnd(t, i, ItemsText(items));
    AtParts(t, i, value, item.after + tail);
    AfterValue(t, i + |value|, item.after, tail);
    ValueComplete(t, i, item.before, item.value);
    if items.MoreItems? {
      AtParts(t, i + |value|, item.after, tail);
      AtParts(t, i + |value| + |item.after|, [COMMA], ItemsText(items.items));
      ItemsComplete(t, i + |value| + |item.after| + 1, items.items);
    }
  }

  function MembersTail(members: Members): Text {
    if members.LastMember? then [RBRACE] else [COMMA] + MembersText(members.members)
  }

  lemma MembersHeadAndTail(members: Members)
    ensures MembersText(members) == MemberHead(members.member) + (members.member.item.after + MembersTail(members))
  {
    hide MemberHead, MemberText;
    MemberHeadThenSpace(members.member);
    Regroup(MemberHead(members.member), members.member.item.after, MembersTail(members));
  }

  lemma MembersNotEmpty(t: Text, i: nat, members: Members)
    requires MembersOk(members) && At(t, i, MembersText(members))
    ensures i <= |t| && Here(t, SkipSpace(t, i), QUOTE)
  {
    hide At, SkipSpace, AllSpace, MembersText, CharsText, ItemText, CharsOk, ItemOk;
    var m := members.member;
    var quoted := StringText(m.name) + (m.after + ([COLON] + ItemText(m.item)));
    var rest := quoted + MembersTail(members);
    MembersFirstAndRest(members);
    Regroup(m.before, quoted, MembersTail(members));
    AtEnd(t, i, MembersText(members));
    AtParts(t, i, m.before, rest);
    assert rest[0] == QUOTE;
    AtFirst(t, i + |m.before|, rest);
    SkipSpaceExactly(t, i, m.before);
  }

  lemma MembersFirstAndRest(members: Members)
    ensures MembersText(members) == MemberText(members.member) + MembersTail(members)
  {
  }

  lemma {:induction false} MembersComplete(t: Text, i: nat, members: Members)
    requires MembersOk(members) && At(t, i, MembersText(members))
    ensures i <= |t| && ScanMembers(t, i) == Ok(i + |MembersText(members)|)
    decreases members, 2
  {
    hide At, MemberHead, MembersText, MemberOk, AllSpace, SkipSpace, ScanMember, Follows;
    var m := members.member;
    var head := MemberHead(m);
    var tail := MembersTail(members);
    MembersHeadAndTail(members);
    AtEnd(t, i, MembersText(members));
    AtParts(t, i, head, m.item.after + tail);
    SpaceAfterMember(m);
    AfterValue(t, i + |head|, m.item.after, tail);
    MemberComplete(t, i, m);
    if members.MoreMembers? {
      AtParts(t, i + |head|, m.item.after, tail);
      AtParts(t, i + |head| + |m.item.after|, [COMMA], MembersText(members.members));
      MembersComplete(t, i + |head| + |m.item.after| + 1, members.members);
    }
  }

  lemma SpaceAfterMember(m: Member)
    requires MemberOk(m)
    ensures AllSpace(m.item.after)
  {
  }

  lemma {:induction false} MemberComplete(t: Text, i: nat, m: Member)
    requires MemberOk(m) && At(t, i, MemberHead(m)) && Follows(t, i + |MemberHead(m)|)
    ensures i <= |t| && ScanMember(t, i) == Ok(i + |MemberHead(m)|)
    decreases m, 1
  {
    hide At, StringText, ValueText, ValueOk, CharsOk, AllSpace, SkipSpace, ScanString, ScanValue, Follows;
    AtEnd(t, i, MemberHead(m));
    var value := m.item.before + ValueText(m.item.value);
    var colon := [COLON] + value;
    var name := StringText(m.name);
    AtParts(t, i, m.before, name + (m.after + colon));
    var k := i + |m.before|;
    AtParts(t, k, name, m.after + colon);
    StringComplete(t, k, m.name);
    SkipSpaceExactly(t, i, m.before);
    var n := k + |name|;
    AtParts(t, n, m.after, colon);
    var c := n + |m.after|;
    AtParts(t, c, [COLON], value);
    AtFirst(t, c, [COLON]);
    SkipSpaceExactly(t, n, m.after);
    ValueComplete(t, c + 1, m.item.before, m.item.value);
  }

  // ---------------------------------------------------------------- theorem

  lemma AcceptedIsJson(t: Text)
    requires ScanText(t).Ok?
    ensures IsJson(t)
  {
    hide ValueText, ValueOk, AllSpace, SkipSpace, ScanValue;
    var before, v := ValueSound(t, 0);
    var n := ScanValue(t, 0).next;
    var k := SkipSpace(t, n);
    SpaceSound(t, n, k);
    var item := Item(before, v, t[n..k]);
    assert t == t[0..n] + t[n..k];
    assert ItemText(item) == t && ItemOk(item);
  }

  lemma JsonIsAccepted(t: Text, item: Item)
    requires ItemOk(item) && ItemText(item) == t
    ensures ScanText(t).Ok?
  {
    hide ValueText, ValueOk, SkipSpace, ScanValue;
    var value := item.before + ValueText(item.value);
    assert t[0..|t|] == t;
    AtParts(t, 0, value, item.after);
    if item.after != [] { AtFirst(t, |value|, item.after); }
    ValueComplete(t, 0, item.before, item.value);
    SkipSpaceExactly(t, |value|, item.after);
  }

  /** No error is found exactly in the JSON texts of RFC 8259. */
  lemma RecogniserIsExact(t: Text)
    ensures ScanText(t).Ok? <==> IsJson(t)
  {
    hide ItemText, ItemOk, ScanText;
    if ScanText(t).Ok? { AcceptedIsJson(t); }
    if IsJson(t) {
      var item: Item :| ItemOk(item) && ItemText(item) == t;
      JsonIsAccepted(t, item);
    }
  }
}
