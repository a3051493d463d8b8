/**
 JSON texts as sections 2 to 7 of RFC 8259 define them: concrete syntax trees, and the text of a tree.
 Text is a sequence of UTF-16 code units, as the runtime's strings are.
 */
module JsonSyntax {

  type Unit = u: int | 0 <= u < 0x1_0000
  type Text = seq<Unit>

  const TAB: Unit := 0x09
  const LF: Unit := 0x0A
  const CR: Unit := 0x0D
  const SPACE: Unit := 0x20
  const QUOTE: Unit := 0x22
  const PLUS: Unit := 0x2B
  const COMMA: Unit := 0x2C
  const MINUS: Unit := 0x2D
  const DOT: Unit := 0x2E
  const SLASH: Unit := 0x2F
  const ZERO: Unit := 0x30
  const NINE: Unit := 0x39
  const COLON: Unit := 0x3A
  const UPPER_E: Unit := 0x45
  const LBRACKET: Unit := 0x5B
  const BACKSLASH: Unit := 0x5C
  const RBRACKET: Unit := 0x5D
  const LOWER_E: Unit := 0x65
  const LOWER_F: Unit := 0x66
  const LOWER_N: Unit := 0x6E
  const LOWER_T: Unit := 0x74
  const LOWER_U: Unit := 0x75
  const LBRACE: Unit := 0x7B
  const RBRACE: Unit := 0x7D

  predicate IsSpace(u: Unit) { u == SPACE || u == TAB || u == LF || u == CR }
  predicate IsDigit(u: Unit) { ZERO <= u <= NINE }
  predicate IsHex(u: Unit) { IsDigit(u) || 0x41 <= u <= 0x46 || 0x61 <= u <= 0x66 }

  /** The characters that may follow a backslash on their own: " \ / b f n r t. */
  predicate IsEscape(u: Unit) {
    u == QUOTE || u == BACKSLASH || u == SLASH || u == 0x62 || u == LOWER_F || u == LOWER_N || u == 0x72 || u == LOWER_T
  }

  predicate AllSpace(t: Text) { forall i :: 0 <= i < |t| ==> IsSpace(t[i]) }
  predicate AllDigits(t: Text) { forall i :: 0 <= i < |t| ==> IsDigit(t[i]) }

  // -------------------------------------------------------- concrete syntax

  datatype Word = True | False | Null {
    function Spelling(): Text {
      match this
      case True => [LOWER_T, 0x72, LOWER_U, LOWER_E]
      case False => [LOWER_F, 0x61, 0x6C, 0x73, LOWER_E]
      case Null => [LOWER_N, LOWER_U, 0x6C, 0x6C]
    }
  }

  /** One character of a string, as it is written. */
  datatype Char = Plain(u: Unit) | Escaped(u: Unit) | Hex(digits: Text)

  datatype Exponent = NoExponent | Exponent(mark: Unit, sign: Text, digits: Text)

  datatype Value =
    | Literal(word: Word)
    | Number(minus: bool, whole: Text, fraction: Text, exponent: Exponent)
    | String(chars: seq<Char>)
    | EmptyArray(space: Text)
    | Array(items: Items)
    | EmptyObject(space: Text)
    | Object(members: Members)

  /** A value with the white space around it. */
  datatype Item = Item(before: Text, value: Value, after: Text)
  datatype Items = LastItem(item: Item) | MoreItems(item: Item, items: Items)
  datatype Member = Member(before: Text, name: seq<Char>, after: Text, item: Item)
  datatype Members = LastMember(member: Member) | MoreMembers(member: Member, members: Members)

  predicate CharOk(c: Char) {
    match c
    case Plain(u) => u >= 0x20 && u != QUOTE && u != BACKSLASH
    case Escaped(u) => IsEscape(u)
    case Hex(d) => |d| == 4 && IsHex(d[0]) && IsHex(d[1]) && IsHex(d[2]) && IsHex(d[3])
  }

  predicate CharsOk(s: seq<Char>) { forall i :: 0 <= i < |s| ==> CharOk(s[i]) }

  /** No leading zeros. */
  predicate WholeOk(w: Text) { w == [ZERO] || (|w| > 0 && w[0] != ZERO && AllDigits(w)) }

  predicate ExponentOk(e: Exponent) {
    e.Exponent? ==>
      (e.mark == LOWER_E || e.mark == UPPER_E) && (e.sign == [] || e.sign == [PLUS] || e.sign == [MINUS]) &&
      |e.digits| > 0 && AllDigits(e.digits)
  }

  predicate ValueOk(v: Value) {
    match v
    case Literal(_) => true
    case Number(_, whole, fraction, exponent) => WholeOk(whole) && AllDigits(fraction) && ExponentOk(exponent)
    case String(chars) => CharsOk(chars)
    case EmptyArray(space) => AllSpace(space)
    case Array(items) => ItemsOk(items)
    case EmptyObject(space) => AllSpace(space)
    case Object(members) => MembersOk(members)
  }

  predicate ItemOk(i: Item) { AllSpace(i.before) && ValueOk(i.value) && AllSpace(i.after) }

  predicate ItemsOk(s: Items) {
    match s
    case LastItem(i) => ItemOk(i)
    case MoreItems(i, rest) => ItemOk(i) && ItemsOk(rest)
  }

  predicate MemberOk(m: Member) { AllSpace(m.before) && CharsOk(m.name) && AllSpace(m.after) && ItemOk(m.item) }

  predicate MembersOk(s: Members) {
    match s
    case LastMember(m) => MemberOk(m)
    case MoreMembers(m, rest) => MemberOk(m) && MembersOk(rest)
  }

  // ------------------------------------------------------- text of a tree

  function CharText(c: Char): Text {
    match c
    case Plain(u) => [u]
    case Escaped(u) => [BACKSLASH, u]
    case Hex(d) => [BACKSLASH, LOWER_U] + d
  }

  function CharsText(s: seq<Char>): Text {
    if s == [] then [] else CharText(s[0]) + CharsText(s[1..])
  }

  function StringText(s: seq<Char>): Text { [QUOTE] + (CharsText(s) + [QUOTE]) }

  function ExponentText(e: Exponent): Text {
    if e.NoExponent? then [] else [e.mark] + e.sign + e.digits
  }

  function SignText(minus: bool): Text { if minus then [MINUS] else [] }

  function FractionText(fraction: Text): Text { if fraction == [] then [] else [DOT] + fraction }

  function NumberText(minus: bool, whole: Text, fraction: Text, exponent: Exponent): Text {
    SignText(minus) + (whole + (FractionText(fraction) + ExponentText(exponent)))
  }

  function ValueText(v: Value): Text {
    match v
    case Literal(w) => w.Spelling()
    case Number(minus, whole, fraction, exponent) => NumberText(minus, whole, fraction, exponent)
    case String(chars) => StringText(chars)
    case EmptyArray(space) => [LBRACKET] + (space + [RBRACKET])
    case Array(items) => [LBRACKET] + ItemsText(items)
    case EmptyObject(space) => [LBRACE] + (space + [RBRACE])
    case Object(members) => [LBRACE] + MembersText(members)
  }

  function ItemText(i: Item): Text { i.before + ValueText(i.value) + i.after }

  /** Items with their separators, and the closing bracket. */
  function ItemsText(s: Items): Text {
    match s
    case LastItem(i) => ItemText(i) + [RBRACKET]
    case MoreItems(i, rest) => ItemText(i) + ([COMMA] + ItemsText(rest))
  }

  function MemberText(m: Member): Text { m.before + (StringText(m.name) + (m.after + ([COLON] + ItemText(m.item)))) }

  /** Members with their separators, and the closing brace. */
  function MembersText(s: Members): Text {
    match s
    case LastMember(m) => MemberText(m) + [RBRACE]
    case MoreMembers(m, rest) => MemberText(m) + ([COMMA] + MembersText(rest))
  }

  /** `t` is a JSON text: one value with white space around it. */
  ghost predicate IsJson(t: Text) { exists i: Item :: ItemOk(i) && ItemText(i) == t }
}
