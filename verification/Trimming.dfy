/** White space as the runtime trims it from both ends of a string. */
module Trimming {

  predicate BlankCode(u: int) {
    0x09 <= u <= 0x0D || u == 0x20 || u == 0xA0 || u == 0x1680 || 0x2000 <= u <= 0x200A || u == 0x2028 || u == 0x2029 ||
    u == 0x202F || u == 0x205F || u == 0x3000 || u == 0xFEFF
  }

  function TrimBy<T>(s: seq<T>, blank: T -> bool): (t: seq<T>)
    ensures |t| <= |s|
    ensures t != [] ==> !blank(t[0]) && !blank(t[|t| - 1])
    ensures s != [] && !blank(s[0]) && !blank(s[|s| - 1]) ==> t == s
  {
    if s == [] then s
    else if blank(s[0]) then TrimBy(s[1..], blank)
    else if blank(s[|s| - 1]) then TrimBy(s[..|s| - 1], blank)
    else s
  }

  predicate IsBlank(c: char) { BlankCode(c as int) }

  function Trim(s: string): string { TrimBy(s, IsBlank) }

  /** What is left is the text from the first character that is not blank to the last one. */
  lemma {:induction false} TrimKeepsTheMiddle<T>(s: seq<T>, blank: T -> bool) returns (i: nat, k: nat)
    ensures i <= k <= |s| && TrimBy(s, blank) == s[i..k]
    ensures forall j :: 0 <= j < |s| && (j < i || k <= j) ==> blank(s[j])
    decreases |s|
  {
    if s == [] {
      i, k := 0, 0;
    } else if blank(s[0]) {
      i, k := TrimKeepsTheMiddle(s[1..], blank);
      MiddleOfTail(s, i, k);
      i, k := i + 1, k + 1;
    } else if blank(s[|s| - 1]) {
      i, k := TrimKeepsTheMiddle(s[..|s| - 1], blank);
      MiddleOfFront(s, i, k);
    } else {
      i, k := 0, |s|;
    }
  }

  lemma MiddleOfTail<T>(s: seq<T>, i: nat, k: nat)
    requires i <= k < |s|
    ensures s[1..][i..k] == s[i + 1..k + 1] && forall j :: 0 < j < |s| ==> s[j] == s[1..][j - 1]
  {
  }

  lemma MiddleOfFront<T>(s: seq<T>, i: nat, k: nat)
    requires i <= k < |s|
    ensures s[..|s| - 1][i..k] == s[i..k] && forall j :: 0 <= j < |s| - 1 ==> s[j] == s[..|s| - 1][j]
  {
  }
}
