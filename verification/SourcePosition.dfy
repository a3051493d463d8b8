/** Lines and columns of a position in a text, as error messages report them. */
module SourcePosition {
  import opened JsonSyntax

  datatype LineColumn = LineColumn(line: nat, column: nat)

  /** How many line feeds a text holds. */
  function LineFeeds(t: Text): nat {
    if t == [] then 0 else LineFeeds(t[..|t| - 1]) + (if t[|t| - 1] == LF then 1 else 0)
  }

  /** The position after the last line feed of a text. */
  function LineStart(t: Text): (n: nat)
    ensures n <= |t|
  {
    if t == [] then 0 else if t[|t| - 1] == LF then |t| else LineStart(t[..|t| - 1])
  }

  /** Lines and columns count from one; a position past the end is taken for the end. */
  method LineColumnAt(t: Text, position: nat) returns (at: LineColumn)
    ensures var limit := if position < |t| then position else |t|;
            at == LineColumn(1 + LineFeeds(t[..limit]), limit - LineStart(t[..limit]) + 1)
  {
    var line := 1;
    var lineStart := 0;
    var limit := if position < |t| then position else |t|;
    for index := 0 to limit
      invariant line == 1 + LineFeeds(t[..index])
      invariant lineStart == LineStart(t[..index])
    {
      assert t[..index + 1][..index] == t[..index];
      if t[index] == LF {
        line := line + 1;
        lineStart := index + 1;
      }
    }
    return LineColumn(line, limit - lineStart + 1);
  }

  function Position(t: Text, position: nat): LineColumn
    requires position <= |t|
  {
    LineColumn(1 + LineFeeds(t[..position]), position - LineStart(t[..position]) + 1)
  }

  predicate Before(a: LineColumn, b: LineColumn) {
    a.line < b.line || (a.line == b.line && a.column < b.column)
  }

  /** Positions are reported in order, so two of them are never reported alike. */
  lemma {:induction false} PositionsAreOrdered(t: Text, p: nat, q: nat)
    requires p < q <= |t|
    ensures Before(Position(t, p), Position(t, q))
    ensures Position(t, p) != Position(t, q)
    decreases q
  {
    assert t[..q][..q - 1] == t[..q - 1];
    assert Before(Position(t, q - 1), Position(t, q));
    if p < q - 1 { PositionsAreOrdered(t, p, q - 1); }
  }

  /** Told step by step: the text begins in the first line and column, a line feed begins the next line, and any other
      character the next column. */
  lemma PositionSteps(t: Text, p: nat)
    requires p < |t|
    ensures Position(t, 0) == LineColumn(1, 1)
    ensures var at := Position(t, p);
            Position(t, p + 1) == if t[p] == LF then LineColumn(at.line + 1, 1) else LineColumn(at.line, at.column + 1)
  {
    assert t[..p + 1][..p] == t[..p];
  }
}
