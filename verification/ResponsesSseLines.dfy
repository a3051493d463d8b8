/**
 What the extractor makes of the lines of a body, whatever ends them: events are the groups of lines between empty
 lines, as section 9.2.6 of the WHATWG HTML standard has them, and the data of an event are its `data:` lines.
 */
module ResponsesSseLines {
  import opened Options
  import opened Trimming
  import opened ResponsesSse
  import opened ResponsesSseRoundTrip

  datatype Ending = LineFeed | CarriageReturn | ReturnAndFeed {
    function Text(): string {
      match this
      case LineFeed => "\n"
      case CarriageReturn => "\r"
      case ReturnAndFeed => "\r\n"
    }
  }

  predicate AllOneLine(lines: seq<string>) { forall i :: 0 <= i < |lines| ==> OneLine(lines[i]) }

  /** Lines, each but the last with its end. */
  function Written(lines: seq<string>, ends: seq<Ending>): string
    requires |lines| == |ends| + 1
    decreases |ends|
  {
    if ends == [] then lines[0] else lines[0] + ends[0].Text() + Written(lines[1..], ends[1..])
  }

  /** A carriage return and a line feed after it would be one line end. */
  predicate Unambiguous(lines: seq<string>, ends: seq<Ending>)
    requires |lines| == |ends| + 1
  {
    forall i :: 0 <= i < |ends| - 1 && ends[i].CarriageReturn? && lines[i + 1] == "" ==> !ends[i + 1].LineFeed?
  }

  predicate WellWritten(lines: seq<string>, ends: seq<Ending>) {
    |lines| == |ends| + 1 && AllOneLine(lines) && Unambiguous(lines, ends)
  }

  /** Every text is lines with ends. */
  lemma {:induction false} EveryTextHasLines(t: string) returns (lines: seq<string>, ends: seq<Ending>)
    ensures WellWritten(lines, ends) && Written(lines, ends) == t
    decreases |t|
  {
    if t == [] {
      lines, ends := [""], [];
    } else if t[0] == '\n' || t[0] == '\r' {
      var e := if t[0] == '\n' then LineFeed else if |t| > 1 && t[1] == '\n' then ReturnAndFeed else CarriageReturn;
      var rest := t[|e.Text()|..];
      lines, ends := EveryTextHasLines(rest);
      StartOfWritten(lines, ends);
      lines, ends := [""] + lines, [e] + ends;
      assert t == e.Text() + rest;
    } else {
      lines, ends := EveryTextHasLines(t[1..]);
      MoreOfFirst(t[0], lines, ends);
      lines := lines[0 := [t[0]] + lines[0]];
    }
  }

  lemma StartOfWritten(lines: seq<string>, ends: seq<Ending>)
    requires WellWritten(lines, ends)
    ensures var t := Written(lines, ends);
            t != "" && t[0] == '\n' <==> lines[0] == "" && ends != [] && ends[0].LineFeed?
  {
  }

  lemma MoreOfFirst(u: char, lines: seq<string>, ends: seq<Ending>)
    requires WellWritten(lines, ends) && u != '\n' && u != '\r'
    ensures WellWritten(lines[0 := [u] + lines[0]], ends)
    ensures Written(lines[0 := [u] + lines[0]], ends) == [u] + Written(lines, ends)
  {
    assert lines[0 := [u] + lines[0]][1..] == lines[1..];
  }

  // --------------------------------------------------------------- line ends

  lemma {:induction false} NormalisedLine(x: string, rest: string)
    requires OneLine(x)
    ensures Normalised(x + rest) == x + Normalised(rest)
    decreases |x|
  {
    if x == [] {
      assert x + rest == rest;
    } else {
      assert (x + rest)[1..] == x[1..] + rest;
      NormalisedLine(x[1..], rest);
    }
  }

  lemma NormalisedEnd(e: Ending, rest: string)
    requires e.CarriageReturn? ==> rest == "" || rest[0] != '\n'
    ensures Normalised(e.Text() + rest) == "\n" + Normalised(rest)
  {
    var t := e.Text() + rest;
    assert t[1..] == (if e.ReturnAndFeed? then "\n" + rest else rest);
    if e.ReturnAndFeed? { assert t[2..] == rest; }
  }

  lemma {:induction false} NormalisedWritten(lines: seq<string>, ends: seq<Ending>)
    requires WellWritten(lines, ends)
    ensures Normalised(Written(lines, ends)) == JoinLines(lines)
    decreases |ends|
  {
    hide Normalised;
    if ends == [] {
      NormalisedLine(lines[0], "");
      assert lines[0] + "" == lines[0];
      NothingNormalised();
    } else {
      var rest := Written(lines[1..], ends[1..]);
      RestIsWellWritten(lines, ends);
      StartOfWritten(lines[1..], ends[1..]);
      NormalisedWritten(lines[1..], ends[1..]);
      NormalisedEnd(ends[0], rest);
      NormalisedLine(lines[0], ends[0].Text() + rest);
      assert Written(lines, ends) == lines[0] + (ends[0].Text() + rest);
    }
  }

  lemma NothingNormalised()
    ensures Normalised("") == ""
  {
  }

  lemma RestIsWellWritten(lines: seq<string>, ends: seq<Ending>)
    requires WellWritten(lines, ends) && ends != []
    ensures WellWritten(lines[1..], ends[1..])
    ensures ends[0].CarriageReturn? && lines[1] == "" && |ends| > 1 ==> !ends[1].LineFeed?
  {
  }

  // ------------------------------------------------------------------ groups

  function FirstEmpty(lines: seq<string>): (k: nat)
    ensures k <= |lines| && (k < |lines| ==> lines[k] == "")
    ensures forall i :: 0 <= i < k ==> lines[i] != ""
  {
    if lines == [] || lines[0] == "" then 0 else 1 + FirstEmpty(lines[1..])
  }

  /** The lines between empty lines. */
  function Groups(lines: seq<string>): seq<seq<string>>
    decreases |lines|
  {
    var k := FirstEmpty(lines);
    if k == |lines| then [lines] else [lines[..k]] + Groups(lines[k + 1..])
  }

  /** The data of a group of lines. */
  function DataOfGroup(lines: seq<string>): string { Trim(JoinLines(DataLines(lines))) }

  function FrameOfGroup(c: Codec, lines: seq<string>): seq<Frame> {
    if DataOfGroup(lines) == "" then [] else [FrameOf(c, DataOfGroup(lines))]
  }

  /** A frame of every group that has data. */
  function FramesOfGroups(c: Codec, groups: seq<seq<string>>): seq<Frame> {
    if groups == [] then [] else FrameOfGroup(c, groups[0]) + FramesOfGroups(c, groups[1..])
  }

  lemma {:induction false} LinesOfJoined(lines: seq<string>)
    requires lines != [] && AllOneLine(lines)
    ensures Lines(JoinLines(lines)) == lines
    decreases |lines|
  {
    if |lines| == 1 {
      FindsNoLineFeed(lines[0]);
    } else {
      var rest := JoinLines(lines[1..]);
      FindsLineFeed(lines[0], rest);
      LinesOfJoined(lines[1..]);
      var t := lines[0] + "\n" + rest;
      assert t[|lines[0]| + 1..] == rest && t[..|lines[0]|] == lines[0];
      assert JoinLines(lines) == t && lines == [lines[0]] + lines[1..];
    }
  }

  lemma {:induction false} FindsLineFeed(x: string, rest: string)
    requires OneLine(x)
    ensures FindLineFeed(x + "\n" + rest) == |x|
    decreases |x|
  {
    if x != [] {
      assert (x + "\n" + rest)[1..] == x[1..] + "\n" + rest;
      FindsLineFeed(x[1..], rest);
    }
  }

  lemma {:induction false} SkipsLine(x: string, rest: string)
    requires OneLine(x) && (rest == "" || rest[0] != '\n')
    ensures FindBlank(x + "\n" + rest) == |x| + 1 + FindBlank(rest)
    decreases |x|
  {
    var t := x + "\n" + rest;
    if x != [] {
      assert t[1..] == x[1..] + "\n" + rest;
      SkipsLine(x[1..], rest);
    } else {
      assert t[1..] == rest;
    }
  }

  /** The first empty line with lines on both sides. */
  function Separator(lines: seq<string>): (k: nat)
    ensures k <= |lines| && (k < |lines| ==> 1 <= k < |lines| - 1 && lines[k] == "")
    ensures forall i :: 1 <= i < k && i < |lines| - 1 ==> lines[i] != ""
  {
    if |lines| < 3 then |lines| else if lines[1] == "" then 1 else 1 + Separator(lines[1..])
  }

  lemma StartOfJoined(lines: seq<string>)
    requires lines != [] && AllOneLine(lines)
    ensures JoinLines(lines) != "" && JoinLines(lines)[0] == '\n' <==> lines[0] == "" && |lines| > 1
  {
  }

  lemma {:induction false} BlocksOfJoined(lines: seq<string>)
    requires lines != [] && AllOneLine(lines)
    ensures var k := Separator(lines);
            Blocks(JoinLines(lines)) == if k == |lines| then [JoinLines(lines)]
                                        else [JoinLines(lines[..k])] + Blocks(JoinLines(lines[k + 1..]))
  {
    hide JoinLines, FindBlank, Separator, OneLine;
    var k := Separator(lines);
    BlankOfJoined(lines);
    if k < |lines| {
      JoinedAt(lines, k);
      SplitAtBlank(JoinLines(lines[..k]), JoinLines(lines[k + 1..]));
    }
  }

  lemma SplitAtBlank(a: string, b: string)
    requires FindBlank(a + "\n\n" + b) == |a|
    ensures Blocks(a + "\n\n" + b) == [a] + Blocks(b)
  {
    var t := a + "\n\n" + b;
    assert t[..|a|] == a && t[|a| + 2..] == b;
  }

  lemma {:induction false} JoinedAt(lines: seq<string>, k: nat)
    requires 1 <= k < |lines| - 1 && lines[k] == ""
    ensures JoinLines(lines) == JoinLines(lines[..k]) + "\n\n" + JoinLines(lines[k + 1..])
    decreases k
  {
    if k == 1 {
      assert lines[1..][1..] == lines[2..] && lines[..1] == [lines[0]];
    } else {
      JoinedAt(lines[1..], k - 1);
      assert lines[1..][..k - 1] == lines[..k][1..];
      assert lines[1..][k..] == lines[k + 1..];
    }
  }

  lemma {:induction false} BlankOfJoined(lines: seq<string>)
    requires lines != [] && AllOneLine(lines)
    ensures var (k, t) := (Separator(lines), JoinLines(lines));
            FindBlank(t) == if k == |lines| then |t| else |JoinLines(lines[..k])|
    decreases |lines|
  {
    var k := Separator(lines);
    if |lines| == 1 {
      NoBlank(lines[0]);
    } else if |lines| > 2 && lines[1] == "" {
      assert lines[1..][1..] == lines[2..];
      FindsBlank(lines[0], JoinLines(lines[2..]));
      JoinedAt(lines, 1);
      assert lines[..1] == [lines[0]];
    } else {
      StartOfJoined(lines[1..]);
      SkipsLine(lines[0], JoinLines(lines[1..]));
      BlankOfJoined(lines[1..]);
      if k < |lines| { assert lines[1..][..k - 1] == lines[..k][1..]; }
    }
  }

  lemma {:induction false} NoBlank(x: string)
    requires OneLine(x)
    ensures FindBlank(x) == |x|
    decreases |x|
  {
    if |x| >= 2 { NoBlank(x[1..]); }
  }

  // ------------------------------------------------------------------ frames

  lemma {:induction false} DataLinesOfBoth(a: seq<string>, b: seq<string>)
    ensures DataLines(a + b) == DataLines(a) + DataLines(b)
    decreases |a|
  {
    hide DataOf;
    if a == [] {
      assert a + b == b;
    } else {
      assert (a + b)[1..] == a[1..] + b;
      DataLinesOfBoth(a[1..], b);
    }
  }

  lemma NoDataInEmpty()
    ensures DataLines([""]) == []
  {
    assert !("data:" <= "");
    assert DataLines([""]) == [] + DataLines([]);
  }

  /** Empty lines at either end of a group carry nothing. */
  lemma EmptyAround(lines: seq<string>)
    ensures DataOfGroup([""] + lines) == DataOfGroup(lines) && DataOfGroup(lines + [""]) == DataOfGroup(lines)
  {
    hide DataLines, JoinLines, Trim;
    NoDataInEmpty();
    DataLinesOfBoth([""], lines);
    DataLinesOfBoth(lines, [""]);
    assert [] + DataLines(lines) == DataLines(lines) == DataLines(lines) + [];
  }

  lemma {:induction false} FramesFromFront(c: Codec, blocks: seq<string>)
    requires blocks != []
    ensures FramesOf(c, blocks) ==
              (if Payload(blocks[0]) == "" then [] else [FrameOf(c, Payload(blocks[0]))]) + FramesOf(c, blocks[1..])
    decreases |blocks|
  {
    hide Payload, FrameOf;
    var n := |blocks| - 1;
    if n == 0 {
      assert blocks[..0] == [] && blocks[1..] == [];
    } else {
      FramesFromFront(c, blocks[..n]);
      assert blocks[..n][1..] == blocks[1..][..n - 1];
    }
  }

  lemma PayloadOfJoined(lines: seq<string>)
    requires lines != [] && AllOneLine(lines)
    ensures Payload(JoinLines(lines)) == DataOfGroup(lines)
  {
    hide Lines;
    LinesOfJoined(lines);
  }

  lemma NoFrameOfNothing(c: Codec)
    ensures FrameOfGroup(c, []) == [] && FrameOfGroup(c, [""]) == [] && FramesOfGroups(c, Groups([])) == []
  {
    hide FrameOf;
    NoDataInEmpty();
    assert Groups([]) == [[]];
    assert FramesOfGroups(c, [[]]) == FrameOfGroup(c, []) + FramesOfGroups(c, []);
  }

  /** An empty line that comes first ends a group without data. */
  lemma EmptyFirst(c: Codec, lines: seq<string>)
    requires lines != [] && lines[0] == ""
    ensures FramesOfGroups(c, Groups(lines)) == FramesOfGroups(c, Groups(lines[1..]))
  {
    hide FrameOfGroup;
    NoFrameOfNothing(c);
    assert Groups(lines) == [[]] + Groups(lines[1..]);
    assert FramesOfGroups(c, Groups(lines)) == FrameOfGroup(c, []) + FramesOfGroups(c, Groups(lines[1..]));
  }

  lemma GroupFirst(c: Codec, lines: seq<string>, k: nat)
    requires k < |lines| && k == FirstEmpty(lines)
    ensures FramesOfGroups(c, Groups(lines)) == FrameOfGroup(c, lines[..k]) + FramesOfGroups(c, Groups(lines[k + 1..]))
  {
    hide FrameOfGroup, FirstEmpty;
    assert Groups(lines) == [lines[..k]] + Groups(lines[k + 1..]);
    assert Groups(lines)[1..] == Groups(lines[k + 1..]);
  }

  lemma OnlyGroup(c: Codec, lines: seq<string>)
    requires FirstEmpty(lines) == |lines|
    ensures FramesOfGroups(c, Groups(lines)) == FrameOfGroup(c, lines)
  {
    hide FrameOfGroup, FirstEmpty;
    assert FramesOfGroups(c, [lines]) == FrameOfGroup(c, lines) + FramesOfGroups(c, []);
  }

  lemma SameFrame(c: Codec, a: seq<string>, b: seq<string>)
    requires DataOfGroup(a) == DataOfGroup(b)
    ensures FrameOfGroup(c, a) == FrameOfGroup(c, b)
  {
  }

  /** The frames of the groups, split at the separator instead. */
  lemma FirstGroupOfText(c: Codec, lines: seq<string>)
    requires lines != [] && lines[0] != ""
    ensures var k := Separator(lines);
            FramesOfGroups(c, Groups(lines)) ==
            if k == |lines| then FrameOfGroup(c, lines)
            else FrameOfGroup(c, lines[..k]) + FramesOfGroups(c, Groups(lines[k + 1..]))
  {
    hide FrameOfGroup, FramesOfGroups, Groups, DataOfGroup;
    var (k, e, n) := (Separator(lines), FirstEmpty(lines), |lines|);
    if e == n {
      OnlyGroup(c, lines);
    } else {
      GroupFirst(c, lines, e);
      if e == n - 1 {
        assert lines[n..] == [] && lines == lines[..e] + [""];
        EmptyAround(lines[..e]);
        SameFrame(c, lines, lines[..e]);
        NoFrameOfNothing(c);
      }
    }
  }

  lemma FirstGroup(c: Codec, lines: seq<string>)
    requires lines != []
    ensures var k := Separator(lines);
            FramesOfGroups(c, Groups(lines)) ==
            if k == |lines| then FrameOfGroup(c, lines)
            else FrameOfGroup(c, lines[..k]) + FramesOfGroups(c, Groups(lines[k + 1..]))
  {
    hide FrameOfGroup, FramesOfGroups, Groups, DataOfGroup, FirstEmpty;
    var (k, n) := (Separator(lines), |lines|);
    if lines[0] != "" {
      FirstGroupOfText(c, lines);
    } else {
      NoFrameOfNothing(c);
      EmptyFirst(c, lines);
      var rest := lines[1..];
      if n == 1 {
        assert lines == [""] && rest == [];
      } else if rest[0] == "" {
        EmptyFirst(c, rest);
        if n == 2 {
          assert rest[1..] == [] && lines == [""] + [""];
          EmptyAround([""]);
          SameFrame(c, lines, [""]);
        } else {
          assert lines[..1] == [""] && rest[1..] == lines[2..];
        }
      } else {
        EmptyThenText(c, lines, k);
      }
    }
  }

  lemma EmptyThenText(c: Codec, lines: seq<string>, k: nat)
    requires |lines| >= 2 && lines[0] == "" && lines[1] != "" && k == Separator(lines)
    ensures FramesOfGroups(c, Groups(lines[1..])) ==
            if k == |lines| then FrameOfGroup(c, lines)
            else FrameOfGroup(c, lines[..k]) + FramesOfGroups(c, Groups(lines[k + 1..]))
  {
    hide FrameOfGroup, FramesOfGroups, Groups, DataOfGroup, FirstEmpty;
    var rest := lines[1..];
    FirstGroupOfText(c, rest);
    if k == |lines| {
      assert lines == [""] + rest;
      EmptyAround(rest);
      SameFrame(c, lines, rest);
    } else {
      assert lines[..k] == [""] + rest[..k - 1] && rest[k..] == lines[k + 1..];
      EmptyAround(rest[..k - 1]);
      SameFrame(c, lines[..k], rest[..k - 1]);
    }
  }

  /** The frames of a text are those of its groups of lines. */
  lemma {:induction false} FramesByGroups(c: Codec, lines: seq<string>)
    requires lines != [] && AllOneLine(lines)
    ensures FramesOf(c, Blocks(JoinLines(lines))) == FramesOfGroups(c, Groups(lines))
    decreases |lines|
  {
    hide JoinLines, Blocks, FramesOf, FramesOfGroups, Groups, FrameOf, DataOfGroup, Payload, Separator, FirstEmpty;
    var k := Separator(lines);
    BlocksOfJoined(lines);
    FramesFromFront(c, Blocks(JoinLines(lines)));
    FirstGroup(c, lines);
    if k < |lines| {
      PayloadOfJoined(lines[..k]);
      FramesByGroups(c, lines[k + 1..]);
      assert Blocks(JoinLines(lines))[1..] == Blocks(JoinLines(lines[k + 1..]));
    } else {
      PayloadOfJoined(lines);
      NoFrames(c);
      assert Blocks(JoinLines(lines))[1..] == [];
    }
  }

  lemma NoFrames(c: Codec)
    ensures FramesOf(c, []) == []
  {
  }

  // ---------------------------------------------------------------- theorems

  /** The frames of a body are those of the groups of its lines between empty lines, whatever ends the lines. */
  lemma FramesOfLines(c: Codec, lines: seq<string>, ends: seq<Ending>)
    requires WellWritten(lines, ends)
    ensures FramesOf(c, Blocks(Normalised(Written(lines, ends)))) == FramesOfGroups(c, Groups(lines))
  {
    hide Normalised, Blocks, JoinLines, FramesOf, FramesOfGroups, Groups, OneLine;
    NormalisedWritten(lines, ends);
    FramesByGroups(c, lines);
  }

  /** Extracting does not depend on how the lines of a body end. */
  lemma LineEndsDoNotMatter(c: Codec, lines: seq<string>, ends: seq<Ending>, others: seq<Ending>)
    requires WellWritten(lines, ends) && WellWritten(lines, others)
    requires !IsJsonObject(c, Written(lines, ends)) && !IsJsonObject(c, Written(lines, others))
    ensures Extracted(c, Written(lines, ends)) == Extracted(c, Written(lines, others))
  {
    hide Normalised, Blocks, FramesOf, FramesOfGroups, Groups, IsJsonObject, Written, WellWritten, ExtractedFromFrames;
    FramesOfLines(c, lines, ends);
    FramesOfLines(c, lines, others);
  }

  /** A line that carries data: behind `data:`, and a space that does not belong to it. */
  predicate Carries(line: string, data: string) {
    line == "data: " + data || (line == "data:" + data && (data == "" || data[0] != ' '))
  }

  /** The lines of an event tell its text, line by line; lines that do not begin with `data:` tell nothing. */
  predicate Tells(event: seq<string>, text: seq<string>) {
    if event == [] then text == []
    else if "data:" <= event[0] then text != [] && Carries(event[0], text[0]) && Tells(event[1..], text[1..])
    else Tells(event[1..], text)
  }

  /** Events one after the other, each followed by an empty line. */
  function Sent(events: seq<seq<string>>): seq<string> {
    if events == [] then [] else events[0] + [""] + Sent(events[1..])
  }

  function LineFeeds(n: nat): (ends: seq<Ending>)
    ensures |ends| == n && forall i :: 0 <= i < n ==> ends[i] == LineFeed
  {
    seq(n, i => LineFeed)
  }

  /** The text itself: its lines with line feeds between them. */
  function TextOf(text: seq<string>): string
    requires text != []
  {
    Written(text, LineFeeds(|text| - 1))
  }

  lemma {:induction false} JoinedIsWritten(text: seq<string>)
    requires text != []
    ensures JoinLines(text) == TextOf(text)
    decreases |text|
  {
    if |text| > 1 {
      JoinedIsWritten(text[1..]);
      assert LineFeeds(|text| - 1)[1..] == LineFeeds(|text| - 2);
    }
  }

  lemma DataOfCarried(line: string, data: string)
    requires Carries(line, data)
    ensures DataOf(line) == Some(data)
  {
    if line == "data: " + data {
      assert line[..5] == "data:" && line[6..] == data;
    } else {
      assert line[..5] == "data:" && line[5..] == data;
    }
  }

  lemma {:induction false} DataComesBack(event: seq<string>, text: seq<string>)
    requires Tells(event, text)
    ensures DataLines(event) == text
    decreases |event|
  {
    hide DataOf, Carries;
    if event != [] {
      if "data:" <= event[0] {
        DataOfCarried(event[0], text[0]);
        DataComesBack(event[1..], text[1..]);
        assert [text[0]] + text[1..] == text;
      } else {
        DataComesBack(event[1..], text);
        NoDataIn(event[0]);
        assert [] + text == text;
      }
    }
  }

  lemma NoDataIn(line: string)
    requires !("data:" <= line)
    ensures DataOf(line) == None
  {
  }

  /** A text that an event can carry: with something in it, and not blank at either end. */
  predicate Sendable(text: seq<string>) {
    text != [] && var t := TextOf(text); t != "" && !IsBlank(t[0]) && !IsBlank(t[|t| - 1])
  }

  /** An event: lines that are not empty, and tell a text. */
  predicate IsEvent(event: seq<string>, text: seq<string>) {
    AllOneLine(event) && (forall i :: 0 <= i < |event| ==> event[i] != "") && Tells(event, text) && Sendable(text)
  }

  ghost predicate AreEvents(events: seq<seq<string>>, texts: seq<seq<string>>) {
    |events| == |texts| && forall i :: 0 <= i < |events| ==> IsEvent(events[i], texts[i])
  }

  lemma {:induction false} FirstEmptyAfter(group: seq<string>, rest: seq<string>)
    requires forall i :: 0 <= i < |group| ==> group[i] != ""
    ensures FirstEmpty(group + [""] + rest) == |group|
    decreases |group|
  {
    if group != [] {
      assert (group + [""] + rest)[1..] == group[1..] + [""] + rest;
      FirstEmptyAfter(group[1..], rest);
    }
  }

  lemma FrameOfEvent(c: Codec, event: seq<string>, text: seq<string>)
    requires IsEvent(event, text)
    ensures text != [] && FrameOfGroup(c, event) == [FrameOf(c, TextOf(text))]
  {
    hide FrameOf, DataLines, JoinLines, AllOneLine, Written, Tells;
    DataComesBack(event, text);
    JoinedIsWritten(text);
  }

  lemma {:induction false} EventsByGroups(c: Codec, events: seq<seq<string>>, texts: seq<seq<string>>)
    requires AreEvents(events, texts)
    ensures var frames := FramesOfGroups(c, Groups(Sent(events) + [""]));
            && |frames| == |texts|
            && forall i :: 0 <= i < |texts| ==> texts[i] != [] && frames[i] == FrameOf(c, TextOf(texts[i]))
    decreases |texts|
  {
    hide FrameOf, FramesOfGroups, Groups, FirstEmpty, FrameOfGroup, AllOneLine, Tells, Sendable;
    if texts == [] {
      NoFrameOfNothing(c);
      EmptyFirst(c, [""]);
      assert Sent(events) + [""] == [""] && [""][1..] == [];
    } else {
      EventsByGroups(c, events[1..], texts[1..]);
      FrameOfEvent(c, events[0], texts[0]);
      var rest := Sent(events[1..]) + [""];
      FirstEmptyAfter(events[0], rest);
      var lines := events[0] + [""] + rest;
      assert Sent(events) + [""] == lines;
      GroupFirst(c, lines, |events[0]|);
      assert lines[..|events[0]|] == events[0] && lines[|events[0]| + 1..] == rest;
      forall i | 0 < i < |texts| ensures texts[i] != [] {
        assert texts[1..][i - 1] == texts[i];
      }
    }
  }

  lemma {:induction false} EventsAreOneLine(events: seq<seq<string>>, texts: seq<seq<string>>)
    requires AreEvents(events, texts)
    ensures AllOneLine(Sent(events) + [""])
    decreases |texts|
  {
    hide OneLine, Tells, Sendable;
    EmptyIsOneLine();
    if texts != [] {
      EventsAreOneLine(events[1..], texts[1..]);
      assert IsEvent(events[0], texts[0]);
      assert Sent(events) + [""] == events[0] + ([""] + (Sent(events[1..]) + [""]));
    }
  }

  lemma EmptyIsOneLine()
    ensures OneLine("")
  {
  }

  /** Texts of one or more lines that are sent as events, with any mix of line ends, come back as they were, in their
      order. */
  lemma EventsComeBack(c: Codec, events: seq<seq<string>>, texts: seq<seq<string>>, ends: seq<Ending>)
    requires AreEvents(events, texts) && |ends| == |Sent(events)| && Unambiguous(Sent(events) + [""], ends)
    ensures var frames := FramesOf(c, Blocks(Normalised(Written(Sent(events) + [""], ends))));
            && |frames| == |texts|
            && forall i :: 0 <= i < |texts| ==> texts[i] != [] && frames[i] == FrameOf(c, TextOf(texts[i]))
  {
    hide Normalised, Blocks, FramesOf, FramesOfGroups, Groups, FrameOf, Written, Unambiguous, TextOf, AreEvents,
         AllOneLine;
    EventsAreOneLine(events, texts);
    FramesOfLines(c, Sent(events) + [""], ends);
    EventsByGroups(c, events, texts);
  }

  /** A response that is rendered as events and arrives with other line ends still extracts as its plain JSON. */
  lemma RenderedWithAnyLineEnds(c: Codec, r: Fields, lines: seq<string>, ends: seq<Ending>)
    requires Lawful(c) && Wire(r)
    requires WellWritten(lines, ends) && Written(lines, LineFeeds(|ends|)) == Rendered(c, r)
    ensures Extracted(c, Written(lines, ends)) == Extracted(c, c.stringify(Obj(r)))
  {
    hide Rendered, Normalised, Blocks, FramesOf, Extracted, Wire, OneLine;
    RenderedIsNotJson(c, r);
    RenderedStarts(c, r);
    FirstLineStarts(lines, LineFeeds(|ends|));
    FirstLineStarts(lines, ends);
    assert !IsJsonObject(c, Written(lines, ends));
    LineEndsDoNotMatter(c, lines, ends, LineFeeds(|ends|));
    RenderedExtractsAlike(c, r);
  }

  lemma RenderedStarts(c: Codec, r: Fields)
    requires Wire(r)
    ensures Rendered(c, r) != "" && Rendered(c, r)[0] == 'd'
  {
    hide Events;
    StreamFromFront(Printed(c, Events(r)) + ["[DONE]"]);
  }

  lemma FirstLineStarts(lines: seq<string>, ends: seq<Ending>)
    requires WellWritten(lines, ends)
    ensures var t := Written(lines, ends);
            t != "" && t[0] == 'd' <==> lines[0] != "" && lines[0][0] == 'd'
  {
  }
}
