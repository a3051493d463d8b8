/** Rendering a response as events, and what the extractor makes of the result. */
module ResponsesSseRoundTrip {
  import opened Options
  import opened Trimming
  import opened ResponsesSse

  type Fields = map<string, Json>

  const LONGEST_ARRAY := 0x1_0000_0000

  /** A rendered response: its status is one of three, and it has an output. */
  predicate Wire(r: Fields) {
    && "status" in r && r["status"] in {Str("completed"), Str("incomplete"), Str("failed")}
    && "output" in r && r["output"].Arr? && |r["output"].items| < LONGEST_ARRAY
  }

  /** The response as it was begun, without what only its end tells. */
  function Cleared(r: Fields): Fields {
    r["status" := Str("in_progress")]["error" := Null]["incomplete_details" := Null]["output" := Arr([])]
  }

  function Created(r: Fields): Json {
    Obj(map["type" := Str("response.created"), "sequence_number" := Number(0),
            "response" := Obj(Cleared(r))])
  }

  function ItemEvent(item: Json, index: nat): Json
    requires index < LONGEST_ARRAY
  {
    Obj(map["type" := Str("response.output_item.done"), "sequence_number" := Number(index + 1),
            "output_index" := Number(index), "item" := item])
  }

  function TerminalType(r: Fields): string
    requires Wire(r)
  {
    if r["status"] == Str("completed") then "response.completed"
    else if r["status"] == Str("incomplete") then "response.incomplete" else "response.failed"
  }

  function Terminal(r: Fields): Json
    requires Wire(r)
  {
    Obj(map["type" := Str(TerminalType(r)), "sequence_number" := Number(|r["output"].items| + 1), "response" := Obj(r)])
  }

  function ItemEvents(output: seq<Json>): (events: seq<Json>)
    requires |output| < LONGEST_ARRAY
    ensures |events| == |output| && forall i :: 0 <= i < |output| ==> events[i] == ItemEvent(output[i], i)
  {
    seq(|output|, i requires 0 <= i < |output| => ItemEvent(output[i], i))
  }

  function Events(r: Fields): seq<Json>
    requires Wire(r)
  {
    [Created(r)] + ItemEvents(r["output"].items) + [Terminal(r)]
  }

  function Framed(data: string): string { "data: " + data + "\n\n" }

  function Printed(c: Codec, events: seq<Json>): (texts: seq<string>)
    ensures |texts| == |events| && forall i :: 0 <= i < |events| ==> texts[i] == c.stringify(events[i])
  {
    seq(|events|, i requires 0 <= i < |events| => c.stringify(events[i]))
  }

  /** Frames one after the other. */
  function Stream(texts: seq<string>): string {
    if texts == [] then [] else Stream(texts[..|texts| - 1]) + Framed(texts[|texts| - 1])
  }

  function Rendered(c: Codec, r: Fields): string
    requires Wire(r)
  {
    Stream(Printed(c, Events(r)) + ["[DONE]"])
  }

  method RenderResponsesSse(c: Codec, r: Fields) returns (body: string)
    requires Wire(r)
    ensures body == Rendered(c, r)
  {
    hide Created, ItemEvent, Terminal, Framed, Wire;
    var output := OutputOf(r);
    var frames := [Framed(c.stringify(Created(r)))];
    var sequence := 1;
    ghost var texts := [c.stringify(Created(r))];
    OneFrame(texts[0]);
    for outputIndex := 0 to |output|
      invariant sequence == outputIndex + 1
      invariant texts == Printed(c, [Created(r)] + ItemEvents(output[..outputIndex]))
      invariant Concat(frames) == Stream(texts)
    {
      var event := ItemEvent(output[outputIndex], outputIndex);
      MorePrinted(c, r, output, outputIndex);
      MoreFrames(frames, texts, c.stringify(event));
      frames := frames + [Framed(c.stringify(event))];
      texts := texts + [c.stringify(event)];
      sequence := sequence + 1;
    }
    assert output[..|output|] == output;
    MoreFrames(frames, texts, c.stringify(Terminal(r)));
    frames := frames + [Framed(c.stringify(Terminal(r)))];
    texts := texts + [c.stringify(Terminal(r))];
    assert texts == Printed(c, Events(r));
    MoreFrames(frames, texts, "[DONE]");
    frames := frames + [Framed("[DONE]")];
    body := JoinFrames(frames);
  }

  function OutputOf(r: Fields): (output: seq<Json>)
    requires Wire(r)
    ensures |output| < LONGEST_ARRAY
  {
    r["output"].items
  }

  method JoinFrames(frames: seq<string>) returns (body: string)
    ensures body == Concat(frames)
  {
    body := "";
    for i := 0 to |frames|
      invariant body == Concat(frames[..i])
    {
      assert frames[..i + 1][..i] == frames[..i];
      body := body + frames[i];
    }
    assert frames[..|frames|] == frames;
  }

  lemma OneFrame(t: string)
    ensures Concat([Framed(t)]) == Stream([t])
  {
    assert [t][..0] == [] && [Framed(t)][..0] == [];
  }

  lemma MoreFrames(frames: seq<string>, texts: seq<string>, t: string)
    requires Concat(frames) == Stream(texts)
    ensures Concat(frames + [Framed(t)]) == Stream(texts + [t])
  {
    assert (frames + [Framed(t)])[..|frames|] == frames && (texts + [t])[..|texts|] == texts;
  }

  lemma MorePrinted(c: Codec, r: Fields, output: seq<Json>, i: nat)
    requires i < |output| < LONGEST_ARRAY
    ensures Printed(c, [Created(r)] + ItemEvents(output[..i + 1]))
         == Printed(c, [Created(r)] + ItemEvents(output[..i])) + [c.stringify(ItemEvent(output[i], i))]
  {
    hide Created, ItemEvent;
    assert output[..i + 1] == output[..i] + [output[i]];
    assert [Created(r)] + ItemEvents(output[..i + 1]) == [Created(r)] + ItemEvents(output[..i]) +
        [ItemEvent(output[i], i)];
  }

  // ------------------------------------------------------------- what is told

  predicate IsOf(event: Json, kind: string, n: nat)
    requires n <= LONGEST_ARRAY
  {
    FieldIs(event, "type", kind) && Field(event, "sequence_number") == Some(Number(n))
  }

  /** The events of a response are numbered in order: the beginning, each item of the output in its place, and the end,
      of a kind that tells the status, with the whole response. */
  lemma EventsAreNumbered(r: Fields)
    requires Wire(r)
    ensures var (events, output) := (Events(r), OutputOf(r));
            && |events| == |output| + 2 && IsOf(events[0], "response.created", 0)
            && (forall i :: 0 <= i < |output| ==> IsItemOf(events[i + 1], output[i], i))
            && IsOf(events[|output| + 1], if r["status"] == Str("completed") then "response.completed"
                    else if r["status"] == Str("incomplete") then "response.incomplete" else "response.failed",
                    |output| + 1)
            && Field(events[|output| + 1], "response") == Some(Obj(r))
  {
    hide Created, ItemEvent, Terminal, IsOf, IsItemOf;
    var output := OutputOf(r);
    CreatedComesFirst(r);
    TerminalComesLast(r);
    assert Events(r)[|output| + 1] == Terminal(r);
    forall i | 0 <= i < |output|
      ensures IsItemOf(Events(r)[i + 1], output[i], i)
    {
      ItemInItsPlace(output[i], i);
      assert Events(r)[i + 1] == ItemEvent(output[i], i);
    }
  }

  lemma TerminalComesLast(r: Fields)
    requires Wire(r)
    ensures IsOf(Terminal(r), if r["status"] == Str("completed") then "response.completed"
                    else if r["status"] == Str("incomplete") then "response.incomplete" else "response.failed",
                    |OutputOf(r)| + 1)
    ensures Field(Terminal(r), "response") == Some(Obj(r))
  {
  }

  lemma ItemInItsPlace(item: Json, index: nat)
    requires index < LONGEST_ARRAY
    ensures IsItemOf(ItemEvent(item, index), item, index)
  {
  }

  lemma CreatedComesFirst(r: Fields)
    ensures IsOf(Created(r), "response.created", 0)
  {
  }

  predicate IsItemOf(event: Json, item: Json, index: nat)
    requires index < LONGEST_ARRAY
  {
    && IsOf(event, "response.output_item.done", index + 1) && Field(event, "item") == Some(item)
    && Field(event, "output_index") == Some(Number(index))
  }

  const TERMINAL_ONLY: set<string> := {"status", "error", "incomplete_details"}

  /** No event tells a fact of the end before the end: of responses that differ only in these, all events but the last
      are the same, and the first one says that the response is in progress, with nothing in it. */
  lemma NothingLeaks(r: Fields, other: Fields)
    requires Wire(r) && Wire(other) && r - TERMINAL_ONLY == other - TERMINAL_ONLY
    ensures var n := |Events(r)| - 1; |Events(other)| == n + 1 && Events(r)[..n] == Events(other)[..n]
    ensures var begun := Field(Events(r)[0], "response").value;
            && FieldIs(begun, "status", "in_progress") && Field(begun, "error") == Some(Null)
            && Field(begun, "incomplete_details") == Some(Null) && Field(begun, "output") == Some(Arr([]))
            && begun.fields - TERMINAL_ONLY - {"output"} == r - TERMINAL_ONLY - {"output"}
  {
    assert forall k :: k in r && k !in TERMINAL_ONLY ==> k in r - TERMINAL_ONLY;
    assert forall k :: k in other && k !in TERMINAL_ONLY ==> k in other - TERMINAL_ONLY;
    assert r["output"] == (r - TERMINAL_ONLY)["output"];
    assert Cleared(r) == Cleared(other) by { ClearedAlike(r, other); }
    assert Created(r) == Created(other);
    assert Events(r)[0] == Created(r);
    assert Cleared(r) - TERMINAL_ONLY - {"output"} == r - TERMINAL_ONLY - {"output"};
  }

  lemma ClearedAlike(r: Fields, other: Fields)
    requires r - TERMINAL_ONLY == other - TERMINAL_ONLY
    ensures Cleared(r) == Cleared(other)
  {
    forall k | k !in TERMINAL_ONLY
      ensures k in r <==> k in other
      ensures k in r ==> r[k] == other[k]
    {
      assert k in r <==> k in r - TERMINAL_ONLY;
      assert k in other <==> k in other - TERMINAL_ONLY;
      if k in r { assert r[k] == (r - TERMINAL_ONLY)[k] == (other - TERMINAL_ONLY)[k]; }
    }
  }

  // ------------------------------------------------------------ reading back

  /** A text that one frame can carry. */
  predicate Carried(t: string) { OneLine(t) && t != [] && !IsBlank(t[0]) && !IsBlank(t[|t| - 1]) }

  lemma {:induction false} NoReturns(t: string)
    requires forall i :: 0 <= i < |t| ==> t[i] != '\r'
    ensures Normalised(t) == t
    decreases |t|
  {
    if t != [] { NoReturns(t[1..]); }
  }

  lemma {:induction false} StreamHasNoReturns(texts: seq<string>)
    requires forall i :: 0 <= i < |texts| ==> OneLine(texts[i])
    ensures forall j :: 0 <= j < |Stream(texts)| ==> Stream(texts)[j] != '\r'
    decreases |texts|
  {
    if texts != [] { StreamHasNoReturns(texts[..|texts| - 1]); }
  }

  lemma {:induction false} FindsBlank(x: string, rest: string)
    requires OneLine(x)
    ensures FindBlank(x + "\n\n" + rest) == |x|
    decreases |x|
  {
    var t := x + "\n\n" + rest;
    if x != [] {
      assert t[1..] == x[1..] + "\n\n" + rest;
      FindsBlank(x[1..], rest);
    }
  }

  lemma FirstBlock(x: string, rest: string)
    requires OneLine(x)
    ensures Blocks(x + "\n\n" + rest) == [x] + Blocks(rest)
  {
    FindsBlank(x, rest);
    var t := x + "\n\n" + rest;
    assert t[..|x|] == x && t[|x| + 2..] == rest;
  }

  function Heads(texts: seq<string>): (heads: seq<string>)
    ensures |heads| == |texts| && forall i :: 0 <= i < |texts| ==> heads[i] == "data: " + texts[i]
  {
    seq(|texts|, i requires 0 <= i < |texts| => "data: " + texts[i])
  }

  lemma {:induction false} StreamFromFront(texts: seq<string>)
    requires texts != []
    ensures Stream(texts) == Framed(texts[0]) + Stream(texts[1..])
    decreases |texts|
  {
    hide Framed;
    if |texts| == 1 {
      assert texts[..0] == [] && texts[1..] == [];
    } else {
      StreamFromFront(texts[..|texts| - 1]);
      assert texts[..|texts| - 1][1..] == texts[1..][..|texts| - 2];
      assert texts[..|texts| - 1][0] == texts[0];
    }
  }

  lemma {:induction false} BlocksOfStream(texts: seq<string>)
    requires forall i :: 0 <= i < |texts| ==> OneLine(texts[i])
    ensures Blocks(Stream(texts)) == Heads(texts) + [""]
    decreases |texts|
  {
    hide Blocks, Stream, OneLine;
    if texts == [] {
      NoBlocks();
    } else {
      StreamFromFront(texts);
      BlocksOfStream(texts[1..]);
      HeadIsOneLine(texts[0]);
      FirstBlock("data: " + texts[0], Stream(texts[1..]));
      assert Heads(texts) == ["data: " + texts[0]] + Heads(texts[1..]);
    }
  }

  lemma HeadIsOneLine(t: string)
    requires OneLine(t)
    ensures OneLine("data: " + t)
  {
  }

  lemma NoBlocks()
    ensures Stream([]) == "" && Blocks("") == [""]
  {
  }

  lemma {:induction false} FindsNoLineFeed(t: string)
    requires OneLine(t)
    ensures FindLineFeed(t) == |t|
    decreases |t|
  {
    if t != [] { FindsNoLineFeed(t[1..]); }
  }

  lemma PayloadOfHead(t: string)
    requires Carried(t)
    ensures Payload("data: " + t) == t
  {
    var line := "data: " + t;
    FindsNoLineFeed(line);
    assert Lines(line) == [line];
    assert line[..5] == "data:" && line[6..] == t;
    assert DataLines([line]) == [t] + DataLines([]);
    assert DataLines([line]) == [t];
  }

  lemma PayloadOfNothing()
    ensures Payload("") == ""
  {
    assert Lines("") == [""];
    assert !("data:" <= "");
    assert DataLines([""]) == [] + DataLines([]);
  }

  function FramesOfTexts(c: Codec, texts: seq<string>): (frames: seq<Frame>)
    ensures |frames| == |texts| && forall i :: 0 <= i < |texts| ==> frames[i] == FrameOf(c, texts[i])
  {
    seq(|texts|, i requires 0 <= i < |texts| => FrameOf(c, texts[i]))
  }

  lemma {:induction false} FramesOfHeads(c: Codec, texts: seq<string>)
    requires forall i :: 0 <= i < |texts| ==> Carried(texts[i])
    ensures FramesOf(c, Heads(texts)) == FramesOfTexts(c, texts)
    decreases |texts|
  {
    hide FrameOf, Payload;
    if texts != [] {
      var n := |texts| - 1;
      FramesOfHeads(c, texts[..n]);
      PayloadOfHead(texts[n]);
      assert Heads(texts)[..n] == Heads(texts[..n]);
      FramesGrow(c, Heads(texts), n);
      assert Heads(texts)[..n + 1] == Heads(texts);
      assert FramesOfTexts(c, texts) == FramesOfTexts(c, texts[..n]) + [FrameOf(c, texts[n])];
    }
  }

  lemma FramesOfStream(c: Codec, texts: seq<string>)
    requires forall i :: 0 <= i < |texts| ==> Carried(texts[i])
    ensures FramesOf(c, Blocks(Normalised(Stream(texts)))) == FramesOfTexts(c, texts)
  {
    hide FrameOf, Payload, Blocks, Normalised, Stream;
    StreamHasNoReturns(texts);
    NoReturns(Stream(texts));
    BlocksOfStream(texts);
    PayloadOfNothing();
    FramesOfHeads(c, texts);
    var blocks := Heads(texts) + [""];
    FramesGrow(c, blocks, |texts|);
    assert blocks[..|texts|] == Heads(texts) && blocks[..|texts| + 1] == blocks;
  }

  // ----------------------------------------------------------- the event frames

  lemma FrameOfPrinted(c: Codec, fields: Fields)
    requires Lawful(c)
    ensures FrameOf(c, c.stringify(Obj(fields))) == FrameOfObject(Obj(fields))
  {
    hide FrameOfObject;
    assert Braced(c.stringify(Obj(fields)));
    assert c.parse(c.stringify(Obj(fields))) == Some(Obj(fields));
  }

  lemma CreatedIsProgress(c: Codec, r: Fields)
    requires Lawful(c)
    ensures FrameOf(c, c.stringify(Created(r))) == Progress
  {
    hide Lawful, FrameOf, OutputTexts;
    FrameOfPrinted(c, Created(r).fields);
  }

  lemma ItemFrame(c: Codec, item: Json, index: nat)
    requires Lawful(c) && index < LONGEST_ARRAY
    ensures FrameOf(c, c.stringify(ItemEvent(item, index))) == if IsMessage(item) then ItemDone(OutputTexts([item]))
              else Progress
  {
    hide IsMessage, OutputTexts, Lawful, FrameOf;
    FrameOfPrinted(c, ItemEvent(item, index).fields);
  }

  lemma TerminalFrame(c: Codec, r: Fields)
    requires Lawful(c) && Wire(r)
    ensures FrameOf(c, c.stringify(Terminal(r))) == if r["status"] == Str("completed")
              then Completed(OutputTexts(OutputOf(r))) else Unfinished
  {
    hide OutputTexts, Lawful, FrameOf;
    FrameOfPrinted(c, Terminal(r).fields);
  }

  lemma EventsAreCarried(c: Codec, r: Fields)
    requires Lawful(c) && Wire(r)
    ensures forall i :: 0 <= i < |Events(r)| ==> Carried(Printed(c, Events(r))[i])
    ensures Carried("[DONE]")
  {
    hide Created, ItemEvent, Terminal;
    EventsAreObjects(r);
    forall i | 0 <= i < |Events(r)|
      ensures Carried(Printed(c, Events(r))[i])
    {
      PrintedIsCarried(c, Events(r)[i].fields);
    }
  }

  lemma PrintedIsCarried(c: Codec, fields: Fields)
    requires Lawful(c)
    ensures Carried(c.stringify(Obj(fields)))
  {
    assert Braced(c.stringify(Obj(fields))) && OneLine(c.stringify(Obj(fields)));
  }

  lemma EventsAreObjects(r: Fields)
    requires Wire(r)
    ensures forall i :: 0 <= i < |Events(r)| ==> Events(r)[i].Obj?
  {
  }

  /** The frames of the items of an output, in order. */
  function ItemFrames(output: seq<Json>): (frames: seq<Frame>)
    ensures |frames| == |output|
    ensures forall i :: 0 <= i < |output| ==>
              frames[i] == if IsMessage(output[i]) then ItemDone(OutputTexts([output[i]])) else Progress
  {
    seq(|output|, i requires 0 <= i < |output| => if IsMessage(output[i]) then ItemDone(OutputTexts([output[i]]))
        else Progress)
  }

  lemma OneItemTexts(item: Json)
    requires IsMessage(item)
    ensures OutputTexts([item]) == PartTexts(Field(item, "content").value.items)
  {
    hide PartTexts, IsMessage;
    assert [item][..0] == [];
  }

  lemma OutputGrows(output: seq<Json>)
    requires output != []
    ensures var (n, item) := (|output| - 1, output[|output| - 1]);
            OutputTexts(output) == if IsMessage(item) then OutputTexts(output[..n]) + OutputTexts([item])
                else OutputTexts(output[..n])
  {
    hide PartTexts, IsMessage;
    var n := |output| - 1;
    if IsMessage(output[n]) { OneItemTexts(output[n]); }
    assert OutputTexts(output[..n]) + [] == OutputTexts(output[..n]);
  }

  lemma NoItemTexts()
    ensures ItemTexts([Progress]) == OutputTexts([]) && Deltas([Progress]) == []
  {
    assert [Progress][..0] == [];
  }

  /** The items carry the same texts as the output as a whole, and no deltas. */
  lemma {:induction false} ItemFramesCarryTheOutput(output: seq<Json>)
    ensures var frames := [Progress] + ItemFrames(output);
            ItemTexts(frames) == OutputTexts(output) && Deltas(frames) == []
    decreases |output|
  {
    hide OutputTexts, ItemTexts, Deltas, IsMessage;
    var frames := [Progress] + ItemFrames(output);
    if output == [] {
      NoItemTexts();
      assert frames == [Progress];
    } else {
      var n := |output| - 1;
      ItemFramesCarryTheOutput(output[..n]);
      assert frames == [Progress] + ItemFrames(output[..n]) + [ItemFrames(output)[n]];
      TextsGrow([Progress] + ItemFrames(output[..n]), ItemFrames(output)[n]);
      OutputGrows(output);
    }
  }

  lemma ChosenRendering(output: seq<Json>)
    requires |output| < LONGEST_ARRAY
    ensures var T := OutputTexts(output);
            Chosen([Progress] + ItemFrames(output) + [Completed(T)] + [Terminator]) == Concat(T)
  {
    hide OutputTexts, IsMessage, Concat, Deltas, ItemTexts, CompletedTexts, ItemFrames;
    var items := [Progress] + ItemFrames(output);
    var T := OutputTexts(output);
    ItemFramesCarryTheOutput(output);
    TextsGrow(items, Completed(T));
    TextsGrow(items + [Completed(T)], Terminator);
  }

  lemma WholeRendering(output: seq<Json>)
    ensures Whole([Progress] + ItemFrames(output) + [Completed(OutputTexts(output))] + [Terminator])
  {
    hide OutputTexts, IsMessage;
    var items := [Progress] + ItemFrames(output);
    var frames := items + [Completed(OutputTexts(output))] + [Terminator];
    assert frames[|items|].Completed?;
    assert frames[|items| + 1..] == [Terminator];
    forall i | 0 <= i < |items|
      ensures IsProgress(frames[i])
    {
      assert frames[i] == items[i];
    }
  }

  lemma UnfinishedRendering(output: seq<Json>)
    ensures !Whole([Progress] + ItemFrames(output) + [Unfinished] + [Terminator])
  {
    hide OutputTexts, IsMessage;
    var frames := [Progress] + ItemFrames(output) + [Unfinished] + [Terminator];
    assert forall i :: 0 <= i < |frames| ==> !frames[i].Completed?;
  }

  function ExpectedFrames(r: Fields): seq<Frame>
    requires Wire(r)
  {
    var output := OutputOf(r);
    var last := if r["status"] == Str("completed") then Completed(OutputTexts(output)) else Unfinished;
    [Progress] + ItemFrames(output) + [last] + [Terminator]
  }

  lemma RenderedFrames(c: Codec, r: Fields)
    requires Lawful(c) && Wire(r)
    ensures FramesOfTexts(c, Printed(c, Events(r)) + ["[DONE]"]) == ExpectedFrames(r)
  {
    hide Created, ItemEvent, Terminal, FrameOf, OutputTexts, IsMessage, Lawful;
    var output := OutputOf(r);
    CreatedIsProgress(c, r);
    TerminalFrame(c, r);
    DoneIsTerminator(c);
    forall i | 0 <= i < |output|
      ensures FrameOf(c, c.stringify(ItemEvent(output[i], i))) == ItemFrames(output)[i]
    {
      ItemFrame(c, output[i], i);
    }
  }

  lemma DoneIsTerminator(c: Codec)
    ensures FrameOf(c, "[DONE]") == Terminator
  {
  }

  /** The frames of a rendering: the beginning, what each item of the output says, the end, and the terminator. */
  lemma RenderedHasFrames(c: Codec, r: Fields)
    requires Lawful(c) && Wire(r)
    ensures FramesOf(c, Blocks(Normalised(Rendered(c, r)))) == ExpectedFrames(r)
  {
    hide Events, FramesOf, Blocks, Normalised, Stream, Lawful, FramesOfTexts, ExpectedFrames, Carried;
    EventsAreCarried(c, r);
    var texts := Printed(c, Events(r)) + ["[DONE]"];
    assert forall i :: 0 <= i < |texts| ==> Carried(texts[i]);
    FramesOfStream(c, texts);
    RenderedFrames(c, r);
  }

  lemma RenderedIsNotJson(c: Codec, r: Fields)
    requires Lawful(c) && Wire(r)
    ensures !(c.parse(Rendered(c, r)).Some? && c.parse(Rendered(c, r)).value.Obj?)
  {
    hide Events;
    var body := Rendered(c, r);
    StreamFromFront(Printed(c, Events(r)) + ["[DONE]"]);
    assert body[0] == 'd';
  }

  // ----------------------------------------------------------------- theorem

  /** For every response, extracting from its rendering as events gives what its plain JSON gives. */
  lemma RenderedExtractsAlike(c: Codec, r: Fields)
    requires Lawful(c) && Wire(r)
    ensures Extracted(c, Rendered(c, r)) == Extracted(c, c.stringify(Obj(r)))
  {
    hide Events, FramesOf, Blocks, Normalised, OutputTexts, IsMessage, Concat, Whole, Chosen, Stream, Trim;
    var output := OutputOf(r);
    RenderedHasFrames(c, r);
    RenderedIsNotJson(c, r);
    WholeRendering(output);
    ChosenRendering(output);
    UnfinishedRendering(output);
    assert c.parse(c.stringify(Obj(r))) == Some(Obj(r));
  }
}
