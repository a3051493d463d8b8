/** Which text a stream of events has, said of the events themselves. */
module ResponsesSseText {
  import opened Options
  import opened Trimming
  import opened ResponsesSse
  import opened ResponsesSseRoundTrip

  // ------------------------------------------------------------- output texts

  predicate IsText(part: Json, text: string) { FieldIs(part, "type", "output_text") && FieldIs(part, "text", text) }

  /** The part of this number of the item of this number is a text of a message. */
  predicate TextAt(output: seq<Json>, i: nat, j: nat, text: string) {
    && i < |output| && FieldIs(output[i], "type", "message")
    && Field(output[i], "content").Some? && Field(output[i], "content").value.Arr?
    && j < |Field(output[i], "content").value.items| && IsText(Field(output[i], "content").value.items[j], text)
  }

  predicate Before(p: (nat, nat), q: (nat, nat)) { p.0 < q.0 || (p.0 == q.0 && p.1 < q.1) }

  /** These are the texts at these places, which come in order and are all there are. */
  ghost predicate Gathers(output: seq<Json>, texts: seq<string>, at: seq<(nat, nat)>) {
    && |at| == |texts| && (forall k :: 0 <= k < |at| ==> TextAt(output, at[k].0, at[k].1, texts[k]))
    && (forall k, l :: 0 <= k < l < |at| ==> Before(at[k], at[l]))
    && (forall i: nat, j: nat, text: string :: TextAt(output, i, j, text) ==> (i, j) in at)
  }

  /** The same for the parts of one message. */
  ghost predicate GathersParts(parts: seq<Json>, texts: seq<string>, at: seq<nat>) {
    && |at| == |texts| && (forall k :: 0 <= k < |at| ==> at[k] < |parts| && IsText(parts[at[k]], texts[k]))
    && (forall k, l :: 0 <= k < l < |at| ==> at[k] < at[l])
    && (forall j, text :: 0 <= j < |parts| && IsText(parts[j], text) ==> j in at)
  }

  lemma {:induction false} PartsAreGathered(parts: seq<Json>) returns (at: seq<nat>)
    ensures GathersParts(parts, PartTexts(parts), at)
    decreases |parts|
  {
    hide IsText, GathersParts;
    if parts == [] {
      at := [];
      NoPart();
    } else {
      var n := |parts| - 1;
      var before := PartsAreGathered(parts[..n]);
      at := GatherPart(parts, PartTexts(parts[..n]), before);
      LastPart(parts);
    }
  }

  lemma NoPart()
    ensures GathersParts([], [], [])
  {
  }

  /** The texts of the last part: one or none. */
  function OfLast(parts: seq<Json>): seq<string>
    requires parts != []
  {
    var p := parts[|parts| - 1];
    if Field(p, "text").Some? && Field(p, "text").value.Str? && IsText(p, Field(p, "text").value.text)
    then [Field(p, "text").value.text] else []
  }

  lemma LastPart(parts: seq<Json>)
    requires parts != []
    ensures PartTexts(parts) == PartTexts(parts[..|parts| - 1]) + OfLast(parts)
  {
  }

  lemma GatherPart(parts: seq<Json>, texts: seq<string>, before: seq<nat>) returns (at: seq<nat>)
    requires parts != [] && GathersParts(parts[..|parts| - 1], texts, before)
    ensures GathersParts(parts, texts + OfLast(parts), at)
  {
    var n := |parts| - 1;
    at := before + if OfLast(parts) == [] then [] else [n];
    forall j, text | 0 <= j < |parts| && IsText(parts[j], text)
      ensures j in at
    {
      if j < n {
        assert IsText(parts[..n][j], text);
        assert j in before;
      } else if OfLast(parts) != [] {
        assert at[|before|] == n;
      }
    }
  }

  function Pairs(i: nat, js: seq<nat>): (pairs: seq<(nat, nat)>)
    ensures |pairs| == |js| && forall k :: 0 <= k < |js| ==> pairs[k] == (i, js[k])
  {
    seq(|js|, k requires 0 <= k < |js| => (i, js[k]))
  }

  lemma NoItem()
    ensures Gathers([], [], [])
  {
  }

  /** An item that is no message adds nothing. */
  lemma SkipItem(output: seq<Json>, texts: seq<string>, at: seq<(nat, nat)>)
    requires output != [] && !IsMessage(output[|output| - 1]) && Gathers(output[..|output| - 1], texts, at)
    ensures Gathers(output, texts, at)
  {
    hide IsText;
    var n := |output| - 1;
    forall i: nat, j: nat, text: string | TextAt(output, i, j, text)
      ensures (i, j) in at
    {
      assert TextAt(output[..n], i, j, text);
    }
    forall k | 0 <= k < |at|
      ensures TextAt(output, at[k].0, at[k].1, texts[k])
    {
      assert TextAt(output[..n], at[k].0, at[k].1, texts[k]);
    }
  }

  /** A message adds the texts of its parts. */
  lemma AddItem(output: seq<Json>, texts: seq<string>, before: seq<(nat, nat)>, more: seq<string>, js: seq<nat>)
    requires output != [] && IsMessage(output[|output| - 1]) && Gathers(output[..|output| - 1], texts, before)
    requires GathersParts(Field(output[|output| - 1], "content").value.items, more, js)
    ensures Gathers(output, texts + more, before + Pairs(|output| - 1, js))
  {
    hide IsText;
    var (n, at) := (|output| - 1, before + Pairs(|output| - 1, js));
    forall k | 0 <= k < |at|
      ensures TextAt(output, at[k].0, at[k].1, (texts + more)[k])
    {
      if k < |before| { assert TextAt(output[..n], before[k].0, before[k].1, texts[k]); }
    }
    forall i: nat, j: nat, text: string | TextAt(output, i, j, text)
      ensures (i, j) in at
    {
      if i < n {
        assert TextAt(output[..n], i, j, text);
        assert (i, j) in before;
      } else {
        assert j in js;
        var k :| 0 <= k < |js| && js[k] == j;
        assert at[|before| + k] == (n, j);
      }
    }
    InOrder(n, before, js, output[..n], texts);
  }

  lemma InOrder(n: nat, before: seq<(nat, nat)>, js: seq<nat>, output: seq<Json>, texts: seq<string>)
    requires |output| == n && Gathers(output, texts, before) && forall k, l :: 0 <= k < l < |js| ==> js[k] < js[l]
    ensures var at := before + Pairs(n, js); forall k, l :: 0 <= k < l < |at| ==> Before(at[k], at[l])
  {
    hide IsText;
    forall k | 0 <= k < |before|
      ensures before[k].0 < n
    {
      assert TextAt(output, before[k].0, before[k].1, texts[k]);
    }
  }

  /** The texts of an output are those of its messages, in order. */
  lemma {:induction false} OutputIsGathered(output: seq<Json>) returns (at: seq<(nat, nat)>)
    ensures Gathers(output, OutputTexts(output), at)
    decreases |output|
  {
    hide PartTexts, Gathers, GathersParts;
    if output == [] {
      at := [];
      NoItem();
    } else {
      var n := |output| - 1;
      var before := OutputIsGathered(output[..n]);
      if IsMessage(output[n]) {
        var js := PartsAreGathered(Field(output[n], "content").value.items);
        at := before + Pairs(n, js);
        AddItem(output, OutputTexts(output[..n]), before, PartTexts(Field(output[n], "content").value.items), js);
      } else {
        at := before;
        SkipItem(output, OutputTexts(output[..n]), before);
        assert OutputTexts(output[..n]) + [] == OutputTexts(output[..n]);
      }
    }
  }

  // ------------------------------------------------------------------- events

  /** What an event says before the response is complete. */
  datatype Said = Piece(text: string) | Item(item: Json) | Nothing

  predicate Ends(event: Json) {
    || FieldIs(event, "type", "response.completed") || FieldIs(event, "type", "response.incomplete")
    || FieldIs(event, "type", "response.failed")
  }

  predicate IsPiece(event: Json, text: string) {
    FieldIs(event, "type", "response.output_text.delta") && FieldIs(event, "delta", text)
  }

  predicate IsItem(event: Json, item: Json) {
    FieldIs(event, "type", "response.output_item.done") && Field(event, "item") == Some(item)
  }

  /** The data are an event that says this. */
  ghost predicate Says(c: Codec, data: string, s: Said) {
    && data != "[DONE]" && c.parse(data).Some? && c.parse(data).value.Obj?
    && var event := c.parse(data).value;
       match s
       case Piece(text) => IsPiece(event, text)
       case Item(item) => IsItem(event, item)
       case Nothing => !Ends(event) && (forall t :: !IsPiece(event, t)) && forall item :: !IsItem(event, item)
  }

  /** The data are the event of a completed response with this output. */
  predicate Completes(c: Codec, data: string, output: seq<Json>) {
    && data != "[DONE]" && c.parse(data).Some? && FieldIs(c.parse(data).value, "type", "response.completed")
    && Field(c.parse(data).value, "response").Some?
    && var response := Field(c.parse(data).value, "response").value;
       FieldIs(response, "status", "completed") && Field(response, "output") == Some(Arr(output))
  }

  /** A stream that ends as it should: events of the response under way, its completion, and perhaps the terminator. */
  ghost predicate EndsWell(c: Codec, data: seq<string>, said: seq<Said>, output: seq<Json>) {
    && |said| < |data| && (forall i :: 0 <= i < |said| ==> Says(c, data[i], said[i]))
    && Completes(c, data[|said|], output) && (data[|said| + 1..] == [] || data[|said| + 1..] == ["[DONE]"])
  }

  function Pieces(said: seq<Said>): seq<string> {
    if said == [] then []
    else var s := said[|said| - 1]; Pieces(said[..|said| - 1]) + if s.Piece? then [s.text] else []
  }

  function Items(said: seq<Said>): seq<Json> {
    if said == [] then []
    else var s := said[|said| - 1]; Items(said[..|said| - 1]) + if s.Item? then [s.item] else []
  }

  /** The pieces, or else the output of the completed response, or else the items that were done. */
  function Text(said: seq<Said>, output: seq<Json>): string {
    if Pieces(said) != [] then Concat(Pieces(said))
    else if OutputTexts(output) != [] then Concat(OutputTexts(output)) else Concat(OutputTexts(Items(said)))
  }

  // ------------------------------------------------------------------- frames

  function FrameOfSaid(s: Said): Frame {
    match s
    case Piece(text) => Delta(text)
    case Item(item) => if IsMessage(item) then ItemDone(OutputTexts([item])) else Progress
    case Nothing => Progress
  }

  function SaidFrames(said: seq<Said>): (frames: seq<Frame>)
    ensures |frames| == |said| && forall i :: 0 <= i < |said| ==> frames[i] == FrameOfSaid(said[i])
  {
    seq(|said|, i requires 0 <= i < |said| => FrameOfSaid(said[i]))
  }

  lemma FrameSays(c: Codec, data: string, s: Said)
    requires Says(c, data, s)
    ensures FrameOf(c, data) == FrameOfSaid(s)
  {
    hide OutputTexts, IsMessage;
    var event := c.parse(data).value;
    if s.Nothing? {
      if Field(event, "delta").Some? && Field(event, "delta").value.Str? {
        assert !IsPiece(event, Field(event, "delta").value.text);
      }
      if Field(event, "item").Some? { assert !IsItem(event, Field(event, "item").value); }
    }
  }

  /** What a frame that is not terminal says. */
  function SaidBy(c: Codec, data: string): Said
    requires c.parse(data).Some?
  {
    var event := c.parse(data).value;
    if FieldIs(event, "type", "response.output_text.delta") && Field(event, "delta").Some? &&
        Field(event, "delta").value.Str?
    then Piece(Field(event, "delta").value.text)
    else if FieldIs(event, "type", "response.output_item.done") && Field(event, "item").Some?
    then Item(Field(event, "item").value)
    else Nothing
  }

  lemma ProgressSays(c: Codec, data: string)
    requires IsProgress(FrameOf(c, data))
    ensures c.parse(data).Some? && Says(c, data, SaidBy(c, data))
  {
    hide OutputTexts, IsMessage;
  }

  lemma CompletesFrame(c: Codec, data: string, output: seq<Json>)
    requires Completes(c, data, output)
    ensures FrameOf(c, data) == Completed(OutputTexts(output))
  {
    hide OutputTexts, IsMessage;
  }

  lemma CompletedFrame(c: Codec, data: string) returns (output: seq<Json>)
    requires FrameOf(c, data).Completed?
    ensures Completes(c, data, output)
  {
    hide OutputTexts, IsMessage;
    output := Field(Field(c.parse(data).value, "response").value, "output").value.items;
  }

  lemma TerminatorFrame(c: Codec, data: string)
    ensures FrameOf(c, data) == Terminator <==> data == "[DONE]"
  {
    hide OutputTexts, IsMessage;
  }

  // -------------------------------------------------------------------- texts

  lemma {:induction false} SaidTexts(said: seq<Said>)
    ensures Deltas(SaidFrames(said)) == Pieces(said) && ItemTexts(SaidFrames(said)) == OutputTexts(Items(said))
    decreases |said|
  {
    hide OutputTexts, IsMessage;
    if said == [] {
      NoTexts();
    } else {
      var n := |said| - 1;
      SaidTexts(said[..n]);
      assert SaidFrames(said) == SaidFrames(said[..n]) + [FrameOfSaid(said[n])];
      TextsGrow(SaidFrames(said[..n]), FrameOfSaid(said[n]));
      if said[n].Item? {
        OutputGrows(Items(said));
        assert Items(said)[..|Items(said)| - 1] == Items(said[..n]);
      } else {
        assert Items(said[..n]) + [] == Items(said[..n]);
      }
    }
  }

  lemma NoTexts()
    ensures OutputTexts([]) == []
  {
  }

  /** The frames of a stream that ends well. */
  function WellFrames(said: seq<Said>, output: seq<Json>, done: bool): seq<Frame> {
    SaidFrames(said) + [Completed(OutputTexts(output))] + if done then [Terminator] else []
  }

  lemma WellChosen(said: seq<Said>, output: seq<Json>, done: bool)
    ensures Whole(WellFrames(said, output, done)) && Chosen(WellFrames(said, output, done)) == Text(said, output)
  {
    hide OutputTexts, Deltas, ItemTexts, CompletedTexts, Concat, Pieces, Items;
    var (frames, last) := (SaidFrames(said), Completed(OutputTexts(output)));
    SaidTexts(said);
    TextsGrow(frames, last);
    TextsGrow(frames + [last], Terminator);
    assert frames + [last] + [] == frames + [last];
    var whole := WellFrames(said, output, done);
    assert forall i :: 0 <= i < |frames| ==> whole[i] == frames[i];
    assert whole[|frames|].Completed? && whole[|frames| + 1..] == if done then [Terminator] else [];
  }

  lemma FramesEndWell(c: Codec, data: seq<string>, said: seq<Said>, output: seq<Json>)
    requires EndsWell(c, data, said, output)
    ensures FramesOfTexts(c, data) == WellFrames(said, output, |data| > |said| + 1)
  {
    hide OutputTexts, FrameOf, FrameOfSaid, Says, Completes;
    forall i | 0 <= i < |said|
      ensures FrameOf(c, data[i]) == FrameOfSaid(said[i])
    {
      FrameSays(c, data[i], said[i]);
    }
    CompletesFrame(c, data[|said|], output);
    if |data| > |said| + 1 {
      assert data[|said| + 1..][0] == "[DONE]";
      TerminatorFrame(c, data[|said| + 1]);
    }
  }

  function SaidByAll(c: Codec, data: seq<string>): (said: seq<Said>)
    requires forall i :: 0 <= i < |data| ==> c.parse(data[i]).Some?
    ensures |said| == |data| && forall i :: 0 <= i < |data| ==> said[i] == SaidBy(c, data[i])
  {
    seq(|data|, i requires 0 <= i < |data| => SaidBy(c, data[i]))
  }

  lemma WholeEndsWell(c: Codec, data: seq<string>) returns (said: seq<Said>, output: seq<Json>)
    requires Whole(FramesOfTexts(c, data))
    ensures EndsWell(c, data, said, output)
  {
    hide FrameOf, Says, Completes, SaidBy, IsProgress;
    var frames := FramesOfTexts(c, data);
    var k :| 0 <= k < |frames| && frames[k].Completed? && (forall i :: 0 <= i < k ==> IsProgress(frames[i]))
        && (frames[k + 1..] == [] || frames[k + 1..] == [Terminator]);
    forall i | 0 <= i < k
      ensures c.parse(data[i]).Some? && Says(c, data[i], SaidBy(c, data[i]))
    {
      assert IsProgress(frames[i]);
      ProgressSays(c, data[i]);
    }
    said := SaidByAll(c, data[..k]);
    output := CompletedFrame(c, data[k]);
    if frames[k + 1..] != [] {
      assert frames[k + 1..][0] == Terminator && |frames| == k + 2;
      TerminatorFrame(c, data[k + 1]);
    }
  }

  lemma EventsAreNoJson(c: Codec, data: seq<string>)
    requires Lawful(c) && data != []
    ensures !IsJsonObject(c, Stream(data))
  {
    StreamFromFront(data);
    assert Stream(data)[0] == 'd';
  }

  /**
   A text is extracted from a stream exactly if the stream ends well and its text is not blank. It is the text of the
   pieces; without any, that of the completed response; without that, that of the items that were done.
   */
  lemma StreamTextIsRight(c: Codec, data: seq<string>) returns (said: seq<Said>, output: seq<Json>)
    requires Lawful(c) && data != [] && forall i :: 0 <= i < |data| ==> Carried(data[i])
    ensures Extracted(c, Stream(data)).Some? ==> EndsWell(c, data, said, output)
    ensures forall s, o :: EndsWell(c, data, s, o) ==> Extracted(c, Stream(data)) == NonBlank(Text(s, o))
  {
    hide Lawful, FramesOf, Blocks, Normalised, Whole, Chosen, Stream, Trim, Carried, EndsWell, Text, NonBlank,
         WellFrames, FramesOfTexts;
    FramesOfStream(c, data);
    EventsAreNoJson(c, data);
    if Whole(FramesOfTexts(c, data)) {
      said, output := WholeEndsWell(c, data);
    } else {
      said, output := [], [];
    }
    forall s, o | EndsWell(c, data, s, o)
      ensures Extracted(c, Stream(data)) == NonBlank(Text(s, o))
    {
      FramesEndWell(c, data, s, o);
      WellChosen(s, o, |data| > |s| + 1);
    }
  }
}
