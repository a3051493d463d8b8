/**
 Responses as server-sent events: the renderer of a whole response, and the extractor that collects the
 assistant's text from an upstream body, be it plain JSON or events. Framing is that of section 9.2 of the
 WHATWG HTML standard, as far as both use it. JSON enters as a parser and a printer with their laws.
 */
module ResponsesSse {
  import opened Options
  import opened Trimming

  /** Of the numbers, those that are exact integers. */
  type SafeInteger = n: int | -0x20_0000_0000_0000 < n < 0x20_0000_0000_0000

  datatype Json =
    | Null | Bool(yes: bool) | Number(value: SafeInteger) | Str(text: string)
    | Arr(items: seq<Json>) | Obj(fields: map<string, Json>)

  datatype Codec = Codec(parse: string -> Option<Json>, stringify: Json -> string)

  predicate OneLine(t: string) { forall i :: 0 <= i < |t| ==> t[i] != '\n' && t[i] != '\r' }

  predicate Braced(t: string) { |t| >= 2 && t[0] == '{' && t[|t| - 1] == '}' }

  /** The laws of the runtime's parser and printer: what is printed parses back, an object is printed on one line
      between braces, and a text of an object starts with a brace or white space. */
  ghost predicate Lawful(c: Codec) {
    && (forall v :: c.parse(c.stringify(v)) == Some(v))
    && (forall fields :: var t := c.stringify(Obj(fields)); Braced(t) && OneLine(t))
    && (forall t :: c.parse(t).Some? && c.parse(t).value.Obj? ==> t != [] && (t[0] == '{' || IsBlank(t[0])))
  }

  function Field(v: Json, name: string): Option<Json> {
    if v.Obj? && name in v.fields then Some(v.fields[name]) else None
  }

  predicate FieldIs(v: Json, name: string, text: string) { Field(v, name) == Some(Str(text)) }

  // ------------------------------------------------------------ output texts

  function PartTexts(parts: seq<Json>): seq<string> {
    if parts == [] then []
    else
      var p := parts[|parts| - 1];
      PartTexts(parts[..|parts| - 1]) +
      if FieldIs(p, "type", "output_text") && Field(p, "text").Some? &&
          Field(p, "text").value.Str? then [Field(p, "text").value.text] else []
  }

  predicate IsMessage(item: Json) {
    FieldIs(item, "type", "message") && Field(item, "content").Some? && Field(item, "content").value.Arr?
  }

  function OutputTexts(output: seq<Json>): seq<string> {
    if output == [] then []
    else
      var item := output[|output| - 1];
      OutputTexts(output[..|output| - 1]) + if IsMessage(item) then PartTexts(Field(item, "content").value.items)
          else []
  }

  method CollectOutputText(output: seq<Json>) returns (texts: seq<string>)
    ensures texts == OutputTexts(output)
  {
    texts := [];
    for i := 0 to |output|
      invariant texts == OutputTexts(output[..i])
    {
      assert output[..i + 1][..i] == output[..i];
      if !IsMessage(output[i]) { continue; }
      var content := Field(output[i], "content").value.items;
      assert texts == texts + PartTexts(content[..0]);
      for j := 0 to |content|
        invariant texts == OutputTexts(output[..i]) + PartTexts(content[..j])
      {
        assert content[..j + 1][..j] == content[..j];
        var part := content[j];
        if FieldIs(part, "type", "output_text") && Field(part, "text").Some? && Field(part, "text").value.Str? {
          texts := texts + [Field(part, "text").value.text];
        }
      }
      assert content[..|content|] == content;
    }
    assert output[..|output|] == output;
  }

  function Concat(texts: seq<string>): string {
    if texts == [] then [] else Concat(texts[..|texts| - 1]) + texts[|texts| - 1]
  }

  function NonBlank(t: string): Option<string> { if Trim(t) == "" then None else Some(Trim(t)) }

  // ------------------------------------------------------------------ framing

  /** Every kind of line end becomes a line feed. */
  function Normalised(t: string): string {
    if t == [] then []
    else if t[0] == '\r' then ['\n'] + Normalised(if |t| > 1 && t[1] == '\n' then t[2..] else t[1..])
    else [t[0]] + Normalised(t[1..])
  }

  function FindBlank(t: string): (i: nat)
    ensures i <= |t| && (i < |t| ==> i + 1 < |t| && t[i] == '\n' && t[i + 1] == '\n')
  {
    if |t| < 2 then |t| else if t[0] == '\n' && t[1] == '\n' then 0 else 1 + FindBlank(t[1..])
  }

  /** The text between empty lines. */
  function Blocks(t: string): seq<string>
    decreases |t|
  {
    var i := FindBlank(t);
    if i == |t| then [t] else [t[..i]] + Blocks(t[i + 2..])
  }

  function FindLineFeed(t: string): (i: nat)
    ensures i <= |t| && (i < |t| ==> t[i] == '\n')
  {
    if t == [] || t[0] == '\n' then 0 else 1 + FindLineFeed(t[1..])
  }

  function Lines(t: string): seq<string>
    decreases |t|
  {
    var i := FindLineFeed(t);
    if i == |t| then [t] else [t[..i]] + Lines(t[i + 1..])
  }

  /** The data of a line, without the one space that may follow the colon. */
  function DataOf(line: string): Option<string> {
    if !("data:" <= line) then None
    else Some(if |line| > 5 && line[5] == ' ' then line[6..] else line[5..])
  }

  function DataLines(lines: seq<string>): seq<string> {
    if lines == [] then []
    else (if DataOf(lines[0]).Some? then [DataOf(lines[0]).value] else []) + DataLines(lines[1..])
  }

  function JoinLines(lines: seq<string>): string {
    if lines == [] then [] else if |lines| == 1 then lines[0] else lines[0] + "\n" + JoinLines(lines[1..])
  }

  function Payload(block: string): string { Trim(JoinLines(DataLines(Lines(block)))) }

  // ---------------------------------------------------------------- extracting

  /** What one payload means for the extraction. */
  datatype Frame =
    | Terminator
    | Malformed
    | Unfinished
    | Completed(texts: seq<string>)
    | Delta(text: string)
    | ItemDone(texts: seq<string>)
    | Progress

  function FrameOfObject(frame: Json): Frame {
    if FieldIs(frame, "type", "response.incomplete") || FieldIs(frame, "type", "response.failed") then Unfinished
    else if FieldIs(frame, "type", "response.completed") then
      var response := Field(frame, "response");
      if response.None? || !response.value.Obj? || !FieldIs(response.value, "status", "completed")
         || Field(response.value, "output").None? || !Field(response.value, "output").value.Arr?
      then Malformed
      else Completed(OutputTexts(Field(response.value, "output").value.items))
    else if FieldIs(frame, "type", "response.output_text.delta") && Field(frame, "delta").Some? &&
        Field(frame, "delta").value.Str?
    then Delta(Field(frame, "delta").value.text)
    else if FieldIs(frame, "type", "response.output_item.done") && Field(frame, "item").Some? &&
        IsMessage(Field(frame, "item").value)
    then ItemDone(OutputTexts([Field(frame, "item").value]))
    else Progress
  }

  function FrameOf(c: Codec, payload: string): Frame {
    if payload == "[DONE]" then Terminator
    else
      match c.parse(payload)
      case None => Malformed
      case Some(frame) => if frame.Obj? then FrameOfObject(frame) else Malformed
  }

  function FramesOf(c: Codec, blocks: seq<string>): seq<Frame> {
    if blocks == [] then []
    else
      var payload := Payload(blocks[|blocks| - 1]);
      FramesOf(c, blocks[..|blocks| - 1]) + if payload == "" then [] else [FrameOf(c, payload)]
  }

  predicate IsProgress(f: Frame) { f.Delta? || f.ItemDone? || f.Progress? }

  /** A whole stream: frames that are not terminal, one completed response, and perhaps the terminator. */
  predicate Whole(frames: seq<Frame>) {
    exists k :: 0 <= k < |frames| && frames[k].Completed? && (forall i :: 0 <= i < k ==> IsProgress(frames[i]))
                && (frames[k + 1..] == [] || frames[k + 1..] == [Terminator])
  }

  function Deltas(frames: seq<Frame>): seq<string> {
    if frames == [] then []
    else var f := frames[|frames| - 1]; Deltas(frames[..|frames| - 1]) + if f.Delta? then [f.text] else []
  }

  function ItemTexts(frames: seq<Frame>): seq<string> {
    if frames == [] then []
    else var f := frames[|frames| - 1]; ItemTexts(frames[..|frames| - 1]) + if f.ItemDone? then f.texts else []
  }

  function CompletedTexts(frames: seq<Frame>): seq<string> {
    if frames == [] then []
    else var f := frames[|frames| - 1]; if f.Completed? then f.texts else CompletedTexts(frames[..|frames| - 1])
  }

  /** Deltas come first, then the completed response's own output, then the items that were done. */
  function Chosen(frames: seq<Frame>): string {
    if Deltas(frames) != [] then Concat(Deltas(frames))
    else if CompletedTexts(frames) != [] then Concat(CompletedTexts(frames))
    else Concat(ItemTexts(frames))
  }

  function ExtractedFromFrames(frames: seq<Frame>): Option<string> {
    if Whole(frames) then NonBlank(Chosen(frames)) else None
  }

  function ExtractedFromJson(v: Json): Option<string> {
    if !FieldIs(v, "status", "completed") || Field(v, "output").None? || !Field(v, "output").value.Arr? then None
    else NonBlank(Concat(OutputTexts(Field(v, "output").value.items)))
  }

  function Extracted(c: Codec, body: string): Option<string> {
    if IsJsonObject(c, body) then ExtractedFromJson(c.parse(body).value)
    else ExtractedFromFrames(FramesOf(c, Blocks(Normalised(body))))
  }

  // ------------------------------------------------------------------- the loop

  /** Where the loop is: inside a stream that may still be whole, after its completion, or after its terminator. */
  predicate Flags(frames: seq<Frame>, completed: bool, done: bool, invalid: bool) {
    && (!completed && !done && !invalid <==> forall i :: 0 <= i < |frames| ==> IsProgress(frames[i]))
    && (completed && !invalid <==> Whole(frames))
    && (!invalid && done ==> frames != [] && frames[|frames| - 1] == Terminator)
    && (!invalid && completed && !done ==> frames != [] && frames[|frames| - 1].Completed?)
    && (!invalid && done ==> completed)
  }

  lemma FlagsAfterProgress(frames: seq<Frame>, f: Frame, completed: bool, done: bool, invalid: bool)
    requires Flags(frames, completed, done, invalid) && !f.Terminator?
    ensures Flags(frames + [f], completed || f.Completed?, done, invalid || done || completed || f.Malformed? ||
              f.Unfinished?)
  {
    var all := frames + [f];
    assert forall i :: 0 <= i < |frames| ==> all[i] == frames[i];
    assert all[|frames|] == f;
    if f.Completed? && !completed && !done && !invalid {
      assert all[|frames| + 1..] == [];
      assert Whole(all);
    }
    if Whole(all) {
      var k :| 0 <= k < |all| && all[k].Completed? && (forall i :: 0 <= i < k ==> IsProgress(all[i])) &&
          (all[k + 1..] == [] || all[k + 1..] == [Terminator]);
      assert k == |frames|;
    }
  }

  lemma FlagsAfterTerminator(frames: seq<Frame>, completed: bool, done: bool, invalid: bool)
    requires Flags(frames, completed, done, invalid)
    ensures Flags(frames + [Terminator], completed, true, invalid || !completed || done)
  {
    var all := frames + [Terminator];
    assert forall i :: 0 <= i < |frames| ==> all[i] == frames[i];
    assert all[|frames|] == Terminator;
  }

  lemma FramesGrow(c: Codec, blocks: seq<string>, i: nat)
    requires i < |blocks|
    ensures var payload := Payload(blocks[i]);
            FramesOf(c, blocks[..i + 1]) == if payload == "" then FramesOf(c, blocks[..i])
                else FramesOf(c, blocks[..i]) + [FrameOf(c, payload)]
  {
    hide FrameOf, Payload;
    assert blocks[..i + 1][..i] == blocks[..i];
    assert FramesOf(c, blocks[..i]) + [] == FramesOf(c, blocks[..i]);
  }

  lemma TextsGrow(frames: seq<Frame>, f: Frame)
    ensures Deltas(frames + [f]) == if f.Delta? then Deltas(frames) + [f.text] else Deltas(frames)
    ensures ItemTexts(frames + [f]) == if f.ItemDone? then ItemTexts(frames) + f.texts else ItemTexts(frames)
    ensures CompletedTexts(frames + [f]) == if f.Completed? then f.texts else CompletedTexts(frames)
  {
    assert (frames + [f])[..|frames|] == frames;
    assert Deltas(frames) + [] == Deltas(frames) && ItemTexts(frames) + [] == ItemTexts(frames);
  }

  /** What the loop has collected, as long as nothing was wrong. */
  predicate Collected(frames: seq<Frame>, deltas: seq<string>, items: seq<string>, whole: seq<string>) {
    deltas == Deltas(frames) && items == ItemTexts(frames) && whole == CompletedTexts(frames)
  }

  predicate IsJsonObject(c: Codec, body: string) { c.parse(body).Some? && c.parse(body).value.Obj? }

  /** Of a body that is no JSON object, a text is extracted if and only if its frames are a whole stream whose text
      is not blank. */
  method ExtractResponsesOutputText(c: Codec, body: string) returns (text: Option<string>)
    ensures text == Extracted(c, body)
    ensures !IsJsonObject(c, body) ==>
              var frames := FramesOf(c, Blocks(Normalised(body)));
              && (text.Some? <==> Whole(frames) && Trim(Chosen(frames)) != "")
              && (text.Some? ==> text.value == Trim(Chosen(frames)))
  {
    hide Blocks, Normalised, Payload, OutputTexts, Flags, Whole, Deltas, ItemTexts, CompletedTexts, Concat, Trim,
         IsMessage, FramesOf;
    var json := c.parse(body);
    if json.Some? && json.value.Obj? {
      if !FieldIs(json.value, "status", "completed") || Field(json.value, "output").None? ||
          !Field(json.value, "output").value.Arr? {
        return None;
      }
      var texts := CollectOutputText(Field(json.value, "output").value.items);
      return NonBlank(Concat(texts));
    }
    var deltas: seq<string>, itemTexts: seq<string>, completedTexts: seq<string> := [], [], [];
    var completed, done, invalid := false, false, false;
    var blocks := Blocks(Normalised(body));
    NothingSeen(c, blocks);
    for i := 0 to |blocks|
      invariant Flags(FramesOf(c, blocks[..i]), completed, done, invalid)
      invariant !invalid ==> Collected(FramesOf(c, blocks[..i]), deltas, itemTexts, completedTexts)
    {
      ghost var frames := FramesOf(c, blocks[..i]);
      FramesGrow(c, blocks, i);
      var payload := Payload(blocks[i]);
      if payload == "" { continue; }
      ghost var f := FrameOf(c, payload);
      TextsGrow(frames, f);
      if payload == "[DONE]" {
        FlagsAfterTerminator(frames, completed, done, invalid);
        if !completed || done { invalid := true; }
        done := true;
        continue;
      }
      FlagsAfterProgress(frames, f, completed, done, invalid);
      OnceInvalid(frames + [f], completed || f.Completed?, completed, done);
      if done {
        invalid := true;
        continue;
      }
      var parsed := c.parse(payload);
      if parsed.None? || !parsed.value.Obj? || completed {
        invalid := true;
        continue;
      }
      var frame := parsed.value;
      if FieldIs(frame, "type", "response.incomplete") || FieldIs(frame, "type", "response.failed") {
        invalid := true;
        continue;
      }
      if FieldIs(frame, "type", "response.completed") {
        var response := Field(frame, "response");
        if response.None? || !response.value.Obj? || !FieldIs(response.value, "status", "completed")
           || Field(response.value, "output").None? || !Field(response.value, "output").value.Arr? {
          invalid := true;
          continue;
        }
        completed := true;
        completedTexts := CollectOutputText(Field(response.value, "output").value.items);
        continue;
      }
      if FieldIs(frame, "type", "response.output_text.delta") && Field(frame, "delta").Some? &&
          Field(frame, "delta").value.Str? {
        deltas := deltas + [Field(frame, "delta").value.text];
        continue;
      }
      if FieldIs(frame, "type", "response.output_item.done") && Field(frame, "item").Some? &&
          IsMessage(Field(frame, "item").value) {
        var texts := CollectOutputText([Field(frame, "item").value]);
        itemTexts := itemTexts + texts;
      }
    }
    assert blocks[..|blocks|] == blocks;
    CompletedIsWhole(FramesOf(c, blocks), completed, done, invalid);
    if !completed || invalid { return None; }
    return NonBlank(if |deltas| > 0 then Concat(deltas) else if |completedTexts| > 0 then Concat(completedTexts)
        else Concat(itemTexts));
  }

  lemma NothingSeen(c: Codec, blocks: seq<string>)
    ensures FramesOf(c, blocks[..0]) == [] && Flags([], false, false, false) && Collected([], [], [], [])
  {
  }

  lemma OnceInvalid(frames: seq<Frame>, completed: bool, completedToo: bool, done: bool)
    ensures Flags(frames, completed, done, true) ==> Flags(frames, completedToo, done, true)
  {
    hide Whole;
  }

  lemma CompletedIsWhole(frames: seq<Frame>, completed: bool, done: bool, invalid: bool)
    requires Flags(frames, completed, done, invalid)
    ensures completed && !invalid <==> Whole(frames)
  {
    hide Whole;
  }
}
