/** Conversion of history loses and reorders nothing: what the blocks say is what the wire messages say. */
module Fidelity {
  import opened Prelude
  import opened History

  // ---- what blocks say ----

  function Texts(blocks: seq<Block>): seq<Part> {
    if blocks == [] then []
    else
      var b := blocks[|blocks| - 1];
      Texts(blocks[..|blocks| - 1]) + if b.TextBlock? then [TextPart(b.text)] else []
  }

  function Calls(blocks: seq<Block>): seq<Call> {
    if blocks == [] then []
    else
      var b := blocks[|blocks| - 1];
      Calls(blocks[..|blocks| - 1]) + if b.ToolUse? then [Call(b.id, b.name, b.input)] else []
  }

  function Thoughts(blocks: seq<Block>): string {
    if blocks == [] then ""
    else
      var b := blocks[|blocks| - 1];
      Thoughts(blocks[..|blocks| - 1]) + if b.ThinkingBlock? then b.thinking.GetOr("") else ""
  }

  /** All calls of an assistant message, the gateway's own searches included. */
  function AllCalls(blocks: seq<Block>): seq<Call> {
    if blocks == [] then []
    else
      var b := blocks[|blocks| - 1];
      AllCalls(blocks[..|blocks| - 1])
      + if b.ToolUse? then [Call(b.id, b.name, b.input)]
        else if b.ServerToolUse? && b.objectInput.Some? then [Call(b.id, b.name, b.objectInput.value)]
        else []
  }

  /** The search results an assistant message replays. */
  function SearchResults(blocks: seq<Block>): seq<Wire> {
    if blocks == [] then []
    else
      var b := blocks[|blocks| - 1];
      SearchResults(blocks[..|blocks| - 1]) + if b.SearchResult? then [WTool(b.toolUseId, PlainContent(b.rendered), None)] else []
  }

  /** The tool results of a user message, with their error flags. */
  function ToolResults(blocks: seq<Block>): seq<Wire> {
    if blocks == [] then []
    else
      var b := blocks[|blocks| - 1];
      ToolResults(blocks[..|blocks| - 1])
      + if b.ToolResult? && b.content.Some? then
          [WTool(b.toolUseId, b.content.value, if b.isError.Flag? then Some(b.isError.value) else None)]
        else []
  }

  /** Everything else a user message holds. */
  function Ordinary(blocks: seq<Block>): seq<Part> {
    if blocks == [] then []
    else
      var b := blocks[|blocks| - 1];
      Ordinary(blocks[..|blocks| - 1])
      + if b.TextBlock? then [TextPart(b.text)] else if b.Media? && b.part.Some? then [b.part.value] else []
  }

  // ---- what wire messages say ----

  function WireTexts(ws: seq<Wire>): seq<Part> {
    if ws == [] then []
    else WireTexts(ws[..|ws| - 1]) + if ws[|ws| - 1].WAssistant? then ws[|ws| - 1].content else []
  }

  function WireCalls(ws: seq<Wire>): seq<Call> {
    if ws == [] then []
    else WireCalls(ws[..|ws| - 1]) + if ws[|ws| - 1].WAssistant? then ws[|ws| - 1].calls else []
  }

  function WireThoughts(ws: seq<Wire>): string {
    if ws == [] then ""
    else WireThoughts(ws[..|ws| - 1]) + if ws[|ws| - 1].WAssistant? then ws[|ws| - 1].reasoning else ""
  }

  function WireResults(ws: seq<Wire>): seq<Wire> {
    if ws == [] then []
    else WireResults(ws[..|ws| - 1]) + if ws[|ws| - 1].WTool? then [ws[|ws| - 1]] else []
  }

  lemma OneMoreWire(ws: seq<Wire>, w: Wire)
    ensures WireTexts(ws + [w]) == WireTexts(ws) + if w.WAssistant? then w.content else []
    ensures WireCalls(ws + [w]) == WireCalls(ws) + if w.WAssistant? then w.calls else []
    ensures WireThoughts(ws + [w]) == WireThoughts(ws) + if w.WAssistant? then w.reasoning else ""
    ensures WireResults(ws + [w]) == WireResults(ws) + if w.WTool? then [w] else []
  {
    assert (ws + [w])[..|ws|] == ws;
  }

  // ---- assistant messages ----

  /** What the conversion holds so far: in its output, in the calls waiting for results and in the open segment. */
  predicate Holds(a: AState, texts: seq<Part>, calls: seq<Call>, thoughts: string, results: seq<Wire>) {
    && WireTexts(a.output) + a.segment.content == texts
    && WireCalls(a.output) + a.serverCalls + a.segment.calls == calls
    && WireThoughts(a.output) + a.segment.reasoning == thoughts
    && WireResults(a.output) == results
  }

  lemma FlushHolds(a: AState, texts: seq<Part>, calls: seq<Call>, thoughts: string, results: seq<Wire>)
    requires Holds(a, texts, calls, thoughts, results) && (a.serverCalls == [] || a.segment.calls == [])
    ensures Holds(Flush(a), texts, calls, thoughts, results)
  {
    OneMoreWire(a.output, WAssistant(a.segment.content, a.segment.calls, a.segment.reasoning));
    hide WireTexts, WireCalls, WireThoughts, WireResults;
    if a.segment != NO_SEGMENT {
      assert WireTexts(a.output) + a.segment.content + [] == texts;
      assert WireThoughts(a.output) + a.segment.reasoning + "" == thoughts;
      if a.serverCalls == [] {
        assert WireCalls(a.output) + [] + a.segment.calls == WireCalls(a.output) + a.segment.calls + [] + [];
      } else {
        assert WireCalls(a.output) + a.serverCalls + [] == WireCalls(a.output) + [] + a.serverCalls + [];
      }
    }
  }

  lemma FlushServerHolds(a: AState, texts: seq<Part>, calls: seq<Call>, thoughts: string, results: seq<Wire>)
    requires Holds(a, texts, calls, thoughts, results)
    ensures Holds(FlushServerCalls(a), texts, calls, thoughts, results)
  {
    OneMoreWire(a.output, WAssistant([], a.serverCalls, ""));
    hide WireTexts, WireCalls, WireThoughts, WireResults;
    if a.serverCalls != [] {
      assert WireTexts(a.output) + [] + a.segment.content == texts;
      assert WireThoughts(a.output) + "" + a.segment.reasoning == thoughts;
      assert WireCalls(a.output) + a.serverCalls + [] + a.segment.calls == calls;
    }
  }

  /** What one block adds. */
  function AddedText(b: Block): seq<Part> { if b.TextBlock? then [TextPart(b.text)] else [] }

  function AddedCalls(b: Block): seq<Call> {
    if b.ToolUse? then [Call(b.id, b.name, b.input)]
    else if b.ServerToolUse? && b.objectInput.Some? then [Call(b.id, b.name, b.objectInput.value)]
    else []
  }

  function AddedThoughts(b: Block): string { if b.ThinkingBlock? then b.thinking.GetOr("") else "" }

  function AddedResults(b: Block): seq<Wire> {
    if b.SearchResult? then [WTool(b.toolUseId, PlainContent(b.rendered), None)] else []
  }

  lemma StepHolds(a: AState, b: Block, texts: seq<Part>, calls: seq<Call>, thoughts: string, results: seq<Wire>)
    requires Holds(a, texts, calls, thoughts, results) && AssistantStep(a, b).Ok?
    requires (a.serverCalls == [] || a.segment.calls == []) && (a.serverCalls != [] ==> |a.uses| != |a.answered|)
    ensures var n := AssistantStep(a, b).value;
            && Holds(n, texts + AddedText(b), calls + AddedCalls(b), thoughts + AddedThoughts(b), results + AddedResults(b))
            && (n.serverCalls == [] || n.segment.calls == [])
  {
    if b.ServerToolUse? {
      FlushHolds(a, texts, calls, thoughts, results);
      AppendNothing(texts, thoughts, results);
      var f := Flush(a);
      hide WireTexts, WireCalls, WireThoughts, WireResults;
      assert f.segment.calls == [];
      var c := Call(b.id, b.name, b.objectInput.value);
      assert WireCalls(f.output) + (f.serverCalls + [c]) + [] == WireCalls(f.output) + f.serverCalls + [] + [c];
    } else if b.SearchResult? {
      FlushServerHolds(a, texts, calls, thoughts, results);
      AppendNothing(texts, thoughts, results);
      OneMoreWire(FlushServerCalls(a).output, WTool(b.toolUseId, PlainContent(b.rendered), None));
      hide WireTexts, WireCalls, WireThoughts, WireResults;
      SearchHolds(a, b, texts, calls, thoughts, results);
    } else {
      PlainHolds(a, b, texts, calls, thoughts, results);
    }
  }

  lemma AppendNothing(texts: seq<Part>, thoughts: string, results: seq<Wire>)
    ensures texts + [] == texts && thoughts + "" == thoughts && results + [] == results
  {
  }

  lemma SearchHolds(a: AState, b: Block, texts: seq<Part>, calls: seq<Call>, thoughts: string, results: seq<Wire>)
    requires b.SearchResult? && AssistantStep(a, b).Ok? && Holds(FlushServerCalls(a), texts, calls, thoughts, results)
    ensures Holds(AssistantStep(a, b).value, texts + AddedText(b), calls + AddedCalls(b), thoughts + AddedThoughts(b), results + AddedResults(b))
  {
    var f := FlushServerCalls(a);
    OneMoreWire(f.output, WTool(b.toolUseId, PlainContent(b.rendered), None));
    hide WireTexts, WireCalls, WireThoughts, WireResults, FlushServerCalls;
    assert WireTexts(f.output) + [] == WireTexts(f.output) && WireCalls(f.output) + [] == WireCalls(f.output);
    assert WireThoughts(f.output) + "" == WireThoughts(f.output);
    assert texts + [] == texts && calls + [] == calls && thoughts + "" == thoughts;
  }

  lemma PlainHolds(a: AState, b: Block, texts: seq<Part>, calls: seq<Call>, thoughts: string, results: seq<Wire>)
    requires Holds(a, texts, calls, thoughts, results) && AssistantStep(a, b).Ok? && !b.ServerToolUse? && !b.SearchResult?
    requires (a.serverCalls == [] || a.segment.calls == []) && (a.serverCalls != [] ==> |a.uses| != |a.answered|)
    ensures var n := AssistantStep(a, b).value;
            && Holds(n, texts + AddedText(b), calls + AddedCalls(b), thoughts + AddedThoughts(b), results + AddedResults(b))
            && (n.serverCalls == [] || n.segment.calls == [])
  {
    var n := AssistantStep(a, b).value;
    hide WireTexts, WireCalls, WireThoughts, WireResults;
    assert n.output == a.output && n.serverCalls == a.serverCalls;
    assert n.segment.content == a.segment.content + AddedText(b);
    assert n.segment.calls == a.segment.calls + AddedCalls(b);
    assert n.segment.reasoning == a.segment.reasoning + AddedThoughts(b);
    hide AddedText, AddedCalls, AddedThoughts;
    assert WireTexts(a.output) + (a.segment.content + AddedText(b)) == texts + AddedText(b);
    assert WireCalls(a.output) + a.serverCalls + (a.segment.calls + AddedCalls(b)) == calls + AddedCalls(b);
    assert WireThoughts(a.output) + (a.segment.reasoning + AddedThoughts(b)) == thoughts + AddedThoughts(b);
    assert results + [] == results;
  }

  lemma OpenCounts(blocks: seq<Block>)
    requires AssistantScan(blocks).Ok?
    ensures var a := AssistantScan(blocks).value; a.serverCalls != [] ==> |a.uses| != |a.answered|
  {
    WaitingCallIsOpen(blocks);
    AssistantScanMeans(blocks);
    var a := AssistantScan(blocks).value;
    SameSize(a.answered, a.uses);
  }

  lemma {:induction false} ScanHolds(blocks: seq<Block>)
    requires AssistantScan(blocks).Ok?
    ensures var a := AssistantScan(blocks).value;
            && Holds(a, Texts(blocks), AllCalls(blocks), Thoughts(blocks), SearchResults(blocks))
            && (a.serverCalls == [] || a.segment.calls == [])
  {
    if blocks != [] {
      var before, b := blocks[..|blocks| - 1], blocks[|blocks| - 1];
      ScanHolds(before);
      OpenCounts(before);
      LastScanned(blocks);
      assert Texts(blocks) == Texts(before) + AddedText(b) && AllCalls(blocks) == AllCalls(before) + AddedCalls(b);
      assert Thoughts(blocks) == Thoughts(before) + AddedThoughts(b);
      assert SearchResults(blocks) == SearchResults(before) + AddedResults(b);
      hide *;
      StepHolds(AssistantScan(before).value, b, Texts(before), AllCalls(before), Thoughts(before), SearchResults(before));
    }
  }

  /** The wire messages of an accepted assistant message hold its texts, calls, thinking and results, each in order. */
  lemma AssistantKeepsContent(blocks: seq<Block>)
    requires ConvertAssistant(blocks).Ok?
    ensures var ws := ConvertAssistant(blocks).value.wire;
            && WireTexts(ws) == Texts(blocks) && WireCalls(ws) == AllCalls(blocks)
            && WireThoughts(ws) == Thoughts(blocks) && WireResults(ws) == SearchResults(blocks)
  {
    ScanHolds(blocks);
    var a := AssistantScan(blocks).value;
    FlushHolds(a, Texts(blocks), AllCalls(blocks), Thoughts(blocks), SearchResults(blocks));
    OneMoreWire([], WAssistant([], [], ""));
    var f := Flush(a);
    assert f.output == [] ==> [] + [WAssistant([], [], "")] == [WAssistant([], [], "")];
    hide Texts, AllCalls, Thoughts, SearchResults, AssistantScan;
    assert WireTexts(f.output) + [] == WireTexts(f.output) && WireCalls(f.output) + [] + [] == WireCalls(f.output);
    assert WireThoughts(f.output) + "" == WireThoughts(f.output);
  }

  // ---- user messages ----

  lemma {:induction false} UserScanHolds(blocks: seq<Block>, declared: set<string>)
    requires UserScan(blocks, declared).Ok?
    ensures var u := UserScan(blocks, declared).value; u.output == ToolResults(blocks) && u.ordinary == Ordinary(blocks)
  {
    if blocks != [] {
      UserScanHolds(blocks[..|blocks| - 1], declared);
    }
  }

  /** A user message becomes its tool results, then one message with everything else, which an empty one still sends. */
  lemma UserKeepsContent(blocks: seq<Block>, declared: set<string>)
    requires ConvertUser(blocks, declared).Ok?
    ensures ConvertUser(blocks, declared).value
         == ToolResults(blocks) + if Ordinary(blocks) != [] || blocks == [] then [UserMessage(Ordinary(blocks))] else []
  {
    UserScanHolds(blocks, declared);
    hide UserScan, ToolResults, Ordinary;
    assert blocks == [] ==> Ordinary(blocks) == [] by { NothingOrdinary(); }
    var out := UserScan(blocks, declared).value.output;
    assert out + [] == out;
  }

  lemma NothingOrdinary()
    ensures Ordinary([]) == []
  {
  }
}
