/**
 What an accepted history says and what is sent say the same, message by message: each side is read on its own type,
 and nothing is lost, invented, moved to another message or put under another role.
 */
module Sending {
  import opened Prelude
  import opened History
  import opened Fidelity
  import opened Optimize
  import E = Epoch

  datatype Said =
    | SaidText(part: Part)
    | SaidCall(call: Call)
    | SaidResult(id: string, content: ToolContent, isError: Option<bool>)

  // ---- what the blocks of a message say ----

  /** Texts and search results, in order. */
  function Spoken(blocks: seq<Block>): seq<Said> {
    if blocks == [] then []
    else
      var b := blocks[|blocks| - 1];
      Spoken(blocks[..|blocks| - 1])
      + if b.TextBlock? then [SaidText(TextPart(b.text))]
        else if b.SearchResult? then [SaidResult(b.toolUseId, PlainContent(b.rendered), None)]
        else []
  }

  /** Calls, the gateway's own searches included, and search results, in order. */
  function Acted(blocks: seq<Block>): seq<Said> {
    if blocks == [] then []
    else
      var b := blocks[|blocks| - 1];
      Acted(blocks[..|blocks| - 1])
      + if b.ToolUse? then [SaidCall(Call(b.id, b.name, b.input))]
        else if b.ServerToolUse? && b.objectInput.Some? then [SaidCall(Call(b.id, b.name, b.objectInput.value))]
        else if b.SearchResult? then [SaidResult(b.toolUseId, PlainContent(b.rendered), None)]
        else []
  }

  // ---- what sent messages say ----

  function AsTexts(parts: seq<Part>): (r: seq<Said>)
    ensures |r| == |parts| && forall i | 0 <= i < |r| :: r[i] == SaidText(parts[i])
  {
    seq(|parts|, i requires 0 <= i < |parts| => SaidText(parts[i]))
  }

  function AsCalls(calls: seq<Call>): (r: seq<Said>)
    ensures |r| == |calls| && forall i | 0 <= i < |r| :: r[i] == SaidCall(calls[i])
  {
    seq(|calls|, i requires 0 <= i < |calls| => SaidCall(calls[i]))
  }

  function AsResult(m: Sent): seq<Said> {
    if m.role == "tool" && m.content.Some? then [SaidResult(m.toolCallId, m.content.value, m.isError)] else []
  }

  function SentSpoken(ms: seq<Sent>): seq<Said> {
    if ms == [] then []
    else
      var m := ms[|ms| - 1];
      SentSpoken(ms[..|ms| - 1])
      + if m.role == "assistant" && m.content.Some? && m.content.value.PartContent? then AsTexts(m.content.value.parts) else AsResult(m)
  }

  function SentActed(ms: seq<Sent>): seq<Said> {
    if ms == [] then []
    else
      var m := ms[|ms| - 1];
      SentActed(ms[..|ms| - 1]) + if m.role == "assistant" then AsCalls(m.calls) else AsResult(m)
  }

  function SentThoughts(ms: seq<Sent>): string {
    if ms == [] then "" else SentThoughts(ms[..|ms| - 1]) + ms[|ms| - 1].reasoning.GetOr("")
  }

  function Plain(role: string, text: string): Sent {
    Sent(role, Some(PlainContent(text)), None, [], "", None)
  }

  function Parts(role: string, parts: seq<Part>): Sent {
    Sent(role, Some(PartContent(parts)), None, [], "", None)
  }

  /** The tool results of a user message as they are sent. */
  function SentResults(blocks: seq<Block>): seq<Sent> {
    if blocks == [] then []
    else
      var b := blocks[|blocks| - 1];
      SentResults(blocks[..|blocks| - 1])
      + if b.ToolResult? then
          [Sent("tool", b.content, None, [], b.toolUseId, if b.isError.Flag? then Some(b.isError.value) else None)]
        else []
  }

  // ---- message by message ----

  predicate AreTexts(parts: seq<Part>, blocks: seq<Block>) {
    |parts| == |blocks| && forall i | 0 <= i < |parts| :: blocks[i].TextBlock? && parts[i] == TextPart(blocks[i].text)
  }

  /** The messages an assistant message becomes: one alone, unless it holds searches. */
  predicate AssistantConveys(blocks: seq<Block>, sent: seq<Sent>) {
    && SentSpoken(sent) == Spoken(blocks) && SentActed(sent) == Acted(blocks) && SentThoughts(sent) == Thoughts(blocks)
    && (forall i | 0 <= i < |sent| :: sent[i].role == "assistant" || sent[i].role == "tool")
    && sent != [] && (E.NoServerBlocks(blocks) ==> |sent| == 1)
  }

  /** What is sent for a message says what the message says. */
  predicate Conveys(m: Message, sent: seq<Sent>) {
    match m.content
    case Str(text) =>
      sent == [Plain(match m.role case System => "system" case Assistant => "assistant" case _ => "user", text)]
    case Blocks(blocks) =>
      if m.role.System? then
        && |sent| == 1 && sent[0].content.Some? && sent[0].content.value.PartContent?
        && sent[0] == Parts("system", sent[0].content.value.parts) && AreTexts(sent[0].content.value.parts, blocks)
      else if m.role.Assistant? then AssistantConveys(blocks, sent)
      else sent == SentResults(blocks) + if Ordinary(blocks) != [] || blocks == [] then [Parts("user", Ordinary(blocks))] else []
    case OtherContent => false
  }

  function Flatten(pieces: seq<seq<Sent>>): seq<Sent> {
    if pieces == [] then [] else Flatten(pieces[..|pieces| - 1]) + pieces[|pieces| - 1]
  }

  /** `sent` is, message by message and in order, what the messages of a history say. */
  ghost predicate Tells(ms: seq<Message>, sent: seq<Sent>) {
    exists pieces: seq<seq<Sent>> ::
      sent == Flatten(pieces) && |pieces| == |ms| && forall i | 0 <= i < |ms| :: Conveys(ms[i], pieces[i])
  }

  // ---- assistant messages ----

  function WireSpoken(ws: seq<Wire>): seq<Said> {
    if ws == [] then []
    else
      var w := ws[|ws| - 1];
      WireSpoken(ws[..|ws| - 1])
      + if w.WAssistant? then AsTexts(w.content) else if w.WTool? then [SaidResult(w.id, w.result, w.isError)] else []
  }

  function WireActed(ws: seq<Wire>): seq<Said> {
    if ws == [] then []
    else
      var w := ws[|ws| - 1];
      WireActed(ws[..|ws| - 1])
      + if w.WAssistant? then AsCalls(w.calls) else if w.WTool? then [SaidResult(w.id, w.result, w.isError)] else []
  }

  lemma OneMoreSaid(ws: seq<Wire>, w: Wire)
    ensures WireSpoken(ws + [w]) == WireSpoken(ws)
      + if w.WAssistant? then AsTexts(w.content) else if w.WTool? then [SaidResult(w.id, w.result, w.isError)] else []
    ensures WireActed(ws + [w]) == WireActed(ws)
      + if w.WAssistant? then AsCalls(w.calls) else if w.WTool? then [SaidResult(w.id, w.result, w.isError)] else []
  {
    assert (ws + [w])[..|ws|] == ws;
  }

  /** What the conversion holds so far; while a search is open nothing has been said since. */
  predicate Keeps(a: AState, spoken: seq<Said>, acted: seq<Said>) {
    && WireSpoken(a.output) + AsTexts(a.segment.content) == spoken
    && WireActed(a.output) + AsCalls(a.serverCalls) + AsCalls(a.segment.calls) == acted
    && (|a.uses| != |a.answered| ==> a.segment.content == [] && a.segment.calls == [])
    && (a.serverCalls != [] ==> |a.uses| != |a.answered|)
    && Answering(a.output)
  }

  predicate Answering(ws: seq<Wire>) {
    forall i | 0 <= i < |ws| :: ws[i].WAssistant? || ws[i].WTool?
  }

  lemma NothingMore(spoken: seq<Said>, acted: seq<Said>)
    ensures AsTexts([]) == [] && AsCalls([]) == [] && spoken + [] == spoken && acted + [] == acted
  {
  }

  lemma FlushKeeps(a: AState, spoken: seq<Said>, acted: seq<Said>)
    requires Keeps(a, spoken, acted)
    ensures Keeps(Flush(a), spoken, acted) && Flush(a).segment == NO_SEGMENT
  {
    OneMoreSaid(a.output, WAssistant(a.segment.content, a.segment.calls, a.segment.reasoning));
    NothingMore(spoken, acted);
    hide WireSpoken, WireActed, AsTexts, AsCalls;
    if a.serverCalls == [] {
      assert WireActed(a.output) + [] + AsCalls(a.segment.calls) == WireActed(a.output) + AsCalls(a.segment.calls);
      assert acted + [] + [] == acted;
    } else {
      assert WireActed(a.output) + AsCalls(a.serverCalls) + [] == acted;
      assert WireActed(a.output) + [] + AsCalls(a.serverCalls) + [] == acted;
    }
  }

  lemma FlushServerKeeps(a: AState, spoken: seq<Said>, acted: seq<Said>)
    requires Keeps(a, spoken, acted) && |a.uses| != |a.answered|
    ensures var f := FlushServerCalls(a);
            && WireSpoken(f.output) == spoken && WireActed(f.output) == acted && f.serverCalls == []
            && f.segment.content == [] && f.segment.calls == [] && f.uses == a.uses && f.answered == a.answered
            && Answering(f.output)
  {
    OneMoreSaid(a.output, WAssistant([], a.serverCalls, ""));
    NothingMore(spoken, acted);
    hide WireSpoken, WireActed, AsTexts, AsCalls;
    assert WireSpoken(a.output) + [] == WireSpoken(a.output);
    assert WireActed(a.output) + AsCalls(a.serverCalls) + [] == WireActed(a.output) + AsCalls(a.serverCalls);
    assert WireActed(a.output) + [] == WireActed(a.output);
  }

  function AddedSpoken(b: Block): seq<Said> {
    if b.TextBlock? then [SaidText(TextPart(b.text))]
    else if b.SearchResult? then [SaidResult(b.toolUseId, PlainContent(b.rendered), None)]
    else []
  }

  function AddedActed(b: Block): seq<Said> {
    if b.ToolUse? then [SaidCall(Call(b.id, b.name, b.input))]
    else if b.ServerToolUse? && b.objectInput.Some? then [SaidCall(Call(b.id, b.name, b.objectInput.value))]
    else if b.SearchResult? then [SaidResult(b.toolUseId, PlainContent(b.rendered), None)]
    else []
  }

  lemma OneMoreText(parts: seq<Part>, part: Part)
    ensures AsTexts(parts + [part]) == AsTexts(parts) + [SaidText(part)]
  {
  }

  lemma OneMoreCall(calls: seq<Call>, call: Call)
    ensures AsCalls(calls + [call]) == AsCalls(calls) + [SaidCall(call)]
  {
  }

  lemma TextKeeps(a: AState, b: Block, spoken: seq<Said>, acted: seq<Said>)
    requires Keeps(a, spoken, acted) && b.TextBlock? && AssistantStep(a, b).Ok?
    ensures Keeps(AssistantStep(a, b).value, spoken + AddedSpoken(b), acted + AddedActed(b))
  {
    var n := AssistantStep(a, b).value;
    assert n == a.(segment := a.segment.(content := a.segment.content + [TextPart(b.text)]));
    OneMoreText(a.segment.content, TextPart(b.text));
    NothingMore(spoken, acted);
    hide WireSpoken, WireActed, AsTexts, AsCalls, AssistantStep, Answering;
    assert WireSpoken(a.output) + (AsTexts(a.segment.content) + [SaidText(TextPart(b.text))]) == spoken + [SaidText(TextPart(b.text))];
  }

  lemma CallKeeps(a: AState, b: Block, spoken: seq<Said>, acted: seq<Said>)
    requires Keeps(a, spoken, acted) && b.ToolUse? && AssistantStep(a, b).Ok?
    ensures Keeps(AssistantStep(a, b).value, spoken + AddedSpoken(b), acted + AddedActed(b))
  {
    var c := Call(b.id, b.name, b.input);
    OneMoreCall(a.segment.calls, c);
    NothingMore(spoken, acted);
    hide WireSpoken, WireActed, AsTexts, AsCalls;
    var before := WireActed(a.output) + AsCalls(a.serverCalls);
    assert before + (AsCalls(a.segment.calls) + [SaidCall(c)]) == before + AsCalls(a.segment.calls) + [SaidCall(c)];
  }

  lemma SearchKeeps(a: AState, b: Block, spoken: seq<Said>, acted: seq<Said>)
    requires Keeps(a, spoken, acted) && b.ServerToolUse? && AssistantStep(a, b).Ok? && a.answered <= a.uses
    ensures Keeps(AssistantStep(a, b).value, spoken + AddedSpoken(b), acted + AddedActed(b))
  {
    var f := Flush(a);
    var c := Call(b.id, b.name, b.objectInput.value);
    FlushKeeps(a, spoken, acted);
    OneMoreCall(f.serverCalls, c);
    NothingMore(spoken, acted);
    SameSize(f.answered, f.uses + {b.id});
    hide WireSpoken, WireActed, AsTexts, AsCalls, Flush;
    assert WireActed(f.output) + (AsCalls(f.serverCalls) + [SaidCall(c)]) + [] == WireActed(f.output) + AsCalls(f.serverCalls) + [] + [SaidCall(c)];
  }

  lemma ResultKeeps(a: AState, b: Block, spoken: seq<Said>, acted: seq<Said>)
    requires Keeps(a, spoken, acted) && b.SearchResult? && AssistantStep(a, b).Ok? && a.answered <= a.uses
    ensures Keeps(AssistantStep(a, b).value, spoken + AddedSpoken(b), acted + AddedActed(b))
  {
    SameSize(a.answered, a.uses);
    FlushServerKeeps(a, spoken, acted);
    var f := FlushServerCalls(a);
    OneMoreSaid(f.output, WTool(b.toolUseId, PlainContent(b.rendered), None));
    NothingMore(spoken + AddedSpoken(b), acted + AddedActed(b));
    hide WireSpoken, WireActed, AsTexts, AsCalls, FlushServerCalls;
    var r := [SaidResult(b.toolUseId, PlainContent(b.rendered), None)];
    assert spoken + r + [] == spoken + r && acted + r + [] + [] == acted + r;
  }

  lemma StepKeeps(a: AState, b: Block, spoken: seq<Said>, acted: seq<Said>)
    requires Keeps(a, spoken, acted) && AssistantStep(a, b).Ok? && a.answered <= a.uses
    ensures Keeps(AssistantStep(a, b).value, spoken + AddedSpoken(b), acted + AddedActed(b))
  {
    if b.TextBlock? {
      TextKeeps(a, b, spoken, acted);
    } else if b.ToolUse? {
      CallKeeps(a, b, spoken, acted);
    } else if b.ServerToolUse? {
      SearchKeeps(a, b, spoken, acted);
    } else if b.SearchResult? {
      ResultKeeps(a, b, spoken, acted);
    } else {
      NothingMore(spoken, acted);
      hide WireSpoken, WireActed, AsTexts, AsCalls;
    }
  }

  lemma {:induction false} ScanKeeps(blocks: seq<Block>)
    requires AssistantScan(blocks).Ok?
    ensures Keeps(AssistantScan(blocks).value, Spoken(blocks), Acted(blocks))
  {
    if blocks == [] {
      NothingMore([], []);
    } else {
      var before, b := blocks[..|blocks| - 1], blocks[|blocks| - 1];
      LastScanned(blocks);
      AssistantScanMeans(before);
      ScanKeeps(before);
      assert Spoken(blocks) == Spoken(before) + AddedSpoken(b) && Acted(blocks) == Acted(before) + AddedActed(b);
      hide AssistantScan, AssistantStep, Keeps, Spoken, Acted;
      StepKeeps(AssistantScan(before).value, b, Spoken(before), Acted(before));
    }
  }

  lemma OneMoreSent(ms: seq<Sent>, m: Sent)
    ensures SentSpoken(ms + [m]) == SentSpoken(ms)
      + if m.role == "assistant" && m.content.Some? && m.content.value.PartContent? then AsTexts(m.content.value.parts) else AsResult(m)
    ensures SentActed(ms + [m]) == SentActed(ms) + if m.role == "assistant" then AsCalls(m.calls) else AsResult(m)
    ensures SentThoughts(ms + [m]) == SentThoughts(ms) + m.reasoning.GetOr("")
  {
    assert (ms + [m])[..|ms|] == ms;
    hide AsTexts, AsCalls, AsResult;
  }

  lemma OneWireSays(w: Wire)
    requires w.WAssistant? || w.WTool?
    ensures var m := IntoWire(w);
            && (w.WAssistant? ==> m.role == "assistant" && m.content == Some(PartContent(w.content)) && m.calls == w.calls
                                  && m.reasoning.GetOr("") == w.reasoning)
            && (w.WTool? ==> m.role == "tool" && m.role != "assistant" && AsResult(m) == [SaidResult(w.id, w.result, w.isError)]
                             && m.reasoning.GetOr("") == "")
  {
    assert "assistant"[0] != "tool"[0];
  }

  lemma IntoWiresMore(ws: seq<Wire>)
    requires ws != [] && Answering(ws)
    ensures var n := |ws| - 1;
            && IntoWires(ws) == IntoWires(ws[..n]) + [IntoWire(ws[n])] && Answering(ws[..n]) && ws[..n] + [ws[n]] == ws
            && (ws[n].WAssistant? || ws[n].WTool?)
  {
    hide IntoWire;
  }

  lemma {:induction false} IntoWiresSay(ws: seq<Wire>)
    requires Answering(ws)
    ensures var sent := IntoWires(ws);
            && SentSpoken(sent) == WireSpoken(ws) && SentActed(sent) == WireActed(ws) && SentThoughts(sent) == WireThoughts(ws)
            && forall i | 0 <= i < |sent| :: sent[i].role == "assistant" || sent[i].role == "tool"
  {
    if ws != [] {
      hide *;
      var n := |ws| - 1;
      IntoWiresMore(ws);
      IntoWiresSay(ws[..n]);
      OneMoreSent(IntoWires(ws[..n]), IntoWire(ws[n]));
      OneMoreSaid(ws[..n], ws[n]);
      OneMoreWire(ws[..n], ws[n]);
      OneWireSays(ws[n]);
      assert WireThoughts(ws[..n]) + "" == WireThoughts(ws[..n]);
    }
  }

  /** For any accepted assistant message: what is sent says what its blocks say, each kind in order, and nothing else. */
  lemma AssistantIsConveyed(blocks: seq<Block>)
    requires ConvertAssistant(blocks).Ok?
    ensures AssistantConveys(blocks, IntoWires(ConvertAssistant(blocks).value.wire))
  {
    var ws := ConvertAssistant(blocks).value.wire;
    AssistantKeepsContent(blocks);
    assert WireSpoken(ws) == Spoken(blocks) && WireActed(ws) == Acted(blocks) && ws != []
           && Answering(ws) by {
      EndKeeps(blocks);
    }
    if E.NoServerBlocks(blocks) {
      E.AssistantIsOneMessage(blocks);
    }
    hide ConvertAssistant, WireSpoken, WireActed, Spoken, Acted, Thoughts, WireThoughts, E.NoServerBlocks;
    IntoWiresSay(ws);
  }

  lemma EndKeeps(blocks: seq<Block>)
    requires ConvertAssistant(blocks).Ok?
    ensures var ws := ConvertAssistant(blocks).value.wire;
            && WireSpoken(ws) == Spoken(blocks) && WireActed(ws) == Acted(blocks) && ws != [] && Answering(ws)
  {
    ScanKeeps(blocks);
    var a := AssistantScan(blocks).value;
    FlushKeeps(a, Spoken(blocks), Acted(blocks));
    OneMoreSaid([], WAssistant([], [], ""));
    NothingMore(Spoken(blocks), Acted(blocks));
    var f := Flush(a);
    assert [] + [WAssistant([], [], "")] == [WAssistant([], [], "")];
    hide AssistantScan, Spoken, Acted, Flush, AsTexts, AsCalls;
    assert WireSpoken(f.output) + [] == WireSpoken(f.output) && WireActed(f.output) + [] + [] == WireActed(f.output);
  }

  // ---- user messages ----

  lemma {:induction false} ResultsAreSent(blocks: seq<Block>, declared: set<string>)
    requires UserScan(blocks, declared).Ok?
    ensures IntoWires(ToolResults(blocks)) == SentResults(blocks)
  {
    if blocks != [] {
      var n := |blocks| - 1;
      ResultsAreSent(blocks[..n], declared);
      assert blocks[n].ToolResult? ==> blocks[n].content.Some?;
      hide UserScan;
    }
  }

  lemma IntoWiresConcat(a: seq<Wire>, b: seq<Wire>)
    ensures IntoWires(a + b) == IntoWires(a) + IntoWires(b)
  {
    hide IntoWire;
  }

  lemma UserIsConveyed(blocks: seq<Block>, declared: set<string>)
    requires ConvertUser(blocks, declared).Ok?
    ensures IntoWires(ConvertUser(blocks, declared).value)
         == SentResults(blocks) + if Ordinary(blocks) != [] || blocks == [] then [Parts("user", Ordinary(blocks))] else []
  {
    UserKeepsContent(blocks, declared);
    ResultsAreSent(blocks, declared);
    var rest := if Ordinary(blocks) != [] || blocks == [] then [UserMessage(Ordinary(blocks))] else [];
    IntoWiresConcat(ToolResults(blocks), rest);
    assert IntoWire(UserMessage(Ordinary(blocks))) == Parts("user", Ordinary(blocks));
    hide ConvertUser, ToolResults, SentResults, Ordinary, IntoWire;
  }

  // ---- whole histories ----

  lemma MessageIsConveyed(m: Message, declared: set<string>)
    requires ConvertMessage(m, declared).Ok?
    ensures Conveys(m, IntoWires(ConvertMessage(m, declared).value.wire))
  {
    if m.content.Blocks? && m.role.Assistant? {
      AssistantIsConveyed(m.content.blocks);
    } else if m.content.Blocks? && m.role.User? {
      UserIsConveyed(m.content.blocks, declared);
    }
    hide ConvertAssistant, ConvertUser, AssistantConveys, SentResults, Ordinary;
  }

  lemma NothingIsSent()
    ensures IntoWires(ConvertHistory([]).value.wire) == Flatten([])
  {
  }

  lemma LastConverted(ms: seq<Message>)
    requires ms != [] && ConvertHistory(ms).Ok?
    ensures var n := |ms| - 1;
            && ConvertHistory(ms[..n]).Ok? && ConvertMessage(ms[n], ConvertHistory(ms[..n]).value.pending).Ok?
            && ConvertHistory(ms).value.wire
               == ConvertHistory(ms[..n]).value.wire + ConvertMessage(ms[n], ConvertHistory(ms[..n]).value.pending).value.wire
  {
    hide ConvertMessage;
  }

  lemma FlattenMore(pieces: seq<seq<Sent>>, last: seq<Sent>)
    ensures Flatten(pieces + [last]) == Flatten(pieces) + last
  {
    assert (pieces + [last])[..|pieces|] == pieces;
  }

  /**
   For every accepted history: what is sent is, message by message and in order, what each message says, under its own
   role, with its text, parts, calls, thinking, results and error flags.
   */
  lemma {:induction false} HistoryIsSent(ms: seq<Message>) returns (pieces: seq<seq<Sent>>)
    requires ConvertHistory(ms).Ok?
    ensures |pieces| == |ms| && IntoWires(ConvertHistory(ms).value.wire) == Flatten(pieces)
    ensures forall i | 0 <= i < |ms| :: Conveys(ms[i], pieces[i])
  {
    hide *;
    pieces := [];
    if ms == [] {
      NothingIsSent();
    } else {
      var n := |ms| - 1;
      LastConverted(ms);
      var front := HistoryIsSent(ms[..n]);
      var before := ConvertHistory(ms[..n]).value;
      MessageIsConveyed(ms[n], before.pending);
      var last := ConvertMessage(ms[n], before.pending).value.wire;
      IntoWiresConcat(before.wire, last);
      FlattenMore(front, IntoWires(last));
      pieces := front + [IntoWires(last)];
      forall i | 0 <= i < |ms| ensures Conveys(ms[i], pieces[i]) {
        if i < n {
          assert pieces[i] == front[i] && ms[i] == ms[..n][i];
        }
      }
    }
  }

  lemma AcceptedIsSent(ms: seq<Message>)
    requires ConvertHistory(ms).Ok?
    ensures Tells(ms, IntoWires(ConvertHistory(ms).value.wire))
  {
    hide ConvertHistory, IntoWires, Flatten, Conveys;
    var pieces := HistoryIsSent(ms);
  }
}
