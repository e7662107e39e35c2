/**
 Historical reasoning is dropped twice: from the Anthropic request when tokens are
 counted, and from the wire messages when the request is sent. This module shows when
 the two drop the same reasoning.
 */
module Epoch {
  import opened Prelude
  import opened Fidelity
  import opened History

  // ---- the Anthropic side ----

  predicate Human(m: Message) {
    m.role.User? && match m.content
                    case Str(text) => text != ""
                    case Blocks(bs) => exists i | 0 <= i < |bs| :: !bs[i].ToolResult?
                    case OtherContent => false
  }

  /** Position of the newest human message; the length when there is none. */
  function Boundary(ms: seq<Message>): (b: nat)
    ensures b <= |ms|
    ensures b < |ms| ==> Human(ms[b])
    ensures forall i | 0 <= i < |ms| && Human(ms[i]) :: i <= b < |ms|
  {
    BoundaryFrom(ms, |ms|)
  }

  function BoundaryFrom(ms: seq<Message>, n: nat): (b: nat)
    requires n <= |ms| && forall i | n <= i < |ms| :: !Human(ms[i])
    ensures b <= |ms|
    ensures b < |ms| ==> Human(ms[b])
    ensures forall i | 0 <= i < |ms| && Human(ms[i]) :: i <= b < |ms|
  {
    if n == 0 then |ms| else if Human(ms[n - 1]) then n - 1 else BoundaryFrom(ms, n - 1)
  }

  function WithoutThinking(blocks: seq<Block>): (r: seq<Block>)
    ensures |r| <= |blocks|
  {
    if blocks == [] then []
    else
      var before, b := WithoutThinking(blocks[..|blocks| - 1]), blocks[|blocks| - 1];
      if b.ThinkingBlock? then before else before + [b]
  }

  function StripMessage(m: Message): Message {
    if m.role.Assistant? && m.content.Blocks? then m.(content := Blocks(WithoutThinking(m.content.blocks))) else m
  }

  /** Thinking removed from the messages before position `b`. */
  function StripBelow(ms: seq<Message>, b: nat): (r: seq<Message>)
    ensures |r| == |ms|
    ensures forall i | 0 <= i < |ms| :: r[i] == if i < b then StripMessage(ms[i]) else ms[i]
  {
    seq(|ms|, i requires 0 <= i < |ms| => if i < b then StripMessage(ms[i]) else ms[i])
  }

  function StripHistory(ms: seq<Message>): seq<Message> {
    StripBelow(ms, Boundary(ms))
  }

  // ---- the wire side ----

  predicate WireUser(w: Wire) {
    w.WUser? && w.role.User?
  }

  function WireBoundaryFrom(ws: seq<Wire>, n: nat): (b: nat)
    requires n <= |ws| && forall i | n <= i < |ws| :: !WireUser(ws[i])
    ensures b <= |ws|
    ensures b < |ws| ==> WireUser(ws[b])
    ensures forall i | 0 <= i < |ws| && WireUser(ws[i]) :: i <= b < |ws|
  {
    if n == 0 then |ws| else if WireUser(ws[n - 1]) then n - 1 else WireBoundaryFrom(ws, n - 1)
  }

  /** Position of the newest `user` wire message; the length when there is none. */
  function WireBoundary(ws: seq<Wire>): (b: nat)
    ensures b <= |ws|
    ensures b < |ws| ==> WireUser(ws[b])
    ensures forall i | 0 <= i < |ws| && WireUser(ws[i]) :: i <= b < |ws|
  {
    WireBoundaryFrom(ws, |ws|)
  }

  function StripWire(w: Wire): Wire {
    if w.WAssistant? then w.(reasoning := "") else w
  }

  function StripWireBelow(ws: seq<Wire>, b: nat): (r: seq<Wire>)
    ensures |r| == |ws|
    ensures forall i | 0 <= i < |ws| :: r[i] == if i < b then StripWire(ws[i]) else ws[i]
  {
    seq(|ws|, i requires 0 <= i < |ws| => if i < b then StripWire(ws[i]) else ws[i])
  }

  function StripWireHistory(ws: seq<Wire>): seq<Wire> {
    StripWireBelow(ws, WireBoundary(ws))
  }

  // ---- one assistant message without server tools ----

  predicate NoServerBlocks(blocks: seq<Block>) {
    forall i | 0 <= i < |blocks| :: !blocks[i].ServerToolUse? && !blocks[i].SearchResult?
  }

  predicate NoServerTools(ms: seq<Message>) {
    forall i | 0 <= i < |ms| :: ms[i].content.Blocks? ==> NoServerBlocks(ms[i].content.blocks)
  }

  lemma {:induction false} ScanWithoutServer(blocks: seq<Block>)
    requires NoServerBlocks(blocks) && AssistantScan(blocks).Ok?
    ensures var a := AssistantScan(blocks).value;
            && a.output == [] && a.serverCalls == [] && a.uses == {} && a.answered == {}
            && a.segment == Segment(Texts(blocks), Calls(blocks), Thoughts(blocks))
  {
    if blocks != [] {
      ScanWithoutServer(blocks[..|blocks| - 1]);
    }
  }

  /** Without server tools an assistant message is one wire message: its texts, its calls, its thoughts. */
  lemma AssistantIsOneMessage(blocks: seq<Block>)
    requires NoServerBlocks(blocks) && ConvertAssistant(blocks).Ok?
    ensures ConvertAssistant(blocks).value.wire == [WAssistant(Texts(blocks), Calls(blocks), Thoughts(blocks))]
  {
    ScanWithoutServer(blocks);
  }

  // ---- one assistant message, server tools included ----

  /** The blocks after the last search: what the conversion holds in its open segment. */
  function Tail(blocks: seq<Block>): seq<Block> {
    if blocks == [] then []
    else
      var b := blocks[|blocks| - 1];
      if b.ServerToolUse? then [] else Tail(blocks[..|blocks| - 1]) + [b]
  }

  /** A segment that says nothing once its thinking is gone, but has some. */
  predicate Hollow(segment: seq<Block>) {
    Texts(segment) == [] && Calls(segment) == [] && Thoughts(segment) != ""
  }

  /** A segment that ends at a search is hollow. */
  predicate HollowBefore(blocks: seq<Block>) {
    exists j | 0 <= j < |blocks| :: blocks[j].ServerToolUse? && Hollow(Tail(blocks[..j]))
  }

  predicate Searches(blocks: seq<Block>) {
    exists i | 0 <= i < |blocks| :: blocks[i].ServerToolUse?
  }

  /**
   Searches cut the message into segments, and one of them is hollow: on the wire it is a message of its own, which
   stays behind empty when reasoning is removed there, and never comes about when thinking is removed first.
   */
  predicate SplitsOff(blocks: seq<Block>) {
    Searches(blocks) && (HollowBefore(blocks) || Hollow(Tail(blocks)))
  }

  predicate EmptyHead(w: Wire) {
    w.WAssistant? && w.content == [] && w.calls == []
  }

  /** Wire messages without their reasoning, and without those that held nothing else. */
  function Rest(ws: seq<Wire>): (r: seq<Wire>)
    ensures |r| <= |ws|
  {
    if ws == [] then []
    else
      var last := ws[|ws| - 1];
      Rest(ws[..|ws| - 1]) + if EmptyHead(last) then [] else [StripWire(last)]
  }

  lemma RestOneMore(ws: seq<Wire>, w: Wire)
    ensures Rest(ws + [w]) == Rest(ws) + if EmptyHead(w) then [] else [StripWire(w)]
  {
    assert (ws + [w])[..|ws|] == ws;
  }

  lemma {:induction false} RestIsWhole(ws: seq<Wire>)
    requires |Rest(ws)| == |ws|
    ensures Rest(ws) == StripWireBelow(ws, |ws|)
  {
    if ws != [] {
      var n := |ws| - 1;
      RestIsWhole(ws[..n]);
      assert StripWireBelow(ws, |ws|) == StripWireBelow(ws[..n], n) + [StripWire(ws[n])];
    }
  }

  /** How the scan of the blocks without thinking stands to the scan of all of them. */
  ghost predicate Shadows(a: AState, r: AState, blocks: seq<Block>) {
    && r == a.(output := Rest(a.output), segment := a.segment.(reasoning := ""))
    && a.segment == Saying(blocks)
    && (|Rest(a.output)| < |a.output| <==> HollowBefore(blocks))
    && (if Searches(blocks) then a.serverCalls != [] || Rest(a.output) != []
        else a.serverCalls == [] && a.output == [] && a.uses == {} && Tail(blocks) == blocks)
  }

  /** What the open segment says, read off the blocks since the last search. */
  function Saying(blocks: seq<Block>): Segment {
    Segment(Texts(Tail(blocks)), Calls(Tail(blocks)), Thoughts(Tail(blocks)))
  }

  /** A segment with one more block that is neither a search nor a result. */
  function SaidMore(s: Segment, b: Block): Segment {
    Segment(s.content + AddedText(b), s.calls + (if b.ToolUse? then [Call(b.id, b.name, b.input)] else []), s.reasoning + AddedThoughts(b))
  }

  lemma SayingOneMore(before: seq<Block>, b: Block)
    ensures Saying(before + [b]) == if b.ServerToolUse? then NO_SEGMENT else SaidMore(Saying(before), b)
    ensures Tail(before + [b]) == if b.ServerToolUse? then [] else Tail(before) + [b]
  {
    assert (before + [b])[..|before|] == before;
    var t := Tail(before);
    assert (t + [b])[..|t|] == t;
    assert Texts([]) == [] && Calls([]) == [] && Thoughts([]) == "";
  }

  lemma SearchesOneMore(before: seq<Block>, b: Block)
    ensures Searches(before + [b]) <==> Searches(before) || b.ServerToolUse?
  {
    var more := before + [b];
    assert more[|before|] == b;
    assert forall i | 0 <= i < |before| :: more[i] == before[i];
  }

  lemma HollowOneMore(before: seq<Block>, b: Block)
    ensures HollowBefore(before + [b]) <==> HollowBefore(before) || (b.ServerToolUse? && Hollow(Tail(before)))
  {
    hide Hollow, Tail;
    var more := before + [b];
    assert forall j | 0 <= j < |before| :: more[j] == before[j] && more[..j] == before[..j];
    assert more[|before|] == b && more[..|before|] == before;
  }

  lemma HollowSaying(blocks: seq<Block>)
    ensures Hollow(Tail(blocks)) <==> var s := Saying(blocks); s.content == [] && s.calls == [] && s.reasoning != ""
  {
  }

  lemma ServerUseStep(a: AState, r: AState, b: Block)
    requires r == a.(output := r.output, segment := a.segment.(reasoning := "")) && b.ServerToolUse?
    ensures AssistantStep(a, b).Ok? <==> AssistantStep(r, b).Ok?
    ensures AssistantStep(a, b).Ok? ==>
              var n, m := AssistantStep(a, b).value, AssistantStep(r, b).value;
              && m == n.(output := m.output) && n.segment == NO_SEGMENT && n.serverCalls != []
              && n.output == Flush(a).output && m.output == Flush(r).output
  {
  }

  lemma FlushRest(a: AState, r: AState)
    requires r == a.(output := Rest(a.output), segment := a.segment.(reasoning := ""))
    ensures Flush(r).output == Rest(Flush(a).output)
    ensures |Rest(Flush(a).output)| < |Flush(a).output|
       <==> |Rest(a.output)| < |a.output| || (a.segment.content == [] && a.segment.calls == [] && a.segment.reasoning != "")
  {
    RestOneMore(a.output, WAssistant(a.segment.content, a.segment.calls, a.segment.reasoning));
    hide Rest;
  }

  lemma ShadowsServerUse(a: AState, r: AState, before: seq<Block>, b: Block)
    requires Shadows(a, r, before) && b.ServerToolUse?
    ensures AssistantStep(a, b).Ok? <==> AssistantStep(r, b).Ok?
    ensures AssistantStep(a, b).Ok? ==> Shadows(AssistantStep(a, b).value, AssistantStep(r, b).value, before + [b])
  {
    hide AssistantStep, Flush, Rest, HollowBefore, Searches, Saying, Tail, Hollow;
    ServerUseStep(a, r, b);
    FlushRest(a, r);
    SayingOneMore(before, b);
    SearchesOneMore(before, b);
    HollowOneMore(before, b);
    HollowSaying(before);
  }

  lemma ResultStep(a: AState, r: AState, b: Block)
    requires r == a.(output := Rest(a.output), segment := a.segment.(reasoning := "")) && b.SearchResult?
    ensures AssistantStep(a, b).Ok? <==> AssistantStep(r, b).Ok?
    ensures AssistantStep(a, b).Ok? ==>
              var n, m := AssistantStep(a, b).value, AssistantStep(r, b).value;
              && b.toolUseId in a.uses && m == n.(output := Rest(n.output), segment := n.segment.(reasoning := ""))
              && n.segment == a.segment && Rest(n.output) != [] && (|Rest(n.output)| < |n.output| <==> |Rest(a.output)| < |a.output|)
  {
    RestOneMore(a.output, WAssistant([], a.serverCalls, ""));
    RestOneMore(FlushServerCalls(a).output, WTool(b.toolUseId, PlainContent(b.rendered), None));
    hide Rest;
  }

  lemma ShadowsResult(a: AState, r: AState, before: seq<Block>, b: Block)
    requires Shadows(a, r, before) && b.SearchResult?
    ensures AssistantStep(a, b).Ok? <==> AssistantStep(r, b).Ok?
    ensures AssistantStep(a, b).Ok? ==> Shadows(AssistantStep(a, b).value, AssistantStep(r, b).value, before + [b])
  {
    hide AssistantStep, Rest, HollowBefore, Searches, Saying, Tail;
    ResultStep(a, r, b);
    SayingOneMore(before, b);
    SearchesOneMore(before, b);
    HollowOneMore(before, b);
    AppendNothing(Saying(before).content, Saying(before).reasoning, []);
    assert Saying(before).calls + [] == Saying(before).calls;
  }

  lemma PlainStep(a: AState, r: AState, b: Block)
    requires r == a.(output := r.output, segment := a.segment.(reasoning := "")) && !b.SearchResult? && !b.ServerToolUse?
    ensures AssistantStep(a, b).Ok? <==> AssistantStep(r, b).Ok?
    ensures AssistantStep(a, b).Ok? ==>
              var n, m := AssistantStep(a, b).value, AssistantStep(r, b).value;
              && n == a.(pending := n.pending, segment := SaidMore(a.segment, b))
              && (if b.ThinkingBlock? then n.pending == a.pending else m == n.(output := r.output, segment := n.segment.(reasoning := "")))
    ensures b.ThinkingBlock? ==> AssistantStep(a, b).Ok?
  {
    assert a.segment.content + [] == a.segment.content && a.segment.calls + [] == a.segment.calls && a.segment.reasoning + "" == a.segment.reasoning;
  }

  lemma ShadowsPlain(a: AState, r: AState, before: seq<Block>, b: Block)
    requires Shadows(a, r, before) && !b.SearchResult? && !b.ServerToolUse?
    ensures AssistantStep(a, b).Ok? <==> AssistantStep(r, b).Ok?
    ensures b.ThinkingBlock? ==> AssistantStep(a, b).Ok?
    ensures AssistantStep(a, b).Ok? ==>
              Shadows(AssistantStep(a, b).value, if b.ThinkingBlock? then r else AssistantStep(r, b).value, before + [b])
  {
    hide AssistantStep, Rest, HollowBefore, Searches, Saying, Tail;
    PlainStep(a, r, b);
    SayingOneMore(before, b);
    SearchesOneMore(before, b);
    HollowOneMore(before, b);
    if b.ThinkingBlock? {
      assert a.segment.content + [] == a.segment.content && a.segment.calls + [] == a.segment.calls;
    }
  }

  /** Scanning without the thinking blocks accepts the same messages, and shadows the full scan. */
  lemma {:induction false} ScanShadows(blocks: seq<Block>)
    ensures AssistantScan(WithoutThinking(blocks)).Ok? <==> AssistantScan(blocks).Ok?
    ensures AssistantScan(blocks).Ok? ==> Shadows(AssistantScan(blocks).value, AssistantScan(WithoutThinking(blocks)).value, blocks)
  {
    if blocks != [] {
      var before, b := blocks[..|blocks| - 1], blocks[|blocks| - 1];
      var rest := WithoutThinking(before);
      assert blocks == before + [b] && (rest + [b])[..|rest|] == rest;
      ScanShadows(before);
      LastScanned(blocks);
      LastScanned(rest + [b]);
      assert WithoutThinking(blocks) == if b.ThinkingBlock? then rest else rest + [b];
      hide *;
      if AssistantScan(before).Ok? {
        var a, r := AssistantScan(before).value, AssistantScan(rest).value;
        if b.ServerToolUse? {
          ShadowsServerUse(a, r, before, b);
        } else if b.SearchResult? {
          ShadowsResult(a, r, before, b);
        } else {
          ShadowsPlain(a, r, before, b);
        }
      }
    }
  }

  /**
   Dropping the thinking blocks before conversion and dropping the reasoning after it give the same wire messages if
   and only if nothing splits off; otherwise the first gives fewer. Acceptance and declared ids never change.
   */
  lemma StripAssistantCommutes(blocks: seq<Block>)
    ensures ConvertAssistant(WithoutThinking(blocks)).Ok? <==> ConvertAssistant(blocks).Ok?
    ensures ConvertAssistant(blocks).Ok? ==>
              var c, d := ConvertAssistant(blocks).value, ConvertAssistant(WithoutThinking(blocks)).value;
              && d.pending == c.pending
              && (if SplitsOff(blocks) then |d.wire| < |c.wire| else d.wire == StripWireBelow(c.wire, |c.wire|))
  {
    ScanShadows(blocks);
    if AssistantScan(blocks).Ok? {
      var a, r := AssistantScan(blocks).value, AssistantScan(WithoutThinking(blocks)).value;
      if ConvertAssistant(blocks).Ok? {
        EndShadows(a, r, blocks);
      }
    }
  }

  lemma EndShadows(a: AState, r: AState, blocks: seq<Block>)
    requires Shadows(a, r, blocks) && AssistantEnd(a).Ok?
    ensures AssistantEnd(r).Ok?
    ensures var c, d := AssistantEnd(a).value, AssistantEnd(r).value;
            && d.pending == c.pending
            && (if SplitsOff(blocks) then |d.wire| < |c.wire| else d.wire == StripWireBelow(c.wire, |c.wire|))
  {
    hide HollowBefore, Searches, Saying, Tail, Rest, StripWireBelow;
    FlushRest(a, r);
    HollowSaying(blocks);
    if Searches(blocks) {
      SearchedEnd(a, r);
    } else {
      AloneEnd(a, r, blocks);
    }
  }

  lemma SearchedEnd(a: AState, r: AState)
    requires AssistantEnd(a).Ok? && r == a.(output := Rest(a.output), segment := a.segment.(reasoning := "")) && Rest(a.output) != []
    requires Flush(r).output == Rest(Flush(a).output)
    ensures AssistantEnd(r).Ok? && AssistantEnd(r).value.pending == AssistantEnd(a).value.pending
    ensures var f := Flush(a).output;
            && AssistantEnd(a).value.wire == f && AssistantEnd(r).value.wire == Rest(f)
            && (|Rest(f)| == |f| ==> Rest(f) == StripWireBelow(f, |f|))
  {
    var f := Flush(a).output;
    RestOneMore(a.output, WAssistant(a.segment.content, a.segment.calls, a.segment.reasoning));
    assert a.output != [] by { assert |Rest(a.output)| <= |a.output|; }
    assert Rest(f) != [];
    if |Rest(f)| == |f| {
      RestIsWhole(f);
    }
    hide Rest, StripWireBelow;
  }

  lemma AloneEnd(a: AState, r: AState, blocks: seq<Block>)
    requires AssistantEnd(a).Ok? && a.output == [] && r == a.(output := [], segment := a.segment.(reasoning := ""))
    ensures AssistantEnd(r).Ok? && AssistantEnd(r).value.pending == AssistantEnd(a).value.pending
    ensures var c, d := AssistantEnd(a).value, AssistantEnd(r).value; d.wire == StripWireBelow(c.wire, |c.wire|)
  {
    var said := WAssistant(a.segment.content, a.segment.calls, a.segment.reasoning);
    assert AssistantEnd(a).value.wire == [said];
    assert AssistantEnd(r).value.wire == [StripWire(said)];
  }

  // ---- whole histories ----

  lemma {:induction false} UserWire(blocks: seq<Block>, declared: set<string>)
    requires UserScan(blocks, declared).Ok?
    ensures var u := UserScan(blocks, declared).value;
            && (forall i | 0 <= i < |u.output| :: u.output[i].WTool?)
            && (u.ordinary == [] <==> OnlyResults(blocks))
            && (blocks != [] && u.ordinary == [] ==> u.output != [])
  {
    if blocks != [] {
      UserWire(blocks[..|blocks| - 1], declared);
      assert blocks == blocks[..|blocks| - 1] + [blocks[|blocks| - 1]];
      OneMoreResult(blocks[..|blocks| - 1], blocks[|blocks| - 1], "");
    }
  }

  /** Does the message put a `user` message on the wire? Every human one does; so does an empty one. */
  predicate SpeaksOnWire(m: Message) {
    m.role.User? && (m.content.Blocks? ==> m.content.blocks == [] || !OnlyResults(m.content.blocks))
  }

  lemma {:induction false} AssistantWire(blocks: seq<Block>)
    requires AssistantScan(blocks).Ok?
    ensures forall i | 0 <= i < |AssistantScan(blocks).value.output| :: !AssistantScan(blocks).value.output[i].WUser?
  {
    if blocks != [] {
      var n := |blocks| - 1;
      AssistantWire(blocks[..n]);
      LastScanned(blocks);
      hide AssistantScan;
      StepWire(AssistantScan(blocks[..n]).value, blocks[n]);
    }
  }

  lemma StepWire(a: AState, b: Block)
    requires AssistantStep(a, b).Ok? && forall i | 0 <= i < |a.output| :: !a.output[i].WUser?
    ensures forall i | 0 <= i < |AssistantStep(a, b).value.output| :: !AssistantStep(a, b).value.output[i].WUser?
  {
  }

  lemma MessageOnWire(m: Message, declared: set<string>)
    requires ConvertMessage(m, declared).Ok?
    ensures var ws := ConvertMessage(m, declared).value.wire;
            if SpeaksOnWire(m) then
              && ws != [] && WireUser(ws[|ws| - 1]) && forall i | 0 <= i < |ws| :: !ws[i].WAssistant?
            else
              && (forall i | 0 <= i < |ws| :: !WireUser(ws[i]))
              && (!m.role.Assistant? ==> forall i | 0 <= i < |ws| :: !ws[i].WAssistant?)
              && (m.role.Assistant? && !m.content.Blocks? ==> forall i | 0 <= i < |ws| :: !ws[i].WAssistant?)
  {
    if m.content.Blocks? {
      if m.role.User? {
        UserWire(m.content.blocks, declared);
      } else if m.role.Assistant? {
        AssistantWire(m.content.blocks);
      }
    }
  }

  /** A search cuts thinking off from everything else the message says. */
  predicate Splits(m: Message) {
    m.role.Assistant? && m.content.Blocks? && SplitsOff(m.content.blocks)
  }

  lemma StripMessageCommutes(m: Message, declared: set<string>)
    ensures ConvertMessage(StripMessage(m), declared).Ok? <==> ConvertMessage(m, declared).Ok?
    ensures ConvertMessage(m, declared).Ok? ==>
              var c, d := ConvertMessage(m, declared).value, ConvertMessage(StripMessage(m), declared).value;
              && d.pending == c.pending
              && (if Splits(m) then |d.wire| < |c.wire| else d.wire == StripWireBelow(c.wire, |c.wire|))
  {
    if m.role.Assistant? && m.content.Blocks? {
      StripAssistantCommutes(m.content.blocks);
    } else if ConvertMessage(m, declared).Ok? {
      MessageOnWire(m, declared);
      var c := ConvertMessage(m, declared).value;
      assert StripWireBelow(c.wire, |c.wire|) == c.wire;
    }
  }

  lemma LastMessage(ms: seq<Message>)
    requires ms != []
    ensures var n := |ms| - 1; var before := ConvertHistory(ms[..n]);
            if before.Err? then ConvertHistory(ms).Err?
            else
              var last := ConvertMessage(ms[n], before.value.pending);
              if last.Err? then ConvertHistory(ms).Err?
              else ConvertHistory(ms) == Ok(Converted(before.value.wire + last.value.wire, last.value.pending))
  {
    hide ConvertMessage;
  }

  lemma StripWireConcat(a: seq<Wire>, b: seq<Wire>, w: nat)
    ensures StripWireBelow(a + b, |a + b|) == StripWireBelow(a, |a|) + StripWireBelow(b, |b|)
    ensures w <= |a| ==> StripWireBelow(a + b, w) == StripWireBelow(a, w) + b
  {
    hide StripWire;
  }

  lemma StripBelowLast(ms: seq<Message>, b: nat)
    requires ms != [] && b <= |ms|
    ensures var n := |ms| - 1; var s := StripBelow(ms, b);
            && s[..n] == StripBelow(ms[..n], if b <= n then b else n)
            && s[n] == if b <= n then ms[n] else StripMessage(ms[n])
  {
    hide StripMessage;
  }

  /** The first `b` messages stripped: what their history converts to. */
  predicate StripsAlike(ms: seq<Message>, b: nat)
    requires b <= |ms|
  {
    && ConvertHistory(ms).Ok? && ConvertHistory(ms[..b]).Ok?
    && |ConvertHistory(ms[..b]).value.wire| <= |ConvertHistory(ms).value.wire|
    && var c := ConvertHistory(ms).value;
       ConvertHistory(StripBelow(ms, b)) == Ok(Converted(StripWireBelow(c.wire, |ConvertHistory(ms[..b]).value.wire|), c.pending))
  }

  lemma StripNone()
    ensures StripsAlike([], 0)
  {
    var none: seq<Message> := [];
    assert none[..0] == [];
  }

  lemma StripLast(ms: seq<Message>)
    requires ms != [] && !Splits(ms[|ms| - 1]) && ConvertHistory(ms).Ok? && StripsAlike(ms[..|ms| - 1], |ms| - 1)
    ensures StripsAlike(ms, |ms|)
  {
    var n := |ms| - 1;
    var before := ConvertHistory(ms[..n]).value;
    assert ms[..|ms|] == ms && ms[..n][..n] == ms[..n];
    hide ConvertHistory, StripBelow, StripWireBelow, ConvertMessage, Splits;
    LastMessage(ms);
    LastMessage(StripBelow(ms, |ms|));
    StripBelowLast(ms, |ms|);
    StripMessageCommutes(ms[n], before.pending);
    StripWireConcat(before.wire, ConvertMessage(ms[n], before.pending).value.wire, 0);
  }

  lemma KeepLast(ms: seq<Message>, b: nat)
    requires ms != [] && b < |ms| && ConvertHistory(ms).Ok? && StripsAlike(ms[..|ms| - 1], b)
    ensures StripsAlike(ms, b)
  {
    var n := |ms| - 1;
    var before := ConvertHistory(ms[..n]).value;
    assert ms[..n][..b] == ms[..b];
    hide ConvertHistory, StripBelow, StripWireBelow, ConvertMessage;
    LastMessage(ms);
    LastMessage(StripBelow(ms, b));
    StripBelowLast(ms, b);
    StripWireConcat(before.wire, ConvertMessage(ms[n], before.pending).value.wire, |ConvertHistory(ms[..b]).value.wire|);
  }

  predicate NoneSplits(ms: seq<Message>, b: nat)
    requires b <= |ms|
  {
    forall i | 0 <= i < b :: !Splits(ms[i])
  }

  /** Stripping the first `b` messages, none of which splits, is stripping the wire messages they turn into. */
  lemma {:induction false} StripBelowCommutes(ms: seq<Message>, b: nat)
    requires b <= |ms| && NoneSplits(ms, b) && ConvertHistory(ms).Ok?
    ensures StripsAlike(ms, b)
  {
    if ms == [] {
      StripNone();
    } else {
      var n := |ms| - 1;
      LastMessage(ms);
      assert NoneSplits(ms[..n], if b <= n then b else n);
      assert b == |ms| ==> !Splits(ms[n]);
      hide *;
      if b == |ms| {
        StripBelowCommutes(ms[..n], n);
        StripLast(ms);
      } else {
        StripBelowCommutes(ms[..n], b);
        KeepLast(ms, b);
      }
    }
  }

  lemma NoneSplitsPrefix(ms: seq<Message>, b: nat)
    requires ms != [] && b <= |ms|
    ensures var n := |ms| - 1; NoneSplits(ms, b) <==> NoneSplits(ms[..n], if b <= n then b else n) && (b > n ==> !Splits(ms[n]))
  {
    hide Splits;
  }

  /** Whatever is stripped, the history stays accepted and gives no more wire messages; fewer if a stripped message splits. */
  lemma {:induction false} StripBelowShortens(ms: seq<Message>, b: nat)
    requires b <= |ms| && ConvertHistory(ms).Ok?
    ensures ConvertHistory(StripBelow(ms, b)).Ok?
    ensures var c, d := ConvertHistory(ms).value, ConvertHistory(StripBelow(ms, b)).value;
            && d.pending == c.pending && |d.wire| <= |c.wire|
            && (!NoneSplits(ms, b) ==> |d.wire| < |c.wire|)
  {
    if ms == [] {
      assert StripBelow(ms, b) == [];
    } else {
      var n := |ms| - 1;
      var b' := if b <= n then b else n;
      LastMessage(ms);
      LastMessage(StripBelow(ms, b));
      StripBelowLast(ms, b);
      NoneSplitsPrefix(ms, b);
      hide *;
      StripBelowShortens(ms[..n], b');
      StripMessageCommutes(ms[n], ConvertHistory(ms[..n]).value.pending);
    }
  }

  /** Position of the newest message that puts a `user` message on the wire. */
  function SpokenBoundary(ms: seq<Message>): (b: nat)
    ensures b <= |ms|
    ensures b < |ms| ==> SpeaksOnWire(ms[b])
    ensures forall i | 0 <= i < |ms| && SpeaksOnWire(ms[i]) :: i <= b < |ms|
  {
    if ms == [] then 0
    else if SpeaksOnWire(ms[|ms| - 1]) then |ms| - 1
    else
      var b := SpokenBoundary(ms[..|ms| - 1]);
      if b == |ms| - 1 then |ms| else b
  }

  /** Between the first `w` wire messages and the wire boundary there are no assistant messages. */
  predicate BoundaryPast(ws: seq<Wire>, w: nat) {
    w <= WireBoundary(ws) && forall i | w <= i < WireBoundary(ws) :: !ws[i].WAssistant?
  }

  /** The wire boundary lies inside what the newest speaking message turned into, past only tool results. */
  lemma {:induction false} WireBoundaryIsSpoken(ms: seq<Message>)
    requires ConvertHistory(ms).Ok?
    ensures ConvertHistory(ms[..SpokenBoundary(ms)]).Ok?
    ensures BoundaryPast(ConvertHistory(ms).value.wire, |ConvertHistory(ms[..SpokenBoundary(ms)]).value.wire|)
  {
    var b := SpokenBoundary(ms);
    if ms == [] {
      assert ms[..b] == ms;
    } else {
      var n := |ms| - 1;
      LastMessage(ms);
      hide ConvertHistory, ConvertMessage, BoundaryPast, SpeaksOnWire;
      var before := ConvertHistory(ms[..n]).value;
      var last := ConvertMessage(ms[n], before.pending).value.wire;
      MessageOnWire(ms[n], before.pending);
      if SpeaksOnWire(ms[n]) {
        SpokenLast(before.wire, last);
      } else {
        WireBoundaryIsSpoken(ms[..n]);
        var b' := SpokenBoundary(ms[..n]);
        if b' == n {
          assert ms[..n][..b'] == ms[..n] && ms[..b] == ms;
          NoSpeakerNoUser(ms[..n]);
          UnspokenBoundary(before.wire + last);
        } else {
          assert ms[..n][..b'] == ms[..b'];
          SpeakerOnWire(ms[..n], b');
          BoundaryShift(before.wire, last);
          PastShift(before.wire, last, |ConvertHistory(ms[..b']).value.wire|);
        }
      }
    }
  }

  lemma SpokenLast(ws: seq<Wire>, last: seq<Wire>)
    requires last != [] && WireUser(last[|last| - 1]) && forall i | 0 <= i < |last| :: !last[i].WAssistant?
    ensures BoundaryPast(ws + last, |ws|)
  {
    var all := ws + last;
    assert WireUser(all[|all| - 1]);
    assert forall i | |ws| <= i < |all| :: all[i] == last[i - |ws|];
  }

  lemma UnspokenBoundary(ws: seq<Wire>)
    requires forall i | 0 <= i < |ws| :: !WireUser(ws[i])
    ensures BoundaryPast(ws, |ws|)
  {
  }

  lemma PastShift(ws: seq<Wire>, more: seq<Wire>, w: nat)
    requires BoundaryPast(ws, w) && WireBoundary(ws + more) == WireBoundary(ws)
    ensures BoundaryPast(ws + more, w)
  {
    assert forall i | 0 <= i < |ws| :: (ws + more)[i] == ws[i];
  }

  lemma BoundaryShift(ws: seq<Wire>, more: seq<Wire>)
    requires forall i | 0 <= i < |more| :: !WireUser(more[i])
    requires WireBoundary(ws) < |ws|
    ensures WireBoundary(ws + more) == WireBoundary(ws)
  {
    var all := ws + more;
    assert WireUser(all[WireBoundary(ws)]);
    assert forall i | |ws| <= i < |all| :: all[i] == more[i - |ws|];
  }

  lemma {:induction false} NoSpeakerNoUser(ms: seq<Message>)
    requires ConvertHistory(ms).Ok? && forall i | 0 <= i < |ms| :: !SpeaksOnWire(ms[i])
    ensures forall i | 0 <= i < |ConvertHistory(ms).value.wire| :: !WireUser(ConvertHistory(ms).value.wire[i])
  {
    if ms != [] {
      NoSpeakerNoUser(ms[..|ms| - 1]);
      MessageOnWire(ms[|ms| - 1], ConvertHistory(ms[..|ms| - 1]).value.pending);
    }
  }

  lemma {:induction false} SpeakerOnWire(ms: seq<Message>, b: nat)
    requires ConvertHistory(ms).Ok? && b < |ms| && SpeaksOnWire(ms[b])
    ensures WireBoundary(ConvertHistory(ms).value.wire) < |ConvertHistory(ms).value.wire|
  {
    var n := |ms| - 1;
    var before := ConvertHistory(ms[..n]).value;
    var last := ConvertMessage(ms[n], before.pending).value;
    var ws := before.wire + last.wire;
    if b == n {
      MessageOnWire(ms[n], before.pending);
      assert WireUser(ws[|ws| - 1]);
    } else {
      SpeakerOnWire(ms[..n], b);
      assert WireUser(ws[WireBoundary(before.wire)]);
    }
  }

  /** The wire strip reaches exactly through the messages before the newest speaking one. */
  lemma WireStripIsSpokenStrip(ms: seq<Message>)
    requires ConvertHistory(ms).Ok?
    ensures ConvertHistory(ms[..SpokenBoundary(ms)]).Ok?
    ensures var ws, w := ConvertHistory(ms).value.wire, |ConvertHistory(ms[..SpokenBoundary(ms)]).value.wire|;
            w <= |ws| && StripWireHistory(ws) == StripWireBelow(ws, w)
  {
    WireBoundaryIsSpoken(ms);
    hide ConvertHistory;
  }

  // ---- the commuting diagram ----

  predicate EveryUserMessageNonEmpty(ms: seq<Message>) {
    forall i | 0 <= i < |ms| && ms[i].role.User? :: ms[i].content != Str("") && ms[i].content != Blocks([])
  }

  // ---- exactly when it commutes ----

  predicate Thoughtful(m: Message) {
    m.role.Assistant? && m.content.Blocks? && Thoughts(m.content.blocks) != ""
  }

  predicate NoneThoughtful(ms: seq<Message>, lo: nat, hi: nat)
    requires hi <= |ms|
  {
    forall i | lo <= i < hi :: !Thoughtful(ms[i])
  }

  predicate Unreasoned(ws: seq<Wire>) {
    forall i | 0 <= i < |ws| :: StripWire(ws[i]) == ws[i]
  }

  lemma UnreasonedConcat(a: seq<Wire>, b: seq<Wire>)
    ensures Unreasoned(a + b) <==> Unreasoned(a) && Unreasoned(b)
  {
    var ws := a + b;
    assert forall i | 0 <= i < |a| :: ws[i] == a[i];
    assert forall i | 0 <= i < |b| :: ws[|a| + i] == b[i];
  }

  /** Reasoning on the wire past the first `b` messages comes from thoughtful messages past them. */
  lemma {:induction false} ReasoningComesFrom(ms: seq<Message>, b: nat)
    requires ConvertHistory(ms).Ok? && b <= |ms|
    ensures ConvertHistory(ms[..b]).Ok?
    ensures var ws := ConvertHistory(ms).value.wire; var w := |ConvertHistory(ms[..b]).value.wire|;
            w <= |ws| && (Unreasoned(ws[w..]) <==> NoneThoughtful(ms, b, |ms|))
  {
    hide Unreasoned, NoneThoughtful, ConvertMessage;
    var n := |ms| - 1;
    if b == |ms| {
      assert ms[..b] == ms;
      var ws := ConvertHistory(ms).value.wire;
      assert ws[|ws|..] == [];
      assert NoneThoughtful(ms, b, |ms|) && Unreasoned([]) by { NothingLeft(ms); }
    } else {
      ReasoningComesFrom(ms[..n], b);
      assert ms[..n][..b] == ms[..b];
      var before := ConvertHistory(ms[..n]).value.wire;
      var last := ConvertMessage(ms[n], ConvertHistory(ms[..n]).value.pending).value.wire;
      var w := |ConvertHistory(ms[..b]).value.wire|;
      assert ConvertHistory(ms).value.wire[w..] == before[w..] + last;
      MessageReasoning(ms[n], ConvertHistory(ms[..n]).value.pending);
      UnreasonedConcat(before[w..], last);
      NoneThoughtfulPrefix(ms, b, n);
    }
  }

  lemma NothingLeft(ms: seq<Message>)
    ensures NoneThoughtful(ms, |ms|, |ms|) && Unreasoned([])
  {
  }

  lemma {:induction false} UnreasonedIsSilent(ws: seq<Wire>)
    ensures Unreasoned(ws) <==> WireThoughts(ws) == ""
  {
    if ws != [] {
      var n := |ws| - 1;
      UnreasonedIsSilent(ws[..n]);
      UnreasonedConcat(ws[..n], [ws[n]]);
      assert ws == ws[..n] + [ws[n]];
      assert Unreasoned([ws[n]]) <==> StripWire(ws[n]) == ws[n];
    }
  }

  lemma MessageReasoning(m: Message, declared: set<string>)
    requires ConvertMessage(m, declared).Ok?
    ensures Unreasoned(ConvertMessage(m, declared).value.wire) <==> !Thoughtful(m)
  {
    if m.role.Assistant? && m.content.Blocks? {
      AssistantKeepsContent(m.content.blocks);
      UnreasonedIsSilent(ConvertMessage(m, declared).value.wire);
    } else {
      MessageOnWire(m, declared);
    }
  }

  lemma StripWireBelowSame(ws: seq<Wire>, v: nat, w: nat)
    requires v <= w <= |ws|
    ensures StripWireBelow(ws, v) == StripWireBelow(ws, w) <==> Unreasoned(ws[v..w])
  {
    var a, b := StripWireBelow(ws, v), StripWireBelow(ws, w);
    if a == b {
      forall i | 0 <= i < w - v ensures StripWire(ws[v..w][i]) == ws[v..w][i] {
        assert a[v + i] == b[v + i];
      }
    }
    if Unreasoned(ws[v..w]) {
      forall i | 0 <= i < |ws| ensures a[i] == b[i] {
        if v <= i < w {
          assert ws[v..w][i - v] == ws[i];
        }
      }
    }
  }

  /** Stripping the wire through two different messages is the same exactly when no thinking lies between them. */
  lemma WireStripsSameWhen(ms: seq<Message>, lo: nat, hi: nat)
    requires ConvertHistory(ms).Ok? && lo <= hi <= |ms|
    ensures ConvertHistory(ms[..lo]).Ok? && ConvertHistory(ms[..hi]).Ok?
    ensures var ws, v, w := ConvertHistory(ms).value.wire, |ConvertHistory(ms[..lo]).value.wire|, |ConvertHistory(ms[..hi]).value.wire|;
            v <= |ws| && w <= |ws| && (StripWireBelow(ws, v) == StripWireBelow(ws, w) <==> NoneThoughtful(ms, lo, hi))
  {
    hide ConvertHistory, StripWireBelow, Unreasoned, NoneThoughtful;
    PrefixWire(ms, hi);
    ReasoningComesFrom(ms[..hi], lo);
    assert ms[..hi][..lo] == ms[..lo];
    SameStrips(ConvertHistory(ms).value.wire, ConvertHistory(ms[..hi]).value.wire, |ConvertHistory(ms[..lo]).value.wire|);
    NoneThoughtfulPrefix(ms, lo, hi);
  }

  lemma SameStrips(ws: seq<Wire>, part: seq<Wire>, v: nat)
    requires part <= ws && v <= |part|
    ensures StripWireBelow(ws, v) == StripWireBelow(ws, |part|) <==> Unreasoned(part[v..])
  {
    hide Unreasoned, StripWireBelow;
    StripWireBelowSame(ws, v, |part|);
    assert ws[v..|part|] == part[v..];
  }

  lemma NoneThoughtfulPrefix(ms: seq<Message>, lo: nat, hi: nat)
    requires lo <= hi <= |ms|
    ensures NoneThoughtful(ms, lo, hi) <==> NoneThoughtful(ms[..hi], lo, hi)
    ensures hi < |ms| ==> (NoneThoughtful(ms, lo, hi + 1) <==> NoneThoughtful(ms, lo, hi) && !Thoughtful(ms[hi]))
  {
    hide Thoughtful;
    assert forall i | 0 <= i < hi :: ms[..hi][i] == ms[i];
  }

  lemma {:induction false} PrefixWire(ms: seq<Message>, n: nat)
    requires ConvertHistory(ms).Ok? && n <= |ms|
    ensures ConvertHistory(ms[..n]).Ok?
    ensures ConvertHistory(ms[..n]).value.wire <= ConvertHistory(ms).value.wire
  {
    if n == |ms| {
      assert ms[..n] == ms;
    } else {
      PrefixWire(ms[..|ms| - 1], n);
      assert ms[..|ms| - 1][..n] == ms[..n];
    }
  }

  /** No thinking lies between the newest human message and the newest user message that reaches the wire. */
  predicate SameEpoch(ms: seq<Message>) {
    var a, w := Boundary(ms), SpokenBoundary(ms);
    if a <= w then NoneThoughtful(ms, a, w) else NoneThoughtful(ms, w, a)
  }

  /**
   For every accepted history: counting on the stripped Anthropic history and sending the stripped wire history drop
   reasoning from the same turns if and only if no stripped assistant message has thinking cut off by a search, and
   no thinking lies between the two boundaries, which only an empty user message can separate. The stripped history
   is accepted in any case.
   */
  lemma StrippingCommutesExactlyWhen(ms: seq<Message>)
    requires ConvertHistory(ms).Ok?
    ensures ConvertHistory(StripHistory(ms)).Ok?
    ensures ConvertHistory(StripHistory(ms)).value.wire == StripWireHistory(ConvertHistory(ms).value.wire)
       <==> NoneSplits(ms, Boundary(ms)) && SameEpoch(ms)
  {
    var a, w := Boundary(ms), SpokenBoundary(ms);
    StripBelowShortens(ms, a);
    WireStripIsSpokenStrip(ms);
    assert StripHistory(ms) == StripBelow(ms, a);
    hide ConvertHistory, StripBelow, StripWireBelow, NoneThoughtful, NoneSplits, StripHistory;
    if NoneSplits(ms, a) {
      StripBelowCommutes(ms, a);
      if a <= w {
        WireStripsSameWhen(ms, a, w);
      } else {
        WireStripsSameWhen(ms, w, a);
      }
    }
  }

  lemma PlainNeverSplits(ms: seq<Message>, b: nat)
    requires b <= |ms| && NoServerTools(ms)
    ensures NoneSplits(ms, b)
  {
    forall i | 0 <= i < b ensures !Splits(ms[i]) {
      assert ms[i].content.Blocks? ==> NoServerBlocks(ms[i].content.blocks);
    }
  }

  /** In particular they commute when no user message is empty and no server tools occur. */
  lemma StrippingCommutes(ms: seq<Message>)
    requires NoServerTools(ms) && EveryUserMessageNonEmpty(ms) && ConvertHistory(ms).Ok?
    ensures NoneSplits(ms, Boundary(ms)) && SameEpoch(ms)
    ensures ConvertHistory(StripHistory(ms)).Ok?
    ensures ConvertHistory(StripHistory(ms)).value.wire == StripWireHistory(ConvertHistory(ms).value.wire)
  {
    PlainNeverSplits(ms, Boundary(ms));
    AcceptedIffValid(ms);
    assert forall i | 0 <= i < |ms| :: MessageValid(ms[i], Declared(ms, i));
    assert forall i | 0 <= i < |ms| :: SpeaksOnWire(ms[i]) <==> Human(ms[i]);
    assert SpokenBoundary(ms) == Boundary(ms);
    StrippingCommutesExactlyWhen(ms);
  }

  /** A plan and an answer, as an assistant message. */
  const PLANNED: seq<Block> := [PLAN, TextBlock("hi")]

  lemma PlannedIsValid()
    ensures AssistantValid(PLANNED) && Thoughts(PLANNED) == "plan"
  {
    OneMoreBlock([], PLAN);
    OneMoreBlock([PLAN], TextBlock("hi"));
    assert [] + [PLAN] == [PLAN] && [PLAN] + [TextBlock("hi")] == PLANNED;
    SoFarOneMore([], PLAN);
    SoFarOneMore([PLAN], TextBlock("hi"));
    NoBlocks();
    assert PLANNED[..1] == [PLAN] && [PLAN][..0] == [];
    assert Thoughts([PLAN]) == "" + "plan" == "plan" && Thoughts(PLANNED) == Thoughts([PLAN]) + "";
  }

  /** With an empty user message in between, the two paths do disagree. */
  lemma EmptyUserMessageSplitsTheEpoch()
    ensures var ms := [Message(User, Str("go")), Message(Assistant, Blocks(PLANNED)), Message(User, Str(""))];
            && ConvertHistory(ms).Ok? && NoServerTools(ms) && ConvertHistory(StripHistory(ms)).Ok?
            && ConvertHistory(StripHistory(ms)).value.wire != StripWireHistory(ConvertHistory(ms).value.wire)
  {
    var ms := [Message(User, Str("go")), Message(Assistant, Blocks(PLANNED)), Message(User, Str(""))];
    PlannedIsValid();
    assert HistoryValid(ms) by {
      assert MessageValid(ms[0], Declared(ms, 0)) && MessageValid(ms[1], Declared(ms, 1)) && MessageValid(ms[2], Declared(ms, 2));
    }
    AcceptedIffValid(ms);
    assert Human(ms[0]) && SpeaksOnWire(ms[2]);
    assert Boundary(ms) == 0 && SpokenBoundary(ms) == 2;
    assert Thoughtful(ms[1]);
    hide ConvertHistory, HistoryValid, AssistantValid, Thoughts;
    StrippingCommutesExactlyWhen(ms);
  }

  const PLAN: Block := ThinkingBlock(Some("plan"))
  const ASK: Block := ServerToolUse("s", "web_search", Some("{}"))
  const TOLD: Block := SearchResult("s", "r")

  lemma SearchIsValid()
    ensures AssistantValid([PLAN, ASK, TOLD])
  {
    OneMoreBlock([], PLAN);
    OneMoreBlock([PLAN], ASK);
    OneMoreBlock([PLAN, ASK], TOLD);
    assert [] + [PLAN] == [PLAN] && [PLAN] + [ASK] == [PLAN, ASK] && [PLAN, ASK] + [TOLD] == [PLAN, ASK, TOLD];
    SoFarOneMore([], PLAN);
    SoFarOneMore([PLAN], ASK);
    SoFarOneMore([PLAN, ASK], TOLD);
    hide Uses, Answers, AssistantSoFar;
    assert Uses([]) == {} && Answers([]) == {} && AssistantSoFar([]) by { NoBlocks(); }
  }

  lemma NoBlocks()
    ensures Uses([]) == {} && Answers([]) == {} && AssistantSoFar([])
  {
  }

  lemma SearchSplitsOff()
    ensures SplitsOff([PLAN, ASK, TOLD])
  {
    var bs := [PLAN, ASK, TOLD];
    assert bs[1] == ASK && bs[..1] == [PLAN] && [PLAN][..0] == [];
    PlanIsHollow();
    assert HollowBefore(bs);
  }

  lemma PlanIsHollow()
    ensures Tail([PLAN]) == [PLAN] && Hollow([PLAN])
  {
    assert [] + [PLAN] == [PLAN];
    SayingOneMore([], PLAN);
    NoThoughts();
    assert Texts([PLAN]) == [] && Calls([PLAN]) == [] && Thoughts([PLAN]) == Thoughts([PLAN][..0]) + "plan";
    assert |Thoughts([PLAN])| >= |"plan"|;
  }

  lemma NoThoughts()
    ensures Tail([]) == [] && Texts([]) == [] && Calls([]) == [] && Thoughts([]) == ""
  {
  }

  /**
   Thinking right before a search: an accepted history on which the two paths disagree. The wire keeps an empty
   assistant message where the counted request has none.
   */
  lemma SearchAfterThinkingSplits()
    ensures var ms := [Message(User, Str("go")), Message(Assistant, Blocks([PLAN, ASK, TOLD])), Message(User, Str("on"))];
            && ConvertHistory(ms).Ok? && ConvertHistory(StripHistory(ms)).Ok? && EveryUserMessageNonEmpty(ms)
            && ConvertHistory(StripHistory(ms)).value.wire != StripWireHistory(ConvertHistory(ms).value.wire)
  {
    var ms := [Message(User, Str("go")), Message(Assistant, Blocks([PLAN, ASK, TOLD])), Message(User, Str("on"))];
    SearchIsValid();
    SearchSplitsOff();
    assert HistoryValid(ms) by {
      assert MessageValid(ms[0], Declared(ms, 0)) && MessageValid(ms[1], Declared(ms, 1)) && MessageValid(ms[2], Declared(ms, 2));
    }
    AcceptedIffValid(ms);
    assert Human(ms[2]) && Boundary(ms) == 2 && Splits(ms[1]);
    hide ConvertHistory, SplitsOff, HistoryValid;
    StrippingCommutesExactlyWhen(ms);
  }
}
