/**
 The stream translator as functions on a value: the specification the class in
 `StreamState.dfy` is proved against, and the subject of the lemmas.
 */
module Translator {
  import opened Prelude
  import opened Protocol

  datatype BlockKind = Text | Thinking | Tool | Closed

  datatype ToolStream = ToolStream(block: Option<nat>, id: Option<string>, name: Option<string>,
                                   pending: string, server: bool)

  const NEW_TOOL: ToolStream := ToolStream(None, None, None, "", false)

  /** `serverNames` is empty unless the request declared the search tool; client tools are buffered exactly then. */
  datatype Stream = Stream(
    started: bool, terminal: bool, roundComplete: bool, expose: bool,
    blocks: seq<BlockKind>, textIndex: Option<nat>, thinkingIndex: Option<nat>, tools: map<nat, ToolStream>,
    finish: Option<string>, usage: Usage, shadow: string,
    serverNames: set<string>, webSearches: nat, pendingServerIds: seq<string>)

  datatype Out = Out(s: Stream, frames: seq<Frame>)

  datatype ToolCall = ToolCall(id: string, name: string, arguments: string)

  function NewStream(expose: bool, serverNames: set<string>): Stream {
    Stream(false, false, false, expose, [], None, None, map[], None, NO_USAGE, "", serverNames, 0, [])
  }

  function CallId(t: ToolStream, index: nat): string {
    t.id.GetOr("toolu_" + Digits(index))
  }

  function CallName(t: ToolStream): string {
    t.name.GetOr("unknown")
  }

  function JsonDelta(index: nat, json: string): seq<Frame> {
    if json == "" then [] else [BlockDelta(index, InputJsonDelta(json))]
  }

  // ---- one upstream chunk ----

  function EnsureThinking(s: Stream): Out {
    if s.thinkingIndex.Some? then Out(s, [])
    else Out(s.(blocks := s.blocks + [Thinking], thinkingIndex := Some(|s.blocks|)), [BlockStart(|s.blocks|, ThinkingHead)])
  }

  function EnsureText(s: Stream): Out {
    if s.textIndex.Some? then Out(s, [])
    else Out(s.(blocks := s.blocks + [Text], textIndex := Some(|s.blocks|)), [BlockStart(|s.blocks|, TextHead)])
  }

  function HandleReasoning(s: Stream, reasoning: string): Out {
    if reasoning == "" then Out(s, [])
    else if !s.expose then Out(s.(shadow := s.shadow + reasoning), [])
    else
      var o := EnsureThinking(s);
      Out(o.s, o.frames + [BlockDelta(o.s.thinkingIndex.value, ThinkingDelta(reasoning))])
  }

  function HandleText(s: Stream, text: string): Out {
    if text == "" then Out(s, [])
    else
      var o := EnsureText(s);
      Out(o.s, o.frames + [BlockDelta(o.s.textIndex.value, TextDelta(text))])
  }

  /** The tool entry after a fragment's id and name are noted, before its arguments are placed. */
  function NoteFragment(s: Stream, call: Fragment): ToolStream {
    var t := if call.index in s.tools then s.tools[call.index] else NEW_TOOL;
    var id := if call.id != "" then Some(call.id) else t.id;
    var name := if call.name != "" then Some(call.name) else t.name;
    t.(id := id, name := name, server := t.server || (name.Some? && name.value in s.serverNames))
  }

  function StartTool(s: Stream, index: nat, t: ToolStream): Out {
    var i := |s.blocks|;
    Out(s.(blocks := s.blocks + [Tool], tools := s.tools[index := t.(block := Some(i), pending := "")]),
        [BlockStart(i, ToolUseHead(CallId(t, index), CallName(t)))] + JsonDelta(i, t.pending))
  }

  function HandleTool(s: Stream, call: Fragment): Out {
    var t := NoteFragment(s, call);
    var ready := && t.block.None? && (t.name.Some? || call.arguments != "")
                 && !(s.serverNames != {} && t.name.None?);
    var o := if ready && !t.server && s.serverNames == {} then StartTool(s, call.index, t)
             else Out(s.(tools := s.tools[call.index := t]), []);
    var u := o.s.tools[call.index];
    if u.block.Some? then Out(o.s, o.frames + JsonDelta(u.block.value, call.arguments))
    else Out(o.s.(tools := o.s.tools[call.index := u.(pending := u.pending + call.arguments)]), o.frames)
  }

  function HandleTools(s: Stream, calls: seq<Fragment>): Out
    decreases |calls|
  {
    if calls == [] then Out(s, [])
    else
      var o := HandleTools(s, calls[..|calls| - 1]);
      var p := HandleTool(o.s, calls[|calls| - 1]);
      Out(p.s, o.frames + p.frames)
  }

  function Begin(s: Stream, chunk: Chunk, requestId: string, fallbackModel: string): Out
    requires chunk.Data?
  {
    if s.started then Out(s, [])
    else Out(s.(started := true),
             [MessageStart(chunk.id.GetOr(requestId), chunk.model.GetOr(fallbackModel))])
  }

  function Note(s: Stream, chunk: Chunk): Stream
    requires chunk.Data?
  {
    s.(usage := chunk.usage.GetOr(s.usage), finish := OrElse(chunk.finish, s.finish))
  }

  function HandleData(s: Stream, chunk: Chunk, requestId: string, fallbackModel: string): Out
    requires chunk.Data?
  {
    var o0 := Begin(s, chunk, requestId, fallbackModel);
    var o1 := HandleReasoning(Note(o0.s, chunk), chunk.reasoning);
    var o2 := HandleText(o1.s, chunk.text);
    var o3 := HandleTools(o2.s, chunk.calls);
    Out(o3.s, o0.frames + o1.frames + o2.frames + o3.frames)
  }

  function Abort(s: Stream, message: string): Out {
    Out(s.(terminal := true), [ErrorFrame(message)])
  }

  /**
   One upstream payload. `order` is the order in which a finishing stream visits the tools
   it has not started: hash-map order, so any permutation of them.
   */
  function Handle(s: Stream, chunk: Chunk, order: seq<nat>, requestId: string, fallbackModel: string): Out
    requires chunk.Done? ==> PendingOrder(s, order)
  {
    match chunk
    case Done =>
      if s.finish.None? then Abort(s, "upstream stream ended without a stop reason")
      else if s.serverNames != {} then Out(s.(roundComplete := true), [])
      else Finalize(s, order)
    case Malformed => Abort(s, "upstream sent invalid SSE JSON")
    case Failure => Abort(s, "upstream stream error")
    case Data(_, _, _, _, _, _, _) => HandleData(s, chunk, requestId, fallbackModel)
  }

  // ---- finishing ----

  function PendingTools(s: Stream): set<nat> {
    set k | k in s.tools && s.tools[k].block.None? && !s.tools[k].server
  }

  predicate Distinct<T(==)>(xs: seq<T>) {
    forall i, j | 0 <= i < j < |xs| :: xs[i] != xs[j]
  }

  predicate PendingOrder(s: Stream, order: seq<nat>) {
    && Distinct(order)
    && (forall k | k in order :: k in PendingTools(s))
    && (forall k | k in PendingTools(s) :: k in order)
  }

  function StartTools(s: Stream, order: seq<nat>): (o: Out)
    requires forall k | k in order :: k in s.tools
    ensures o.s.tools.Keys == s.tools.Keys
    decreases |order|
  {
    if order == [] then Out(s, [])
    else
      var last := order[|order| - 1];
      var o := StartTools(s, order[..|order| - 1]);
      var p := StartTool(o.s, last, o.s.tools[last]);
      Out(p.s, o.frames + p.frames)
  }

  function Closing(blocks: seq<BlockKind>): seq<Frame> {
    if blocks == [] then []
    else
      var i := |blocks| - 1;
      Closing(blocks[..i]) + match blocks[i]
                             case Closed => []
                             case Thinking => [BlockDelta(i, SignatureDelta), BlockStop(i)]
                             case Text => [BlockStop(i)]
                             case Tool => [BlockStop(i)]
  }

  function FinishWithStop(s: Stream, stop: Option<string>): Out {
    Out(s.(terminal := true),
        Closing(s.blocks)
        + [MessageDelta(if stop.Some? then stop else MapStopReason(s.finish), ConvertUsage(s.usage, s.webSearches)),
           MessageStop])
  }

  function Finalize(s: Stream, order: seq<nat>): Out
    requires PendingOrder(s, order)
  {
    if s.terminal then Out(s, [])
    else
      var o := StartTools(s, order);
      var p := FinishWithStop(o.s, None);
      Out(p.s, o.frames + p.frames)
  }

  function FinalizeAsPaused(s: Stream): Out {
    FinishWithStop(s, Some("pause_turn"))
  }

  // ---- server-tool rounds ----

  function CloseThinking(s: Stream): Out {
    if s.thinkingIndex.None? then Out(s, [])
    else
      var i := s.thinkingIndex.value;
      if i < |s.blocks| && s.blocks[i] == Thinking then
        Out(s.(blocks := s.blocks[i := Closed], thinkingIndex := None), [BlockDelta(i, SignatureDelta), BlockStop(i)])
      else Out(s.(thinkingIndex := None), [])
  }

  function CloseText(s: Stream): Out {
    if s.textIndex.None? then Out(s, [])
    else
      var i := s.textIndex.value;
      if i < |s.blocks| && s.blocks[i] == Text then
        Out(s.(blocks := s.blocks[i := Closed], textIndex := None), [BlockStop(i)])
      else Out(s.(textIndex := None), [])
  }

  function CloseOpenContentBlocks(s: Stream): Out {
    var o := CloseThinking(s);
    var p := CloseText(o.s);
    Out(p.s, o.frames + p.frames)
  }

  function ServerUse(i: nat, id: string, input: string): seq<Frame> {
    [BlockStart(i, ServerUseHead(id, FUNCTION_NAME)), BlockDelta(i, InputJsonDelta(input)), BlockStop(i)]
  }

  /** One closed block per call: its fresh id and the compact text of its input object. */
  function EmitUses(s: Stream, ids: seq<string>, inputs: seq<string>): Out
    requires |ids| == |inputs|
    decreases |ids|
  {
    if ids == [] then Out(s, [])
    else
      var n := |ids| - 1;
      var o := EmitUses(s, ids[..n], inputs[..n]);
      Out(o.s.(blocks := o.s.blocks + [Closed], pendingServerIds := o.s.pendingServerIds + [ids[n]]),
          o.frames + ServerUse(|o.s.blocks|, ids[n], inputs[n]))
  }

  function EmitServerToolUse(s: Stream, ids: seq<string>, inputs: seq<string>): Out
    requires |ids| == |inputs|
  {
    var o := CloseOpenContentBlocks(s);
    var p := EmitUses(o.s.(pendingServerIds := []), ids, inputs);
    Out(p.s, o.frames + p.frames)
  }

  function SearchResult(i: nat, id: string, content: string): seq<Frame> {
    [BlockStart(i, SearchResultHead(id, content)), BlockStop(i)]
  }

  function EmitResults(s: Stream, ids: seq<string>, results: seq<string>): Out
    requires |ids| <= |results|
    decreases |ids|
  {
    if ids == [] then Out(s, [])
    else
      var n := |ids| - 1;
      var o := EmitResults(s, ids[..n], results);
      Out(o.s.(blocks := o.s.blocks + [Closed], webSearches := o.s.webSearches + 1),
          o.frames + SearchResult(|o.s.blocks|, ids[n], results[n]))
  }

  function Min(a: nat, b: nat): nat {
    if a < b then a else b
  }

  /** Ids and outcomes are zipped: the shorter list decides how many results appear. */
  function FinishServerToolRound(s: Stream, results: seq<string>): Out {
    var n := Min(|s.pendingServerIds|, |results|);
    EmitResults(s.(pendingServerIds := []), s.pendingServerIds[..n], results[..n])
  }

  function BeginNewRound(s: Stream): Stream {
    s.(tools := map[], finish := None, roundComplete := false)
  }

  // ---- the calls of a round ----

  predicate Ascending(keys: seq<nat>) {
    forall i, j | 0 <= i < j < |keys| :: keys[i] < keys[j]
  }

  /** The round's calls in the order of `keys`; the program sorts them by upstream index. */
  function CallsOf(s: Stream, keys: seq<nat>): (calls: seq<ToolCall>)
    requires forall k | k in keys :: k in s.tools
    ensures |calls| == |keys|
  {
    seq(|keys|, i requires 0 <= i < |keys| =>
      ToolCall(CallId(s.tools[keys[i]], keys[i]), CallName(s.tools[keys[i]]), s.tools[keys[i]].pending))
  }

  ghost function Least(keys: set<nat>): (k: nat)
    requires keys != {}
    ensures k in keys && forall j | j in keys :: k <= j
  {
    SomeLeast(keys);
    var k :| k in keys && forall j | j in keys :: k <= j;
    k
  }

  lemma SomeLeast(keys: set<nat>)
    requires keys != {}
    ensures exists k :: k in keys && forall j | j in keys :: k <= j
  {
    var _ := LeastExists(keys);
  }

  ghost function Sorted(keys: set<nat>): seq<nat> {
    if keys == {} then [] else [Least(keys)] + Sorted(keys - {Least(keys)})
  }

  lemma AscendingTail(order: seq<nat>, keys: set<nat>, k: nat)
    requires Ascending(order) && (forall j :: j in order <==> j in keys) && k in keys && forall j | j in keys :: k <= j
    ensures order != [] && order[0] == k && Ascending(order[1..]) && forall j :: j in order[1..] <==> j in keys - {k}
  {
    assert k in order;
    assert order[0] in order;
    var rest := order[1..];
    assert order == [order[0]] + rest;
    assert forall i | 0 <= i < |rest| :: rest[i] == order[i + 1];
  }

  /** There is only one way to list a set in ascending order. */
  lemma {:induction false} AscendingIsSorted(order: seq<nat>, keys: set<nat>)
    requires Ascending(order) && forall k :: k in order <==> k in keys
    ensures order == Sorted(keys)
    decreases keys
  {
    if keys == {} {
      assert order == [] by { Listed(order); }
    } else {
      var k := Least(keys);
      AscendingTail(order, keys, k);
      hide Sorted, Ascending;
      AscendingIsSorted(order[1..], keys - {k});
      assert order == [order[0]] + order[1..];
    }
  }

  lemma Listed(order: seq<nat>)
    ensures order != [] ==> order[0] in order
  {
  }

  lemma {:induction false} SortedMeans(keys: set<nat>)
    ensures forall k :: k in Sorted(keys) <==> k in keys
    decreases keys
  {
    if keys != {} {
      var k := Least(keys);
      SortedMeans(keys - {k});
    }
  }

  /** The round's calls by ascending index, as the program sorts them. */
  ghost function SortedCalls(s: Stream): seq<ToolCall> {
    SortedMeans(s.tools.Keys);
    CallsOf(s, Sorted(s.tools.Keys))
  }
}
