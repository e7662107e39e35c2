/** The stream translator as the program runs it: fields updated in place, frames returned as they are made. */
module StreamStates {
  import opened Prelude
  import opened Protocol
  import opened Translator
  import T = Translator

  lemma {:induction false} SomeOrder(todo: set<nat>) returns (order: seq<nat>)
    ensures Distinct(order) && (forall k | k in order :: k in todo) && (forall k | k in todo :: k in order)
    decreases |todo|
  {
    if todo == {} {
      order := [];
    } else {
      var k :| k in todo;
      var rest := SomeOrder(todo - {k});
      order := rest + [k];
      assert order[|rest|] == k;
      forall j | j in todo ensures j in order {
        if j != k {
          assert j in todo - {k};
          assert j in rest;
        }
      }
    }
  }

  lemma AscendingMore(keys: seq<nat>, k: nat)
    requires Ascending(keys) && forall j | j in keys :: j < k
    ensures Ascending(keys + [k])
  {
    assert forall i | 0 <= i < |keys| :: keys[i] in keys;
  }

  lemma CallsMore(s: Stream, keys: seq<nat>, k: nat)
    requires (forall j | j in keys :: j in s.tools) && k in s.tools
    ensures CallsOf(s, keys + [k]) == CallsOf(s, keys) + [ToolCall(CallId(s.tools[k], k), CallName(s.tools[k]), s.tools[k].pending)]
  {
  }

  class StreamState {
    const requestId: string
    const fallbackModel: string
    const exposeThinking: bool
    const serverToolNames: set<string>
    var started: bool
    var terminal: bool
    var roundComplete: bool
    var blocks: seq<BlockKind>
    var textIndex: Option<nat>
    var thinkingIndex: Option<nat>
    var tools: map<nat, ToolStream>
    var finishReason: Option<string>
    var usage: Usage
    var shadowReasoning: string
    var webSearchRequests: nat
    var pendingServerIds: seq<string>

    function View(): Stream
      reads this
    {
      Stream(started, terminal, roundComplete, exposeThinking, blocks, textIndex, thinkingIndex, tools, finishReason,
                    usage, shadowReasoning, serverToolNames, webSearchRequests, pendingServerIds)
    }

    constructor (requestId: string, fallbackModel: string, exposeThinking: bool, serverToolNames: set<string>)
      ensures View() == NewStream(exposeThinking, serverToolNames)
      ensures this.requestId == requestId && this.fallbackModel == fallbackModel
      ensures this.serverToolNames == serverToolNames && this.exposeThinking == exposeThinking
    {
      this.requestId, this.fallbackModel := requestId, fallbackModel;
      this.exposeThinking, this.serverToolNames := exposeThinking, serverToolNames;
      started, terminal, roundComplete := false, false, false;
      blocks, textIndex, thinkingIndex, tools := [], None, None, map[];
      finishReason, usage, shadowReasoning := None, NO_USAGE, "";
      webSearchRequests, pendingServerIds := 0, [];
    }

    method EnsureText() returns (index: nat, frames: seq<Frame>)
      modifies this`blocks, this`textIndex
      ensures Out(View(), frames) == T.EnsureText(old(View())) && textIndex == Some(index)
    {
      if textIndex.Some? {
        return textIndex.value, [];
      }
      index := |blocks|;
      blocks := blocks + [Text];
      textIndex := Some(index);
      frames := [BlockStart(index, TextHead)];
    }

    method EnsureThinking() returns (index: nat, frames: seq<Frame>)
      modifies this`blocks, this`thinkingIndex
      ensures Out(View(), frames) == T.EnsureThinking(old(View())) && thinkingIndex == Some(index)
    {
      if thinkingIndex.Some? {
        return thinkingIndex.value, [];
      }
      index := |blocks|;
      blocks := blocks + [Thinking];
      thinkingIndex := Some(index);
      frames := [BlockStart(index, ThinkingHead)];
    }

    /** Opens the tool's block and sends whatever arguments were waiting. */
    method StartTool(upstreamIndex: nat) returns (frames: seq<Frame>)
      requires upstreamIndex in tools
      modifies this`blocks, this`tools
      ensures Out(View(), frames) == T.StartTool(old(View()), upstreamIndex, old(tools)[upstreamIndex])
    {
      var tool := tools[upstreamIndex];
      var index := |blocks|;
      blocks := blocks + [Tool];
      frames := [BlockStart(index, ToolUseHead(CallId(tool, upstreamIndex), CallName(tool)))];
      if tool.pending != "" {
        frames := frames + [BlockDelta(index, InputJsonDelta(tool.pending))];
      }
      tools := tools[upstreamIndex := tool.(block := Some(index), pending := "")];
    }

    /** Id, name and server flag of the fragment's tool, created on first sight. */
    method RememberFragment(call: Fragment)
      modifies this`tools
      ensures tools == old(tools)[call.index := NoteFragment(old(View()), call)]
    {
      var tool := if call.index in tools then tools[call.index] else NEW_TOOL;
      if call.id != "" {
        tool := tool.(id := Some(call.id));
      }
      if call.name != "" {
        tool := tool.(name := Some(call.name));
      }
      if tool.name.Some? && tool.name.value in serverToolNames {
        tool := tool.(server := true);
      }
      tools := tools[call.index := tool];
    }

    method HandleTool(call: Fragment) returns (frames: seq<Frame>)
      modifies this`blocks, this`tools
      ensures Out(View(), frames) == T.HandleTool(old(View()), call)
    {
      hide NoteFragment;
      var k := call.index;
      ghost var was: map<nat, ToolStream> := tools;
      RememberFragment(call);
      var tool := tools[k];
      var ready := && tool.block.None? && (tool.name.Some? || call.arguments != "")
                   && !(serverToolNames != {} && tool.name.None?);
      frames := [];
      if ready && !tool.server && serverToolNames == {} {
        frames := StartTool(k);
        assert was[k := tool][k := tools[k]] == was[k := tools[k]];
      }
      var more := PlaceArguments(k, call.arguments);
      frames := frames + more;
    }

    /** New arguments go to the tool's block if it has one, and wait otherwise. */
    method PlaceArguments(k: nat, arguments: string) returns (frames: seq<Frame>)
      requires k in tools
      modifies this`tools
      ensures var u := old(tools)[k];
              if u.block.Some? then tools == old(tools) && frames == JsonDelta(u.block.value, arguments)
              else tools == old(tools)[k := u.(pending := u.pending + arguments)] && frames == []
    {
      if arguments == "" {
        assert tools[k].pending + "" == tools[k].pending;
        assert tools[k := tools[k]] == tools;
        return [];
      }
      if tools[k].block.Some? {
        frames := [BlockDelta(tools[k].block.value, InputJsonDelta(arguments))];
      } else {
        tools := tools[k := tools[k].(pending := tools[k].pending + arguments)];
        frames := [];
      }
    }

    method TakeReasoning(reasoning: string) returns (frames: seq<Frame>)
      modifies this`blocks, this`thinkingIndex, this`shadowReasoning
      ensures Out(View(), frames) == HandleReasoning(old(View()), reasoning)
    {
      frames := [];
      if reasoning != "" {
        if !exposeThinking {
          shadowReasoning := shadowReasoning + reasoning;
        } else {
          var index, opening := EnsureThinking();
          frames := opening + [BlockDelta(index, ThinkingDelta(reasoning))];
        }
      }
    }

    method TakeText(text: string) returns (frames: seq<Frame>)
      modifies this`blocks, this`textIndex
      ensures Out(View(), frames) == HandleText(old(View()), text)
    {
      frames := [];
      if text != "" {
        var index, opening := EnsureText();
        frames := opening + [BlockDelta(index, TextDelta(text))];
      }
    }

    method TakeCalls(calls: seq<Fragment>) returns (frames: seq<Frame>)
      modifies this`blocks, this`tools
      ensures Out(View(), frames) == HandleTools(old(View()), calls)
    {
      frames := [];
      assert calls[..0] == [];
      for i := 0 to |calls|
        invariant Out(View(), frames) == HandleTools(old(View()), calls[..i])
      {
        assert calls[..i + 1][..i] == calls[..i];
        var more := HandleTool(calls[i]);
        frames := frames + more;
      }
      assert calls[..|calls|] == calls;
    }

    /** A data chunk: the message start if it is the first, then reasoning, text and tool fragments. */
    method HandleData(chunk: Chunk) returns (frames: seq<Frame>)
      requires chunk.Data?
      modifies this
      ensures Out(View(), frames) == T.HandleData(old(View()), chunk, requestId, fallbackModel)
    {
      hide HandleReasoning, HandleText, HandleTools;
      frames := [];
      if !started {
        started := true;
        frames := [MessageStart(chunk.id.GetOr(requestId), chunk.model.GetOr(fallbackModel))];
      }
      if chunk.usage.Some? {
        usage := chunk.usage.value;
      }
      if chunk.finish.Some? {
        finishReason := chunk.finish;
      }
      var thinking := TakeReasoning(chunk.reasoning);
      var text := TakeText(chunk.text);
      var calls := TakeCalls(chunk.calls);
      frames := frames + thinking + text + calls;
    }

    /** One upstream payload; `order` records the order in which a finishing stream visited its unstarted tools. */
    method Handle(chunk: Chunk) returns (frames: seq<Frame>, ghost order: seq<nat>)
      modifies this
      ensures chunk.Done? ==> PendingOrder(old(View()), order)
      ensures Out(View(), frames) == T.Handle(old(View()), chunk, order, requestId, fallbackModel)
    {
      order := SomeOrder(PendingTools(View()));
      match chunk {
        case Done =>
          if finishReason.Some? {
            if serverToolNames != {} {
              roundComplete := true;
              return [], order;
            }
            frames, order := Finalize();
          } else {
            terminal := true;
            frames := [ErrorFrame("upstream stream ended without a stop reason")];
          }
        case Malformed =>
          terminal := true;
          frames := [ErrorFrame("upstream sent invalid SSE JSON")];
        case Failure =>
          terminal := true;
          frames := [ErrorFrame("upstream stream error")];
        case Data(_, _, _, _, _, _, _) =>
          frames := HandleData(chunk);
      }
    }

    /** Hash-map order: the pending tools are taken in any order at all. */
    method Finalize() returns (frames: seq<Frame>, ghost order: seq<nat>)
      modifies this
      ensures PendingOrder(old(View()), order)
      ensures Out(View(), frames) == T.Finalize(old(View()), order)
    {
      ghost var was := View();
      if terminal {
        order := SomeOrder(PendingTools(was));
        return [], order;
      }
      frames, order := [], [];
      var pending := set k | k in tools && tools[k].block.None? && !tools[k].server;
      while pending != {}
        invariant Distinct(order)
        invariant forall k | k in order :: k in PendingTools(was) && k !in pending
        invariant forall k | k in PendingTools(was) :: k in order || k in pending
        invariant pending <= PendingTools(was)
        invariant Out(View(), frames) == StartTools(was, order)
        decreases pending
      {
        var k :| k in pending;
        ghost var before := order;
        assert (order + [k])[..|order|] == order;
        var more := StartTool(k);
        frames := frames + more;
        order := order + [k];
        pending := pending - {k};
      }
      var closing := FinishWithStop(None);
      frames := frames + closing;
    }

    method FinishWithStop(stopOverride: Option<string>) returns (frames: seq<Frame>)
      modifies this`terminal
      ensures Out(View(), frames) == T.FinishWithStop(old(View()), stopOverride)
    {
      terminal := true;
      frames := [];
      assert blocks[..0] == [];
      for index := 0 to |blocks|
        invariant frames == Closing(blocks[..index])
      {
        assert blocks[..index + 1][..index] == blocks[..index];
        match blocks[index] {
          case Closed =>
          case Thinking => frames := frames + [BlockDelta(index, SignatureDelta), BlockStop(index)];
          case Text => frames := frames + [BlockStop(index)];
          case Tool => frames := frames + [BlockStop(index)];
        }
      }
      assert blocks[..|blocks|] == blocks;
      var stopReason := if stopOverride.Some? then stopOverride else MapStopReason(finishReason);
      frames := frames + [MessageDelta(stopReason, ConvertUsage(usage, webSearchRequests)), MessageStop];
    }

    method FinalizeAsPaused() returns (frames: seq<Frame>)
      modifies this`terminal
      ensures Out(View(), frames) == T.FinalizeAsPaused(old(View()))
    {
      frames := FinishWithStop(Some("pause_turn"));
    }

    method CloseOpenContentBlocks() returns (frames: seq<Frame>)
      modifies this`blocks, this`textIndex, this`thinkingIndex
      ensures Out(View(), frames) == T.CloseOpenContentBlocks(old(View()))
    {
      frames := [];
      if thinkingIndex.Some? {
        var index := thinkingIndex.value;
        if index < |blocks| && blocks[index] == Thinking {
          frames := frames + [BlockDelta(index, SignatureDelta), BlockStop(index)];
          blocks := blocks[index := Closed];
        }
        thinkingIndex := None;
      }
      if textIndex.Some? {
        var index := textIndex.value;
        if index < |blocks| && blocks[index] == Text {
          frames := frames + [BlockStop(index)];
          blocks := blocks[index := Closed];
        }
        textIndex := None;
      }
    }

    /** The round's calls, sorted by upstream index. */
    method OpenAiToolCalls() returns (calls: seq<ToolCall>)
      ensures calls == SortedCalls(View())
    {
      ghost var keys: seq<nat> := [];
      calls := [];
      var todo := tools.Keys;
      while todo != {}
        invariant Ascending(keys)
        invariant forall k :: k in tools <==> k in keys || k in todo
        invariant todo <= tools.Keys
        invariant forall j, k | j in keys && k in todo :: j < k
        invariant calls == CallsOf(View(), keys)
        decreases todo
      {
        ghost var least := LeastExists(todo);
        assert least in todo && forall j | j in todo :: least <= j;
        var k :| k in todo && forall j | j in todo :: k <= j;
        AscendingMore(keys, k);
        CallsMore(View(), keys, k);
        hide CallsOf, Ascending;
        calls := calls + [ToolCall(CallId(tools[k], k), CallName(tools[k]), tools[k].pending)];
        keys := keys + [k];
        todo := todo - {k};
      }
      AscendingIsSorted(keys, tools.Keys);
      hide Sorted;
    }

    /** Announces the searches: one closed block per call, under ids taken from `freshId`. */
    method EmitServerToolUse(ids: seq<string>, inputs: seq<string>) returns (frames: seq<Frame>)
      requires |ids| == |inputs|
      modifies this`blocks, this`textIndex, this`thinkingIndex, this`pendingServerIds
      ensures Out(View(), frames) == T.EmitServerToolUse(old(View()), ids, inputs)
    {
      frames := CloseOpenContentBlocks();
      pendingServerIds := [];
      ghost var start, f0 := View(), frames;
      assert ids[..0] == [];
      for i := 0 to |ids|
        invariant |f0| <= |frames| && frames[..|f0|] == f0
        invariant Out(View(), frames[|f0|..]) == EmitUses(start, ids[..i], inputs[..i])
      {
        assert ids[..i + 1][..i] == ids[..i] && inputs[..i + 1][..i] == inputs[..i];
        var index := |blocks|;
        ghost var prev := frames;
        blocks := blocks + [Closed];
        frames := frames + [BlockStart(index, ServerUseHead(ids[i], FUNCTION_NAME)),
                            BlockDelta(index, InputJsonDelta(inputs[i])), BlockStop(index)];
        pendingServerIds := pendingServerIds + [ids[i]];
        assert frames[|f0|..] == prev[|f0|..] + ServerUse(index, ids[i], inputs[i]);
      }
      assert ids[..|ids|] == ids && inputs[..|ids|] == inputs;
      assert frames == f0 + frames[|f0|..];
    }

    method FinishServerToolRound(results: seq<string>) returns (frames: seq<Frame>)
      modifies this`blocks, this`pendingServerIds, this`webSearchRequests
      ensures Out(View(), frames) == T.FinishServerToolRound(old(View()), results)
    {
      frames := [];
      var ids := pendingServerIds;
      pendingServerIds := [];
      var n := Min(|ids|, |results|);
      ghost var start := View();
      assert ids[..n][..0] == [];
      for i := 0 to n
        invariant Out(View(), frames) == EmitResults(start, ids[..n][..i], results[..n])
      {
        assert ids[..n][..i + 1][..i] == ids[..n][..i];
        var index := |blocks|;
        blocks := blocks + [Closed];
        frames := frames + [BlockStart(index, SearchResultHead(ids[i], results[i])), BlockStop(index)];
        webSearchRequests := webSearchRequests + 1;
      }
      assert ids[..n][..n] == ids[..n];
    }

    method BeginNewRound()
      modifies this`tools, this`finishReason, this`roundComplete
      ensures View() == T.BeginNewRound(old(View()))
    {
      tools := map[];
      finishReason := None;
      roundComplete := false;
    }
  }
}
