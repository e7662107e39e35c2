/** The searches a client has been shown, as the sequence of their blocks: who changes it, and who does not. */
module Served {
  import opened Prelude
  import opened Protocol
  import opened Upstream
  import opened Translator
  import opened Lifecycle
  import opened Finishing
  import opened Rounds

  predicate OfServer(b: Block) {
    b.head.ServerUseHead? || b.head.SearchResultHead?
  }

  /** The blocks of searches and their results, in order. */
  function ServerBlocks(blocks: seq<Block>): seq<Block> {
    if blocks == [] then []
    else ServerBlocks(blocks[..|blocks| - 1]) + if OfServer(blocks[|blocks| - 1]) then [blocks[|blocks| - 1]] else []
  }

  function ResultCount(blocks: seq<Block>): nat {
    if blocks == [] then 0
    else ResultCount(blocks[..|blocks| - 1]) + if blocks[|blocks| - 1].head.SearchResultHead? then 1 else 0
  }

  /** Blocks of searches stay as they are, and none is added. */
  ghost predicate SameServer(a: seq<Block>, b: seq<Block>) {
    && |a| <= |b|
    && (forall i | 0 <= i < |a| :: OfServer(a[i]) || OfServer(b[i]) ==> b[i] == a[i])
    && (forall i | |a| <= i < |b| :: !OfServer(b[i]))
  }

  lemma {:induction false} SameServerBlocks(a: seq<Block>, b: seq<Block>)
    requires SameServer(a, b)
    ensures ServerBlocks(b) == ServerBlocks(a)
    decreases |b|
  {
    if |b| > |a| {
      SameServerBlocks(a, b[..|b| - 1]);
    } else if b != [] {
      SameServerBlocks(a[..|a| - 1], b[..|b| - 1]);
    }
  }

  lemma SameServerTwice(a: seq<Block>, b: seq<Block>, c: seq<Block>)
    requires SameServer(a, b) && SameServer(b, c)
    ensures SameServer(a, c)
  {
  }

  lemma SameServerSame(a: seq<Block>)
    ensures SameServer(a, a)
  {
  }

  lemma ServerOneMore(blocks: seq<Block>, b: Block)
    ensures ServerBlocks(blocks + [b]) == ServerBlocks(blocks) + if OfServer(b) then [b] else []
  {
    assert (blocks + [b])[..|blocks|] == blocks;
  }

  lemma {:induction false} ServerAppended(blocks: seq<Block>, more: seq<Block>)
    requires forall i | 0 <= i < |more| :: OfServer(more[i])
    ensures ServerBlocks(blocks + more) == ServerBlocks(blocks) + more
    decreases |more|
  {
    hide *;
    if more == [] {
      assert blocks + more == blocks && ServerBlocks(blocks) + more == ServerBlocks(blocks);
    } else {
      var n := |more| - 1;
      var before := blocks + more[..n];
      ServerAppended(blocks, more[..n]);
      ServerOneMore(before, more[n]);
      assert blocks + more == before + [more[n]];
      assert ServerBlocks(blocks) + more == ServerBlocks(blocks) + more[..n] + [more[n]];
    }
  }

  lemma {:induction false} CountAppended(blocks: seq<Block>, more: seq<Block>, each: nat)
    requires each <= 1 && forall i | 0 <= i < |more| :: more[i].head.SearchResultHead? <==> each == 1
    ensures ResultCount(blocks + more) == ResultCount(blocks) + |more| * each
    decreases |more|
  {
    if more == [] {
      assert blocks + more == blocks;
    } else {
      var n := |more| - 1;
      CountAppended(blocks, more[..n], each);
      assert (blocks + more)[..|blocks| + n] == blocks + more[..n];
    }
  }

  /** A round of searches adds its uses and its results, and one search to the count for each. */
  lemma RoundServes(blocks: seq<Block>, ids: seq<string>, inputs: seq<string>, results: seq<string>)
    requires |ids| == |inputs| == |results|
    ensures ServerBlocks(blocks + UseBlocks(ids, inputs) + ResultBlocks(ids, results))
         == ServerBlocks(blocks) + UseBlocks(ids, inputs) + ResultBlocks(ids, results)
    ensures ResultCount(ServerBlocks(blocks) + UseBlocks(ids, inputs) + ResultBlocks(ids, results)) == ResultCount(ServerBlocks(blocks)) + |ids|
  {
    ServerAppended(blocks, UseBlocks(ids, inputs));
    ServerAppended(blocks + UseBlocks(ids, inputs), ResultBlocks(ids, results));
    CountAppended(ServerBlocks(blocks), UseBlocks(ids, inputs), 0);
    CountAppended(ServerBlocks(blocks) + UseBlocks(ids, inputs), ResultBlocks(ids, results), 1);
  }

  // ---- what upstream data and finishing leave alone ----

  lemma WithTextServes(c: Client, at: Option<nat>, head: BlockHead, more: string)
    requires head.TextHead? || head.ThinkingHead?
    requires at.Some? ==> at.value < |c.blocks| && !OfServer(c.blocks[at.value])
    ensures SameServer(c.blocks, WithText(c, at, head, more).blocks)
  {
  }

  lemma ReasoningServes(s: Stream, c: Client, reasoning: string)
    requires Sync(s, c) && s.started
    ensures SameServer(c.blocks, Play(c, HandleReasoning(s, reasoning).frames).blocks)
    ensures var o := HandleReasoning(s, reasoning); Sync(o.s, Play(c, o.frames)) && o.s.started
  {
    SameServerSame(c.blocks);
    if reasoning != "" && s.expose {
      ReasoningEffect(s, c, reasoning);
      ReasoningSyncs(s, c, reasoning);
      ThinkingIsPlain(s, c);
      WithTextServes(c, s.thinkingIndex, ThinkingHead, reasoning);
      hide SameServer, Sync, WithText, Play;
    }
  }

  lemma TextServes(s: Stream, c: Client, text: string)
    requires Sync(s, c) && s.started
    ensures SameServer(c.blocks, Play(c, HandleText(s, text).frames).blocks)
    ensures var o := HandleText(s, text); Sync(o.s, Play(c, o.frames)) && o.s.started
  {
    SameServerSame(c.blocks);
    if text != "" {
      TextEffect(s, c, text);
      TextSyncs(s, c, text);
      ThinkingIsPlain(s, c);
      WithTextServes(c, s.textIndex, TextHead, text);
      hide SameServer, Sync, WithText, Play;
    }
  }

  lemma ThinkingIsPlain(s: Stream, c: Client)
    requires Sync(s, c)
    ensures s.thinkingIndex.Some? ==> s.thinkingIndex.value < |c.blocks| && !OfServer(c.blocks[s.thinkingIndex.value])
    ensures s.textIndex.Some? ==> s.textIndex.value < |c.blocks| && !OfServer(c.blocks[s.textIndex.value])
  {
    assert s.thinkingIndex.Some? ==> Matches(s.blocks[s.thinkingIndex.value], c.blocks[s.thinkingIndex.value]);
    assert s.textIndex.Some? ==> Matches(s.blocks[s.textIndex.value], c.blocks[s.textIndex.value]);
  }

  lemma ToolServes(s: Stream, c: Client, call: Fragment)
    requires Sync(s, c)
    ensures SameServer(c.blocks, ToolEffect(s, c, call).blocks)
  {
    var t := NoteFragment(s, call);
    assert t.block.Some? ==> Matches(s.blocks[t.block.value], c.blocks[t.block.value]);
  }

  lemma {:induction false} ToolsServe(s: Stream, c: Client, calls: seq<Fragment>)
    requires Sync(s, c) && s.started
    ensures var o := HandleTools(s, calls); var d := Play(c, o.frames);
            SameServer(c.blocks, d.blocks) && Sync(o.s, d) && o.s.started
    decreases |calls|
  {
    hide Sync, SameServer, HandleTool, ToolEffect, Play;
    if calls == [] {
      PlayNothing(c);
      SameServerSame(c.blocks);
    } else {
      var n := |calls| - 1;
      ToolsServe(s, c, calls[..n]);
      var o := HandleTools(s, calls[..n]);
      var d := Play(c, o.frames);
      HandleToolEffect(o.s, d, calls[n]);
      HandleToolSyncs(o.s, d, calls[n]);
      HandleToolKeys(o.s, calls[n]);
      ToolServes(o.s, d, calls[n]);
      PlayConcat(c, o.frames, HandleTool(o.s, calls[n]).frames);
      SameServerTwice(c.blocks, d.blocks, ToolEffect(o.s, d, calls[n]).blocks);
    }
  }

  lemma BeginServes(s: Stream, c: Client, chunk: Chunk, requestId: string, model: string)
    requires Sync(s, c) && chunk.Data?
    ensures var o := Begin(s, chunk, requestId, model); var n := Note(o.s, chunk); var d := Play(c, o.frames);
            d.blocks == c.blocks && Sync(n, d) && n.started
  {
    if s.started {
      PlayNothing(c);
    } else {
      PlaySingle(c, Begin(s, chunk, requestId, model).frames[0]);
    }
  }

  /** A data chunk leaves the searches shown as they are. */
  lemma DataServes(s: Stream, c: Client, chunk: Chunk, requestId: string, model: string)
    requires Sync(s, c) && chunk.Data?
    ensures ServerBlocks(Play(c, HandleData(s, chunk, requestId, model).frames).blocks) == ServerBlocks(c.blocks)
  {
    hide Sync, SameServer, Play, HandleReasoning, HandleText, HandleTools, Begin, Note, ServerBlocks;
    var o0 := Begin(s, chunk, requestId, model);
    var n := Note(o0.s, chunk);
    var c0 := Play(c, o0.frames);
    BeginServes(s, c, chunk, requestId, model);
    var o1 := HandleReasoning(n, chunk.reasoning);
    var c1 := Play(c0, o1.frames);
    ReasoningServes(n, c0, chunk.reasoning);
    var o2 := HandleText(o1.s, chunk.text);
    var c2 := Play(c1, o2.frames);
    TextServes(o1.s, c1, chunk.text);
    var o3 := HandleTools(o2.s, chunk.calls);
    ToolsServe(o2.s, c2, chunk.calls);
    PlayConcat(c, o0.frames, o1.frames);
    PlayConcat(c, o0.frames + o1.frames, o2.frames);
    PlayConcat(c, o0.frames + o1.frames + o2.frames, o3.frames);
    SameServerBlocks(c0.blocks, c1.blocks);
    SameServerBlocks(c1.blocks, c2.blocks);
    SameServerBlocks(c2.blocks, Play(c2, o3.frames).blocks);
  }

  /** Blocks of searches are closed from the start, so closing changes none. */
  lemma ClosedServe(s: Stream, c: Client, blocks: seq<Block>)
    requires Sync(s, c) && |blocks| == |c.blocks|
    requires forall i | 0 <= i < |blocks| :: blocks[i] == c.blocks[i] || blocks[i] == c.blocks[i].(closed := true)
    ensures SameServer(c.blocks, blocks)
  {
    forall i | 0 <= i < |blocks| ensures OfServer(c.blocks[i]) || OfServer(blocks[i]) ==> blocks[i] == c.blocks[i] {
      assert Matches(s.blocks[i], c.blocks[i]);
    }
  }

  lemma FinishServes(s: Stream, c: Client, stop: Option<string>)
    requires Sync(s, c) && s.started
    ensures ServerBlocks(Play(c, FinishWithStop(s, stop).frames).blocks) == ServerBlocks(c.blocks)
  {
    FinishEffect(s, c, stop);
    var after := CloseBelow(c.blocks, |c.blocks|);
    hide Play, FinishWithStop, Sync;
    ClosedServe(s, c, after);
    SameServerBlocks(c.blocks, after);
  }

  lemma StartedServe(s: Stream, c: Client, order: seq<nat>)
    requires forall k | k in order :: k in s.tools
    ensures SameServer(c.blocks, c.blocks + NewToolBlocks(s, order))
  {
  }

  lemma StartedIsStarted(s: Stream, s': Stream, order: seq<nat>)
    requires StartedAll(s, s', order)
    ensures s'.started == s.started
  {
  }

  lemma FinalizeServes(s: Stream, c: Client, order: seq<nat>)
    requires Sync(s, c) && s.started && !s.terminal && PendingOrder(s, order)
    ensures ServerBlocks(Play(c, Finalize(s, order).frames).blocks) == ServerBlocks(c.blocks)
  {
    var m := StartTools(s, order);
    var e := Play(c, m.frames);
    StartToolsEffect(s, c, order);
    StartToolsResult(s, order);
    StartedIsStarted(s, m.s, order);
    PlayConcat(c, m.frames, FinishWithStop(m.s, None).frames);
    hide Play, StartTools, FinishWithStop, Sync, SameServer, ServerBlocks;
    StartedServe(s, c, order);
    SameServerBlocks(c.blocks, e.blocks);
    FinishServes(m.s, e, None);
  }

  lemma CloseOpenServes(s: Stream, c: Client)
    requires Sync(s, c) && s.started
    ensures ServerBlocks(Play(c, CloseOpenContentBlocks(s).frames).blocks) == ServerBlocks(c.blocks)
  {
    CloseOpenEffect(s, c);
    var after := Shut(Shut(c.blocks, s.thinkingIndex), s.textIndex);
    hide Play, CloseOpenContentBlocks, Sync;
    ClosedServe(s, c, after);
    SameServerBlocks(c.blocks, after);
  }
}
