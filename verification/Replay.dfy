/** Assistant content a stream has shown the client is acceptable when it comes back as history. */
module Replay {
  import opened Prelude
  import opened Protocol
  import opened Translator
  import opened Lifecycle
  import opened Finishing
  import opened Rounds
  import H = History

  /** A client block as the client would send it back. A server use carries an object by construction. */
  function Replayed(b: Block): H.Block {
    match b.head
    case TextHead => H.TextBlock(b.body)
    case ThinkingHead => H.ThinkingBlock(Some(b.body))
    case ToolUseHead(id, name) => H.ToolUse(id, name, b.body)
    case ServerUseHead(id, name) => H.ServerToolUse(id, name, Some(b.body))
    case SearchResultHead(id, content) => H.SearchResult(id, content)
  }

  function ReplayAll(blocks: seq<Block>): (r: seq<H.Block>)
    ensures |r| == |blocks| && forall i | 0 <= i < |blocks| :: r[i] == Replayed(blocks[i])
  {
    seq(|blocks|, i requires 0 <= i < |blocks| => Replayed(blocks[i]))
  }

  ghost predicate Replayable(blocks: seq<Block>) {
    H.AssistantValid(ReplayAll(blocks))
  }

  /** Same heads, and text blocks still saying something. */
  ghost predicate SameShape(a: seq<Block>, b: seq<Block>) {
    && |a| == |b|
    && forall i | 0 <= i < |a| :: a[i].head == b[i].head && (b[i].head.TextHead? ==> b[i].body != "")
  }

  lemma UsesOf(blocks: seq<Block>)
    ensures H.Uses(ReplayAll(blocks)) == set i | 0 <= i < |blocks| && blocks[i].head.ServerUseHead? :: blocks[i].head.id
    ensures H.Answers(ReplayAll(blocks)) == set i | 0 <= i < |blocks| && blocks[i].head.SearchResultHead? :: blocks[i].head.toolUseId
  {
    var r := ReplayAll(blocks);
    var u := set i | 0 <= i < |blocks| && blocks[i].head.ServerUseHead? :: blocks[i].head.id;
    var a := set i | 0 <= i < |blocks| && blocks[i].head.SearchResultHead? :: blocks[i].head.toolUseId;
    forall id | id in H.Uses(r) ensures id in u {
      var i :| 0 <= i < |r| && r[i].ServerToolUse? && r[i].id == id;
      assert blocks[i].head.ServerUseHead?;
    }
    forall id | id in u ensures id in H.Uses(r) {
      var i :| 0 <= i < |blocks| && blocks[i].head.ServerUseHead? && blocks[i].head.id == id;
      assert r[i].ServerToolUse?;
    }
    forall id | id in H.Answers(r) ensures id in a {
      var i :| 0 <= i < |r| && r[i].SearchResult? && r[i].toolUseId == id;
      assert blocks[i].head.SearchResultHead?;
    }
    forall id | id in a ensures id in H.Answers(r) {
      var i :| 0 <= i < |blocks| && blocks[i].head.SearchResultHead? && blocks[i].head.toolUseId == id;
      assert r[i].SearchResult?;
    }
  }

  lemma SameShapeSameIds(a: seq<Block>, b: seq<Block>)
    requires SameShape(a, b)
    ensures H.Uses(ReplayAll(a)) == H.Uses(ReplayAll(b)) && H.Answers(ReplayAll(a)) == H.Answers(ReplayAll(b))
  {
    UsesOf(a);
    UsesOf(b);
  }

  lemma SameShapeReplays(a: seq<Block>, b: seq<Block>)
    requires SameShape(a, b) && Replayable(a)
    ensures Replayable(b)
  {
    SameShapeSameIds(a, b);
    var r, t := ReplayAll(a), ReplayAll(b);
    forall i | 0 <= i < |t| ensures H.AssistantBlockLegal(t[..i], t[i]) {
      assert H.AssistantBlockLegal(r[..i], r[i]);
      assert r[..i] == ReplayAll(a[..i]) && t[..i] == ReplayAll(b[..i]);
      SameShapeSameIds(a[..i], b[..i]);
    }
  }

  /** One more block that is legal where it stands. */
  lemma AppendReplays(blocks: seq<Block>, b: Block)
    requires H.AssistantSoFar(ReplayAll(blocks)) && H.AssistantBlockLegal(ReplayAll(blocks), Replayed(b))
    ensures H.AssistantSoFar(ReplayAll(blocks + [b]))
    ensures ReplayAll(blocks + [b]) == ReplayAll(blocks) + [Replayed(b)]
  {
    var r := ReplayAll(blocks + [b]);
    assert r == ReplayAll(blocks) + [Replayed(b)];
    forall i | 0 <= i < |r| ensures H.AssistantBlockLegal(r[..i], r[i]) {
      if i < |blocks| {
        assert r[..i] == ReplayAll(blocks)[..i];
      } else {
        assert r[..i] == ReplayAll(blocks);
      }
    }
  }

  /** What may be appended while no search is open. */
  predicate Plain(b: Block) {
    || (b.head.TextHead? && b.body != "")
    || b.head.ThinkingHead?
    || (b.head.ToolUseHead? && b.head.id != "" && b.head.name != "")
  }

  lemma AppendPlain(blocks: seq<Block>, b: Block)
    requires Replayable(blocks) && Plain(b)
    ensures Replayable(blocks + [b])
    ensures H.Uses(ReplayAll(blocks + [b])) == H.Uses(ReplayAll(blocks))
  {
    AppendReplays(blocks, b);
    H.OneMoreBlock(ReplayAll(blocks), Replayed(b));
  }

  // ---- what a chunk does ----

  /** Ids and names the translator remembers are never empty. */
  ghost predicate Named(s: Stream) {
    forall k | k in s.tools :: s.tools[k].id != Some("") && s.tools[k].name != Some("")
  }

  ghost predicate TextsSpeak(blocks: seq<Block>) {
    forall i | 0 <= i < |blocks| :: blocks[i].head.TextHead? ==> blocks[i].body != ""
  }

  lemma ReplayableSpeaks(blocks: seq<Block>)
    requires Replayable(blocks)
    ensures TextsSpeak(blocks)
  {
    forall i | 0 <= i < |blocks| && blocks[i].head.TextHead? ensures blocks[i].body != "" {
      assert H.AssistantBlockLegal(ReplayAll(blocks)[..i], ReplayAll(blocks)[i]);
    }
  }

  /** Writing text or thinking keeps the content replayable, and adds no search. */
  lemma WithTextReplays(c: Client, at: Option<nat>, head: BlockHead, more: string)
    requires Replayable(c.blocks) && more != "" && (head.TextHead? || head.ThinkingHead?)
    requires at.Some? ==> at.value < |c.blocks|
    ensures Replayable(WithText(c, at, head, more).blocks)
    ensures H.Uses(ReplayAll(WithText(c, at, head, more).blocks)) == H.Uses(ReplayAll(c.blocks))
  {
    ReplayableSpeaks(c.blocks);
    var after := WithText(c, at, head, more).blocks;
    if at.Some? {
      assert SameShape(c.blocks, after);
      SameShapeReplays(c.blocks, after);
      SameShapeSameIds(c.blocks, after);
    } else {
      assert "" + more == more;
      assert after == c.blocks + [Block(head, more, false)];
      AppendPlain(c.blocks, Block(head, more, false));
    }
  }

  lemma ToolEffectReplays(s: Stream, c: Client, call: Fragment)
    requires Sync(s, c) && Replayable(c.blocks) && Named(s)
    ensures Replayable(ToolEffect(s, c, call).blocks) && Named(HandleTool(s, call).s)
    ensures H.Uses(ReplayAll(ToolEffect(s, c, call).blocks)) == H.Uses(ReplayAll(c.blocks))
  {
    HandleToolCases(s, call);
    ReplayableSpeaks(c.blocks);
    var t := NoteFragment(s, call);
    assert t.id != Some("") && t.name != Some("");
    var after := ToolEffect(s, c, call).blocks;
    hide HandleTool;
    if OpensBlock(s, call) {
      AppendPlain(c.blocks, Block(ToolUseHead(CallId(t, call.index), CallName(t)), t.pending + call.arguments, false));
    } else if t.block.Some? {
      assert SameShape(c.blocks, after);
      SameShapeReplays(c.blocks, after);
      SameShapeSameIds(c.blocks, after);
    }
  }

  lemma {:induction false} HandleToolsReplays(s: Stream, c: Client, calls: seq<Fragment>)
    requires Sync(s, c) && s.started && Replayable(c.blocks) && Named(s)
    ensures var o := HandleTools(s, calls); var d := Play(c, o.frames);
            && Sync(o.s, d) && o.s.started && Replayable(d.blocks) && Named(o.s)
            && H.Uses(ReplayAll(d.blocks)) == H.Uses(ReplayAll(c.blocks))
    decreases |calls|
  {
    hide Sync, Replayable, Named, HandleTool, ToolEffect, Play;
    if calls == [] {
      PlayNothing(c);
    } else {
      var n := |calls| - 1;
      HandleToolsReplays(s, c, calls[..n]);
      var o := HandleTools(s, calls[..n]);
      var d := Play(c, o.frames);
      HandleToolEffect(o.s, d, calls[n]);
      HandleToolSyncs(o.s, d, calls[n]);
      HandleToolKeys(o.s, calls[n]);
      ToolEffectReplays(o.s, d, calls[n]);
      PlayConcat(c, o.frames, HandleTool(o.s, calls[n]).frames);
    }
  }

  /** The translator and the client still fit, and what the client shows can be replayed. */
  ghost predicate Fits(s: Stream, c: Client) {
    Sync(s, c) && s.started && Replayable(c.blocks) && Named(s)
  }

  lemma ReasoningReplays(s: Stream, c: Client, reasoning: string)
    requires Fits(s, c)
    ensures var o := HandleReasoning(s, reasoning); var d := Play(c, o.frames);
            Fits(o.s, d) && H.Uses(ReplayAll(d.blocks)) == H.Uses(ReplayAll(c.blocks))
  {
    IndexInRange(s, c);
    SpeechOnly(s, reasoning, "");
    SpeechNames(s, reasoning, "");
    hide Replayable, Named;
    if reasoning != "" && s.expose {
      ReasoningEffect(s, c, reasoning);
      ReasoningSyncs(s, c, reasoning);
      WithTextReplays(c, s.thinkingIndex, ThinkingHead, reasoning);
    }
    hide Sync, WithText;
  }

  lemma TextReplays(s: Stream, c: Client, text: string)
    requires Fits(s, c)
    ensures var o := HandleText(s, text); var d := Play(c, o.frames);
            Fits(o.s, d) && H.Uses(ReplayAll(d.blocks)) == H.Uses(ReplayAll(c.blocks))
  {
    IndexInRange(s, c);
    SpeechOnly(s, "", text);
    SpeechNames(s, "", text);
    hide Replayable, Named;
    if text != "" {
      TextEffect(s, c, text);
      TextSyncs(s, c, text);
      WithTextReplays(c, s.textIndex, TextHead, text);
    }
    hide Sync, WithText;
  }

  lemma SpeechNames(s: Stream, reasoning: string, text: string)
    ensures HandleReasoning(s, reasoning).s.tools == s.tools && HandleText(s, text).s.tools == s.tools
    ensures Named(s) ==> Named(HandleReasoning(s, reasoning).s) && Named(HandleText(s, text).s)
  {
  }

  /** A data chunk keeps the shown content replayable and opens no search. */
  lemma HandleDataReplays(s: Stream, c: Client, chunk: Chunk, requestId: string, model: string)
    requires Sync(s, c) && Replayable(c.blocks) && Named(s) && chunk.Data?
    ensures var o := HandleData(s, chunk, requestId, model); var d := Play(c, o.frames);
            && Replayable(d.blocks) && Named(o.s)
            && H.Uses(ReplayAll(d.blocks)) == H.Uses(ReplayAll(c.blocks))
  {
    hide Sync, Replayable, Named, Play, HandleReasoning, HandleText, HandleTools;
    var o0 := Begin(s, chunk, requestId, model);
    var n := Note(o0.s, chunk);
    var c0 := Play(c, o0.frames);
    BeginReplays(s, c, chunk, requestId, model);
    hide Begin, Note;
    var o1 := HandleReasoning(n, chunk.reasoning);
    var c1 := Play(c0, o1.frames);
    ReasoningReplays(n, c0, chunk.reasoning);
    var o2 := HandleText(o1.s, chunk.text);
    var c2 := Play(c1, o2.frames);
    TextReplays(o1.s, c1, chunk.text);
    var o3 := HandleTools(o2.s, chunk.calls);
    HandleToolsReplays(o2.s, c2, chunk.calls);
    PlayConcat(c, o0.frames, o1.frames);
    PlayConcat(c, o0.frames + o1.frames, o2.frames);
    PlayConcat(c, o0.frames + o1.frames + o2.frames, o3.frames);
  }

  lemma BeginReplays(s: Stream, c: Client, chunk: Chunk, requestId: string, model: string)
    requires Sync(s, c) && Replayable(c.blocks) && Named(s) && chunk.Data?
    ensures var o := Begin(s, chunk, requestId, model); var n := Note(o.s, chunk); var d := Play(c, o.frames);
            Sync(n, d) && n.started && d.blocks == c.blocks && Named(n)
  {
    hide Replayable;
    if s.started {
      PlayNothing(c);
    } else {
      PlaySingle(c, Begin(s, chunk, requestId, model).frames[0]);
    }
  }

  // ---- finishing and server rounds ----

  lemma {:induction false} AppendAllPlain(blocks: seq<Block>, more: seq<Block>)
    requires Replayable(blocks) && forall i | 0 <= i < |more| :: Plain(more[i])
    ensures Replayable(blocks + more) && H.Uses(ReplayAll(blocks + more)) == H.Uses(ReplayAll(blocks))
    decreases |more|
  {
    if more == [] {
      assert blocks + more == blocks;
    } else {
      var n := |more| - 1;
      AppendAllPlain(blocks, more[..n]);
      AppendPlain(blocks + more[..n], more[n]);
      assert blocks + more[..n] + [more[n]] == blocks + more;
    }
  }

  lemma StartToolsReplays(s: Stream, c: Client, order: seq<nat>)
    requires Replayable(c.blocks) && Named(s) && forall k | k in order :: k in s.tools
    ensures Replayable(c.blocks + NewToolBlocks(s, order))
  {
    var more := NewToolBlocks(s, order);
    forall i | 0 <= i < |more| ensures Plain(more[i]) {
      assert order[i] in s.tools;
    }
    AppendAllPlain(c.blocks, more);
  }

  /** Finishing leaves replayable content behind. */
  lemma FinalizeReplays(s: Stream, c: Client, order: seq<nat>)
    requires Sync(s, c) && s.started && !s.terminal && Replayable(c.blocks) && Named(s) && PendingOrder(s, order)
    ensures Replayable(Play(c, Finalize(s, order).frames).blocks)
  {
    hide Replayable, Play, Sync, Named;
    var m := StartTools(s, order);
    StartToolsEffect(s, c, order);
    StartToolsResult(s, order);
    assert m.s.started by { StartedSameSpeechAndStart(s, m.s, order); }
    hide StartTools;
    StartToolsReplays(s, c, order);
    var e := Play(c, m.frames);
    FinishReplays(m.s, e, None);
    PlayConcat(c, m.frames, FinishWithStop(m.s, None).frames);
  }

  lemma StartedSameSpeechAndStart(s: Stream, s': Stream, order: seq<nat>)
    requires StartedAll(s, s', order)
    ensures s'.started == s.started
  {
  }

  lemma FinishReplays(s: Stream, c: Client, stop: Option<string>)
    requires Sync(s, c) && s.started && Replayable(c.blocks)
    ensures Replayable(Play(c, FinishWithStop(s, stop).frames).blocks)
  {
    FinishEffect(s, c, stop);
    ReplayableSpeaks(c.blocks);
    assert SameShape(c.blocks, CloseBelow(c.blocks, |c.blocks|));
    SameShapeReplays(c.blocks, CloseBelow(c.blocks, |c.blocks|));
  }

  lemma CloseOpenReplays(s: Stream, c: Client)
    requires Sync(s, c) && s.started && Replayable(c.blocks)
    ensures var d := Play(c, CloseOpenContentBlocks(s).frames);
            Replayable(d.blocks) && H.Uses(ReplayAll(d.blocks)) == H.Uses(ReplayAll(c.blocks))
  {
    hide Play, Replayable;
    var o := CloseThinking(s);
    CloseThinkingEffect(s, c);
    var d := Play(c, o.frames);
    var p := CloseText(o.s);
    CloseTextEffect(o.s, d);
    PlayConcat(c, o.frames, p.frames);
    ReplayableSpeaks(c.blocks);
    var e := Play(d, p.frames);
    assert SameShape(c.blocks, e.blocks);
    SameShapeReplays(c.blocks, e.blocks);
    SameShapeSameIds(c.blocks, e.blocks);
  }

  function SetOf(ids: seq<string>): set<string> {
    set i | 0 <= i < |ids| :: ids[i]
  }

  lemma SetOfMore(ids: seq<string>)
    requires ids != []
    ensures SetOf(ids) == SetOf(ids[..|ids| - 1]) + {ids[|ids| - 1]}
  {
    var n := |ids| - 1;
    assert forall i | 0 <= i < n :: ids[..n][i] == ids[i];
    forall id | id in SetOf(ids) ensures id in SetOf(ids[..n]) + {ids[n]} {
      var i :| 0 <= i < |ids| && ids[i] == id;
      assert i < n ==> ids[..n][i] == id;
    }
  }

  ghost predicate FreshIds(ids: seq<string>, taken: set<string>) {
    && (forall i | 0 <= i < |ids| :: ids[i] != "" && ids[i] !in taken)
    && (forall i, j | 0 <= i < j < |ids| :: ids[i] != ids[j])
  }

  lemma {:induction false} UsesReplay(blocks: seq<Block>, ids: seq<string>, inputs: seq<string>)
    requires Replayable(blocks) && |ids| == |inputs| && FreshIds(ids, H.Uses(ReplayAll(blocks)))
    ensures var r := ReplayAll(blocks + UseBlocks(ids, inputs));
            && H.AssistantSoFar(r)
            && H.Uses(r) == H.Uses(ReplayAll(blocks)) + SetOf(ids)
            && H.Answers(r) == H.Answers(ReplayAll(blocks))
    decreases |ids|
  {
    if ids == [] {
      assert blocks + UseBlocks(ids, inputs) == blocks;
    } else {
      var n := |ids| - 1;
      UsesReplay(blocks, ids[..n], inputs[..n]);
      var before := blocks + UseBlocks(ids[..n], inputs[..n]);
      var b := UseBlocks(ids, inputs)[n];
      assert before + [b] == blocks + UseBlocks(ids, inputs);
      AppendReplays(before, b);
      H.OneMoreBlock(ReplayAll(before), Replayed(b));
      SetOfMore(ids);
    }
  }

  lemma {:induction false} ResultsReplay(blocks: seq<Block>, ids: seq<string>, results: seq<string>)
    requires H.AssistantSoFar(ReplayAll(blocks)) && |ids| <= |results|
    requires FreshIds(ids, H.Answers(ReplayAll(blocks))) && forall i | 0 <= i < |ids| :: ids[i] in H.Uses(ReplayAll(blocks))
    ensures var r := ReplayAll(blocks + ResultBlocks(ids, results));
            && H.AssistantSoFar(r)
            && H.Answers(r) == H.Answers(ReplayAll(blocks)) + SetOf(ids)
            && H.Uses(r) == H.Uses(ReplayAll(blocks))
    decreases |ids|
  {
    if ids == [] {
      assert blocks + ResultBlocks(ids, results) == blocks;
    } else {
      var n := |ids| - 1;
      ResultsReplay(blocks, ids[..n], results);
      var before := blocks + ResultBlocks(ids[..n], results);
      var b := ResultBlocks(ids, results)[n];
      assert before + [b] == blocks + ResultBlocks(ids, results);
      assert ids[n] !in SetOf(ids[..n]);
      AppendReplays(before, b);
      H.OneMoreBlock(ReplayAll(before), Replayed(b));
      SetOfMore(ids);
    }
  }

  lemma AnswersAreUses(r: seq<H.Block>)
    requires H.AssistantSoFar(r)
    ensures H.Answers(r) <= H.Uses(r)
  {
    forall id | id in H.Answers(r) ensures id in H.Uses(r) {
      var i :| 0 <= i < |r| && r[i].SearchResult? && r[i].toolUseId == id;
      assert H.AssistantBlockLegal(r[..i], r[i]);
      var j :| 0 <= j < i && r[..i][j].ServerToolUse? && r[..i][j].id == id;
      assert r[j].ServerToolUse?;
    }
  }

  /** A whole search round, uses then results under fresh ids, keeps the content replayable. */
  lemma RoundReplays(blocks: seq<Block>, ids: seq<string>, inputs: seq<string>, results: seq<string>)
    requires Replayable(blocks) && |ids| == |inputs| == |results| && FreshIds(ids, H.Uses(ReplayAll(blocks)))
    ensures Replayable(blocks + UseBlocks(ids, inputs) + ResultBlocks(ids, results))
    ensures H.Uses(ReplayAll(blocks + UseBlocks(ids, inputs) + ResultBlocks(ids, results)))
         == H.Uses(ReplayAll(blocks)) + SetOf(ids)
  {
    UsesReplay(blocks, ids, inputs);
    AnswersAreUses(ReplayAll(blocks));
    var begun := blocks + UseBlocks(ids, inputs);
    assert forall i | 0 <= i < |ids| :: ids[i] in SetOf(ids);
    ResultsReplay(begun, ids, results);
  }
}
