/** How a round ends: tools the client has not seen, closing frames, and server-tool blocks. */
module Finishing {
  import opened Prelude
  import opened Protocol
  import opened Upstream
  import opened Translator
  import opened Lifecycle

  // ---- tools that were held back ----

  function NewToolBlock(s: Stream, k: nat): Block
    requires k in s.tools
  {
    Block(ToolUseHead(CallId(s.tools[k], k), CallName(s.tools[k])), s.tools[k].pending, false)
  }

  function NewToolBlocks(s: Stream, order: seq<nat>): (blocks: seq<Block>)
    requires forall k | k in order :: k in s.tools
    ensures |blocks| == |order| && forall j | 0 <= j < |order| :: blocks[j] == NewToolBlock(s, order[j])
  {
    if order == [] then []
    else NewToolBlocks(s, order[..|order| - 1]) + [NewToolBlock(s, order[|order| - 1])]
  }

  /** Exactly what starting the held-back tools in some order changes. */
  ghost predicate StartedAll(s: Stream, s': Stream, order: seq<nat>) {
    && s' == s.(blocks := s'.blocks, tools := s'.tools)
    && |s'.blocks| == |s.blocks| + |order|
    && (forall i | 0 <= i < |s.blocks| :: s'.blocks[i] == s.blocks[i])
    && (forall i | |s.blocks| <= i < |s'.blocks| :: s'.blocks[i] == Tool)
    && (forall k :: k in s'.tools <==> k in s.tools)
    && (forall j | 0 <= j < |order| :: order[j] in s.tools
          && s'.tools[order[j]] == s.tools[order[j]].(block := Some(|s.blocks| + j), pending := ""))
    && (forall k | k in s.tools && k !in order :: s'.tools[k] == s.tools[k])
  }

  lemma {:induction false} StartToolsResult(s: Stream, order: seq<nat>)
    requires Distinct(order) && forall k | k in order :: k in s.tools
    ensures StartedAll(s, StartTools(s, order).s, order)
    decreases |order|
  {
    if order != [] {
      var before, k := order[..|order| - 1], order[|order| - 1];
      StartToolsResult(s, before);
      var m := StartTools(s, before).s;
      var s' := StartTools(s, order).s;
      assert s' == StartTool(m, k, m.tools[k]).s;
      hide StartTools, StartTool;
      StartedOneMore(s, m, s', order);
    }
  }

  lemma {:induction false} StartToolsEffect(s: Stream, c: Client, order: seq<nat>)
    requires Sync(s, c) && s.started && Distinct(order)
    requires forall k | k in order :: k in s.tools
    ensures var o := StartTools(s, order);
            && Play(c, o.frames) == c.(blocks := c.blocks + NewToolBlocks(s, order))
            && Sync(o.s, Play(c, o.frames))
    decreases |order|
  {
    hide Play, Sync, StartTool, Distinct;
    if order != [] {
      var before, k := order[..|order| - 1], order[|order| - 1];
      var o := StartTools(s, before);
      var d := Play(c, o.frames);
      var p := StartTool(o.s, k, o.s.tools[k]);
      assert Distinct(before) && k !in before by { DistinctFront(order); }
      assert StartedAll(s, o.s, before) by { StartToolsResult(s, before); }
      StartToolsEffect(s, c, before);
      StartToolEffect(o.s, d, k, o.s.tools[k]);
      PlayConcat(c, o.frames, p.frames);
      assert c.blocks + NewToolBlocks(s, before) + [NewToolBlock(s, k)] == c.blocks + NewToolBlocks(s, order);
    } else {
      PlayNothing(c);
      assert c.blocks + [] == c.blocks;
    }
  }

  lemma DistinctFront(order: seq<nat>)
    requires Distinct(order) && order != []
    ensures Distinct(order[..|order| - 1]) && order[|order| - 1] !in order[..|order| - 1]
  {
  }

  lemma StartToolShape(m: Stream, k: nat, t: ToolStream)
    ensures StartTool(m, k, t).s
         == m.(blocks := m.blocks + [Tool], tools := m.tools[k := t.(block := Some(|m.blocks|), pending := "")])
  {
  }

  lemma StartedOneMore(s: Stream, m: Stream, s': Stream, order: seq<nat>)
    requires order != [] && Distinct(order) && forall k | k in order :: k in s.tools
    requires var before, k := order[..|order| - 1], order[|order| - 1];
             StartedAll(s, m, before) && s' == StartTool(m, k, m.tools[k]).s
    ensures StartedAll(s, s', order)
  {
    var before, k := order[..|order| - 1], order[|order| - 1];
    StartToolShape(m, k, m.tools[k]);
    hide StartTool;
    assert k !in before;
    assert m.tools[k] == s.tools[k];
    assert forall j | 0 <= j < |before| :: order[j] == before[j];
    forall j | j in s.tools && j !in order ensures s'.tools[j] == s.tools[j] {
      assert j !in before;
    }
  }

  lemma HeardAppended(blocks: seq<Block>, more: seq<Block>, at: Option<nat>, head: BlockHead, content: string)
    requires Heard(blocks, at, head, content) && forall j | 0 <= j < |more| :: more[j].head != head
    ensures Heard(blocks + more, at, head, content)
  {
    AppendedSaid(blocks, more, head);
  }

  lemma StartedSaid(s: Stream, c: Client, s': Stream, order: seq<nat>, said: string, reasoning: string)
    requires SaidTracks(s, c, said, reasoning) && SameSpeech(s, s') && forall k | k in order :: k in s.tools
    ensures SaidTracks(s', c.(blocks := c.blocks + NewToolBlocks(s, order)), said, reasoning)
  {
    hide Heard;
    HeardAppended(c.blocks, NewToolBlocks(s, order), s.textIndex, TextHead, said);
    HeardAppended(c.blocks, NewToolBlocks(s, order), s.thinkingIndex, ThinkingHead, if s.expose then reasoning else "");
  }

  lemma StartedSameSpeech(s: Stream, s': Stream, order: seq<nat>)
    requires StartedAll(s, s', order)
    ensures SameSpeech(s, s')
  {
  }

  lemma AllPendingStarted(s: Stream, s': Stream, order: seq<nat>)
    requires StartedAll(s, s', order) && PendingOrder(s, order)
    ensures forall k | k in s'.tools && !s'.tools[k].server :: s'.tools[k].block.Some?
  {
    forall k | k in s'.tools && !s'.tools[k].server ensures s'.tools[k].block.Some? {
      if k in order {
        var j :| 0 <= j < |order| && order[j] == k;
        assert order[j] in s.tools;
      } else {
        assert k !in PendingTools(s);
      }
    }
  }

  /** Starting held-back tools moves each one's pending arguments to the client, whole. */
  lemma StartToolsKeep(s: Stream, c: Client, order: seq<nat>, said: string, reasoning: string, frags: seq<Fragment>)
    requires Sync(s, c) && SaidTracks(s, c, said, reasoning) && ToolsTrack(s, c, frags) && s.started && PendingOrder(s, order)
    ensures var o := StartTools(s, order); var d := Play(c, o.frames);
            && Sync(o.s, d) && SaidTracks(o.s, d, said, reasoning) && ToolsTrack(o.s, d, frags)
            && forall k | k in o.s.tools && !o.s.tools[k].server :: o.s.tools[k].block.Some?
  {
    hide Play, StartTools, ToolsTrack, SaidTracks, StartedAll;
    var o := StartTools(s, order);
    StartToolsEffect(s, c, order);
    StartToolsResult(s, order);
    StartedToolsTrack(s, c, o.s, Play(c, o.frames), order, frags);
    StartedSameSpeech(s, o.s, order);
    StartedSaid(s, c, o.s, order, said, reasoning);
    AllPendingStarted(s, o.s, order);
  }

  lemma {:induction false} AppendedSaid(blocks: seq<Block>, more: seq<Block>, head: BlockHead)
    requires forall b | b in more :: b.head != head
    ensures Said(blocks + more, head) == Said(blocks, head)
    decreases |more|
  {
    if more == [] {
      assert blocks + more == blocks;
    } else {
      var n := |more| - 1;
      AppendedSaid(blocks, more[..n], head);
      assert blocks + more == blocks + more[..n] + [more[n]];
      SaidOpens(blocks + more[..n], more[n], head);
    }
  }

  lemma StartedToolsTrack(s: Stream, c: Client, s': Stream, d: Client, order: seq<nat>, frags: seq<Fragment>)
    requires |s.blocks| == |c.blocks| && ToolsTrack(s, c, frags) && PendingOrder(s, order) && StartedAll(s, s', order)
    requires forall k | k in s.tools && s.tools[k].block.Some? :: s.tools[k].block.value < |c.blocks|
    requires d == c.(blocks := c.blocks + NewToolBlocks(s, order))
    ensures ToolsTrack(s', d, frags)
  {
    forall k | k in s'.tools ensures ToolTracks(s'.tools[k], k, s'.serverNames, d, frags) {
      assert ToolTracks(s.tools[k], k, s.serverNames, c, frags);
      if k in order {
        var j :| 0 <= j < |order| && order[j] == k;
        assert order[j] in PendingTools(s);
        assert d.blocks[|c.blocks| + j] == NewToolBlock(s, order[j]);
      }
    }
    forall j, k | j in s'.tools && k in s'.tools && j != k && s'.tools[j].block.Some?
      ensures s'.tools[j].block != s'.tools[k].block
    {
      StartedApart(s, s', order, j, k);
    }
  }

  lemma StartedApart(s: Stream, s': Stream, order: seq<nat>, j: nat, k: nat)
    requires StartedAll(s, s', order)
    requires forall i | i in s.tools && s.tools[i].block.Some? :: s.tools[i].block.value < |s.blocks|
    requires j in s.tools && k in s.tools && j != k && s'.tools[j].block.Some?
    requires s.tools[j].block.Some? ==> s.tools[j].block != s.tools[k].block
    ensures s'.tools[j].block != s'.tools[k].block
  {
    if j in order {
      var a :| 0 <= a < |order| && order[a] == j;
      if k in order {
        var b :| 0 <= b < |order| && order[b] == k;
      }
    } else if k in order {
      var b :| 0 <= b < |order| && order[b] == k;
    }
  }

  // ---- closing frames ----

  function CloseBelow(blocks: seq<Block>, n: nat): (closed: seq<Block>)
    ensures |closed| == |blocks|
    ensures forall i | 0 <= i < |blocks| :: closed[i] == if i < n then blocks[i].(closed := true) else blocks[i]
  {
    seq(|blocks|, i requires 0 <= i < |blocks| => if i < n then blocks[i].(closed := true) else blocks[i])
  }

  lemma {:induction false} ClosingEffect(kinds: seq<BlockKind>, c: Client)
    requires c.phase == Streaming && |kinds| <= |c.blocks|
    requires forall i | 0 <= i < |kinds| :: Matches(kinds[i], c.blocks[i])
    ensures Play(c, Closing(kinds)) == c.(blocks := CloseBelow(c.blocks, |kinds|))
    decreases |kinds|
  {
    if kinds == [] {
      assert CloseBelow(c.blocks, 0) == c.blocks;
    } else {
      var n := |kinds| - 1;
      ClosingEffect(kinds[..n], c);
      var d := c.(blocks := CloseBelow(c.blocks, n));
      var last := Closing(kinds)[|Closing(kinds[..n])|..];
      assert Closing(kinds) == Closing(kinds[..n]) + last;
      PlayConcat(c, Closing(kinds[..n]), last);
      CloseOne(kinds[n], d, n, last);
      assert CloseBelow(d.blocks, n + 1) == CloseBelow(c.blocks, n + 1);
    }
  }

  lemma CloseOne(kind: BlockKind, d: Client, n: nat, frames: seq<Frame>)
    requires d.phase == Streaming && n < |d.blocks| && Matches(kind, d.blocks[n])
    requires forall i | 0 <= i < n :: d.blocks[i].closed
    requires frames == match kind
                       case Closed => []
                       case Thinking => [BlockDelta(n, SignatureDelta), BlockStop(n)]
                       case Text => [BlockStop(n)]
                       case Tool => [BlockStop(n)]
    ensures Play(d, frames) == d.(blocks := CloseBelow(d.blocks, n + 1))
  {
    assert CloseBelow(d.blocks, n + 1) == d.blocks[n := d.blocks[n].(closed := true)];
    if kind == Thinking {
      var e := Receive(d, frames[0]);
      assert d.blocks[n].body + "" == d.blocks[n].body;
      assert e == d;
      assert frames == [frames[0]] + [frames[1]];
      PlayConcat(d, [frames[0]], [frames[1]]);
      PlaySingle(d, frames[0]);
      PlaySingle(e, frames[1]);
    } else if kind != Closed {
      PlaySingle(d, frames[0]);
    }
  }

  /** Finishing closes every open block, sends the totals, and stops. */
  lemma FinishEffect(s: Stream, c: Client, stop: Option<string>)
    requires Sync(s, c) && s.started
    ensures var o := FinishWithStop(s, stop);
            Play(c, o.frames) == Client(Stopped, CloseBelow(c.blocks, |c.blocks|),
                                        if stop.Some? then stop else MapStopReason(s.finish),
                                        ConvertUsage(s.usage, s.webSearches))
  {
    var o := FinishWithStop(s, stop);
    var summary := MessageDelta(if stop.Some? then stop else MapStopReason(s.finish), ConvertUsage(s.usage, s.webSearches));
    ClosingEffect(s.blocks, c);
    var d := c.(blocks := CloseBelow(c.blocks, |c.blocks|));
    assert o.frames == Closing(s.blocks) + ([summary] + [MessageStop]);
    PlayConcat(c, Closing(s.blocks), [summary] + [MessageStop]);
    PlayConcat(d, [summary], [MessageStop]);
    PlaySingle(d, summary);
    PlaySingle(Receive(d, summary), MessageStop);
  }

  lemma {:induction false} SaidWhenClosed(blocks: seq<Block>, head: BlockHead)
    ensures Said(CloseBelow(blocks, |blocks|), head) == Said(blocks, head)
  {
    if blocks != [] {
      var n := |blocks| - 1;
      SaidWhenClosed(blocks[..n], head);
      assert CloseBelow(blocks, n + 1)[..n] == CloseBelow(blocks[..n], n);
    }
  }

  /** Closing blocks and ending changes neither what was said nor any tool's input. */
  lemma FinishKeeps(s: Stream, c: Client, stop: Option<string>, said: string, reasoning: string, frags: seq<Fragment>)
    requires Sync(s, c) && SaidTracks(s, c, said, reasoning) && ToolsTrack(s, c, frags) && s.started
    ensures var o := FinishWithStop(s, stop); var d := Play(c, o.frames);
            && d.phase == Stopped && AllClosed(d.blocks)
            && Said(d.blocks, TextHead) == said
            && Said(d.blocks, ThinkingHead) == (if s.expose then reasoning else "")
            && o.s == s.(terminal := true)
            && ToolsTrack(o.s, d, frags)
            && d.stop == (if stop.Some? then stop else MapStopReason(s.finish))
            && d.usage == ConvertUsage(s.usage, s.webSearches)
            && (stop.None? && s.finish.Some? ==> StopSays(s.finish.value, d.stop)) && UsageSays(s.usage, s.webSearches, d.usage)
  {
    if s.finish.Some? {
      StopIsSaid(s.finish.value);
    }
    UsageIsSaid(s.usage, s.webSearches);
    hide Play, ToolsTrack, Sync, StopSays, UsageSays, ConvertUsage, MapStopReason;
    FinishEffect(s, c, stop);
    SaidWhenClosed(c.blocks, TextHead);
    SaidWhenClosed(c.blocks, ThinkingHead);
    var o := FinishWithStop(s, stop);
    ToolsTrackFrame(s, c, o.s, Play(c, o.frames), frags);
  }

  /** The index has its own closed `tool_use` block, holding every fragment received for it. */
  ghost predicate Delivered(s: Stream, c: Client, k: nat, frags: seq<Fragment>) {
    && k in s.tools && s.tools[k].block.Some?
    && var i := s.tools[k].block.value;
       i < |c.blocks| && c.blocks[i].head.ToolUseHead? && c.blocks[i].closed && c.blocks[i].body == ArgsOf(frags, k)
  }

  lemma StartedDelivers(s: Stream, c: Client, s': Stream, d: Client, k: nat, frags: seq<Fragment>)
    requires Sync(s, c) && ToolsTrack(s, c, frags) && k in s.tools && s.tools[k].block.Some?
    requires s'.tools == s.tools && d.blocks == CloseBelow(c.blocks, |c.blocks|)
    ensures Delivered(s', d, k, frags)
  {
    assert ToolTracks(s.tools[k], k, s.serverNames, c, frags);
    assert Matches(s.blocks[s.tools[k].block.value], c.blocks[s.tools[k].block.value]);
  }

  /**
   Conservation for a finished round: the client stops holding exactly the text and (when exposed) the
   reasoning received, and every index that never named a server tool ends in its own `tool_use` block
   whose input is the concatenation of that index's fragments.
   */
  lemma FinalizeDelivers(s: Stream, c: Client, order: seq<nat>, said: string, reasoning: string, frags: seq<Fragment>)
    requires Inv(s, c, said, reasoning, frags) && s.started && !s.terminal && PendingOrder(s, order)
    ensures var o := Finalize(s, order); var d := Play(c, o.frames);
            && d.phase == Stopped && AllClosed(d.blocks)
            && Said(d.blocks, TextHead) == said
            && Said(d.blocks, ThinkingHead) == (if s.expose then reasoning else "")
            && o.s.shadow == (if s.expose then "" else reasoning)
            && ToolsTrack(o.s, d, frags)
            && (forall k: nat | Mentioned(frags, k) && !EverServer(frags, k, s.serverNames) :: Delivered(o.s, d, k, frags))
            && d.stop == MapStopReason(s.finish)
            && d.usage == ConvertUsage(s.usage, s.webSearches)
  {
    hide Play, Sync, Heard, StartTools, FinishWithStop, Delivered;
    var m := StartTools(s, order);
    var e := Play(c, m.frames);
    StartToolsKeep(s, c, order, said, reasoning, frags);
    StartToolsResult(s, order);
    var o := FinishWithStop(m.s, None);
    FinishKeeps(m.s, e, None, said, reasoning, frags);
    FinishEffect(m.s, e, None);
    PlayConcat(c, m.frames, o.frames);
    forall k: nat | Mentioned(frags, k) && !EverServer(frags, k, s.serverNames)
      ensures Delivered(o.s, Play(c, Finalize(s, order).frames), k, frags)
    {
      assert ToolTracks(m.s.tools[k], k, s.serverNames, e, frags);
      StartedDelivers(m.s, e, o.s, Play(e, o.frames), k, frags);
    }
  }
}
