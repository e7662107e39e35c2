/** Server-tool rounds: closing what is open, announcing the searches, and giving their results. */
module Rounds {
  import opened Prelude
  import opened Protocol
  import opened Upstream
  import opened Translator
  import opened Lifecycle
  import opened Finishing

  /** The block at `at`, if there is one, closed. */
  function Shut(blocks: seq<Block>, at: Option<nat>): seq<Block> {
    if at.None? || at.value >= |blocks| then blocks else blocks[at.value := blocks[at.value].(closed := true)]
  }

  lemma CloseThinkingEffect(s: Stream, c: Client)
    requires Sync(s, c) && s.started
    ensures var o := CloseThinking(s);
            && Play(c, o.frames) == c.(blocks := Shut(c.blocks, s.thinkingIndex))
            && Sync(o.s, c.(blocks := Shut(c.blocks, s.thinkingIndex)))
            && o.s == s.(blocks := o.s.blocks, thinkingIndex := None)
  {
    if s.thinkingIndex.Some? {
      var i := s.thinkingIndex.value;
      var sign := BlockDelta(i, SignatureDelta);
      assert c.blocks[i].body + "" == c.blocks[i].body;
      assert c.blocks[i := c.blocks[i]] == c.blocks;
      assert CloseThinking(s).frames == [sign] + [BlockStop(i)];
      PlayConcat(c, [sign], [BlockStop(i)]);
      PlaySingle(c, sign);
      PlaySingle(c, BlockStop(i));
    }
  }

  lemma CloseTextEffect(s: Stream, c: Client)
    requires Sync(s, c) && s.started
    ensures var o := CloseText(s);
            && Play(c, o.frames) == c.(blocks := Shut(c.blocks, s.textIndex))
            && Sync(o.s, c.(blocks := Shut(c.blocks, s.textIndex)))
            && o.s == s.(blocks := o.s.blocks, textIndex := None)
  {
    if s.textIndex.Some? {
      PlaySingle(c, BlockStop(s.textIndex.value));
    }
  }

  /** Shutting a block changes no words; afterwards no block of that kind is being written. */
  lemma ShutHeard(blocks: seq<Block>, shut: Option<nat>, at: Option<nat>, head: BlockHead, content: string)
    requires Heard(blocks, at, head, content) && (shut.Some? ==> shut.value < |blocks|)
    ensures Heard(Shut(blocks, shut), at, head, content) && Heard(Shut(blocks, shut), None, head, content)
  {
    if shut.Some? {
      SaidCloses(blocks, shut.value, head);
    }
  }

  /** Ids, names and arguments survive; only the writing positions are forgotten. */
  ghost predicate Settled(s: Stream, c: Client, said: string, reasoning: string, frags: seq<Fragment>) {
    && Inv(s, c, said, reasoning, frags) && s.started
    && s.textIndex.None? && s.thinkingIndex.None?
  }

  /** Closing both content blocks shuts the client's two blocks and forgets their positions. */
  lemma CloseOpenEffect(s: Stream, c: Client)
    requires Sync(s, c) && s.started
    ensures var o := CloseOpenContentBlocks(s); var e := c.(blocks := Shut(Shut(c.blocks, s.thinkingIndex), s.textIndex));
            Play(c, o.frames) == e && Sync(o.s, e) && o.s == s.(blocks := o.s.blocks, textIndex := None, thinkingIndex := None)
  {
    hide Play, CloseThinking, CloseText, Sync;
    var o := CloseThinking(s);
    CloseThinkingEffect(s, c);
    var d := Play(c, o.frames);
    var p := CloseText(o.s);
    CloseTextEffect(o.s, d);
    PlayConcat(c, o.frames, p.frames);
  }

  lemma ShutShape(blocks: seq<Block>, shut: Option<nat>)
    ensures |Shut(blocks, shut)| == |blocks|
    ensures forall i | 0 <= i < |blocks| :: Shut(blocks, shut)[i].head == blocks[i].head && Shut(blocks, shut)[i].body == blocks[i].body
  {
  }

  lemma ShutSaid(s: Stream, c: Client, s': Stream, said: string, reasoning: string)
    requires SaidTracks(s, c, said, reasoning) && Sync(s, c)
    requires s' == s.(blocks := s'.blocks, textIndex := None, thinkingIndex := None)
    ensures SaidTracks(s', c.(blocks := Shut(Shut(c.blocks, s.thinkingIndex), s.textIndex)), said, reasoning)
  {
    IndexInRange(s, c);
    var d := Shut(c.blocks, s.thinkingIndex);
    ShutShape(c.blocks, s.thinkingIndex);
    hide Heard, Shut, Sync;
    ShutHeard(c.blocks, s.thinkingIndex, s.textIndex, TextHead, said);
    ShutHeard(c.blocks, s.thinkingIndex, s.thinkingIndex, ThinkingHead, if s.expose then reasoning else "");
    ShutHeard(d, s.textIndex, s.textIndex, TextHead, said);
    ShutHeard(d, s.textIndex, None, ThinkingHead, if s.expose then reasoning else "");
  }

  lemma CloseOpenKeeps(s: Stream, c: Client, said: string, reasoning: string, frags: seq<Fragment>)
    requires Inv(s, c, said, reasoning, frags) && s.started
    ensures var o := CloseOpenContentBlocks(s); Settled(o.s, Play(c, o.frames), said, reasoning, frags)
    ensures var o := CloseOpenContentBlocks(s);
            && |Play(c, o.frames).blocks| == |c.blocks|
            && (forall i | 0 <= i < |c.blocks| ::
                  Play(c, o.frames).blocks[i].head == c.blocks[i].head && Play(c, o.frames).blocks[i].body == c.blocks[i].body)
            && o.s == s.(blocks := o.s.blocks, textIndex := None, thinkingIndex := None)
  {
    hide Play, SaidTracks, ToolsTrack, Sync, CloseOpenContentBlocks, Shut;
    var o := CloseOpenContentBlocks(s);
    CloseOpenEffect(s, c);
    ShutSaid(s, c, o.s, said, reasoning);
    ShutShape(c.blocks, s.thinkingIndex);
    ShutShape(Shut(c.blocks, s.thinkingIndex), s.textIndex);
    ToolsTrackFrame(s, c, o.s, Play(c, o.frames), frags);
  }

  lemma IndexInRange(s: Stream, c: Client)
    requires Sync(s, c)
    ensures s.thinkingIndex.Some? ==> s.thinkingIndex.value < |c.blocks|
    ensures s.textIndex.Some? ==> s.textIndex.value < |c.blocks|
  {
  }

  // ---- server-tool blocks, as the client sees them ----

  function UseBlocks(ids: seq<string>, inputs: seq<string>): (blocks: seq<Block>)
    requires |ids| == |inputs|
    ensures |blocks| == |ids|
    ensures forall i | 0 <= i < |ids| :: blocks[i] == Block(ServerUseHead(ids[i], FUNCTION_NAME), inputs[i], true)
  {
    seq(|ids|, i requires 0 <= i < |ids| => Block(ServerUseHead(ids[i], FUNCTION_NAME), inputs[i], true))
  }

  function ResultBlocks(ids: seq<string>, results: seq<string>): (blocks: seq<Block>)
    requires |ids| <= |results|
    ensures |blocks| == |ids|
    ensures forall i | 0 <= i < |ids| :: blocks[i] == Block(SearchResultHead(ids[i], results[i]), "", true)
  {
    seq(|ids|, i requires 0 <= i < |ids| => Block(SearchResultHead(ids[i], results[i]), "", true))
  }

  /** The translator after `n` closed blocks were appended. */
  ghost predicate Extended(s: Stream, s': Stream, n: nat) {
    && |s'.blocks| == |s.blocks| + n
    && (forall i | 0 <= i < |s.blocks| :: s'.blocks[i] == s.blocks[i])
    && (forall i | |s.blocks| <= i < |s'.blocks| :: s'.blocks[i] == Closed)
    && s' == s.(blocks := s'.blocks, pendingServerIds := s'.pendingServerIds, webSearches := s'.webSearches)
  }

  lemma {:induction false} EmitUsesEffect(s: Stream, c: Client, ids: seq<string>, inputs: seq<string>)
    requires c.phase == Streaming && |s.blocks| == |c.blocks| && |ids| == |inputs|
    ensures var o := EmitUses(s, ids, inputs);
            && Play(c, o.frames) == c.(blocks := c.blocks + UseBlocks(ids, inputs))
            && Extended(s, o.s, |ids|)
            && o.s.pendingServerIds == s.pendingServerIds + ids && o.s.webSearches == s.webSearches
    decreases |ids|
  {
    hide Play, ServerUse;
    if ids == [] {
      PlayNothing(c);
      assert c.blocks + UseBlocks(ids, inputs) == c.blocks;
    } else {
      var n := |ids| - 1;
      EmitUsesEffect(s, c, ids[..n], inputs[..n]);
      var o := EmitUses(s, ids[..n], inputs[..n]);
      PlayConcat(c, o.frames, ServerUse(|o.s.blocks|, ids[n], inputs[n]));
      ServerUseEffect(Play(c, o.frames), ids[n], inputs[n]);
      assert c.blocks + UseBlocks(ids[..n], inputs[..n]) + [Block(ServerUseHead(ids[n], FUNCTION_NAME), inputs[n], true)]
          == c.blocks + UseBlocks(ids, inputs);
    }
  }

  lemma PlayThree(c: Client, a: Frame, b: Frame, d: Frame)
    ensures Play(c, [a] + ([b] + [d])) == Receive(Receive(Receive(c, a), b), d)
  {
    hide Receive;
    PlayConcat(c, [a], [b] + [d]);
    PlaySingle(c, a);
    PlayConcat(Receive(c, a), [b], [d]);
    PlaySingle(Receive(c, a), b);
    PlaySingle(Receive(Receive(c, a), b), d);
    hide Play;
  }

  lemma ServerUseEffect(c: Client, id: string, input: string)
    requires c.phase == Streaming
    ensures Play(c, ServerUse(|c.blocks|, id, input))
         == c.(blocks := c.blocks + [Block(ServerUseHead(id, FUNCTION_NAME), input, true)])
  {
    var i := |c.blocks|;
    var f0, f1, f2 := BlockStart(i, ServerUseHead(id, FUNCTION_NAME)), BlockDelta(i, InputJsonDelta(input)), BlockStop(i);
    assert ServerUse(i, id, input) == [f0] + ([f1] + [f2]);
    PlayThree(c, f0, f1, f2);
    assert "" + input == input;
    hide Play;
  }

  lemma {:induction false} EmitResultsEffect(s: Stream, c: Client, ids: seq<string>, results: seq<string>)
    requires c.phase == Streaming && |s.blocks| == |c.blocks| && |ids| <= |results|
    ensures var o := EmitResults(s, ids, results);
            && Play(c, o.frames) == c.(blocks := c.blocks + ResultBlocks(ids, results))
            && Extended(s, o.s, |ids|)
            && o.s.pendingServerIds == s.pendingServerIds && o.s.webSearches == s.webSearches + |ids|
    decreases |ids|
  {
    hide Play, SearchResult;
    if ids == [] {
      PlayNothing(c);
      assert c.blocks + ResultBlocks(ids, results) == c.blocks;
    } else {
      var n := |ids| - 1;
      EmitResultsEffect(s, c, ids[..n], results);
      var o := EmitResults(s, ids[..n], results);
      PlayConcat(c, o.frames, SearchResult(|o.s.blocks|, ids[n], results[n]));
      SearchResultEffect(Play(c, o.frames), ids[n], results[n]);
      assert c.blocks + ResultBlocks(ids[..n], results) + [Block(SearchResultHead(ids[n], results[n]), "", true)]
          == c.blocks + ResultBlocks(ids, results);
    }
  }

  lemma SearchResultEffect(c: Client, id: string, content: string)
    requires c.phase == Streaming
    ensures Play(c, SearchResult(|c.blocks|, id, content))
         == c.(blocks := c.blocks + [Block(SearchResultHead(id, content), "", true)])
  {
    var i := |c.blocks|;
    var f0 := BlockStart(i, SearchResultHead(id, content));
    assert SearchResult(i, id, content) == [f0] + [BlockStop(i)];
    PlayConcat(c, [f0], [BlockStop(i)]);
    PlaySingle(c, f0);
    PlaySingle(Receive(c, f0), BlockStop(i));
  }

  /** Appending closed blocks of other kinds keeps everything. */
  lemma ExtendedKeeps(s: Stream, c: Client, s': Stream, more: seq<Block>, said: string, reasoning: string, frags: seq<Fragment>)
    requires Settled(s, c, said, reasoning, frags) && Extended(s, s', |more|)
    requires forall i | 0 <= i < |more| :: more[i].closed && !more[i].head.TextHead? && !more[i].head.ThinkingHead?
    ensures Settled(s', c.(blocks := c.blocks + more), said, reasoning, frags)
  {
    var d := c.(blocks := c.blocks + more);
    ExtendedSyncs(s, c, s', more);
    hide Sync, ToolsTrack, Heard, Extended;
    assert s' == s.(blocks := s'.blocks, pendingServerIds := s'.pendingServerIds, webSearches := s'.webSearches) by {
      ExtendedFields(s, s', |more|);
    }
    HeardAppended(c.blocks, more, s.textIndex, TextHead, said);
    HeardAppended(c.blocks, more, s.thinkingIndex, ThinkingHead, if s.expose then reasoning else "");
    assert |c.blocks| <= |d.blocks|;
    ToolsTrackFrame(s, c, s', d, frags);
  }

  lemma ExtendedFields(s: Stream, s': Stream, n: nat)
    requires Extended(s, s', n)
    ensures s' == s.(blocks := s'.blocks, pendingServerIds := s'.pendingServerIds, webSearches := s'.webSearches)
  {
  }

  lemma ExtendedSyncs(s: Stream, c: Client, s': Stream, more: seq<Block>)
    requires Sync(s, c) && Extended(s, s', |more|) && forall i | 0 <= i < |more| :: more[i].closed
    ensures Sync(s', c.(blocks := c.blocks + more))
  {
  }
}
