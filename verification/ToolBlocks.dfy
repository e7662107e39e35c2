/**
 Which tool blocks a client is shown, in which order and under which heads, for any fragments at all: a block
 opens with the first fragment of its index that brings a name or arguments, under what is known by then.
 */
module ToolBlocks {
  import opened Prelude
  import opened Protocol
  import opened Upstream
  import opened Translator
  import opened Lifecycle
  import opened Finishing
  import opened Rounds

  // ---- read off the fragments ----

  /** Does the fragment open a block if its index has none yet? */
  predicate Opens(call: Fragment) {
    call.name != "" || call.arguments != ""
  }

  /** The fragments up to the one that opens index `k`; none if no fragment does. */
  function Opening(frags: seq<Fragment>, k: nat): (r: seq<Fragment>)
    ensures r <= frags
    ensures r != [] ==> r[|r| - 1].index == k && Opens(r[|r| - 1])
  {
    if frags == [] then []
    else
      var last := frags[|frags| - 1];
      var before := Opening(frags[..|frags| - 1], k);
      if before != [] then before else if last.index == k && Opens(last) then frags else []
  }

  /** The indices in the order their blocks open. */
  function OpenOrder(frags: seq<Fragment>): seq<nat> {
    if frags == [] then []
    else
      var last := frags[|frags| - 1];
      var before := OpenOrder(frags[..|frags| - 1]);
      if Opens(last) && last.index !in before then before + [last.index] else before
  }

  /** The head of an index's block, given the fragments known when it opens. */
  function HeadFrom(known: seq<Fragment>, k: nat): BlockHead {
    ToolUseHead(LastId(known, k).GetOr("toolu_" + Digits(k)), LastName(known, k).GetOr("unknown"))
  }

  /** The call the client is shown for an index. One that never opens is shown at the end, under all that is known. */
  function ShownCall(frags: seq<Fragment>, k: nat): ToolCall {
    var known := if Opening(frags, k) != [] then Opening(frags, k) else frags;
    ToolCall(HeadFrom(known, k).id, HeadFrom(known, k).name, ArgsOf(frags, k))
  }

  function ShownCalls(frags: seq<Fragment>, order: seq<nat>): (r: seq<ToolCall>)
    ensures |r| == |order| && forall j | 0 <= j < |r| :: r[j] == ShownCall(frags, order[j])
  {
    seq(|order|, j requires 0 <= j < |order| => ShownCall(frags, order[j]))
  }

  lemma OpeningOneMore(frags: seq<Fragment>, call: Fragment, k: nat)
    ensures Opening(frags + [call], k)
         == if Opening(frags, k) != [] then Opening(frags, k)
            else if call.index == k && Opens(call) then frags + [call] else []
    ensures OpenOrder(frags + [call])
         == if Opens(call) && call.index !in OpenOrder(frags) then OpenOrder(frags) + [call.index] else OpenOrder(frags)
  {
    assert (frags + [call])[..|frags|] == frags;
  }

  lemma {:induction false} OpenOrderMeans(frags: seq<Fragment>, k: nat)
    ensures k in OpenOrder(frags) <==> Opening(frags, k) != []
  {
    if frags != [] {
      OpenOrderMeans(frags[..|frags| - 1], k);
    }
  }

  /** Until its index opens, nothing but ids has arrived for it. */
  lemma {:induction false} UnopenedIsSilent(frags: seq<Fragment>, k: nat)
    requires Opening(frags, k) == []
    ensures LastName(frags, k).None? && ArgsOf(frags, k) == ""
  {
    if frags != [] {
      UnopenedIsSilent(frags[..|frags| - 1], k);
    }
  }

  // ---- what tool fragments leave alone ----

  predicate SameNotes(s: Stream, s': Stream) {
    && s'.serverNames == s.serverNames && s'.expose == s.expose && s'.terminal == s.terminal
    && s'.webSearches == s.webSearches && s'.finish == s.finish && s'.usage == s.usage && s'.started == s.started
  }

  lemma {:induction false} ToolsSameNotes(s: Stream, calls: seq<Fragment>)
    ensures SameNotes(s, HandleTools(s, calls).s)
    decreases |calls|
  {
    if calls != [] {
      var n := |calls| - 1;
      ToolsSameNotes(s, calls[..n]);
      HandleToolCases(HandleTools(s, calls[..n]).s, calls[n]);
      hide HandleTool;
    }
  }

  // ---- tools in the client's order ----

  /** The tool calls a client holds, in block order. */
  function ClientTools(blocks: seq<Block>): seq<ToolCall> {
    if blocks == [] then []
    else
      var b := blocks[|blocks| - 1];
      ClientTools(blocks[..|blocks| - 1]) + if b.head.ToolUseHead? then [ToolCall(b.head.id, b.head.name, b.body)] else []
  }

  /** `at` lists, in increasing order, exactly the positions of the tool blocks. */
  ghost predicate Positions(blocks: seq<Block>, at: seq<nat>) {
    && (forall i, j | 0 <= i < j < |at| :: at[i] < at[j])
    && (forall j | 0 <= j < |at| :: at[j] < |blocks| && blocks[at[j]].head.ToolUseHead?)
    && (forall b | 0 <= b < |blocks| && blocks[b].head.ToolUseHead? :: b in at)
  }

  lemma PositionsNeedBlocks(blocks: seq<Block>, at: seq<nat>)
    requires Positions(blocks, at) && at != []
    ensures blocks != []
  {
    assert at[0] < |blocks|;
  }

  lemma PositionsShrink(blocks: seq<Block>, at: seq<nat>)
    requires Positions(blocks, at) && blocks != []
    ensures var n := |blocks| - 1;
            if blocks[n].head.ToolUseHead? then at != [] && at[|at| - 1] == n && Positions(blocks[..n], at[..|at| - 1])
            else Positions(blocks[..n], at)
  {
    var n := |blocks| - 1;
    if blocks[n].head.ToolUseHead? {
      var m := |at| - 1;
      var j :| 0 <= j < |at| && at[j] == n;
      assert at[j] <= at[m];
      forall b | 0 <= b < n && blocks[b].head.ToolUseHead? ensures b in at[..m] {
        var i :| 0 <= i < |at| && at[i] == b;
        assert at[..m][i] == b;
      }
    } else {
      assert n !in at;
    }
  }

  lemma {:induction false} ToolsAtPositions(blocks: seq<Block>, at: seq<nat>)
    requires Positions(blocks, at)
    ensures |ClientTools(blocks)| == |at|
    ensures forall j | 0 <= j < |at| :: at[j] < |blocks| && blocks[at[j]].head.ToolUseHead?
              && ClientTools(blocks)[j] == ToolCall(blocks[at[j]].head.id, blocks[at[j]].head.name, blocks[at[j]].body)
    decreases |blocks|
  {
    if blocks == [] {
      if at != [] {
        PositionsNeedBlocks(blocks, at);
      }
    } else {
      var n := |blocks| - 1;
      PositionsShrink(blocks, at);
      hide Positions;
      if blocks[n].head.ToolUseHead? {
        ToolsAtPositions(blocks[..n], at[..|at| - 1]);
      } else {
        ToolsAtPositions(blocks[..n], at);
      }
    }
  }

  /** Each open index has its block, under the head known when it opened. */
  ghost predicate HeadTracks(t: ToolStream, k: nat, c: Client, frags: seq<Fragment>) {
    && (t.block.Some? <==> Opening(frags, k) != [])
    && (t.block.Some? ==> t.block.value < |c.blocks| && c.blocks[t.block.value].head == HeadFrom(Opening(frags, k), k))
  }

  ghost predicate Heads(s: Stream, c: Client, frags: seq<Fragment>) {
    && (forall k | k in OpenOrder(frags) :: k in s.tools)
    && (forall k | k in s.tools :: HeadTracks(s.tools[k], k, c, frags))
  }

  ghost predicate Rising(tools: map<nat, ToolStream>, order: seq<nat>) {
    && (forall j | 0 <= j < |order| :: order[j] in tools && tools[order[j]].block.Some?)
    && (forall i, j | 0 <= i < j < |order| :: tools[order[i]].block.value < tools[order[j]].block.value)
  }

  ghost predicate OwnedBlock(tools: map<nat, ToolStream>, b: nat) {
    exists k :: k in tools && tools[k].block == Some(b)
  }

  ghost predicate Owned(tools: map<nat, ToolStream>, blocks: seq<Block>) {
    forall b | 0 <= b < |blocks| && blocks[b].head.ToolUseHead? :: OwnedBlock(tools, b)
  }

  /** Tools sit in the client's blocks in the order they opened. */
  ghost predicate Aligned(s: Stream, c: Client, frags: seq<Fragment>) {
    Heads(s, c, frags) && Rising(s.tools, OpenOrder(frags)) && Owned(s.tools, c.blocks)
  }

  /** Changes that leave tools and tool heads alone keep the alignment. */
  lemma AlignedFrame(s: Stream, c: Client, s': Stream, c': Client, frags: seq<Fragment>)
    requires Aligned(s, c, frags) && s'.tools == s.tools && |c.blocks| <= |c'.blocks|
    requires forall b | 0 <= b < |c.blocks| :: c'.blocks[b].head == c.blocks[b].head
    requires forall b | |c.blocks| <= b < |c'.blocks| :: !c'.blocks[b].head.ToolUseHead?
    ensures Aligned(s', c', frags)
  {
    forall k | k in s'.tools ensures HeadTracks(s'.tools[k], k, c', frags) {
      assert HeadTracks(s.tools[k], k, c, frags);
    }
  }

  /** Blocks are never reassigned. */
  ghost predicate SameBlocks(tools: map<nat, ToolStream>, tools': map<nat, ToolStream>) {
    forall k | k in tools :: k in tools' && (tools[k].block.Some? ==> tools'[k].block == tools[k].block)
  }

  lemma OwnedStays(tools: map<nat, ToolStream>, tools': map<nat, ToolStream>, blocks: seq<Block>, blocks': seq<Block>)
    requires Owned(tools, blocks) && SameBlocks(tools, tools') && |blocks| <= |blocks'|
    requires forall b | 0 <= b < |blocks| :: blocks'[b].head == blocks[b].head
    requires forall b | |blocks| <= b < |blocks'| && blocks'[b].head.ToolUseHead? :: OwnedBlock(tools', b)
    ensures Owned(tools', blocks')
  {
    forall b | 0 <= b < |blocks'| && blocks'[b].head.ToolUseHead? ensures OwnedBlock(tools', b) {
      if b < |blocks| {
        assert OwnedBlock(tools, b);
        var k :| k in tools && tools[k].block == Some(b);
        assert tools'[k].block == Some(b);
      }
    }
  }

  lemma ToolEffectHeads(s: Stream, c: Client, call: Fragment)
    requires Sync(s, c)
    ensures var d := ToolEffect(s, c, call);
            && |c.blocks| <= |d.blocks|
            && forall b | 0 <= b < |c.blocks| :: d.blocks[b].head == c.blocks[b].head
    ensures SameBlocks(s.tools, HandleTool(s, call).s.tools)
  {
    HandleToolCases(s, call);
    hide HandleTool;
  }

  lemma RisingStays(tools: map<nat, ToolStream>, tools': map<nat, ToolStream>, order: seq<nat>)
    requires Rising(tools, order) && SameBlocks(tools, tools')
    ensures Rising(tools', order)
  {
    assert forall j | 0 <= j < |order| :: tools'[order[j]].block == tools[order[j]].block;
  }

  /** A fragment opens a block exactly when its index has none and it brings a name or arguments. */
  lemma OpensWhen(s: Stream, c: Client, call: Fragment, frags: seq<Fragment>)
    requires ToolsTrack(s, c, frags) && Heads(s, c, frags) && s.serverNames == {}
    ensures OpensBlock(s, call) <==> Opens(call) && Opening(frags, call.index) == []
    ensures call.index !in s.tools ==> Opening(frags, call.index) == []
    ensures NoteFragment(s, call).block.Some? <==> Opening(frags, call.index) != []
    ensures HeadFrom(frags + [call], call.index) == ToolUseHead(CallId(NoteFragment(s, call), call.index), CallName(NoteFragment(s, call)))
  {
    var k := call.index;
    OpenOrderMeans(frags, k);
    OneMore(frags, call, k, {});
    LastNameIsNamed(frags, k, {});
    if k in s.tools {
      assert ToolTracks(s.tools[k], k, {}, c, frags);
      assert HeadTracks(s.tools[k], k, c, frags);
    } else {
      assert !Mentioned(frags, k);
    }
    if Opening(frags, k) == [] {
      UnopenedIsSilent(frags, k);
    }
  }

  /** Heads of blocks that were open already. */
  lemma HeadsStay(s: Stream, c: Client, s': Stream, c': Client, frags: seq<Fragment>, call: Fragment, k: nat)
    requires Heads(s, c, frags) && k in s.tools && |c.blocks| <= |c'.blocks|
    requires k in s'.tools && s'.tools[k].block == s.tools[k].block
    requires k == call.index && Opens(call) ==> Opening(frags, k) != []
    requires forall b | 0 <= b < |c.blocks| :: c'.blocks[b].head == c.blocks[b].head
    ensures HeadTracks(s'.tools[k], k, c', frags + [call])
  {
    assert HeadTracks(s.tools[k], k, c, frags);
    OpeningOneMore(frags, call, k);
  }

  /** A fragment that opens nothing. */
  lemma QuietAligned(s: Stream, c: Client, call: Fragment, frags: seq<Fragment>)
    requires Sync(s, c) && ToolsTrack(s, c, frags) && Aligned(s, c, frags) && s.serverNames == {} && !OpensBlock(s, call)
    ensures Aligned(HandleTool(s, call).s, ToolEffect(s, c, call), frags + [call])
  {
    var o, d := HandleTool(s, call), ToolEffect(s, c, call);
    OpensWhen(s, c, call, frags);
    OpenOrderMeans(frags, call.index);
    OpeningOneMore(frags, call, call.index);
    ToolEffectHeads(s, c, call);
    HandleToolKeys(s, call);
    QuietTools(s, c, call);
    hide Sync, ToolsTrack, HandleTool, ToolEffect, OpensBlock, NoteFragment, Owned, Rising, OpenOrder, Opening, HeadTracks;
    assert OpenOrder(frags + [call]) == OpenOrder(frags);
    forall k | k in o.s.tools ensures HeadTracks(o.s.tools[k], k, d, frags + [call]) {
      if k in s.tools {
        HeadsStay(s, c, o.s, d, frags, call, k);
      } else {
        assert HeadTracks(o.s.tools[k], k, d, frags + [call]) by { UntrackedHead(o.s.tools[k], k, d, frags + [call]); }
      }
    }
    OwnedStays(s.tools, o.s.tools, c.blocks, d.blocks);
    RisingStays(s.tools, o.s.tools, OpenOrder(frags));
  }

  lemma UntrackedHead(t: ToolStream, k: nat, c: Client, frags: seq<Fragment>)
    requires t.block.None? && Opening(frags, k) == []
    ensures HeadTracks(t, k, c, frags)
  {
  }

  lemma QuietTools(s: Stream, c: Client, call: Fragment)
    requires Sync(s, c) && !OpensBlock(s, call)
    ensures var t := HandleTool(s, call).s.tools;
            && |ToolEffect(s, c, call).blocks| == |c.blocks|
            && (forall k | k in s.tools :: k in t && t[k].block == s.tools[k].block)
            && (call.index in t && (call.index !in s.tools ==> t[call.index].block.None?))
  {
    HandleToolCases(s, call);
    hide HandleTool;
  }

  /** A fragment that opens its index's block: the next one. */
  lemma OpeningAligned(s: Stream, c: Client, call: Fragment, frags: seq<Fragment>)
    requires Sync(s, c) && ToolsTrack(s, c, frags) && Aligned(s, c, frags) && s.serverNames == {} && OpensBlock(s, call)
    ensures Aligned(HandleTool(s, call).s, ToolEffect(s, c, call), frags + [call])
  {
    hide *;
    var k := call.index;
    var o, d := HandleTool(s, call), ToolEffect(s, c, call);
    assert Heads(s, c, frags) && Rising(s.tools, OpenOrder(frags)) && Owned(s.tools, c.blocks) by { AlignedParts(s, c, frags); }
    OpensWhen(s, c, call, frags);
    OpenOrderMeans(frags, k);
    OpeningOneMore(frags, call, k);
    ToolEffectHeads(s, c, call);
    HandleToolKeys(s, call);
    OpeningTools(s, c, call);
    OpeningHeads(s, c, o.s, d, call, frags);
    OpeningOwned(s.tools, o.s.tools, c.blocks, d.blocks, k);
    HeadBelow(s, c, frags);
    RisingStays(s.tools, o.s.tools, OpenOrder(frags));
    BelowStays(s.tools, o.s.tools, OpenOrder(frags), |c.blocks|);
    RisingMore(o.s.tools, OpenOrder(frags), k);
    AlignedParts(o.s, d, frags + [call]);
  }

  lemma AlignedParts(s: Stream, c: Client, frags: seq<Fragment>)
    ensures Aligned(s, c, frags) <==> Heads(s, c, frags) && Rising(s.tools, OpenOrder(frags)) && Owned(s.tools, c.blocks)
  {
  }

  lemma BelowStays(tools: map<nat, ToolStream>, tools': map<nat, ToolStream>, order: seq<nat>, n: nat)
    requires SameBlocks(tools, tools')
    requires forall j | j in order :: j in tools && tools[j].block.Some? && tools[j].block.value < n
    ensures forall j | j in order :: j in tools' && tools'[j].block.Some? && tools'[j].block.value < n
  {
  }

  lemma OpeningOwned(tools: map<nat, ToolStream>, tools': map<nat, ToolStream>, blocks: seq<Block>, blocks': seq<Block>, k: nat)
    requires Owned(tools, blocks) && SameBlocks(tools, tools') && |blocks'| == |blocks| + 1
    requires forall b | 0 <= b < |blocks| :: blocks'[b].head == blocks[b].head
    requires k in tools' && tools'[k].block == Some(|blocks|)
    ensures Owned(tools', blocks')
  {
    assert OwnedBlock(tools', |blocks|);
    hide Owned, SameBlocks, OwnedBlock;
    OwnedStays(tools, tools', blocks, blocks');
  }

  lemma OpeningHeads(s: Stream, c: Client, s': Stream, c': Client, call: Fragment, frags: seq<Fragment>)
    requires Heads(s, c, frags) && Opens(call) && Opening(frags, call.index) == []
    requires OpenOrder(frags + [call]) == OpenOrder(frags) + [call.index]
    requires |c'.blocks| == |c.blocks| + 1 && c'.blocks[|c.blocks|].head == HeadFrom(frags + [call], call.index)
    requires forall b | 0 <= b < |c.blocks| :: c'.blocks[b].head == c.blocks[b].head
    requires forall k :: k in s'.tools <==> k in s.tools || k == call.index
    requires forall k | k in s.tools && k != call.index :: s'.tools[k].block == s.tools[k].block
    requires s'.tools[call.index].block == Some(|c.blocks|)
    ensures Heads(s', c', frags + [call])
  {
    var k := call.index;
    OpeningOneMore(frags, call, k);
    hide HeadTracks, OpenOrder, Opening, Opens;
    forall j | j in s'.tools ensures HeadTracks(s'.tools[j], j, c', frags + [call]) {
      if j != k {
        HeadsStay(s, c, s', c', frags, call, j);
      } else {
        OpenedHead(s'.tools[k], k, c', frags + [call]);
      }
    }
  }

  lemma OpenedHead(t: ToolStream, k: nat, c: Client, frags: seq<Fragment>)
    requires Opening(frags, k) == frags != [] && t.block.Some? && t.block.value < |c.blocks|
    requires c.blocks[t.block.value].head == HeadFrom(frags, k)
    ensures HeadTracks(t, k, c, frags)
  {
  }

  lemma OpeningTools(s: Stream, c: Client, call: Fragment)
    requires Sync(s, c) && OpensBlock(s, call)
    ensures var t := HandleTool(s, call).s.tools; var d := ToolEffect(s, c, call); var n := NoteFragment(s, call);
            && |d.blocks| == |c.blocks| + 1 && d.blocks[|c.blocks|].head == ToolUseHead(CallId(n, call.index), CallName(n))
            && (forall k | k in s.tools && k != call.index :: k in t && t[k].block == s.tools[k].block)
            && call.index in t && t[call.index].block == Some(|c.blocks|)
  {
    HandleToolCases(s, call);
    hide HandleTool;
  }

  lemma HeadBelow(s: Stream, c: Client, frags: seq<Fragment>)
    requires Heads(s, c, frags)
    ensures forall j | j in OpenOrder(frags) :: j in s.tools && s.tools[j].block.Some? && s.tools[j].block.value < |c.blocks|
  {
    forall j | j in OpenOrder(frags) ensures j in s.tools && s.tools[j].block.Some? && s.tools[j].block.value < |c.blocks| {
      OpenOrderMeans(frags, j);
      assert HeadTracks(s.tools[j], j, c, frags);
    }
  }

  lemma RisingMore(tools: map<nat, ToolStream>, order: seq<nat>, k: nat)
    requires Rising(tools, order) && k in tools && tools[k].block.Some?
    requires forall j | j in order :: j in tools && tools[j].block.Some? && tools[j].block.value < tools[k].block.value
    ensures Rising(tools, order + [k])
  {
    var more := order + [k];
    assert forall j | 0 <= j < |order| :: more[j] == order[j] && order[j] in order;
  }

  lemma {:induction false} ToolsAligned(s: Stream, c: Client, calls: seq<Fragment>, said: string, reasoning: string,
                                        frags: seq<Fragment>)
    requires Inv(s, c, said, reasoning, frags) && s.started && Aligned(s, c, frags) && s.serverNames == {}
    ensures var o := HandleTools(s, calls); Aligned(o.s, Play(c, o.frames), frags + calls)
    decreases |calls|
  {
    hide Aligned, Sync, SaidTracks, ToolsTrack, Buffered, Play, HandleTool, ToolEffect, OpensBlock;
    if calls == [] {
      PlayNothing(c);
      assert frags + calls == frags;
    } else {
      var n := |calls| - 1;
      var call := calls[n];
      var now := frags + calls[..n];
      ToolsAligned(s, c, calls[..n], said, reasoning, frags);
      var o := HandleTools(s, calls[..n]);
      var d := Play(c, o.frames);
      HandleToolsKeep(s, c, calls[..n], said, reasoning, frags);
      ToolsSameNotes(s, calls[..n]);
      HandleToolEffect(o.s, d, call);
      PlayConcat(c, o.frames, HandleTool(o.s, call).frames);
      if OpensBlock(o.s, call) {
        OpeningAligned(o.s, d, call, now);
      } else {
        QuietAligned(o.s, d, call, now);
      }
      assert now + [call] == frags + calls;
    }
  }

  // ---- any request: tools shown at once, or all held back ----

  ghost predicate NoTools(blocks: seq<Block>) {
    forall b | 0 <= b < |blocks| :: !blocks[b].head.ToolUseHead?
  }

  /** Without server tools the blocks stand as they opened; with them no tool is shown before the round is finished. */
  ghost predicate Shown(s: Stream, c: Client, frags: seq<Fragment>) {
    if s.serverNames == {} then Aligned(s, c, frags) else NoTools(c.blocks)
  }

  lemma ShownFrame(s: Stream, c: Client, s': Stream, c': Client, frags: seq<Fragment>)
    requires Shown(s, c, frags) && s'.tools == s.tools && s'.serverNames == s.serverNames && |c.blocks| <= |c'.blocks|
    requires forall b | 0 <= b < |c.blocks| :: c'.blocks[b].head == c.blocks[b].head
    requires forall b | |c.blocks| <= b < |c'.blocks| :: !c'.blocks[b].head.ToolUseHead?
    ensures Shown(s', c', frags)
  {
    if s.serverNames == {} {
      hide Aligned;
      AlignedFrame(s, c, s', c', frags);
    }
  }

  lemma BufferedEffect(s: Stream, c: Client, call: Fragment)
    requires Sync(s, c) && Buffered(s) && s.serverNames != {}
    ensures ToolEffect(s, c, call) == c
  {
  }

  lemma {:induction false} BufferedSilent(s: Stream, c: Client, calls: seq<Fragment>, said: string, reasoning: string,
                                          frags: seq<Fragment>)
    requires Inv(s, c, said, reasoning, frags) && s.started && s.serverNames != {}
    ensures Play(c, HandleTools(s, calls).frames) == c
    decreases |calls|
  {
    hide Sync, SaidTracks, ToolsTrack, Play, HandleTool, ToolEffect;
    if calls == [] {
      PlayNothing(c);
    } else {
      var n := |calls| - 1;
      BufferedSilent(s, c, calls[..n], said, reasoning, frags);
      var o := HandleTools(s, calls[..n]);
      HandleToolsKeep(s, c, calls[..n], said, reasoning, frags);
      ToolsSameNotes(s, calls[..n]);
      HandleToolEffect(o.s, c, calls[n]);
      BufferedEffect(o.s, c, calls[n]);
      PlayConcat(c, o.frames, HandleTool(o.s, calls[n]).frames);
    }
  }

  lemma ToolsShown(s: Stream, c: Client, calls: seq<Fragment>, said: string, reasoning: string, frags: seq<Fragment>)
    requires Inv(s, c, said, reasoning, frags) && s.started && Shown(s, c, frags)
    ensures var o := HandleTools(s, calls); Shown(o.s, Play(c, o.frames), frags + calls)
  {
    hide Inv, Aligned, NoTools, HandleTools, Play;
    ToolsSameNotes(s, calls);
    if s.serverNames == {} {
      ToolsAligned(s, c, calls, said, reasoning, frags);
    } else {
      BufferedSilent(s, c, calls, said, reasoning, frags);
    }
  }

  lemma ReasoningShown(s: Stream, c: Client, reasoning: string, frags: seq<Fragment>)
    requires Sync(s, c) && s.started && Shown(s, c, frags)
    ensures var o := HandleReasoning(s, reasoning); Shown(o.s, Play(c, o.frames), frags)
  {
    hide Shown;
    if reasoning != "" && s.expose {
      ReasoningEffect(s, c, reasoning);
      ShownFrame(s, c, HandleReasoning(s, reasoning).s, WithText(c, s.thinkingIndex, ThinkingHead, reasoning), frags);
    } else {
      ShownFrame(s, c, HandleReasoning(s, reasoning).s, c, frags);
    }
  }

  lemma TextShown(s: Stream, c: Client, text: string, frags: seq<Fragment>)
    requires Sync(s, c) && s.started && Shown(s, c, frags)
    ensures var o := HandleText(s, text); Shown(o.s, Play(c, o.frames), frags)
  {
    hide Shown;
    if text != "" {
      TextEffect(s, c, text);
      ShownFrame(s, c, HandleText(s, text).s, WithText(c, s.textIndex, TextHead, text), frags);
    }
  }

  lemma BeginShown(s: Stream, c: Client, chunk: Chunk, requestId: string, model: string, frags: seq<Fragment>)
    requires Sync(s, c) && chunk.Data? && Shown(s, c, frags)
    ensures var o := Begin(s, chunk, requestId, model); Shown(Note(o.s, chunk), Play(c, o.frames), frags)
  {
    hide Shown;
    var o := Begin(s, chunk, requestId, model);
    if s.started {
      PlayNothing(c);
    } else {
      PlaySingle(c, o.frames[0]);
    }
    ShownFrame(s, c, Note(o.s, chunk), Play(c, o.frames), frags);
  }

  /** A data chunk shows exactly the tools its fragments open. */
  lemma DataShown(s: Stream, c: Client, chunk: Chunk, requestId: string, model: string, said: string, reasoning: string,
                  frags: seq<Fragment>)
    requires Inv(s, c, said, reasoning, frags) && Shown(s, c, frags) && chunk.Data?
    ensures var o := HandleData(s, chunk, requestId, model); Shown(o.s, Play(c, o.frames), frags + chunk.calls)
  {
    hide Shown, Sync, SaidTracks, ToolsTrack, Play, HandleReasoning, HandleText, HandleTools;
    var o0 := Begin(s, chunk, requestId, model);
    var n := Note(o0.s, chunk);
    var c0 := Play(c, o0.frames);
    BeginKeeps(s, c, chunk, requestId, model, said, reasoning, frags);
    BeginShown(s, c, chunk, requestId, model, frags);
    hide Begin, Note;
    var o1 := HandleReasoning(n, chunk.reasoning);
    var c1 := Play(c0, o1.frames);
    HandleReasoningKeeps(n, c0, chunk.reasoning, said, reasoning);
    HandleReasoningKeepsTools(n, c0, chunk.reasoning, frags);
    SpeechOnly(n, chunk.reasoning, "");
    ReasoningShown(n, c0, chunk.reasoning, frags);
    var o2 := HandleText(o1.s, chunk.text);
    var c2 := Play(c1, o2.frames);
    HandleTextKeeps(o1.s, c1, chunk.text, said, reasoning + chunk.reasoning);
    HandleTextKeepsTools(o1.s, c1, chunk.text, frags);
    SpeechOnly(o1.s, "", chunk.text);
    TextShown(o1.s, c1, chunk.text, frags);
    var o3 := HandleTools(o2.s, chunk.calls);
    ToolsShown(o2.s, c2, chunk.calls, said + chunk.text, reasoning + chunk.reasoning, frags);
    PlayConcat(c, o0.frames, o1.frames);
    PlayConcat(c, o0.frames + o1.frames, o2.frames);
    PlayConcat(c, o0.frames + o1.frames + o2.frames, o3.frames);
  }

  // ---- the finished reply ----

  /** The call under all that is known about its index at the end of the round. */
  function HeldCall(frags: seq<Fragment>, k: nat): ToolCall {
    ToolCall(HeadFrom(frags, k).id, HeadFrom(frags, k).name, ArgsOf(frags, k))
  }

  function HeldCalls(frags: seq<Fragment>, order: seq<nat>): (r: seq<ToolCall>)
    ensures |r| == |order| && forall j | 0 <= j < |r| :: r[j] == HeldCall(frags, order[j])
  {
    seq(|order|, j requires 0 <= j < |order| => HeldCall(frags, order[j]))
  }

  /** Is the index left for the end of the round? With server tools all are, except those that named one. */
  predicate Held(frags: seq<Fragment>, names: set<string>, k: nat) {
    Mentioned(frags, k) && !EverServer(frags, k, names) && (names == {} ==> Opening(frags, k) == [])
  }

  ghost predicate HeldOrder(frags: seq<Fragment>, names: set<string>, order: seq<nat>) {
    Distinct(order) && forall k: nat :: k in order <==> Held(frags, names, k)
  }

  /** The tool calls of a finished reply, those held back in the order they were visited. */
  function FinalCalls(frags: seq<Fragment>, names: set<string>, order: seq<nat>): seq<ToolCall> {
    (if names == {} then ShownCalls(frags, OpenOrder(frags)) else []) + HeldCalls(frags, order)
  }

  lemma PendingIsHeld(s: Stream, c: Client, frags: seq<Fragment>, order: seq<nat>)
    requires ToolsTrack(s, c, frags) && Shown(s, c, frags) && Buffered(s) && PendingOrder(s, order)
    ensures HeldOrder(frags, s.serverNames, order)
  {
    forall k: nat ensures k in PendingTools(s) <==> Held(frags, s.serverNames, k) {
      if k in s.tools {
        assert ToolTracks(s.tools[k], k, s.serverNames, c, frags);
        if s.serverNames == {} {
          assert HeadTracks(s.tools[k], k, c, frags);
        }
      }
    }
    hide PendingTools, Held, ToolsTrack, Shown;
  }

  lemma ToolsOneMore(blocks: seq<Block>, b: Block)
    ensures ClientTools(blocks + [b]) == ClientTools(blocks) + if b.head.ToolUseHead? then [ToolCall(b.head.id, b.head.name, b.body)] else []
  {
    assert (blocks + [b])[..|blocks|] == blocks;
  }

  lemma HeldBlock(s: Stream, c: Client, frags: seq<Fragment>, k: nat)
    requires ToolsTrack(s, c, frags) && k in s.tools && s.tools[k].block.None?
    ensures var b := NewToolBlock(s, k); b.head.ToolUseHead? && ToolCall(b.head.id, b.head.name, b.body) == HeldCall(frags, k)
  {
    assert ToolTracks(s.tools[k], k, s.serverNames, c, frags);
  }

  lemma {:induction false} ToolsAppended(s: Stream, c: Client, frags: seq<Fragment>, order: seq<nat>)
    requires ToolsTrack(s, c, frags) && forall k | k in order :: k in s.tools && s.tools[k].block.None?
    ensures ClientTools(c.blocks + NewToolBlocks(s, order)) == ClientTools(c.blocks) + HeldCalls(frags, order)
    decreases |order|
  {
    hide *;
    if order == [] {
      assert c.blocks + NewToolBlocks(s, order) == c.blocks;
    } else {
      var n := |order| - 1;
      var k := order[n];
      var before := c.blocks + NewToolBlocks(s, order[..n]);
      ToolsAppended(s, c, frags, order[..n]);
      HeldBlock(s, c, frags, k);
      assert c.blocks + NewToolBlocks(s, order) == before + [NewToolBlock(s, k)];
      ToolsOneMore(before, NewToolBlock(s, k));
      assert HeldCalls(frags, order) == HeldCalls(frags, order[..n]) + [HeldCall(frags, k)];
    }
  }

  lemma {:induction false} NoToolsNone(blocks: seq<Block>)
    requires NoTools(blocks)
    ensures ClientTools(blocks) == []
  {
    if blocks != [] {
      NoToolsNone(blocks[..|blocks| - 1]);
    }
  }

  lemma AlignedPositions(s: Stream, c: Client, frags: seq<Fragment>, at: seq<nat>)
    requires Aligned(s, c, frags)
    requires |at| == |OpenOrder(frags)|
    requires forall j | 0 <= j < |at| :: OpenOrder(frags)[j] in s.tools && s.tools[OpenOrder(frags)[j]].block == Some(at[j])
    ensures Positions(c.blocks, at)
  {
    var order := OpenOrder(frags);
    forall j | 0 <= j < |at| ensures at[j] < |c.blocks| && c.blocks[at[j]].head.ToolUseHead? {
      assert HeadTracks(s.tools[order[j]], order[j], c, frags);
    }
    forall b | 0 <= b < |c.blocks| && c.blocks[b].head.ToolUseHead? ensures b in at {
      assert OwnedBlock(s.tools, b);
      var k :| k in s.tools && s.tools[k].block == Some(b);
      assert HeadTracks(s.tools[k], k, c, frags);
      OpenOrderMeans(frags, k);
      var j :| 0 <= j < |order| && order[j] == k;
      assert at[j] == b;
    }
    hide Heads, Owned;
    forall i, j | 0 <= i < j < |at| ensures at[i] < at[j] {
      assert s.tools[order[i]].block.value < s.tools[order[j]].block.value;
    }
  }

  /** The client's tool at each place of the order: under its opening head, with all its arguments. */
  lemma AlignedTools(s: Stream, c: Client, frags: seq<Fragment>)
    requires Aligned(s, c, frags) && ToolsTrack(s, c, frags)
    ensures ClientTools(c.blocks) == ShownCalls(frags, OpenOrder(frags))
  {
    var order := OpenOrder(frags);
    var at: seq<nat> := seq(|order|, j requires 0 <= j < |order| && Rising(s.tools, order) => s.tools[order[j]].block.value);
    AlignedPositions(s, c, frags, at);
    hide Owned, Rising, Positions;
    ToolsAtPositions(c.blocks, at);
    forall j | 0 <= j < |order| ensures ClientTools(c.blocks)[j] == ShownCall(frags, order[j]) {
      assert order[j] in s.tools;
      OpenOrderMeans(frags, order[j]);
      assert HeadTracks(s.tools[order[j]], order[j], c, frags);
      assert ToolTracks(s.tools[order[j]], order[j], s.serverNames, c, frags);
    }
  }

  lemma {:induction false} ToolsWhenClosed(blocks: seq<Block>)
    ensures ClientTools(CloseBelow(blocks, |blocks|)) == ClientTools(blocks)
  {
    if blocks != [] {
      var n := |blocks| - 1;
      ToolsWhenClosed(blocks[..n]);
      assert CloseBelow(blocks, n + 1)[..n] == CloseBelow(blocks[..n], n);
    }
  }

  /** The tools of a finished reply are exactly those the fragments describe, in the order they opened or were visited. */
  lemma FinalizeShows(s: Stream, c: Client, order: seq<nat>, said: string, reasoning: string, frags: seq<Fragment>)
    requires Inv(s, c, said, reasoning, frags) && Shown(s, c, frags) && s.started && !s.terminal && PendingOrder(s, order)
    ensures HeldOrder(frags, s.serverNames, order)
    ensures ClientTools(Play(c, Finalize(s, order).frames).blocks) == FinalCalls(frags, s.serverNames, order)
  {
    var m := StartTools(s, order);
    var e := Play(c, m.frames);
    StartToolsEffect(s, c, order);
    StartToolsResult(s, order);
    assert m.s.started by { StartedFlag(s, m.s, order); }
    FinishEffect(m.s, e, None);
    PlayConcat(c, m.frames, FinishWithStop(m.s, None).frames);
    ToolsWhenClosed(e.blocks);
    hide Play, StartTools, FinishWithStop, Sync, SaidTracks, HeldOrder, Closing, ClientTools;
    PendingIsHeld(s, c, frags, order);
    ToolsAppended(s, c, frags, order);
    if s.serverNames == {} {
      AlignedTools(s, c, frags);
    } else {
      NoToolsNone(c.blocks);
    }
  }

  lemma StartedFlag(s: Stream, s': Stream, order: seq<nat>)
    requires StartedAll(s, s', order)
    ensures s'.started == s.started
  {
  }
}
