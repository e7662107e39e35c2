/**
 What every step of the stream translator keeps: the client stays in step with the
 translator's own block list, and nothing the upstream sent is lost or repeated.
 */
module Lifecycle {
  import opened Prelude
  import opened Protocol
  import opened Upstream
  import opened Translator

  predicate Matches(kind: BlockKind, b: Block) {
    match kind
    case Text => b.head.TextHead? && !b.closed
    case Thinking => b.head.ThinkingHead? && !b.closed
    case Tool => b.head.ToolUseHead? && !b.closed
    case Closed => b.closed
  }

  /** The client has exactly the translator's blocks, open where the translator thinks them open. */
  ghost predicate Sync(s: Stream, c: Client) {
    && c.phase == (if s.started then Streaming else Waiting)
    && |s.blocks| == |c.blocks|
    && (forall i | 0 <= i < |s.blocks| :: Matches(s.blocks[i], c.blocks[i]))
    && (s.textIndex.Some? ==> s.textIndex.value < |s.blocks| && s.blocks[s.textIndex.value] == Text)
    && (s.thinkingIndex.Some? ==> s.thinkingIndex.value < |s.blocks| && s.blocks[s.thinkingIndex.value] == Thinking)
    && (forall k | k in s.tools :: s.tools[k].block.Some? ==>
          s.tools[k].block.value < |s.blocks| && s.blocks[s.tools[k].block.value] == Tool)
  }

  /** All text (or all thinking) the client holds, in block order. */
  function Said(blocks: seq<Block>, head: BlockHead): string {
    if blocks == [] then ""
    else
      var last := blocks[|blocks| - 1];
      Said(blocks[..|blocks| - 1], head) + if last.head == head then last.body else ""
  }

  /** The blocks of kind `head` say `content`; the one at `at`, if any, is the last of them. */
  ghost predicate Heard(blocks: seq<Block>, at: Option<nat>, head: BlockHead, content: string) {
    && Said(blocks, head) == content
    && (at.Some? ==> at.value < |blocks| && blocks[at.value].head == head
                     && forall j | at.value < j < |blocks| :: blocks[j].head != head)
  }

  /** Text reaches the client whole; reasoning reaches the client or the shadow buffer, never both. */
  ghost predicate SaidTracks(s: Stream, c: Client, text: string, reasoning: string) {
    && Heard(c.blocks, s.textIndex, TextHead, text)
    && Heard(c.blocks, s.thinkingIndex, ThinkingHead, if s.expose then reasoning else "")
    && s.shadow == (if s.expose then "" else reasoning)
  }

  /** Every tool index of the round is tracked, and its arguments are with the client or still pending, whole. */
  ghost predicate ToolsTrack(s: Stream, c: Client, frags: seq<Fragment>) {
    && (forall k: nat :: k in s.tools <==> Mentioned(frags, k))
    && (forall k | k in s.tools :: ToolTracks(s.tools[k], k, s.serverNames, c, frags))
    && (forall j, k | j in s.tools && k in s.tools && j != k && s.tools[j].block.Some? :: s.tools[j].block != s.tools[k].block)
  }

  /** With server tools declared, no tool gets a block before the round is finished. */
  ghost predicate Buffered(s: Stream) {
    s.serverNames != {} ==> forall k | k in s.tools :: s.tools[k].block.None?
  }

  ghost predicate ToolTracks(t: ToolStream, k: nat, names: set<string>, c: Client, frags: seq<Fragment>) {
    && t.id == LastId(frags, k)
    && t.name == LastName(frags, k)
    && t.server == EverServer(frags, k, names)
    && (t.block.None? ==> t.pending == ArgsOf(frags, k))
    && (t.block.Some? ==> t.pending == "" && t.block.value < |c.blocks| && c.blocks[t.block.value].body == ArgsOf(frags, k))
  }

  // ---- text and thinking ----

  lemma LastSaid(blocks: seq<Block>, head: BlockHead)
    requires blocks != []
    ensures var n := |blocks| - 1;
            Said(blocks, head) == Said(blocks[..n], head) + if blocks[n].head == head then blocks[n].body else ""
  {
  }

  function Grown(blocks: seq<Block>, i: nat, more: string): seq<Block>
    requires i < |blocks|
  {
    blocks[i := blocks[i].(body := blocks[i].body + more)]
  }

  lemma GrownLast(blocks: seq<Block>, i: nat, more: string)
    requires i < |blocks|
    ensures var n := |blocks| - 1; var after := Grown(blocks, i, more);
            && |after| == |blocks| && after[n].head == blocks[n].head
            && (if i == n then after[..n] == blocks[..n] && after[n].body == blocks[n].body + more
                else after[..n] == Grown(blocks[..n], i, more) && after[n] == blocks[n])
  {
  }

  lemma {:induction false} SaidGrows(blocks: seq<Block>, i: nat, more: string, head: BlockHead)
    requires i < |blocks|
    requires blocks[i].head == head ==> forall j | i < j < |blocks| :: blocks[j].head != head
    ensures Said(Grown(blocks, i, more), head) == Said(blocks, head) + if blocks[i].head == head then more else ""
    decreases |blocks|
  {
    hide *;
    var n := |blocks| - 1;
    GrownLast(blocks, i, more);
    LastSaid(blocks, head);
    LastSaid(Grown(blocks, i, more), head);
    var before, last := Said(blocks[..n], head), blocks[n].body;
    if i < n {
      SaidGrows(blocks[..n], i, more, head);
      assert before + more + "" == before + more && before + "" + last == before + last;
    } else {
      assert before + (last + more) == before + last + more && before + "" + "" == before + "";
    }
  }

  lemma SaidOpens(blocks: seq<Block>, b: Block, head: BlockHead)
    ensures Said(blocks + [b], head) == Said(blocks, head) + if b.head == head then b.body else ""
  {
    assert (blocks + [b])[..|blocks|] == blocks;
  }

  lemma {:induction false} SaidCloses(blocks: seq<Block>, i: nat, head: BlockHead)
    requires i < |blocks|
    ensures Said(blocks[i := blocks[i].(closed := true)], head) == Said(blocks, head)
    decreases |blocks|
  {
    var n := |blocks| - 1;
    var after := blocks[i := blocks[i].(closed := true)];
    if i == n {
      assert after[..n] == blocks[..n];
    } else {
      SaidCloses(blocks[..n], i, head);
      assert after[..n] == blocks[..n][i := blocks[i].(closed := true)];
    }
  }

  /** The client after a block is opened, if need be, and text is appended to it. */
  function WithText(c: Client, at: Option<nat>, head: BlockHead, more: string): Client
    requires at.Some? ==> at.value < |c.blocks|
  {
    var blocks := if at.Some? then c.blocks else c.blocks + [Block(head, "", false)];
    var i := at.GetOr(|c.blocks|);
    c.(blocks := blocks[i := blocks[i].(body := blocks[i].body + more)])
  }

  lemma TextEffect(s: Stream, c: Client, text: string)
    requires Sync(s, c) && s.started && text != ""
    ensures Play(c, HandleText(s, text).frames) == WithText(c, s.textIndex, TextHead, text)
  {
    var o := EnsureText(s);
    PlayOne(c, o.frames, BlockDelta(o.s.textIndex.value, TextDelta(text)));
    if s.textIndex.None? {
      PlaySingle(c, o.frames[0]);
    }
  }

  lemma TextSyncs(s: Stream, c: Client, text: string)
    requires Sync(s, c) && s.started && text != ""
    ensures Sync(HandleText(s, text).s, WithText(c, s.textIndex, TextHead, text))
  {
  }

  lemma ReasoningEffect(s: Stream, c: Client, reasoning: string)
    requires Sync(s, c) && s.started && s.expose && reasoning != ""
    ensures Play(c, HandleReasoning(s, reasoning).frames) == WithText(c, s.thinkingIndex, ThinkingHead, reasoning)
  {
    var o := EnsureThinking(s);
    PlayOne(c, o.frames, BlockDelta(o.s.thinkingIndex.value, ThinkingDelta(reasoning)));
    if s.thinkingIndex.None? {
      PlaySingle(c, o.frames[0]);
    }
  }

  lemma ReasoningSyncs(s: Stream, c: Client, reasoning: string)
    requires Sync(s, c) && s.started && s.expose && reasoning != ""
    ensures Sync(HandleReasoning(s, reasoning).s, WithText(c, s.thinkingIndex, ThinkingHead, reasoning))
  {
  }

  lemma HeardGrows(c: Client, at: Option<nat>, head: BlockHead, more: string, content: string)
    requires Heard(c.blocks, at, head, content)
    ensures Heard(WithText(c, at, head, more).blocks, Some(at.GetOr(|c.blocks|)), head, content + more)
  {
    if at.None? {
      SaidOpens(c.blocks, Block(head, "", false), head);
      SaidGrows(c.blocks + [Block(head, "", false)], |c.blocks|, more, head);
    } else {
      SaidGrows(c.blocks, at.value, more, head);
    }
  }

  lemma HeardElsewhere(c: Client, at: Option<nat>, head: BlockHead, more: string,
                       at': Option<nat>, head': BlockHead, content': string)
    requires at.Some? ==> at.value < |c.blocks| && c.blocks[at.value].head == head
    requires Heard(c.blocks, at', head', content') && head' != head
    ensures Heard(WithText(c, at, head, more).blocks, at', head', content')
  {
    if at.None? {
      SaidOpens(c.blocks, Block(head, "", false), head');
      SaidGrows(c.blocks + [Block(head, "", false)], |c.blocks|, more, head');
    } else {
      SaidGrows(c.blocks, at.value, more, head');
    }
  }

  /** Tool tracking reads the client only at the tools' own blocks. */
  lemma ToolsTrackFrame(s: Stream, c: Client, s': Stream, c': Client, frags: seq<Fragment>)
    requires ToolsTrack(s, c, frags)
    requires s'.tools == s.tools && s'.serverNames == s.serverNames && |c.blocks| <= |c'.blocks|
    requires forall k | k in s.tools && s.tools[k].block.Some? ::
               s.tools[k].block.value < |c.blocks| ==>
                 c'.blocks[s.tools[k].block.value].body == c.blocks[s.tools[k].block.value].body
    ensures ToolsTrack(s', c', frags)
  {
    forall k | k in s.tools ensures ToolTracks(s'.tools[k], k, s'.serverNames, c', frags) {
      assert ToolTracks(s.tools[k], k, s.serverNames, c, frags);
    }
  }

  lemma HandleTextKeeps(s: Stream, c: Client, text: string, said: string, reasoning: string)
    requires Sync(s, c) && s.started && SaidTracks(s, c, said, reasoning)
    ensures var o := HandleText(s, text); var d := Play(c, o.frames);
            Sync(o.s, d) && SaidTracks(o.s, d, said + text, reasoning)
  {
    if text == "" {
      assert said + text == said;
    } else {
      TextEffect(s, c, text);
      TextSyncs(s, c, text);
      hide Sync, Play, Heard, WithText;
      HeardGrows(c, s.textIndex, TextHead, text, said);
      HeardElsewhere(c, s.textIndex, TextHead, text, s.thinkingIndex, ThinkingHead, if s.expose then reasoning else "");
    }
  }

  lemma HandleTextKeepsTools(s: Stream, c: Client, text: string, frags: seq<Fragment>)
    requires Sync(s, c) && s.started && ToolsTrack(s, c, frags)
    ensures var o := HandleText(s, text); ToolsTrack(o.s, Play(c, o.frames), frags)
  {
    if text != "" {
      TextEffect(s, c, text);
      var o := HandleText(s, text);
      ToolsTrackFrame(s, c, o.s, Play(c, o.frames), frags);
    }
  }

  lemma HandleReasoningKeeps(s: Stream, c: Client, more: string, said: string, reasoning: string)
    requires Sync(s, c) && s.started && SaidTracks(s, c, said, reasoning)
    ensures var o := HandleReasoning(s, more); var d := Play(c, o.frames);
            Sync(o.s, d) && SaidTracks(o.s, d, said, reasoning + more)
  {
    if more == "" {
      assert reasoning + more == reasoning;
    } else if s.expose {
      ReasoningEffect(s, c, more);
      ReasoningSyncs(s, c, more);
      hide Sync, Play, Heard, WithText;
      HeardGrows(c, s.thinkingIndex, ThinkingHead, more, reasoning);
      HeardElsewhere(c, s.thinkingIndex, ThinkingHead, more, s.textIndex, TextHead, said);
    }
  }

  lemma HandleReasoningKeepsTools(s: Stream, c: Client, more: string, frags: seq<Fragment>)
    requires Sync(s, c) && s.started && ToolsTrack(s, c, frags)
    ensures var o := HandleReasoning(s, more); ToolsTrack(o.s, Play(c, o.frames), frags)
  {
    if more != "" && s.expose {
      ReasoningEffect(s, c, more);
      var o := HandleReasoning(s, more);
      ToolsTrackFrame(s, c, o.s, Play(c, o.frames), frags);
    } else {
      var o := HandleReasoning(s, more);
      ToolsTrackFrame(s, c, o.s, c, frags);
    }
  }

  // ---- tool fragments ----

  function WithJson(c: Client, i: nat, more: string): Client
    requires i < |c.blocks|
  {
    c.(blocks := c.blocks[i := c.blocks[i].(body := c.blocks[i].body + more)])
  }

  lemma JsonEffect(c: Client, i: nat, json: string)
    requires c.phase == Streaming && i < |c.blocks| && !c.blocks[i].closed && c.blocks[i].head.ToolUseHead?
    ensures Play(c, JsonDelta(i, json)) == WithJson(c, i, json)
  {
    if json != "" {
      PlaySingle(c, JsonDelta(i, json)[0]);
    } else {
      assert c.blocks[i].body + json == c.blocks[i].body;
      assert WithJson(c, i, json).blocks == c.blocks;
    }
  }

  lemma StartToolEffect(s: Stream, c: Client, index: nat, t: ToolStream)
    requires Sync(s, c) && s.started
    ensures var o := StartTool(s, index, t);
            && Play(c, o.frames) == c.(blocks := c.blocks + [Block(ToolUseHead(CallId(t, index), CallName(t)), t.pending, false)])
            && Sync(o.s, Play(c, o.frames))
  {
    var start := BlockStart(|s.blocks|, ToolUseHead(CallId(t, index), CallName(t)));
    var d := Receive(c, start);
    PlayConcat(c, [start], JsonDelta(|s.blocks|, t.pending));
    PlaySingle(c, start);
    JsonEffect(d, |s.blocks|, t.pending);
    assert "" + t.pending == t.pending;
  }

  predicate OpensBlock(s: Stream, call: Fragment) {
    var t := NoteFragment(s, call);
    t.block.None? && (t.name.Some? || call.arguments != "") && !t.server && s.serverNames == {}
  }

  /** What one fragment does at the client: opens a block, extends one, or nothing yet. */
  function ToolEffect(s: Stream, c: Client, call: Fragment): Client
    requires Sync(s, c)
  {
    var t := NoteFragment(s, call);
    if OpensBlock(s, call) then
      c.(blocks := c.blocks + [Block(ToolUseHead(CallId(t, call.index), CallName(t)), t.pending + call.arguments, false)])
    else if t.block.Some? then WithJson(c, t.block.value, call.arguments)
    else c
  }

  /** The three things a fragment can do to the translator. */
  lemma HandleToolCases(s: Stream, call: Fragment)
    ensures var o := HandleTool(s, call); var t := NoteFragment(s, call); var n := |s.blocks|;
            if OpensBlock(s, call) then
              && o.s == s.(blocks := s.blocks + [Tool], tools := s.tools[call.index := t.(block := Some(n), pending := "")])
              && o.frames == StartTool(s, call.index, t).frames + JsonDelta(n, call.arguments)
            else if t.block.Some? then
              o.s == s.(tools := s.tools[call.index := t]) && o.frames == JsonDelta(t.block.value, call.arguments)
            else
              o.s == s.(tools := s.tools[call.index := t.(pending := t.pending + call.arguments)]) && o.frames == []
  {
    var t := NoteFragment(s, call);
    if !OpensBlock(s, call) && t.block.None? {
      assert s.tools[call.index := t][call.index := t.(pending := t.pending + call.arguments)]
          == s.tools[call.index := t.(pending := t.pending + call.arguments)];
    } else if OpensBlock(s, call) {
      assert s.tools[call.index := t.(block := Some(|s.blocks|), pending := "")][call.index]
          == t.(block := Some(|s.blocks|), pending := "");
    }
  }

  lemma HandleToolEffect(s: Stream, c: Client, call: Fragment)
    requires Sync(s, c) && s.started
    ensures Play(c, HandleTool(s, call).frames) == ToolEffect(s, c, call)
  {
    HandleToolCases(s, call);
    var t := NoteFragment(s, call);
    if OpensBlock(s, call) {
      var o := StartTool(s, call.index, t);
      StartToolEffect(s, c, call.index, t);
      PlayConcat(c, o.frames, JsonDelta(|s.blocks|, call.arguments));
      JsonEffect(Play(c, o.frames), |s.blocks|, call.arguments);
    } else if t.block.Some? {
      JsonEffect(c, t.block.value, call.arguments);
    }
  }

  lemma HandleToolSyncs(s: Stream, c: Client, call: Fragment)
    requires Sync(s, c) && s.started
    ensures Sync(HandleTool(s, call).s, ToolEffect(s, c, call))
  {
    HandleToolCases(s, call);
  }

  /** Speech tracking reads only the exposure flags, the shadow and the text and thinking blocks. */
  predicate SameSpeech(s: Stream, s': Stream) {
    && s'.expose == s.expose && s'.shadow == s.shadow
    && s'.textIndex == s.textIndex && s'.thinkingIndex == s.thinkingIndex
  }

  lemma HeardOpens(blocks: seq<Block>, b: Block, at: Option<nat>, head: BlockHead, content: string)
    requires Heard(blocks, at, head, content) && b.head != head
    ensures Heard(blocks + [b], at, head, content)
  {
    SaidOpens(blocks, b, head);
    hide Said;
  }

  lemma HeardBesides(blocks: seq<Block>, i: nat, more: string, at: Option<nat>, head: BlockHead, content: string)
    requires Heard(blocks, at, head, content) && i < |blocks| && blocks[i].head != head
    ensures Heard(blocks[i := blocks[i].(body := blocks[i].body + more)], at, head, content)
  {
    SaidGrows(blocks, i, more, head);
    hide Said;
  }

  lemma SaidAfterOpen(s: Stream, c: Client, s': Stream, b: Block, said: string, reasoning: string)
    requires SaidTracks(s, c, said, reasoning) && SameSpeech(s, s')
    requires !b.head.TextHead? && !b.head.ThinkingHead?
    ensures SaidTracks(s', c.(blocks := c.blocks + [b]), said, reasoning)
  {
    hide Heard;
    HeardOpens(c.blocks, b, s.textIndex, TextHead, said);
    HeardOpens(c.blocks, b, s.thinkingIndex, ThinkingHead, if s.expose then reasoning else "");
  }

  lemma SaidAfterJson(s: Stream, c: Client, s': Stream, i: nat, more: string, said: string, reasoning: string)
    requires SaidTracks(s, c, said, reasoning) && SameSpeech(s, s')
    requires i < |c.blocks| && c.blocks[i].head.ToolUseHead?
    ensures SaidTracks(s', WithJson(c, i, more), said, reasoning)
  {
    hide Heard;
    HeardBesides(c.blocks, i, more, s.textIndex, TextHead, said);
    HeardBesides(c.blocks, i, more, s.thinkingIndex, ThinkingHead, if s.expose then reasoning else "");
  }

  lemma HandleToolKeepsSaid(s: Stream, c: Client, call: Fragment, said: string, reasoning: string)
    requires Sync(s, c) && SaidTracks(s, c, said, reasoning)
    ensures SaidTracks(HandleTool(s, call).s, ToolEffect(s, c, call), said, reasoning)
  {
    HandleToolCases(s, call);
    var o := HandleTool(s, call);
    var t := NoteFragment(s, call);
    hide HandleTool;
    assert SameSpeech(s, o.s);
    if OpensBlock(s, call) {
      SaidAfterOpen(s, c, o.s, Block(ToolUseHead(CallId(t, call.index), CallName(t)), t.pending + call.arguments, false),
                    said, reasoning);
    } else if t.block.Some? {
      SaidAfterJson(s, c, o.s, t.block.value, call.arguments, said, reasoning);
    }
  }

  /** The fragment's own index after the fragment. */
  lemma OwnToolTracks(s: Stream, c: Client, call: Fragment, frags: seq<Fragment>)
    requires Sync(s, c) && ToolsTrack(s, c, frags)
    ensures var o := HandleTool(s, call); var k := call.index;
            k in o.s.tools && ToolTracks(o.s.tools[k], k, s.serverNames, ToolEffect(s, c, call), frags + [call])
  {
    var k := call.index;
    HandleToolCases(s, call);
    LastNameIsNamed(frags, k, s.serverNames);
    OneMore(frags, call, k, s.serverNames);
    if k in s.tools {
      assert ToolTracks(s.tools[k], k, s.serverNames, c, frags);
    } else {
      assert !Mentioned(frags, k);
    }
  }

  /** Every other index is left alone, at the translator and at the client. */
  lemma OtherToolTracks(s: Stream, c: Client, call: Fragment, frags: seq<Fragment>, k: nat)
    requires Sync(s, c) && ToolsTrack(s, c, frags) && k in s.tools && k != call.index
    ensures var o := HandleTool(s, call);
            && o.s.tools[k] == s.tools[k]
            && ToolTracks(s.tools[k], k, s.serverNames, ToolEffect(s, c, call), frags + [call])
  {
    HandleToolCases(s, call);
    OneMore(frags, call, k, s.serverNames);
    assert ToolTracks(s.tools[k], k, s.serverNames, c, frags);
    hide HandleTool;
  }

  /** No two indices share a block. */
  lemma BlocksStayApart(s: Stream, c: Client, call: Fragment, frags: seq<Fragment>, j: nat, k: nat)
    requires Sync(s, c) && ToolsTrack(s, c, frags)
    requires var tools := HandleTool(s, call).s.tools; j in tools && k in tools && j != k && tools[j].block.Some?
    ensures var tools := HandleTool(s, call).s.tools; tools[j].block != tools[k].block
  {
    HandleToolCases(s, call);
    hide HandleTool, ToolTracks;
  }

  lemma HandleToolKeys(s: Stream, call: Fragment)
    ensures var o := HandleTool(s, call);
            && (forall k :: k in o.s.tools <==> k in s.tools || k == call.index)
            && o.s.serverNames == s.serverNames && o.s.started == s.started
            && (Buffered(s) ==> Buffered(o.s))
  {
    HandleToolCases(s, call);
    hide HandleTool;
  }

  lemma HandleToolKeepsTools(s: Stream, c: Client, call: Fragment, frags: seq<Fragment>)
    requires Sync(s, c) && ToolsTrack(s, c, frags)
    ensures ToolsTrack(HandleTool(s, call).s, ToolEffect(s, c, call), frags + [call])
  {
    hide HandleTool, ToolTracks, ToolEffect;
    var o := HandleTool(s, call);
    HandleToolKeys(s, call);
    OwnToolTracks(s, c, call, frags);
    forall k: nat
      ensures k in o.s.tools <==> Mentioned(frags + [call], k)
      ensures k in o.s.tools ==> ToolTracks(o.s.tools[k], k, s.serverNames, ToolEffect(s, c, call), frags + [call])
    {
      OneMore(frags, call, k, s.serverNames);
      if k in s.tools && k != call.index {
        OtherToolTracks(s, c, call, frags, k);
      }
    }
    forall j, k | j in o.s.tools && k in o.s.tools && j != k && o.s.tools[j].block.Some?
      ensures o.s.tools[j].block != o.s.tools[k].block
    {
      BlocksStayApart(s, c, call, frags, j, k);
    }
  }

  /** Everything a round keeps while chunks arrive. */
  ghost predicate Inv(s: Stream, c: Client, said: string, reasoning: string, frags: seq<Fragment>) {
    Sync(s, c) && SaidTracks(s, c, said, reasoning) && ToolsTrack(s, c, frags) && Buffered(s)
  }

  lemma HandleToolKeeps(s: Stream, c: Client, call: Fragment, said: string, reasoning: string, frags: seq<Fragment>)
    requires Inv(s, c, said, reasoning, frags) && s.started
    ensures var o := HandleTool(s, call); o.s.started && Inv(o.s, Play(c, o.frames), said, reasoning, frags + [call])
  {
    hide HandleTool, ToolEffect, Sync, SaidTracks, ToolsTrack, Buffered;
    HandleToolEffect(s, c, call);
    HandleToolSyncs(s, c, call);
    HandleToolKeepsSaid(s, c, call, said, reasoning);
    HandleToolKeepsTools(s, c, call, frags);
    HandleToolKeys(s, call);
  }

  lemma {:induction false} HandleToolsKeep(s: Stream, c: Client, calls: seq<Fragment>, said: string, reasoning: string,
                                           frags: seq<Fragment>)
    requires Inv(s, c, said, reasoning, frags) && s.started
    ensures var o := HandleTools(s, calls); o.s.started && Inv(o.s, Play(c, o.frames), said, reasoning, frags + calls)
    decreases |calls|
  {
    hide Inv;
    if calls == [] {
      assert frags + calls == frags;
    } else {
      var n := |calls| - 1;
      HandleToolsKeep(s, c, calls[..n], said, reasoning, frags);
      var o := HandleTools(s, calls[..n]);
      var p := HandleTool(o.s, calls[n]);
      HandleToolKeeps(o.s, Play(c, o.frames), calls[n], said, reasoning, frags + calls[..n]);
      PlayConcat(c, o.frames, p.frames);
      assert frags + calls[..n] + [calls[n]] == frags + calls;
    }
  }

  // ---- whole chunks ----

  lemma BeginKeeps(s: Stream, c: Client, chunk: Chunk, requestId: string, model: string, said: string, reasoning: string,
                   frags: seq<Fragment>)
    requires Inv(s, c, said, reasoning, frags) && chunk.Data?
    ensures var o := Begin(s, chunk, requestId, model);
            var n := Note(o.s, chunk);
            n.started && Inv(n, Play(c, o.frames), said, reasoning, frags)
  {
    hide ToolsTrack, Heard, Play;
    var o := Begin(s, chunk, requestId, model);
    var n := Note(o.s, chunk);
    var d := Play(c, o.frames);
    assert d == if s.started then c else c.(phase := Streaming) by {
      if s.started {
        PlayNothing(c);
      } else {
        PlaySingle(c, o.frames[0]);
      }
    }
    ToolsTrackFrame(s, c, n, d, frags);
  }

  /** A data chunk keeps everything, and adds exactly its own text, reasoning and fragments. */
  lemma HandleDataKeeps(s: Stream, c: Client, chunk: Chunk, requestId: string, model: string, said: string,
                        reasoning: string, frags: seq<Fragment>)
    requires Inv(s, c, said, reasoning, frags) && chunk.Data?
    ensures var o := HandleData(s, chunk, requestId, model);
            && o.s.started
            && Inv(o.s, Play(c, o.frames), said + chunk.text, reasoning + chunk.reasoning, frags + chunk.calls)
  {
    hide Sync, SaidTracks, ToolsTrack, Play, HandleReasoning, HandleText, HandleTools, Begin, Note;
    var o0 := Begin(s, chunk, requestId, model);
    var n := Note(o0.s, chunk);
    var c0 := Play(c, o0.frames);
    BeginKeeps(s, c, chunk, requestId, model, said, reasoning, frags);
    var o1 := HandleReasoning(n, chunk.reasoning);
    var c1 := Play(c0, o1.frames);
    HandleReasoningKeeps(n, c0, chunk.reasoning, said, reasoning);
    HandleReasoningKeepsTools(n, c0, chunk.reasoning, frags);
    SpeechOnly(n, chunk.reasoning, chunk.text);
    var o2 := HandleText(o1.s, chunk.text);
    var c2 := Play(c1, o2.frames);
    HandleTextKeeps(o1.s, c1, chunk.text, said, reasoning + chunk.reasoning);
    HandleTextKeepsTools(o1.s, c1, chunk.text, frags);
    SpeechOnly(o1.s, chunk.reasoning, chunk.text);
    var o3 := HandleTools(o2.s, chunk.calls);
    HandleToolsKeep(o2.s, c2, chunk.calls, said + chunk.text, reasoning + chunk.reasoning, frags);
    PlayConcat(c, o0.frames, o1.frames);
    PlayConcat(c, o0.frames + o1.frames, o2.frames);
    PlayConcat(c, o0.frames + o1.frames + o2.frames, o3.frames);
  }

  /** Text and reasoning touch neither the tools nor the flags. */
  lemma SpeechOnly(s: Stream, reasoning: string, text: string)
    ensures var o := HandleReasoning(s, reasoning).s; var p := HandleText(s, text).s;
            && o.started == p.started == s.started
            && (Buffered(s) ==> Buffered(o) && Buffered(p))
  {
  }
}
