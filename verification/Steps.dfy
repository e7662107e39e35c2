/**
 The steps of a streamed reply: what every payload, search round and ending keeps, over several upstream rounds.
 */
module Steps {
  import opened Prelude
  import opened Protocol
  import opened Upstream
  import opened Translator
  import opened Lifecycle
  import opened Finishing
  import opened Rounds
  import opened Replay
  import opened ToolBlocks
  import opened Served
  import opened Conversation
  import H = History

  /** What the translator has noted of the earlier rounds `past` and of this round's payloads `now`. */
  ghost predicate Notes(s: Stream, past: seq<Chunk>, now: seq<Chunk>) {
    && !s.terminal && s.finish == FinishOf(now) && (s.finish.Some? ==> s.started)
    && s.usage == UsageOf(past + now).GetOr(NO_USAGE)
    && s.roundComplete == (Done in now) && (Done in now ==> s.serverNames != {} && s.finish.Some?)
    && Sound(now)
  }

  /**
   A run in progress: nothing lost, nothing out of turn, what is shown so far can be replayed, and the searches shown
   are exactly `served`.
   */
  ghost predicate Live(s: Stream, c: Client, past: seq<Chunk>, now: seq<Chunk>, served: seq<Block>) {
    && Inv(s, c, TextOf(past + now), ReasoningOf(past + now), Fragments(now))
    && Shown(s, c, Fragments(now)) && Notes(s, past, now)
    && Replayable(c.blocks) && Named(s)
    && ServerBlocks(c.blocks) == served && s.webSearches == ResultCount(served)
  }

  /** A run that is over, well or not: the client holds exactly what was received, and the searches. */
  ghost predicate Over(s: Stream, c: Client, seen: seq<Chunk>, served: seq<Block>) {
    && Said(c.blocks, TextHead) == TextOf(seen)
    && Said(c.blocks, ThinkingHead) == (if s.expose then ReasoningOf(seen) else "")
    && s.shadow == (if s.expose then "" else ReasoningOf(seen))
    && Replayable(c.blocks) && ServerBlocks(c.blocks) == served
  }

  /** How a run that succeeds leaves the message: all closed, the calls of the last round, the totals. */
  ghost predicate Finale(s: Stream, c: Client, seen: seq<Chunk>, now: seq<Chunk>, served: seq<Block>, order: seq<nat>) {
    && AllClosed(c.blocks) && HeldOrder(Fragments(now), s.serverNames, order)
    && ClientTools(c.blocks) == FinalCalls(Fragments(now), s.serverNames, order)
    && c.usage == ConvertUsage(UsageOf(seen).GetOr(NO_USAGE), ResultCount(served))
  }

  /** How each reading of the payloads grows with one more. */
  lemma OneMoreChunk(past: seq<Chunk>, now: seq<Chunk>, chunk: Chunk)
    ensures past + (now + [chunk]) == past + now + [chunk]
    ensures var more := past + (now + [chunk]);
            && TextOf(more) == TextOf(past + now) + (if chunk.Data? then chunk.text else "")
            && ReasoningOf(more) == ReasoningOf(past + now) + (if chunk.Data? then chunk.reasoning else "")
            && UsageOf(more) == (if chunk.Data? && chunk.usage.Some? then chunk.usage else UsageOf(past + now))
    ensures Fragments(now + [chunk]) == Fragments(now) + (if chunk.Data? then chunk.calls else [])
    ensures FinishOf(now + [chunk]) == (if chunk.Data? && chunk.finish.Some? then chunk.finish else FinishOf(now))
    ensures Done in now + [chunk] <==> Done in now || chunk == Done
  {
    var more := past + (now + [chunk]);
    assert more == past + now + [chunk];
    assert (past + now + [chunk])[..|past + now|] == past + now && (now + [chunk])[..|now|] == now;
  }

  /** A payload that is no data changes no reading. */
  lemma NoData(past: seq<Chunk>, now: seq<Chunk>, chunk: Chunk)
    requires !chunk.Data?
    ensures var more := past + (now + [chunk]);
            TextOf(more) == TextOf(past + now) && ReasoningOf(more) == ReasoningOf(past + now) && UsageOf(more) == UsageOf(past + now)
    ensures Fragments(now + [chunk]) == Fragments(now) && FinishOf(now + [chunk]) == FinishOf(now)
  {
    OneMoreChunk(past, now, chunk);
    hide TextOf, ReasoningOf, UsageOf, Fragments, FinishOf;
    assert TextOf(past + now) + "" == TextOf(past + now) && ReasoningOf(past + now) + "" == ReasoningOf(past + now);
    assert Fragments(now) + [] == Fragments(now);
  }

  lemma LiveFacts(s: Stream, c: Client, past: seq<Chunk>, now: seq<Chunk>, served: seq<Block>)
    requires Live(s, c, past, now, served)
    ensures Inv(s, c, TextOf(past + now), ReasoningOf(past + now), Fragments(now)) && Sync(s, c)
    ensures Shown(s, c, Fragments(now)) && Replayable(c.blocks) && Named(s) && ServerBlocks(c.blocks) == served
    ensures s.webSearches == ResultCount(served) && Notes(s, past, now)
  {
    hide Shown, Replayable, Named, Notes, ToolsTrack, SaidTracks, Sync;
  }

  /** An error frame ends the run; the content shown stands. */
  lemma AbortStep(s: Stream, c: Client, message: string, past: seq<Chunk>, now: seq<Chunk>, served: seq<Block>)
    requires Live(s, c, past, now, served)
    ensures var d := Play(c, [ErrorFrame(message)]); d.phase == Failed && Over(s, d, past + now, served)
  {
    PlaySingle(c, ErrorFrame(message));
    hide Play, Shown, Replayable, Named, Notes, ToolsTrack;
  }

  lemma AbortChunk(s: Stream, c: Client, chunk: Chunk, order: seq<nat>, requestId: string, model: string,
                   past: seq<Chunk>, now: seq<Chunk>, served: seq<Block>)
    requires Live(s, c, past, now, served) && !Fine(now, chunk) && (chunk.Done? ==> PendingOrder(s, order))
    ensures var o := Handle(s, chunk, order, requestId, model); var d := Play(c, o.frames);
            && o.s == s.(terminal := true) && d.phase == Failed && Over(o.s, d, past + (now + [chunk]), served)
  {
    hide *;
    LiveFacts(s, c, past, now, served);
    NotesMean(s, past, now);
    var message := AbortMessage(s, chunk, order, requestId, model, now);
    AbortStep(s, c, message, past, now, served);
    var d := Play(c, [ErrorFrame(message)]);
    assert !chunk.Data? by { UnfineIsNoData(now, chunk); }
    NoData(past, now, chunk);
    OverMeans(s, d, past + now, served);
    OverMeans(s.(terminal := true), d, past + (now + [chunk]), served);
  }

  lemma UnfineIsNoData(now: seq<Chunk>, chunk: Chunk)
    requires !Fine(now, chunk)
    ensures !chunk.Data?
  {
  }

  lemma AbortMessage(s: Stream, chunk: Chunk, order: seq<nat>, requestId: string, model: string, now: seq<Chunk>) returns (message: string)
    requires s.finish == FinishOf(now) && !Fine(now, chunk) && (chunk.Done? ==> PendingOrder(s, order))
    ensures Handle(s, chunk, order, requestId, model) == Out(s.(terminal := true), [ErrorFrame(message)])
  {
    message := Handle(s, chunk, order, requestId, model).frames[0].message;
  }

  /** The tools still to be shown are shown, everything is closed, and the run is over. */
  lemma FinalizeStep(s: Stream, c: Client, order: seq<nat>, past: seq<Chunk>, now: seq<Chunk>, served: seq<Block>)
    requires Live(s, c, past, now, served) && s.started && PendingOrder(s, order)
    ensures var o := Finalize(s, order); var d := Play(c, o.frames);
            && o.s.terminal && d.phase == Stopped && Over(o.s, d, past + now, served) && d.stop == MapStopReason(FinishOf(now))
            && Finale(o.s, d, past + now, now, served, order)
  {
    hide *;
    LiveFacts(s, c, past, now, served);
    NotesMean(s, past, now);
    FinalizeFlags(s, order);
    FinalizeDelivers(s, c, order, TextOf(past + now), ReasoningOf(past + now), Fragments(now));
    FinalizeShows(s, c, order, TextOf(past + now), ReasoningOf(past + now), Fragments(now));
    FinalizeReplays(s, c, order);
    FinalizeServes(s, c, order);
    var o := Finalize(s, order);
    OverMeans(o.s, Play(c, o.frames), past + now, served);
    FinaleMeans(o.s, Play(c, o.frames), past + now, now, served, order);
  }

  lemma FinalizeFlags(s: Stream, order: seq<nat>)
    requires PendingOrder(s, order) && !s.terminal
    ensures var t := Finalize(s, order).s; t.terminal && t.expose == s.expose && t.serverNames == s.serverNames
  {
    StartToolsResult(s, order);
    hide StartTools;
  }

  lemma OverMeans(s: Stream, c: Client, seen: seq<Chunk>, served: seq<Block>)
    ensures Over(s, c, seen, served) <==>
              && Said(c.blocks, TextHead) == TextOf(seen)
              && Said(c.blocks, ThinkingHead) == (if s.expose then ReasoningOf(seen) else "")
              && s.shadow == (if s.expose then "" else ReasoningOf(seen))
              && Replayable(c.blocks) && ServerBlocks(c.blocks) == served
  {
  }

  lemma FinaleMeans(s: Stream, c: Client, seen: seq<Chunk>, now: seq<Chunk>, served: seq<Block>, order: seq<nat>)
    ensures Finale(s, c, seen, now, served, order) <==>
              && AllClosed(c.blocks) && HeldOrder(Fragments(now), s.serverNames, order)
              && ClientTools(c.blocks) == FinalCalls(Fragments(now), s.serverNames, order)
              && c.usage == ConvertUsage(UsageOf(seen).GetOr(NO_USAGE), ResultCount(served))
  {
  }

  /** The reply breaks off for want of budget: nothing was left for the client to call. */
  lemma PauseStep(s: Stream, c: Client, past: seq<Chunk>, now: seq<Chunk>, served: seq<Block>)
    requires Live(s, c, past, now, served) && s.started && s.serverNames != {} && HeldOrder(Fragments(now), s.serverNames, [])
    ensures var o := FinalizeAsPaused(s); var d := Play(c, o.frames);
            && d.phase == Stopped && Over(o.s, d, past + now, served) && d.stop == Some("pause_turn")
            && Finale(o.s, d, past + now, now, served, [])
  {
    LiveFacts(s, c, past, now, served);
    var o := FinalizeAsPaused(s);
    var d := Play(c, o.frames);
    assert SaidTracks(s, c, TextOf(past + now), ReasoningOf(past + now)) && ToolsTrack(s, c, Fragments(now)) && NoTools(c.blocks);
    assert s.shadow == (if s.expose then "" else ReasoningOf(past + now)) && s.usage == UsageOf(past + now).GetOr(NO_USAGE);
    assert o == FinishWithStop(s, Some("pause_turn")) && FinalCalls(Fragments(now), s.serverNames, []) == [];
    hide *;
    FinishKeeps(s, c, Some("pause_turn"), TextOf(past + now), ReasoningOf(past + now), Fragments(now));
    FinishReplays(s, c, Some("pause_turn"));
    FinishServes(s, c, Some("pause_turn"));
    FinishTools(s, c, Some("pause_turn"));
    NoToolsNone(c.blocks);
    OverMeans(o.s, d, past + now, served);
    FinaleMeans(o.s, d, past + now, now, served, []);
  }

  lemma FinishTools(s: Stream, c: Client, stop: Option<string>)
    requires Sync(s, c) && s.started
    ensures ClientTools(Play(c, FinishWithStop(s, stop).frames).blocks) == ClientTools(c.blocks)
  {
    FinishEffect(s, c, stop);
    ToolsWhenClosed(c.blocks);
    hide Play, ClientTools, FinishWithStop;
  }

  /** A data payload keeps a run live. */
  lemma DataStep(s: Stream, c: Client, chunk: Chunk, requestId: string, model: string, past: seq<Chunk>, now: seq<Chunk>,
                 served: seq<Block>)
    requires Live(s, c, past, now, served) && chunk.Data?
    ensures var o := HandleData(s, chunk, requestId, model); var d := Play(c, o.frames);
            && Live(o.s, d, past, now + [chunk], served) && o.s.serverNames == s.serverNames && o.s.expose == s.expose
            && H.Uses(ReplayAll(d.blocks)) == H.Uses(ReplayAll(c.blocks))
  {
    hide *;
    LiveFacts(s, c, past, now, served);
    NotesMean(s, past, now);
    OneMoreChunk(past, now, chunk);
    SoundOneMore(now, chunk);
    FineData(now, chunk);
    HandleDataKeeps(s, c, chunk, requestId, model, TextOf(past + now), ReasoningOf(past + now), Fragments(now));
    DataShown(s, c, chunk, requestId, model, TextOf(past + now), ReasoningOf(past + now), Fragments(now));
    HandleDataReplays(s, c, chunk, requestId, model);
    DataServes(s, c, chunk, requestId, model);
    DataFlags(s, chunk, requestId, model);
    var o := HandleData(s, chunk, requestId, model);
    NotesMean(o.s, past, now + [chunk]);
    LiveMeans(o.s, Play(c, o.frames), past, now + [chunk], served);
  }

  lemma FineData(now: seq<Chunk>, chunk: Chunk)
    requires chunk.Data?
    ensures Fine(now, chunk) && chunk != Done
    ensures forall a: Option<string> :: OrElse(chunk.finish, a) == if chunk.finish.Some? then chunk.finish else a
    ensures forall u: Option<Usage> :: (if chunk.usage.Some? then chunk.usage else u).GetOr(NO_USAGE) == chunk.usage.GetOr(u.GetOr(NO_USAGE))
  {
  }

  lemma NotesMean(s: Stream, past: seq<Chunk>, now: seq<Chunk>)
    ensures Notes(s, past, now) <==>
              && !s.terminal && s.finish == FinishOf(now) && (s.finish.Some? ==> s.started)
              && s.usage == UsageOf(past + now).GetOr(NO_USAGE)
              && s.roundComplete == (Done in now) && (Done in now ==> s.serverNames != {} && s.finish.Some?)
              && Sound(now)
  {
  }

  lemma LiveMeans(s: Stream, c: Client, past: seq<Chunk>, now: seq<Chunk>, served: seq<Block>)
    ensures Live(s, c, past, now, served) <==>
              && Inv(s, c, TextOf(past + now), ReasoningOf(past + now), Fragments(now))
              && Shown(s, c, Fragments(now)) && Notes(s, past, now)
              && Replayable(c.blocks) && Named(s)
              && ServerBlocks(c.blocks) == served && s.webSearches == ResultCount(served)
  {
  }

  /** A data payload notes its finish reason and usage and starts the message; nothing else of the kind changes. */
  lemma DataFlags(s: Stream, chunk: Chunk, requestId: string, model: string)
    requires chunk.Data?
    ensures var t := HandleData(s, chunk, requestId, model).s;
            && t.terminal == s.terminal && t.started && t.roundComplete == s.roundComplete
            && t.finish == OrElse(chunk.finish, s.finish) && t.usage == chunk.usage.GetOr(s.usage)
            && t.serverNames == s.serverNames && t.expose == s.expose && t.webSearches == s.webSearches
  {
    hide HandleReasoning, HandleText, HandleTools;
    var n := Note(Begin(s, chunk, requestId, model).s, chunk);
    var o1 := HandleReasoning(n, chunk.reasoning);
    var o2 := HandleText(o1.s, chunk.text);
    SpeechFlags(n, chunk.reasoning, "");
    SpeechFlags(o1.s, "", chunk.text);
    ToolsSameNotes(o2.s, chunk.calls);
    ToolsKeepRound(o2.s, chunk.calls);
  }

  lemma SpeechFlags(s: Stream, reasoning: string, text: string)
    ensures SameNotes(s, HandleReasoning(s, reasoning).s) && SameNotes(s, HandleText(s, text).s)
    ensures HandleReasoning(s, reasoning).s.roundComplete == s.roundComplete == HandleText(s, text).s.roundComplete
  {
  }

  lemma {:induction false} ToolsKeepRound(s: Stream, calls: seq<Fragment>)
    ensures HandleTools(s, calls).s.roundComplete == s.roundComplete
    decreases |calls|
  {
    if calls != [] {
      ToolsKeepRound(s, calls[..|calls| - 1]);
      HandleToolCases(HandleTools(s, calls[..|calls| - 1]).s, calls[|calls| - 1]);
      hide HandleTool;
    }
  }

  /** With server tools offered a `[DONE]` only marks the round. */
  lemma MarkStep(s: Stream, c: Client, past: seq<Chunk>, now: seq<Chunk>, served: seq<Block>)
    requires Live(s, c, past, now, served) && s.finish.Some? && s.serverNames != {}
    ensures Live(s.(roundComplete := true), c, past, now + [Done], served)
  {
    hide *;
    LiveFacts(s, c, past, now, served);
    NotesMean(s, past, now);
    assert Fine(now, Done) by { DoneIsFine(now); }
    var t := s.(roundComplete := true);
    NoData(past, now, Done);
    OneMoreChunk(past, now, Done);
    SoundOneMore(now, Done);
    MarkKeeps(s, c, TextOf(past + now), ReasoningOf(past + now), Fragments(now));
    NotesMean(t, past, now + [Done]);
    LiveMeans(t, c, past, now + [Done], served);
  }

  lemma DoneIsFine(now: seq<Chunk>)
    requires FinishOf(now).Some?
    ensures Fine(now, Done)
  {
  }

  lemma SameInSync(s: Stream, c: Client)
    requires Sync(s, c)
    ensures Sync(s.(roundComplete := true), c)
  {
  }

  lemma MarkKeeps(s: Stream, c: Client, said: string, reasoning: string, frags: seq<Fragment>)
    requires Inv(s, c, said, reasoning, frags) && Shown(s, c, frags) && Named(s)
    ensures var t := s.(roundComplete := true); Inv(t, c, said, reasoning, frags) && Shown(t, c, frags) && Named(t)
  {
    var t := s.(roundComplete := true);
    hide Heard, Sync, ToolsTrack, Shown;
    SameInSync(s, c);
    ToolsTrackFrame(s, c, t, c, frags);
    ShownFrame(s, c, t, c, frags);
  }

  /** Any upstream payload keeps a run live, or ends it: well with the `[DONE]` of a reply without server tools, else with an error. */
  lemma HandleStep(s: Stream, c: Client, chunk: Chunk, order: seq<nat>, requestId: string, model: string,
                   past: seq<Chunk>, now: seq<Chunk>, served: seq<Block>)
    requires Live(s, c, past, now, served) && (chunk.Done? ==> PendingOrder(s, order))
    ensures var o := Handle(s, chunk, order, requestId, model); var d := Play(c, o.frames); var more := now + [chunk];
            && o.s.terminal == (!Fine(now, chunk) || (chunk == Done && s.serverNames == {}))
            && (Sound(more) <==> Fine(now, chunk))
            && (!o.s.terminal ==> Live(o.s, d, past, more, served) && H.Uses(ReplayAll(d.blocks)) == H.Uses(ReplayAll(c.blocks)))
            && (o.s.terminal ==> Over(o.s, d, past + more, served) && d.phase == (if Fine(now, chunk) then Stopped else Failed))
            && (o.s.terminal && Fine(now, chunk) ==> d.stop == MapStopReason(FinishOf(more)) && Finale(o.s, d, past + more, more, served, order))
  {
    SoundOneMore(now, chunk);
    assert Sound(now) && !s.terminal && s.finish == FinishOf(now) && (s.finish.Some? ==> s.started) by {
      LiveFacts(s, c, past, now, served);
    }
    var o := Handle(s, chunk, order, requestId, model);
    if !Fine(now, chunk) {
      AbortChunk(s, c, chunk, order, requestId, model, past, now, served);
      hide *;
    } else if chunk.Data? {
      assert o == HandleData(s, chunk, requestId, model);
      hide *;
      DataStep(s, c, chunk, requestId, model, past, now, served);
      DataFlags(s, chunk, requestId, model);
    } else if s.serverNames == {} {
      assert o == Finalize(s, order);
      hide *;
      FinalizeStep(s, c, order, past, now, served);
      DoneAddsNothing(o.s, Play(c, o.frames), past, now, served, order);
    } else {
      assert o == Out(s.(roundComplete := true), []);
      hide *;
      PlayNothing(c);
      MarkStep(s, c, past, now, served);
    }
  }

  lemma DoneAddsNothing(s: Stream, c: Client, past: seq<Chunk>, now: seq<Chunk>, served: seq<Block>, order: seq<nat>)
    requires Over(s, c, past + now, served) && Finale(s, c, past + now, now, served, order)
    ensures Over(s, c, past + (now + [Done]), served) && Finale(s, c, past + (now + [Done]), now + [Done], served, order)
    ensures FinishOf(now + [Done]) == FinishOf(now)
  {
    NoData(past, now, Done);
    hide TextOf, ReasoningOf, UsageOf, Fragments, FinishOf, Said, HeldOrder, FinalCalls, ClientTools;
  }

  /** A round of searches, announced and answered. */
  function SearchRound(s: Stream, ids: seq<string>, inputs: seq<string>, results: seq<string>): Out {
    if |ids| == |inputs| == |results| then
      var o := EmitServerToolUse(s, ids, inputs);
      var p := FinishServerToolRound(o.s, results);
      Out(p.s, o.frames + p.frames)
    else Out(s, [])
  }

  /** It closes what is open and appends the uses and the results, and nothing else changes. */
  lemma SearchRoundKeeps(s: Stream, c: Client, ids: seq<string>, inputs: seq<string>, results: seq<string>,
                         said: string, reasoning: string, frags: seq<Fragment>)
    requires Inv(s, c, said, reasoning, frags) && s.started && |ids| == |inputs| == |results|
    ensures var o := SearchRound(s, ids, inputs, results); var d := Play(c, o.frames);
            var c0 := Play(c, CloseOpenContentBlocks(s).frames);
            && Inv(o.s, d, said, reasoning, frags) && o.s.started
            && d.blocks == c0.blocks + RoundBlocks(ids, inputs, results)
            && o.s.tools == s.tools && o.s.terminal == s.terminal && o.s.finish == s.finish && o.s.roundComplete == s.roundComplete
            && o.s.webSearches == s.webSearches + |ids| && o.s.usage == s.usage && o.s.serverNames == s.serverNames
            && (Named(s) ==> Named(o.s))
  {
    hide *;
    var o0 := CloseOpenContentBlocks(s);
    var c0 := Play(c, o0.frames);
    CloseOpenKeeps(s, c, said, reasoning, frags);
    var s1 := o0.s.(pendingServerIds := []);
    ForgetPending(o0.s, c0, said, reasoning, frags);
    var o1 := EmitUses(s1, ids, inputs);
    var c1 := Play(c0, o1.frames);
    SettledFacts(s1, c0, said, reasoning, frags);
    EmitUsesEffect(s1, c0, ids, inputs);
    ExtendedKeeps(s1, c0, o1.s, UseBlocks(ids, inputs), said, reasoning, frags);
    assert o1.s.pendingServerIds == ids by { assert [] + ids == ids; }
    var s2 := o1.s.(pendingServerIds := []);
    ForgetPending(o1.s, c1, said, reasoning, frags);
    var o2 := EmitResults(s2, ids, results);
    SettledFacts(s2, c1, said, reasoning, frags);
    EmitResultsEffect(s2, c1, ids, results);
    ExtendedKeeps(s2, c1, o2.s, ResultBlocks(ids, results), said, reasoning, frags);
    SettledFacts(o2.s, Play(c1, o2.frames), said, reasoning, frags);
    RoundFlags(s, o0.s, s1, o1.s, s2, o2.s, |ids|);
    SearchRoundIs(s, ids, inputs, results);
    RoundBlocksAre(c0.blocks, ids, inputs, results);
    PlayConcat(c, o0.frames, o1.frames);
    PlayConcat(c, o0.frames + o1.frames, o2.frames);
  }

  lemma RoundBlocksAre(before: seq<Block>, ids: seq<string>, inputs: seq<string>, results: seq<string>)
    requires |ids| == |inputs| == |results|
    ensures before + RoundBlocks(ids, inputs, results) == before + UseBlocks(ids, inputs) + ResultBlocks(ids, results)
  {
  }

  lemma SearchRoundIs(s: Stream, ids: seq<string>, inputs: seq<string>, results: seq<string>)
    requires |ids| == |inputs| == |results|
    requires EmitUses(CloseOpenContentBlocks(s).s.(pendingServerIds := []), ids, inputs).s.pendingServerIds == ids
    ensures var o0 := CloseOpenContentBlocks(s); var o1 := EmitUses(o0.s.(pendingServerIds := []), ids, inputs);
            var o2 := EmitResults(o1.s.(pendingServerIds := []), ids, results);
            SearchRound(s, ids, inputs, results) == Out(o2.s, o0.frames + o1.frames + o2.frames)
  {
    EmitServerIs(s, ids, inputs);
    FinishServerIs(EmitServerToolUse(s, ids, inputs).s, ids, results);
    hide EmitServerToolUse, FinishServerToolRound, CloseOpenContentBlocks, EmitUses, EmitResults;
  }

  /** Announcing a round of searches and giving their results keeps a run live and shows exactly those searches. */
  lemma ServerRoundStep(s: Stream, c: Client, ids: seq<string>, inputs: seq<string>, results: seq<string>,
                        past: seq<Chunk>, now: seq<Chunk>, served: seq<Block>)
    requires Live(s, c, past, now, served) && s.started && |ids| == |inputs| == |results|
    requires FreshIds(ids, H.Uses(ReplayAll(c.blocks)))
    ensures var o := SearchRound(s, ids, inputs, results); var d := Play(c, o.frames);
            && Live(o.s, d, past, now, served + RoundBlocks(ids, inputs, results)) && o.s.started
            && H.Uses(ReplayAll(d.blocks)) == H.Uses(ReplayAll(c.blocks)) + SetOf(ids)
            && o.s.serverNames == s.serverNames
  {
    hide *;
    LiveFacts(s, c, past, now, served);
    NotesMean(s, past, now);
    var said, reasoning, frags := TextOf(past + now), ReasoningOf(past + now), Fragments(now);
    var o := SearchRound(s, ids, inputs, results);
    var c0, d := Play(c, CloseOpenContentBlocks(s).frames), Play(c, o.frames);
    SearchRoundKeeps(s, c, ids, inputs, results, said, reasoning, frags);
    CloseOpenKeeps(s, c, said, reasoning, frags);
    CloseOpenReplays(s, c);
    CloseOpenServes(s, c);
    RoundReplays(c0.blocks, ids, inputs, results);
    RoundServes(c0.blocks, ids, inputs, results);
    RoundBlocksAre(c0.blocks, ids, inputs, results);
    RoundBlocksAre(served, ids, inputs, results);
    RoundShown(s, c, c0, o.s, d, ids, inputs, results, frags);
    NotesMean(o.s, past, now);
    LiveMeans(o.s, d, past, now, served + RoundBlocks(ids, inputs, results));
  }

  lemma EmitServerIs(s: Stream, ids: seq<string>, inputs: seq<string>)
    requires |ids| == |inputs|
    ensures var o0 := CloseOpenContentBlocks(s); var o1 := EmitUses(o0.s.(pendingServerIds := []), ids, inputs);
            EmitServerToolUse(s, ids, inputs) == Out(o1.s, o0.frames + o1.frames)
  {
    hide CloseOpenContentBlocks, EmitUses;
  }

  lemma FinishServerIs(s: Stream, ids: seq<string>, results: seq<string>)
    requires s.pendingServerIds == ids && |ids| == |results|
    ensures FinishServerToolRound(s, results) == EmitResults(s.(pendingServerIds := []), ids, results)
  {
    assert ids[..|ids|] == ids && results[..|ids|] == results;
    hide EmitResults;
  }

  lemma RoundShown(s: Stream, c: Client, c0: Client, t: Stream, d: Client, ids: seq<string>, inputs: seq<string>,
                   results: seq<string>, frags: seq<Fragment>)
    requires Shown(s, c, frags) && t.tools == s.tools && t.serverNames == s.serverNames && |ids| == |inputs| == |results|
    requires |c0.blocks| == |c.blocks| && forall i | 0 <= i < |c.blocks| :: c0.blocks[i].head == c.blocks[i].head
    requires d.blocks == c0.blocks + RoundBlocks(ids, inputs, results)
    ensures Shown(t, d, frags)
  {
    hide Shown;
    ShownFrame(s, c, t, d, frags);
  }

  lemma SettledFacts(s: Stream, c: Client, said: string, reasoning: string, frags: seq<Fragment>)
    requires Settled(s, c, said, reasoning, frags)
    ensures c.phase == Streaming && |s.blocks| == |c.blocks| && s.started && Inv(s, c, said, reasoning, frags)
  {
  }

  lemma ForgetPending(s: Stream, c: Client, said: string, reasoning: string, frags: seq<Fragment>)
    requires Settled(s, c, said, reasoning, frags)
    ensures Settled(s.(pendingServerIds := []), c, said, reasoning, frags)
  {
    hide Heard;
    ToolsTrackFrame(s, c, s.(pendingServerIds := []), c, frags);
    hide ToolsTrack;
  }

  lemma RoundFlags(s: Stream, a: Stream, a': Stream, b: Stream, b': Stream, t: Stream, n: nat)
    requires a == s.(blocks := a.blocks, textIndex := None, thinkingIndex := None)
    requires a' == a.(pendingServerIds := []) && Extended(a', b, n) && b' == b.(pendingServerIds := []) && Extended(b', t, n)
    requires b.webSearches == a'.webSearches && t.webSearches == b'.webSearches + n
    ensures t.tools == s.tools && t.terminal == s.terminal && t.finish == s.finish && t.started == s.started && t.roundComplete == s.roundComplete
    ensures t.webSearches == s.webSearches + n && t.usage == s.usage && t.serverNames == s.serverNames
    ensures Named(s) ==> Named(t)
  {
  }

  /** A new round starts with no tools, no finish reason and no payloads; everything shown stands. */
  lemma NewRoundStep(s: Stream, c: Client, past: seq<Chunk>, now: seq<Chunk>, served: seq<Block>)
    requires Live(s, c, past, now, served) && s.serverNames != {}
    ensures Live(BeginNewRound(s), c, past + now, [], served)
  {
    hide *;
    LiveFacts(s, c, past, now, served);
    NotesMean(s, past, now);
    var t := BeginNewRound(s);
    assert past + now + [] == past + now;
    NewRoundKeeps(s, c, TextOf(past + now), ReasoningOf(past + now), Fragments(now));
    NothingRead();
    NotesMean(t, past + now, []);
    LiveMeans(t, c, past + now, [], served);
  }

  lemma NothingRead()
    ensures Fragments([]) == [] && FinishOf([]) == None && Sound([])
  {
  }

  lemma NewRoundKeeps(s: Stream, c: Client, said: string, reasoning: string, frags: seq<Fragment>)
    requires Inv(s, c, said, reasoning, frags) && s.serverNames != {} && Shown(s, c, frags)
    ensures var t := BeginNewRound(s);
            && Inv(t, c, said, reasoning, []) && Shown(t, c, []) && Named(t)
            && !t.roundComplete && t.finish == None && t.terminal == s.terminal && t.started == s.started && t.usage == s.usage
            && t.webSearches == s.webSearches
  {
    hide Heard;
  }

  /** The calls the translator lists are the round's. */
  lemma CallsAreRoundCalls(s: Stream, c: Client, past: seq<Chunk>, now: seq<Chunk>, served: seq<Block>)
    requires Live(s, c, past, now, served) && s.serverNames != {}
    ensures SortedCalls(s) == RoundCalls(Fragments(now))
  {
    hide *;
    var keys := Sorted(s.tools.Keys);
    SortedMeans(s.tools.Keys);
    LiveFacts(s, c, past, now, served);
    TrackedCalls(s, c, TextOf(past + now), ReasoningOf(past + now), Fragments(now), keys);
    assert s.tools.Keys == Indices(Fragments(now)) by { assert forall k: nat :: k in s.tools.Keys <==> k in keys; }
    assert RoundCalls(Fragments(now)) == HeldCalls(Fragments(now), keys) by { RoundCallsAre(Fragments(now)); }
    SortedCallsAre(s);
  }

  lemma SortedCallsAre(s: Stream)
    ensures (forall k | k in Sorted(s.tools.Keys) :: k in s.tools) && SortedCalls(s) == CallsOf(s, Sorted(s.tools.Keys))
  {
    SortedMeans(s.tools.Keys);
    hide Sorted, CallsOf;
  }

  lemma RoundCallsAre(frags: seq<Fragment>)
    ensures RoundCalls(frags) == HeldCalls(frags, Sorted(Indices(frags)))
  {
    hide HeldCalls, Sorted, Indices;
  }

  /** With nothing shown yet every tracked index is a call under all that is known about it. */
  lemma TrackedCalls(s: Stream, c: Client, said: string, reasoning: string, frags: seq<Fragment>, keys: seq<nat>)
    requires Inv(s, c, said, reasoning, frags) && s.serverNames != {} && forall k :: k in keys <==> k in s.tools
    ensures forall k: nat :: k in keys <==> k in Indices(frags)
    ensures CallsOf(s, keys) == HeldCalls(frags, keys)
  {
    hide Sync, SaidTracks, LastId, LastName, EverServer, ArgsOf, Digits;
    forall k: nat ensures k in keys <==> k in Indices(frags) {
      assert k in s.tools <==> Mentioned(frags, k);
    }
    forall i | 0 <= i < |keys| ensures CallsOf(s, keys)[i] == HeldCall(frags, keys[i]) {
      assert keys[i] in s.tools;
      assert ToolTracks(s.tools[keys[i]], keys[i], s.serverNames, c, frags);
    }
  }
}
