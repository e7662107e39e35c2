/**
 The whole streamed response: upstream rounds read chunk by chunk, searches in between, errors at any point. Every
 run, whatever the upstream does, is one well-formed lifecycle that tells exactly what was received and searched.
 */
module Pump {
  import opened Prelude
  import opened Protocol
  import opened Upstream
  import opened Translator
  import opened Lifecycle
  import opened Finishing
  import opened Rounds
  import opened Replay
  import opened ToolBlocks
  import opened Served
  import opened Conversation
  import opened Steps
  import opened StreamStates
  import T = Translator
  import H = History

  // ---- the run itself ----

  ghost predicate GoodIds(w: World) {
    (forall i: nat :: w.freshId(i) != "") && forall i: nat, j: nat :: w.freshId(i) == w.freshId(j) ==> i == j
  }

  ghost predicate IssuedBelow(c: Client, w: World, n: nat) {
    forall id | id in H.Uses(ReplayAll(c.blocks)) :: exists i: nat :: i < n && id == w.freshId(i)
  }

  lemma NextIdsFresh(c: Client, w: World, n: nat, count: nat)
    requires GoodIds(w) && IssuedBelow(c, w, n)
    ensures FreshIds(IdsFrom(w, n, count), H.Uses(ReplayAll(c.blocks)))
  {
    var ids := IdsFrom(w, n, count);
    forall i | 0 <= i < count ensures ids[i] !in H.Uses(ReplayAll(c.blocks)) {
      assert forall j: nat | j < n :: w.freshId(j) != w.freshId(n + i);
    }
  }

  lemma IssuedGrows(c: Client, d: Client, w: World, n: nat, count: nat)
    requires IssuedBelow(c, w, n)
    requires H.Uses(ReplayAll(d.blocks)) == H.Uses(ReplayAll(c.blocks)) + SetOf(IdsFrom(w, n, count))
    ensures IssuedBelow(d, w, n + count)
  {
    var ids := IdsFrom(w, n, count);
    forall id | id in H.Uses(ReplayAll(d.blocks)) ensures exists i: nat :: i < n + count && id == w.freshId(i) {
      if id in SetOf(ids) {
        var i :| 0 <= i < count && ids[i] == id;
        assert id == w.freshId(n + i);
      } else {
        var i: nat :| i < n && id == w.freshId(i);
        assert i < n + count;
      }
    }
  }

  /** Every call that holds a query is searched while the budget lasts; each is given its own result. */
  method ExecuteWebSearchRound(calls: seq<ToolCall>, usesLeft: nat, round: nat, w: World)
      returns (outcomes: seq<string>, left: nat)
    ensures outcomes == Outcomes(calls, usesLeft, round, w) && left == usesLeft - Made(calls, usesLeft, w)
  {
    outcomes, left := [], usesLeft;
    assert calls[..0] == [];
    for i := 0 to |calls|
      invariant left == usesLeft - Min(Queries(calls[..i], w), usesLeft)
      invariant |outcomes| == i && forall j | 0 <= j < i :: outcomes[j] == Outcome(calls, j, usesLeft, round, w)
    {
      assert calls[..i + 1][..i] == calls[..i] && calls[..i + 1][i] == calls[i];
      if left == 0 {
        outcomes := outcomes + [w.exhausted];
      } else {
        match w.refusal(calls[i].arguments) {
          case Some(refusal) => outcomes := outcomes + [refusal];
          case None =>
            left := left - 1;
            outcomes := outcomes + [w.search(round, i)];
        }
      }
    }
    assert calls[..|calls|] == calls;
  }

  /** What a run has come to: earlier rounds' payloads, this round's, the searches shown, and the ids given out. */
  datatype Tale = Tale(past: seq<Chunk>, now: seq<Chunk>, served: seq<Block>, issued: nat)

  /** The state a run is in between two steps. */
  ghost predicate Running(state: StreamState, frames: seq<Frame>, w: World, t: Tale)
    reads state
  {
    Live(state.View(), Play(NEW_CLIENT, frames), t.past, t.now, t.served) && IssuedBelow(Play(NEW_CLIENT, frames), w, t.issued)
  }

  ghost predicate EndsBadly(state: StreamState, frames: seq<Frame>, t: Tale)
    reads state
  {
    var c := Play(NEW_CLIENT, frames);
    c.phase == Failed && Over(state.View(), c, t.past + t.now, t.served)
  }

  ghost predicate EndsWell(state: StreamState, frames: seq<Frame>, t: Tale, order: seq<nat>, stop: Option<string>)
    reads state
  {
    var c := Play(NEW_CLIENT, frames);
    && c.phase == Stopped && c.stop == stop && Over(state.View(), c, t.past + t.now, t.served)
    && Finale(state.View(), c, t.past + t.now, t.now, t.served, order)
  }

  /** The reply is over with this round's payloads: well if they all could be handled. */
  ghost predicate Ends(state: StreamState, frames: seq<Frame>, t: Tale, order: seq<nat>)
    reads state
  {
    if Sound(t.now) then EndsWell(state, frames, t, order, MapStopReason(FinishOf(t.now)))
    else EndsBadly(state, frames, t) && JustUnfit(t.now)
  }

  lemma RunningFacts(state: StreamState, frames: seq<Frame>, w: World, t: Tale)
    requires Running(state, frames, w, t)
    ensures state.finishReason == FinishOf(t.now) && (state.finishReason.Some? ==> state.started)
    ensures state.roundComplete == (Done in t.now) && Sound(t.now)
    ensures Done in t.now ==> state.serverToolNames != {} && FinishOf(t.now).Some?
  {
    hide Inv, Shown, Replayable, Named;
  }

  method Fail(state: StreamState, frames: seq<Frame>, message: string, ghost w: World, ghost t: Tale) returns (all: seq<Frame>)
    requires Running(state, frames, w, t)
    ensures EndsBadly(state, all, t)
  {
    hide Live, Over, Play;
    all := frames + [ErrorFrame(message)];
    AbortStep(state.View(), Play(NEW_CLIENT, frames), message, t.past, t.now, t.served);
    PlayConcat(NEW_CLIENT, frames, [ErrorFrame(message)]);
  }

  method Ping(state: StreamState, frames: seq<Frame>, ghost w: World, ghost t: Tale) returns (all: seq<Frame>)
    requires Running(state, frames, w, t)
    ensures Running(state, all, w, t)
  {
    all := frames + [Frame.Ping];
    var c := Play(NEW_CLIENT, frames);
    assert Sync(state.View(), c) by { LiveFacts(state.View(), c, t.past, t.now, t.served); }
    assert Receive(c, Frame.Ping) == c;
    PlayOne(NEW_CLIENT, frames, Frame.Ping);
    hide Live, Play;
  }

  /** One payload handed to the translator. */
  method Feed(state: StreamState, frames: seq<Frame>, chunk: Chunk, ghost w: World, ghost t: Tale)
      returns (all: seq<Frame>, ghost t': Tale, ghost order: seq<nat>)
    requires Running(state, frames, w, t)
    modifies state
    ensures t' == t.(now := t.now + [chunk])
    ensures state.terminal == (!Sound(t'.now) || (chunk == Done && state.serverToolNames == {}))
    ensures if state.terminal then Ends(state, all, t', order) else Running(state, all, w, t')
  {
    hide Live, Over, Finale, Play, Sound, Fine;
    ghost var was := state.View();
    ghost var c := Play(NEW_CLIENT, frames);
    var more;
    more, order := state.Handle(chunk);
    HandleStep(was, c, chunk, order, state.requestId, state.fallbackModel, t.past, t.now, t.served);
    all := frames + more;
    t' := t.(now := t.now + [chunk]);
    PlayConcat(NEW_CLIENT, frames, more);
    assert t'.now[..|t'.now| - 1] == t.now;
    assert Sound(t.now) by { NotesMean(was, t.past, t.now); LiveFacts(was, c, t.past, t.now, t.served); }
  }

  // ---- reading a round ----

  /** How far a batch is read: the payload at `fed` is still taken. */
  lemma TakenReaches(now: seq<Chunk>, chunks: seq<Chunk>, fed: nat, serverTools: bool)
    requires fed < |chunks| && (fed == 0 || Done !in now + chunks[..fed]) && (Done in now ==> serverTools)
    ensures chunks[..fed + 1] <= Taken(now, chunks, serverTools)
    ensures Done in now + chunks[..fed + 1] ==> Taken(now, chunks, serverTools) == chunks[..fed + 1]
  {
    if Done !in now {
      var part := chunks[..fed + 1];
      assert part == chunks[..fed] + [chunks[fed]] && chunks == part + chunks[fed + 1..];
      UpToDoneConcat(part, chunks[fed + 1..]);
      UpToDoneConcat(chunks[..fed], [chunks[fed]]);
      UpToDoneMeans(part);
      assert UpToDone([chunks[fed]]) == [chunks[fed]] by { assert [chunks[fed]][1..] == []; }
      assert UpToDone(part) == part;
    }
  }

  lemma TakenWhole(now: seq<Chunk>, chunks: seq<Chunk>, serverTools: bool)
    requires chunks == [] || Done !in now + chunks
    ensures Taken(now, chunks, serverTools) == chunks
  {
    UpToDoneMeans(chunks);
    assert forall x | x in chunks :: x in now + chunks;
  }

  /** The payloads of one network read, up to the first that ends the reply or the round. */
  method FeedBatch(state: StreamState, frames: seq<Frame>, chunks: seq<Chunk>, ghost w: World, ghost t: Tale)
      returns (all: seq<Frame>, terminal: bool, ghost t': Tale, ghost order: seq<nat>)
    requires Running(state, frames, w, t)
    modifies state
    ensures t' == t.(now := t'.now) && t.now <= t'.now <= t.now + Taken(t.now, chunks, state.serverToolNames != {})
    ensures !terminal ==> Running(state, all, w, t') && t'.now == t.now + Taken(t.now, chunks, state.serverToolNames != {})
    ensures terminal ==> Ends(state, all, t', order)
    ensures terminal && Sound(t'.now) ==>
              state.serverToolNames == {} && Done in t'.now && t'.now == t.now + Taken(t.now, chunks, false)
  {
    hide Running, Ends, Play, Taken, Sound;
    ghost var serverTools := state.serverToolNames != {};
    all, terminal, t', order := frames, false, t, [];
    var fed := 0;
    RunningFacts(state, frames, w, t);
    assert t.now + chunks[..0] == t.now;
    while fed < |chunks|
      invariant fed <= |chunks| && t' == t.(now := t.now + chunks[..fed])
      invariant Running(state, all, w, t') && (fed == 0 || Done !in t'.now)
    {
      TakenReaches(t.now, chunks, fed, serverTools);
      assert t.now + chunks[..fed + 1] == t.now + chunks[..fed] + [chunks[fed]];
      all, t', order := Feed(state, all, chunks[fed], w, t');
      fed := fed + 1;
      if state.terminal {
        assert Sound(t'.now) ==> t'.now[|t'.now| - 1] == Done;
        terminal := true;
        return;
      }
      RunningFacts(state, all, w, t');
      if state.roundComplete {
        return;
      }
    }
    assert chunks[..|chunks|] == chunks;
    TakenWhole(t.now, chunks, serverTools);
  }

  lemma {:induction false} TakenStops(batches: seq<Batch>, i: nat)
    requires i <= |batches| && Done in TakenOf(batches[..i], false)
    ensures TakenOf(batches, false) == TakenOf(batches[..i], false)
    decreases |batches|
  {
    if i < |batches| {
      var n := |batches| - 1;
      assert batches[..n][..i] == batches[..i];
      TakenStops(batches[..n], i);
      var before := TakenOf(batches[..n], false);
      assert batches[n].Events? ==> Taken(before, batches[n].chunks, false) == [];
      hide Taken;
      assert before + [] == before;
    } else {
      assert batches[..i] == batches;
    }
  }

  lemma {:induction false} TakenPrefix(batches: seq<Batch>, i: nat, serverTools: bool)
    requires i <= |batches|
    ensures TakenOf(batches[..i], serverTools) <= TakenOf(batches, serverTools)
    decreases |batches|
  {
    if i < |batches| {
      var n := |batches| - 1;
      assert batches[..n][..i] == batches[..i];
      TakenPrefix(batches[..n], i, serverTools);
    } else {
      assert batches[..i] == batches;
    }
  }

  lemma TakenOneMore(batches: seq<Batch>, i: nat, serverTools: bool)
    requires i < |batches|
    ensures var before := TakenOf(batches[..i], serverTools);
            TakenOf(batches[..i + 1], serverTools)
            == if batches[i].Events? then before + Taken(before, batches[i].chunks, serverTools) else before
  {
    assert batches[..i + 1][..i] == batches[..i];
    hide Taken;
    var before := TakenOf(batches[..i], serverTools);
    assert before + [] == before;
  }

  /** A reply that ends within a batch has read a first part of what the batches bring; all of it if it ends with a `[DONE]`. */
  lemma EndedWithin(batches: seq<Batch>, i: nat, serverTools: bool, now: seq<Chunk>)
    requires i < |batches| && batches[i].Events?
    requires now <= TakenOf(batches[..i], serverTools) + Taken(TakenOf(batches[..i], serverTools), batches[i].chunks, serverTools)
    ensures now <= TakenOf(batches, serverTools)
    ensures !serverTools && Done in now
            && now == TakenOf(batches[..i], false) + Taken(TakenOf(batches[..i], false), batches[i].chunks, false) ==>
              now == TakenOf(batches, false)
  {
    hide Taken, TakenOf;
    TakenOneMore(batches, i, serverTools);
    TakenPrefix(batches, i + 1, serverTools);
    if !serverTools && Done in now && now == TakenOf(batches[..i + 1], false) {
      TakenStops(batches, i + 1);
    }
  }

  method ReadBatches(state: StreamState, frames: seq<Frame>, batches: seq<Batch>, ghost w: World, ghost t: Tale)
      returns (all: seq<Frame>, terminal: bool, ghost t': Tale, ghost order: seq<nat>)
    requires Running(state, frames, w, t) && t.now == []
    modifies state
    ensures t' == t.(now := t'.now) && t'.now <= TakenOf(batches, state.serverToolNames != {})
    ensures !terminal ==> Running(state, all, w, t') && t'.now == TakenOf(batches, state.serverToolNames != {})
    ensures terminal ==> Ends(state, all, t', order)
    ensures terminal && Sound(t'.now) ==>
              state.serverToolNames == {} && Done in t'.now && t'.now == TakenOf(batches, false)
  {
    assert batches[..0] == [] && TakenOf([], state.serverToolNames != {}) == [] && batches[..|batches|] == batches;
    hide Running, Ends, Play, Taken, TakenOf, Sound;
    ghost var serverTools := state.serverToolNames != {};
    all, terminal, t', order := frames, false, t, [];
    for i := 0 to |batches|
      invariant Running(state, all, w, t')
      invariant t' == t.(now := TakenOf(batches[..i], serverTools))
    {
      TakenOneMore(batches, i, serverTools);
      if batches[i].PingDue? {
        all := Ping(state, all, w, t');
      } else {
        all, terminal, t', order := FeedBatch(state, all, batches[i].chunks, w, t');
        if terminal {
          EndedWithin(batches, i, serverTools, t'.now);
          return;
        }
      }
    }
  }

  lemma RoundReading(r: Round, serverTools: bool)
    ensures TakenOf(r.batches, serverTools) <= WholeRound(r, serverTools)
    ensures r.end == Eof(None) || r.end.Broken? ==> WholeRound(r, serverTools) == TakenOf(r.batches, serverTools)
    ensures Done in TakenOf(r.batches, serverTools) && !serverTools ==> WholeRound(r, serverTools) == TakenOf(r.batches, serverTools)
    ensures r.end.Eof? && r.end.trailing.Some? && (serverTools || Done !in TakenOf(r.batches, serverTools)) ==>
              WholeRound(r, serverTools) == TakenOf(r.batches, serverTools) + [r.end.trailing.value]
  {
    assert TakenOf(r.batches, serverTools) + [] == TakenOf(r.batches, serverTools);
    hide TakenOf;
  }

  /** A round whose payloads, as far as they are read, cannot all be handled is not fine. */
  lemma UnsoundIsNotFine(now: seq<Chunk>, r: Round, serverTools: bool)
    requires now <= WholeRound(r, serverTools) && !Sound(now)
    ensures !RoundFine(r, serverTools)
  {
    if Sound(WholeRound(r, serverTools)) {
      SoundPrefix(now, WholeRound(r, serverTools));
    }
  }

  /** A `[DONE]` that can be handled comes after a finish reason. */
  lemma DoneIsFinished(now: seq<Chunk>)
    requires Sound(now) && Done in now
    ensures FinishOf(now).Some?
  {
    var i :| 0 <= i < |now| && now[i] == Done;
    assert Fine(now[..i], now[i]);
    FinishStays(now, i);
  }

  lemma {:induction false} FinishStays(now: seq<Chunk>, i: nat)
    requires i <= |now| && FinishOf(now[..i]).Some?
    ensures FinishOf(now).Some?
    decreases |now|
  {
    if i < |now| {
      assert now[..|now| - 1][..i] == now[..i];
      FinishStays(now[..|now| - 1], i);
    } else {
      assert now[..i] == now;
    }
  }

  /** All of the round, or up to the first payload that cannot be handled where it stands. */
  predicate ReadAsFar(now: seq<Chunk>, whole: seq<Chunk>) {
    now == whole || (now <= whole && JustUnfit(now))
  }

  lemma ReadAsFarMeans(now: seq<Chunk>, whole: seq<Chunk>)
    ensures ReadAsFar(now, whole) <==> now == whole || (now <= whole && JustUnfit(now))
  {
  }

  /** Reads one upstream round to its end. `ended` says the reply is over already. */
  method ReadRound(state: StreamState, frames: seq<Frame>, r: Round, ghost w: World, ghost t: Tale)
      returns (all: seq<Frame>, ended: bool, ghost t': Tale, ghost order: seq<nat>)
    requires Running(state, frames, w, t) && t.now == []
    modifies state
    ensures var serverTools := state.serverToolNames != {};
            && t' == t.(now := t'.now) && t'.now <= WholeRound(r, serverTools)
            && (!ended ==> Running(state, all, w, t') && t'.now == WholeRound(r, serverTools)
                           && (RoundFine(r, serverTools) <==> FinishOf(t'.now).Some?))
            && (ended && !RoundFine(r, serverTools) ==> EndsBadly(state, all, t') && ReadAsFar(t'.now, WholeRound(r, serverTools)))
            && (ended && RoundFine(r, serverTools) ==>
                  !serverTools && t'.now == WholeRound(r, false)
                  && EndsWell(state, all, t', order, MapStopReason(FinishOf(t'.now))))
  {
    hide *;
    ghost var serverTools := state.serverToolNames != {};
    RoundReading(r, serverTools);
    RoundFineMeans(r, serverTools);
    all, ended, t', order := ReadBatches(state, frames, r.batches, w, t);
    if ended {
      EndedFine(r, serverTools, t'.now);
      EndsMean(state, all, t', order);
      ReadAsFarMeans(t'.now, WholeRound(r, serverTools));
      return;
    }
    RunningFacts(state, all, w, t');
    match r.end {
      case Broken(message) =>
        all := Fail(state, all, message, w, t');
        ended := true;
        ReadAsFarMeans(t'.now, WholeRound(r, serverTools));
      case Eof(None) =>
      case Eof(Some(chunk)) =>
        all, t', order := Feed(state, all, chunk, w, t');
        ended := state.terminal;
        if ended {
          TrailingDone(t'.now, chunk);
          EndedFine(r, serverTools, t'.now);
          EndsMean(state, all, t', order);
          ReadAsFarMeans(t'.now, WholeRound(r, serverTools));
        } else {
          RunningFacts(state, all, w, t');
        }
    }
  }

  lemma EndsMean(state: StreamState, frames: seq<Frame>, t: Tale, order: seq<nat>)
    ensures Ends(state, frames, t, order) <==>
              if Sound(t.now) then EndsWell(state, frames, t, order, MapStopReason(FinishOf(t.now)))
              else EndsBadly(state, frames, t) && JustUnfit(t.now)
  {
  }

  lemma RoundFineMeans(r: Round, serverTools: bool)
    ensures RoundFine(r, serverTools) <==>
              && Sound(WholeRound(r, serverTools)) && FinishOf(WholeRound(r, serverTools)).Some?
              && (r.end.Eof? || (!serverTools && Done in TakenOf(r.batches, serverTools)))
  {
  }

  lemma TrailingDone(now: seq<Chunk>, chunk: Chunk)
    requires now != [] && now[|now| - 1] == chunk
    ensures chunk == Done ==> Done in now
  {
  }

  lemma EndedFine(r: Round, serverTools: bool, now: seq<Chunk>)
    requires now <= WholeRound(r, serverTools)
    requires Sound(now) ==> !serverTools && Done in now && now == WholeRound(r, false)
    requires Sound(now) ==> r.end.Eof? || Done in TakenOf(r.batches, false)
    ensures RoundFine(r, serverTools) <==> Sound(now)
  {
    hide TakenOf, WholeRound, Sound, FinishOf;
    if Sound(now) {
      DoneIsFinished(now);
    } else {
      UnsoundIsNotFine(now, r, serverTools);
    }
  }

  // ---- ending and going on ----

  /** The reply completes: tools that waited are shown, then the closing frames. */
  method Complete(state: StreamState, frames: seq<Frame>, ghost w: World, ghost t: Tale) returns (all: seq<Frame>, ghost order: seq<nat>)
    requires Running(state, frames, w, t) && state.started
    modifies state
    ensures EndsWell(state, all, t, order, MapStopReason(FinishOf(t.now)))
  {
    hide Live, Over, Finale, Play;
    ghost var was := state.View();
    ghost var c := Play(NEW_CLIENT, frames);
    var more;
    more, order := state.Finalize();
    FinalizeStep(was, c, order, t.past, t.now, t.served);
    all := frames + more;
    PlayConcat(NEW_CLIENT, frames, more);
  }

  method Pause(state: StreamState, frames: seq<Frame>, ghost w: World, ghost t: Tale) returns (all: seq<Frame>)
    requires Running(state, frames, w, t) && state.started && state.serverToolNames != {}
    requires HeldOrder(Fragments(t.now), state.serverToolNames, [])
    modifies state
    ensures EndsWell(state, all, t, [], Some("pause_turn"))
  {
    hide Live, Over, Finale, Play, HeldOrder;
    ghost var was := state.View();
    ghost var c := Play(NEW_CLIENT, frames);
    var more := state.FinalizeAsPaused();
    PauseStep(was, c, t.past, t.now, t.served);
    all := frames + more;
    PlayConcat(NEW_CLIENT, frames, more);
  }

  /** The searches of one round, announced and answered. */
  method ServerRound(state: StreamState, frames: seq<Frame>, calls: seq<ToolCall>, outcomes: seq<string>, w: World, issued: nat,
                     ghost t: Tale) returns (all: seq<Frame>, ghost t': Tale)
    requires Running(state, frames, w, t) && state.started && GoodIds(w) && |calls| == |outcomes| && issued == t.issued
    modifies state
    ensures var ids := IdsFrom(w, issued, |calls|);
            t' == t.(served := t.served + RoundBlocks(ids, InputsOf(calls, w), outcomes), issued := issued + |calls|)
    ensures Running(state, all, w, t') && state.started
  {
    hide Live, Play, IssuedBelow, GoodIds, FreshIds, T.EmitServerToolUse, T.FinishServerToolRound;
    ghost var was := state.View();
    ghost var c := Play(NEW_CLIENT, frames);
    var ids := IdsFrom(w, issued, |calls|);
    var inputs := InputsOf(calls, w);
    NextIdsFresh(c, w, issued, |calls|);
    var uses := state.EmitServerToolUse(ids, inputs);
    var results := state.FinishServerToolRound(outcomes);
    ServerRoundStep(was, c, ids, inputs, outcomes, t.past, t.now, t.served);
    all := frames + (uses + results);
    PlayConcat(NEW_CLIENT, frames, uses + results);
    IssuedGrows(c, Play(NEW_CLIENT, all), w, issued, |calls|);
    t' := t.(served := t.served + RoundBlocks(ids, inputs, outcomes), issued := issued + |calls|);
  }

  method NextRound(state: StreamState, frames: seq<Frame>, ghost w: World, ghost t: Tale) returns (ghost t': Tale)
    requires Running(state, frames, w, t) && state.serverToolNames != {}
    modifies state
    ensures t' == t.(past := t.past + t.now, now := []) && Running(state, frames, w, t')
  {
    NewRoundStep(state.View(), Play(NEW_CLIENT, frames), t.past, t.now, t.served);
    hide Live, Play;
    state.BeginNewRound();
    t' := t.(past := t.past + t.now, now := []);
  }

  /** Where a run stands after `n` rounds of searches. */
  ghost predicate ServedTo(t: Tale, w: World, maxUses: nat, n: nat) {
    t.served == ServedIn(w, maxUses, n) && t.issued == Issued(w, n)
  }

  method ListCalls(state: StreamState, frames: seq<Frame>, w: World, ghost t: Tale, ghost r: nat) returns (calls: seq<ToolCall>)
    requires Running(state, frames, w, t) && state.serverToolNames != {} && t.now == WholeRound(w.round(r), true)
    ensures calls == CallsIn(w, r)
  {
    calls := state.OpenAiToolCalls();
    CallsAreRoundCalls(state.View(), Play(NEW_CLIENT, frames), t.past, t.now, t.served);
    hide Live, Play;
  }

  lemma NoSearches(w: World, maxUses: nat, r: nat)
    requires r > 0 && SearchesIn(w, r) == []
    ensures ServedIn(w, maxUses, r) == ServedIn(w, maxUses, r - 1) && Issued(w, r) == Issued(w, r - 1)
    ensures SearchesMade(w, maxUses, r) == SearchesMade(w, maxUses, r - 1)
    ensures !AsksOn(w, maxUses, r) && !Pauses(w, maxUses, r)
  {
    hide Outcomes, CallsIn;
    var before := ServedIn(w, maxUses, r - 1);
    assert before + [] == before;
  }

  /** What the round's searches come to. */
  lemma OneMoreRound(w: World, maxUses: nat, r: nat)
    requires r > 0
    ensures var calls := SearchesIn(w, r); var before := SearchesBefore(w, maxUses, r); var budget := Budget(w, r, maxUses - before);
            var ids := IdsFrom(w, Issued(w, r - 1), |calls|);
            && before == SearchesMade(w, maxUses, r - 1) && SearchesMade(w, maxUses, r) == before + Made(calls, budget, w)
            && Issued(w, r) == Issued(w, r - 1) + |calls|
            && OutcomesIn(w, maxUses, r) == Outcomes(calls, budget, r, w)
            && ServedIn(w, maxUses, r) == ServedIn(w, maxUses, r - 1) + RoundBlocks(ids, InputsOf(calls, w), Outcomes(calls, budget, r, w))
            && (Mixed(w, r) || r < MAX_INTERNAL_GENERATION_ROUNDS ==> budget == maxUses - before)
            && (!Mixed(w, r) && r >= MAX_INTERNAL_GENERATION_ROUNDS ==> budget == 0)
  {
    hide Outcomes, CallsIn, SearchesIn, Mixed;
  }

  lemma NoneMade(calls: seq<ToolCall>, r: nat, w: World)
    ensures Made(calls, 0, w) == 0 && Outcomes(calls, 0, r, w) == seq(|calls|, i => w.exhausted)
  {
  }

  /** The round has been read, and the searches of the rounds before it have been served. */
  ghost predicate TurnStarts(w: World, maxUses: nat, r: nat, t: Tale, used: nat, issued: nat) {
    && 0 < r <= MAX_INTERNAL_GENERATION_ROUNDS && t.now == WholeRound(w.round(r), true)
    && ServedTo(t, w, maxUses, r - 1) && used == SearchesBefore(w, maxUses, r) && issued == t.issued
  }

  /** Its searches have been served too. */
  ghost predicate TurnServes(w: World, maxUses: nat, r: nat, t: Tale, used: nat, issued: nat) {
    ServedTo(t, w, maxUses, r) && used == SearchesMade(w, maxUses, r) && issued == t.issued
  }

  ghost predicate TurnEnds(state: StreamState, frames: seq<Frame>, w: World, maxUses: nat, r: nat, t: Tale, order: seq<nat>)
    reads state
  {
    if AsksOn(w, maxUses, r) then EndsBadly(state, frames, t) && w.resume(r).Refused?
    else EndsWell(state, frames, t, order, StopAfter(w, maxUses, r, true))
  }

  /** What the round's calls come to: nothing to search, a mixed round, one out of budget, or one more round to ask for. */
  lemma TurnCases(w: World, maxUses: nat, r: nat, t: Tale, used: nat, issued: nat)
    requires TurnStarts(w, maxUses, r, t, used, issued)
    ensures used <= maxUses && (AsksOn(w, maxUses, r) ==> r < MAX_INTERNAL_GENERATION_ROUNDS)
    ensures GoesOn(w, maxUses, r) <==> AsksOn(w, maxUses, r) && w.resume(r).Resumed?
    ensures var calls := CallsIn(w, r); var serverCalls := ServerCalls(calls);
            var exhausted := used == maxUses || r >= MAX_INTERNAL_GENERATION_ROUNDS;
            if serverCalls == [] || serverCalls != calls then
              !AsksOn(w, maxUses, r) && StopAfter(w, maxUses, r, true) == MapStopReason(FinishOf(t.now))
            else
              && OnlySearches(w, r) && AsksOn(w, maxUses, r) == !exhausted
              && (exhausted ==> StopAfter(w, maxUses, r, true) == Some("pause_turn"))
  {
    hide CallsIn, ServerCalls, SearchesMade, SearchesBefore, WholeRound;
  }

  /** The round's searches served with these results. */
  lemma TurnAnswered(w: World, maxUses: nat, r: nat, t: Tale, used: nat, issued: nat, budget: nat, u: Tale)
    requires TurnStarts(w, maxUses, r, t, used, issued)
    requires var calls := ServerCalls(CallsIn(w, r));
             && budget == (if calls == CallsIn(w, r) && (used == maxUses || r >= MAX_INTERNAL_GENERATION_ROUNDS) then 0 else maxUses - used)
             && u.served == t.served + RoundBlocks(IdsFrom(w, issued, |calls|), InputsOf(calls, w), Outcomes(calls, budget, r, w))
             && u.issued == issued + |calls|
    ensures var calls := ServerCalls(CallsIn(w, r));
            TurnServes(w, maxUses, r, u, used + Made(calls, budget, w), issued + |calls|)
  {
    hide *;
    var calls := ServerCalls(CallsIn(w, r));
    TurnFacts(w, maxUses, r, t, used, issued);
    OneMoreRound(w, maxUses, r);
    assert calls == SearchesIn(w, r) && (Mixed(w, r) <==> calls != CallsIn(w, r)) by { CallsOfTurn(w, r); }
    TurnServesWhen(w, maxUses, r, u, used + Made(calls, budget, w), issued + |calls|);
  }

  lemma CallsOfTurn(w: World, r: nat)
    ensures SearchesIn(w, r) == ServerCalls(CallsIn(w, r)) && (Mixed(w, r) <==> SearchesIn(w, r) != CallsIn(w, r))
  {
    hide CallsIn, ServerCalls;
  }

  lemma TurnFacts(w: World, maxUses: nat, r: nat, t: Tale, used: nat, issued: nat)
    requires TurnStarts(w, maxUses, r, t, used, issued)
    ensures 0 < r && t.served == ServedIn(w, maxUses, r - 1) && t.issued == Issued(w, r - 1)
    ensures used == SearchesBefore(w, maxUses, r) && issued == t.issued && used <= maxUses
  {
    hide ServedIn, Issued, WholeRound;
  }

  lemma TurnServesWhen(w: World, maxUses: nat, r: nat, t: Tale, used: nat, issued: nat)
    requires t.served == ServedIn(w, maxUses, r) && t.issued == Issued(w, r) && used == SearchesMade(w, maxUses, r) && issued == t.issued
    ensures TurnServes(w, maxUses, r, t, used, issued)
  {
    hide ServedIn, Issued, SearchesMade;
  }

  lemma TurnUnserved(w: World, maxUses: nat, r: nat, t: Tale, used: nat, issued: nat)
    requires TurnStarts(w, maxUses, r, t, used, issued) && ServerCalls(CallsIn(w, r)) == []
    ensures TurnServes(w, maxUses, r, t, used, issued)
  {
    NoSearches(w, maxUses, r);
    hide ServedIn, Issued, CallsIn, ServerCalls, SearchesMade, WholeRound;
  }

  lemma TurnElse(w: World, maxUses: nat, r: nat, t: Tale, u: Tale, used: nat, issued: nat)
    requires TurnServes(w, maxUses, r, t, used, issued) && u.served == t.served && u.issued == t.issued
    ensures TurnServes(w, maxUses, r, u, used, issued)
  {
    hide ServedIn, Issued, SearchesMade;
  }

  lemma TurnEndsWell(state: StreamState, frames: seq<Frame>, w: World, maxUses: nat, r: nat, t: Tale, order: seq<nat>)
    requires !AsksOn(w, maxUses, r) && EndsWell(state, frames, t, order, StopAfter(w, maxUses, r, true))
    ensures TurnEnds(state, frames, w, maxUses, r, t, order)
  {
  }

  lemma TurnEndsBadly(state: StreamState, frames: seq<Frame>, w: World, maxUses: nat, r: nat, t: Tale, order: seq<nat>)
    requires AsksOn(w, maxUses, r) && EndsBadly(state, frames, t) && w.resume(r).Refused?
    ensures TurnEnds(state, frames, w, maxUses, r, t, order)
  {
  }

  lemma TurnRound(w: World, maxUses: nat, r: nat, t: Tale, used: nat, issued: nat)
    requires TurnStarts(w, maxUses, r, t, used, issued)
    ensures 0 < r && t.now == WholeRound(w.round(r), true) && issued == t.issued
  {
  }

  /** The results of a round's searches, made as far as the budget goes. */
  method AnswerRound(calls: seq<ToolCall>, exhausted: bool, left: nat, round: nat, w: World) returns (outcomes: seq<string>, made: nat)
    ensures var budget := if exhausted then 0 else left;
            outcomes == Outcomes(calls, budget, round, w) && made == Made(calls, budget, w)
  {
    if exhausted {
      NoneMade(calls, round, w);
      outcomes, made := seq(|calls|, i => w.exhausted), 0;
    } else {
      var rest;
      outcomes, rest := ExecuteWebSearchRound(calls, left, round, w);
      made := left - rest;
    }
  }

  /** After a round with server tools offered: its searches are answered, and the reply ends or goes on. */
  method ServerTurn(state: StreamState, frames: seq<Frame>, w: World, rounds: nat, maxUses: nat, used: nat, issuedBefore: nat,
                    ghost t: Tale)
      returns (all: seq<Frame>, over: bool, searches: nat, issued: nat, ghost t': Tale, ghost order: seq<nat>)
    requires Running(state, frames, w, t) && state.started && state.serverToolNames == {FUNCTION_NAME}
    requires GoodIds(w) && TurnStarts(w, maxUses, rounds, t, used, issuedBefore)
    modifies state
    ensures TurnServes(w, maxUses, rounds, t', searches, issued)
    ensures if over then t'.past == t.past && t'.now == t.now && TurnEnds(state, all, w, maxUses, rounds, t', order)
            else Running(state, all, w, t') && GoesOn(w, maxUses, rounds) && rounds < MAX_INTERNAL_GENERATION_ROUNDS
                 && t'.past == t.past + t.now && t'.now == []
  {
    hide *;
    TurnRound(w, maxUses, rounds, t, used, issuedBefore);
    TurnCases(w, maxUses, rounds, t, used, issuedBefore);
    all, over, searches, issued, t', order := frames, true, used, issuedBefore, t, [];
    var calls := ListCalls(state, frames, w, t, rounds);
    var serverCalls := ServerCalls(calls);
    if serverCalls == [] {
      TurnUnserved(w, maxUses, rounds, t, used, issuedBefore);
      all, order := Complete(state, all, w, t');
      TurnEndsWell(state, all, w, maxUses, rounds, t', order);
      return;
    }
    var mixed := serverCalls != calls;
    var exhausted := !mixed && (searches == maxUses || rounds >= MAX_INTERNAL_GENERATION_ROUNDS);
    var outcomes, made := AnswerRound(serverCalls, exhausted, maxUses - used, rounds, w);
    searches := searches + made;
    all, t' := ServerRound(state, all, serverCalls, outcomes, w, issued, t');
    issued := issued + |serverCalls|;
    TurnAnswered(w, maxUses, rounds, t, used, issuedBefore, if exhausted then 0 else maxUses - used, t');
    if mixed {
      all, order := Complete(state, all, w, t');
      TurnEndsWell(state, all, w, maxUses, rounds, t', order);
      return;
    }
    if exhausted {
      NothingHeld(state, all, w, t', rounds);
      all := Pause(state, all, w, t');
      TurnEndsWell(state, all, w, maxUses, rounds, t', order);
      return;
    }
    var resumed := w.resume(rounds);
    if resumed.Refused? {
      all := Fail(state, all, resumed.message, w, t');
      TurnEndsBadly(state, all, w, maxUses, rounds, t', order);
      return;
    }
    ghost var answered := t';
    t' := NextRound(state, all, w, t');
    TurnElse(w, maxUses, rounds, answered, t', searches, issued);
    over := false;
  }

  lemma NothingHeld(state: StreamState, frames: seq<Frame>, w: World, t: Tale, r: nat)
    requires Running(state, frames, w, t) && state.serverToolNames == {FUNCTION_NAME} && OnlySearches(w, r)
    requires t.now == WholeRound(w.round(r), true)
    ensures HeldOrder(Fragments(t.now), state.serverToolNames, [])
  {
    var s, c := state.View(), Play(NEW_CLIENT, frames);
    hide Live, IssuedBelow, OnlySearches, WholeRound, HeldOrder, Play;
    LiveHolds(s, c, t.past, t.now, t.served, w, r);
  }

  lemma LiveHolds(s: Stream, c: Client, past: seq<Chunk>, now: seq<Chunk>, served: seq<Block>, w: World, r: nat)
    requires Live(s, c, past, now, served) && s.serverNames == {FUNCTION_NAME} && OnlySearches(w, r)
    requires now == WholeRound(w.round(r), true)
    ensures HeldOrder(Fragments(now), s.serverNames, [])
  {
    hide *;
    var order := SomeOrder(PendingTools(s));
    LiveFacts(s, c, past, now, served);
    InvFacts(s, c, TextOf(past + now), ReasoningOf(past + now), Fragments(now));
    OrderPends(s, order);
    PendingIsHeld(s, c, Fragments(now), order);
    OnlySearchesHoldNone(w, r, order);
  }

  lemma InvFacts(s: Stream, c: Client, said: string, reasoning: string, frags: seq<Fragment>)
    requires Inv(s, c, said, reasoning, frags)
    ensures ToolsTrack(s, c, frags) && Buffered(s)
  {
    hide ToolsTrack, Buffered, Sync, SaidTracks;
  }

  lemma OrderPends(s: Stream, order: seq<nat>)
    requires Distinct(order) && (forall k | k in order :: k in PendingTools(s)) && (forall k | k in PendingTools(s) :: k in order)
    ensures PendingOrder(s, order)
  {
    hide PendingTools, Distinct;
  }

  // ---- whole runs ----

  /** The client holds exactly the text and the permitted reasoning of `seen`, and the searches `served`, and can send it back. */
  ghost predicate Tells(c: Client, expose: bool, seen: seq<Chunk>, served: seq<Block>) {
    && Said(c.blocks, TextHead) == TextOf(seen)
    && Said(c.blocks, ThinkingHead) == (if expose then ReasoningOf(seen) else "")
    && ServerBlocks(c.blocks) == served
    && H.ConvertAssistant(ReplayAll(c.blocks)).Ok?
  }

  /** The round is handled to its end, and the reply goes on after it. */
  ghost predicate Continues(w: World, maxUses: nat, r: nat) {
    RoundFine(w.round(r), true) && GoesOn(w, maxUses, r)
  }

  /** The reply succeeds with the round. */
  ghost predicate Succeeds(w: World, maxUses: nat, r: nat, serverTools: bool) {
    RoundFine(w.round(r), serverTools) && !(serverTools && AsksOn(w, maxUses, r))
  }

  /** The finished message: every block closed, the client's calls of round `r`, the stop reason and the totals. */
  ghost predicate Concludes(c: Client, w: World, maxUses: nat, r: nat, serverTools: bool, seen: seq<Chunk>, order: seq<nat>) {
    var frags := Fragments(WholeRound(w.round(r), serverTools));
    && AllClosed(c.blocks) && HeldOrder(frags, ServerNames(serverTools), order)
    && ClientTools(c.blocks) == FinalCalls(frags, ServerNames(serverTools), order)
    && StopsWith(c.stop, w, maxUses, r, serverTools)
    && UsageSays(UsageOf(seen).GetOr(NO_USAGE), ResultCount(ServerBlocks(c.blocks)), c.usage)
  }

  /** A reply out of budget for searches is paused; any other tells what the last round's finish reason stands for. */
  ghost predicate StopsWith(stop: Option<string>, w: World, maxUses: nat, r: nat, serverTools: bool) {
    var finish := FinishOf(WholeRound(w.round(r), serverTools));
    if serverTools && Pauses(w, maxUses, r) then stop == Some("pause_turn") else finish.Some? && StopSays(finish.value, stop)
  }

  /**
   The streamed response for any upstream, any search results and any failures. Whatever happens, the frames form one
   lifecycle, and the client holds exactly the text and permitted reasoning received and exactly the searches asked
   for in the rounds that could be handled, each once with the result made for it, in order. The reply goes on for
   another round exactly while nothing but searches was asked for and the budget allows, for at most eight rounds and
   `maxUses` searches; it succeeds exactly when every round could be handled and no continuation was refused. A reply
   that succeeds shows the calls of its last round, its stop reason, the last usage and the number of searches, and can
   be sent back as history.
   */
  method StreamBody(w: World, serverTools: bool, maxUses: nat, expose: bool, requestId: string, model: string)
      returns (frames: seq<Frame>, rounds: nat, searches: nat, shadow: string,
               ghost seen: seq<Chunk>, ghost answered: nat, ghost order: seq<nat>)
    requires GoodIds(w)
    ensures OneLifecycle(frames)
    ensures 1 <= rounds <= MAX_INTERNAL_GENERATION_ROUNDS
    ensures answered == if RoundFine(w.round(rounds), serverTools) then rounds else rounds - 1
    ensures (rounds > 1 ==> serverTools) && forall r | 1 <= r < rounds :: Continues(w, maxUses, r)
    ensures var before, whole := WholeRounds(w, rounds - 1, serverTools), WholeRound(w.round(rounds), serverTools);
            before <= seen && ReadAsFar(seen[|before|..], whole)
    ensures searches == (if serverTools then SearchesMade(w, maxUses, answered) else 0) <= maxUses
    ensures Tells(Play(NEW_CLIENT, frames), expose, seen, if serverTools then ServedIn(w, maxUses, answered) else [])
    ensures shadow == if expose then "" else ReasoningOf(seen)
    ensures Play(NEW_CLIENT, frames).phase == if Succeeds(w, maxUses, rounds, serverTools) then Stopped else Failed
    ensures Succeeds(w, maxUses, rounds, serverTools) ==>
              && seen == WholeRounds(w, rounds, serverTools)
              && Concludes(Play(NEW_CLIENT, frames), w, maxUses, rounds, serverTools, seen, order)
    ensures !Succeeds(w, maxUses, rounds, serverTools) && RoundFine(w.round(rounds), serverTools) ==> w.resume(rounds).Refused?
  {
    hide *;
    var names := ServerNames(serverTools);
    var state := new StreamState(requestId, model, expose, names);
    ghost var t;
    NamesMean(serverTools);
    ghost var issued;
    frames, rounds, searches, t, answered, issued, order := RunRounds(state, w, serverTools, maxUses);
    OverAtMeans(state, frames, w, maxUses, rounds, serverTools, t, answered, searches, issued, order);
    seen := t.past + t.now;
    shadow := state.shadowReasoning;
    NextWhole(w, rounds, serverTools);
    RoundsEndMean(state, frames, w, maxUses, rounds, serverTools, t, order);
    assert seen[|t.past|..] == t.now;
    ReadAsFarMeans(t.now, WholeRound(w.round(rounds), serverTools));
    ServedMeans(w, maxUses, answered, serverTools, t, searches, issued);
    EndMeans(state, frames, t, order, StopAfter(w, maxUses, rounds, serverTools), Succeeds(w, maxUses, rounds, serverTools));
    RoundMeans(w, maxUses, rounds, serverTools);
    if Succeeds(w, maxUses, rounds, serverTools) {
      ConcludesWhen(Play(NEW_CLIENT, frames), w, maxUses, rounds, serverTools, seen, order);
    }
  }

  lemma RoundsEndMean(state: StreamState, frames: seq<Frame>, w: World, maxUses: nat, r: nat, serverTools: bool, t: Tale, order: seq<nat>)
    requires RoundsEnd(state, frames, w, maxUses, r, serverTools, t, order)
    ensures if Succeeds(w, maxUses, r, serverTools) then
              t.now == WholeRound(w.round(r), serverTools) && EndsWell(state, frames, t, order, StopAfter(w, maxUses, r, serverTools))
            else EndsBadly(state, frames, t) && ReadAsFar(t.now, WholeRound(w.round(r), serverTools))
                 && (RoundFine(w.round(r), serverTools) ==> w.resume(r).Refused?)
  {
  }

  /** How the rounds end: well exactly when the reply succeeds. */
  ghost predicate RoundsEnd(state: StreamState, frames: seq<Frame>, w: World, maxUses: nat, r: nat, serverTools: bool, t: Tale, order: seq<nat>)
    reads state
  {
    if Succeeds(w, maxUses, r, serverTools) then
      t.now == WholeRound(w.round(r), serverTools) && EndsWell(state, frames, t, order, StopAfter(w, maxUses, r, serverTools))
    else EndsBadly(state, frames, t) && ReadAsFar(t.now, WholeRound(w.round(r), serverTools))
         && (RoundFine(w.round(r), serverTools) ==> w.resume(r).Refused?)
  }

  /** What is served after `n` rounds; nothing to requests without server tools. */
  ghost predicate ServesAll(w: World, maxUses: nat, n: nat, serverTools: bool, t: Tale, searches: nat, issued: nat) {
    if serverTools then TurnServes(w, maxUses, n, t, searches, issued) else searches == 0 && t.served == []
  }

  /** The reply is over with round `r`; the searches of `answered` rounds, of every round that was fine, have been served. */
  ghost predicate OverAt(state: StreamState, frames: seq<Frame>, w: World, maxUses: nat, r: nat, serverTools: bool,
                         t: Tale, answered: nat, searches: nat, issued: nat, order: seq<nat>)
    reads state
  {
    && t.now <= WholeRound(w.round(r), serverTools) && answered + (if RoundFine(w.round(r), serverTools) then 0 else 1) == r
    && ServesAll(w, maxUses, answered, serverTools, t, searches, issued)
    && RoundsEnd(state, frames, w, maxUses, r, serverTools, t, order)
  }

  lemma OverAtMeans(state: StreamState, frames: seq<Frame>, w: World, maxUses: nat, r: nat, serverTools: bool,
                    t: Tale, answered: nat, searches: nat, issued: nat, order: seq<nat>)
    ensures OverAt(state, frames, w, maxUses, r, serverTools, t, answered, searches, issued, order) <==>
              && t.now <= WholeRound(w.round(r), serverTools) && answered + (if RoundFine(w.round(r), serverTools) then 0 else 1) == r
              && ServesAll(w, maxUses, answered, serverTools, t, searches, issued)
              && RoundsEnd(state, frames, w, maxUses, r, serverTools, t, order)
  {
  }

  /** One upstream round, and the searches it asks for. */
  method RunRound(state: StreamState, frames: seq<Frame>, w: World, serverTools: bool, maxUses: nat, before: nat, made: nat,
                  given: nat, ghost t: Tale)
      returns (all: seq<Frame>, over: bool, searches: nat, issued: nat, ghost t': Tale, ghost answered: nat, ghost order: seq<nat>)
    requires Running(state, frames, w, t) && t.now == [] && GoodIds(w)
    requires state.serverToolNames == ServerNames(serverTools) && before < MAX_INTERNAL_GENERATION_ROUNDS
    requires ServesAll(w, maxUses, before, serverTools, t, made, given)
    modifies state
    ensures if over then t'.past == t.past && OverAt(state, all, w, maxUses, before + 1, serverTools, t', answered, searches, issued, order)
            else && Running(state, all, w, t') && t'.now == [] && t'.past == t.past + WholeRound(w.round(before + 1), serverTools)
                 && serverTools && Continues(w, maxUses, before + 1) && before + 1 < MAX_INTERNAL_GENERATION_ROUNDS
                 && ServesAll(w, maxUses, before + 1, true, t', searches, issued)
  {
    hide *;
    var rounds := before + 1;
    NamesMean(serverTools);
    RoundMeans(w, maxUses, rounds, serverTools);
    over, searches, issued, answered := true, made, given, before;
    all, over, t', order := ReadRound(state, frames, w.round(rounds), w, t);
    ServesElse(w, maxUses, before, serverTools, t, t', searches, issued);
    ServesWithout(w, maxUses, before, rounds, t', searches, issued);
    if over {
      answered := if RoundFine(w.round(rounds), serverTools) then rounds else before;
      EndedRound(state, all, w, maxUses, rounds, serverTools, t', order);
      OverAtMeans(state, all, w, maxUses, rounds, serverTools, t', answered, searches, issued, order);
      return;
    }
    RunningFacts(state, all, w, t');
    if state.finishReason.None? && !(serverTools && state.roundComplete) {
      over := true;
      all := Fail(state, all, "upstream stream ended unexpectedly", w, t');
      ReadAsFarMeans(t'.now, WholeRound(w.round(rounds), serverTools));
      EndedRound(state, all, w, maxUses, rounds, serverTools, t', order);
      OverAtMeans(state, all, w, maxUses, rounds, serverTools, t', answered, searches, issued, order);
      return;
    }
    answered := rounds;
    if !serverTools {
      over := true;
      all, order := Complete(state, all, w, t');
      EndedRound(state, all, w, maxUses, rounds, serverTools, t', order);
      OverAtMeans(state, all, w, maxUses, rounds, serverTools, t', answered, searches, issued, order);
      return;
    }
    TurnBegins(w, maxUses, rounds, t', searches, issued);
    all, over, searches, issued, t', order := ServerTurn(state, all, w, rounds, maxUses, searches, issued, t');
    TurnServesAll(w, maxUses, rounds, t', searches, issued);
    if over {
      EndedTurn(state, all, w, maxUses, rounds, t', order);
      OverAtMeans(state, all, w, maxUses, rounds, serverTools, t', answered, searches, issued, order);
    }
  }

  /** Upstream rounds, one after the other, until the reply ends. */
  method RunRounds(state: StreamState, w: World, serverTools: bool, maxUses: nat)
      returns (frames: seq<Frame>, rounds: nat, searches: nat, ghost t: Tale, ghost answered: nat, ghost issued': nat, ghost order: seq<nat>)
    requires state.View() == NewStream(state.exposeThinking, state.serverToolNames) && GoodIds(w)
    requires state.serverToolNames == ServerNames(serverTools)
    modifies state
    ensures 1 <= rounds <= MAX_INTERNAL_GENERATION_ROUNDS
    ensures (rounds > 1 ==> serverTools) && forall r | 1 <= r < rounds :: Continues(w, maxUses, r)
    ensures t.past == WholeRounds(w, rounds - 1, serverTools)
    ensures OverAt(state, frames, w, maxUses, rounds, serverTools, t, answered, searches, issued', order)
  {
    hide *;
    NothingYet(state, w, maxUses);
    frames, rounds, searches, t := [], 0, 0, NEW_TALE;
    var issued: nat := 0;
    NoRounds(w, serverTools);
    while true
      invariant Running(state, frames, w, t) && t.now == []
      invariant rounds < MAX_INTERNAL_GENERATION_ROUNDS && (rounds > 0 ==> serverTools)
      invariant t.past == WholeRounds(w, rounds, serverTools) && ServesAll(w, maxUses, rounds, serverTools, t, searches, issued)
      invariant forall r | 1 <= r <= rounds :: Continues(w, maxUses, r)
      decreases MAX_INTERNAL_GENERATION_ROUNDS - rounds
    {
      var over;
      frames, over, searches, issued, t, answered, order := RunRound(state, frames, w, serverTools, maxUses, rounds, searches, issued, t);
      rounds := rounds + 1;
      NextWhole(w, rounds, serverTools);
      if over {
        issued' := issued;
        return;
      }
    }
  }

  const NEW_TALE: Tale := Tale([], [], [], 0)

  lemma NoRounds(w: World, serverTools: bool)
    ensures WholeRounds(w, 0, serverTools) == []
  {
  }

  lemma ServesElse(w: World, maxUses: nat, n: nat, serverTools: bool, t: Tale, u: Tale, searches: nat, issued: nat)
    requires ServesAll(w, maxUses, n, serverTools, t, searches, issued) && u.served == t.served && u.issued == t.issued
    ensures ServesAll(w, maxUses, n, serverTools, u, searches, issued)
    ensures serverTools ==> TurnServes(w, maxUses, n, u, searches, issued)
  {
    hide ServedIn, Issued, SearchesMade;
  }

  lemma ServesWithout(w: World, maxUses: nat, n: nat, m: nat, t: Tale, searches: nat, issued: nat)
    ensures ServesAll(w, maxUses, n, false, t, searches, issued) ==> ServesAll(w, maxUses, m, false, t, searches, issued)
  {
  }

  lemma TurnServesAll(w: World, maxUses: nat, n: nat, t: Tale, searches: nat, issued: nat)
    requires TurnServes(w, maxUses, n, t, searches, issued)
    ensures ServesAll(w, maxUses, n, true, t, searches, issued)
  {
  }

  /** A reply that ends while, or right after, its round is read. */
  lemma EndedRound(state: StreamState, frames: seq<Frame>, w: World, maxUses: nat, r: nat, serverTools: bool, t: Tale, order: seq<nat>)
    requires if RoundFine(w.round(r), serverTools) then
               !serverTools && t.now == WholeRound(w.round(r), false) && EndsWell(state, frames, t, order, MapStopReason(FinishOf(t.now)))
             else EndsBadly(state, frames, t) && ReadAsFar(t.now, WholeRound(w.round(r), serverTools))
    ensures RoundsEnd(state, frames, w, maxUses, r, serverTools, t, order)
  {
    hide EndsWell, EndsBadly, WholeRound, RoundFine, ReadAsFar;
  }

  lemma EndedTurn(state: StreamState, frames: seq<Frame>, w: World, maxUses: nat, r: nat, t: Tale, order: seq<nat>)
    requires RoundFine(w.round(r), true) && t.now == WholeRound(w.round(r), true)
    requires TurnEnds(state, frames, w, maxUses, r, t, order)
    ensures RoundsEnd(state, frames, w, maxUses, r, true, t, order)
  {
    ReadAsFarMeans(t.now, WholeRound(w.round(r), true));
    hide EndsWell, EndsBadly, WholeRound, RoundFine, AsksOn, StopAfter, ReadAsFar;
  }

  lemma ServedMeans(w: World, maxUses: nat, n: nat, serverTools: bool, t: Tale, searches: nat, issued: nat)
    requires ServesAll(w, maxUses, n, serverTools, t, searches, issued)
    ensures t.served == (if serverTools then ServedIn(w, maxUses, n) else [])
    ensures searches == (if serverTools then SearchesMade(w, maxUses, n) else 0) <= maxUses
  {
    hide ServedIn;
  }

  lemma TurnBegins(w: World, maxUses: nat, r: nat, t: Tale, used: nat, issued: nat)
    requires 0 < r <= MAX_INTERNAL_GENERATION_ROUNDS && t.now == WholeRound(w.round(r), true)
    requires TurnServes(w, maxUses, r - 1, t, used, issued)
    ensures TurnStarts(w, maxUses, r, t, used, issued)
  {
    hide WholeRound, SearchesMade, ServedTo;
  }

  lemma RoundMeans(w: World, maxUses: nat, r: nat, serverTools: bool)
    ensures Continues(w, maxUses, r) <==> RoundFine(w.round(r), true) && GoesOn(w, maxUses, r)
    ensures Succeeds(w, maxUses, r, serverTools) <==> RoundFine(w.round(r), serverTools) && !(serverTools && AsksOn(w, maxUses, r))
  {
  }

  lemma ConcludesWhen(c: Client, w: World, maxUses: nat, r: nat, serverTools: bool, seen: seq<Chunk>, order: seq<nat>)
    requires AllClosed(c.blocks) && c.stop == StopAfter(w, maxUses, r, serverTools) && RoundFine(w.round(r), serverTools)
    requires var frags := Fragments(WholeRound(w.round(r), serverTools));
             HeldOrder(frags, ServerNames(serverTools), order) && ClientTools(c.blocks) == FinalCalls(frags, ServerNames(serverTools), order)
    requires c.usage == ConvertUsage(UsageOf(seen).GetOr(NO_USAGE), ResultCount(ServerBlocks(c.blocks)))
    ensures Concludes(c, w, maxUses, r, serverTools, seen, order)
  {
    StopIsSaid(FinishOf(WholeRound(w.round(r), serverTools)).value);
    UsageIsSaid(UsageOf(seen).GetOr(NO_USAGE), ResultCount(ServerBlocks(c.blocks)));
    hide StopSays, UsageSays, ConvertUsage, MapStopReason, Pauses, AllClosed, HeldOrder, FinalCalls, ClientTools, Sound, WholeRound;
  }

  /** What an ended run says of its frames. */
  lemma EndMeans(state: StreamState, frames: seq<Frame>, t: Tale, order: seq<nat>, stop: Option<string>, well: bool)
    requires if well then EndsWell(state, frames, t, order, stop) else EndsBadly(state, frames, t)
    ensures OneLifecycle(frames)
    ensures var c := Play(NEW_CLIENT, frames); var seen := t.past + t.now;
            && c.phase == (if well then Stopped else Failed)
            && Tells(c, state.exposeThinking, seen, t.served)
            && state.shadowReasoning == (if state.exposeThinking then "" else ReasoningOf(seen))
            && (well ==>
                  && AllClosed(c.blocks) && HeldOrder(Fragments(t.now), state.serverToolNames, order)
                  && ClientTools(c.blocks) == FinalCalls(Fragments(t.now), state.serverToolNames, order) && c.stop == stop
                  && c.usage == ConvertUsage(UsageOf(seen).GetOr(NO_USAGE), ResultCount(ServerBlocks(c.blocks))))
  {
    H.ConvertAssistantMeans(ReplayAll(Play(NEW_CLIENT, frames).blocks));
    EndedClientMeansLifecycle(frames);
    hide OneLifecycle, Play, Said, ServerBlocks, HeldOrder, FinalCalls, ClientTools, Fragments, TextOf, ReasoningOf, UsageOf;
  }

  function ServerNames(serverTools: bool): set<string> {
    if serverTools then {FUNCTION_NAME} else {}
  }

  lemma NamesMean(serverTools: bool)
    ensures (ServerNames(serverTools) != {}) == serverTools && (serverTools ==> ServerNames(serverTools) == {FUNCTION_NAME})
  {
    assert FUNCTION_NAME in {FUNCTION_NAME};
  }

  lemma NextWhole(w: World, n: nat, serverTools: bool)
    requires n > 0
    ensures WholeRounds(w, n, serverTools) == WholeRounds(w, n - 1, serverTools) + WholeRound(w.round(n), serverTools)
  {
    hide WholeRound;
  }

  lemma NothingLives(exposeThinking: bool, names: set<string>)
    ensures Live(NewStream(exposeThinking, names), NEW_CLIENT, [], [], [])
  {
    var none: seq<Chunk> := [];
    assert none + none == none;
    assert Sound(none) && FinishOf(none) == None && UsageOf(none) == None;
  }

  lemma NothingYet(state: StreamState, w: World, maxUses: nat)
    requires state.View() == NewStream(state.exposeThinking, state.serverToolNames)
    ensures Running(state, [], w, NEW_TALE)
    ensures forall serverTools :: ServesAll(w, maxUses, 0, serverTools, NEW_TALE, 0, 0)
    ensures NEW_TALE == Tale([], [], [], 0) && MAX_INTERNAL_GENERATION_ROUNDS > 0
  {
    hide Live;
    PlayNothing(NEW_CLIENT);
    NothingLives(state.exposeThinking, state.serverToolNames);
  }
}
