/**
 What a whole reply amounts to, said without the translator: which payloads are read, which searches are asked and
 made, what their results are, when the reply goes on for another upstream round, and when it succeeds.
 */
module Conversation {
  import opened Prelude
  import opened Protocol
  import opened Upstream
  import opened Translator
  import opened Rounds
  import opened ToolBlocks

  const MAX_INTERNAL_GENERATION_ROUNDS: nat := 8

  /** What one network read yields: decoded payloads, or a keep-alive falling due. */
  datatype Batch = Events(chunks: seq<Chunk>) | PingDue

  /** How an upstream stream ends; the decoder yields at most one payload at the end. */
  datatype RoundEnd = Eof(trailing: Option<Chunk>) | Broken(message: string)

  datatype Round = Round(batches: seq<Batch>, end: RoundEnd)

  datatype Resume = Resumed | Refused(message: string)

  /**
   Everything outside the translator: what each upstream round sends; for a call's arguments the result block that
   refuses them, if they hold no query, and the compact text of their input object; the result block of the search
   made for the call at a place of a round; how each continuation request turns out; the fresh block ids; and the
   result block of a search the budget no longer allows.
   */
  datatype World = World(
    round: nat -> Round, refusal: string -> Option<string>, objectText: string -> string, search: (nat, nat) -> string,
    resume: nat -> Resume, freshId: nat -> string, exhausted: string)

  // ---- what is read ----

  /** The payloads up to and including the first `[DONE]`. */
  function UpToDone(chunks: seq<Chunk>): (r: seq<Chunk>)
    ensures r <= chunks
  {
    if chunks == [] then [] else if chunks[0] == Done then [Done] else [chunks[0]] + UpToDone(chunks[1..])
  }

  /**
   What is taken of one network read, given what the round has brought so far: everything up to the first `[DONE]`.
   After it a request with server tools keeps reading, but takes only the first payload of each read.
   */
  function Taken(now: seq<Chunk>, chunks: seq<Chunk>, serverTools: bool): (r: seq<Chunk>)
    ensures r <= chunks
  {
    if Done !in now then UpToDone(chunks) else if serverTools && chunks != [] then chunks[..1] else []
  }

  function TakenOf(batches: seq<Batch>, serverTools: bool): seq<Chunk> {
    if batches == [] then []
    else
      var before, last := TakenOf(batches[..|batches| - 1], serverTools), batches[|batches| - 1];
      before + if last.Events? then Taken(before, last.chunks, serverTools) else []
  }

  /** All that is read of an upstream round, unless the reply ends before. */
  function WholeRound(r: Round, serverTools: bool): seq<Chunk> {
    var before := TakenOf(r.batches, serverTools);
    before + if r.end.Eof? && r.end.trailing.Some? && (serverTools || Done !in before) then [r.end.trailing.value] else []
  }

  /** All that is read of the first `n` rounds. */
  function WholeRounds(w: World, n: nat, serverTools: bool): seq<Chunk> {
    if n == 0 then [] else WholeRounds(w, n - 1, serverTools) + WholeRound(w.round(n), serverTools)
  }

  /** Every payload an upstream round sends, in order. */
  function AllPayloads(r: Round): seq<Chunk> {
    Payloads(r.batches) + if r.end.Eof? && r.end.trailing.Some? then [r.end.trailing.value] else []
  }

  function Payloads(batches: seq<Batch>): seq<Chunk> {
    if batches == [] then []
    else
      var last := batches[|batches| - 1];
      Payloads(batches[..|batches| - 1]) + if last.Events? then last.chunks else []
  }

  lemma Regroup(a: seq<Chunk>, b: seq<Chunk>, c: seq<Chunk>)
    requires a != []
    ensures var x, rest := a[0], a[1..];
            && a == [x] + rest && a + b == [x] + (rest + b) && [x] + (rest + c) == a + c
            && (Done in a <==> x == Done || Done in rest)
  {
  }

  lemma UpToDoneStep(x: Chunk, rest: seq<Chunk>)
    ensures UpToDone([x] + rest) == if x == Done then [Done] else [x] + UpToDone(rest)
  {
    assert ([x] + rest)[1..] == rest;
  }

  lemma {:induction false} UpToDoneConcat(a: seq<Chunk>, b: seq<Chunk>)
    ensures UpToDone(a + b) == if Done in a then UpToDone(a) else a + UpToDone(b)
    decreases a
  {
    if a == [] {
      assert a + b == b && [] + UpToDone(b) == UpToDone(b);
    } else {
      var x, rest := a[0], a[1..];
      UpToDoneConcat(rest, b);
      hide UpToDone;
      UpToDoneStep(x, rest);
      UpToDoneStep(x, rest + b);
      Regroup(a, b, UpToDone(b));
    }
  }

  lemma {:induction false} UpToDoneMeans(chunks: seq<Chunk>)
    ensures Done !in chunks ==> UpToDone(chunks) == chunks
    ensures Done in UpToDone(chunks) <==> Done in chunks
    ensures UpToDone(UpToDone(chunks)) == UpToDone(chunks)
  {
    if chunks != [] {
      UpToDoneMeans(chunks[1..]);
      assert chunks == [chunks[0]] + chunks[1..];
      if chunks[0] != Done {
        assert ([chunks[0]] + UpToDone(chunks[1..]))[1..] == UpToDone(chunks[1..]);
      }
    }
  }

  lemma {:induction false} TakenUpToDone(batches: seq<Batch>, serverTools: bool)
    ensures UpToDone(TakenOf(batches, serverTools)) == UpToDone(Payloads(batches))
    ensures Done in TakenOf(batches, serverTools) <==> Done in Payloads(batches)
    ensures !serverTools ==> TakenOf(batches, serverTools) == UpToDone(Payloads(batches))
  {
    if batches != [] {
      var front, last := batches[..|batches| - 1], batches[|batches| - 1];
      var before, all := TakenOf(front, serverTools), Payloads(front);
      TakenUpToDone(front, serverTools);
      UpToDoneMeans(all);
      if last.Events? {
        var more := Taken(before, last.chunks, serverTools);
        UpToDoneConcat(before, more);
        UpToDoneConcat(all, last.chunks);
        UpToDoneMeans(last.chunks);
        UpToDoneMeans(before);
        if Done !in all {
          assert before == all;
        }
      } else {
        assert before + [] == before && all + [] == all;
      }
    }
  }

  /**
   Up to the first `[DONE]` everything an upstream round sends is read, in order; a request without server tools reads
   nothing after it.
   */
  lemma ReadsUpToDone(r: Round, serverTools: bool)
    ensures UpToDone(WholeRound(r, serverTools)) == UpToDone(AllPayloads(r))
    ensures !serverTools ==> WholeRound(r, serverTools) == UpToDone(AllPayloads(r))
    ensures Done !in AllPayloads(r) ==> WholeRound(r, serverTools) == AllPayloads(r)
  {
    var before, all := TakenOf(r.batches, serverTools), Payloads(r.batches);
    var end := if r.end.Eof? && r.end.trailing.Some? then [r.end.trailing.value] else [];
    assert AllPayloads(r) == all + end;
    assert WholeRound(r, serverTools) == before + if serverTools || Done !in before then end else [];
    TakenUpToDone(r.batches, serverTools);
    EndsUpToDone(before, all, end, serverTools);
    hide TakenOf, Payloads, UpToDone, WholeRound, AllPayloads;
  }

  lemma EndsUpToDone(before: seq<Chunk>, all: seq<Chunk>, end: seq<Chunk>, serverTools: bool)
    requires |end| <= 1 && UpToDone(before) == UpToDone(all) && (Done in before <==> Done in all) && (!serverTools ==> before == UpToDone(all))
    ensures var read, sent := before + (if serverTools || Done !in before then end else []), all + end;
            && UpToDone(read) == UpToDone(sent) && (!serverTools ==> read == UpToDone(sent))
            && (Done !in sent ==> read == sent)
  {
    UpToDoneConcat(before, end);
    UpToDoneConcat(all, end);
    UpToDoneMeans(before);
    UpToDoneMeans(all);
    UpToDoneMeans(end);
    OneUpToDone(end);
    hide UpToDone;
    assert before + [] == before && forall x | x in end :: x in all + end;
  }

  lemma OneUpToDone(chunks: seq<Chunk>)
    requires |chunks| <= 1
    ensures UpToDone(chunks) == chunks
  {
    assert chunks != [] ==> chunks[1..] == [];
  }

  // ---- when a round is fine ----

  /** Where it stands the payload can be handled: data, or a `[DONE]` after a finish reason. */
  predicate Fine(now: seq<Chunk>, chunk: Chunk) {
    chunk.Data? || (chunk.Done? && FinishOf(now).Some?)
  }

  predicate Sound(now: seq<Chunk>) {
    forall i | 0 <= i < |now| :: Fine(now[..i], now[i])
  }

  lemma SoundOneMore(now: seq<Chunk>, chunk: Chunk)
    ensures Sound(now + [chunk]) <==> Sound(now) && Fine(now, chunk)
  {
    hide Fine;
    var more := now + [chunk];
    assert more[..|now|] == now && more[|now|] == chunk;
    assert forall i | 0 <= i < |now| :: more[..i] == now[..i] && more[i] == now[i];
  }

  /** The last payload is the first that cannot be handled where it stands. */
  predicate JustUnfit(now: seq<Chunk>) {
    now != [] && Sound(now[..|now| - 1]) && !Sound(now)
  }

  lemma SoundPrefix(part: seq<Chunk>, now: seq<Chunk>)
    requires part <= now && Sound(now)
    ensures Sound(part)
  {
    hide Fine;
    assert forall i | 0 <= i < |part| :: part[..i] == now[..i] && part[i] == now[i];
  }

  /**
   The round can be handled to its end: every payload where it stands, a finish reason, and an orderly end of the
   stream, unless a `[DONE]` has ended a reply without server tools before.
   */
  predicate RoundFine(r: Round, serverTools: bool) {
    && Sound(WholeRound(r, serverTools)) && FinishOf(WholeRound(r, serverTools)).Some?
    && (r.end.Eof? || (!serverTools && Done in TakenOf(r.batches, serverTools)))
  }

  // ---- the calls of a round ----

  function Indices(frags: seq<Fragment>): set<nat> {
    set i | 0 <= i < |frags| :: frags[i].index
  }

  /** The round's calls by ascending index, each under all that is known about it. */
  ghost function RoundCalls(frags: seq<Fragment>): seq<ToolCall> {
    HeldCalls(frags, Sorted(Indices(frags)))
  }

  /** Calls naming the search tool. */
  function ServerCalls(calls: seq<ToolCall>): seq<ToolCall> {
    if calls == [] then []
    else ServerCalls(calls[..|calls| - 1])
         + if calls[|calls| - 1].name == FUNCTION_NAME then [calls[|calls| - 1]] else []
  }

  predicate AllServer(calls: seq<ToolCall>) {
    forall i | 0 <= i < |calls| :: calls[i].name == FUNCTION_NAME
  }

  lemma {:induction false} ServerCallsMeans(calls: seq<ToolCall>)
    ensures |ServerCalls(calls)| <= |calls|
    ensures ServerCalls(calls) == calls <==> AllServer(calls)
    ensures |ServerCalls(calls)| == |calls| ==> AllServer(calls)
  {
    if calls != [] {
      var n := |calls| - 1;
      var front, last := calls[..n], calls[n];
      ServerCallsMeans(front);
      assert ServerCalls(calls) == ServerCalls(front) + if last.name == FUNCTION_NAME then [last] else [];
      assert calls == front + [last];
      assert AllServer(calls) <==> AllServer(front) && last.name == FUNCTION_NAME by { AllServerFront(calls); }
      hide ServerCalls, AllServer;
    }
  }

  lemma AllServerFront(calls: seq<ToolCall>)
    requires calls != []
    ensures var n := |calls| - 1; AllServer(calls) <==> AllServer(calls[..n]) && calls[n].name == FUNCTION_NAME
  {
    var n := |calls| - 1;
    assert forall i | 0 <= i < n :: calls[..n][i] == calls[i];
  }

  // ---- searching ----

  /** How many of the calls hold a query. */
  function Queries(calls: seq<ToolCall>, w: World): (n: nat)
    ensures n <= |calls|
  {
    if calls == [] then 0
    else Queries(calls[..|calls| - 1], w) + if w.refusal(calls[|calls| - 1].arguments).None? then 1 else 0
  }

  /** The result block of the call at place `i`: out of budget, refused for want of a query, or what its search found. */
  function Outcome(calls: seq<ToolCall>, i: nat, budget: nat, round: nat, w: World): string
    requires i < |calls|
  {
    if Queries(calls[..i], w) >= budget then w.exhausted
    else w.refusal(calls[i].arguments).GetOr(w.search(round, i))
  }

  function Outcomes(calls: seq<ToolCall>, budget: nat, round: nat, w: World): (r: seq<string>)
    ensures |r| == |calls| && forall i | 0 <= i < |calls| :: r[i] == Outcome(calls, i, budget, round, w)
  {
    seq(|calls|, i requires 0 <= i < |calls| => Outcome(calls, i, budget, round, w))
  }

  /** How many searches are made. */
  function Made(calls: seq<ToolCall>, budget: nat, w: World): (n: nat)
    ensures n <= budget && n <= |calls|
  {
    Min(Queries(calls, w), budget)
  }

  // ---- round after round ----

  ghost function CallsIn(w: World, r: nat): seq<ToolCall> {
    RoundCalls(Fragments(WholeRound(w.round(r), true)))
  }

  ghost function SearchesIn(w: World, r: nat): seq<ToolCall> {
    ServerCalls(CallsIn(w, r))
  }

  /** Searches and client calls in one round. */
  ghost predicate Mixed(w: World, r: nat) {
    SearchesIn(w, r) != CallsIn(w, r)
  }

  /** The last round allowed makes no more searches if it asks for nothing else. */
  ghost function Budget(w: World, r: nat, left: nat): (n: nat)
    ensures n <= left
  {
    if !Mixed(w, r) && r >= MAX_INTERNAL_GENERATION_ROUNDS then 0 else left
  }

  /** The searches made in the first `n` rounds. */
  ghost function SearchesMade(w: World, maxUses: nat, n: nat): (made: nat)
    ensures made <= maxUses
  {
    if n == 0 then 0
    else
      var before := SearchesMade(w, maxUses, n - 1);
      before + Made(SearchesIn(w, n), Budget(w, n, maxUses - before), w)
  }

  /** The searches made before round `r`. */
  ghost function SearchesBefore(w: World, maxUses: nat, r: nat): (made: nat)
    ensures made <= maxUses
  {
    if r == 0 then 0 else SearchesMade(w, maxUses, r - 1)
  }

  function IdsFrom(w: World, n: nat, count: nat): (ids: seq<string>)
    ensures |ids| == count && forall i | 0 <= i < count :: ids[i] == w.freshId(n + i)
  {
    seq(count, i requires 0 <= i < count => w.freshId(n + i))
  }

  /** The ids given out in the first `n` rounds. */
  ghost function Issued(w: World, n: nat): nat {
    if n == 0 then 0 else Issued(w, n - 1) + |SearchesIn(w, n)|
  }

  function InputsOf(calls: seq<ToolCall>, w: World): (inputs: seq<string>)
    ensures |inputs| == |calls| && forall i | 0 <= i < |calls| :: inputs[i] == w.objectText(calls[i].arguments)
  {
    seq(|calls|, i requires 0 <= i < |calls| => w.objectText(calls[i].arguments))
  }

  ghost function OutcomesIn(w: World, maxUses: nat, r: nat): (results: seq<string>)
    ensures |results| == |SearchesIn(w, r)|
  {
    Outcomes(SearchesIn(w, r), Budget(w, r, maxUses - SearchesBefore(w, maxUses, r)), r, w)
  }

  /** A round of searches as the client holds it: the calls, then their results. */
  function RoundBlocks(ids: seq<string>, inputs: seq<string>, results: seq<string>): seq<Block> {
    if |ids| == |inputs| == |results| then UseBlocks(ids, inputs) + ResultBlocks(ids, results) else []
  }

  /** The blocks of the first `n` rounds of searches: each round's calls, then their results, under the same fresh ids. */
  ghost function ServedIn(w: World, maxUses: nat, n: nat): seq<Block> {
    if n == 0 then []
    else
      var calls := SearchesIn(w, n);
      var ids := IdsFrom(w, Issued(w, n - 1), |calls|);
      ServedIn(w, maxUses, n - 1) + RoundBlocks(ids, InputsOf(calls, w), OutcomesIn(w, maxUses, n))
  }

  /** Nothing but searches was asked for. */
  ghost predicate OnlySearches(w: World, r: nat) {
    SearchesIn(w, r) != [] && !Mixed(w, r)
  }

  ghost predicate BudgetLeft(w: World, maxUses: nat, r: nat) {
    SearchesBefore(w, maxUses, r) < maxUses && r < MAX_INTERNAL_GENERATION_ROUNDS
  }

  /** After the round the upstream is asked to go on with the results. */
  ghost predicate AsksOn(w: World, maxUses: nat, r: nat) {
    OnlySearches(w, r) && BudgetLeft(w, maxUses, r)
  }

  ghost predicate GoesOn(w: World, maxUses: nat, r: nat) {
    AsksOn(w, maxUses, r) && w.resume(r).Resumed?
  }

  /** The reply breaks off for want of budget. */
  ghost predicate Pauses(w: World, maxUses: nat, r: nat) {
    OnlySearches(w, r) && !BudgetLeft(w, maxUses, r)
  }

  /** The stop reason after the round. */
  ghost function StopAfter(w: World, maxUses: nat, r: nat, serverTools: bool): Option<string> {
    if serverTools && Pauses(w, maxUses, r) then Some("pause_turn") else MapStopReason(FinishOf(WholeRound(w.round(r), serverTools)))
  }

  /** In a round of nothing but searches no call is left for the client. */
  lemma OnlySearchesHoldNone(w: World, r: nat, order: seq<nat>)
    requires OnlySearches(w, r) && HeldOrder(Fragments(WholeRound(w.round(r), true)), {FUNCTION_NAME}, order)
    ensures order == []
  {
    var frags := Fragments(WholeRound(w.round(r), true));
    var keys := Sorted(Indices(frags));
    ServerCallsMeans(CallsIn(w, r));
    if order != [] {
      var k := order[0];
      assert k in order && Held(frags, {FUNCTION_NAME}, k);
      var i :| 0 <= i < |frags| && frags[i].index == k;
      assert k in Indices(frags);
      SortedMeans(Indices(frags));
      var j :| 0 <= j < |keys| && keys[j] == k;
      assert CallsIn(w, r)[j] == HeldCall(frags, k) && HeldCall(frags, k).name == FUNCTION_NAME;
      assert "unknown" != FUNCTION_NAME by { assert "unknown"[0] != FUNCTION_NAME[0]; }
      LastNameIsNamed(frags, k, {FUNCTION_NAME});
      assert false;
    }
  }
}
