/** When the streamed reply and the aggregated reply are the same message. */
module Agreement {
  import opened Prelude
  import opened Protocol
  import opened Upstream
  import opened Translator
  import opened Lifecycle
  import opened Finishing
  import opened ToolBlocks
  import opened Aggregate

  // ---- the streamed path over data chunks ----

  function RunChunks(s: Stream, chunks: seq<Chunk>, requestId: string, model: string): Out
    requires AllData(chunks)
  {
    if chunks == [] then Out(s, [])
    else
      var o := RunChunks(s, chunks[..|chunks| - 1], requestId, model);
      var p := HandleData(o.s, chunks[|chunks| - 1], requestId, model);
      Out(p.s, o.frames + p.frames)
  }

  /** What chunks leave alone, and what they note. */
  ghost predicate Noted(s: Stream, expose: bool, chunks: seq<Chunk>) {
    && s.serverNames == {} && s.expose == expose && !s.terminal && s.webSearches == 0
    && s.finish == FinishOf(chunks)
    && s.usage == UsageOf(chunks).GetOr(NO_USAGE)
    && s.started == (chunks != [])
  }

  lemma BeginNotes(s: Stream, chunk: Chunk, requestId: string, model: string)
    requires chunk.Data?
    ensures var t := Note(Begin(s, chunk, requestId, model).s, chunk);
            && t.serverNames == s.serverNames && t.expose == s.expose && t.terminal == s.terminal
            && t.webSearches == s.webSearches && t.started
            && t.finish == OrElse(chunk.finish, s.finish) && t.usage == chunk.usage.GetOr(s.usage)
  {
  }

  lemma SpeechNotes(s: Stream, reasoning: string, text: string)
    ensures SameNotes(s, HandleReasoning(s, reasoning).s) && SameNotes(s, HandleText(s, text).s)
  {
  }

  /** A chunk notes its finish reason and usage, and starts the message. */
  lemma DataNotes(s: Stream, chunk: Chunk, requestId: string, model: string)
    requires chunk.Data?
    ensures var t := HandleData(s, chunk, requestId, model).s;
            && t.serverNames == s.serverNames && t.expose == s.expose && t.terminal == s.terminal
            && t.webSearches == s.webSearches && t.started
            && t.finish == OrElse(chunk.finish, s.finish) && t.usage == chunk.usage.GetOr(s.usage)
  {
    hide HandleReasoning, HandleText, HandleTools, Begin, Note;
    BeginNotes(s, chunk, requestId, model);
    var n := Note(Begin(s, chunk, requestId, model).s, chunk);
    var o1 := HandleReasoning(n, chunk.reasoning);
    var o2 := HandleText(o1.s, chunk.text);
    SpeechNotes(n, chunk.reasoning, "");
    SpeechNotes(o1.s, "", chunk.text);
    ToolsSameNotes(o2.s, chunk.calls);
  }

  /** Everything known after the data chunks of a request without server tools. */
  lemma {:induction false} ChunksTrack(chunks: seq<Chunk>, expose: bool, requestId: string, model: string)
    requires AllData(chunks)
    ensures var o := RunChunks(NewStream(expose, {}), chunks, requestId, model); var c := Play(NEW_CLIENT, o.frames);
            && Inv(o.s, c, TextOf(chunks), ReasoningOf(chunks), Fragments(chunks))
            && Shown(o.s, c, Fragments(chunks)) && Noted(o.s, expose, chunks)
  {
    if chunks == [] {
      PlayNothing(NEW_CLIENT);
    } else {
      var n := |chunks| - 1;
      var chunk := chunks[n];
      var before := Fragments(chunks[..n]);
      ChunksTrack(chunks[..n], expose, requestId, model);
      hide Inv, Shown, Play, HandleData;
      var o := RunChunks(NewStream(expose, {}), chunks[..n], requestId, model);
      var c := Play(NEW_CLIENT, o.frames);
      HandleDataKeeps(o.s, c, chunk, requestId, model, TextOf(chunks[..n]), ReasoningOf(chunks[..n]), before);
      DataShown(o.s, c, chunk, requestId, model, TextOf(chunks[..n]), ReasoningOf(chunks[..n]), before);
      DataNotes(o.s, chunk, requestId, model);
      PlayConcat(NEW_CLIENT, o.frames, HandleData(o.s, chunk, requestId, model).frames);
    }
  }

  // ---- what the two paths make of usage ----

  /** The last usage sent, if any was, is a non-empty object. */
  predicate UsageSettled(chunks: seq<Chunk>) {
    UsageOf(chunks).Some? ==> Meaningful(UsageOf(chunks).value)
  }

  const NOTHING_USED: FinalUsage := FinalUsage(0, 0, 0, 0, 0)

  /** Nothing is lost by keeping the last usage sent, whatever its shape. */
  predicate UsagesAgree(chunks: seq<Chunk>) {
    UsageSettled(chunks) || ConvertUsage(LastMeaningful(chunks), 0) == NOTHING_USED
  }

  lemma {:induction false} UsagesMeet(chunks: seq<Chunk>)
    ensures UsageOf(chunks).None? ==> LastMeaningful(chunks) == NO_USAGE
    ensures UsageOf(chunks).Some? && Meaningful(UsageOf(chunks).value) ==> LastMeaningful(chunks) == UsageOf(chunks).value
  {
    if chunks != [] {
      UsagesMeet(chunks[..|chunks| - 1]);
    }
  }

  /** The stream reports the last usage sent and the aggregate the last meaningful one: the same totals exactly when nothing is lost. */
  lemma {:induction false} UsagesAgreeExactlyWhen(chunks: seq<Chunk>)
    ensures ConvertUsage(UsageOf(chunks).GetOr(NO_USAGE), 0) == ConvertUsage(LastMeaningful(chunks), 0) <==> UsagesAgree(chunks)
  {
    UsagesMeet(chunks);
  }

  // ---- what the two paths make of tool fragments ----

  /** The call the aggregate keeps for an index: first id, first name, all arguments; none if only ids came. */
  function KeptCall(frags: seq<Fragment>, k: nat): Option<ToolCall> {
    if FirstName(frags, k).None? && ArgsOf(frags, k) == "" then None
    else Some(ToolCall(FirstId(frags, k).GetOr("toolu_" + Digits(k)), FirstName(frags, k).GetOr("unknown"), ArgsOf(frags, k)))
  }

  function KeptCalls(frags: seq<Fragment>, order: seq<nat>): seq<ToolCall> {
    if order == [] then []
    else
      var last := KeptCall(frags, order[|order| - 1]);
      KeptCalls(frags, order[..|order| - 1]) + if last.Some? then [last.value] else []
  }

  /** The indices in order of first appearance, those left out that never open. */
  function KeptOrder(frags: seq<Fragment>, order: seq<nat>): seq<nat> {
    if order == [] then []
    else
      var k := order[|order| - 1];
      KeptOrder(frags, order[..|order| - 1]) + if Opening(frags, k) != [] then [k] else []
  }

  lemma {:induction false} BodyCallsAre(tools: map<nat, ToolParts>, order: seq<nat>, frags: seq<Fragment>)
    requires forall k | k in order :: k in tools && tools[k] == ToolParts(FirstId(frags, k), FirstName(frags, k), ArgsOf(frags, k))
    ensures BodyCalls(tools, order) == KeptCalls(frags, order)
  {
    if order != [] {
      BodyCallsAre(tools, order[..|order| - 1], frags);
      assert order[|order| - 1] in order;
    }
  }

  /** An index is kept exactly when some fragment opens it. */
  lemma {:induction false} KeptWhenOpened(frags: seq<Fragment>, k: nat)
    ensures KeptCall(frags, k).Some? <==> Opening(frags, k) != []
  {
    if frags != [] {
      KeptWhenOpened(frags[..|frags| - 1], k);
    }
  }

  lemma {:induction false} KeptAt(frags: seq<Fragment>, order: seq<nat>)
    ensures |KeptCalls(frags, order)| == |KeptOrder(frags, order)|
    ensures forall j | 0 <= j < |KeptOrder(frags, order)| ::
              KeptOrder(frags, order)[j] in order && KeptCall(frags, KeptOrder(frags, order)[j]) == Some(KeptCalls(frags, order)[j])
  {
    if order != [] {
      var n := |order| - 1;
      KeptAt(frags, order[..n]);
      KeptWhenOpened(frags, order[n]);
      hide KeptCall, Opening;
      assert order == order[..n] + [order[n]];
    }
  }

  /**
   The fragments of one index mean the same to both paths: some fragment opens its block, the id known by then is
   the first one sent (or none is ever sent but the stand-in), and its name comes by then or never, but for the stand-in.
   */
  predicate IndexAgrees(frags: seq<Fragment>, k: nat) {
    var known := Opening(frags, k);
    && known != []
    && (if LastId(known, k).Some? then FirstId(frags, k) == LastId(known, k)
        else FirstId(frags, k).None? || FirstId(frags, k) == Some("toolu_" + Digits(k)))
    && (LastName(known, k).Some? || FirstName(frags, k).None? || FirstName(frags, k) == Some("unknown"))
  }

  /** What the first fragments fix, later ones do not change. */
  lemma {:induction false} FirstsOfPrefix(known: seq<Fragment>, frags: seq<Fragment>, k: nat)
    requires known <= frags
    ensures FirstId(known, k).Some? ==> FirstId(frags, k) == FirstId(known, k)
    ensures FirstName(known, k).Some? ==> FirstName(frags, k) == FirstName(known, k)
    decreases |frags|
  {
    if known != frags {
      FirstsOfPrefix(known, frags[..|frags| - 1], k);
    }
  }

  lemma {:induction false} LastMeansFirst(frags: seq<Fragment>, k: nat)
    ensures LastId(frags, k).Some? <==> FirstId(frags, k).Some?
    ensures LastName(frags, k).Some? <==> FirstName(frags, k).Some?
  {
    if frags != [] {
      LastMeansFirst(frags[..|frags| - 1], k);
    }
  }

  /** The name an index opens under, if one has come, is its first. */
  lemma {:induction false} OpeningName(frags: seq<Fragment>, k: nat)
    requires Opening(frags, k) != []
    ensures var known := Opening(frags, k); LastName(known, k).Some? ==> FirstName(known, k) == LastName(known, k)
  {
    var before, last := frags[..|frags| - 1], frags[|frags| - 1];
    if Opening(before, k) != [] {
      OpeningName(before, k);
    } else {
      UnopenedIsSilent(before, k);
      LastMeansFirst(before, k);
    }
  }

  /** For any fragments, the two paths report the same call for an index if and only if its fragments mean the same to both. */
  lemma IndexAgreesExactlyWhen(frags: seq<Fragment>, k: nat)
    ensures KeptCall(frags, k) == Some(ShownCall(frags, k)) <==> IndexAgrees(frags, k)
  {
    KeptWhenOpened(frags, k);
    var known := Opening(frags, k);
    if known != [] {
      FirstsOfPrefix(known, frags, k);
      LastMeansFirst(known, k);
      OpeningName(frags, k);
    }
    hide Opening, LastId, LastName, FirstId, FirstName, ArgsOf, Digits;
  }

  ghost predicate AllAgree(frags: seq<Fragment>) {
    forall k: nat | Mentioned(frags, k) :: IndexAgrees(frags, k)
  }

  /** No index opens before another that appeared earlier. */
  predicate InTurn(frags: seq<Fragment>) {
    OpenOrder(frags) == KeptOrder(frags, Order(frags))
  }

  /** When every index agrees none is held back, and the client is shown each call the aggregate keeps, as its blocks opened. */
  lemma AgreedCalls(frags: seq<Fragment>, order: seq<nat>)
    requires HeldOrder(frags, {}, order) && AllAgree(frags)
    ensures order == [] && |FinalCalls(frags, {}, order)| == |OpenOrder(frags)|
    ensures forall j | 0 <= j < |OpenOrder(frags)| :: KeptCall(frags, OpenOrder(frags)[j]) == Some(FinalCalls(frags, {}, order)[j])
  {
    Ends(order);
    forall j | 0 <= j < |OpenOrder(frags)| ensures KeptCall(frags, OpenOrder(frags)[j]) == Some(FinalCalls(frags, {}, order)[j]) {
      OpenedIsMentioned(frags, OpenOrder(frags)[j]);
      IndexAgreesExactlyWhen(frags, OpenOrder(frags)[j]);
    }
  }

  lemma Ends<T>(s: seq<T>)
    ensures s != [] ==> s[0] in s && s[|s| - 1] in s
    ensures |s| > 1 ==> s[0] in s && s[1] in s
  {
  }

  lemma OpenedIsMentioned(frags: seq<Fragment>, k: nat)
    requires k in OpenOrder(frags)
    ensures Mentioned(frags, k)
  {
    OpenOrderMeans(frags, k);
    OpeningIsMentioned(frags, k);
  }

  lemma OpeningIsMentioned(frags: seq<Fragment>, k: nat)
    ensures Opening(frags, k) != [] ==> Mentioned(frags, k)
  {
    var known := Opening(frags, k);
    if known != [] {
      assert frags[|known| - 1] == known[|known| - 1];
    }
  }

  lemma NoNames(frags: seq<Fragment>, k: nat)
    ensures !EverServer(frags, k, {})
  {
  }

  /** As long as indices open in turn, the two tool lists are equal if and only if every index agrees. */
  lemma CallsAgreeExactlyWhen(frags: seq<Fragment>, order: seq<nat>)
    requires HeldOrder(frags, {}, order) && InTurn(frags)
    ensures FinalCalls(frags, {}, order) == KeptCalls(frags, Order(frags)) <==> AllAgree(frags)
  {
    var calls, kept := FinalCalls(frags, {}, order), KeptCalls(frags, Order(frags));
    var opening := OpenOrder(frags);
    KeptAt(frags, Order(frags));
    hide KeptCalls, KeptOrder, Order, OpenOrder, ShownCall, HeldCall, KeptCall, IndexAgrees, Opening;
    if AllAgree(frags) {
      AgreedCalls(frags, order);
    }
    if calls == kept {
      forall k: nat | Mentioned(frags, k) ensures IndexAgrees(frags, k) {
        NoNames(frags, k);
        OpenOrderMeans(frags, k);
        assert order == [];
        assert k !in order && !Held(frags, {}, k);
        var j :| 0 <= j < |opening| && opening[j] == k;
        assert calls[j] == ShownCall(frags, k);
        IndexAgreesExactlyWhen(frags, k);
      }
    }
  }

  /** With every index in agreement and no two calls under one id, only the order of opening can still separate the lists. */
  lemma OrderAgreesExactlyWhen(frags: seq<Fragment>, order: seq<nat>)
    requires HeldOrder(frags, {}, order) && AllAgree(frags)
    requires forall j: nat, k: nat | Mentioned(frags, j) && Mentioned(frags, k) && j != k ::
      FirstId(frags, j).Some? && FirstId(frags, j) != FirstId(frags, k)
    ensures FinalCalls(frags, {}, order) == KeptCalls(frags, Order(frags)) <==> InTurn(frags)
  {
    var calls, kept := FinalCalls(frags, {}, order), KeptCalls(frags, Order(frags));
    var opening, appeared := OpenOrder(frags), KeptOrder(frags, Order(frags));
    AgreedCalls(frags, order);
    KeptAt(frags, Order(frags));
    OrderListsMentioned(frags);
    if calls == kept {
      forall j | 0 <= j < |opening| ensures opening[j] == appeared[j] {
        OpenedIsMentioned(frags, opening[j]);
        SameKeptId(frags, opening[j], appeared[j]);
      }
    }
    hide KeptCalls, KeptOrder, Order, OpenOrder, FinalCalls, KeptCall, HeldOrder, AllAgree, FirstId;
  }

  lemma SameKeptId(frags: seq<Fragment>, j: nat, k: nat)
    requires KeptCall(frags, j).Some? && KeptCall(frags, j) == KeptCall(frags, k)
    ensures FirstId(frags, j).Some? && FirstId(frags, k).Some? ==> FirstId(frags, j) == FirstId(frags, k)
  {
  }

  /** Each index's first fragment carries its id and its name. */
  predicate LeadingNamed(frags: seq<Fragment>) {
    forall i | 0 <= i < |frags| :: !Mentioned(frags[..i], frags[i].index) ==> frags[i].id != "" && frags[i].name != ""
  }

  /** The well-formed upstream: indices that lead with id and name agree, and open in turn. */
  lemma LeadingNamedAgrees(frags: seq<Fragment>)
    requires LeadingNamed(frags)
    ensures AllAgree(frags) && InTurn(frags)
  {
    LeadingOpens(frags);
    forall k: nat | Mentioned(frags, k) ensures IndexAgrees(frags, k) {
      LeadingIndex(frags, k);
    }
    OrderListsMentioned(frags);
    forall k | k in Order(frags) ensures Opening(frags, k) != [] {
      LeadingIndex(frags, k);
    }
    AllKept(frags, Order(frags));
  }

  lemma {:induction false} AllKept(frags: seq<Fragment>, order: seq<nat>)
    requires forall k | k in order :: Opening(frags, k) != []
    ensures KeptOrder(frags, order) == order
  {
    hide Opening;
    if order != [] {
      AllKept(frags, order[..|order| - 1]);
      assert order == order[..|order| - 1] + [order[|order| - 1]];
    }
  }

  lemma {:induction false} LeadingBefore(frags: seq<Fragment>, calls: seq<Fragment>)
    requires LeadingNamed(frags + calls)
    ensures LeadingNamed(frags)
  {
    var all := frags + calls;
    assert forall i | 0 <= i < |frags| :: all[i] == frags[i] && all[..i] == frags[..i];
  }

  lemma LeadingLast(frags: seq<Fragment>)
    requires LeadingNamed(frags) && frags != []
    ensures var before, last := frags[..|frags| - 1], frags[|frags| - 1];
            LeadingNamed(before) && (!Mentioned(before, last.index) ==> last.id != "" && last.name != "")
  {
    assert frags[..|frags| - 1] + [frags[|frags| - 1]] == frags;
    LeadingBefore(frags[..|frags| - 1], [frags[|frags| - 1]]);
  }

  lemma {:induction false} LeadingIndex(frags: seq<Fragment>, k: nat)
    requires LeadingNamed(frags) && Mentioned(frags, k)
    ensures IndexAgrees(frags, k)
    ensures LastId(Opening(frags, k), k).Some? && LastName(Opening(frags, k), k).Some?
  {
    var before, last := frags[..|frags| - 1], frags[|frags| - 1];
    LeadingLast(frags);
    assert frags == before + [last];
    FirstOneMore(before, last, k);
    OneMore(before, last, k, {});
    OpeningOneMore(before, last, k);
    if Mentioned(before, k) {
      LeadingIndex(before, k);
      LastMeansFirst(Opening(before, k), k);
      FirstsOfPrefix(Opening(before, k), before, k);
    } else {
      UnmentionedHasNone(before, k);
      LastNameIsNamed(before, k, {});
      UnmentionedIsUnopened(before, k);
    }
    hide *;
  }

  lemma UnmentionedIsUnopened(frags: seq<Fragment>, k: nat)
    requires !Mentioned(frags, k)
    ensures Opening(frags, k) == []
  {
    OpeningIsMentioned(frags, k);
  }

  lemma {:induction false} LeadingOpens(frags: seq<Fragment>)
    requires LeadingNamed(frags)
    ensures OpenOrder(frags) == Order(frags)
  {
    if frags != [] {
      var before, last := frags[..|frags| - 1], frags[|frags| - 1];
      LeadingLast(frags);
      LeadingOpens(before);
      OrderListsMentioned(before);
      hide LeadingNamed, Mentioned;
    }
  }

  // ---- the two replies ----

  /** The text of one kind of content in a converted reply. */
  function ReplyText(content: seq<Content>): string {
    if content == [] then ""
    else
      var last := content[|content| - 1];
      ReplyText(content[..|content| - 1]) + if last.TextContent? then last.text else ""
  }

  function ReplyThinking(content: seq<Content>): string {
    if content == [] then ""
    else
      var last := content[|content| - 1];
      ReplyThinking(content[..|content| - 1]) + if last.ThinkingContent? then last.thinking else ""
  }

  function ReplyTools(content: seq<Content>): seq<Content> {
    if content == [] then []
    else
      var last := content[|content| - 1];
      ReplyTools(content[..|content| - 1]) + if last.ToolContent? then [last] else []
  }

  /** How each reading of a reply grows with its last item. */
  lemma OneMoreContent(front: seq<Content>, last: Content)
    ensures ReplyText(front + [last]) == ReplyText(front) + if last.TextContent? then last.text else ""
    ensures ReplyThinking(front + [last]) == ReplyThinking(front) + if last.ThinkingContent? then last.thinking else ""
    ensures ReplyTools(front + [last]) == ReplyTools(front) + if last.ToolContent? then [last] else []
  {
    assert (front + [last])[..|front|] == front;
  }

  lemma {:induction false} ToolContentsAreTools(front: seq<Content>, calls: seq<ToolCall>, parse: string -> Option<string>)
    requires ToolContents(calls, parse).Some?
    ensures var tools := ToolContents(calls, parse).value;
            && ReplyTools(front + tools) == ReplyTools(front) + tools
            && ReplyText(front + tools) == ReplyText(front) && ReplyThinking(front + tools) == ReplyThinking(front)
    decreases |calls|
  {
    var tools := ToolContents(calls, parse).value;
    if calls == [] {
      assert front + tools == front;
    } else {
      ToolContentsAreTools(front, calls[..|calls| - 1], parse);
      var before := ToolContents(calls[..|calls| - 1], parse).value;
      var last := tools[|before|];
      assert front + tools == front + before + [last];
      OneMoreContent(front + before, last);
    }
  }

  lemma FrontParts(thinking: string, text: string)
    ensures var front := (if thinking != "" then [ThinkingContent(thinking)] else []) + (if text != "" then [TextContent(text)] else []);
            ReplyText(front) == text && ReplyThinking(front) == thinking && ReplyTools(front) == []
  {
    var first := if thinking != "" then [ThinkingContent(thinking)] else [];
    OneMoreContent([], ThinkingContent(thinking));
    OneMoreContent(first, TextContent(text));
    assert [] + [ThinkingContent(thinking)] == [ThinkingContent(thinking)] && first + [] == first;
  }

  lemma ConvertedParts(b: Body, expose: bool, parse: string -> Option<string>)
    requires ConvertResponse(b, expose, parse).Ok?
    ensures var content := ConvertResponse(b, expose, parse).value.content;
            && ReplyText(content) == b.text && ReplyThinking(content) == (if expose then b.reasoning else "")
            && Some(ReplyTools(content)) == ToolContents(b.calls, parse)
  {
    hide ReplyText, ReplyThinking, ReplyTools, ToolContents;
    var thinking := if expose then b.reasoning else "";
    var front := (if thinking != "" then [ThinkingContent(thinking)] else []) + (if b.text != "" then [TextContent(b.text)] else []);
    var tools := ToolContents(b.calls, parse).value;
    assert ConvertResponse(b, expose, parse).value.content == front + tools;
    FrontParts(thinking, b.text);
    ToolContentsAreTools(front, b.calls, parse);
    assert [] + tools == tools;
  }

  /** The frames of a whole streamed reply. */
  function StreamReply(chunks: seq<Chunk>, expose: bool, order: seq<nat>, requestId: string, model: string): seq<Frame>
    requires AllData(chunks)
    requires PendingOrder(RunChunks(NewStream(expose, {}), chunks, requestId, model).s, order)
  {
    var o := RunChunks(NewStream(expose, {}), chunks, requestId, model);
    o.frames + Handle(o.s, Done, order, requestId, model).frames
  }

  /** What the client has rebuilt once a streamed reply stops, read off any data chunks that bring a finish reason. */
  lemma StreamedReply(chunks: seq<Chunk>, expose: bool, order: seq<nat>, requestId: string, model: string)
    requires AllData(chunks) && FinishOf(chunks).Some?
    requires PendingOrder(RunChunks(NewStream(expose, {}), chunks, requestId, model).s, order)
    ensures HeldOrder(Fragments(chunks), {}, order)
    ensures var c := Play(NEW_CLIENT, StreamReply(chunks, expose, order, requestId, model));
            && c.phase == Stopped
            && Said(c.blocks, TextHead) == TextOf(chunks)
            && Said(c.blocks, ThinkingHead) == (if expose then ReasoningOf(chunks) else "")
            && ClientTools(c.blocks) == FinalCalls(Fragments(chunks), {}, order)
            && c.stop == MapStopReason(FinishOf(chunks))
            && c.usage == ConvertUsage(UsageOf(chunks).GetOr(NO_USAGE), 0)
            && StopSays(FinishOf(chunks).value, c.stop) && UsageSays(UsageOf(chunks).GetOr(NO_USAGE), 0, c.usage)
  {
    StopIsSaid(FinishOf(chunks).value);
    UsageIsSaid(UsageOf(chunks).GetOr(NO_USAGE), 0);
    hide StopSays, UsageSays;
    var o := RunChunks(NewStream(expose, {}), chunks, requestId, model);
    var c := Play(NEW_CLIENT, o.frames);
    ChunksTrack(chunks, expose, requestId, model);
    assert o.s.started by { FinishStarts(chunks); }
    assert Handle(o.s, Done, order, requestId, model) == Finalize(o.s, order);
    hide RunChunks, Play, Shown, Handle, Inv, Finalize, PendingOrder, HeldOrder;
    PlayConcat(NEW_CLIENT, o.frames, Finalize(o.s, order).frames);
    FinalizeDelivers(o.s, c, order, TextOf(chunks), ReasoningOf(chunks), Fragments(chunks));
    FinalizeShows(o.s, c, order, TextOf(chunks), ReasoningOf(chunks), Fragments(chunks));
  }

  lemma FinishStarts(chunks: seq<Chunk>)
    requires FinishOf(chunks).Some?
    ensures chunks != []
  {
  }

  /** What the aggregated body holds, read off the chunks. */
  lemma AggregatedBody(chunks: seq<Chunk>)
    requires AllData(chunks) && FinishOf(chunks).Some?
    ensures AccRun(chunks + [Done]).Ok?
    ensures var a := AccRun(chunks + [Done]).value; var frags := Fragments(chunks);
            && (forall k | k in a.order :: k in a.tools)
            && IntoResponse(a) == Ok(Body(TextOf(chunks), ReasoningOf(chunks), KeptCalls(frags, Order(frags)), FinishOf(chunks).value,
                                          LastMeaningful(chunks)))
  {
    assert (chunks + [Done])[..|chunks|] == chunks;
    AccumulatesEverything(chunks);
    var a := AccRun(chunks).value;
    BodyCallsAre(a.tools, a.order, Fragments(chunks));
    hide BodyCalls, KeptCalls;
  }

  /** A call whose arguments are blank or JSON. */
  predicate Readable(call: ToolCall, parse: string -> Option<string>) {
    Blank(call.arguments) || parse(call.arguments).Some?
  }

  /** The content item of a call: its id, its name, and its input, which is an empty object if the arguments are blank. */
  predicate Carries(item: Content, call: ToolCall, parse: string -> Option<string>) {
    && item.ToolContent? && item.id == call.id && item.name == call.name
    && (Blank(call.arguments) ==> item.input == "{}")
    && (!Blank(call.arguments) ==> Some(item.input) == parse(call.arguments))
  }

  lemma {:induction false} ToolContentsMean(calls: seq<ToolCall>, parse: string -> Option<string>)
    ensures ToolContents(calls, parse).Some? <==> forall i | 0 <= i < |calls| :: Readable(calls[i], parse)
    ensures ToolContents(calls, parse).Some? ==>
      var items := ToolContents(calls, parse).value;
      |items| == |calls| && forall i | 0 <= i < |calls| :: Carries(items[i], calls[i], parse)
  {
    if calls != [] {
      var n := |calls| - 1;
      ToolContentsMean(calls[..n], parse);
      hide Blank;
      assert forall i | 0 <= i < n :: calls[..n][i] == calls[i];
    }
  }

  /** A reply of these parts: thinking first, then text, then one item per call, in order. */
  predicate Replies(content: seq<Content>, thinking: string, text: string, calls: seq<ToolCall>, parse: string -> Option<string>) {
    var t := if thinking == "" then 0 else 1;
    var k := if text == "" then t else t + 1;
    && |content| == k + |calls|
    && (thinking != "" ==> content[0] == ThinkingContent(thinking))
    && (text != "" ==> content[t] == TextContent(text))
    && forall i | 0 <= i < |calls| :: Carries(content[k + i], calls[i], parse)
  }

  /** Did the upstream bring anything a reply could be made of? */
  predicate Brings(chunks: seq<Chunk>) {
    TextOf(chunks) != "" || ReasoningOf(chunks) != "" || Fragments(chunks) != [] || FinishOf(chunks).Some?
  }

  /**
   The aggregated reply to any data chunks, with a finish reason or without: it fails exactly when they bring nothing or
   some call's arguments cannot be read, and otherwise says exactly what they say.
   */
  lemma AggregatedReply(chunks: seq<Chunk>, expose: bool, parse: string -> Option<string>)
    requires AllData(chunks)
    ensures AccRun(chunks + [Done]).Ok?
    ensures var a := AccRun(chunks + [Done]).value; var calls := KeptCalls(Fragments(chunks), Order(Fragments(chunks)));
            && (forall k | k in a.order :: k in a.tools) && (IntoResponse(a).Ok? <==> Brings(chunks))
            && (Brings(chunks) ==>
                  var r := ConvertResponse(IntoResponse(a).value, expose, parse);
                  && (r.Ok? <==> forall i | 0 <= i < |calls| :: Readable(calls[i], parse))
                  && (r.Ok? ==>
                        && Replies(r.value.content, if expose then ReasoningOf(chunks) else "", TextOf(chunks), calls, parse)
                        && (FinishOf(chunks).None? ==> r.value.stop == Some("end_turn"))
                        && (FinishOf(chunks).Some? ==> StopSays(FinishOf(chunks).value, r.value.stop))
                        && UsageSays(LastMeaningful(chunks), 0, r.value.usage)))
  {
    hide *;
    BodyIs(chunks);
    if Brings(chunks) {
      ResponseMeans(IntoResponse(AccRun(chunks + [Done]).value).value, expose, parse);
    }
  }

  lemma BodyIs(chunks: seq<Chunk>)
    requires AllData(chunks)
    ensures AccRun(chunks + [Done]).Ok?
    ensures var a := AccRun(chunks + [Done]).value;
            && (forall k | k in a.order :: k in a.tools) && (IntoResponse(a).Ok? <==> Brings(chunks))
            && (Brings(chunks) ==>
                  var b := IntoResponse(a).value;
                  && b.text == TextOf(chunks) && b.reasoning == ReasoningOf(chunks) && b.usage == LastMeaningful(chunks)
                  && b.calls == KeptCalls(Fragments(chunks), Order(Fragments(chunks)))
                  && (FinishOf(chunks).Some? ==> b.finish == FinishOf(chunks).value)
                  && (FinishOf(chunks).None? ==> b.finish == "stop"))
  {
    assert (chunks + [Done])[..|chunks|] == chunks;
    AccumulatesEverything(chunks);
    var a := AccRun(chunks).value;
    BodyCallsAre(a.tools, a.order, Fragments(chunks));
    NoTools(a, Fragments(chunks));
    NothingFrom(chunks);
    assert AccRun(chunks + [Done]) == Ok(a);
    hide AccRun, BodyCalls, KeptCalls, AccHandle, Order, TextOf, ReasoningOf, Fragments, FinishOf, LastMeaningful;
  }

  lemma NothingFrom(chunks: seq<Chunk>)
    ensures chunks == [] ==> !Brings(chunks)
  {
  }

  lemma NoTools(a: Acc, frags: seq<Fragment>)
    requires AccToolsTrack(a, frags)
    ensures a.tools == map[] <==> frags == []
  {
    OrderListsMentioned(frags);
    if frags != [] {
      assert Mentioned(frags, frags[0].index);
    } else {
      assert forall k: nat :: k !in a.tools;
    }
  }

  lemma ResponseMeans(b: Body, expose: bool, parse: string -> Option<string>)
    ensures var r := ConvertResponse(b, expose, parse);
            && (r.Ok? <==> forall i | 0 <= i < |b.calls| :: Readable(b.calls[i], parse))
            && (r.Ok? ==>
                  && Replies(r.value.content, if expose then b.reasoning else "", b.text, b.calls, parse)
                  && StopSays(b.finish, r.value.stop) && UsageSays(b.usage, 0, r.value.usage)
                  && (b.finish == "stop" ==> r.value.stop == Some("end_turn")))
  {
    ToolContentsMean(b.calls, parse);
    StopIsSaid(b.finish);
    UsageIsSaid(b.usage, 0);
    StopIsNoReason();
    var thinking := if expose then b.reasoning else "";
    if ConvertResponse(b, expose, parse).Ok? {
      PartsReply(thinking, b.text, b.calls, ToolContents(b.calls, parse).value, parse);
    }
    hide ToolContents, Carries, Readable, UsageSays, ConvertUsage, MapStopReason, Replies;
  }

  lemma PartsReply(thinking: string, text: string, calls: seq<ToolCall>, items: seq<Content>, parse: string -> Option<string>)
    requires |items| == |calls| && forall i | 0 <= i < |calls| :: Carries(items[i], calls[i], parse)
    ensures Replies((if thinking != "" then [ThinkingContent(thinking)] else []) + (if text != "" then [TextContent(text)] else []) + items,
                    thinking, text, calls, parse)
  {
    hide Carries;
  }

  lemma StopIsNoReason()
    ensures "stop" !in {"length", "max_tokens", "tool_calls", "function_call", "content_filter", "refusal", "pause_turn"}
  {
    assert |"stop"| == 4;
    assert |"length"| != 4 && |"max_tokens"| != 4 && |"tool_calls"| != 4 && |"function_call"| != 4;
    assert |"content_filter"| != 4 && |"refusal"| != 4 && |"pause_turn"| != 4;
  }

  /**
   Where the two paths agree, for every upstream that finishes and has no server tools: always on text, reasoning and
   stop reason; on the totals exactly when the last usage loses nothing; on the tools, as long as indices open in
   turn, exactly when every index's fragments mean the same to both.
   */
  lemma RepliesAgreeExactlyWhen(chunks: seq<Chunk>, expose: bool, order: seq<nat>, requestId: string, model: string)
    requires AllData(chunks) && FinishOf(chunks).Some?
    requires PendingOrder(RunChunks(NewStream(expose, {}), chunks, requestId, model).s, order)
    ensures AccRun(chunks + [Done]).Ok?
    ensures var a := AccRun(chunks + [Done]).value; var c := Play(NEW_CLIENT, StreamReply(chunks, expose, order, requestId, model));
            && c.phase == Stopped && (forall k | k in a.order :: k in a.tools) && IntoResponse(a).Ok?
            && var body := IntoResponse(a).value;
               && Said(c.blocks, TextHead) == body.text
               && Said(c.blocks, ThinkingHead) == (if expose then body.reasoning else "")
               && c.stop == MapStopReason(Some(body.finish))
               && (c.usage == ConvertUsage(body.usage, 0) <==> UsagesAgree(chunks))
               && (InTurn(Fragments(chunks)) ==> (ClientTools(c.blocks) == body.calls <==> AllAgree(Fragments(chunks))))
  {
    hide StreamReply, AccRun, IntoResponse, RunChunks, FinalCalls, KeptCalls, Said, ClientTools, ConvertUsage;
    StreamedReply(chunks, expose, order, requestId, model);
    AggregatedBody(chunks);
    hide PendingOrder, HeldOrder, InTurn, AllAgree, UsagesAgree;
    UsagesAgreeExactlyWhen(chunks);
    if InTurn(Fragments(chunks)) {
      CallsAgreeExactlyWhen(Fragments(chunks), order);
    }
  }

  /**
   Whenever they agree so far, what the client rebuilds from the streamed frames is the converted aggregated reply:
   same text, same thinking, same tool calls in the same order, same stop reason and usage. The aggregated path
   refuses exactly when some tool's arguments do not parse.
   */
  lemma StreamAgreesWithAggregate(chunks: seq<Chunk>, expose: bool, order: seq<nat>, requestId: string, model: string,
                                  parse: string -> Option<string>)
    requires AllData(chunks) && FinishOf(chunks).Some?
    requires AllAgree(Fragments(chunks)) && InTurn(Fragments(chunks)) && UsagesAgree(chunks)
    requires PendingOrder(RunChunks(NewStream(expose, {}), chunks, requestId, model).s, order)
    ensures AccRun(chunks + [Done]).Ok?
    ensures var a := AccRun(chunks + [Done]).value; var c := Play(NEW_CLIENT, StreamReply(chunks, expose, order, requestId, model));
            && c.phase == Stopped && (forall k | k in a.order :: k in a.tools)
            && IntoResponse(a).Ok?
            && var r := ConvertResponse(IntoResponse(a).value, expose, parse);
               && (r.Ok? <==> ToolContents(ClientTools(c.blocks), parse).Some?)
               && (r.Ok? ==> && ReplyText(r.value.content) == Said(c.blocks, TextHead)
                             && ReplyThinking(r.value.content) == Said(c.blocks, ThinkingHead)
                             && Some(ReplyTools(r.value.content)) == ToolContents(ClientTools(c.blocks), parse)
                             && r.value.stop == c.stop && r.value.usage == c.usage)
  {
    RepliesAgreeExactlyWhen(chunks, expose, order, requestId, model);
    hide StreamReply, AccRun, IntoResponse, RunChunks, PendingOrder, AllAgree, InTurn, UsagesAgree, Said, ClientTools, ConvertUsage,
         ReplyText, ReplyThinking, ReplyTools, ToolContents;
    var body := IntoResponse(AccRun(chunks + [Done]).value).value;
    if ConvertResponse(body, expose, parse).Ok? {
      ConvertedParts(body, expose, parse);
    }
  }

  // ---- inputs that separate them ----

  /** A chunk of tool fragments that also finishes the reply. */
  function Calling(calls: seq<Fragment>): seq<Chunk> {
    [Data(None, None, None, Some("tool_calls"), "", "", calls)]
  }

  lemma CallingMeans(calls: seq<Fragment>)
    ensures AllData(Calling(calls)) && FinishOf(Calling(calls)) == Some("tool_calls") && Fragments(Calling(calls)) == calls
  {
    assert Calling(calls)[..0] == [] && [] + calls == calls;
  }

  /** A stream of these fragments may visit the tools it has not started in this order. */
  ghost predicate Visits(calls: seq<Fragment>, order: seq<nat>) {
    PendingOrder(RunChunks(NewStream(false, {}), Calling(calls), "r", "m").s, order)
  }

  /** The tools a client is shown, from the start of the stream to the end. */
  ghost function StreamedCalls(calls: seq<Fragment>, order: seq<nat>): seq<ToolCall>
    requires Visits(calls, order)
  {
    ClientTools(Play(NEW_CLIENT, StreamReply(Calling(calls), false, order, "r", "m")).blocks)
  }

  /** The tools of the aggregated body, if there is one. */
  function AggregatedCalls(calls: seq<Fragment>): Option<seq<ToolCall>> {
    var a := AccRun(Calling(calls) + [Done]);
    if a.Err? || exists k | k in a.value.order :: k !in a.value.tools then None
    else
      var body := IntoResponse(a.value);
      if body.Err? then None else Some(body.value.calls)
  }

  /** The tools of both paths on one chunk of fragments. */
  lemma BothOn(calls: seq<Fragment>, order: seq<nat>)
    requires Visits(calls, order)
    ensures HeldOrder(calls, {}, order)
    ensures StreamedCalls(calls, order) == FinalCalls(calls, {}, order) && AggregatedCalls(calls) == Some(KeptCalls(calls, Order(calls)))
  {
    CallingMeans(calls);
    StreamedReply(Calling(calls), false, order, "r", "m");
    AggregatedBody(Calling(calls));
    hide StreamReply, RunChunks, Play, AccRun, IntoResponse, KeptCalls, FinalCalls, ClientTools, Calling;
  }

  /** One index only: what the two lists are. */
  lemma OneIndex(calls: seq<Fragment>, order: seq<nat>)
    requires calls != [] && (forall i | 0 <= i < |calls| :: calls[i].index == 0) && HeldOrder(calls, {}, order)
    ensures FinalCalls(calls, {}, order) == [ShownCall(calls, 0)]
    ensures KeptCalls(calls, Order(calls)) == if KeptCall(calls, 0).Some? then [KeptCall(calls, 0).value] else []
  {
    assert Mentioned(calls, 0) by { assert calls[0].index == 0; }
    OrderIsZero(calls);
    ZeroKept(calls);
    OpenOrderMeans(calls, 0);
    OpensOnlyZero(calls);
    if Opening(calls, 0) != [] {
      NoneHeld(calls, order);
      hide *;
      OnlyZero(OpenOrder(calls));
      assert FinalCalls(calls, {}, []) == ShownCalls(calls, [0]) by { FinalOpened(calls); }
      OneShown(calls);
    } else {
      ZeroHeld(calls, order);
      hide *;
      NoneOpen(OpenOrder(calls));
      FinalHeld(calls);
    }
  }

  lemma OrderIsZero(calls: seq<Fragment>)
    requires Mentioned(calls, 0) && forall i | 0 <= i < |calls| :: calls[i].index == 0
    ensures Order(calls) == [0]
  {
    OrderListsMentioned(calls);
    hide Order;
    OnlyZero(Order(calls));
  }

  lemma ZeroKept(calls: seq<Fragment>)
    ensures KeptCalls(calls, [0]) == if KeptCall(calls, 0).Some? then [KeptCall(calls, 0).value] else []
  {
    assert [0][..0] == [];
    hide KeptCall;
  }

  lemma OpensOnlyZero(calls: seq<Fragment>)
    requires forall i | 0 <= i < |calls| :: calls[i].index == 0
    ensures forall k | k in OpenOrder(calls) :: k == 0
    ensures forall i, j | 0 <= i < j < |OpenOrder(calls)| :: OpenOrder(calls)[i] != OpenOrder(calls)[j]
  {
    OpenOrderDistinct(calls);
    forall k | k in OpenOrder(calls) ensures k == 0 {
      OpenedIsMentioned(calls, k);
    }
  }

  lemma OneShown(calls: seq<Fragment>)
    ensures ShownCalls(calls, [0]) == [ShownCall(calls, 0)]
  {
  }

  lemma FinalOpened(calls: seq<Fragment>)
    requires OpenOrder(calls) == [0]
    ensures FinalCalls(calls, {}, []) == ShownCalls(calls, [0])
  {
    assert ShownCalls(calls, [0]) + HeldCalls(calls, []) == ShownCalls(calls, [0]);
  }

  lemma FinalHeld(calls: seq<Fragment>)
    requires OpenOrder(calls) == [] && Opening(calls, 0) == []
    ensures FinalCalls(calls, {}, [0]) == [ShownCall(calls, 0)]
  {
    assert ShownCalls(calls, []) + HeldCalls(calls, [0]) == [HeldCall(calls, 0)];
  }

  lemma ZeroHeld(calls: seq<Fragment>, order: seq<nat>)
    requires Mentioned(calls, 0) && (forall i | 0 <= i < |calls| :: calls[i].index == 0)
    requires HeldOrder(calls, {}, order) && Opening(calls, 0) == []
    ensures order == [0]
  {
    NoNames(calls, 0);
    assert Held(calls, {}, 0);
    assert forall k | k in order :: Held(calls, {}, k) && k == 0;
    OnlyZero(order);
  }

  lemma NoneHeld(calls: seq<Fragment>, order: seq<nat>)
    requires (forall i | 0 <= i < |calls| :: calls[i].index == 0) && HeldOrder(calls, {}, order) && Opening(calls, 0) != []
    ensures order == []
  {
    Ends(order);
  }

  lemma NoneOpen(order: seq<nat>)
    requires (forall k | k in order :: k == 0) && 0 !in order
    ensures order == []
  {
    Ends(order);
  }

  lemma OnlyZero(order: seq<nat>)
    requires 0 in order && (forall k | k in order :: k == 0) && forall i, j | 0 <= i < j < |order| :: order[i] != order[j]
    ensures order == [0]
  {
    assert forall i | 0 <= i < |order| :: order[i] in order;
    Ends(order);
  }

  lemma {:induction false} OpenOrderDistinct(frags: seq<Fragment>)
    ensures forall i, j | 0 <= i < j < |OpenOrder(frags)| :: OpenOrder(frags)[i] != OpenOrder(frags)[j]
  {
    if frags != [] {
      OpenOrderDistinct(frags[..|frags| - 1]);
    }
  }

  /** How one or two fragments of index 0 read. */
  lemma OneRead(a: Fragment)
    requires a.index == 0
    ensures LastId([a], 0) == NonEmpty(a.id) && LastName([a], 0) == NonEmpty(a.name) && ArgsOf([a], 0) == a.arguments
    ensures FirstId([a], 0) == NonEmpty(a.id) && FirstName([a], 0) == NonEmpty(a.name)
    ensures Opening([a], 0) == if Opens(a) then [a] else []
  {
    assert [a][..0] == [] && "" + a.arguments == a.arguments;
  }

  lemma TwoRead(a: Fragment, b: Fragment)
    requires a.index == b.index == 0
    ensures FirstId([a, b], 0) == OrElse(NonEmpty(a.id), NonEmpty(b.id)) && FirstName([a, b], 0) == OrElse(NonEmpty(a.name), NonEmpty(b.name))
    ensures ArgsOf([a, b], 0) == a.arguments + b.arguments
    ensures Opens(a) ==> Opening([a, b], 0) == [a]
  {
    OneRead(a);
    hide *;
    assert [a] + [b] == [a, b];
    FirstOneMore([a], b, 0);
    OneMore([a], b, 0, {});
    OpeningOneMore([a], b, 0);
  }

  lemma StandInId()
    ensures "toolu_" + Digits(0) == "toolu_0"
  {
    assert Digits(0) == "0";
  }

  const UNIDENTIFIED: Fragment := Fragment(0, "", "read", "{}")
  const LATE: Fragment := Fragment(0, "call_9", "", "")
  const LATE_CALLS: seq<Fragment> := [UNIDENTIFIED, LATE]
  const LONE_CALLS: seq<Fragment> := [LATE]

  predicate AllAtZero(calls: seq<Fragment>) {
    calls != [] && forall i | 0 <= i < |calls| :: calls[i].index == 0
  }

  /** Both lists when only index 0 is used. */
  lemma OnIndexZero(calls: seq<Fragment>, order: seq<nat>)
    requires AllAtZero(calls) && Visits(calls, order)
    ensures StreamedCalls(calls, order) == [ShownCall(calls, 0)]
    ensures AggregatedCalls(calls) == Some(if KeptCall(calls, 0).Some? then [KeptCall(calls, 0).value] else [])
  {
    BothOn(calls, order);
    OneIndex(calls, order);
    hide Visits, StreamedCalls, AggregatedCalls, ShownCall, KeptCall, HeldOrder, FinalCalls, KeptCalls, Order;
  }

  lemma LateShown()
    ensures ShownCall(LATE_CALLS, 0) == ToolCall("toolu_0", "read", "{}")
  {
    OneRead(UNIDENTIFIED);
    TwoRead(UNIDENTIFIED, LATE);
    StandInId();
    assert "{}" + "" == "{}";
    hide Opening, LastId, LastName, ArgsOf, FirstId, FirstName, Digits;
  }

  lemma LateKept()
    ensures KeptCall(LATE_CALLS, 0) == Some(ToolCall("call_9", "read", "{}"))
  {
    TwoRead(UNIDENTIFIED, LATE);
    assert "{}" + "" == "{}";
    hide Opening, LastId, LastName, ArgsOf, FirstId, FirstName, Digits;
  }

  /** An id that arrives after the block is open: the stream keeps the stand-in, the aggregate reports the real one. */
  lemma LateIdDisagrees(order: seq<nat>)
    requires Visits(LATE_CALLS, order)
    ensures StreamedCalls(LATE_CALLS, order) == [ToolCall("toolu_0", "read", "{}")]
    ensures AggregatedCalls(LATE_CALLS) == Some([ToolCall("call_9", "read", "{}")])
  {
    assert AllAtZero(LATE_CALLS);
    hide *;
    OnIndexZero(LATE_CALLS, order);
    LateShown();
    LateKept();
  }

  /** An index that brings nothing but an id: the stream shows an unnamed call at the end, the aggregate drops it. */
  lemma LoneIdDisagrees(order: seq<nat>)
    requires Visits(LONE_CALLS, order)
    ensures StreamedCalls(LONE_CALLS, order) == [ToolCall("call_9", "unknown", "")] && AggregatedCalls(LONE_CALLS) == Some([])
  {
    assert AllAtZero(LONE_CALLS);
    hide *;
    OnIndexZero(LONE_CALLS, order);
    LoneShown();
  }

  lemma LoneShown()
    ensures ShownCall(LONE_CALLS, 0) == ToolCall("call_9", "unknown", "") && KeptCall(LONE_CALLS, 0) == None
  {
    OneRead(LATE);
    hide Opening, LastId, LastName, ArgsOf, FirstId, FirstName, Digits;
  }

  const WAITING: Fragment := Fragment(0, "call_1", "", "")
  const OVERTAKING: Fragment := Fragment(1, "call_2", "read", "{}")
  const WAITED: Fragment := Fragment(0, "", "write", "[]")
  const OVERTAKEN_CALLS: seq<Fragment> := [WAITING, OVERTAKING, WAITED]

  /** What the fragments of one index say, when no part of it comes twice. */
  predicate Reads(frags: seq<Fragment>, k: nat, id: Option<string>, name: Option<string>, args: string, opening: seq<Fragment>) {
    && LastId(frags, k) == FirstId(frags, k) == id && LastName(frags, k) == FirstName(frags, k) == name
    && ArgsOf(frags, k) == args && Opening(frags, k) == opening
  }

  lemma ReadsNothing(k: nat)
    ensures Reads([], k, None, None, "", [])
  {
  }

  lemma ReadsMore(frags: seq<Fragment>, call: Fragment, k: nat, id: Option<string>, name: Option<string>, args: string, opening: seq<Fragment>)
    requires Reads(frags, k, id, name, args, opening)
    requires call.index == k ==> (call.id == "" || id.None?) && (call.name == "" || name.None?)
    ensures call.index == k ==>
      Reads(frags + [call], k, OrElse(id, NonEmpty(call.id)), OrElse(name, NonEmpty(call.name)), args + call.arguments,
            if opening != [] then opening else if Opens(call) then frags + [call] else [])
    ensures call.index != k ==> Reads(frags + [call], k, id, name, args, opening)
  {
    FirstOneMore(frags, call, k);
    OneMore(frags, call, k, {});
    OpeningOneMore(frags, call, k);
    hide LastId, LastName, FirstId, FirstName, ArgsOf, Opening, Order, OpenOrder;
    assert args + "" == args;
  }

  lemma OvertakenReads()
    ensures Reads(OVERTAKEN_CALLS, 0, Some("call_1"), Some("write"), "[]", OVERTAKEN_CALLS)
    ensures Reads(OVERTAKEN_CALLS, 1, Some("call_2"), Some("read"), "{}", [WAITING, OVERTAKING])
    ensures Reads([WAITING, OVERTAKING], 1, Some("call_2"), Some("read"), "{}", [WAITING, OVERTAKING])
  {
    hide Reads;
    ReadsNothing(0);
    ReadsNothing(1);
    assert [] + [WAITING] == [WAITING] && [WAITING] + [OVERTAKING] == [WAITING, OVERTAKING];
    assert [WAITING, OVERTAKING] + [WAITED] == OVERTAKEN_CALLS && "" + "" == "" && "" + "[]" == "[]" && "" + "{}" == "{}";
    ReadsMore([], WAITING, 0, None, None, "", []);
    ReadsMore([WAITING], OVERTAKING, 0, Some("call_1"), None, "", []);
    ReadsMore([WAITING, OVERTAKING], WAITED, 0, Some("call_1"), None, "", []);
    ReadsMore([], WAITING, 1, None, None, "", []);
    ReadsMore([WAITING], OVERTAKING, 1, None, None, "", []);
    ReadsMore([WAITING, OVERTAKING], WAITED, 1, Some("call_2"), Some("read"), "{}", [WAITING, OVERTAKING]);
  }

  lemma OvertakenOrders()
    ensures Order(OVERTAKEN_CALLS) == [0, 1] && OpenOrder(OVERTAKEN_CALLS) == [1, 0]
  {
    hide *;
    OrdersNothing();
    assert [] + [WAITING] == [WAITING] && [WAITING] + [OVERTAKING] == [WAITING, OVERTAKING];
    assert [WAITING, OVERTAKING] + [WAITED] == [WAITING, OVERTAKING, WAITED];
    OrdersMore([], WAITING);
    OrdersMore([WAITING], OVERTAKING);
    OrdersMore([WAITING, OVERTAKING], WAITED);
    OvertakenIs();
  }

  lemma OrdersNothing()
    ensures Order([]) == [] && OpenOrder([]) == []
  {
  }

  lemma OrdersMore(frags: seq<Fragment>, call: Fragment)
    ensures Order(frags + [call]) == if call.index in Order(frags) then Order(frags) else Order(frags) + [call.index]
    ensures OpenOrder(frags + [call])
         == if Opens(call) && call.index !in OpenOrder(frags) then OpenOrder(frags) + [call.index] else OpenOrder(frags)
  {
    FirstOneMore(frags, call, 0);
    OpeningOneMore(frags, call, 0);
    hide *;
  }

  lemma OvertakenIs()
    ensures OVERTAKEN_CALLS == [WAITING, OVERTAKING, WAITED] && !Opens(WAITING) && Opens(OVERTAKING) && Opens(WAITED)
    ensures WAITING.index == 0 == WAITED.index && OVERTAKING.index == 1
  {
  }

  /**
   An index that appears first but opens second: every index agrees and no id is shared, and still the client sees the
   two calls the other way round.
   */
  lemma OutOfTurnDisagrees(order: seq<nat>)
    requires Visits(OVERTAKEN_CALLS, order)
    ensures AllAgree(OVERTAKEN_CALLS) && !InTurn(OVERTAKEN_CALLS)
    ensures StreamedCalls(OVERTAKEN_CALLS, order) == [ToolCall("call_2", "read", "{}"), ToolCall("call_1", "write", "[]")]
    ensures AggregatedCalls(OVERTAKEN_CALLS) == Some([ToolCall("call_1", "write", "[]"), ToolCall("call_2", "read", "{}")])
  {
    hide *;
    OvertakenReads();
    OvertakenOrders();
    OvertakenAgrees();
    BothOn(OVERTAKEN_CALLS, order);
    AgreedCalls(OVERTAKEN_CALLS, order);
    OvertakenKept();
    assert [1, 0][0] != [0, 1][0];
    TurnsDiffer(OVERTAKEN_CALLS);
  }

  lemma OvertakenAgrees()
    ensures AllAgree(OVERTAKEN_CALLS)
  {
    OvertakenReads();
    OvertakenOrders();
    OrderListsMentioned(OVERTAKEN_CALLS);
    hide Order, OpenOrder, Mentioned, LastId, LastName, FirstId, FirstName, ArgsOf, Opening;
    forall k: nat | Mentioned(OVERTAKEN_CALLS, k) ensures IndexAgrees(OVERTAKEN_CALLS, k) {
      assert k in [0, 1];
    }
  }

  lemma KeptMore(frags: seq<Fragment>, order: seq<nat>, k: nat)
    ensures KeptCalls(frags, order + [k])
         == KeptCalls(frags, order) + if KeptCall(frags, k).Some? then [KeptCall(frags, k).value] else []
    ensures KeptOrder(frags, order + [k]) == KeptOrder(frags, order) + if Opening(frags, k) != [] then [k] else []
  {
    assert (order + [k])[..|order|] == order;
    hide KeptCall, Opening;
  }

  lemma TurnsDiffer(frags: seq<Fragment>)
    requires OpenOrder(frags) != KeptOrder(frags, Order(frags))
    ensures !InTurn(frags)
  {
  }

  lemma KeptNothing(frags: seq<Fragment>)
    ensures KeptCalls(frags, []) == [] && KeptOrder(frags, []) == []
  {
  }

  lemma OvertakenEach()
    ensures KeptCall(OVERTAKEN_CALLS, 0) == Some(ToolCall("call_1", "write", "[]")) && Opening(OVERTAKEN_CALLS, 0) != []
    ensures KeptCall(OVERTAKEN_CALLS, 1) == Some(ToolCall("call_2", "read", "{}")) && Opening(OVERTAKEN_CALLS, 1) != []
  {
    OvertakenReads();
    hide LastId, LastName, FirstId, FirstName, ArgsOf, Opening, Digits;
  }

  lemma OvertakenKept()
    ensures KeptCall(OVERTAKEN_CALLS, 0) == Some(ToolCall("call_1", "write", "[]"))
    ensures KeptCall(OVERTAKEN_CALLS, 1) == Some(ToolCall("call_2", "read", "{}"))
    ensures KeptCalls(OVERTAKEN_CALLS, [0, 1]) == [ToolCall("call_1", "write", "[]"), ToolCall("call_2", "read", "{}")]
    ensures KeptOrder(OVERTAKEN_CALLS, [0, 1]) == [0, 1]
  {
    hide *;
    OvertakenEach();
    KeptNothing(OVERTAKEN_CALLS);
    KeptMore(OVERTAKEN_CALLS, [], 0);
    KeptMore(OVERTAKEN_CALLS, [0], 1);
    assert [] + [0] == [0] && [0] + [1] == [0, 1];
  }

  /** A usage of the wrong shape after a real one: the streamed totals are lost, the aggregated ones kept. */
  lemma TrailingNullUsageDisagrees(order: seq<nat>)
    requires var u := NO_USAGE.(completion := Some(7));
             var chunks := [Data(None, None, Some(u), None, "", "", []), Data(None, None, Some(NotAnObject), Some("stop"), "", "", [])];
             PendingOrder(RunChunks(NewStream(false, {}), chunks, "r", "m").s, order)
    ensures var u := NO_USAGE.(completion := Some(7));
            var chunks := [Data(None, None, Some(u), None, "", "", []), Data(None, None, Some(NotAnObject), Some("stop"), "", "", [])];
            && AccRun(chunks + [Done]).Ok? && AccRun(chunks + [Done]).value.usage == u
            && Play(NEW_CLIENT, StreamReply(chunks, false, order, "r", "m")).usage == FinalUsage(0, 0, 0, 0, 0)
            && ConvertUsage(u, 0).output == 7
  {
    var u := NO_USAGE.(completion := Some(7));
    var c0, c1 := Data(None, None, Some(u), None, "", "", []), Data(None, None, Some(NotAnObject), Some("stop"), "", "", []);
    var chunks := [c0, c1];
    assert chunks[..1] == [c0] && [c0][..0] == [] && (chunks + [Done])[..2] == chunks;
    assert LastMeaningful([c0]) == u && UsageOf(chunks) == Some(NotAnObject);
    AccumulatesEverything(chunks);
    StreamedReply(chunks, false, order, "r", "m");
  }
}
