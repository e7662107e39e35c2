/**
 The second response path: the upstream stream collected into one body, then converted.
 Specification functions, the accumulator as the program runs it, and what it collects.
 */
module Aggregate {
  import opened Prelude
  import opened Protocol
  import opened Upstream
  import opened Translator

  datatype ToolParts = ToolParts(id: Option<string>, name: Option<string>, arguments: string)

  datatype Acc = Acc(id: Option<string>, model: Option<string>, reasoning: string, text: string, tools: map<nat, ToolParts>,
                     order: seq<nat>, finish: Option<string>, usage: Usage, sawEvent: bool)

  const NEW_ACC: Acc := Acc(None, None, "", "", map[], [], None, NO_USAGE, false)

  predicate Meaningful(u: Usage) {
    u.Counts? && u != NO_USAGE
  }

  function NonEmpty(s: string): Option<string> {
    if s == "" then None else Some(s)
  }

  function AccTool(a: Acc, call: Fragment): Acc {
    var t := if call.index in a.tools then a.tools[call.index] else ToolParts(None, None, "");
    a.(tools := a.tools[call.index := ToolParts(OrElse(t.id, NonEmpty(call.id)), OrElse(t.name, NonEmpty(call.name)),
                                                t.arguments + call.arguments)],
       order := if call.index in a.order then a.order else a.order + [call.index])
  }

  function AccTools(a: Acc, calls: seq<Fragment>): Acc {
    if calls == [] then a else AccTool(AccTools(a, calls[..|calls| - 1]), calls[|calls| - 1])
  }

  function AccHandle(a: Acc, chunk: Chunk): Result<Acc, string> {
    match chunk
    case Done => Ok(a)
    case Malformed => Err("upstream sent invalid SSE JSON")
    case Failure => Err("upstream stream error")
    case Data(id, model, usage, finish, reasoning, text, calls) =>
      Ok(AccTools(a.(id := OrElse(a.id, id), model := OrElse(a.model, model), sawEvent := true,
                     usage := if usage.Some? && Meaningful(usage.value) then usage.value else a.usage,
                     finish := OrElse(finish, a.finish), reasoning := a.reasoning + reasoning, text := a.text + text), calls))
  }

  function AccRun(chunks: seq<Chunk>): Result<Acc, string> {
    if chunks == [] then Ok(NEW_ACC)
    else
      var before := AccRun(chunks[..|chunks| - 1]);
      if before.Err? then before else AccHandle(before.value, chunks[|chunks| - 1])
  }

  /** The assembled OpenAI body, as far as conversion reads it. */
  datatype Body = Body(text: string, reasoning: string, calls: seq<ToolCall>, finish: string, usage: Usage)

  function BodyCalls(tools: map<nat, ToolParts>, order: seq<nat>): seq<ToolCall>
    requires forall k | k in order :: k in tools
  {
    if order == [] then []
    else
      var k := order[|order| - 1];
      var t := tools[k];
      BodyCalls(tools, order[..|order| - 1])
      + if t.name.None? && t.arguments == "" then []
        else [ToolCall(t.id.GetOr("toolu_" + Digits(k)), t.name.GetOr("unknown"), t.arguments)]
  }

  function IntoResponse(a: Acc): Result<Body, string>
    requires forall k | k in a.order :: k in a.tools
  {
    if !a.sawEvent || (a.text == "" && a.reasoning == "" && a.tools == map[] && a.finish.None?) then
      Err("upstream stream ended without any response content")
    else Ok(Body(a.text, a.reasoning, BodyCalls(a.tools, a.order), a.finish.GetOr("stop"), a.usage))
  }

  datatype Content =
    | ThinkingContent(thinking: string)
    | TextContent(text: string)
    | ToolContent(id: string, name: string, input: string)

  datatype Reply = Reply(content: seq<Content>, stop: Option<string>, usage: FinalUsage)

  const EMPTY_OBJECT: string := "{}"

  /** Tool input from its argument text: blank means an empty object. `parse` is the JSON parser. */
  function InputOf(arguments: string, parse: string -> Option<string>): Option<string> {
    if Blank(arguments) then Some(EMPTY_OBJECT) else parse(arguments)
  }

  function ToolContents(calls: seq<ToolCall>, parse: string -> Option<string>): Option<seq<Content>> {
    if calls == [] then Some([])
    else
      var before := ToolContents(calls[..|calls| - 1], parse);
      var last := calls[|calls| - 1];
      var input := InputOf(last.arguments, parse);
      if before.None? || input.None? then None else Some(before.value + [ToolContent(last.id, last.name, input.value)])
  }

  function ConvertResponse(b: Body, expose: bool, parse: string -> Option<string>): Result<Reply, string> {
    var tools := ToolContents(b.calls, parse);
    if tools.None? then Err("upstream returned malformed tool arguments")
    else
      Ok(Reply((if expose && b.reasoning != "" then [ThinkingContent(b.reasoning)] else [])
               + (if b.text != "" then [TextContent(b.text)] else []) + tools.value,
               MapStopReason(Some(b.finish)), ConvertUsage(b.usage, 0)))
  }

  // ---- what the accumulator holds ----

  function LastMeaningful(seen: seq<Chunk>): Usage {
    if seen == [] then NO_USAGE
    else
      var last := seen[|seen| - 1];
      if last.Data? && last.usage.Some? && Meaningful(last.usage.value) then last.usage.value
      else LastMeaningful(seen[..|seen| - 1])
  }

  ghost predicate AccToolsTrack(a: Acc, frags: seq<Fragment>) {
    && a.order == Order(frags)
    && (forall k :: k in a.tools <==> k in a.order)
    && (forall k | k in a.tools :: a.tools[k] == ToolParts(FirstId(frags, k), FirstName(frags, k), ArgsOf(frags, k)))
  }

  lemma FirstOneMore(frags: seq<Fragment>, call: Fragment, k: nat)
    ensures var more := frags + [call];
            && FirstId(more, k) == OrElse(FirstId(frags, k), if call.index == k then NonEmpty(call.id) else None)
            && FirstName(more, k) == OrElse(FirstName(frags, k), if call.index == k then NonEmpty(call.name) else None)
            && Order(more) == if call.index in Order(frags) then Order(frags) else Order(frags) + [call.index]
  {
    assert (frags + [call])[..|frags|] == frags;
  }

  lemma {:induction false} UnmentionedHasNone(frags: seq<Fragment>, k: nat)
    requires !Mentioned(frags, k)
    ensures FirstId(frags, k).None? && FirstName(frags, k).None? && ArgsOf(frags, k) == ""
  {
    if frags != [] {
      var before, last := frags[..|frags| - 1], frags[|frags| - 1];
      assert frags == before + [last];
      OneMore(before, last, k, {});
      FirstOneMore(before, last, k);
      UnmentionedHasNone(before, k);
    }
  }

  lemma AccToolTracks(a: Acc, call: Fragment, frags: seq<Fragment>)
    requires AccToolsTrack(a, frags)
    ensures AccToolsTrack(AccTool(a, call), frags + [call])
  {
    var b := AccTool(a, call);
    OrderListsMentioned(frags);
    FirstOneMore(frags, call, call.index);
    forall k | k in b.tools
      ensures b.tools[k] == ToolParts(FirstId(frags + [call], k), FirstName(frags + [call], k), ArgsOf(frags + [call], k))
    {
      OneMore(frags, call, k, {});
      FirstOneMore(frags, call, k);
      if k == call.index && k !in a.tools {
        UnmentionedHasNone(frags, k);
      }
    }
  }

  lemma {:induction false} AccToolsTracks(a: Acc, calls: seq<Fragment>, frags: seq<Fragment>)
    requires AccToolsTrack(a, frags)
    ensures AccToolsTrack(AccTools(a, calls), frags + calls)
    ensures AccTools(a, calls) == a.(tools := AccTools(a, calls).tools, order := AccTools(a, calls).order)
  {
    if calls == [] {
      assert frags + calls == frags;
    } else {
      var n := |calls| - 1;
      AccToolsTracks(a, calls[..n], frags);
      AccToolTracks(AccTools(a, calls[..n]), calls[n], frags + calls[..n]);
      assert frags + calls[..n] + [calls[n]] == frags + calls;
    }
  }

  predicate AllData(chunks: seq<Chunk>) {
    forall i | 0 <= i < |chunks| :: chunks[i].Data?
  }

  /** After any data chunks the accumulator holds exactly what the chunks say. */
  lemma {:induction false} AccumulatesEverything(chunks: seq<Chunk>)
    requires AllData(chunks)
    ensures AccRun(chunks).Ok?
    ensures var a := AccRun(chunks).value;
            && a.text == TextOf(chunks) && a.reasoning == ReasoningOf(chunks)
            && a.finish == FinishOf(chunks) && a.usage == LastMeaningful(chunks)
            && AccToolsTrack(a, Fragments(chunks)) && a.sawEvent == (chunks != [])
  {
    if chunks != [] {
      var n := |chunks| - 1;
      var chunk := chunks[n];
      AccumulatesEverything(chunks[..n]);
      var a := AccRun(chunks[..n]).value;
      var b := a.(id := OrElse(a.id, chunk.id), model := OrElse(a.model, chunk.model), sawEvent := true,
                  usage := if chunk.usage.Some? && Meaningful(chunk.usage.value) then chunk.usage.value else a.usage,
                  finish := OrElse(chunk.finish, a.finish), reasoning := a.reasoning + chunk.reasoning,
                  text := a.text + chunk.text);
      AccToolsTracks(b, chunk.calls, Fragments(chunks[..n]));
    }
  }

  // ---- the accumulator as the program runs it ----

  class NonStreamAccumulator {
    var id: Option<string>
    var model: Option<string>
    var reasoning: string
    var text: string
    var tools: map<nat, ToolParts>
    var toolOrder: seq<nat>
    var finishReason: Option<string>
    var usage: Usage
    var sawEvent: bool

    function View(): Acc
      reads this
    {
      Acc(id, model, reasoning, text, tools, toolOrder, finishReason, usage, sawEvent)
    }

    constructor ()
      ensures View() == NEW_ACC
    {
      id, model, reasoning, text := None, None, "", "";
      tools, toolOrder, finishReason, usage, sawEvent := map[], [], None, NO_USAGE, false;
    }

    method Handle(chunk: Chunk) returns (error: Option<string>)
      modifies this
      ensures match AccHandle(old(View()), chunk)
              case Ok(a) => error == None && View() == a
              case Err(e) => error == Some(e)
    {
      match chunk {
        case Done => return None;
        case Malformed => return Some("upstream sent invalid SSE JSON");
        case Failure => return Some("upstream stream error");
        case Data(_, _, _, _, _, _, _) =>
      }
      sawEvent := true;
      if id.None? {
        id := chunk.id;
      }
      if model.None? {
        model := chunk.model;
      }
      if chunk.usage.Some? && Meaningful(chunk.usage.value) {
        usage := chunk.usage.value;
      }
      if chunk.finish.Some? {
        finishReason := chunk.finish;
      }
      reasoning := reasoning + chunk.reasoning;
      text := text + chunk.text;
      HandleCalls(chunk.calls);
      error := None;
    }

    method HandleCalls(calls: seq<Fragment>)
      modifies this`tools, this`toolOrder
      ensures View() == AccTools(old(View()), calls)
    {
      assert calls[..0] == [];
      for i := 0 to |calls|
        invariant View() == AccTools(old(View()), calls[..i])
      {
        assert calls[..i + 1][..i] == calls[..i];
        var call := calls[i];
        var tool := if call.index in tools then tools[call.index] else ToolParts(None, None, "");
        if call.index !in toolOrder {
          toolOrder := toolOrder + [call.index];
        }
        if call.id != "" && tool.id.None? {
          tool := tool.(id := Some(call.id));
        }
        if call.name != "" && tool.name.None? {
          tool := tool.(name := Some(call.name));
        }
        tools := tools[call.index := tool.(arguments := tool.arguments + call.arguments)];
      }
      assert calls[..|calls|] == calls;
    }
  }

  /** The aggregating loop over a whole response: any malformed or failed chunk ends it. */
  method AggregateStream(chunks: seq<Chunk>) returns (r: Result<Acc, string>)
    ensures r == AccRun(chunks)
  {
    var accumulator := new NonStreamAccumulator();
    assert chunks[..0] == [];
    for i := 0 to |chunks|
      invariant AccRun(chunks[..i]) == Ok(accumulator.View())
    {
      assert chunks[..i + 1][..i] == chunks[..i];
      var error := accumulator.Handle(chunks[i]);
      if error.Some? {
        AccErrorSticks(chunks, i + 1);
        return Err(error.value);
      }
    }
    assert chunks[..|chunks|] == chunks;
    return Ok(accumulator.View());
  }

  lemma {:induction false} AccErrorSticks(chunks: seq<Chunk>, i: nat)
    requires i <= |chunks| && AccRun(chunks[..i]).Err?
    ensures AccRun(chunks) == AccRun(chunks[..i])
  {
    if i == |chunks| {
      assert chunks[..i] == chunks;
    } else {
      assert chunks[..|chunks| - 1][..i] == chunks[..i];
      AccErrorSticks(chunks[..|chunks| - 1], i);
    }
  }
}
