/** The conversion loops as the program runs them, proved against the specification. */
module Converter {
  import opened Prelude
  import opened History
  import opened Optimize
  import S = Sending

  lemma {:induction false} AssistantErrorSticks(blocks: seq<Block>, i: nat)
    requires i <= |blocks| && AssistantScan(blocks[..i]).Err?
    ensures AssistantScan(blocks) == AssistantScan(blocks[..i])
  {
    if i == |blocks| {
      assert blocks[..i] == blocks;
    } else {
      assert blocks[..|blocks| - 1][..i] == blocks[..i];
      AssistantErrorSticks(blocks[..|blocks| - 1], i);
    }
  }

  lemma {:induction false} UserErrorSticks(blocks: seq<Block>, i: nat, declared: set<string>)
    requires i <= |blocks| && UserScan(blocks[..i], declared).Err?
    ensures UserScan(blocks, declared) == UserScan(blocks[..i], declared)
  {
    if i == |blocks| {
      assert blocks[..i] == blocks;
    } else {
      assert blocks[..|blocks| - 1][..i] == blocks[..i];
      UserErrorSticks(blocks[..|blocks| - 1], i, declared);
    }
  }

  lemma {:induction false} HistoryErrorSticks(ms: seq<Message>, i: nat)
    requires i <= |ms| && ConvertHistory(ms[..i]).Err?
    ensures ConvertHistory(ms) == ConvertHistory(ms[..i])
  {
    if i == |ms| {
      assert ms[..i] == ms;
    } else {
      assert ms[..|ms| - 1][..i] == ms[..i];
      HistoryErrorSticks(ms[..|ms| - 1], i);
    }
  }

  /** The converted messages so far and the ids the next user message may answer. */
  class Conversion {
    var output: seq<Wire>
    var pendingToolIds: set<string>

    constructor ()
      ensures output == [] && pendingToolIds == {}
    {
      output, pendingToolIds := [], {};
    }

    /** The segment, if it holds anything, becomes a wire message. */
    static method FlushSegment(produced: seq<Wire>, segment: Segment) returns (p: seq<Wire>, s: Segment)
      ensures s == NO_SEGMENT
      ensures p == if segment == NO_SEGMENT then produced
                   else produced + [WAssistant(segment.content, segment.calls, segment.reasoning)]
    {
      p, s := produced, segment;
      if segment.content != [] || segment.calls != [] || segment.reasoning != "" {
        p, s := produced + [WAssistant(segment.content, segment.calls, segment.reasoning)], NO_SEGMENT;
      }
    }

    /** The start of a search: what was said before it becomes a message of its own. */
    static method TakeServerUse(produced: seq<Wire>, segment: Segment, serverCalls: seq<Call>, uses: set<string>,
                                id: string, name: string, input: Option<string>)
        returns (refused: Option<Refusal>, p: seq<Wire>, s: Segment, c: seq<Call>, u: set<string>)
      ensures forall a: AState | a.output == produced && a.segment == segment && a.serverCalls == serverCalls && a.uses == uses ::
                AssistantStep(a, ServerToolUse(id, name, input))
                == if refused.Some? then Err(refused.value) else Ok(a.(output := p, segment := s, serverCalls := c, uses := u))
    {
      refused, c, u := None, serverCalls, uses;
      p, s := FlushSegment(produced, segment);
      if id == "" {
        refused := Some(MissingString);
      } else if id in uses {
        refused := Some(DuplicateServerUse);
      } else if input.None? {
        refused := Some(BadServerInput);
      } else if name == "" {
        refused := Some(MissingString);
      } else {
        u := uses + {id};
        c := serverCalls + [Call(id, name, input.value)];
      }
    }

    static method TakeResult(produced: seq<Wire>, serverCalls: seq<Call>, uses: set<string>, answered: set<string>,
                             id: string, rendered: string)
        returns (refused: Option<Refusal>, p: seq<Wire>, c: seq<Call>, n: set<string>)
      ensures forall a: AState | a.output == produced && a.serverCalls == serverCalls && a.uses == uses && a.answered == answered ::
                AssistantStep(a, SearchResult(id, rendered))
                == if refused.Some? then Err(refused.value) else Ok(a.(output := p, serverCalls := c, answered := n))
    {
      refused, p, c, n := None, produced, serverCalls, answered;
      if id == "" {
        refused := Some(MissingString);
      } else if id !in uses {
        refused := Some(UnknownServerUse);
      } else if id in answered {
        refused := Some(DuplicateServerResult);
      } else {
        n := answered + {id};
        if serverCalls != [] {
          p := p + [WAssistant([], serverCalls, "")];
          c := [];
        }
        p := p + [WTool(id, PlainContent(rendered), None)];
      }
    }

    /** One plain block of an assistant turn: text, thinking, or a client tool call. */
    static method TakePlain(segment: Segment, open: bool, b: Block, pending: set<string>)
        returns (refused: Option<Refusal>, s: Segment, pending': set<string>)
      requires !b.ServerToolUse? && !b.SearchResult?
      ensures forall a: AState | a.segment == segment && a.pending == pending && (open <==> |a.uses| != |a.answered|) ::
                AssistantStep(a, b) == if refused.Some? then Err(refused.value)
                                       else Ok(a.(segment := s, pending := pending'))
    {
      refused, s, pending' := None, segment, pending;
      match b {
        case TextBlock(text) =>
          if open {
            refused := Some(UnansweredServerUse);
          } else if text == "" {
            refused := Some(MissingString);
          } else {
            s := s.(content := s.content + [TextPart(text)]);
          }
        case ThinkingBlock(thinking) =>
          if thinking.Some? {
            s := s.(reasoning := s.reasoning + thinking.value);
          } else {
            assert s.reasoning + "" == s.reasoning;
          }
        case RedactedThinking =>
        case ToolUse(id, name, input) =>
          if open {
            refused := Some(UnansweredServerUse);
          } else if id == "" || name == "" {
            refused := Some(MissingString);
          } else {
            pending' := pending' + {id};
            s := s.(calls := s.calls + [Call(id, name, input)]);
          }
        case NotAnObject => refused := Some(NotABlock);
        case _ => refused := Some(UnsupportedBlock);
      }
    }

    method ConvertAssistantBlocks(blocks: seq<Block>) returns (refused: Option<Refusal>)
      modifies this
      ensures match ConvertAssistant(blocks)
              case Ok(c) => refused == None && output == old(output) + c.wire && pendingToolIds == c.pending
              case Err(e) => refused == Some(e)
    {
      pendingToolIds := {};
      var segment := NO_SEGMENT;
      var serverCalls: seq<Call> := [];
      var uses: set<string>, answered: set<string> := {}, {};
      var produced: seq<Wire> := [];
      assert blocks[..0] == [];
      for i := 0 to |blocks|
        invariant output == old(output)
        invariant AssistantScan(blocks[..i]) == Ok(AState(produced, segment, serverCalls, uses, answered, pendingToolIds))
      {
        LastScanned(blocks[..i + 1]);
        assert blocks[..i + 1][..i] == blocks[..i] && blocks[..i + 1][i] == blocks[i];
        hide AssistantScan, AssistantStep;
        refused := None;
        match blocks[i] {
          case ServerToolUse(id, name, input) =>
            refused, produced, segment, serverCalls, uses := TakeServerUse(produced, segment, serverCalls, uses, id, name, input);
          case SearchResult(id, rendered) =>
            refused, produced, serverCalls, answered := TakeResult(produced, serverCalls, uses, answered, id, rendered);
          case _ =>
            refused, segment, pendingToolIds := TakePlain(segment, |uses| != |answered|, blocks[i], pendingToolIds);
        }
        if refused.Some? {
          AssistantErrorSticks(blocks, i + 1);
          return;
        }
      }
      assert blocks[..|blocks|] == blocks;
      if serverCalls != [] || |uses| != |answered| {
        return Some(UnansweredServerUse);
      }
      produced, segment := FlushSegment(produced, segment);
      if produced == [] {
        produced := [WAssistant([], [], "")];
      }
      output := output + produced;
      refused := None;
    }

    method ConvertUserBlocks(blocks: seq<Block>) returns (refused: Option<Refusal>)
      modifies this`output
      ensures match ConvertUser(blocks, pendingToolIds)
              case Ok(wire) => refused == None && output == old(output) + wire
              case Err(e) => refused == Some(e)
    {
      var ordinary: seq<Part> := [];
      var sawOrdinary := false;
      var seenResultIds: set<string> := {};
      var produced: seq<Wire> := [];
      assert blocks[..0] == [];
      for i := 0 to |blocks|
        invariant sawOrdinary == (ordinary != [])
        invariant UserScan(blocks[..i], pendingToolIds) == Ok(UState(produced, ordinary, seenResultIds))
      {
        assert blocks[..i + 1][..i] == blocks[..i] && blocks[..i + 1][i] == blocks[i];
        refused := None;
        match blocks[i] {
          case TextBlock(text) =>
            sawOrdinary := true;
            if text == "" {
              refused := Some(MissingString);
            } else {
              ordinary := ordinary + [TextPart(text)];
            }
          case Media(part) =>
            sawOrdinary := true;
            if part.None? {
              refused := Some(MissingString);
            } else {
              ordinary := ordinary + [part.value];
            }
          case ToolResult(id, _, _) =>
            if sawOrdinary {
              refused := Some(LateToolResult);
            } else if id == "" {
              refused := Some(MissingString);
            } else if id in seenResultIds {
              refused := Some(DuplicateToolResult);
            } else {
              seenResultIds := seenResultIds + {id};
              var converted := ConvertToolResult(blocks[i], pendingToolIds);
              if converted.Err? {
                refused := Some(converted.error);
              } else {
                produced := produced + [converted.value];
              }
            }
          case NotAnObject => refused := Some(NotABlock);
          case _ => refused := Some(UnsupportedBlock);
        }
        if refused.Some? {
          UserErrorSticks(blocks, i + 1, pendingToolIds);
          return;
        }
      }
      assert blocks[..|blocks|] == blocks;
      if ordinary != [] {
        produced := produced + [UserMessage(ordinary)];
      }
      if blocks == [] {
        produced := produced + [UserMessage([])];
      }
      output := output + produced;
      refused := None;
    }

    method ConvertOne(m: Message) returns (refused: Option<Refusal>)
      modifies this
      ensures match ConvertMessage(m, old(pendingToolIds))
              case Ok(c) => refused == None && output == old(output) + c.wire && pendingToolIds == c.pending
              case Err(e) => refused == Some(e)
    {
      refused := None;
      if m.role.OtherRole? || m.content.OtherContent? {
        return Some(BadMessage);
      } else if m.role.System? {
        pendingToolIds := {};
        if !SystemValid(m.content) {
          return Some(BadMessage);
        }
        output := output + [WSystem(m.content)];
      } else if m.content.Str? {
        pendingToolIds := {};
        output := output + [WUser(m.role, m.content, [])];
      } else if m.role.Assistant? {
        refused := ConvertAssistantBlocks(m.content.blocks);
      } else {
        refused := ConvertUserBlocks(m.content.blocks);
        pendingToolIds := {};
      }
    }
  }

  /** The request's message loop: it succeeds exactly on valid histories, and what is then sent says what they say. */
  method ConvertMessages(ms: seq<Message>) returns (r: Result<seq<Wire>, Refusal>)
    ensures r.Ok? <==> HistoryValid(ms)
    ensures match ConvertHistory(ms) case Ok(c) => r == Ok(c.wire) case Err(e) => r == Err(e)
    ensures r.Ok? ==> S.Tells(ms, IntoWires(r.value))
  {
    AcceptedIffValid(ms);
    if ConvertHistory(ms).Ok? {
      S.AcceptedIsSent(ms);
    }
    hide S.Tells, IntoWires;
    var conversion := new Conversion();
    for i := 0 to |ms|
      invariant ConvertHistory(ms[..i]) == Ok(Converted(conversion.output, conversion.pendingToolIds))
    {
      assert ms[..i + 1][..i] == ms[..i] && ms[..i + 1][i] == ms[i];
      var refused := conversion.ConvertOne(ms[i]);
      if refused.Some? {
        HistoryErrorSticks(ms, i + 1);
        return Err(refused.value);
      }
    }
    assert ms[..|ms|] == ms;
    return Ok(conversion.output);
  }
}
