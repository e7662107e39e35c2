/**
 Conversion of Anthropic history to wire messages: the specification as functions on
 values, and a declarative account of which histories are accepted.
 */
module History {
  import opened Prelude

  /** A converted content item; images and documents are opaque. */
  datatype Part = TextPart(text: string) | MediaPart(encoded: string)

  datatype ToolContent = PlainContent(text: string) | PartContent(parts: seq<Part>)

  datatype ErrorFlag = Absent | Flag(value: bool) | NotBoolean

  /**
   One content block. A required string that is missing, empty or no string is "".
   `input` is the compact text of the input value, `None` where an object is required and it is not one.
   */
  datatype Block =
    | TextBlock(text: string)
    | ThinkingBlock(thinking: Option<string>)
    | RedactedThinking
    | ToolUse(id: string, name: string, input: string)
    | ServerToolUse(id: string, name: string, objectInput: Option<string>)
    | SearchResult(toolUseId: string, rendered: string)
    | Media(part: Option<Part>)
    | ToolResult(toolUseId: string, content: Option<ToolContent>, isError: ErrorFlag)
    | OtherBlock
    | NotAnObject

  datatype Role = User | Assistant | System | OtherRole

  datatype Content = Str(text: string) | Blocks(blocks: seq<Block>) | OtherContent

  datatype Message = Message(role: Role, content: Content)

  datatype Call = Call(id: string, name: string, arguments: string)

  datatype Wire =
    | WSystem(system: Content)
    | WUser(role: Role, userContent: Content, parts: seq<Part>)
    | WAssistant(content: seq<Part>, calls: seq<Call>, reasoning: string)
    | WTool(id: string, result: ToolContent, isError: Option<bool>)

  datatype Refusal =
    | BadMessage | MissingString | NotABlock | UnsupportedBlock
    | UnansweredServerUse | DuplicateServerUse | BadServerInput | UnknownServerUse | DuplicateServerResult
    | LateToolResult | DuplicateToolResult | UndeclaredToolResult | BadContent | BadErrorFlag

  // ---- assistant blocks ----

  datatype Segment = Segment(content: seq<Part>, calls: seq<Call>, reasoning: string)

  const NO_SEGMENT: Segment := Segment([], [], "")

  /** The locals of the conversion loop; `pending` are the ids the next user message may answer. */
  datatype AState = AState(output: seq<Wire>, segment: Segment, serverCalls: seq<Call>,
                           uses: set<string>, answered: set<string>, pending: set<string>)

  function Flush(a: AState): AState {
    if a.segment == NO_SEGMENT then a
    else a.(output := a.output + [WAssistant(a.segment.content, a.segment.calls, a.segment.reasoning)], segment := NO_SEGMENT)
  }

  function FlushServerCalls(a: AState): AState {
    if a.serverCalls == [] then a
    else a.(output := a.output + [WAssistant([], a.serverCalls, "")], serverCalls := [])
  }

  function AssistantStep(a: AState, b: Block): Result<AState, Refusal> {
    match b
    case TextBlock(text) =>
      if |a.uses| != |a.answered| then Err(UnansweredServerUse)
      else if text == "" then Err(MissingString)
      else Ok(a.(segment := a.segment.(content := a.segment.content + [TextPart(text)])))
    case ThinkingBlock(thinking) =>
      Ok(a.(segment := a.segment.(reasoning := a.segment.reasoning + thinking.GetOr(""))))
    case RedactedThinking => Ok(a)
    case ToolUse(id, name, input) =>
      if |a.uses| != |a.answered| then Err(UnansweredServerUse)
      else if id == "" || name == "" then Err(MissingString)
      else Ok(a.(pending := a.pending + {id},
                 segment := a.segment.(calls := a.segment.calls + [Call(id, name, input)])))
    case ServerToolUse(id, name, input) =>
      var f := Flush(a);
      if id == "" then Err(MissingString)
      else if id in f.uses then Err(DuplicateServerUse)
      else if input.None? then Err(BadServerInput)
      else if name == "" then Err(MissingString)
      else Ok(f.(uses := f.uses + {id}, serverCalls := f.serverCalls + [Call(id, name, input.value)]))
    case SearchResult(id, rendered) =>
      if id == "" then Err(MissingString)
      else if id !in a.uses then Err(UnknownServerUse)
      else if id in a.answered then Err(DuplicateServerResult)
      else
        var f := FlushServerCalls(a);
        Ok(f.(answered := f.answered + {id}, output := f.output + [WTool(id, PlainContent(rendered), None)]))
    case NotAnObject => Err(NotABlock)
    case Media(_) => Err(UnsupportedBlock)
    case ToolResult(_, _, _) => Err(UnsupportedBlock)
    case OtherBlock => Err(UnsupportedBlock)
  }

  const NEW_ASSISTANT: AState := AState([], NO_SEGMENT, [], {}, {}, {})

  function AssistantScan(blocks: seq<Block>): Result<AState, Refusal> {
    if blocks == [] then Ok(NEW_ASSISTANT)
    else
      var before := AssistantScan(blocks[..|blocks| - 1]);
      if before.Err? then before else AssistantStep(before.value, blocks[|blocks| - 1])
  }

  datatype Converted = Converted(wire: seq<Wire>, pending: set<string>)

  function AssistantEnd(a: AState): Result<Converted, Refusal> {
    if a.serverCalls != [] || |a.uses| != |a.answered| then Err(UnansweredServerUse)
    else
      var f := Flush(a);
      Ok(Converted(if f.output == [] then [WAssistant([], [], "")] else f.output, f.pending))
  }

  function ConvertAssistant(blocks: seq<Block>): Result<Converted, Refusal> {
    var a := AssistantScan(blocks);
    if a.Err? then Err(a.error) else AssistantEnd(a.value)
  }

  // ---- user blocks ----

  datatype UState = UState(output: seq<Wire>, ordinary: seq<Part>, answered: set<string>)

  function ConvertToolResult(b: Block, declared: set<string>): Result<Wire, Refusal>
    requires b.ToolResult?
  {
    if b.content.None? then Err(BadContent)
    else if b.toolUseId !in declared then Err(UndeclaredToolResult)
    else match b.isError
         case Absent => Ok(WTool(b.toolUseId, b.content.value, None))
         case Flag(v) => Ok(WTool(b.toolUseId, b.content.value, Some(v)))
         case NotBoolean => Err(BadErrorFlag)
  }

  function UserStep(u: UState, b: Block, declared: set<string>): Result<UState, Refusal> {
    match b
    case TextBlock(text) => if text == "" then Err(MissingString) else Ok(u.(ordinary := u.ordinary + [TextPart(text)]))
    case Media(part) => if part.None? then Err(MissingString) else Ok(u.(ordinary := u.ordinary + [part.value]))
    case ToolResult(id, _, _) =>
      if u.ordinary != [] then Err(LateToolResult)
      else if id == "" then Err(MissingString)
      else if id in u.answered then Err(DuplicateToolResult)
      else
        var r := ConvertToolResult(b, declared);
        if r.Err? then Err(r.error) else Ok(u.(answered := u.answered + {id}, output := u.output + [r.value]))
    case NotAnObject => Err(NotABlock)
    case ThinkingBlock(_) => Err(UnsupportedBlock)
    case RedactedThinking => Err(UnsupportedBlock)
    case ToolUse(_, _, _) => Err(UnsupportedBlock)
    case ServerToolUse(_, _, _) => Err(UnsupportedBlock)
    case SearchResult(_, _) => Err(UnsupportedBlock)
    case OtherBlock => Err(UnsupportedBlock)
  }

  function UserScan(blocks: seq<Block>, declared: set<string>): Result<UState, Refusal> {
    if blocks == [] then Ok(UState([], [], {}))
    else
      var before := UserScan(blocks[..|blocks| - 1], declared);
      if before.Err? then before else UserStep(before.value, blocks[|blocks| - 1], declared)
  }

  function UserMessage(parts: seq<Part>): Wire {
    WUser(User, Blocks([]), parts)
  }

  function ConvertUser(blocks: seq<Block>, declared: set<string>): Result<seq<Wire>, Refusal> {
    var u := UserScan(blocks, declared);
    if u.Err? then Err(u.error)
    else
      Ok(u.value.output + (if u.value.ordinary != [] then [UserMessage(u.value.ordinary)] else [])
                        + (if blocks == [] then [UserMessage([])] else []))
  }

  // ---- messages ----

  predicate SystemValid(c: Content) {
    match c
    case Str(_) => true
    case Blocks(bs) => forall i | 0 <= i < |bs| :: bs[i].TextBlock? && bs[i].text != ""
    case OtherContent => false
  }

  function ConvertMessage(m: Message, declared: set<string>): Result<Converted, Refusal> {
    if m.role.OtherRole? || m.content.OtherContent? then Err(BadMessage)
    else if m.role.System? then
      if SystemValid(m.content) then Ok(Converted([WSystem(m.content)], {})) else Err(BadMessage)
    else if m.content.Str? then
      Ok(Converted([WUser(m.role, m.content, [])], {}))
    else if m.role.Assistant? then ConvertAssistant(m.content.blocks)
    else
      var r := ConvertUser(m.content.blocks, declared);
      if r.Err? then Err(r.error) else Ok(Converted(r.value, {}))
  }

  function ConvertHistory(ms: seq<Message>): Result<Converted, Refusal> {
    if ms == [] then Ok(Converted([], {}))
    else
      var before := ConvertHistory(ms[..|ms| - 1]);
      if before.Err? then before
      else
        var last := ConvertMessage(ms[|ms| - 1], before.value.pending);
        if last.Err? then last else Ok(Converted(before.value.wire + last.value.wire, last.value.pending))
  }

  // ---- which histories are accepted, declaratively ----

  function Uses(blocks: seq<Block>): set<string> {
    set i | 0 <= i < |blocks| && blocks[i].ServerToolUse? :: blocks[i].id
  }

  function Answers(blocks: seq<Block>): set<string> {
    set i | 0 <= i < |blocks| && blocks[i].SearchResult? :: blocks[i].toolUseId
  }

  function ToolIds(blocks: seq<Block>): set<string> {
    set i | 0 <= i < |blocks| && blocks[i].ToolUse? :: blocks[i].id
  }

  /** May `b` stand after the blocks `before` in an assistant message? */
  predicate AssistantBlockLegal(before: seq<Block>, b: Block) {
    match b
    case TextBlock(text) => text != "" && Uses(before) <= Answers(before)
    case ThinkingBlock(_) => true
    case RedactedThinking => true
    case ToolUse(id, name, _) => id != "" && name != "" && Uses(before) <= Answers(before)
    case ServerToolUse(id, name, input) => id != "" && name != "" && input.Some? && id !in Uses(before)
    case SearchResult(id, _) => id != "" && id in Uses(before) && id !in Answers(before)
    case Media(_) => false
    case ToolResult(_, _, _) => false
    case OtherBlock => false
    case NotAnObject => false
  }

  predicate AssistantSoFar(blocks: seq<Block>) {
    forall i | 0 <= i < |blocks| :: AssistantBlockLegal(blocks[..i], blocks[i])
  }

  /** Server uses and their results pair up one to one, and nothing is said while one is open. */
  predicate AssistantValid(blocks: seq<Block>) {
    AssistantSoFar(blocks) && Uses(blocks) <= Answers(blocks)
  }

  predicate UserBlockLegal(before: seq<Block>, b: Block, declared: set<string>) {
    match b
    case TextBlock(text) => text != ""
    case Media(part) => part.Some?
    case ToolResult(id, content, isError) =>
      && id != "" && id in declared && content.Some? && !isError.NotBoolean?
      && forall i | 0 <= i < |before| :: before[i].ToolResult? && before[i].toolUseId != id
    case ThinkingBlock(_) => false
    case RedactedThinking => false
    case ToolUse(_, _, _) => false
    case ServerToolUse(_, _, _) => false
    case SearchResult(_, _) => false
    case OtherBlock => false
    case NotAnObject => false
  }

  predicate UserValid(blocks: seq<Block>, declared: set<string>) {
    forall i | 0 <= i < |blocks| :: UserBlockLegal(blocks[..i], blocks[i], declared)
  }

  /** The ids a user message at position `i` may answer: those of the message right before it. */
  function Declared(ms: seq<Message>, i: nat): set<string>
    requires i <= |ms|
  {
    if i > 0 && ms[i - 1].role.Assistant? && ms[i - 1].content.Blocks? then ToolIds(ms[i - 1].content.blocks) else {}
  }

  predicate MessageValid(m: Message, declared: set<string>) {
    match m.role
    case OtherRole => false
    case System => SystemValid(m.content)
    case Assistant => m.content.Str? || (m.content.Blocks? && AssistantValid(m.content.blocks))
    case User => m.content.Str? || (m.content.Blocks? && UserValid(m.content.blocks, declared))
  }

  predicate HistoryValid(ms: seq<Message>) {
    forall i | 0 <= i < |ms| :: MessageValid(ms[i], Declared(ms, i))
  }

  // ---- acceptance is validity ----

  lemma OneMoreBlock(before: seq<Block>, b: Block)
    ensures Uses(before + [b]) == if b.ServerToolUse? then Uses(before) + {b.id} else Uses(before)
    ensures Answers(before + [b]) == if b.SearchResult? then Answers(before) + {b.toolUseId} else Answers(before)
    ensures ToolIds(before + [b]) == if b.ToolUse? then ToolIds(before) + {b.id} else ToolIds(before)
  {
    var more := before + [b];
    assert more[|before|] == b;
    assert forall i | 0 <= i < |before| :: more[i] == before[i];
    forall id | id in Uses(before) ensures id in Uses(more) {
      var i :| 0 <= i < |before| && before[i].ServerToolUse? && before[i].id == id;
      assert more[i].ServerToolUse? && more[i].id == id;
    }
    forall id | id in Answers(before) ensures id in Answers(more) {
      var i :| 0 <= i < |before| && before[i].SearchResult? && before[i].toolUseId == id;
      assert more[i].SearchResult? && more[i].toolUseId == id;
    }
    forall id | id in ToolIds(before) ensures id in ToolIds(more) {
      var i :| 0 <= i < |before| && before[i].ToolUse? && before[i].id == id;
      assert more[i].ToolUse? && more[i].id == id;
    }
    assert b.ServerToolUse? ==> more[|before|].id in Uses(more);
    assert b.SearchResult? ==> more[|before|].toolUseId in Answers(more);
    assert b.ToolUse? ==> more[|before|].id in ToolIds(more);
  }

  lemma SameSize(small: set<string>, big: set<string>)
    requires small <= big
    ensures |small| == |big| <==> big <= small
  {
    var extra := big - small;
    assert big == small + extra;
    assert |big| == |small| + |extra|;
  }

  predicate Tallies(a: AState, blocks: seq<Block>) {
    a.uses == Uses(blocks) && a.answered == Answers(blocks) && a.answered <= a.uses && a.pending == ToolIds(blocks)
  }

  lemma SoFarOneMore(before: seq<Block>, b: Block)
    ensures AssistantSoFar(before + [b]) <==> AssistantSoFar(before) && AssistantBlockLegal(before, b)
  {
    hide AssistantBlockLegal;
    var blocks := before + [b];
    assert blocks[..|before|] == before && blocks[|before|] == b;
    assert forall i | 0 <= i < |before| :: blocks[..i] == before[..i] && blocks[i] == before[i];
  }

  lemma LastScanned(blocks: seq<Block>)
    requires blocks != []
    ensures var before := AssistantScan(blocks[..|blocks| - 1]);
            AssistantScan(blocks) == if before.Err? then before else AssistantStep(before.value, blocks[|blocks| - 1])
  {
    hide AssistantStep;
  }

  lemma {:induction false} AssistantScanMeans(blocks: seq<Block>)
    ensures AssistantScan(blocks).Ok? <==> AssistantSoFar(blocks)
    ensures AssistantScan(blocks).Ok? ==> Tallies(AssistantScan(blocks).value, blocks)
  {
    if blocks != [] {
      hide *;
      var before, b := blocks[..|blocks| - 1], blocks[|blocks| - 1];
      assert blocks == before + [b];
      AssistantScanMeans(before);
      LastScanned(blocks);
      SoFarOneMore(before, b);
      if AssistantScan(before).Ok? {
        AssistantStepMeans(AssistantScan(before).value, before, b);
      }
    }
  }

  lemma AssistantStepAccepts(a: AState, before: seq<Block>, b: Block)
    requires Tallies(a, before)
    ensures AssistantStep(a, b).Ok? <==> AssistantBlockLegal(before, b)
  {
    hide Uses, Answers, ToolIds;
    SameSize(a.answered, a.uses);
  }

  lemma AssistantStepCounts(a: AState, b: Block)
    requires AssistantStep(a, b).Ok?
    ensures var n := AssistantStep(a, b).value;
            && n.uses == (if b.ServerToolUse? then a.uses + {b.id} else a.uses)
            && n.answered == (if b.SearchResult? then a.answered + {b.toolUseId} else a.answered)
            && n.pending == (if b.ToolUse? then a.pending + {b.id} else a.pending)
            && (b.SearchResult? ==> b.toolUseId in a.uses)
  {
  }

  lemma AssistantStepMeans(a: AState, before: seq<Block>, b: Block)
    requires Tallies(a, before)
    ensures AssistantStep(a, b).Ok? <==> AssistantBlockLegal(before, b)
    ensures AssistantStep(a, b).Ok? ==> Tallies(AssistantStep(a, b).value, before + [b])
  {
    AssistantStepAccepts(a, before, b);
    hide AssistantStep, AssistantBlockLegal, Uses, Answers, ToolIds;
    OneMoreBlock(before, b);
    if AssistantStep(a, b).Ok? {
      AssistantStepCounts(a, b);
    }
  }

  /** Calls waiting to be flushed always include an unanswered one, so nothing is left over at the end. */
  lemma {:induction false} WaitingCallIsOpen(blocks: seq<Block>)
    requires AssistantScan(blocks).Ok?
    ensures var a := AssistantScan(blocks).value;
            a.serverCalls != [] ==> exists id :: id in a.uses && id !in a.answered
  {
    if blocks != [] {
      var before, b := blocks[..|blocks| - 1], blocks[|blocks| - 1];
      WaitingCallIsOpen(before);
      AssistantScanMeans(before);
      var a := AssistantScan(blocks).value;
      if b.ServerToolUse? {
        assert b.id in a.uses && b.id !in a.answered;
      }
    }
  }

  lemma ConvertAssistantMeans(blocks: seq<Block>)
    ensures ConvertAssistant(blocks).Ok? <==> AssistantValid(blocks)
    ensures ConvertAssistant(blocks).Ok? ==> ConvertAssistant(blocks).value.pending == ToolIds(blocks)
  {
    AssistantScanMeans(blocks);
    var a := AssistantScan(blocks);
    if a.Ok? {
      WaitingCallIsOpen(blocks);
      SameSize(a.value.answered, a.value.uses);
    }
  }

  predicate ResultIn(blocks: seq<Block>, id: string) {
    exists i | 0 <= i < |blocks| :: blocks[i].ToolResult? && blocks[i].toolUseId == id
  }

  predicate OnlyResults(blocks: seq<Block>) {
    forall i | 0 <= i < |blocks| :: blocks[i].ToolResult?
  }

  ghost predicate UserTallies(u: UState, blocks: seq<Block>) {
    && (u.ordinary == [] <==> OnlyResults(blocks))
    && (forall id :: id in u.answered <==> ResultIn(blocks, id))
  }

  lemma OneMoreResult(before: seq<Block>, b: Block, id: string)
    ensures ResultIn(before + [b], id) <==> ResultIn(before, id) || (b.ToolResult? && b.toolUseId == id)
    ensures OnlyResults(before + [b]) <==> OnlyResults(before) && b.ToolResult?
  {
    var more := before + [b];
    assert more[|before|] == b;
    assert forall i | 0 <= i < |before| :: more[i] == before[i];
  }

  lemma UserStepMeans(u: UState, before: seq<Block>, b: Block, declared: set<string>)
    requires UserTallies(u, before)
    ensures UserStep(u, b, declared).Ok? <==> UserBlockLegal(before, b, declared)
    ensures UserStep(u, b, declared).Ok? ==> UserTallies(UserStep(u, b, declared).value, before + [b])
  {
    OneMoreResult(before, b, "");
    forall id
      ensures ResultIn(before + [b], id) <==> ResultIn(before, id) || (b.ToolResult? && b.toolUseId == id)
    {
      OneMoreResult(before, b, id);
    }
    if b.ToolResult? {
      assert b.toolUseId in u.answered <==> ResultIn(before, b.toolUseId);
    }
    hide OnlyResults;
  }

  lemma {:induction false} UserScanMeans(blocks: seq<Block>, declared: set<string>)
    ensures UserScan(blocks, declared).Ok? <==> UserValid(blocks, declared)
    ensures UserScan(blocks, declared).Ok? ==> UserTallies(UserScan(blocks, declared).value, blocks)
  {
    if blocks != [] {
      var before, b := blocks[..|blocks| - 1], blocks[|blocks| - 1];
      assert blocks == before + [b];
      UserScanMeans(before, declared);
      assert UserValid(blocks, declared) <==> UserValid(before, declared) && UserBlockLegal(before, b, declared) by {
        assert blocks[..|before|] == before;
        assert forall i | 0 <= i < |before| :: blocks[..i] == before[..i];
      }
      hide UserTallies, UserValid, UserBlockLegal;
      if UserScan(before, declared).Ok? {
        UserStepMeans(UserScan(before, declared).value, before, b, declared);
      }
    } else {
      assert UserTallies(UserScan(blocks, declared).value, blocks);
    }
  }

  lemma ConvertMessageMeans(m: Message, declared: set<string>)
    ensures ConvertMessage(m, declared).Ok? <==> MessageValid(m, declared)
    ensures ConvertMessage(m, declared).Ok? ==> ConvertMessage(m, declared).value.pending == Declared([m], 1)
  {
    if m.content.Blocks? {
      ConvertAssistantMeans(m.content.blocks);
      UserScanMeans(m.content.blocks, declared);
    }
  }

  /** A history converts exactly when it is valid. */
  lemma {:induction false} AcceptedIffValid(ms: seq<Message>)
    ensures ConvertHistory(ms).Ok? <==> HistoryValid(ms)
    ensures ConvertHistory(ms).Ok? ==> ConvertHistory(ms).value.pending == Declared(ms, |ms|)
  {
    if ms != [] {
      var before, m := ms[..|ms| - 1], ms[|ms| - 1];
      AcceptedIffValid(before);
      assert forall i | 0 <= i < |before| :: ms[i] == before[i] && Declared(ms, i) == Declared(before, i);
      assert Declared(ms, |before|) == Declared(before, |before|);
      assert Declared(ms, |ms|) == Declared([m], 1);
      ConvertMessageMeans(m, Declared(before, |before|));
      assert HistoryValid(ms) <==> HistoryValid(before) && MessageValid(m, Declared(before, |before|));
    }
  }
}
