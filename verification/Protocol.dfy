/**
 The two sides of the streaming translator: upstream chunks coming in and
 Anthropic frames going out, with a client that rebuilds the message from the
 frames and refuses any frame the block lifecycle does not allow.
 */
module Protocol {
  import opened Prelude

  const FUNCTION_NAME: string := "web_search"

  // ---- upstream side ----

  /** A parsed `usage` value. `other` says whether unlisted members are present. */
  datatype Usage =
    | NotAnObject
    | Counts(completion: Option<nat>, output: Option<nat>, detailCached: Option<nat>, cacheRead: Option<nat>,
             prompt: Option<nat>, input: Option<nat>, cacheCreation: Option<nat>, other: bool)

  const NO_USAGE: Usage := Counts(None, None, None, None, None, None, None, false)

  /** One entry of `delta.tool_calls`. Absent strings are "", an absent index is 0. */
  datatype Fragment = Fragment(index: nat, id: string, name: string, arguments: string)

  /** One `data:` payload after JSON parsing; only the first choice matters. */
  datatype Chunk =
    | Done
    | Malformed
    | Failure
    | Data(id: Option<string>, model: Option<string>, usage: Option<Usage>, finish: Option<string>,
           reasoning: string, text: string, calls: seq<Fragment>)

  // ---- client side ----

  datatype FinalUsage = FinalUsage(input: nat, output: nat, cacheCreation: nat, cacheRead: nat, webSearches: nat)

  function OrElse<T>(a: Option<T>, b: Option<T>): Option<T> {
    if a.Some? then a else b
  }

  function ConvertUsage(u: Usage, webSearches: nat): FinalUsage {
    match u
    case NotAnObject => FinalUsage(0, 0, 0, 0, webSearches)
    case Counts(completion, output, detailCached, cacheRead, prompt, input, cacheCreation, _) =>
      var cached := OrElse(detailCached, cacheRead).GetOr(0);
      var created := cacheCreation.GetOr(0);
      var total := OrElse(prompt, input).GetOr(0);
      FinalUsage(SaturatingSub(SaturatingSub(total, cached), created),
                 OrElse(completion, output).GetOr(0), created, cached, webSearches)
  }

  function MapStopReason(reason: Option<string>): Option<string> {
    if reason.None? then None
    else if reason.value in {"length", "max_tokens"} then Some("max_tokens")
    else if reason.value in {"tool_calls", "function_call"} then Some("tool_use")
    else if reason.value in {"content_filter", "refusal"} then Some("refusal")
    else if reason.value == "pause_turn" then Some("pause_turn")
    else Some("end_turn")
  }

  // ---- what a client is told at the end, outcome by outcome ----

  /** Which upstream finish reasons each stop reason stands for. */
  predicate StopSays(finish: string, stop: Option<string>) {
    && (stop == Some("max_tokens") <==> finish == "length" || finish == "max_tokens")
    && (stop == Some("tool_use") <==> finish == "tool_calls" || finish == "function_call")
    && (stop == Some("refusal") <==> finish == "content_filter" || finish == "refusal")
    && (stop == Some("pause_turn") <==> finish == "pause_turn")
    && (stop == Some("end_turn") <==>
          finish !in {"length", "max_tokens", "tool_calls", "function_call", "content_filter", "refusal", "pause_turn"})
  }

  /**
   The totals of a reply: every count from its own member, or the one it falls back to, or nothing; and input, cache
   reads and cache writes add up to the prompt whenever the prompt covers what was cached.
   */
  predicate UsageSays(u: Usage, webSearches: nat, r: FinalUsage) {
    && r.webSearches == webSearches
    && (u.NotAnObject? ==> r.input == r.output == r.cacheRead == r.cacheCreation == 0)
    && (u.Counts? ==>
          && Says(r.output, u.completion, u.output) && Says(r.cacheRead, u.detailCached, u.cacheRead)
          && Says(r.cacheCreation, u.cacheCreation, None)
          && var prompt := if u.prompt.Some? then u.prompt.value else if u.input.Some? then u.input.value else 0;
             if prompt >= r.cacheRead + r.cacheCreation then r.input + r.cacheRead + r.cacheCreation == prompt else r.input == 0)
  }

  /** The first of two counts, if it was sent, else the second, else nothing. */
  predicate Says(count: nat, first: Option<nat>, second: Option<nat>) {
    && (first.Some? ==> count == first.value)
    && (first.None? && second.Some? ==> count == second.value)
    && (first.None? && second.None? ==> count == 0)
  }

  lemma StopIsSaid(finish: string)
    ensures StopSays(finish, MapStopReason(Some(finish)))
  {
    assert "max_tokens"[0] != "tool_use"[0] && "refusal"[0] != "pause_turn"[0] && "end_turn"[0] != "max_tokens"[0];
    assert "tool_use"[0] != "refusal"[0] && "tool_use"[0] != "pause_turn"[0] && "end_turn"[0] != "tool_use"[0];
    assert "max_tokens"[0] != "refusal"[0] && "max_tokens"[0] != "pause_turn"[0];
    assert "end_turn"[0] != "refusal"[0] && "end_turn"[0] != "pause_turn"[0];
    assert "length"[0] != "tool_calls"[0] && "length"[0] != "function_call"[0] && "length"[0] != "content_filter"[0];
    assert "length"[0] != "refusal"[0] && "length"[0] != "pause_turn"[0] && "max_tokens"[0] != "tool_calls"[0];
    assert "max_tokens"[0] != "function_call"[0] && "max_tokens"[0] != "content_filter"[0];
    assert "tool_calls"[0] != "content_filter"[0] && "tool_calls"[0] != "refusal"[0] && "tool_calls"[0] != "pause_turn"[0];
    assert "function_call"[0] != "content_filter"[0] && "function_call"[0] != "refusal"[0] && "function_call"[0] != "pause_turn"[0];
    assert "content_filter"[0] != "pause_turn"[0];
  }

  lemma UsageIsSaid(u: Usage, webSearches: nat)
    ensures UsageSays(u, webSearches, ConvertUsage(u, webSearches))
  {
  }

  datatype BlockHead =
    | TextHead
    | ThinkingHead
    | ToolUseHead(id: string, name: string)
    | ServerUseHead(id: string, name: string)
    | SearchResultHead(toolUseId: string, content: string)

  datatype Delta =
    | TextDelta(text: string)
    | ThinkingDelta(text: string)
    | SignatureDelta
    | InputJsonDelta(json: string)

  datatype Frame =
    | Ping
    | MessageStart(id: string, model: string)
    | BlockStart(index: nat, head: BlockHead)
    | BlockDelta(index: nat, delta: Delta)
    | BlockStop(index: nat)
    | MessageDelta(stop: Option<string>, usage: FinalUsage)
    | MessageStop
    | ErrorFrame(message: string)

  /** What the client holds for one content block. */
  datatype Block = Block(head: BlockHead, body: string, closed: bool)

  datatype Phase = Waiting | Streaming | Summarised | Stopped | Failed | Violated

  datatype Client = Client(phase: Phase, blocks: seq<Block>, stop: Option<string>, usage: FinalUsage)

  const NEW_CLIENT: Client := Client(Waiting, [], None, FinalUsage(0, 0, 0, 0, 0))

  predicate Accepts(head: BlockHead, delta: Delta) {
    match delta
    case TextDelta(_) => head.TextHead?
    case ThinkingDelta(_) => head.ThinkingHead?
    case SignatureDelta => head.ThinkingHead?
    case InputJsonDelta(_) => head.ToolUseHead? || head.ServerUseHead?
  }

  function Payload(delta: Delta): string {
    match delta
    case TextDelta(t) => t
    case ThinkingDelta(t) => t
    case SignatureDelta => ""
    case InputJsonDelta(j) => j
  }

  predicate AllClosed(blocks: seq<Block>) {
    forall i | 0 <= i < |blocks| :: blocks[i].closed
  }

  /** One frame at the client. A frame out of turn leads to `Violated` for good. */
  function Receive(c: Client, f: Frame): Client {
    var bad := c.(phase := Violated);
    match f
    case Ping => if c.phase in {Waiting, Streaming} then c else bad
    case MessageStart(_, _) => if c.phase == Waiting then c.(phase := Streaming) else bad
    case BlockStart(i, head) =>
      if c.phase == Streaming && i == |c.blocks| then c.(blocks := c.blocks + [Block(head, "", false)]) else bad
    case BlockDelta(i, d) =>
      if c.phase == Streaming && i < |c.blocks| && !c.blocks[i].closed && Accepts(c.blocks[i].head, d)
      then c.(blocks := c.blocks[i := c.blocks[i].(body := c.blocks[i].body + Payload(d))])
      else bad
    case BlockStop(i) =>
      if c.phase == Streaming && i < |c.blocks| && !c.blocks[i].closed
      then c.(blocks := c.blocks[i := c.blocks[i].(closed := true)])
      else bad
    case MessageDelta(stop, usage) =>
      if c.phase == Streaming && AllClosed(c.blocks) then c.(phase := Summarised, stop := stop, usage := usage) else bad
    case MessageStop => if c.phase == Summarised then c.(phase := Stopped) else bad
    case ErrorFrame(_) => if c.phase in {Waiting, Streaming} then c.(phase := Failed) else bad
  }

  function Play(c: Client, frames: seq<Frame>): Client
    decreases frames
  {
    if frames == [] then c else Play(Receive(c, frames[0]), frames[1..])
  }

  lemma {:induction false} PlayConcat(c: Client, a: seq<Frame>, b: seq<Frame>)
    ensures Play(c, a + b) == Play(Play(c, a), b)
    decreases a
  {
    if a == [] {
      assert a + b == b;
    } else {
      assert (a + b)[1..] == a[1..] + b;
      PlayConcat(Receive(c, a[0]), a[1..], b);
    }
  }

  lemma PlayOne(c: Client, fs: seq<Frame>, f: Frame)
    ensures Play(c, fs + [f]) == Receive(Play(c, fs), f)
  {
    PlayConcat(c, fs, [f]);
    assert Play(Play(c, fs), [f]) == Receive(Play(c, fs), f);
  }

  lemma PlayNothing(c: Client)
    ensures Play(c, []) == c
  {
  }

  lemma PlaySingle(c: Client, f: Frame)
    ensures Play(c, [f]) == Receive(c, f)
  {
  }

  // ---- the lifecycle, said on the frame sequence alone ----

  predicate Ended(fs: seq<Frame>) {
    exists f | f in fs :: f.MessageDelta? || f.MessageStop? || f.ErrorFrame?
  }

  predicate Open(fs: seq<Frame>) {
    (exists f | f in fs :: f.MessageStart?) && !Ended(fs)
  }

  /** The blocks the frames have started, in order. */
  function HeadsStarted(fs: seq<Frame>): seq<BlockHead> {
    if fs == [] then []
    else HeadsStarted(fs[..|fs| - 1]) + if fs[|fs| - 1].BlockStart? then [fs[|fs| - 1].head] else []
  }

  predicate OpenBlock(fs: seq<Frame>, i: nat) {
    i < |HeadsStarted(fs)| && BlockStop(i) !in fs
  }

  /** May `f` follow the frames `before`? */
  predicate Legal(before: seq<Frame>, f: Frame) {
    match f
    case Ping => !Ended(before)
    case MessageStart(_, _) => forall g | g in before :: g.Ping?
    case BlockStart(i, _) => Open(before) && i == |HeadsStarted(before)|
    case BlockDelta(i, delta) => Open(before) && OpenBlock(before, i) && Accepts(HeadsStarted(before)[i], delta)
    case BlockStop(i) => Open(before) && OpenBlock(before, i)
    case MessageDelta(_, _) => Open(before) && forall i | 0 <= i < |HeadsStarted(before)| :: BlockStop(i) in before
    case MessageStop => before != [] && before[|before| - 1].MessageDelta?
    case ErrorFrame(_) => !Ended(before)
  }

  /** A whole run: every frame legal where it stands, ending in `message_stop` or in one error. */
  predicate OneLifecycle(fs: seq<Frame>) {
    && (forall i | 0 <= i < |fs| :: Legal(fs[..i], fs[i]))
    && fs != [] && (fs[|fs| - 1].MessageStop? || fs[|fs| - 1].ErrorFrame?)
  }

  /** What the client's state says about the frames it has taken. */
  ghost predicate Reflects(c: Client, fs: seq<Frame>) {
    && (c.phase == Waiting ==> forall f | f in fs :: f.Ping?)
    && (c.phase == Streaming ==> Open(fs))
    && (c.phase == Summarised ==> fs != [] && fs[|fs| - 1].MessageDelta?)
    && (c.phase == Stopped ==> fs != [] && fs[|fs| - 1].MessageStop?)
    && (c.phase == Failed ==> fs != [] && fs[|fs| - 1].ErrorFrame?)
    && |c.blocks| == |HeadsStarted(fs)|
    && (forall i | 0 <= i < |c.blocks| :: c.blocks[i].head == HeadsStarted(fs)[i])
    && (forall i | 0 <= i < |c.blocks| :: c.blocks[i].closed <==> BlockStop(i) in fs)
    && (forall i: nat | BlockStop(i) in fs :: i < |c.blocks|)
    && (c.phase in {Waiting, Streaming} ==> !Ended(fs))
  }

  lemma HeadsOneMore(fs: seq<Frame>, f: Frame)
    ensures HeadsStarted(fs + [f]) == HeadsStarted(fs) + if f.BlockStart? then [f.head] else []
  {
    assert (fs + [f])[..|fs|] == fs;
  }

  lemma {:induction false} ReceiveReflects(c: Client, fs: seq<Frame>, f: Frame)
    requires Reflects(c, fs) && Receive(c, f).phase != Violated
    ensures Legal(fs, f) && Reflects(Receive(c, f), fs + [f])
  {
    hide HeadsStarted;
    var gs := fs + [f];
    HeadsOneMore(fs, f);
    assert gs[|gs| - 1] == f;
    assert forall g :: g in gs <==> g in fs || g == f;
    if f.MessageDelta? {
      forall i | 0 <= i < |HeadsStarted(fs)| ensures BlockStop(i) in fs {
        assert c.blocks[i].closed;
      }
    }
    if f.MessageStart? {
      assert f in gs;
    }
  }

  /** A client that never objected has seen a legal sequence, and knows how it stands. */
  lemma {:induction false} NotViolatedIsLegal(fs: seq<Frame>)
    requires Play(NEW_CLIENT, fs).phase != Violated
    ensures forall i | 0 <= i < |fs| :: Legal(fs[..i], fs[i])
    ensures Reflects(Play(NEW_CLIENT, fs), fs)
    decreases |fs|
  {
    if fs != [] {
      var before, f := fs[..|fs| - 1], fs[|fs| - 1];
      assert fs == before + [f];
      PlayOne(NEW_CLIENT, before, f);
      NotViolatedIsLegal(before);
      ReceiveReflects(Play(NEW_CLIENT, before), before, f);
      forall i | 0 <= i < |fs| ensures Legal(fs[..i], fs[i]) {
        if i < |before| {
          assert fs[..i] == before[..i];
        }
      }
    }
  }

  /** Ending at `Stopped` or `Failed` means the frames form exactly one lifecycle. */
  lemma EndedClientMeansLifecycle(fs: seq<Frame>)
    requires Play(NEW_CLIENT, fs).phase in {Stopped, Failed}
    ensures OneLifecycle(fs)
  {
    NotViolatedIsLegal(fs);
  }
}
