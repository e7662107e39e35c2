/**
 Request rewriting before sending: the strip of historical reasoning on the wire shape
 and the lossless compaction of content arrays, as the loops edit the messages in place.
 */
module Optimize {
  import opened Prelude
  import opened History
  import opened Epoch

  /** A wire message as sent: absent members are `None`. */
  datatype Sent = Sent(role: string, content: Option<ToolContent>, reasoning: Option<string>, calls: seq<Call>,
                       toolCallId: string, isError: Option<bool>)

  function SystemParts(blocks: seq<Block>): (parts: seq<Part>)
    requires forall i | 0 <= i < |blocks| :: blocks[i].TextBlock?
  {
    seq(|blocks|, i requires 0 <= i < |blocks| => TextPart(blocks[i].text))
  }

  function RoleName(r: Role): string {
    if r.Assistant? then "assistant" else "user"
  }

  /** `into_wire`: empty reasoning is left out altogether. */
  function IntoWire(w: Wire): Sent {
    match w
    case WSystem(c) =>
      Sent("system", if c.Str? then Some(PlainContent(c.text))
                     else if c.Blocks? && SystemValid(c) then Some(PartContent(SystemParts(c.blocks))) else None,
           None, [], "", None)
    case WUser(role, c, parts) =>
      Sent(RoleName(role), Some(if c.Str? then PlainContent(c.text) else PartContent(parts)), None, [], "", None)
    case WAssistant(content, calls, reasoning) =>
      Sent("assistant", Some(PartContent(content)), if reasoning == "" then None else Some(reasoning), calls, "", None)
    case WTool(id, result, isError) => Sent("tool", Some(result), None, [], id, isError)
  }

  function IntoWires(ws: seq<Wire>): (r: seq<Sent>)
    ensures |r| == |ws| && forall i | 0 <= i < |ws| :: r[i] == IntoWire(ws[i])
  {
    seq(|ws|, i requires 0 <= i < |ws| => IntoWire(ws[i]))
  }

  function UserBoundaryFrom(ms: seq<Sent>, n: nat): (b: nat)
    requires n <= |ms| && forall i | n <= i < |ms| :: ms[i].role != "user"
    ensures b <= |ms| && (b < |ms| ==> ms[b].role == "user")
    ensures forall i | 0 <= i < |ms| && ms[i].role == "user" :: i <= b < |ms|
  {
    if n == 0 then |ms| else if ms[n - 1].role == "user" then n - 1 else UserBoundaryFrom(ms, n - 1)
  }

  function UserBoundary(ms: seq<Sent>): (b: nat)
    ensures b <= |ms| && (b < |ms| ==> ms[b].role == "user")
    ensures forall i | 0 <= i < |ms| && ms[i].role == "user" :: i <= b < |ms|
  {
    UserBoundaryFrom(ms, |ms|)
  }

  function StripSent(m: Sent): Sent {
    if m.role == "assistant" then m.(reasoning := None) else m
  }

  // ---- compaction ----

  function DropEmpty(parts: seq<Part>): (r: seq<Part>)
    ensures |r| <= |parts|
  {
    if parts == [] then []
    else
      var last := parts[|parts| - 1];
      DropEmpty(parts[..|parts| - 1]) + if last == TextPart("") then [] else [last]
  }

  function CompactContent(c: ToolContent): ToolContent {
    if c.PlainContent? then c
    else
      var kept := DropEmpty(c.parts);
      if |kept| == 1 && kept[0].TextPart? then PlainContent(kept[0].text)
      else if kept == [] then PlainContent("")
      else PartContent(kept)
  }

  /** The parts that say something, in order. */
  function Saying(parts: seq<Part>): seq<Part> {
    if parts == [] then [] else IfSaying(parts[0]) + Saying(parts[1..])
  }

  function IfSaying(part: Part): seq<Part> {
    if part == TextPart("") then [] else [part]
  }

  lemma {:induction false} SayingConcat(a: seq<Part>, b: seq<Part>)
    ensures Saying(a + b) == Saying(a) + Saying(b)
  {
    if a == [] {
      assert a + b == b;
    } else {
      hide IfSaying;
      SayingConcat(a[1..], b);
      assert (a + b)[1..] == a[1..] + b && (a + b)[0] == a[0];
      assert IfSaying(a[0]) + Saying(a[1..]) + Saying(b) == IfSaying(a[0]) + (Saying(a[1..]) + Saying(b));
    }
  }

  lemma {:induction false} KeptAreSaying(parts: seq<Part>)
    ensures DropEmpty(parts) == Saying(parts)
  {
    if parts != [] {
      var n := |parts| - 1;
      KeptAreSaying(parts[..n]);
      SayingConcat(parts[..n], [parts[n]]);
      assert parts[..n] + [parts[n]] == parts && [parts[n]][1..] == [];
    }
  }

  /** What a content value says: its parts, a plain string being one text part, empty text being nothing. */
  function Meaning(c: ToolContent): seq<Part> {
    match c
    case PlainContent(text) => if text == "" then [] else [TextPart(text)]
    case PartContent(parts) => Saying(parts)
  }

  lemma {:induction false} DropEmptyLeavesNone(parts: seq<Part>)
    ensures TextPart("") !in DropEmpty(parts)
    ensures DropEmpty(DropEmpty(parts)) == DropEmpty(parts)
  {
    if parts != [] {
      DropEmptyLeavesNone(parts[..|parts| - 1]);
      var kept, last := DropEmpty(parts[..|parts| - 1]), parts[|parts| - 1];
      if last == TextPart("") {
        assert DropEmpty(parts) == kept;
      } else {
        assert (kept + [last])[..|kept|] == kept;
      }
    }
  }

  /**
   Compaction is lossless and canonical: it never changes what the content says, and two contents
   compact to the same value exactly when they say the same.
   */
  lemma CompactionIsLossless(c: ToolContent, d: ToolContent)
    ensures Meaning(CompactContent(c)) == Meaning(c)
    ensures CompactContent(c) == CompactContent(d) <==> Meaning(c) == Meaning(d)
    ensures CompactContent(CompactContent(c)) == CompactContent(c)
  {
    CompactKeepsMeaning(c);
    CompactKeepsMeaning(d);
    CompactIsItsMeaning(c);
    CompactIsItsMeaning(d);
    CompactIsItsMeaning(CompactContent(c));
  }

  lemma CompactKeepsMeaning(c: ToolContent)
    ensures Meaning(CompactContent(c)) == Meaning(c)
  {
    if c.PartContent? {
      KeptAreSaying(c.parts);
      KeptAreSaying(DropEmpty(c.parts));
      DropEmptyLeavesNone(c.parts);
      var kept := DropEmpty(c.parts);
      if |kept| == 1 && kept[0].TextPart? {
        assert kept[0] in kept;
        assert kept == [kept[0]];
      }
    }
  }

  lemma CompactIsItsMeaning(c: ToolContent)
    ensures CompactContent(c) == var m := Meaning(c);
                                 if |m| == 1 && m[0].TextPart? then PlainContent(m[0].text)
                                 else if m == [] then PlainContent("") else PartContent(m)
  {
    if c.PartContent? {
      KeptAreSaying(c.parts);
    }
  }

  // ---- the loop ----

  datatype Options = Options(strip: bool, compact: bool)

  function OptimizeOne(m: Sent, historical: bool, o: Options): Sent {
    var s := if o.strip && historical then StripSent(m) else m;
    if o.compact && s.content.Some? then s.(content := Some(CompactContent(s.content.value))) else s
  }

  function OptimizeAll(ms: seq<Sent>, o: Options): (r: seq<Sent>)
    ensures |r| == |ms|
    ensures forall i | 0 <= i < |ms| :: r[i] == OptimizeOne(ms[i], i < UserBoundary(ms), o)
  {
    seq(|ms|, i requires 0 <= i < |ms| => OptimizeOne(ms[i], i < UserBoundary(ms), o))
  }

  /** Position of the last `user` message, searched from the back. */
  method FindUserBoundary(messages: array<Sent>) returns (b: nat)
    ensures b == UserBoundary(messages[..])
  {
    b := messages.Length;
    var i := messages.Length;
    while i > 0
      invariant 0 <= i <= messages.Length == b
      invariant forall j | i <= j < messages.Length :: messages[j].role != "user"
    {
      i := i - 1;
      if messages[i].role == "user" {
        return i;
      }
    }
  }

  method CompactInPlace(messages: array<Sent>, i: nat)
    requires i < messages.Length
    modifies messages
    ensures messages[..] == old(messages[..])[i := OptimizeOne(old(messages[i]), false, Options(false, true))]
  {
    var content := messages[i].content;
    if content.None? || content.value.PlainContent? {
      return;
    }
    var kept := DropEmpty(content.value.parts);
    if |kept| == 1 && kept[0].TextPart? {
      messages[i] := messages[i].(content := Some(PlainContent(kept[0].text)));
    } else if kept == [] {
      messages[i] := messages[i].(content := Some(PlainContent("")));
    } else {
      messages[i] := messages[i].(content := Some(PartContent(kept)));
    }
  }

  method OptimizeMessages(messages: array<Sent>, o: Options)
    modifies messages
    ensures messages[..] == OptimizeAll(old(messages[..]), o)
  {
    ghost var was := messages[..];
    var boundary := FindUserBoundary(messages);
    for i := 0 to messages.Length
      invariant forall j | 0 <= j < i :: messages[j] == OptimizeOne(was[j], j < boundary, o)
      invariant forall j | i <= j < messages.Length :: messages[j] == was[j]
    {
      if o.strip && messages[i].role == "assistant" && i < boundary {
        messages[i] := messages[i].(reasoning := None);
      }
      if o.compact {
        CompactInPlace(messages, i);
      }
    }
    assert messages[..] == OptimizeAll(was, o);
  }

  // ---- what the two passes achieve ----

  /** The message is of an earlier epoch: some user message follows it, or there is none at all. */
  predicate IsPast(ms: seq<Sent>, i: nat) {
    (forall k | 0 <= k < |ms| :: ms[k].role != "user") || exists k | i < k < |ms| :: ms[k].role == "user"
  }

  /** No shorter content says the same: no empty text among the parts, and a lone text is a plain string. */
  predicate IsTight(c: ToolContent) {
    c.PartContent? ==> c.parts != [] && TextPart("") !in c.parts && (|c.parts| == 1 ==> !c.parts[0].TextPart?)
  }

  /** What becomes of one message: reasoning of an earlier epoch goes if asked, content is tightened if asked, no more. */
  predicate IsOptimized(ms: seq<Sent>, i: nat, r: Sent, o: Options)
    requires i < |ms|
  {
    var m := ms[i];
    && r.role == m.role && r.calls == m.calls && r.toolCallId == m.toolCallId && r.isError == m.isError
    && r.reasoning == (if o.strip && m.role == "assistant" && IsPast(ms, i) then None else m.reasoning)
    && (r.content.Some? <==> m.content.Some?)
    && (!o.compact ==> r.content == m.content)
    && (o.compact && m.content.Some? ==> Meaning(r.content.value) == Meaning(m.content.value) && IsTight(r.content.value))
  }

  lemma CompactIsTight(c: ToolContent)
    ensures IsTight(CompactContent(c))
  {
    if c.PartContent? {
      DropEmptyLeavesNone(c.parts);
    }
  }

  /** The pass over the messages of a request. */
  lemma OptimizedMeans(ms: seq<Sent>, o: Options)
    ensures forall i: nat | i < |ms| :: IsOptimized(ms, i, OptimizeAll(ms, o)[i], o)
  {
    forall i: nat | i < |ms| ensures IsOptimized(ms, i, OptimizeAll(ms, o)[i], o) {
      assert "assistant"[0] != "user"[0];
      if ms[i].role == "assistant" {
        PastIsBelow(ms, i);
      }
      if ms[i].content.Some? {
        CompactKeepsMeaning(ms[i].content.value);
        CompactIsTight(ms[i].content.value);
      }
      hide IsPast, UserBoundary, CompactContent, Meaning, IsTight;
    }
  }

  lemma PastIsBelow(ms: seq<Sent>, i: nat)
    requires i < |ms| && ms[i].role != "user"
    ensures i < UserBoundary(ms) <==> IsPast(ms, i)
  {
    var b := UserBoundary(ms);
    if i < b && b < |ms| {
      assert ms[b].role == "user";
    }
  }

  /** A turn of the human: a user message with text, or with any block that is not a tool result. */
  predicate Speaks(m: Message) {
    && m.role == User
    && ((m.content.Str? && m.content.text != "")
        || (m.content.Blocks? && exists i | 0 <= i < |m.content.blocks| :: !m.content.blocks[i].ToolResult?))
  }

  /** The blocks without thinking, in order. */
  function Thoughtless(blocks: seq<Block>): seq<Block> {
    if blocks == [] then [] else IfThoughtless(blocks[0]) + Thoughtless(blocks[1..])
  }

  function IfThoughtless(b: Block): seq<Block> {
    if b.ThinkingBlock? then [] else [b]
  }

  lemma {:induction false} ThoughtlessConcat(a: seq<Block>, b: seq<Block>)
    ensures Thoughtless(a + b) == Thoughtless(a) + Thoughtless(b)
  {
    if a == [] {
      assert a + b == b;
    } else {
      hide IfThoughtless;
      ThoughtlessConcat(a[1..], b);
      assert (a + b)[1..] == a[1..] + b && (a + b)[0] == a[0];
      assert IfThoughtless(a[0]) + Thoughtless(a[1..]) + Thoughtless(b) == IfThoughtless(a[0]) + (Thoughtless(a[1..]) + Thoughtless(b));
    }
  }

  lemma {:induction false} WithoutIsThoughtless(blocks: seq<Block>)
    ensures WithoutThinking(blocks) == Thoughtless(blocks)
  {
    if blocks != [] {
      var n := |blocks| - 1;
      WithoutIsThoughtless(blocks[..n]);
      ThoughtlessConcat(blocks[..n], [blocks[n]]);
      assert blocks[..n] + [blocks[n]] == blocks && [blocks[n]][1..] == [];
    }
  }

  /**
   The strip of a request: assistant messages before the newest turn of the human, or all of them without one, lose
   exactly their thinking blocks; everything else stays as it was.
   */
  lemma StripMeans(ms: seq<Message>)
    ensures var r := StripHistory(ms);
            && |r| == |ms|
            && forall i | 0 <= i < |ms| ::
                 var past := (forall k | 0 <= k < |ms| :: !Speaks(ms[k])) || exists k | i < k < |ms| :: Speaks(ms[k]);
                 r[i] == if past && ms[i].role == Assistant && ms[i].content.Blocks? then
                           Message(Assistant, Blocks(Thoughtless(ms[i].content.blocks)))
                         else ms[i]
  {
    var b := Boundary(ms);
    hide Boundary, WithoutThinking, Thoughtless;
    forall k | 0 <= k < |ms| ensures Human(ms[k]) <==> Speaks(ms[k]) {
    }
    forall i | 0 <= i < |ms| && ms[i].content.Blocks?
      ensures WithoutThinking(ms[i].content.blocks) == Thoughtless(ms[i].content.blocks)
    {
      WithoutIsThoughtless(ms[i].content.blocks);
    }
    hide Human, Speaks;
    assert b < |ms| ==> Speaks(ms[b]);
  }

  // ---- the same loop seen from the typed wire messages ----

  predicate Speakers(ws: seq<Wire>) {
    forall i | 0 <= i < |ws| :: ws[i].WUser? ==> ws[i].role.User? || ws[i].role.Assistant?
  }

  /** Optimising with the strip alone is the typed wire strip of `Epoch`. */
  lemma StripOnTheWire(ws: seq<Wire>)
    requires Speakers(ws)
    ensures OptimizeAll(IntoWires(ws), Options(true, false)) == IntoWires(StripWireHistory(ws))
  {
    var sent := IntoWires(ws);
    assert forall i | 0 <= i < |ws| :: sent[i].role == "user" <==> WireUser(ws[i]);
    assert UserBoundary(sent) == WireBoundary(ws);
  }

  lemma {:induction false} UserOutputSpeakers(blocks: seq<Block>, declared: set<string>)
    requires UserScan(blocks, declared).Ok?
    ensures Speakers(UserScan(blocks, declared).value.output)
  {
    if blocks != [] {
      UserOutputSpeakers(blocks[..|blocks| - 1], declared);
    }
  }

  lemma {:induction false} AssistantOutputSpeakers(blocks: seq<Block>)
    requires AssistantScan(blocks).Ok?
    ensures Speakers(AssistantScan(blocks).value.output)
  {
    if blocks != [] {
      var n := |blocks| - 1;
      AssistantOutputSpeakers(blocks[..n]);
      LastScanned(blocks);
      hide AssistantScan;
      StepSpeakers(AssistantScan(blocks[..n]).value, blocks[n]);
    }
  }

  lemma StepSpeakers(a: AState, b: Block)
    requires AssistantStep(a, b).Ok? && Speakers(a.output)
    ensures Speakers(AssistantStep(a, b).value.output)
  {
  }

  lemma {:induction false} ConvertedSpeakers(ms: seq<Message>)
    requires ConvertHistory(ms).Ok?
    ensures Speakers(ConvertHistory(ms).value.wire)
  {
    if ms != [] {
      var n := |ms| - 1;
      ConvertedSpeakers(ms[..n]);
      var last := ConvertMessage(ms[n], ConvertHistory(ms[..n]).value.pending).value.wire;
      if ms[n].content.Blocks? && ms[n].role.User? {
        UserOutputSpeakers(ms[n].content.blocks, ConvertHistory(ms[..n]).value.pending);
      } else if ms[n].content.Blocks? && ms[n].role.Assistant? {
        AssistantOutputSpeakers(ms[n].content.blocks);
      }
      assert Speakers(last);
    }
  }

  /**
   What is counted is what is sent: for every accepted history on which the two strips agree, converting the
   stripped request gives the very messages the sending path leaves after its own strip.
   */
  lemma CountedIsSent(ms: seq<Message>)
    requires ConvertHistory(ms).Ok? && NoneSplits(ms, Boundary(ms)) && SameEpoch(ms)
    ensures ConvertHistory(StripHistory(ms)).Ok?
    ensures OptimizeAll(IntoWires(ConvertHistory(ms).value.wire), Options(true, false))
         == IntoWires(ConvertHistory(StripHistory(ms)).value.wire)
  {
    StrippingCommutesExactlyWhen(ms);
    ConvertedSpeakers(ms);
    StripOnTheWire(ConvertHistory(ms).value.wire);
  }

  // ---- the counting path's loop ----

  method StripAnthropicThinking(messages: array<Message>) returns (removed: nat)
    modifies messages
    ensures messages[..] == StripHistory(old(messages[..]))
    ensures removed == TotalBlocks(old(messages[..])) - TotalBlocks(messages[..])
  {
    ghost var was := messages[..];
    var boundary := Boundary(messages[..]);
    removed := 0;
    ghost var target := StripBelow(was, boundary);
    for i := 0 to boundary
      invariant messages[..] == StripBelow(was, i)
      invariant removed == TotalBlocks(was) - TotalBlocks(messages[..])
    {
      if messages[i].role.Assistant? && messages[i].content.Blocks? {
        var before := |messages[i].content.blocks|;
        var kept := WithoutThinking(messages[i].content.blocks);
        ghost var prev := messages[..];
        messages[i] := messages[i].(content := Blocks(kept));
        removed := removed + (before - |kept|);
        TotalAfter(prev, i, messages[i]);
        assert messages[..] == prev[i := messages[i]];
      }
      assert messages[..] == StripBelow(was, i + 1);
    }
  }

  function BlockCount(m: Message): nat {
    if m.content.Blocks? then |m.content.blocks| else 0
  }

  function TotalBlocks(ms: seq<Message>): nat {
    if ms == [] then 0 else TotalBlocks(ms[..|ms| - 1]) + BlockCount(ms[|ms| - 1])
  }

  lemma {:induction false} TotalAfter(ms: seq<Message>, i: nat, m: Message)
    requires i < |ms|
    ensures TotalBlocks(ms[i := m]) == TotalBlocks(ms) - BlockCount(ms[i]) + BlockCount(m)
    decreases |ms|
  {
    var n := |ms| - 1;
    if i == n {
      assert ms[i := m][..n] == ms[..n];
    } else {
      TotalAfter(ms[..n], i, m);
      assert ms[i := m][..n] == ms[..n][i := m];
    }
  }
}
