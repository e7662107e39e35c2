/** The tool-adjacency contract of the wire messages an accepted history turns into. */
module Adjacency {
  import opened Prelude
  import opened History
  import opened Epoch
  import opened Fidelity

  predicate Declares(w: Wire, id: string) {
    w.WAssistant? && exists i | 0 <= i < |w.calls| :: w.calls[i].id == id
  }

  predicate DeclaredIn(ws: seq<Wire>, id: string) {
    exists q | 0 <= q < |ws| :: Declares(ws[q], id)
  }

  /** Every tool message answers a call some earlier assistant message declared. */
  predicate Answering(ws: seq<Wire>) {
    forall p | 0 <= p < |ws| && ws[p].WTool? :: DeclaredIn(ws[..p], ws[p].id)
  }

  /** Between the message at `p` and the assistant message declaring its call lie only tool messages, none with its id. */
  ghost predicate FollowsItsCall(ws: seq<Wire>, p: nat)
    requires p < |ws| && ws[p].WTool?
  {
    exists q | 0 <= q < p :: Declares(ws[q], ws[p].id) && forall r | q < r < p :: ws[r].WTool? && ws[r].id != ws[p].id
  }

  ghost predicate Adjacent(ws: seq<Wire>) {
    forall p | 0 <= p < |ws| && ws[p].WTool? :: FollowsItsCall(ws, p)
  }

  lemma DeclaredInMore(ws: seq<Wire>, more: seq<Wire>, id: string)
    requires DeclaredIn(ws, id)
    ensures DeclaredIn(ws + more, id)
  {
    var q :| 0 <= q < |ws| && Declares(ws[q], id);
    assert (ws + more)[q] == ws[q];
  }

  lemma AnsweringOne(ws: seq<Wire>, w: Wire)
    requires Answering(ws) && (w.WTool? ==> DeclaredIn(ws, w.id))
    ensures Answering(ws + [w])
  {
    var all := ws + [w];
    forall p | 0 <= p < |all| && all[p].WTool? ensures DeclaredIn(all[..p], all[p].id) {
      assert all[..p] == ws[..p];
      assert ws[..|ws|] == ws;
    }
  }

  // ---- within one assistant message ----

  predicate CallsHave(calls: seq<Call>, id: string) {
    exists i | 0 <= i < |calls| :: calls[i].id == id
  }

  ghost predicate Backed(a: AState) {
    && Answering(a.output)
    && (forall id | id in a.uses :: CallsHave(a.serverCalls, id) || DeclaredIn(a.output, id))
    && (forall id | id in a.pending :: CallsHave(a.segment.calls, id) || DeclaredIn(a.output, id))
  }

  lemma CallsHaveMore(calls: seq<Call>, c: Call, id: string)
    ensures CallsHave(calls + [c], id) <==> CallsHave(calls, id) || c.id == id
  {
    assert (calls + [c])[|calls|] == c;
    assert forall i | 0 <= i < |calls| :: (calls + [c])[i] == calls[i];
  }

  /** Emitting a message that declares `calls` keeps what was declared and adds them. */
  lemma PushDeclares(ws: seq<Wire>, w: Wire, id: string)
    ensures DeclaredIn(ws + [w], id) <==> DeclaredIn(ws, id) || Declares(w, id)
  {
    assert (ws + [w])[|ws|] == w;
    assert forall i | 0 <= i < |ws| :: (ws + [w])[i] == ws[i];
  }

  lemma FlushBacked(a: AState)
    requires Backed(a)
    ensures Backed(Flush(a)) && forall id | id in a.pending :: DeclaredIn(Flush(a).output, id)
  {
    var w := WAssistant(a.segment.content, a.segment.calls, a.segment.reasoning);
    AnsweringOne(a.output, w);
    forall id {
      PushDeclares(a.output, w, id);
    }
  }

  lemma FlushServerBacked(a: AState)
    requires Backed(a)
    ensures Backed(FlushServerCalls(a)) && forall id | id in a.uses :: DeclaredIn(FlushServerCalls(a).output, id)
  {
    var w := WAssistant([], a.serverCalls, "");
    AnsweringOne(a.output, w);
    forall id {
      PushDeclares(a.output, w, id);
    }
  }

  lemma StepBacked(a: AState, b: Block)
    requires Backed(a) && AssistantStep(a, b).Ok?
    ensures Backed(AssistantStep(a, b).value)
  {
    match b
    case ToolUse(id, name, input) =>
      forall x {
        CallsHaveMore(a.segment.calls, Call(id, name, input), x);
      }
    case ServerToolUse(id, name, input) =>
      FlushBacked(a);
      forall x {
        CallsHaveMore(Flush(a).serverCalls, Call(id, name, input.value), x);
      }
    case SearchResult(id, rendered) =>
      FlushServerBacked(a);
      var f := FlushServerCalls(a);
      var w := WTool(id, PlainContent(rendered), None);
      AnsweringOne(f.output, w);
      forall x {
        PushDeclares(f.output, w, x);
      }
    case _ =>
  }

  lemma {:induction false} ScanBacked(blocks: seq<Block>)
    requires AssistantScan(blocks).Ok?
    ensures Backed(AssistantScan(blocks).value)
  {
    if blocks != [] {
      ScanBacked(blocks[..|blocks| - 1]);
      StepBacked(AssistantScan(blocks[..|blocks| - 1]).value, blocks[|blocks| - 1]);
    }
  }

  // ---- whole histories ----

  lemma {:induction false} UserOutput(blocks: seq<Block>, declared: set<string>)
    requires UserScan(blocks, declared).Ok?
    ensures var u := UserScan(blocks, declared).value;
            && (forall i | 0 <= i < |u.output| :: u.output[i].WTool? && u.output[i].id in declared && u.output[i].id in u.answered)
            && (forall i, j | 0 <= i < j < |u.output| :: u.output[i].id != u.output[j].id)
  {
    if blocks != [] {
      UserOutput(blocks[..|blocks| - 1], declared);
    }
  }

  /** What one message adds: tool messages for declared ids first, and only in user messages. */
  lemma MessageAnswers(m: Message, declared: set<string>)
    requires ConvertMessage(m, declared).Ok?
    ensures var c := ConvertMessage(m, declared).value;
            && (forall p | 0 <= p < |c.wire| && c.wire[p].WTool? :: c.wire[p].id in declared || DeclaredIn(c.wire[..p], c.wire[p].id))
            && (forall id | id in c.pending :: DeclaredIn(c.wire, id))
  {
    if m.content.Blocks? {
      if m.role.Assistant? {
        var a := AssistantScan(m.content.blocks).value;
        ScanBacked(m.content.blocks);
        FlushBacked(a);
      } else if m.role.User? {
        UserOutput(m.content.blocks, declared);
      }
    }
  }

  /** Every tool message of an accepted history names a call declared by an earlier assistant message. */
  lemma {:induction false} AcceptedAnswers(ms: seq<Message>)
    requires ConvertHistory(ms).Ok?
    ensures Answering(ConvertHistory(ms).value.wire)
    ensures forall id | id in ConvertHistory(ms).value.pending :: DeclaredIn(ConvertHistory(ms).value.wire, id)
  {
    if ms != [] {
      var n := |ms| - 1;
      AcceptedAnswers(ms[..n]);
      var before := ConvertHistory(ms[..n]).value;
      var last := ConvertMessage(ms[n], before.pending).value;
      MessageAnswers(ms[n], before.pending);
      var all := before.wire + last.wire;
      forall p | 0 <= p < |all| && all[p].WTool? ensures DeclaredIn(all[..p], all[p].id) {
        if p < |before.wire| {
          assert all[..p] == before.wire[..p];
        } else {
          var k := p - |before.wire|;
          assert all[..p] == before.wire + last.wire[..k];
          if last.wire[k].id in before.pending {
            DeclaredInMore(before.wire, last.wire[..k], last.wire[k].id);
          } else {
            DeclaredLater(before.wire, last.wire[..k], last.wire[k].id);
          }
        }
      }
      forall id | id in last.pending ensures DeclaredIn(all, id) {
        DeclaredLater(before.wire, last.wire, id);
      }
    }
  }

  lemma DeclaredLater(ws: seq<Wire>, more: seq<Wire>, id: string)
    requires DeclaredIn(more, id)
    ensures DeclaredIn(ws + more, id)
  {
    var q :| 0 <= q < |more| && Declares(more[q], id);
    assert (ws + more)[|ws| + q] == more[q];
  }

  /** Without server tools, the ids that may be answered next are all declared by the very last wire message. */
  ghost predicate LastDeclares(c: Converted) {
    forall id | id in c.pending :: c.wire != [] && Declares(c.wire[|c.wire| - 1], id)
  }

  lemma MessageLastDeclares(m: Message, declared: set<string>)
    requires ConvertMessage(m, declared).Ok? && (m.content.Blocks? ==> NoServerBlocks(m.content.blocks))
    ensures LastDeclares(ConvertMessage(m, declared).value)
  {
    if m.content.Blocks? && m.role.Assistant? {
      AssistantIsOneMessage(m.content.blocks);
      ConvertAssistantMeans(m.content.blocks);
      forall id | id in ToolIds(m.content.blocks)
        ensures Declares(WAssistant(Texts(m.content.blocks), Calls(m.content.blocks), Thoughts(m.content.blocks)), id)
      {
        ToolIdsAreCalls(m.content.blocks, id);
      }
    }
  }

  lemma {:induction false} ToolIdsAreCalls(blocks: seq<Block>, id: string)
    requires id in ToolIds(blocks)
    ensures CallsHave(Calls(blocks), id)
  {
    var before, b := blocks[..|blocks| - 1], blocks[|blocks| - 1];
    assert blocks == before + [b];
    OneMoreBlock(before, b);
    if id in ToolIds(before) {
      ToolIdsAreCalls(before, id);
    }
    if b.ToolUse? {
      CallsHaveMore(Calls(before), Call(b.id, b.name, b.input), id);
    } else {
      assert Calls(blocks) == Calls(before);
    }
  }

  /** The tool messages a user message adds sit right behind the message that declared them. */
  lemma AppendAdjacent(c: Converted, more: seq<Wire>, n: nat)
    requires Adjacent(c.wire) && LastDeclares(c) && n <= |more|
    requires forall i | 0 <= i < n :: more[i].WTool? && more[i].id in c.pending
    requires forall i, j | 0 <= i < j < n :: more[i].id != more[j].id
    requires forall i | n <= i < |more| :: !more[i].WTool?
    ensures Adjacent(c.wire + more)
  {
    var all := c.wire + more;
    forall p | 0 <= p < |all| && all[p].WTool? ensures FollowsItsCall(all, p) {
      if p < |c.wire| {
        assert FollowsItsCall(c.wire, p);
        var q :| 0 <= q < p && Declares(c.wire[q], c.wire[p].id)
                 && forall r | q < r < p :: c.wire[r].WTool? && c.wire[r].id != c.wire[p].id;
        assert Declares(all[q], all[p].id) && forall r | q < r < p :: all[r].WTool? && all[r].id != all[p].id;
      } else {
        var q := |c.wire| - 1;
        assert all[p] == more[p - |c.wire|];
        assert Declares(all[q], all[p].id);
        forall r | q < r < p ensures all[r].WTool? && all[r].id != all[p].id {
          assert all[r] == more[r - |c.wire|];
        }
      }
    }
  }

  /**
   Without server tools every tool message follows the assistant message that declared its call, with only
   tool messages in between, and answers an id no other tool message behind that call answers.
   */
  lemma {:induction false} AcceptedIsAdjacent(ms: seq<Message>)
    requires ConvertHistory(ms).Ok? && NoServerTools(ms)
    ensures Adjacent(ConvertHistory(ms).value.wire) && LastDeclares(ConvertHistory(ms).value)
  {
    if ms != [] {
      var n := |ms| - 1;
      var m := ms[n];
      AcceptedIsAdjacent(ms[..n]);
      var before := ConvertHistory(ms[..n]).value;
      var last := ConvertMessage(m, before.pending).value;
      MessageLastDeclares(m, before.pending);
      if m.role.User? && m.content.Blocks? {
        UserOutput(m.content.blocks, before.pending);
        AppendAdjacent(before, last.wire, |UserScan(m.content.blocks, before.pending).value.output|);
      } else {
        MessageOnWire(m, before.pending);
        if m.role.Assistant? && m.content.Blocks? {
          AssistantIsOneMessage(m.content.blocks);
        }
        AppendAdjacent(before, last.wire, 0);
      }
      LastDeclaresAfter(before.wire, last);
    }
  }

  lemma LastDeclaresAfter(ws: seq<Wire>, c: Converted)
    requires LastDeclares(c)
    ensures LastDeclares(Converted(ws + c.wire, c.pending))
  {
    if c.wire != [] {
      assert (ws + c.wire)[|ws + c.wire| - 1] == c.wire[|c.wire| - 1];
    }
  }
}
